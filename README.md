# Weather detail screen: presentation mapper and loading lifecycle

A Dafny model of the logic inside the weather detail screen of a React Native
weather app. The screen fetches a weather payload for one city when it mounts,
shows a spinner until the payload arrives, and then renders it. The model
covers:

- the **sky text**: the cloud-cover percentage (`clouds.all`) goes into one of
  five buckets by `Math.min(parseInt(c / 20), 4)`, and an absent percentage
  shows "Null";
- the **wind-speed text**: a falsy speed (absent or zero) shows "Null",
  any other speed shows `${speed}m/s`, with JavaScript's number-to-text
  written out for speeds given to two decimals and at most 15 significant
  digits;
- the **background gradient**: the first weather condition's category is
  looked up in the eight-entry `weatherConditions` table, and a lookup that
  throws falls back to the error panel;
- **render()** as a whole: the spinner while loading, the throw that escapes
  render when the `weather` list is missing or empty, the error panel for
  every throw inside the `try`, and the details view otherwise, with the
  static map left out when no map API key is configured;
- the **lifecycle**: a class whose constructor, `ComponentDidMount` and
  `FetchCompleted` update the loading flag and the merged payload in place,
  plus a replay of mount and fetch events that proves only a mount turns the
  spinner back on.

Files: `wrappers.dfy` (Option), `number_text.dfy` (decimal text of numbers
and its reader), `presentation.dfy` (sky, wind and gradient mappers),
`screen.dfy` (payload, render, lifecycle and the screen class).

Three behaviours of render() worth knowing:

- Not every exception in render() is caught: `this.state.weather[0].main` is
  read before the `try` (src/screens/WeatherDetailScreen.js:143), so a
  missing or empty `weather` list throws out of render. `RenderScreen`
  returns `Crashed` for it.
- `"Error"` is also an ordinary key of the table, so a category named
  "Error" shows the details under the error gradient (`ErrorKeyShowsDetails`).
- Inside the `try`, render throws not only for an unknown category but also
  for a missing `main` (read by the temperature text) and a missing `coord`
  (destructured before the map key guard). All of these give the error
  panel (`ErrorPanelExactly`).

## Model

| member | source | states |
|---|---|---|
| Presentation.CloudBucket | src/screens/WeatherDetailScreen.js:50 | the bucket is a valid index into the five descriptions; each bucket below the last covers exactly twenty percentage points and the last covers 80 to 100 |
| Presentation.SkyText | src/screens/WeatherDetailScreen.js:40-50 | the text is "Null" exactly when the cloud cover is absent, and otherwise one of the five descriptions |
| Presentation.SkyTextDeterminesBucket | src/screens/WeatherDetailScreen.js:42-50 | reading the sky text back gives the bucket the percentage fell into, or none for an absent reading |
| Presentation.SkyTextRanges | src/screens/WeatherDetailScreen.js:42-50 | 0-19 is "Clear", 20-39 "Partly Cloudy", 40-59 "Cloudy", 60-79 "Partly Overcast", 80-100 "Overcast" |
| Presentation.CloudBucketMonotone | src/screens/WeatherDetailScreen.js:50 | more cloud cover never gives a lower bucket |
| Presentation.CloudClampOnlyAtHundred | src/screens/WeatherDetailScreen.js:50 | the unclamped quotient is out of range for 100 only, which the clamp sends to "Overcast" |
| Presentation.WindText | src/screens/WeatherDetailScreen.js:72 | the wind text is "Null" exactly when the speed is falsy (absent or zero) |
| Presentation.WindTextShowsSpeed | src/screens/WeatherDetailScreen.js:58-72 | a falsy speed shows "Null"; any other speed shows a text ending in "m/s" from which that very speed is read back |
| NumberText.NatText | src/screens/WeatherDetailScreen.js:72 | the decimal text of the whole part of a speed: digits only, never empty, and no leading zero unless the number is zero |
| NumberText.CentiText | src/screens/WeatherDetailScreen.js:72 | the `${speed}` text of a speed given in hundredths is never empty and starts with a digit |
| NumberText.NatTextRoundTrip | src/screens/WeatherDetailScreen.js:72 | the decimal text of a whole number reads back as that number |
| NumberText.CentiTextRoundTrip | src/screens/WeatherDetailScreen.js:72 | the text of a speed with up to two decimals reads back as that speed |
| NumberText.CentiTextInjective | src/screens/WeatherDetailScreen.js:72 | two different speeds never show the same text |
| Presentation.Key | src/screens/WeatherDetailScreen.js:171-195 | each of the eight categories is stored under a key of the table, and looking that key up finds the category again |
| Presentation.CategoryOfKey | src/screens/WeatherDetailScreen.js:171-196 | a key is found exactly when it is one of the table's eight keys |
| Presentation.CategoryOfKeyFindsKey | src/screens/WeatherDetailScreen.js:171-196 | a string is a key of the table exactly when some category is stored under it, and the category found is the one stored under that key |
| Presentation.GradientOf | src/screens/WeatherDetailScreen.js:171-195 | the table's gradients; the error gradient is stored under "Error" and under no weather category |
| Presentation.LookupGradient | src/screens/WeatherDetailScreen.js:147 | the lookup yields a gradient exactly for a key of the table, and then the gradient stored under it |
| WeatherDetail.Merge | src/screens/WeatherDetailScreen.js:24-27 | the merged state carries the keys of both; keys of the payload take its values and all other keys keep their old ones; whole percentages stay whole |
| WeatherDetail.MergeIdempotent | src/screens/WeatherDetailScreen.js:24-27 | merging the same payload again changes nothing |
| WeatherDetail.MapElement | src/screens/WeatherDetailScreen.js:105-109 | there is no map element exactly when the API key is absent or empty; otherwise the map is centred on the city and uses the key |
| WeatherDetail.SkyLabel | src/screens/WeatherDetailScreen.js:40-53 | the sky line is "Sky: " and then "Null" exactly when the cloud cover is absent, otherwise a description that reads back as the cover's bucket |
| WeatherDetail.WindLabel | src/screens/WeatherDetailScreen.js:58-72 | the wind line is "Wind Speed: " and then "Null" exactly when the speed is falsy, otherwise a text that reads back as that speed |
| WeatherDetail.DetailsView | src/screens/WeatherDetailScreen.js:146-157 | the view inside the `try` shows the category's gradient, the sky and wind lines, every weather condition, and a map element exactly when the key is usable |
| WeatherDetail.RenderScreen | src/screens/WeatherDetailScreen.js:125-168 | the spinner is shown exactly while loading; render throws exactly when loaded with a missing or empty weather list; any error panel is the error gradient with the fixed message |
| WeatherDetail.GradientSelection | src/screens/WeatherDetailScreen.js:143-167 | a category in the table gives the details under its gradient; any other key gives the error panel |
| WeatherDetail.ErrorPanelExactly | src/screens/WeatherDetailScreen.js:143-167 | with a non-empty weather list, the error panel is shown exactly when the category is unknown or `main` or `coord` is missing |
| WeatherDetail.ErrorKeyShowsDetails | src/screens/WeatherDetailScreen.js:193-195 | the category "Error" shows the details, not the error message, under the error gradient |
| WeatherDetail.MapKeyAffectsOnlyMap | src/screens/WeatherDetailScreen.js:100-123 | renders that differ only in the map key agree on everything but the map element, and without a usable key there is no map element |
| WeatherDetail.Step | src/screens/WeatherDetailScreen.js:19-27 | the flag is set exactly by a mount; a completed fetch gives each key it carries its value, and every other key keeps its value |
| WeatherDetail.Run | src/screens/WeatherDetailScreen.js:19-27 | after any events the state has exactly the keys it started with and those some fetch delivered; no key is ever lost |
| WeatherDetail.OnlyMountStartsLoading | src/screens/WeatherDetailScreen.js:18-27 | after any events the screen is loading exactly when the last event was a mount (or there was none and it was loading) |
| WeatherDetail.FetchedFieldPersists | src/screens/WeatherDetailScreen.js:19-27 | a key delivered by a fetch keeps its value through later mounts and through later fetches that do not carry it |
| WeatherDetail.RunWellFormed | src/screens/WeatherDetailScreen.js:24-27 | payloads with whole cloud percentages keep the state's percentage whole |
| WeatherDetail.SpinnerUntilFetched | src/screens/WeatherDetailScreen.js:135-141 | from construction on, the render is the spinner exactly when no event happened yet or the last event was a mount |
| WeatherDetail.WeatherDetailScreen.constructor | src/screens/WeatherDetailScreen.js:10-16 | the state starts loading, with no payload |
| WeatherDetail.WeatherDetailScreen.ComponentDidMount | src/screens/WeatherDetailScreen.js:18-19 | the flag is set to loading and the payload is kept |
| WeatherDetail.WeatherDetailScreen.FetchCompleted | src/screens/WeatherDetailScreen.js:22-28 | the payload is merged into the state and the flag is cleared |
| WeatherDetail.WeatherDetailScreen.Render | src/screens/WeatherDetailScreen.js:125-168 | returns the render of the current state, and changes nothing |

## Left out

- Temperature text (`main.temp - 273.15` with `toFixed(1)`): floating-point formatting. Only whether `main` is present is modelled, since its absence makes render throw.
- The network fetch, the weather client, `console.log` and the missing rejection handler: asynchronous I/O through a client that is not part of this model. A fetch that never resolves is a run with no `FetchResolved` event, which keeps the spinner on.
- A fetch completing after the screen unmounted, and React's batching of `setState`: the model applies each update at once, in order.
- The navigation title, JSX layout, styles, the condition icons and images, and the map URL string: UI and foreign components. The map element records only its centre and key.
- The wind arrow's rotation (`wind.deg`): it only interpolates the angle into a style string.
- Cloud cover outside 0..100 or not a whole number: outside the payload's domain, excluded by `WellFormed`.
- JSON `null` values: a key holding `null` is treated like an absent key.
- Malformed entries of the `weather` list (for example a `null` entry): a malformed first entry throws out of render at src/screens/WeatherDetailScreen.js:143, outside the `try`, and a malformed later entry throws inside the `try` when renderWeatherCondition destructures it (lines 83-86). The model takes every entry as a condition record.
- Presentation.WindText: speeds are taken in hundredths of a metre per second, and the text matches JavaScript's only for speeds of at most 15 significant digits (hundredths below 10^15). Beyond that, double-precision rounding, the exponent notation JavaScript uses from 1e21 upwards, and NaN speeds are not modelled.
- Presentation.LookupGradient: keys that JavaScript finds on the object's prototype (such as "constructor" or "toString") do not throw in the source; the model treats every key outside the table as unknown.
