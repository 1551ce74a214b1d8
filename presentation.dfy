/** The presentation mapper of the weather detail screen: the sky text chosen
    from the cloud-cover percentage, the wind-speed text, and the background
    gradient chosen from the primary weather category. */
module Presentation {
  import opened Wrappers
  import opened NumberText

  // ---------------------------------------------------------------------
  // Sky text (renderClouds)
  // ---------------------------------------------------------------------

  /** The five sky descriptions, from clearest to most overcast. */
  const CloudStatus: seq<string> :=
    ["Clear", "Partly Cloudy", "Cloudy", "Partly Overcast", "Overcast"]

  /** The text shown for a reading that is absent. */
  const NullText: string := "Null"

  /** The bucket of a cloud-cover percentage: `Math.min(parseInt(c / 20), 4)`.
      For a whole c in 0..100, parseInt of the quotient is its floor. Each
      bucket below the last covers twenty percentage points; the last one
      covers 80 to 100. */
  function CloudBucket(c: int): (b: nat)
    requires 0 <= c <= 100
    ensures b < |CloudStatus|
    ensures b < 4 ==> 20 * b <= c < 20 * b + 20
    ensures b == 4 <==> 80 <= c
  {
    if c / 20 < 4 then c / 20 else 4
  }

  /** The sky text for an optional cloud cover (`clouds.all`): "Null" when it
      is absent, otherwise the description of its bucket. */
  function SkyText(clouds: Option<int>): (t: string)
    requires clouds.Some? ==> 0 <= clouds.value <= 100
    ensures t == NullText <==> clouds.None?
    ensures clouds.Some? ==> t in CloudStatus
  {
    match clouds
    case None => NullText
    case Some(c) => CloudStatus[CloudBucket(c)]
  }

  /** The bucket a sky description stands for, or None for any other text. */
  function BucketOfText(t: string): (b: Option<nat>)
    ensures b.Some? ==> b.value < |CloudStatus| && CloudStatus[b.value] == t
    ensures b.None? ==> t !in CloudStatus
  {
    if t == "Clear" then Some(0)
    else if t == "Partly Cloudy" then Some(1)
    else if t == "Cloudy" then Some(2)
    else if t == "Partly Overcast" then Some(3)
    else if t == "Overcast" then Some(4)
    else None
  }

  /** The sky text names exactly one bucket: reading it back gives the bucket
      the percentage fell into, and an absent reading reads back as none. */
  lemma SkyTextDeterminesBucket(clouds: Option<int>)
    requires clouds.Some? ==> 0 <= clouds.value <= 100
    ensures BucketOfText(SkyText(clouds)) ==
              if clouds.None? then None else Some(CloudBucket(clouds.value))
  {
  }

  /** The five ranges of cloud cover and their descriptions. */
  lemma SkyTextRanges(c: int)
    requires 0 <= c <= 100
    ensures 0 <= c <= 19 ==> SkyText(Some(c)) == "Clear"
    ensures 20 <= c <= 39 ==> SkyText(Some(c)) == "Partly Cloudy"
    ensures 40 <= c <= 59 ==> SkyText(Some(c)) == "Cloudy"
    ensures 60 <= c <= 79 ==> SkyText(Some(c)) == "Partly Overcast"
    ensures 80 <= c <= 100 ==> SkyText(Some(c)) == "Overcast"
  {
  }

  /** More cloud cover never gives a clearer bucket. */
  lemma CloudBucketMonotone(c: int, d: int)
    requires 0 <= c <= d <= 100
    ensures CloudBucket(c) <= CloudBucket(d)
  {
  }

  /** The clamp to the last bucket matters for one value only: 100 / 20 is 5,
      one past the end of CloudStatus, and every other percentage already
      lands inside it. */
  lemma CloudClampOnlyAtHundred(c: int)
    requires 0 <= c <= 100
    ensures c / 20 >= |CloudStatus| <==> c == 100
    ensures c == 100 ==> CloudBucket(c) == |CloudStatus| - 1
  {
  }

  // ---------------------------------------------------------------------
  // Wind-speed text (renderWind)
  // ---------------------------------------------------------------------

  /** A wind speed in metres per second, held in hundredths (the weather
      service reports it with at most two decimals). */
  datatype Speed = Speed(hundredths: nat)

  /** JavaScript truthiness of the optional speed: absent and zero are falsy. */
  predicate Truthy(speed: Option<Speed>) {
    speed.Some? && speed.value.hundredths != 0
  }

  /** `speed ? `${speed}m/s` : `Null``. */
  function WindText(speed: Option<Speed>): (t: string)
    ensures t == NullText <==> !Truthy(speed)
  {
    if Truthy(speed) then
      var t := CentiText(speed.value.hundredths) + "m/s";
      assert t[0] != NullText[0];
      t
    else NullText
  }

  /** Reads a wind text back into the speed it shows; None for "Null" and for
      any text WindText does not write. */
  function ParseWindText(t: string): Option<Speed> {
    if |t| >= 3 && t[|t| - 3..] == "m/s" then
      match ParseCenti(t[..|t| - 3])
      case None => None
      case Some(h) => Some(Speed(h))
    else None
  }

  /** The wind text is "Null" exactly for a falsy speed, and otherwise shows
      that very speed followed by "m/s". */
  lemma WindTextShowsSpeed(speed: Option<Speed>)
    ensures !Truthy(speed) ==> WindText(speed) == NullText
    ensures Truthy(speed) ==> ParseWindText(WindText(speed)) == speed
  {
    if Truthy(speed) {
      var t := WindText(speed);
      var digits := CentiText(speed.value.hundredths);
      assert t[..|t| - 3] == digits;
      CentiTextRoundTrip(speed.value.hundredths);
    }
  }

  // ---------------------------------------------------------------------
  // Background gradient (the weatherConditions table)
  // ---------------------------------------------------------------------

  /** The keys of the weatherConditions table. */
  datatype Category = Thunderstorm | Drizzle | Rain | Snow | Atmosphere | Clear | Clouds | Error

  /** The two colours of a LinearGradient, top to bottom. */
  datatype Gradient = Gradient(top: string, bottom: string)

  /** The eight keys of the weatherConditions table. */
  const TableKeys: set<string> :=
    {"Thunderstorm", "Drizzle", "Rain", "Snow", "Atmosphere", "Clear", "Clouds", "Error"}

  /** The key under which each category is stored in the table; looking
      that key up finds the category again. */
  function Key(c: Category): (k: string)
    ensures k in TableKeys && CategoryOfKey(k) == Some(c)
  {
    match c
    case Thunderstorm => "Thunderstorm"
    case Drizzle => "Drizzle"
    case Rain => "Rain"
    case Snow => "Snow"
    case Atmosphere => "Atmosphere"
    case Clear => "Clear"
    case Clouds => "Clouds"
    case Error => "Error"
  }

  /** Looking a string up among the table's keys: the category stored under
      it, or None when the table has no such key. */
  function CategoryOfKey(k: string): (r: Option<Category>)
    ensures r.Some? <==> k in TableKeys
  {
    if k == "Thunderstorm" then Some(Thunderstorm)
    else if k == "Drizzle" then Some(Drizzle)
    else if k == "Rain" then Some(Rain)
    else if k == "Snow" then Some(Snow)
    else if k == "Atmosphere" then Some(Atmosphere)
    else if k == "Clear" then Some(Clear)
    else if k == "Clouds" then Some(Clouds)
    else if k == "Error" then Some(Error)
    else None
  }

  /** The lookup finds a category exactly under a key of the table, and the
      category it finds is stored under that very key. */
  lemma CategoryOfKeyFindsKey(k: string)
    ensures k in TableKeys <==> exists c: Category :: Key(c) == k
    ensures CategoryOfKey(k).Some? ==> Key(CategoryOfKey(k).value) == k
  {
    if k in TableKeys {
      assert Key(CategoryOfKey(k).value) == k;
    }
  }

  /** The gradient of the error panel. */
  const ErrorGradient: Gradient := Gradient("#636363", "#a2ab58")

  /** The gradient stored for each category. Only the "Error" entry holds
      the error panel's gradient, so no weather category looks like it. */
  function GradientOf(c: Category): (g: Gradient)
    ensures g == ErrorGradient <==> c == Error
  {
    match c
    case Thunderstorm => Gradient("#1F1C2C", "#928DAB")
    case Drizzle => Gradient("#59C173", "#5D26C1")
    case Rain => Gradient("#005AA7", "#FFFDE4")
    case Snow => Gradient("#E0EAFC", "#CFDEF3")
    case Atmosphere => Gradient("#FC5C7D", "#6A82FB")
    case Clear => Gradient("#e1eec3", "#f05053")
    case Clouds => Gradient("#4ECDC4", "#556270")
    case Error => Gradient("#636363", "#a2ab58")
  }

  /** `weatherConditions[key].gradient`: the gradient under the key, or None
      where the lookup yields undefined and reading `.gradient` throws. */
  function LookupGradient(key: string): (g: Option<Gradient>)
    ensures g.Some? <==> key in TableKeys
    ensures forall c: Category :: Key(c) == key ==> g == Some(GradientOf(c))
  {
    match CategoryOfKey(key)
    case None => None
    case Some(c) => Some(GradientOf(c))
  }
}
