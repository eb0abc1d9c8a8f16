/** The pure parts of the article card: the relative publication time shown
    on each card, the category badge's colour and label, and the staggered
    entrance-animation delay. */
module NewsCard {
  import opened NewsTypes
  import opened Decimal

  /** The branch of the relative-time formatter an age falls into. */
  datatype TimeAgo =
    | JustNow
    | MinutesAgo(minutes: nat)
    | HoursAgo(hours: nat)
    | Yesterday
    | DaysAgo(days: nat)
    | CalendarDate

  /** Buckets the age of an article (now minus publication time, in ms) with
      floor divisions into minutes, hours and days, checked in that order.
      The contract says what each label means about the age; ages below one
      minute, including negative ones (dates in the future), are "now". */
  function TimeAgoBucket(diffMs: int): (b: TimeAgo)
    ensures b == JustNow <==> diffMs < MsPerMinute
    ensures b.MinutesAgo? <==> MsPerMinute <= diffMs < MsPerHour
    ensures b.MinutesAgo? ==>
      1 <= b.minutes < 60 && b.minutes * MsPerMinute <= diffMs < (b.minutes + 1) * MsPerMinute
    ensures b.HoursAgo? <==> MsPerHour <= diffMs < MsPerDay
    ensures b.HoursAgo? ==>
      1 <= b.hours < 24 && b.hours * MsPerHour <= diffMs < (b.hours + 1) * MsPerHour
    ensures b == Yesterday <==> MsPerDay <= diffMs < 2 * MsPerDay
    ensures b.DaysAgo? <==> 2 * MsPerDay <= diffMs < 7 * MsPerDay
    ensures b.DaysAgo? ==>
      2 <= b.days < 7 && b.days * MsPerDay <= diffMs < (b.days + 1) * MsPerDay
    ensures b == CalendarDate <==> diffMs >= 7 * MsPerDay
  {
    var diffMins := diffMs / MsPerMinute;
    var diffHours := diffMs / MsPerHour;
    var diffDays := diffMs / MsPerDay;
    if diffMins < 1 then JustNow
    else if diffMins < 60 then MinutesAgo(diffMins)
    else if diffHours < 24 then HoursAgo(diffHours)
    else if diffDays == 1 then Yesterday
    else if diffDays < 7 then DaysAgo(diffDays)
    else CalendarDate
  }

  /** The text shown for a bucket. `localeDate` is the day-and-short-month
      date the platform's Spanish locale formatting produces. */
  function Label(b: TimeAgo, localeDate: string): (r: string)
    // every text other than a date reads back as its bucket
    ensures !b.CalendarDate? ==> ParseLabel(r) == Some(b)
    ensures b.CalendarDate? ==> r == localeDate
  {
    match b
    case JustNow => "Ahora"
    case MinutesAgo(m) => MinutesLabelParses(m); "Hace " + NatToString(m) + " min"
    case HoursAgo(h) => HoursLabelParses(h); "Hace " + NatToString(h) + " h"
    case Yesterday => "Ayer"
    case DaysAgo(d) => DaysLabelParses(d); "Hace " + NatToString(d) + " días"
    case CalendarDate => localeDate
  }

  /** The relative time shown on a card published at `publishedAt` when the
      clock reads `now`. */
  function FormatTimeAgo(publishedAt: int, now: int, localeDate: string): (s: string)
    ensures now - publishedAt < MsPerMinute ==> s == "Ahora"
    ensures MsPerMinute <= now - publishedAt < MsPerHour ==>
      s == "Hace " + NatToString((now - publishedAt) / MsPerMinute) + " min"
    ensures MsPerHour <= now - publishedAt < MsPerDay ==>
      s == "Hace " + NatToString((now - publishedAt) / MsPerHour) + " h"
    ensures MsPerDay <= now - publishedAt < 2 * MsPerDay ==> s == "Ayer"
    ensures 2 * MsPerDay <= now - publishedAt < 7 * MsPerDay ==>
      s == "Hace " + NatToString((now - publishedAt) / MsPerDay) + " días"
    ensures now - publishedAt >= 7 * MsPerDay ==> s == localeDate
  {
    Label(TimeAgoBucket(now - publishedAt), localeDate)
  }

  /** The number between "Hace " and a unit suffix, when it is one. */
  function Amount(s: string, unit: string): Option<nat>
  {
    if StartsWith(s, "Hace ") && EndsWith(s, unit) && |s| > 5 + |unit|
       && IsDigits(s[5..|s| - |unit|])
    then Some(ParseNat(s[5..|s| - |unit|]))
    else None
  }

  /** Reads a relative-time text back into its bucket (dates excluded). */
  function ParseLabel(s: string): Option<TimeAgo>
  {
    if s == "Ahora" then Some(JustNow)
    else if s == "Ayer" then Some(Yesterday)
    else if Amount(s, " min").Some? then Some(MinutesAgo(Amount(s, " min").value))
    else if Amount(s, " días").Some? then Some(DaysAgo(Amount(s, " días").value))
    else if Amount(s, " h").Some? then Some(HoursAgo(Amount(s, " h").value))
    else None
  }

  lemma AmountOf(n: nat, unit: string)
    requires |unit| >= 2 && unit[0] == ' '
    ensures Amount("Hace " + NatToString(n) + unit, unit) == Some(n)
  {
    var d := NatToString(n);
    var s := "Hace " + d + unit;
    assert s[..5] == "Hace ";
    assert s[|s| - |unit|..] == unit;
    assert s[5..|s| - |unit|] == d;
    ParseNatToString(n);
  }

  lemma NoAmount(n: nat, unit: string, other: string)
    requires |unit| >= 2 && unit[0] == ' '
    requires |other| >= 2 && other[0] == ' '
    requires |other| <= |unit| ==> unit[|unit| - |other|..] != other
    ensures Amount("Hace " + NatToString(n) + unit, other) == None
  {
  }

  /** The text on a card determines the age bucket it stands for: no two
      buckets other than the calendar date share a text. */
  lemma LabelDeterminesBucket(b: TimeAgo, c: TimeAgo, localeDate: string)
    requires !b.CalendarDate? && !c.CalendarDate?
    ensures Label(b, localeDate) == Label(c, localeDate) ==> b == c
  {
  }

  lemma MinutesLabelParses(m: nat)
    ensures ParseLabel("Hace " + NatToString(m) + " min") == Some(MinutesAgo(m))
  {
    var s := "Hace " + NatToString(m) + " min";
    assert s[0] == 'H';
    AmountOf(m, " min");
  }

  lemma HoursLabelParses(h: nat)
    ensures ParseLabel("Hace " + NatToString(h) + " h") == Some(HoursAgo(h))
  {
    var s := "Hace " + NatToString(h) + " h";
    assert s[0] == 'H';
    NoAmount(h, " h", " min");
    NoAmount(h, " h", " días");
    AmountOf(h, " h");
  }

  lemma DaysLabelParses(d: nat)
    ensures ParseLabel("Hace " + NatToString(d) + " días") == Some(DaysAgo(d))
  {
    var s := "Hace " + NatToString(d) + " días";
    assert s[0] == 'H';
    NoAmount(d, " días", " min");
    AmountOf(d, " días");
  }

  /** The badge colour per category identifier. */
  const CategoryColors: map<string, string> := map[
    "general" := "bg-slate-500",
    "business" := "bg-emerald-500",
    "entertainment" := "bg-pink-500",
    "health" := "bg-red-500",
    "science" := "bg-violet-500",
    "sports" := "bg-orange-500",
    "technology" := "bg-blue-500"]

  /** The Spanish badge label per category identifier. */
  const CategoryLabels: map<string, string> := map[
    "general" := "General",
    "business" := "Negocios",
    "entertainment" := "Entretenimiento",
    "health" := "Salud",
    "science" := "Ciencia",
    "sports" := "Deportes",
    "technology" := "Tecnología"]

  const FallbackColor: string := "bg-slate-500"

  /** The badge colour: the category's own colour, or slate for an
      identifier that is not a category. */
  function CategoryColor(category: string): (color: string)
    ensures color in CategoryColors.Values
    ensures category !in CategoryColors ==> color == FallbackColor
    ensures category in CategoryColors ==> color == CategoryColors[category]
  {
    if category in CategoryColors && CategoryColors[category] != "" then CategoryColors[category]
    else assert CategoryColors["general"] == FallbackColor; FallbackColor
  }

  /** The badge label: the category's Spanish name, or the identifier itself
      when it is not a category. */
  function CategoryLabel(category: string): (text: string)
    ensures category !in CategoryLabels ==> text == category
    ensures category in CategoryLabels ==> text == CategoryLabels[category]
  {
    if category in CategoryLabels && CategoryLabels[category] != "" then CategoryLabels[category]
    else category
  }

  /** Every category has its own entry in both tables, and distinct
      categories get distinct labels. */
  lemma KnownCategoriesLabelled(c: Category, d: Category)
    ensures CategoryName(c) in CategoryColors && CategoryName(c) in CategoryLabels
    ensures c != d ==> CategoryLabel(CategoryName(c)) != CategoryLabel(CategoryName(d))
  {
  }

  /** Entrance-animation delay in ms for the card at position `index`: 50 ms
      per position, capped at 300 ms. */
  function AnimationDelay(index: int): (delay: int)
    ensures delay <= 300 && delay <= index * 50
    ensures delay == 300 || delay == index * 50
  {
    if index * 50 < 300 then index * 50 else 300
  }

  /** Later cards never start before earlier ones. */
  lemma AnimationDelayMonotone(i: int, j: int)
    requires i <= j
    ensures AnimationDelay(i) <= AnimationDelay(j)
  {
  }
}
