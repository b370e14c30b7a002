/**
 * The display helpers of frontend/src/services/config.js: durations,
 * "time ago" texts and label lookup with fallbacks.
 */
module Formatting {
  import opened Outcomes
  import opened Text

  /**
   * `formatDuration`: seconds below a minute as "Ns"; below an hour as
   * "Mm Ss", without the seconds when they are zero; otherwise "Hh Mm",
   * without the minutes when they are zero and always without the seconds.
   */
  function FormatDuration(seconds: int): string {
    if seconds < 60 then IntToString(seconds) + "s"
    else if seconds < 3600 then TwoUnits(seconds / 60, 'm', seconds % 60, 's')
    else TwoUnits(seconds / 3600, 'h', (seconds % 3600) / 60, 'm')
  }

  /** "Xu Yv", or "Xu" alone when Y is zero. */
  function TwoUnits(x: nat, u: char, y: nat, v: char): string {
    if y > 0 then Part(x, u) + " " + Part(y, v) else Part(x, u)
  }

  /** A count followed by its unit letter, as in "5m". */
  function Part(n: nat, u: char): string {
    NatToString(n) + [u]
  }

  /** The seconds in one unit letter of a duration or of a "time ago" text. */
  function UnitSeconds(u: char): Option<nat> {
    if u == 's' then Some(1)
    else if u == 'm' then Some(60)
    else if u == 'h' then Some(3600)
    else if u == 'd' then Some(86400)
    else None
  }

  /** One "<digits><unit letter>" part, read as its number and its letter. */
  function ParsePart(p: string): Option<(nat, char)> {
    if |p| >= 2 && forall i :: 0 <= i < |p| - 1 ==> IsDigit(p[i])
    then Some((DigitsValue(p[..|p| - 1]), p[|p| - 1]))
    else None
  }

  /** A one-part duration "Nu" as seconds. */
  function OnePart(p: Option<(nat, char)>): Option<nat> {
    match p
    case None => None
    case Some((n, u)) => if UnitSeconds(u).Some? then Some(n * UnitSeconds(u).value) else None
  }

  /** A two-part duration "Mm Ss" or "Hh Mm" as seconds. */
  function TwoParts(p: Option<(nat, char)>, q: Option<(nat, char)>): Option<nat> {
    if p.None? || q.None? then None
    else if p.value.1 == 'm' && q.value.1 == 's' then Some(p.value.0 * 60 + q.value.0)
    else if p.value.1 == 'h' && q.value.1 == 'm' then Some(p.value.0 * 3600 + q.value.0 * 60)
    else None
  }

  /**
   * Reads a duration text back: one part, or two parts separated by the first
   * space.
   */
  function ParseDuration(t: string): Option<nat> {
    var i := FirstIndex(t, ' ');
    if i == |t| then OnePart(ParsePart(t))
    else TwoParts(ParsePart(t[..i]), ParsePart(t[i + 1..]))
  }

  lemma PartOfNumber(n: nat, u: char)
    ensures ParsePart(Part(n, u)) == Some((n, u))
  {
    var p := Part(n, u);
    assert p[..|p| - 1] == NatToString(n);
    DigitsRoundTrip(n);
  }

  /** A space right after a space-free prefix is the first one. */
  lemma SpaceAfter(a: string, b: string)
    requires forall i :: 0 <= i < |a| ==> a[i] != ' '
    ensures FirstIndex(a + " " + b, ' ') == |a|
    ensures (a + " " + b)[..|a|] == a
    ensures (a + " " + b)[|a| + 1..] == b
  {
    var t := a + " " + b;
    assert t[|a|] == ' ';
    assert forall j :: 0 <= j < |a| ==> t[j] == a[j];
  }

  lemma NoSpace(t: string)
    requires forall i :: 0 <= i < |t| ==> t[i] != ' '
    ensures FirstIndex(t, ' ') == |t|
  {
  }

  lemma DigitsHaveNoSpace(n: nat, u: char)
    requires u != ' '
    ensures forall i :: 0 <= i < |Part(n, u)| ==> Part(n, u)[i] != ' '
  {
  }

  /** The one-part durations: below a minute, whole minutes and whole hours. */
  lemma OnePartRoundTrip(n: nat, u: char)
    requires u == 's' || u == 'm' || u == 'h'
    ensures ParseDuration(Part(n, u)) == OnePart(Some((n, u)))
  {
    DigitsHaveNoSpace(n, u);
    NoSpace(Part(n, u));
    PartOfNumber(n, u);
  }

  /** Where the first space of a two-part duration falls, and what it separates. */
  lemma TwoPartSplit(a: nat, u: char, b: nat, v: char)
    requires u != ' '
    ensures var t := Part(a, u) + " " + Part(b, v);
            FirstIndex(t, ' ') == |Part(a, u)| &&
            ParsePart(t[..FirstIndex(t, ' ')]) == Some((a, u)) &&
            ParsePart(t[FirstIndex(t, ' ') + 1..]) == Some((b, v))
  {
    DigitsHaveNoSpace(a, u);
    SpaceAfter(Part(a, u), Part(b, v));
    PartOfNumber(a, u);
    PartOfNumber(b, v);
  }

  /** The two-part durations "Mm Ss" and "Hh Mm" read back as their sum. */
  lemma TwoPartRoundTrip(a: nat, u: char, b: nat, v: char)
    requires u != ' '
    ensures ParseDuration(Part(a, u) + " " + Part(b, v)) == TwoParts(Some((a, u)), Some((b, v)))
  {
    TwoPartSplit(a, u, b, v);
    var t := Part(a, u) + " " + Part(b, v);
    var i := FirstIndex(t, ' ');
    assert i < |t|;
    assert ParseDuration(t) == TwoParts(ParsePart(t[..i]), ParsePart(t[i + 1..]));
  }

  lemma TwoUnitsBoth(x: nat, u: char, y: nat, v: char)
    requires u != ' ' && y > 0
    ensures ParseDuration(TwoUnits(x, u, y, v)) == TwoParts(Some((x, u)), Some((y, v)))
  {
    TwoPartRoundTrip(x, u, y, v);
  }

  lemma TwoUnitsFirst(x: nat, u: char, y: nat, v: char)
    requires (u == 's' || u == 'm' || u == 'h') && y == 0
    ensures ParseDuration(TwoUnits(x, u, y, v)) == OnePart(Some((x, u)))
  {
    OnePartRoundTrip(x, u);
  }

  /**
   * A duration reads back as the seconds it was made from, except that from an
   * hour on the leftover seconds are dropped.
   */
  lemma DurationRoundTrip(seconds: int)
    requires seconds >= 0
    ensures ParseDuration(FormatDuration(seconds))
              == Some(if seconds < 3600 then seconds else seconds - seconds % 60)
  {
    if seconds < 60 {
      SecondsRoundTrip(seconds);
    } else if seconds < 3600 {
      if seconds % 60 > 0 {
        MinutesSecondsRoundTrip(seconds);
      } else {
        WholeMinutesRoundTrip(seconds);
      }
    } else if (seconds % 3600) / 60 > 0 {
      HoursMinutesRoundTrip(seconds);
    } else {
      WholeHoursRoundTrip(seconds);
    }
  }

  lemma SecondsRoundTrip(seconds: int)
    requires 0 <= seconds < 60
    ensures ParseDuration(FormatDuration(seconds)) == Some(seconds)
  {
    assert FormatDuration(seconds) == Part(seconds, 's');
    OnePartRoundTrip(seconds, 's');
  }

  lemma MinutesSecondsRoundTrip(seconds: int)
    requires 60 <= seconds < 3600 && seconds % 60 > 0
    ensures ParseDuration(FormatDuration(seconds)) == Some(seconds)
  {
    assert FormatDuration(seconds) == TwoUnits(seconds / 60, 'm', seconds % 60, 's');
    TwoUnitsBoth(seconds / 60, 'm', seconds % 60, 's');
  }

  lemma WholeMinutesRoundTrip(seconds: int)
    requires 60 <= seconds < 3600 && seconds % 60 == 0
    ensures ParseDuration(FormatDuration(seconds)) == Some(seconds)
  {
    assert FormatDuration(seconds) == TwoUnits(seconds / 60, 'm', seconds % 60, 's');
    TwoUnitsFirst(seconds / 60, 'm', seconds % 60, 's');
  }

  lemma HoursMinutesRoundTrip(seconds: int)
    requires 3600 <= seconds && (seconds % 3600) / 60 > 0
    ensures ParseDuration(FormatDuration(seconds)) == Some(seconds - seconds % 60)
  {
    assert FormatDuration(seconds) == TwoUnits(seconds / 3600, 'h', (seconds % 3600) / 60, 'm');
    TwoUnitsBoth(seconds / 3600, 'h', (seconds % 3600) / 60, 'm');
    HoursAndMinutes(seconds);
  }

  lemma WholeHoursRoundTrip(seconds: int)
    requires 3600 <= seconds && (seconds % 3600) / 60 == 0
    ensures ParseDuration(FormatDuration(seconds)) == Some(seconds - seconds % 60)
  {
    assert FormatDuration(seconds) == TwoUnits(seconds / 3600, 'h', (seconds % 3600) / 60, 'm');
    TwoUnitsFirst(seconds / 3600, 'h', (seconds % 3600) / 60, 'm');
    HoursAndMinutes(seconds);
  }

  lemma HoursAndMinutes(seconds: nat)
    ensures (seconds / 3600) * 3600 + ((seconds % 3600) / 60) * 60 == seconds - seconds % 60
  {
    var h := seconds / 3600;
    var r := seconds % 3600;
    var m := r / 60;
    assert seconds == h * 3600 + r;
    assert r == m * 60 + r % 60;
    assert seconds % 60 == r % 60;
  }

  /**
   * The timestamp handed to the date parser: "Z" is appended when the text
   * neither ends in "Z" nor holds a "+" offset, so a zone-less timestamp
   * from the backend reads as UTC.
   */
  function WithUtcSuffix(ts: string): (r: string)
    ensures ts <= r && |r| <= |ts| + 1
    ensures EndsWith(r, 'Z') || '+' in r
    ensures r == ts <==> EndsWith(ts, 'Z') || '+' in ts
  {
    if !EndsWith(ts, 'Z') && '+' !in ts then ts + "Z" else ts
  }

  /** Marking a timestamp as UTC twice is marking it once. */
  lemma UtcSuffixIdempotent(ts: string)
    ensures WithUtcSuffix(WithUtcSuffix(ts)) == WithUtcSuffix(ts)
  {
  }

  /** The "time ago" text for an elapsed time of `d` whole seconds. */
  function RelativeText(d: int): string {
    if d < 0 then "just now"
    else if d < 60 then Part(d, 's') + " ago"
    else if d < 3600 then Part(d / 60, 'm') + " ago"
    else if d < 86400 then Part(d / 3600, 'h') + " ago"
    else Part(d / 86400, 'd') + " ago"
  }

  /** Reads a "<digits><unit> ago" text back as its number and its unit in seconds. */
  function ParseAgo(t: string): Option<(nat, nat)> {
    if |t| >= 4 && t[|t| - 4..] == " ago" then
      match ParsePart(t[..|t| - 4])
      case None => None
      case Some(part) =>
        if UnitSeconds(part.1).Some? then Some((part.0, UnitSeconds(part.1).value)) else None
    else None
  }

  lemma AgoOfNumber(n: nat, u: char)
    ensures ParseAgo(Part(n, u) + " ago") ==
              if UnitSeconds(u).Some? then Some((n, UnitSeconds(u).value)) else None
  {
    var t := Part(n, u) + " ago";
    assert t[|t| - 4..] == " ago";
    assert t[..|t| - 4] == Part(n, u);
    PartOfNumber(n, u);
  }

  /**
   * The "time ago" text is exact to its unit: it names the largest of second,
   * minute, hour and day that fits in the elapsed time, and the whole number
   * of such units that have elapsed. A negative difference (clock skew)
   * reads "just now", which is no count at all.
   */
  lemma RelativeTextAccurate(d: int)
    ensures d < 0 ==> RelativeText(d) == "just now" && ParseAgo(RelativeText(d)).None?
    ensures 0 <= d < 60 ==> ParseAgo(RelativeText(d)) == Some((d, 1))
    ensures 60 <= d < 3600 ==> ParseAgo(RelativeText(d)) == Some((d / 60, 60))
    ensures 3600 <= d < 86400 ==> ParseAgo(RelativeText(d)) == Some((d / 3600, 3600))
    ensures 86400 <= d ==> ParseAgo(RelativeText(d)) == Some((d / 86400, 86400))
  {
    if d < 0 {
      assert "just now"[4..] == " now";
    } else if d < 60 {
      AgoOfNumber(d, 's');
    } else if d < 3600 {
      AgoOfNumber(d / 60, 'm');
    } else if d < 86400 {
      AgoOfNumber(d / 3600, 'h');
    } else {
      AgoOfNumber(d / 86400, 'd');
    }
  }

  /**
   * `formatRelativeTime`: "" for a missing timestamp; otherwise the text for
   * the whole seconds between the parsed timestamp and `nowMs`. `parse`
   * stands for `new Date(...)` and gives the milliseconds since the epoch,
   * `None` for an invalid date; an invalid date makes every bucket test false
   * and the text "NaNd ago".
   */
  function FormatRelativeTime(timestamp: string, nowMs: int, parse: string -> Option<int>): (r: string)
    ensures r == "" <==> timestamp == ""
  {
    if timestamp == "" then ""
    else
      match parse(WithUtcSuffix(timestamp))
      case None => "NaNd ago"
      case Some(t) => RelativeText((nowMs - t) / 1000)
  }

  /**
   * For a timestamp that parses, the text reads "just now" exactly when the
   * timestamp lies in the future, and otherwise the number of units it names
   * has elapsed, in milliseconds, and one more has not.
   */
  lemma RelativeTimeAccurate(timestamp: string, nowMs: int, parse: string -> Option<int>)
    requires timestamp != "" && parse(WithUtcSuffix(timestamp)).Some?
    ensures var t := parse(WithUtcSuffix(timestamp)).value;
            FormatRelativeTime(timestamp, nowMs, parse) == "just now" <==> nowMs < t
    ensures var t := parse(WithUtcSuffix(timestamp)).value;
            nowMs >= t ==>
              var ago := ParseAgo(FormatRelativeTime(timestamp, nowMs, parse));
              ago.Some? &&
              ago.value.0 * ago.value.1 * 1000 <= nowMs - t < (ago.value.0 * ago.value.1 + ago.value.1) * 1000
  {
    var t := parse(WithUtcSuffix(timestamp)).value;
    var d := (nowMs - t) / 1000;
    assert FormatRelativeTime(timestamp, nowMs, parse) == RelativeText(d);
    RelativeTextAccurate(d);
    if d >= 0 {
      var ago := ParseAgo(RelativeText(d));
      var n := ago.value.0;
      var u := ago.value.1;
      if d < 60 {
        assert n * u == d;
      } else if d < 3600 {
        assert n * u == d / 60 * 60;
      } else if d < 86400 {
        assert n * u == d / 3600 * 3600;
      } else {
        assert n * u == d / 86400 * 86400;
      }
      assert n * u <= d < n * u + u;
      ScaleBounds(n * u, u, d, nowMs - t);
    } else {
      assert RelativeText(d) == "just now";
    }
  }

  lemma ScaleBounds(k: int, u: int, d: int, ms: int)
    requires k <= d < k + u
    requires d * 1000 <= ms < d * 1000 + 1000
    ensures k * 1000 <= ms < (k + u) * 1000
  {
  }

  /** A label table entry, "" when the key is missing. */
  function Lookup(table: map<string, string>, key: string): string {
    if key in table then table[key] else ""
  }

  /**
   * `getLabel`: the label served by the backend when it is non-empty, else
   * the built-in default when that is non-empty, else `fallback`.
   */
  function GetLabel(labels: Option<map<string, string>>, defaults: map<string, string>,
                    key: string, fallback: string): (r: string)
    ensures labels.Some? && Lookup(labels.value, key) != "" ==> r == Lookup(labels.value, key)
    ensures (labels.None? || Lookup(labels.value, key) == "") && Lookup(defaults, key) != "" ==>
              r == Lookup(defaults, key)
    ensures (labels.None? || Lookup(labels.value, key) == "") && Lookup(defaults, key) == "" ==>
              r == fallback
  {
    var served := if labels.Some? then Lookup(labels.value, key) else "";
    if served != "" then served
    else if Lookup(defaults, key) != "" then Lookup(defaults, key)
    else fallback
  }

  /** A label is empty only when every source of it is. */
  lemma LabelEmptyOnlyWhenAllAre(labels: Option<map<string, string>>, defaults: map<string, string>,
                                 key: string, fallback: string)
    ensures GetLabel(labels, defaults, key, fallback) == "" <==>
              (labels.None? || Lookup(labels.value, key) == "") && Lookup(defaults, key) == "" && fallback == ""
  {
  }
}
