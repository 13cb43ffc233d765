/** The display helpers: how a duration in whole minutes is written, and the
    colour classes for a severity and for a status. */
module Formatters {
  import opened Base
  import opened Text

  const MinutesPerHour := 60
  const MinutesPerDay := 60 * 24

  /** JavaScript's `a % b` for a positive `b`: the remainder takes the sign of
      the dividend, where Dafny's is never negative. */
  function JsRem(a: int, b: int): (r: int)
    requires b > 0
    ensures a >= 0 ==> r == a % b
    ensures a < 0 ==> -b < r <= 0
    ensures (a - r) % b == 0
  {
    if a >= 0 then
      FlooredRem(a, b);
      a % b
    else
      NegativeRem(a, b);
      -((-a) % b)
  }

  /** Taking away the remainder leaves a multiple of the divisor. */
  lemma FlooredRem(a: int, b: int)
    requires b > 0
    ensures (a - a % b) % b == 0
  {
    assert a - a % b == (a / b) * b;
    MultipleRem(a / b, b);
  }

  /** For a negative dividend, truncating and flooring differ by a multiple
      of the divisor. */
  lemma NegativeRem(a: int, b: int)
    requires a < 0 && b > 0
    ensures (a + (-a) % b) % b == 0
  {
    var q := (-a) / b;
    var m := (-a) % b;
    assert -a == q * b + m;
    assert a + m == (-q) * b;
    MultipleRem(-q, b);
  }

  /** A multiple of `b` leaves no remainder. */
  lemma MultipleRem(q: int, b: int)
    requires b > 0
    ensures (q * b) % b == 0
  {
    var d := (q * b) / b;
    var r := (q * b) % b;
    assert (q - d) * b == r;
    if q - d >= 1 {
      MulAtLeast(q - d, b);
    }
  }

  lemma MulAtLeast(k: int, b: int)
    requires k >= 1 && b > 0
    ensures k * b >= b
  {
  }

  // ---- formatDuration ----------------------------------------------------

  /** One component of a written duration, such as `3h`. */
  datatype Part = Part(amount: int, unit: char)

  /** The components pushed for the given numbers of days, hours and
      minutes: days and hours only when positive, minutes when positive or
      when nothing came before. */
  function Assemble(days: int, hours: int, mins: int): seq<Part>
  {
    var front := (if days > 0 then [Part(days, 'd')] else []) + (if hours > 0 then [Part(hours, 'h')] else []);
    front + (if mins > 0 || front == [] then [Part(mins, 'm')] else [])
  }

  /** The components `formatDuration` pushes for a non-zero number of
      minutes. Dafny's `/` by a positive divisor rounds down, as `Math.floor`
      of the quotient does. */
  function DurationParts(minutes: int): seq<Part>
  {
    Assemble(minutes / MinutesPerDay, JsRem(minutes, MinutesPerDay) / MinutesPerHour, JsRem(minutes, MinutesPerHour))
  }

  function ShowPart(p: Part): string
  {
    IntToString(p.amount) + [p.unit]
  }

  /** `parts.join(' ')` over the written components. */
  function Render(parts: seq<Part>): string
  {
    if parts == [] then ""
    else if |parts| == 1 then ShowPart(parts[0])
    else ShowPart(parts[0]) + " " + Render(parts[1..])
  }

  /** `formatDuration(minutes)` for a whole number of minutes. */
  function FormatDuration(minutes: int): (r: string)
    ensures r == "" <==> minutes == 0
  {
    if minutes == 0 then "" else Render(DurationParts(minutes))
  }

  /** No duration is written for zero minutes. */
  lemma FormatZero()
    ensures FormatDuration(0) == ""
  {
  }

  /** The split into days, hours and minutes loses nothing and leaves hours
      and minutes in range. */
  lemma Decomposition(m: nat)
    ensures (m / MinutesPerDay) * MinutesPerDay + (m % MinutesPerDay) / MinutesPerHour * MinutesPerHour + m % MinutesPerHour == m
    ensures (m % MinutesPerDay) / MinutesPerHour < 24 && m % MinutesPerHour < 60
  {
    var r := m % MinutesPerDay;
    assert m == (m / MinutesPerDay) * MinutesPerDay + r;
    assert r == (r / 60) * 60 + r % 60;
    var q := m / MinutesPerDay;
    // A whole number of days is a whole number of hours.
    assert m == (q * 24 + r / 60) * 60 + r % 60;
    assert m % 60 == r % 60;
  }

  function Weight(unit: char): int
  {
    if unit == 'd' then MinutesPerDay else if unit == 'h' then MinutesPerHour else 1
  }

  function Rank(unit: char): int
  {
    if unit == 'd' then 0 else if unit == 'h' then 1 else 2
  }

  predicate IsUnit(c: char)
  {
    c == 'd' || c == 'h' || c == 'm'
  }

  /** The number of minutes written components stand for. */
  function Total(parts: seq<Part>): int
  {
    if parts == [] then 0 else parts[0].amount * Weight(parts[0].unit) + Total(parts[1..])
  }

  lemma {:induction false} TotalAppend(a: seq<Part>, b: seq<Part>)
    ensures Total(a + b) == Total(a) + Total(b)
  {
    if a != [] {
      var c := a + b;
      assert c[0] == a[0] && c[1..] == a[1..] + b;
      TotalAppend(a[1..], b);
      assert Total(c) == c[0].amount * Weight(c[0].unit) + Total(c[1..]);
    } else {
      assert a + b == b;
    }
  }

  /** A well-formed written duration: at least one component, each a positive
      amount of days, hours or minutes, units in the order d, h, m without
      repetition, and hours and minutes below the next unit. */
  predicate Canonical(parts: seq<Part>)
  {
    && parts != []
    && (forall i :: 0 <= i < |parts| ==> IsUnit(parts[i].unit) && parts[i].amount > 0)
    && (forall i, j :: 0 <= i < j < |parts| ==> Rank(parts[i].unit) < Rank(parts[j].unit))
    && (forall i :: 0 <= i < |parts| && parts[i].unit == 'h' ==> parts[i].amount < 24)
    && (forall i :: 0 <= i < |parts| && parts[i].unit == 'm' ==> parts[i].amount < 60)
  }

  /** Amounts in range, not all zero, assemble into canonical components. */
  lemma AssembleCanonical(days: int, hours: int, mins: int)
    requires days >= 0 && 0 <= hours < 24 && 0 <= mins < 60
    requires days > 0 || hours > 0 || mins > 0
    ensures Canonical(Assemble(days, hours, mins))
  {
    var parts := Assemble(days, hours, mins);
    if days > 0 {
      assert parts[0] == Part(days, 'd');
    }
    if days == 0 && hours > 0 {
      assert parts[0] == Part(hours, 'h');
    }
  }

  /** The assembled components stand for the minutes they were made from. */
  lemma AssembleTotal(days: int, hours: int, mins: int)
    requires days >= 0 && hours >= 0 && mins >= 0
    ensures Total(Assemble(days, hours, mins)) == days * MinutesPerDay + hours * MinutesPerHour + mins
  {
    var d := if days > 0 then [Part(days, 'd')] else [];
    var h := if hours > 0 then [Part(hours, 'h')] else [];
    var n := if mins > 0 || d + h == [] then [Part(mins, 'm')] else [];
    TotalAppend(d, h);
    TotalAppend(d + h, n);
  }

  /** For a positive number of minutes the components are canonical and add
      up to it: zero components are left out and the order is d, h, m. */
  lemma DurationPartsCanonical(m: int)
    requires m > 0
    ensures Canonical(DurationParts(m))
    ensures Total(DurationParts(m)) == m
  {
    Decomposition(m);
    AssembleCanonical(m / MinutesPerDay, (m % MinutesPerDay) / MinutesPerHour, m % MinutesPerHour);
    AssembleTotal(m / MinutesPerDay, (m % MinutesPerDay) / MinutesPerHour, m % MinutesPerHour);
  }

  /** Every positive number of minutes is written as something. */
  lemma FormatPositiveNonEmpty(m: int)
    requires m > 0
    ensures FormatDuration(m) != ""
  {
    DurationPartsCanonical(m);
  }

  /** A negative number of minutes is written as its remainder in minutes
      alone, with JavaScript's sign: `-90` gives `-30m`, `-60` gives `0m`. */
  lemma NegativeDuration(m: int)
    requires m < 0
    ensures FormatDuration(m) == IntToString(JsRem(m, MinutesPerHour)) + "m"
  {
    assert JsRem(m, MinutesPerDay) / MinutesPerHour <= 0;
    assert m / MinutesPerDay < 0;
  }

  // ---- reading a written duration back -----------------------------------

  /** `s.split(' ')`. */
  function Split(s: string): (r: seq<string>)
    ensures |r| >= 1
  {
    if s == "" then [""]
    else if s[0] == ' ' then [""] + Split(s[1..])
    else var rest := Split(s[1..]); [[s[0]] + rest[0]] + rest[1..]
  }

  lemma {:induction false} SplitWord(w: string)
    requires ' ' !in w
    ensures Split(w) == [w]
  {
    if w != "" {
      SplitWord(w[1..]);
      assert [w[0]] + w[1..] == w;
    }
  }

  lemma {:induction false} SplitWords(w: string, rest: string)
    requires ' ' !in w
    ensures Split(w + " " + rest) == [w] + Split(rest)
  {
    if w == "" {
      assert w + " " + rest == [' '] + rest;
    } else {
      var s := w + " " + rest;
      assert s[0] == w[0] && s[1..] == w[1..] + " " + rest;
      SplitWords(w[1..], rest);
      assert [w[0]] + w[1..] == w;
    }
  }

  /** A component written as decimal digits and a unit letter, and the
      minutes it stands for. */
  function ParseToken(t: string): Option<int>
  {
    if |t| < 2 || !IsUnit(t[|t| - 1]) then None
    else if forall i :: 0 <= i < |t| - 1 ==> IsDigit(t[i]) then
      Some(DigitsValue(t[..|t| - 1]) * Weight(t[|t| - 1]))
    else None
  }

  function ParseTokens(ts: seq<string>): Option<int>
  {
    if ts == [] then Some(0)
    else match (ParseToken(ts[0]), ParseTokens(ts[1..]))
      case (Some(a), Some(b)) => Some(a + b)
      case _ => None
  }

  /** The number of minutes a written duration stands for, or `None` when it
      is not made of space-separated components. */
  function ParseDuration(s: string): Option<int>
  {
    if s == "" then Some(0) else ParseTokens(Split(s))
  }

  lemma ParseShowPart(p: Part)
    requires p.amount >= 0 && IsUnit(p.unit)
    ensures ' ' !in ShowPart(p)
    ensures ParseToken(ShowPart(p)) == Some(p.amount * Weight(p.unit))
  {
    var t := ShowPart(p);
    assert t[..|t| - 1] == NatToString(p.amount);
    DigitsValueOfNatToString(p.amount);
  }

  lemma {:induction false} RenderRoundTrip(parts: seq<Part>)
    requires parts != []
    requires forall i :: 0 <= i < |parts| ==> parts[i].amount >= 0 && IsUnit(parts[i].unit)
    ensures ParseTokens(Split(Render(parts))) == Some(Total(parts))
  {
    ParseShowPart(parts[0]);
    if |parts| == 1 {
      SplitWord(ShowPart(parts[0]));
    } else {
      SplitWords(ShowPart(parts[0]), Render(parts[1..]));
      RenderRoundTrip(parts[1..]);
      assert ([ShowPart(parts[0])] + Split(Render(parts[1..])))[1..] == Split(Render(parts[1..]));
    }
  }

  /** Reading a written duration back gives the number of minutes, for every
      number of minutes that is not negative. */
  lemma FormatRoundTrip(m: nat)
    ensures ParseDuration(FormatDuration(m)) == Some(m)
  {
    if m > 0 {
      DurationPartsCanonical(m);
      RenderRoundTrip(DurationParts(m));
    }
  }

  // ---- colour classes ----------------------------------------------------

  /** `getSeverityColorClass(severity)`; `None` stands for a missing severity. */
  function SeverityColorClass(severity: Option<string>): (r: string)
    ensures severity.None? ==> r == "text-gray-500"
    ensures r in ["text-red-500", "text-yellow-500", "text-blue-500", "text-gray-500"]
  {
    if severity.None? then "text-gray-500"
    else
      var s := ToLower(severity.value);
      if s == "error" then "text-red-500"
      else if s == "warning" then "text-yellow-500"
      else if s == "info" then "text-blue-500"
      else "text-gray-500"
  }

  /** `severity` is present and equals `word` up to letter case. */
  predicate MatchesIgnoringCase(severity: Option<string>, word: string)
  {
    severity.Some? && SameIgnoringCase(severity.value, word)
  }

  /** A string without upper-case letters matches a string up to case
      exactly when that string's lower-case form is it. */
  lemma MatchesWord(s: string, word: string)
    requires forall i :: 0 <= i < |word| ==> !('A' <= word[i] <= 'Z')
    ensures SameIgnoringCase(s, word) <==> ToLower(s) == word
  {
    SameIgnoringCaseIff(s, word);
    ToLowerOfLower(word);
  }

  /** Error is red, warning yellow and info blue, in any letter case; a missing
      severity and every other one is grey. */
  lemma SeverityColorSpec(severity: Option<string>)
    ensures SeverityColorClass(severity) == "text-red-500" <==> MatchesIgnoringCase(severity, "error")
    ensures SeverityColorClass(severity) == "text-yellow-500" <==> MatchesIgnoringCase(severity, "warning")
    ensures SeverityColorClass(severity) == "text-blue-500" <==> MatchesIgnoringCase(severity, "info")
    ensures SeverityColorClass(severity) == "text-gray-500" <==>
      !MatchesIgnoringCase(severity, "error") && !MatchesIgnoringCase(severity, "warning") && !MatchesIgnoringCase(severity, "info")
  {
    if severity.Some? {
      MatchesWord(severity.value, "error");
      MatchesWord(severity.value, "warning");
      MatchesWord(severity.value, "info");
    }
  }

  /** Severities that agree up to case get the same colour. */
  lemma SeverityColorIgnoresCase(a: string, b: string)
    requires SameIgnoringCase(a, b)
    ensures SeverityColorClass(Some(a)) == SeverityColorClass(Some(b))
  {
    SameIgnoringCaseIff(a, b);
  }

  const Green := "bg-green-100 text-green-800"
  const Yellow := "bg-yellow-100 text-yellow-800"
  const Red := "bg-red-100 text-red-800"
  const Blue := "bg-blue-100 text-blue-800"
  const Gray := "bg-gray-100 text-gray-800"

  /** The `switch` of `getStatusColorClasses` on the lowered status. */
  function StatusColorOfLower(s: string): (r: string)
    ensures r in [Green, Yellow, Red, Blue, Gray]
  {
    if s == "healthy" || s == "online" || s == "running" || s == "success" then Green
    else if s == "warning" || s == "queued" || s == "pending" then Yellow
    else if s == "error" || s == "offline" || s == "failed" then Red
    else if s == "scheduled" then Blue
    else Gray
  }

  /** `getStatusColorClasses(status)`; `None` stands for a missing status. */
  function StatusColorClasses(status: Option<string>): (r: string)
    ensures status.None? ==> r == Gray
    ensures r in [Green, Yellow, Red, Blue, Gray]
  {
    if status.None? then Gray else StatusColorOfLower(ToLower(status.value))
  }

  /** The statuses shown green: healthy, online, running, success. */
  predicate IsGreenStatus(status: Option<string>)
  {
    MatchesIgnoringCase(status, "healthy") || MatchesIgnoringCase(status, "online") || MatchesIgnoringCase(status, "running") || MatchesIgnoringCase(status, "success")
  }

  /** The statuses shown yellow: warning, queued, pending. */
  predicate IsYellowStatus(status: Option<string>)
  {
    MatchesIgnoringCase(status, "warning") || MatchesIgnoringCase(status, "queued") || MatchesIgnoringCase(status, "pending")
  }

  /** The statuses shown red: error, offline, failed. */
  predicate IsRedStatus(status: Option<string>)
  {
    MatchesIgnoringCase(status, "error") || MatchesIgnoringCase(status, "offline") || MatchesIgnoringCase(status, "failed")
  }

  /** Healthy, online, running and success are green, in any letter case. */
  lemma StatusGreenSpec(status: Option<string>)
    ensures StatusColorClasses(status) == Green <==> IsGreenStatus(status)
  {
    if status.Some? {
      var v := status.value;
      MatchesWord(v, "healthy");
      MatchesWord(v, "online");
      MatchesWord(v, "running");
      MatchesWord(v, "success");
    }
  }

  /** Warning, queued and pending are yellow, in any letter case. */
  lemma StatusYellowSpec(status: Option<string>)
    ensures StatusColorClasses(status) == Yellow <==> IsYellowStatus(status)
  {
    if status.Some? {
      var v := status.value;
      MatchesWord(v, "warning");
      MatchesWord(v, "queued");
      MatchesWord(v, "pending");
    }
  }

  /** Error, offline and failed are red, in any letter case. */
  lemma StatusRedSpec(status: Option<string>)
    ensures StatusColorClasses(status) == Red <==> IsRedStatus(status)
  {
    if status.Some? {
      var v := status.value;
      MatchesWord(v, "error");
      MatchesWord(v, "offline");
      MatchesWord(v, "failed");
    }
  }

  /** Scheduled is blue, in any letter case; a missing status and every
      status outside the four groups is grey. */
  lemma StatusBlueGraySpec(status: Option<string>)
    ensures StatusColorClasses(status) == Blue <==> MatchesIgnoringCase(status, "scheduled")
    ensures StatusColorClasses(status) == Gray <==>
      !IsGreenStatus(status) && !IsYellowStatus(status) && !IsRedStatus(status) && !MatchesIgnoringCase(status, "scheduled")
  {
    StatusGreenSpec(status);
    StatusYellowSpec(status);
    StatusRedSpec(status);
    if status.Some? {
      MatchesWord(status.value, "scheduled");
    }
  }

  /** Statuses that agree up to case get the same colours. */
  lemma StatusColorIgnoresCase(a: string, b: string)
    requires SameIgnoringCase(a, b)
    ensures StatusColorClasses(Some(a)) == StatusColorClasses(Some(b))
  {
    SameIgnoringCaseIff(a, b);
  }
}
