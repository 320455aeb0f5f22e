/** The field normalizer of the webhook route: the tolerant key lookup over
    the provider's structured data, the "D M YYYY" date rewrite, the yes/no
    answer mappings and the positive-amount guard for incomes. */
module Fields {
  import opened Values
  import opened Text

  /** The provider's structured-data bag: field name to text value. */
  type StructuredData = map<string, string>

  /** `getFieldValue(key)`: the value under `key` if it is non-empty,
      otherwise the value under `key + "\t"` if that is non-empty. */
  function FieldValue(data: StructuredData, key: string): (r: Option<string>)
    ensures r.Some? ==> r.value != ""
    ensures r.Some? <==> (key in data && data[key] != "") || (key + "\t" in data && data[key + "\t"] != "")
    ensures key in data && data[key] != "" ==> r == Some(data[key])
    ensures !(key in data && data[key] != "") ==> r == (if key + "\t" in data then TruthyText(Some(data[key + "\t"])) else None)
  {
    if key in data && data[key] != "" then Some(data[key])
    else if key + "\t" in data && data[key + "\t"] != "" then Some(data[key + "\t"])
    else None
  }

  /** A value decorated with a trailing tab is found exactly as the plain
      key would be, for every logical key that does not itself end in a tab. */
  lemma {:induction false} TabKeyEquivalent(k: string, v: string, key: string)
    requires k == [] || k[|k| - 1] != '\t'
    requires key == [] || key[|key| - 1] != '\t'
    ensures FieldValue(map[k + "\t" := v], key) == FieldValue(map[k := v], key)
  {
    AppendTabDistinct(key, k);
    if key == k {
      assert key != k + "\t" by { assert |k + "\t"| != |key|; }
    } else {
      assert key + "\t" != k by {
        if |key + "\t"| == |k| { assert (key + "\t")[|k| - 1] == '\t'; }
      }
      assert key != k + "\t" by {
        if |key| == |k + "\t"| { assert (k + "\t")[|key| - 1] == '\t'; }
      }
    }
  }

  lemma AppendTabDistinct(a: string, b: string)
    ensures a != b ==> a + "\t" != b + "\t"
  {
    if a + "\t" == b + "\t" {
      assert a == (a + "\t")[..|a|];
      assert b == (b + "\t")[..|b|];
    }
  }

  /** `x?.trim()` used as a guard, then the trimmed value: present only when
      something other than white space is left. */
  function TrimmedText(x: Option<string>): (r: Option<string>)
    ensures r.Some? <==> x.Some? && !AllSpace(x.value)
    ensures r.Some? ==> r.value == Trim(x.value)
    ensures r.Some? ==> r.value != [] && !IsSpace(r.value[0]) && !IsSpace(r.value[|r.value| - 1])
  {
    if x.Some? && Trim(x.value) != "" then Some(Trim(x.value)) else None
  }

  /** A staged text is its own trim, so staging it again stages the same
      text. */
  lemma {:induction false} TrimmedTextStable(x: Option<string>)
    ensures TrimmedText(x).Some? ==> Trim(TrimmedText(x).value) == TrimmedText(x).value
    ensures TrimmedText(x).Some? ==> TrimmedText(TrimmedText(x)) == TrimmedText(x)
  {
    if TrimmedText(x).Some? {
      TrimFixesTrimmed(TrimmedText(x).value);
    }
  }

  // ---------------------------------------------------------------------
  // The "D M YYYY" date literal

  /** Length of the leading run of characters satisfying `IsDigit`. */
  function DigitRun(s: string): (n: nat)
    ensures n <= |s|
  {
    if s != [] && IsDigit(s[0]) then 1 + DigitRun(s[1..]) else 0
  }

  /** Length of the leading run of white space. */
  function SpaceRun(s: string): (n: nat)
    ensures n <= |s|
  {
    if s != [] && IsSpace(s[0]) then 1 + SpaceRun(s[1..]) else 0
  }

  /** The run is all digits and is followed by something that is not. */
  lemma {:induction false} DigitRunIsMaximal(s: string)
    ensures AllDigits(s[..DigitRun(s)])
    ensures DigitRun(s) < |s| ==> !IsDigit(s[DigitRun(s)])
  {
    if s != [] && IsDigit(s[0]) {
      DigitRunIsMaximal(s[1..]);
      assert s[..DigitRun(s)] == [s[0]] + s[1..][..DigitRun(s[1..])];
    }
  }

  /** `\s+\d{4}$`: the year after at least one white-space character. */
  function MatchYearTail(t: string): Option<string> {
    var w := SpaceRun(t);
    if w >= 1 && |t| - w == 4 && AllDigits(t[w..]) then Some(t[w..]) else None
  }

  /** `\s+\d{1,2}\s+\d{4}$`: month and year after white space. */
  function MatchMonthYearTail(t: string): Option<(string, string)> {
    var w := SpaceRun(t);
    if w == 0 then None
    else
      var u := t[w..];
      var b := DigitRun(u);
      if !(1 <= b <= 2) then None
      else
        match MatchYearTail(u[b..])
        case None => None
        case Some(y) => Some((u[..b], y))
  }

  /** The test `/^\d{1,2}\s+\d{1,2}\s+\d{4}$/` together with
      `split(/\s+/)`: day, month and year when the whole string has that
      shape. Digits and white space are disjoint, so each run is taken whole. */
  function MatchDayMonthYear(s: string): Option<(string, string, string)> {
    var a := DigitRun(s);
    if !(1 <= a <= 2) then None
    else
      match MatchMonthYearTail(s[a..])
      case None => None
      case Some((m, y)) => Some((s[..a], m, y))
  }

  /** A recognised year tail ends in the four digits it yields. */
  lemma YearTailShape(t: string)
    requires MatchYearTail(t).Some?
    ensures var y := MatchYearTail(t).value;
      |y| == 4 && AllDigits(y) && |t| >= 4 && t[|t| - 4..] == y
  {
  }

  /** A recognised month-and-year tail: a month of one or two digits, and
      the four-digit year closing the text. */
  lemma {:induction false} MonthYearTailShape(t: string)
    requires MatchMonthYearTail(t).Some?
    ensures var (m, y) := MatchMonthYearTail(t).value;
      && 1 <= |m| <= 2 && AllDigits(m)
      && |y| == 4 && AllDigits(y) && |t| >= 4 && t[|t| - 4..] == y
  {
    var w := SpaceRun(t);
    var u := t[w..];
    DigitRunIsMaximal(u);
    var b := DigitRun(u);
    var v := u[b..];
    YearTailShape(v);
    assert u[|u| - 4..] == v[|v| - 4..];
    assert t[|t| - 4..] == u[|u| - 4..];
  }

  /** What a recognised literal yields: a day and a month of one or two
      digits and a year of four, the day opening the text and the year
      closing it. */
  lemma {:induction false} MatchShape(s: string)
    requires MatchDayMonthYear(s).Some?
    ensures var (d, m, y) := MatchDayMonthYear(s).value;
      && 1 <= |d| <= 2 && AllDigits(d)
      && 1 <= |m| <= 2 && AllDigits(m)
      && |y| == 4 && AllDigits(y)
      && |s| >= |d| + 4 && s[..|d|] == d && s[|s| - 4..] == y
  {
    var a := DigitRun(s);
    DigitRunIsMaximal(s);
    var t := s[a..];
    MonthYearTailShape(t);
    assert s[|s| - 4..] == t[|t| - 4..];
  }

  /** A recognised year tail is non-empty white space followed by the year. */
  lemma YearTailSplit(t: string) returns (w: string)
    requires MatchYearTail(t).Some?
    ensures |w| >= 1 && AllSpace(w) && t == w + MatchYearTail(t).value
  {
    SpaceRunIsWhite(t);
    w := t[..SpaceRun(t)];
    assert t == w + t[SpaceRun(t)..];
  }

  /** A recognised month-and-year tail is non-empty white space, the
      month, non-empty white space and the year. */
  lemma {:induction false} MonthYearTailSplit(t: string) returns (w1: string, w2: string)
    requires MatchMonthYearTail(t).Some?
    ensures |w1| >= 1 && AllSpace(w1) && |w2| >= 1 && AllSpace(w2)
    ensures t == w1 + (MatchMonthYearTail(t).value.0 + (w2 + MatchMonthYearTail(t).value.1))
  {
    var w := SpaceRun(t);
    SpaceRunIsWhite(t);
    w1 := t[..w];
    var u := t[w..];
    var b := DigitRun(u);
    var v := u[b..];
    w2 := YearTailSplit(v);
    assert u == u[..b] + v;
    assert t == w1 + u;
  }

  /** Conversely to `MatchComposed`: a recognised literal is exactly its
      day, non-empty white space, its month, non-empty white space and its
      year, the shape `^\d{1,2}\s+\d{1,2}\s+\d{4}$` describes. */
  lemma {:induction false} MatchSplit(s: string)
    requires MatchDayMonthYear(s).Some?
    ensures var (d, m, y) := MatchDayMonthYear(s).value;
      exists w1, w2 :: |w1| >= 1 && AllSpace(w1) && |w2| >= 1 && AllSpace(w2) && s == d + w1 + m + w2 + y
  {
    var a := DigitRun(s);
    var t := s[a..];
    var w1, w2 := MonthYearTailSplit(t);
    var (m, y) := MatchMonthYearTail(t).value;
    var d := s[..a];
    assert MatchDayMonthYear(s).value == (d, m, y);
    assert s == d + (w1 + (m + (w2 + y))) by { assert s == d + t; }
    SpacedLiteral(s, d, w1, m, w2, y);
  }

  lemma SpacedLiteral(s: string, d: string, w1: string, m: string, w2: string, y: string)
    requires |w1| >= 1 && AllSpace(w1) && |w2| >= 1 && AllSpace(w2)
    requires s == d + (w1 + (m + (w2 + y)))
    ensures exists w1, w2 :: |w1| >= 1 && AllSpace(w1) && |w2| >= 1 && AllSpace(w2) && s == d + w1 + m + w2 + y
  {
    assert s == d + w1 + m + w2 + y;
  }

  /** The leading white-space run is all white space. */
  lemma {:induction false} SpaceRunIsWhite(s: string)
    ensures AllSpace(s[..SpaceRun(s)])
  {
    if s != [] && IsSpace(s[0]) {
      SpaceRunIsWhite(s[1..]);
      assert s[..SpaceRun(s)] == [s[0]] + s[1..][..SpaceRun(s[1..])];
    }
  }

  lemma {:induction false} DigitRunOfConcat(d: string, rest: string)
    requires AllDigits(d)
    requires rest == [] || !IsDigit(rest[0])
    ensures DigitRun(d + rest) == |d|
  {
    if d != [] {
      assert (d + rest)[1..] == d[1..] + rest;
      DigitRunOfConcat(d[1..], rest);
    }
  }

  lemma {:induction false} SpaceRunOfConcat(w: string, rest: string)
    requires AllSpace(w)
    requires rest == [] || !IsSpace(rest[0])
    ensures SpaceRun(w + rest) == |w|
  {
    if w != [] {
      assert (w + rest)[1..] == w[1..] + rest;
      SpaceRunOfConcat(w[1..], rest);
    }
  }

  lemma YearTailComposed(w: string, y: string)
    requires |w| >= 1 && AllSpace(w) && |y| == 4 && AllDigits(y)
    ensures MatchYearTail(w + y) == Some(y)
  {
    assert !IsSpace(y[0]) by { assert IsDigit(y[0]); }
    SpaceRunOfConcat(w, y);
    assert (w + y)[|w|..] == y;
  }

  lemma MonthYearTailComposed(w1: string, m: string, w2: string, y: string)
    requires 1 <= |m| <= 2 && AllDigits(m)
    requires |w1| >= 1 && AllSpace(w1) && |w2| >= 1 && AllSpace(w2)
    requires |y| == 4 && AllDigits(y)
    ensures MatchMonthYearTail(w1 + (m + (w2 + y))) == Some((m, y))
  {
    var u := m + (w2 + y);
    assert !IsSpace(u[0]) by { assert u[0] == m[0]; }
    SpaceRunOfConcat(w1, u);
    assert (w1 + u)[|w1|..] == u;
    assert !IsDigit((w2 + y)[0]) by { assert (w2 + y)[0] == w2[0]; }
    DigitRunOfConcat(m, w2 + y);
    assert u[|m|..] == w2 + y;
    assert u[..|m|] == m;
    YearTailComposed(w2, y);
  }

  /** Every string of the shape day, spaces, month, spaces, year is
      recognised, and the parts are exactly the ones it was built from. */
  lemma {:induction false} MatchComposed(d: string, w1: string, m: string, w2: string, y: string)
    requires 1 <= |d| <= 2 && AllDigits(d) && 1 <= |m| <= 2 && AllDigits(m)
    requires |y| == 4 && AllDigits(y)
    requires |w1| >= 1 && AllSpace(w1) && |w2| >= 1 && AllSpace(w2)
    ensures MatchDayMonthYear(d + w1 + m + w2 + y) == Some((d, m, y))
  {
    var t := w1 + (m + (w2 + y));
    assert d + w1 + m + w2 + y == d + t;
    assert !IsDigit(t[0]) by { assert t[0] == w1[0]; }
    DigitRunOfConcat(d, t);
    assert (d + t)[|d|..] == t;
    assert (d + t)[..|d|] == d;
    MonthYearTailComposed(w1, m, w2, y);
  }

  /** `${y}-${m.padStart(2, '0')}-${d.padStart(2, '0')}`. */
  function IsoDate(d: string, m: string, y: string): string {
    y + "-" + PadStart2(m) + "-" + PadStart2(d)
  }

  /** `new Date(...)`'s input after the rewrite: a trimmed "D M YYYY" literal
      becomes `YYYY-MM-DD`; any other text is passed on unchanged. */
  function RewriteDayMonthYear(s: string): (r: string)
    ensures MatchDayMonthYear(s).None? ==> r == s
  {
    match MatchDayMonthYear(s)
    case None => s
    case Some((d, m, y)) => IsoDate(d, m, y)
  }

  /** The full-date shape of section 5.6 of RFC 3339 (`date-fullyear "-"
      date-month "-" date-mday`), with no range check on month or day. */
  predicate FullDateShape(s: string) {
    |s| == 10 && AllDigits(s[..4]) && s[4] == '-' && AllDigits(s[5..7]) && s[7] == '-' && AllDigits(s[8..])
  }

  lemma PaddedDigits(s: string)
    requires 1 <= |s| <= 2 && AllDigits(s)
    ensures |PadStart2(s)| == 2 && AllDigits(PadStart2(s)) && PadStart2(s)[2 - |s|..] == s
  {
  }

  lemma DashJoinParts(y: string, pm: string, pd: string)
    requires |y| == 4 && |pm| == 2 && |pd| == 2
    ensures var r := y + "-" + pm + "-" + pd;
      |r| == 10 && r[..4] == y && r[4] == '-' && r[5..7] == pm && r[7] == '-' && r[8..] == pd
  {
  }

  /** Day, month and year of digits give the full-date shape: the year,
      then the month and the day each zero-padded to two digits. */
  lemma {:induction false} IsoDateShape(d: string, m: string, y: string)
    requires 1 <= |d| <= 2 && AllDigits(d) && 1 <= |m| <= 2 && AllDigits(m)
    requires |y| == 4 && AllDigits(y)
    ensures FullDateShape(IsoDate(d, m, y))
    ensures IsoDate(d, m, y)[..4] == y
    ensures IsoDate(d, m, y)[5..7] == PadStart2(m) && PadStart2(m)[2 - |m|..] == m
    ensures IsoDate(d, m, y)[8..] == PadStart2(d) && PadStart2(d)[2 - |d|..] == d
  {
    PaddedDigits(m);
    PaddedDigits(d);
    DashJoinParts(y, PadStart2(m), PadStart2(d));
  }

  /** A recognised literal is always rewritten to the full-date shape. */
  lemma {:induction false} RewriteIsFullDate(s: string)
    requires MatchDayMonthYear(s).Some?
    ensures FullDateShape(RewriteDayMonthYear(s))
  {
    MatchShape(s);
    var t := MatchDayMonthYear(s).value;
    IsoDateShape(t.0, t.1, t.2);
  }

  lemma MatchExample()
    ensures MatchDayMonthYear("23 11 2004") == Some(("23", "11", "2004"))
  {
    assert "23" + " " + "11" + " " + "2004" == "23 11 2004" by {
      assert "23" + " " == "23 ";
      assert "23 " + "11" == "23 11";
      assert "23 11" + " " == "23 11 ";
      assert "23 11 " + "2004" == "23 11 2004";
    }
    assert AllDigits("23") && AllDigits("11") && AllDigits("2004") && AllSpace(" ") by {
      assert IsDigit('2') && IsDigit('3') && IsDigit('1') && IsDigit('0') && IsDigit('4');
    }
    MatchComposed("23", " ", "11", " ", "2004");
  }

  lemma MatchPaddingExample()
    ensures MatchDayMonthYear("3  7 1999") == Some(("3", "7", "1999"))
  {
    assert "3" + "  " + "7" + " " + "1999" == "3  7 1999" by {
      assert "3" + "  " == "3  ";
      assert "3  " + "7" == "3  7";
      assert "3  7" + " " == "3  7 ";
      assert "3  7 " + "1999" == "3  7 1999";
    }
    assert AllDigits("3") && AllDigits("7") && AllDigits("1999") && AllSpace("  ") && AllSpace(" ");
    MatchComposed("3", "  ", "7", " ", "1999");
  }

  /** Rewriting a composed literal yields the ISO date of its parts. */
  lemma {:induction false} RewriteComposed(d: string, w1: string, m: string, w2: string, y: string)
    requires 1 <= |d| <= 2 && AllDigits(d) && 1 <= |m| <= 2 && AllDigits(m)
    requires |y| == 4 && AllDigits(y)
    requires |w1| >= 1 && AllSpace(w1) && |w2| >= 1 && AllSpace(w2)
    ensures RewriteDayMonthYear(d + w1 + m + w2 + y) == IsoDate(d, m, y)
  {
    MatchComposed(d, w1, m, w2, y);
  }

  /** Two-digit parts are placed year first, unpadded. */
  lemma IsoDateExample()
    ensures IsoDate("23", "11", "2004") == "2004-11-23"
  {
    assert PadStart2("11") == "11" && PadStart2("23") == "23";
    assert "2004" + "-" == "2004-";
    assert "2004-" + "11" == "2004-11";
    assert "2004-11" + "-" == "2004-11-";
    assert "2004-11-" + "23" == "2004-11-23";
  }

  /** One-digit parts are zero-padded to two. */
  lemma IsoDatePaddingExample()
    ensures IsoDate("3", "7", "1999") == "1999-07-03"
  {
    assert PadStart2("7") == "07" && PadStart2("3") == "03";
    assert "1999" + "-" == "1999-";
    assert "1999-" + "07" == "1999-07";
    assert "1999-07" + "-" == "1999-07-";
    assert "1999-07-" + "03" == "1999-07-03";
  }

  /** The worked case: "23 11 2004" is rewritten to "2004-11-23". */
  lemma {:induction false} RewriteExample()
    ensures RewriteDayMonthYear("23 11 2004") == "2004-11-23"
  {
    MatchExample();
    IsoDateExample();
  }

  /** A single-digit day and month are zero-padded. */
  lemma {:induction false} RewritePaddingExample()
    ensures RewriteDayMonthYear("3  7 1999") == "1999-07-03"
  {
    MatchPaddingExample();
    IsoDatePaddingExample();
  }

  /** Text that is not a "D M YYYY" literal reaches the date parser unchanged. */
  lemma {:induction false} RewriteLeavesOtherText()
    ensures RewriteDayMonthYear("not a date") == "not a date"
    ensures RewriteDayMonthYear("2004-11-23") == "2004-11-23"
  {
    assert DigitRun("not a date") == 0;
    assert DigitRun("2004-11-23") >= 3 by {
      assert IsDigit("2004-11-23"[0]) && IsDigit("2004-11-23"[1]) && IsDigit("2004-11-23"[2]);
      assert "2004-11-23"[1..][1..] == "04-11-23";
    }
  }

  // ---------------------------------------------------------------------
  // Answer mappings

  datatype PregnancyStatus = Pregnant | NotPregnant | PregnancyUnknown
  datatype CitizenshipStatus = Citizen | PermanentResident | NonResident
  datatype AsyleeRefugeeStatus = Asylee | Refugee | ProtectedStatus | Neither

  /** `is_pregnant`: "yes" and "no" in any letter case; every other answer is
      an explicit unknown (the value is lower-cased but not trimmed). */
  function PregnancyFromAnswer(answer: string): (r: PregnancyStatus)
    ensures r == Pregnant <==> ToLower(answer) == "yes"
    ensures r == NotPregnant <==> ToLower(answer) == "no"
    ensures r == PregnancyUnknown <==> ToLower(answer) != "yes" && ToLower(answer) != "no"
  {
    var v := ToLower(answer);
    if v == "yes" then Pregnant else if v == "no" then NotPregnant else PregnancyUnknown
  }

  /** `is_us_citizen`: only "yes" and "no" (any case) give a status. */
  function CitizenshipFromAnswer(answer: string): (r: Option<CitizenshipStatus>)
    ensures r == Some(Citizen) <==> ToLower(answer) == "yes"
    ensures r == Some(NonResident) <==> ToLower(answer) == "no"
    ensures r.None? <==> ToLower(answer) != "yes" && ToLower(answer) != "no"
  {
    var v := ToLower(answer);
    if v == "yes" then Some(Citizen) else if v == "no" then Some(NonResident) else None
  }

  /** `is_asylee_or_refugee`: only "yes" and "no" (any case) give a status. */
  function AsyleeFromAnswer(answer: string): (r: Option<AsyleeRefugeeStatus>)
    ensures r == Some(Asylee) <==> ToLower(answer) == "yes"
    ensures r == Some(Neither) <==> ToLower(answer) == "no"
    ensures r.None? <==> ToLower(answer) != "yes" && ToLower(answer) != "no"
  {
    var v := ToLower(answer);
    if v == "yes" then Some(Asylee) else if v == "no" then Some(Neither) else None
  }

  /** Letter case does not matter to the answer mappings. */
  lemma {:induction false} AnswersIgnoreCase(a: string, b: string)
    requires ToLower(a) == ToLower(b)
    ensures PregnancyFromAnswer(a) == PregnancyFromAnswer(b)
    ensures CitizenshipFromAnswer(a) == CitizenshipFromAnswer(b)
    ensures AsyleeFromAnswer(a) == AsyleeFromAnswer(b)
  {
  }

  /** `parseFloat(x)` followed by `!isNaN(v) && v > 0`: the parsed amount
      when it is a positive number, otherwise nothing. */
  function PositiveAmount(parsed: Option<real>): (r: Option<real>)
    ensures r.Some? <==> parsed.Some? && parsed.value > 0.0
    ensures r.Some? ==> r == parsed
  {
    if parsed.Some? && parsed.value > 0.0 then parsed else None
  }
}
