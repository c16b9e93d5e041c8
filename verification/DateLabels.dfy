/** What labels are read as: the month names and the words for a role not over, one by one, and a month and a year in
    either order with any separators between them (packages/domain/dates.py:40-148). */
module DateLabels {
  import opened Basics
  import opened Dates

  // ----- the vocabulary -----

  predicate StandsFor(name: string, month: nat) {
    || (month == 1 && (name == "january" || name == "jan"))
    || (month == 2 && (name == "february" || name == "feb"))
    || (month == 3 && (name == "march" || name == "mar"))
    || (month == 4 && (name == "april" || name == "apr"))
    || (month == 5 && name == "may")
    || (month == 6 && (name == "june" || name == "jun"))
    || (month == 7 && (name == "july" || name == "jul"))
    || (month == 8 && (name == "august" || name == "aug"))
    || (month == 9 && (name == "september" || name == "sep" || name == "sept"))
    || (month == 10 && (name == "october" || name == "oct"))
    || (month == 11 && (name == "november" || name == "nov"))
    || (month == 12 && (name == "december" || name == "dec"))
  }

  /** Its first three letters tell the month. */
  function Initials(month: nat): (char, char, char) {
    match month
    case 1 => ('j', 'a', 'n')
    case 2 => ('f', 'e', 'b')
    case 3 => ('m', 'a', 'r')
    case 4 => ('a', 'p', 'r')
    case 5 => ('m', 'a', 'y')
    case 6 => ('j', 'u', 'n')
    case 7 => ('j', 'u', 'l')
    case 8 => ('a', 'u', 'g')
    case 9 => ('s', 'e', 'p')
    case 10 => ('o', 'c', 't')
    case 11 => ('n', 'o', 'v')
    case _ => ('d', 'e', 'c')
  }

  lemma InitialsTell(name: string, month: nat)
    requires StandsFor(name, month)
    ensures 1 <= month <= 12 && |name| >= 3 && Initials(month) == (name[0], name[1], name[2])
  {
  }

  lemma OneMonth(name: string, a: nat, b: nat)
    requires StandsFor(name, a) && StandsFor(name, b)
    ensures a == b
  {
    InitialsTell(name, a);
    InitialsTell(name, b);
  }

  lemma {:induction false} FoundIs(pairs: seq<(string, nat)>, key: string)
    requires forall p :: p in pairs ==> StandsFor(p.0, p.1)
    ensures Find(pairs, key).Some? ==> StandsFor(key, Find(pairs, key).value)
    ensures (exists p :: p in pairs && p.0 == key) ==> Find(pairs, key).Some?
  {
    if pairs != [] {
      var n := |pairs| - 1;
      assert pairs == pairs[..n] + [pairs[n]];
      assert StandsFor(pairs[n].0, pairs[n].1);
      FoundIs(pairs[..n], key);
    }
  }

  lemma EntriesAre(p: (string, nat))
    requires p in MONTH_NAMES
    ensures StandsFor(p.0, p.1)
  {
  }

  lemma NamesAreListed(name: string, month: nat)
    requires StandsFor(name, month)
    ensures exists p :: p in MONTH_NAMES && p.0 == name
  {
    assert MONTH_NAMES[0].0 == "january" && MONTH_NAMES[1].0 == "jan" && MONTH_NAMES[2].0 == "february";
    assert MONTH_NAMES[3].0 == "feb" && MONTH_NAMES[4].0 == "march" && MONTH_NAMES[5].0 == "mar";
    assert MONTH_NAMES[6].0 == "april" && MONTH_NAMES[7].0 == "apr" && MONTH_NAMES[8].0 == "may";
    assert MONTH_NAMES[9].0 == "june" && MONTH_NAMES[10].0 == "jun" && MONTH_NAMES[11].0 == "july";
    assert MONTH_NAMES[12].0 == "jul" && MONTH_NAMES[13].0 == "august" && MONTH_NAMES[14].0 == "aug";
    assert MONTH_NAMES[15].0 == "september" && MONTH_NAMES[16].0 == "sep" && MONTH_NAMES[17].0 == "sept";
    assert MONTH_NAMES[18].0 == "october" && MONTH_NAMES[19].0 == "oct" && MONTH_NAMES[20].0 == "november";
    assert MONTH_NAMES[21].0 == "nov" && MONTH_NAMES[22].0 == "december" && MONTH_NAMES[23].0 == "dec";
    var k :| 0 <= k < |MONTH_NAMES| && MONTH_NAMES[k].0 == name;
    assert MONTH_NAMES[k] in MONTH_NAMES;
  }

  /** A name stands for the month it abbreviates, and no other word stands for any. */
  lemma MonthsAre(name: string, month: nat)
    ensures Find(MONTH_NAMES, name) == Some(month) <==> StandsFor(name, month)
  {
    forall p | p in MONTH_NAMES ensures StandsFor(p.0, p.1) {
      EntriesAre(p);
    }
    FoundIs(MONTH_NAMES, name);
    if StandsFor(name, month) {
      NamesAreListed(name, month);
      OneMonth(name, month, Find(MONTH_NAMES, name).value);
    }
  }

  /** A label is open-ended exactly when it is blank or one of eight words, stops and commas around them aside. */
  lemma OpenEndedAre(raw: string)
    ensures IsOpenEnded(raw) <==>
      || Clean(raw) == ""
      || Trimmed(Clean(raw)) == "present" || Trimmed(Clean(raw)) == "current" || Trimmed(Clean(raw)) == "currently"
      || Trimmed(Clean(raw)) == "now" || Trimmed(Clean(raw)) == "ongoing" || Trimmed(Clean(raw)) == "to date"
      || Trimmed(Clean(raw)) == "today" || Trimmed(Clean(raw)) == "in progress"
  {
  }

  /** The same letter in another case. */
  predicate Recased(c: char, d: char) {
    'A' <= c <= 'Z' && 'a' <= d <= 'z' && (d as int) - ('a' as int) == (c as int) - ('A' as int)
  }

  predicate SameLetter(c: char, d: char) {
    c == d || Recased(c, d) || Recased(d, c)
  }

  /** Capitals make no difference to what a label is read as, nor to its ranks. */
  lemma CaseImmaterial(a: string, b: string)
    requires |a| == |b| && forall i :: 0 <= i < |a| ==> SameLetter(a[i], b[i])
    ensures Parse(a) == Parse(b) && IsOpenEnded(a) == IsOpenEnded(b)
    ensures StartRank(a) == StartRank(b) && EndRank(a) == EndRank(b)
  {
    forall i | 0 <= i < |a| ensures Lower(a[i]) == Lower(b[i]) {
      assert SameLetter(a[i], b[i]);
    }
    var x, y := seq(|a|, i requires 0 <= i < |a| => Lower(a[i])), seq(|b|, i requires 0 <= i < |b| => Lower(b[i]));
    assert x == y;
    assert Clean(a) == Clean(b);
  }

  // ----- a month and a year -----

  predicate Separates(seps: string) {
    seps != "" && forall i :: 0 <= i < |seps| ==> seps[i] == ' ' || seps[i] == '.' || seps[i] == '/' || seps[i] == '-'
  }

  /** The date a month number and a year stand for, if there is such a month. */
  function MonthIn(year: string, month: nat): Option<CanonicalDate>
    requires IsYear(year)
  {
    if month == 0 || month > 12 then None else Some(CanonicalDate(Value(year), Some(month)))
  }

  lemma NotOpenEnded(s: string)
    requires s != "" && IsDigit(s[0])
    ensures forall raw :: Clean(raw) == s ==> !IsOpenEnded(s) && Clean(s) == s
  {
    DigitFirstIsDated(s);
    forall raw | Clean(raw) == s ensures !IsOpenEnded(s) && Clean(s) == s {
      CleanIdempotent(raw);
    }
  }

  /** Front, separators and back, found again by their characters. */
  lemma Parts(a: string, seps: string, b: string, inClass: char -> bool)
    requires forall i :: 0 <= i < |a| ==> inClass(a[i])
    requires Separates(seps) && !inClass(' ') && !inClass('.') && !inClass('/') && !inClass('-')
    requires b == "" || !IsSeparator(b[0])
    ensures var s := a + seps + b;
      && Span(s, inClass) == |a| && s[..|a|] == a && s[|a|..] == seps + b
      && Span(s[|a|..], c => IsSeparator(c)) == |seps| && s[|a|..][|seps|..] == b
  {
    var s := a + seps + b;
    assert s == a + (seps + b);
    SpanPrefix(a, seps + b, inClass);
    SpanPrefix(seps, b, c => IsSeparator(c));
    assert s[|a|..] == seps + b && (seps + b)[|seps|..] == b;
  }

  /** "05/2015" */
  lemma MonthThenYear(raw: string, month: string, seps: string, year: string)
    requires IsShort(month) && IsYear(year) && Separates(seps) && Clean(raw) == month + seps + year
    ensures Parse(raw) == MonthIn(year, Value(month))
  {
    var s := month + seps + year;
    NotOpenEnded(s);
    Parts(month, seps, year, c => IsDigit(c));
    assert s[|month|] == seps[0] && !IsDigit(s[|month|]);
    assert !IsYear(s[..4]) by {
      assert s[..4][|month|] == s[|month|];
    }
    assert Span(s, c => IsLetter(c)) == 0;
  }

  /** "2015/05", and "2015-05" */
  lemma YearThenMonth(raw: string, year: string, seps: string, month: string)
    requires IsShort(month) && IsYear(year) && Separates(seps) && Clean(raw) == year + seps + month
    ensures Parse(raw) == MonthIn(year, Value(month))
  {
    NotOpenEnded(year + seps + month);
    if seps == "-" {
      IsoReads(year + seps + month, year, month);
    } else {
      OnlyNumeric(year, seps, month);
    }
    ParseTakes(raw);
  }

  lemma OnlyNumeric(year: string, seps: string, month: string)
    requires IsShort(month) && IsYear(year) && Separates(seps) && seps != "-"
    ensures Iso(year + seps + month) == NoMatch && Named(year + seps + month) == NoMatch
    ensures Numeric(year + seps + month) == Match(MonthIn(year, Value(month)))
  {
    assert (year + seps + month)[4..] == seps + month;
    IsoRefuses(year + seps + month, seps, month);
    NoLettersInFront(year, seps, month);
    NumericReads(year, seps, month);
  }

  lemma ParseTakes(raw: string)
    requires Clean(raw) != "" && !IsOpenEnded(Clean(raw))
    ensures Iso(Clean(raw)).Match? ==> Parse(raw) == Iso(Clean(raw)).date
    ensures Iso(Clean(raw)) == NoMatch && Named(Clean(raw)).Match? ==> Parse(raw) == Named(Clean(raw)).date
    ensures Iso(Clean(raw)) == NoMatch && Named(Clean(raw)) == NoMatch && Numeric(Clean(raw)).Match? ==>
      Parse(raw) == Numeric(Clean(raw)).date
  {
  }

  lemma NoLettersInFront(year: string, seps: string, month: string)
    requires IsShort(month) && IsYear(year) && Separates(seps)
    ensures Named(year + seps + month) == NoMatch
  {
    var s := year + seps + month;
    Parts(year, seps, month, c => IsDigit(c));
    assert s[..4] == year && s[4..] == seps + month;
    assert Span(s, c => IsLetter(c)) == 0 && Span(month, c => IsLetter(c)) == 0;
  }

  lemma NumericReads(year: string, seps: string, month: string)
    requires IsShort(month) && IsYear(year) && Separates(seps)
    ensures Numeric(year + seps + month) == Match(MonthIn(year, Value(month)))
  {
    var s := year + seps + month;
    Parts(year, seps, month, c => IsDigit(c));
    assert s[..4] == year && s[4..] == seps + month;
  }

  lemma IsoReads(s: string, year: string, month: string)
    requires IsYear(year) && IsShort(month) && s == year + "-" + month
    ensures Iso(s) == Match(MonthIn(year, Value(month)))
  {
    assert s[..4] == year && s[4] == '-' && s[5..] == month;
    SpanWhole(month, c => IsDigit(c));
    assert month[..|month|] == month;
  }

  /** A longer separator, or another one, is not the iso form. */
  lemma IsoRefuses(s: string, seps: string, rest: string)
    requires |s| > 4 && s[4..] == seps + rest && Separates(seps) && (seps != "-" || rest == "" || !IsDigit(rest[0]))
    ensures Iso(s) == NoMatch
  {
    if IsYear(s[..4]) && s[4] == '-' {
      assert s[4] == (seps + rest)[0] && s[5..] == s[4..][1..];
      assert s[5..] == seps[1..] + rest;
      assert s[5..] == "" || !IsDigit(s[5..][0]);
      assert Span(s[5..], c => IsDigit(c)) == 0;
    }
  }

  /** "september 2015" and "sept. 2015" */
  lemma NameThenYear(raw: string, name: string, seps: string, year: string)
    requires name != "" && (forall i :: 0 <= i < |name| ==> IsLetter(name[i]))
    requires IsYear(year) && Separates(seps) && Clean(raw) == name + seps + year
    ensures Parse(raw) == NamedMonth(year, name)
  {
    CleanIdempotent(raw);
    EndsInDigit(name + seps + year);
    NamedReads(name, seps, year);
    ParseTakes(raw);
  }

  lemma NamedReads(name: string, seps: string, year: string)
    requires name != "" && (forall i :: 0 <= i < |name| ==> IsLetter(name[i])) && IsYear(year) && Separates(seps)
    ensures Iso(name + seps + year) == NoMatch
    ensures Named(name + seps + year) == Match(NamedMonth(year, name))
  {
    var s := name + seps + year;
    Parts(name, seps, year, c => IsLetter(c));
    assert s[0] == name[0] && !IsYear(s[..4]) by {
      assert s[..4][0] == name[0];
    }
  }

  lemma EndsInDigit(s: string)
    requires s != "" && IsDigit(s[|s| - 1])
    ensures Trimmed(s) !in OpenEndedWords()
  {
    var front := Span(s, c => c == '.' || c == ',');
    assert front < |s|;
    var t := s[front..];
    assert t[|t| - 1] == s[|s| - 1];
    assert TrimmedEnd(t) == t;
    OpenEndedWordsEndInLetters();
  }

  /** "2015 september" and "2015 sept." */
  lemma YearThenName(raw: string, year: string, seps: string, name: string, stop: string)
    requires name != "" && (forall i :: 0 <= i < |name| ==> IsLetter(name[i])) && (stop == "" || stop == ".")
    requires IsYear(year) && Separates(seps) && Clean(raw) == year + seps + (name + stop)
    ensures Parse(raw) == NamedMonth(year, name)
  {
    var s := year + seps + (name + stop);
    NotOpenEnded(s);
    Parts(year, seps, name + stop, c => IsDigit(c));
    assert s[..4] == year && s[4..] == seps + (name + stop);
    IsoRefuses(s, seps, name + stop);
    assert Span(s, c => IsLetter(c)) == 0;
    SpanPrefix(name, stop, c => IsLetter(c));
    assert (name + stop)[..|name|] == name && (name + stop)[|name|..] == stop;
  }

  /** A name and a year are a date exactly when the name stands for a month. */
  lemma NamedIs(year: string, name: string, month: nat)
    requires IsYear(year)
    ensures NamedMonth(year, name) == Some(CanonicalDate(Value(year), Some(month))) <==> StandsFor(name, month)
    ensures NamedMonth(year, name) == None <==> forall m: nat :: !StandsFor(name, m)
  {
    forall m: nat ensures Find(MONTH_NAMES, name) == Some(m) <==> StandsFor(name, m) {
      MonthsAre(name, m);
    }
    if Find(MONTH_NAMES, name).Some? {
      assert StandsFor(name, Find(MONTH_NAMES, name).value);
    }
  }

  /** With a slash, a stop, a dash or a space between them, the label is already clean. */
  lemma OneSeparator(a: string, seps: string, b: string)
    requires a != "" && forall i :: 0 <= i < |a| ==> IsPlain(a[i])
    requires b != "" && forall i :: 0 <= i < |b| ==> IsPlain(b[i])
    requires seps == "/" || seps == "." || seps == "-" || seps == " "
    ensures Separates(seps) && Clean(a + seps + b) == a + seps + b
  {
    if seps == " " {
      CleanPair(a, b);
      assert a + " " + b == a + seps + b;
    } else {
      CleanWord(a + seps + b);
    }
  }

  // ----- ranks -----

  lemma YearReads(year: nat)
    requires year < 10000
    ensures Parse(FourDigits(year)) == Some(CanonicalDate(year, None))
  {
    IsoRoundTrip(CanonicalDate(year, None));
    assert IsoForm(CanonicalDate(year, None)) == FourDigits(year);
  }

  lemma MonthReads(year: nat, month: nat)
    requires year < 10000 && 1 <= month <= 12
    ensures Parse(FourDigits(year) + "-" + TwoDigits(month)) == Some(CanonicalDate(year, Some(month)))
  {
    IsoRoundTrip(CanonicalDate(year, Some(month)));
    assert IsoForm(CanonicalDate(year, Some(month))) == FourDigits(year) + "-" + TwoDigits(month);
  }

  /** A year alone counts as its January at the start of a role, and as its December at the end. */
  lemma ReadAlike(alone: string, first: string, last: string, year: nat)
    requires Parse(alone) == Some(CanonicalDate(year, None))
    requires Parse(first) == Some(CanonicalDate(year, Some(1))) && Parse(last) == Some(CanonicalDate(year, Some(12)))
    ensures StartRank(alone) == StartRank(first) && EndRank(alone) == EndRank(last)
  {
    DatedIsNotOpenEnded(alone);
    DatedIsNotOpenEnded(last);
  }

  lemma YearAloneRanks(year: nat)
    requires year < 10000
    ensures StartRank(FourDigits(year)) == StartRank(FourDigits(year) + "-" + TwoDigits(1))
    ensures EndRank(FourDigits(year)) == EndRank(FourDigits(year) + "-" + TwoDigits(12))
  {
    YearReads(year);
    MonthReads(year, 1);
    MonthReads(year, 12);
    ReadAlike(FourDigits(year), FourDigits(year) + "-" + TwoDigits(1), FourDigits(year) + "-" + TwoDigits(12), year);
  }

  /** Of two readable labels, the one of the later month ranks higher, at either side. */
  lemma LaterRanksHigher(a: string, b: string)
    requires Parse(a).Some? && Parse(b).Some? && Parse(a).value.month.Some? && Parse(b).value.month.Some?
    ensures var x, y := Parse(a).value, Parse(b).value;
      var before := x.year < y.year || (x.year == y.year && x.month.value <= y.month.value);
      && (RankLeq(StartRank(a), StartRank(b)) <==> before)
      && (RankLeq(EndRank(a), EndRank(b)) <==> before)
  {
    DatedIsNotOpenEnded(a);
    DatedIsNotOpenEnded(b);
  }

  /** A label that cannot be read ranks below every other. */
  lemma UnreadableRanksLowest(a: string, b: string)
    requires Parse(a) == None && !IsOpenEnded(a)
    ensures RankLeq(StartRank(a), StartRank(b)) && RankLeq(EndRank(a), EndRank(b))
  {
  }
}
