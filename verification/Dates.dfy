/** Canonical dates: one parser behind every comparison and ordering of date labels
    (packages/domain/dates.py). Digits and letters are the ASCII ones. */
module Dates {
  import opened Basics

  datatype CanonicalDate = CanonicalDate(year: nat, month: Option<nat>)

  type Rank = (nat, nat)

  const OPEN_ENDED_RANK: Rank := (9999, 99)
  const UNREADABLE_RANK: Rank := (0, 0)

  const MONTH_NAMES: seq<(string, nat)> := [
    ("january", 1), ("jan", 1), ("february", 2), ("feb", 2), ("march", 3), ("mar", 3), ("april", 4), ("apr", 4),
    ("may", 5), ("june", 6), ("jun", 6), ("july", 7), ("jul", 7), ("august", 8), ("aug", 8), ("september", 9),
    ("sep", 9), ("sept", 9), ("october", 10), ("oct", 10), ("november", 11), ("nov", 11), ("december", 12), ("dec", 12)]

  function OpenEndedWords(): set<string> {
    {"present", "current", "currently", "now", "ongoing", "to date", "today", "in progress"}
  }

  // ----- characters -----

  predicate IsDigit(c: char) { '0' <= c <= '9' }
  predicate IsLetter(c: char) { 'a' <= c <= 'z' }
  predicate IsSeparator(c: char) { c == ' ' || c == '.' || c == '/' || c == '-' }

  function Lower(c: char): char {
    if 'A' <= c <= 'Z' then ((c as int) + 32) as char else c
  }

  /** How many characters at the front are of this class. */
  function Span(s: string, inClass: char -> bool): (n: nat)
    ensures n <= |s| && (forall i :: 0 <= i < n ==> inClass(s[i])) && (n < |s| ==> !inClass(s[n]))
  {
    if s == [] || !inClass(s[0]) then 0 else 1 + Span(s[1..], inClass)
  }

  predicate AllDigits(s: string) {
    forall i :: 0 <= i < |s| ==> IsDigit(s[i])
  }

  function Value(digits: string): nat
    requires AllDigits(digits)
  {
    if digits == [] then 0 else Value(digits[..|digits| - 1]) * 10 + DigitValue(digits[|digits| - 1])
  }

  function DigitValue(c: char): nat
    requires IsDigit(c)
  {
    c as int - '0' as int
  }

  // ----- cleaning -----

  /** Lower-cased, words separated by single spaces. */
  function Clean(raw: string): string {
    Joined(Words(seq(|raw|, i requires 0 <= i < |raw| => Lower(raw[i]))))
  }

  function Words(s: string): seq<string>
    decreases |s|
  {
    var blank := Span(s, c => IsSpace(c));
    if blank == |s| then []
    else
      var word := Span(s[blank..], c => !IsSpace(c));
      [s[blank..][..word]] + Words(s[blank..][word..])
  }

  function Joined(words: seq<string>): string {
    if words == [] then ""
    else if |words| == 1 then words[0]
    else words[0] + " " + Joined(words[1..])
  }

  /** str.strip(".,") */
  function Trimmed(s: string): string {
    var front := Span(s, c => c == '.' || c == ',');
    TrimmedEnd(s[front..])
  }

  function TrimmedEnd(s: string): string {
    if s != [] && (s[|s| - 1] == '.' || s[|s| - 1] == ',') then TrimmedEnd(s[..|s| - 1]) else s
  }

  predicate IsOpenEnded(raw: string) {
    var cleaned := Clean(raw);
    cleaned == "" || Trimmed(cleaned) in OpenEndedWords()
  }

  // ----- shapes -----

  predicate IsYear(s: string) { |s| == 4 && AllDigits(s) }
  predicate IsShort(s: string) { 1 <= |s| <= 2 && AllDigits(s) }

  function Dated(year: nat, month: nat): Option<CanonicalDate> {
    if 1 <= month <= 12 then Some(CanonicalDate(year, Some(month))) else None
  }

  datatype Match = NoMatch | Match(date: Option<CanonicalDate>)

  /** yyyy, yyyy-m, yyyy-mm, each of the latter with an optional day. */
  function Iso(s: string): Match {
    if |s| < 4 || !IsYear(s[..4]) then NoMatch
    else if |s| == 4 then Match(Some(CanonicalDate(Value(s[..4]), None)))
    else if s[4] != '-' then NoMatch
    else
      var rest := s[5..];
      var n := Span(rest, c => IsDigit(c));
      if !IsShort(rest[..n]) then NoMatch
      else if n == |rest| || (rest[n] == '-' && IsShort(rest[n + 1..]))
        then Match(Dated(Value(s[..4]), Value(rest[..n])))
        else NoMatch
  }

  /** A word, separators, a year; or a year, separators, a word with an optional full stop. */
  function Named(s: string): Match {
    var n := Span(s, c => IsLetter(c));
    if n > 0 then
      var seps := Span(s[n..], c => IsSeparator(c));
      if seps > 0 && IsYear(s[n..][seps..]) then Match(NamedMonth(s[n..][seps..], s[..n])) else NoMatch
    else if |s| < 4 || !IsYear(s[..4]) then NoMatch
    else
      var rest := s[4..];
      var seps := Span(rest, c => IsSeparator(c));
      var word := Span(rest[seps..], c => IsLetter(c));
      var tail := rest[seps..][word..];
      if seps > 0 && word > 0 && (tail == "" || tail == ".")
      then Match(NamedMonth(s[..4], rest[seps..][..word])) else NoMatch
  }

  function NamedMonth(year: string, name: string): Option<CanonicalDate>
    requires IsYear(year)
  {
    var month := Find(MONTH_NAMES, name);
    if month.Some? then Some(CanonicalDate(Value(year), month)) else None
  }

  /** A month number, separators, a year; or the other way round. */
  function Numeric(s: string): Match {
    var n := Span(s, c => IsDigit(c));
    var seps := Span(s[n..], c => IsSeparator(c));
    var rest := s[n..][seps..];
    if seps > 0 && IsShort(s[..n]) && IsYear(rest) then Match(Dated(Value(rest), Value(s[..n])))
    else if seps > 0 && IsYear(s[..n]) && IsShort(rest) then Match(Dated(Value(s[..n]), Value(rest)))
    else NoMatch
  }

  function Parse(raw: string): Option<CanonicalDate> {
    var cleaned := Clean(raw);
    if cleaned == "" || IsOpenEnded(cleaned) then None
    else if Iso(cleaned).Match? then Iso(cleaned).date
    else if Named(cleaned).Match? then Named(cleaned).date
    else if Numeric(cleaned).Match? then Numeric(cleaned).date
    else None
  }

  // ----- ranks -----

  function StartRank(raw: string): Rank {
    var d := Parse(raw);
    if d.None? then UNREADABLE_RANK else (d.value.year, if d.value.month.Some? then d.value.month.value else 1)
  }

  function EndRank(raw: string): Rank {
    if IsOpenEnded(raw) then OPEN_ENDED_RANK
    else
      var d := Parse(raw);
      if d.None? then UNREADABLE_RANK else (d.value.year, if d.value.month.Some? then d.value.month.value else 12)
  }

  predicate RankLeq(a: Rank, b: Rank) {
    a.0 < b.0 || (a.0 == b.0 && a.1 <= b.1)
  }

  /** No answer for an open end, or where one of the labels states no date. */
  function StartsBeforeEnd(start: string, end: string): Option<bool> {
    if IsOpenEnded(start) || IsOpenEnded(end) then None
    else
      var first, last := Parse(start), Parse(end);
      if first.None? || last.None? then None
      else if first.value.month.None? || last.value.month.None? then Some(first.value.year <= last.value.year)
      else Some(RankLeq((first.value.year, first.value.month.value), (last.value.year, last.value.month.value)))
  }

  // ----- what parsing yields -----

  predicate IsDate(d: CanonicalDate) {
    d.year <= 9999 && (d.month.Some? ==> 1 <= d.month.value <= 12)
  }

  lemma YearValue(s: string)
    requires IsYear(s)
    ensures Value(s) == DigitValue(s[0]) * 1000 + DigitValue(s[1]) * 100 + DigitValue(s[2]) * 10 + DigitValue(s[3])
  {
    assert s[..3][..2] == s[..2] && s[..2][..1] == s[..1] && s[..1][..0] == "";
    assert Value(s[..1]) == DigitValue(s[0]);
    assert Value(s[..2]) == DigitValue(s[0]) * 10 + DigitValue(s[1]);
    assert Value(s[..3]) == DigitValue(s[0]) * 100 + DigitValue(s[1]) * 10 + DigitValue(s[2]);
  }

  lemma IsoYields(s: string)
    ensures Iso(s).Match? && Iso(s).date.Some? ==> IsDate(Iso(s).date.value)
  {
    if |s| >= 4 && IsYear(s[..4]) {
      YearValue(s[..4]);
    }
  }

  lemma NumericYields(s: string)
    ensures Numeric(s).Match? && Numeric(s).date.Some? ==> IsDate(Numeric(s).date.value)
  {
    var n := Span(s, c => IsDigit(c));
    var rest := s[n..][Span(s[n..], c => IsSeparator(c))..];
    if IsYear(rest) { YearValue(rest); }
    if IsYear(s[..n]) { YearValue(s[..n]); }
  }

  lemma NamedYieldsDate(year: string, name: string)
    requires IsYear(year)
    ensures NamedMonth(year, name).Some? ==> IsDate(NamedMonth(year, name).value)
  {
    YearValue(year);
    MonthNamesAreCalendar();
    if Find(MONTH_NAMES, name).Some? {
      CalendarMonths(MONTH_NAMES, name);
    }
  }

  lemma NamedYields(s: string)
    ensures Named(s).Match? && Named(s).date.Some? ==> IsDate(Named(s).date.value)
  {
    var n := Span(s, c => IsLetter(c));
    if n > 0 {
      var tail := s[n..][Span(s[n..], c => IsSeparator(c))..];
      if IsYear(tail) { NamedYieldsDate(tail, s[..n]); }
    } else if |s| >= 4 && IsYear(s[..4]) {
      var rest := s[4..];
      var seps := Span(rest, c => IsSeparator(c));
      NamedYieldsDate(s[..4], rest[seps..][..Span(rest[seps..], c => IsLetter(c))]);
    }
  }

  /** Every date read off a label has a year of four digits and, if any, a month of the year. */
  lemma ParseYieldsDate(raw: string)
    ensures Parse(raw).Some? ==> IsDate(Parse(raw).value)
  {
    IsoYields(Clean(raw));
    NumericYields(Clean(raw));
    NamedYields(Clean(raw));
  }

  /** A lower-case name for a month of the year. */
  predicate IsEntry(p: (string, nat)) {
    p.0 != "" && (forall i :: 0 <= i < |p.0| ==> IsLetter(p.0[i])) && 1 <= p.1 <= 12
  }

  predicate IsCalendar(names: seq<(string, nat)>) {
    forall k :: 0 <= k < |names| ==> IsEntry(names[k])
  }

  lemma MonthNamesAreCalendar()
    ensures IsCalendar(MONTH_NAMES)
  {
  }

  lemma {:induction false} CalendarMonths(names: seq<(string, nat)>, name: string)
    requires IsCalendar(names) && Find(names, name).Some?
    ensures 1 <= Find(names, name).value <= 12
    ensures name != "" && forall i :: 0 <= i < |name| ==> IsLetter(name[i])
  {
    assert IsEntry(names[|names| - 1]);
    if names[|names| - 1].0 != name {
      CalendarMonths(names[..|names| - 1], name);
    }
  }

  /** The answer agrees with the ranks the sections are sorted by. */
  lemma AnswerAgreesWithRanks(start: string, end: string)
    ensures StartsBeforeEnd(start, end).Some? ==>
      StartsBeforeEnd(start, end).value == RankLeq(StartRank(start), EndRank(end))
  {
    ParseYieldsDate(start);
    ParseYieldsDate(end);
  }

  /** An open-ended role ranks above every dated one. */
  lemma OpenEndedRanksHighest(open: string, raw: string)
    requires IsOpenEnded(open) && !IsOpenEnded(raw)
    ensures RankLeq(EndRank(raw), EndRank(open)) && EndRank(raw) != EndRank(open)
  {
    ParseYieldsDate(raw);
  }

  // ----- the canonical form reads back -----

  function DigitChar(n: nat): char
    requires n < 10
  {
    ('0' as int + n) as char
  }

  function TwoDigits(n: nat): string
    requires n < 100
  {
    [DigitChar(n / 10), DigitChar(n % 10)]
  }

  function FourDigits(n: nat): string
    requires n < 10000
  {
    TwoDigits(n / 100) + TwoDigits(n % 100)
  }

  /** CanonicalDate.iso */
  function IsoForm(d: CanonicalDate): string
    requires IsDate(d)
  {
    FourDigits(d.year) + if d.month.Some? then "-" + TwoDigits(d.month.value) else ""
  }

  lemma DigitsRead(n: nat)
    ensures n < 100 ==> IsShort(TwoDigits(n)) && Value(TwoDigits(n)) == n
    ensures n < 10000 ==> IsYear(FourDigits(n)) && Value(FourDigits(n)) == n
  {
    if n < 100 {
      var s := TwoDigits(n);
      assert s[..1][..0] == "";
      assert Value(s[..1]) == n / 10;
    }
    if n < 10000 {
      YearValue(FourDigits(n));
    }
  }

  predicate IsPlain(c: char) {
    IsDigit(c) || c == '-' || c == '/' || c == '.' || IsLetter(c)
  }

  lemma {:induction false} SpanWhole(s: string, inClass: char -> bool)
    requires forall i :: 0 <= i < |s| ==> inClass(s[i])
    ensures Span(s, inClass) == |s|
  {
    if s != [] { SpanWhole(s[1..], inClass); }
  }

  /** One word without capitals is already clean. */
  lemma CleanWord(s: string)
    requires s != "" && forall i :: 0 <= i < |s| ==> IsPlain(s[i])
    ensures Clean(s) == s
  {
    var lowered := seq(|s|, i requires 0 <= i < |s| => Lower(s[i]));
    assert lowered == s;
    var notSpace := c => !IsSpace(c);
    SpanWhole(s, notSpace);
    assert s[0..] == s && s[..|s|] == s;
    assert Words(s) == [s];
  }

  lemma DigitFirstIsDated(s: string)
    requires s != "" && IsDigit(s[0])
    ensures Trimmed(s) !in OpenEndedWords()
  {
    assert Span(s, c => c == '.' || c == ',') == 0;
    assert s[0..] == s;
    TrimmedKeepsFirst(s);
  }

  lemma {:induction false} TrimmedKeepsFirst(s: string)
    requires s != "" && IsDigit(s[0])
    ensures TrimmedEnd(s) != "" && TrimmedEnd(s)[0] == s[0]
  {
    if s[|s| - 1] == '.' || s[|s| - 1] == ',' {
      TrimmedKeepsFirst(s[..|s| - 1]);
    }
  }

  /** The iso form of any date parses to that date. */
  lemma IsoRoundTrip(d: CanonicalDate)
    requires IsDate(d)
    ensures Parse(IsoForm(d)) == Some(d)
  {
    var s := IsoForm(d);
    DigitsRead(d.year);
    assert s[..4] == FourDigits(d.year);
    if d.month.Some? {
      DigitsRead(d.month.value);
      assert s[5..] == TwoDigits(d.month.value);
      SpanWhole(s[5..], c => IsDigit(c));
      assert s[5..][..2] == s[5..];
    }
    CleanWord(s);
    DigitFirstIsDated(s);
  }

  // ----- cleaning is idempotent -----

  predicate IsWord(w: string) {
    w != "" && forall i :: 0 <= i < |w| ==> !IsSpace(w[i]) && Lower(w[i]) == w[i]
  }

  predicate AllWords(words: seq<string>) {
    forall k :: 0 <= k < |words| ==> IsWord(words[k])
  }

  lemma {:induction false} WordsAreWords(s: string)
    requires forall i :: 0 <= i < |s| ==> Lower(s[i]) == s[i]
    ensures AllWords(Words(s))
    decreases |s|
  {
    var blank := Span(s, c => IsSpace(c));
    if blank < |s| {
      var rest := s[blank..];
      var word := Span(rest, c => !IsSpace(c));
      assert !IsSpace(rest[0]);
      WordsAreWords(rest[word..]);
    }
  }

  lemma {:induction false} SpanPrefix(w: string, rest: string, inClass: char -> bool)
    requires forall i :: 0 <= i < |w| ==> inClass(w[i])
    requires rest == "" || !inClass(rest[0])
    ensures Span(w + rest, inClass) == |w|
  {
    if w == "" {
      assert w + rest == rest;
    } else {
      assert (w + rest)[1..] == w[1..] + rest;
      SpanPrefix(w[1..], rest, inClass);
    }
  }

  lemma FirstWord(w: string, tail: string)
    requires IsWord(w) && (tail == "" || IsSpace(tail[0]))
    ensures Words(w + tail) == [w] + Words(tail)
  {
    var s := w + tail;
    assert !IsSpace(s[0]);
    assert Span(s, c => IsSpace(c)) == 0;
    assert s[0..] == s;
    SpanPrefix(w, tail, c => !IsSpace(c));
    assert s[..|w|] == w && s[|w|..] == tail;
  }

  lemma LeadingSpace(s: string)
    requires s != "" && !IsSpace(s[0])
    ensures Words(" " + s) == Words(s)
  {
    var t := " " + s;
    SpanPrefix(" ", s, c => IsSpace(c));
    assert t[1..] == s && s[0..] == s;
    assert Span(s, c => IsSpace(c)) == 0;
  }

  /** Splitting undoes joining. */
  lemma {:induction false} WordsOfJoined(words: seq<string>)
    requires AllWords(words)
    ensures Words(Joined(words)) == words
  {
    if words != [] {
      var tail := if |words| == 1 then "" else " " + Joined(words[1..]);
      assert Joined(words) == words[0] + tail;
      assert Words(tail) == words[1..] by {
        if |words| > 1 {
          WordsOfJoined(words[1..]);
          assert IsWord(words[1]) && Joined(words[1..])[0] == words[1][0];
          LeadingSpace(Joined(words[1..]));
        }
      }
      FirstWord(words[0], tail);
    }
  }

  lemma {:induction false} JoinedIsLower(words: seq<string>)
    requires AllWords(words)
    ensures forall i :: 0 <= i < |Joined(words)| ==> Lower(Joined(words)[i]) == Joined(words)[i]
  {
    if |words| > 1 {
      JoinedIsLower(words[1..]);
    }
  }

  lemma CleanIdempotent(raw: string)
    ensures Clean(Clean(raw)) == Clean(raw)
  {
    var lowered := seq(|raw|, i requires 0 <= i < |raw| => Lower(raw[i]));
    var words, cleaned := Words(lowered), Clean(raw);
    WordsAreWords(lowered);
    JoinedIsLower(words);
    assert seq(|cleaned|, i requires 0 <= i < |cleaned| => Lower(cleaned[i])) == cleaned;
    WordsOfJoined(words);
  }

  /** A label that states a date is not an open-ended one. */
  lemma DatedIsNotOpenEnded(raw: string)
    ensures Parse(raw).Some? ==> !IsOpenEnded(raw)
  {
    CleanIdempotent(raw);
  }

  /** Rewriting any readable label in iso form changes neither its date nor its ranks. */
  lemma IsoIsCanonical(raw: string)
    ensures Parse(raw).Some? ==> IsDate(Parse(raw).value) && SameDate(IsoForm(Parse(raw).value), raw)
  {
    ParseYieldsDate(raw);
    if Parse(raw).Some? {
      IsoRoundTrip(Parse(raw).value);
      DatedIsNotOpenEnded(raw);
      DatedIsNotOpenEnded(IsoForm(Parse(raw).value));
    }
  }

  predicate SameDate(a: string, b: string) {
    Parse(a) == Parse(b) && StartRank(a) == StartRank(b) && EndRank(a) == EndRank(b)
  }

  // ----- a month named and a month numbered are the same month -----

  lemma OpenEndedWordsEndInLetters()
    ensures forall w :: w in OpenEndedWords() ==> w != "" && !IsDigit(w[|w| - 1])
  {
  }

  lemma CleanPair(first: string, second: string)
    requires first != "" && second != ""
    requires forall i :: 0 <= i < |first| ==> IsPlain(first[i])
    requires forall i :: 0 <= i < |second| ==> IsPlain(second[i])
    ensures Clean(first + " " + second) == first + " " + second
  {
    var s := first + " " + second;
    assert seq(|s|, i requires 0 <= i < |s| => Lower(s[i])) == s;
    assert [first, second][1..] == [second];
    assert s == Joined([first, second]);
    WordsOfJoined([first, second]);
  }

  lemma NamedReads(name: string, year: string)
    requires name != "" && forall i :: 0 <= i < |name| ==> IsLetter(name[i])
    requires IsYear(year)
    ensures Named(name + " " + year) == Match(NamedMonth(year, name))
  {
    var s := name + " " + year;
    assert s == name + (" " + year);
    SpanPrefix(name, " " + year, c => IsLetter(c));
    assert s[..|name|] == name && s[|name|..] == " " + year;
    SpanPrefix(" ", year, c => IsSeparator(c));
    assert (" " + year)[1..] == year;
  }

  /** A word and a year are clean, state something, and are no iso date. */
  lemma NamedLabel(name: string, year: string)
    requires name != "" && forall i :: 0 <= i < |name| ==> IsLetter(name[i])
    requires IsYear(year)
    ensures var s := name + " " + year;
      Clean(s) == s && !IsOpenEnded(s) && Iso(s) == NoMatch
  {
    var s := name + " " + year;
    CleanPair(name, year);
    assert s[0] == name[0] && s[|s| - 1] == year[3];
    assert !IsYear(s[..4]);
    assert Trimmed(s) == s by {
      assert Span(s, c => c == '.' || c == ',') == 0;
      assert s[0..] == s;
    }
    OpenEndedWordsEndInLetters();
  }

  /** "september 2015" and "2015-09" are one date, for every month name and every year. */
  lemma NameAndNumberAgree(name: string, month: nat, year: nat)
    requires Find(MONTH_NAMES, name) == Some(month) && year < 10000
    ensures Parse(name + " " + FourDigits(year)) == Some(CanonicalDate(year, Some(month)))
    ensures IsDate(CanonicalDate(year, Some(month)))
    ensures Parse(name + " " + FourDigits(year)) == Parse(IsoForm(CanonicalDate(year, Some(month))))
  {
    MonthNamesAreCalendar();
    CalendarMonths(MONTH_NAMES, name);
    DigitsRead(year);
    NamedReads(name, FourDigits(year));
    NamedLabel(name, FourDigits(year));
    IsoRoundTrip(CanonicalDate(year, Some(month)));
  }
}
