/** Text functions for the fallback theorem to stand on: a small lexicon that meets all its assumptions, and
    one whose case folding makes a letter longer, as Unicode does with the dotted capital I
    (packages/domain/grounding_spec.py:152-171; packages/domain/grounding.py:381-394). */
module Lexicons {
  import opened Basics
  import opened CvModel
  import opened Grounding
  import opened Generation

  // ----- splitting into words -----

  function WordLength(t: string): (n: nat)
    ensures n <= |t|
  {
    if t == "" || IsSpace(t[0]) then 0 else 1 + WordLength(t[1..])
  }

  function Split(t: string): seq<string>
    decreases |t|
  {
    if t == "" then []
    else if IsSpace(t[0]) then Split(t[1..])
    else [t[..WordLength(t)]] + Split(t[WordLength(t)..])
  }

  lemma {:induction false} WordStops(a: string, b: string)
    ensures WordLength(a + "\n" + b) == WordLength(a)
  {
    var t := a + "\n" + b;
    if a != "" && !IsSpace(a[0]) {
      assert t[1..] == a[1..] + "\n" + b;
      WordStops(a[1..], b);
    }
  }

  lemma {:induction false} SplitAtBreak(a: string, b: string)
    ensures Split(a + "\n" + b) == Split(a) + Split(b)
    decreases |a|
  {
    var t := a + "\n" + b;
    if a == "" {
      assert t[1..] == b;
    } else if IsSpace(a[0]) {
      assert t[1..] == a[1..] + "\n" + b;
      SplitAtBreak(a[1..], b);
    } else {
      var n := WordLength(a);
      WordStops(a, b);
      assert t[..n] == a[..n] && t[n..] == a[n..] + "\n" + b;
      SplitAtBreak(a[n..], b);
    }
  }

  /** Each word through the same function. */
  function Each(f: string -> string, words: seq<string>): seq<string> {
    seq(|words|, i requires 0 <= i < |words| => f(words[i]))
  }

  // ----- characters -----

  function LowerChar(c: char): char {
    if 'A' <= c <= 'Z' then c - 'A' + 'a' else c
  }

  function LowerText(t: string): string {
    seq(|t|, i requires 0 <= i < |t| => LowerChar(t[i]))
  }

  function Squeezed(t: string): string {
    if t == "" then "" else (if IsSpace(t[0]) then "" else [t[0]]) + Squeezed(t[1..])
  }

  lemma {:induction false} SqueezedEnd(t: string)
    requires t != ""
    ensures Squeezed(t) == Squeezed(t[..|t| - 1]) + if IsSpace(t[|t| - 1]) then "" else [t[|t| - 1]]
  {
    if |t| > 1 {
      SqueezedEnd(t[1..]);
      assert t[1..][..|t| - 2] == t[..|t| - 1][1..];
    } else {
      assert t[1..] == "" && t[..0] == "";
    }
  }

  lemma {:induction false} SqueezedStart(t: string)
    ensures Squeezed(StripStart(t)) == Squeezed(t)
  {
    if t != "" && IsSpace(t[0]) {
      SqueezedStart(t[1..]);
    }
  }

  lemma {:induction false} SqueezedStrip(t: string)
    ensures Squeezed(StripEnd(t)) == Squeezed(t)
  {
    if t != "" && IsSpace(t[|t| - 1]) {
      SqueezedEnd(t);
      SqueezedStrip(t[..|t| - 1]);
    }
  }

  /** A token starts with an ASCII character. */
  predicate Capital(w: string) {
    w != "" && 'A' <= w[0] <= 'Z'
  }

  function AllOf(words: seq<string>): set<string> {
    set i | 0 <= i < |words| :: words[i]
  }

  // ----- a lexicon that meets every assumption -----

  function Plain(): Lexicon {
    Lexicon((t: string) => Squeezed(t), (t: string) => LowerText(t), (t: string) => Split(t),
      (t: string) => Each(LowerText, Split(t)), (w: string) => w, (t: string) => AllOf(Each(LowerText, Split(t))),
      (t: string) => {}, (w: string) => Capital(w))
  }

  /** The assumptions of the fallback theorem can be met. */
  lemma PlainIsLawful()
    ensures Lawful(Plain()) && FoldsAlong(Plain())
  {
    var lex := Plain();
    forall a, b ensures lex.tokenize(a + "\n" + b) == lex.tokenize(a) + lex.tokenize(b) {
      SplitAtBreak(a, b);
    }
    forall t ensures lex.normalizeChars(Strip(t)) == lex.normalizeChars(t) {
      SqueezedStart(t);
      SqueezedStrip(StripStart(t));
    }
  }

  // ----- a letter that grows when folded -----

  const DOTTED := '\U{0130}'  // capital I with a dot above
  const DOT := '\U{0307}'     // the combining dot that folding it leaves behind, and that no token keeps

  function Folded(t: string): string {
    if t == "" then "" else (if t[0] == DOTTED then ['i', DOT] else [LowerChar(t[0])]) + Folded(t[1..])
  }

  function Undotted(t: string): string {
    if t == "" then "" else (if t[0] == DOT then "" else [t[0]]) + Undotted(t[1..])
  }

  function TokenOf(w: string): string { Undotted(Folded(w)) }

  function GrownTokens(t: string): seq<string> { Each(TokenOf, Split(t)) }

  function Growing(): Lexicon {
    Plain().(casefold := Folded, tokenize := GrownTokens)
  }

  lemma {:induction false} NoDotsLeft(t: string)
    ensures DOT !in Undotted(t)
    ensures DOTTED !in t ==> DOTTED !in Undotted(t)
  {
    if t != "" {
      NoDotsLeft(t[1..]);
    }
  }

  lemma {:induction false} FoldedDots(t: string)
    ensures DOTTED !in Folded(t)
    ensures DOTTED in t ==> DOT in Folded(t)
    ensures DOT in Folded(t) ==> DOT in t || DOTTED in t
  {
    if t != "" {
      FoldedDots(t[1..]);
    }
  }

  /** No token carries the dot, and folding a token once more does not bring it back. */
  lemma TokenUndotted(w: string)
    ensures DOT !in TokenOf(w) && DOT !in Folded(TokenOf(w))
  {
    FoldedDots(w);
    NoDotsLeft(Folded(w));
    FoldedDots(TokenOf(w));
  }

  lemma CorpusUndotted(c: string)
    ensures forall x :: x in Growing().FoldedTokens(c) || x in Growing().LemmaSet(c) ==> DOT !in x
  {
    forall i | 0 <= i < |GrownTokens(c)| ensures DOT !in GrownTokens(c)[i] && DOT !in Folded(GrownTokens(c)[i]) {
      TokenUndotted(Split(c)[i]);
    }
  }

  /** Such a lexicon breaks the law of folding, and nothing else. */
  lemma GrowingIsLawful()
    ensures Lawful(Growing()) && !FoldsAlong(Growing())
    ensures forall a, b :: Growing().tokenize(a + "\n" + b) == Growing().tokenize(a) + Growing().tokenize(b)
    ensures forall t :: |Growing().tokenize(t)| == |Growing().tokens(t)|
  {
    PlainIsLawful();
    forall a, b ensures GrownTokens(a + "\n" + b) == GrownTokens(a) + GrownTokens(b) {
      SplitAtBreak(a, b);
    }
    var w := [DOTTED];
    assert w[1..] == "" && WordLength(w) == 1 && w[..1] == w;
    assert Split(w) == [w] + Split("") == [w];
    assert Growing().tokens(w)[0] == w && GrownTokens(w)[0] == TokenOf(w);
    FoldedDots(w);
    TokenUndotted(w);
    assert Growing().casefold(Growing().tokens(w)[0]) != Growing().tokenize(w)[0];
  }

  lemma GrownNameUnknown(g: Ground, text: string, i: nat)
    requires g.lex == Growing() && i < |Split(text)| && Capital(Split(text)[i]) && DOTTED in Split(text)[i]
    ensures !EntitiesGrounded(g, text)
  {
    FoldedDots(Split(text)[i]);
    CorpusUndotted(Corpus(g));
    assert !EntityAllowed(g, g.lex.tokens(text)[i]);
  }

  /** The verifier then rejects the verbatim quotation of any fact with a capitalized word that has the letter
      in it, whatever else the context holds. */
  lemma GrowingRejects(g: Ground, order: seq<string>, at: string, id: string, i: nat)
    requires g.lex == Growing() && IsGround(g) && Visits(order, g.view.facts) && DistinctRows(g.ctx.experiences)
    requires id in g.view.facts && Reached(g, g.view.facts[id])
    requires i < |Split(g.view.facts[id].statement)|
    requires Capital(Split(g.view.facts[id].statement)[i]) && DOTTED in Split(g.view.facts[id].statement)[i]
    ensures !Grounded(g, Verbatim(g.ctx, order, at))
  {
    GrownNameUnknown(g, g.view.facts[id].statement, i);
    UnknownNameFails(g, order, at, id);
  }
}
