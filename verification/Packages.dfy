/** The package lifecycle: statuses, the audit bundle, and where a version's objects are stored
    (packages/domain/packages.py). */
module Packages {
  import opened Basics

  datatype Status = Generating | Verified | Failed | Approved

  /** The fields of a version row a caller may name; Unlisted stands for any other keyword. */
  datatype Field =
    | ContentModel | ContextLocator | ContextHash | VerifierReport | AtsReport
    | ArtifactLocator | ArtifactHash | FailureReport | Unlisted(name: string)

  const VERIFIED_REQUIRED_FIELDS: set<Field> :=
    {ContentModel, ContextLocator, ContextHash, VerifierReport, AtsReport, ArtifactLocator, ArtifactHash}

  predicate IsValidTransition(current: Status, target: Status) {
    match current
    case Generating => target in {Verified, Failed}
    case Verified => target == Approved
    case Failed => false
    case Approved => false
  }

  /** Every required field is there and none is empty. */
  predicate IsComplete(fields: map<Field, string>) {
    forall f :: f in VERIFIED_REQUIRED_FIELDS ==> f in fields && fields[f] != ""
  }

  // ----- object locators -----

  function Decimal(n: nat): string {
    if n < 10 then [Digit(n)] else Decimal(n / 10) + [Digit(n % 10)]
  }

  function Digit(n: nat): char
    requires n < 10
  {
    "0123456789"[n]
  }

  function ObjectLocator(package: string, version: nat, generation: nat, name: string): string {
    "packages/" + (package + ("/" + ("v" + Decimal(version) + ("/" + ("g" + Decimal(generation) + ("/" + name))))))
  }

  lemma {:induction false} DecimalHasNoSlash(n: nat)
    ensures '/' !in Decimal(n)
  {
    if n >= 10 {
      DecimalHasNoSlash(n / 10);
    }
  }

  lemma {:induction false} DecimalInjective(m: nat, n: nat)
    requires Decimal(m) == Decimal(n)
    ensures m == n
  {
    var d, e := Decimal(m), Decimal(n);
    assert d[|d| - 1] == Digit(m % 10) && e[|e| - 1] == Digit(n % 10);
    DecimalNonempty(m / 10);
    DecimalNonempty(n / 10);
    if m >= 10 && n >= 10 {
      assert d[..|d| - 1] == Decimal(m / 10) && e[..|e| - 1] == Decimal(n / 10);
      DecimalInjective(m / 10, n / 10);
    }
  }

  lemma DecimalNonempty(n: nat)
    ensures |Decimal(n)| > 0
  {
  }

  /** A text with no slash is determined by what follows it. */
  lemma {:induction false} SplitAtSlash(a: string, x: string, b: string, y: string)
    requires '/' !in a && '/' !in b
    requires a + ("/" + x) == b + ("/" + y)
    ensures a == b && x == y
  {
    var s, t := a + ("/" + x), b + ("/" + y);
    assert s[|a|] == '/' && t[|b|] == '/';
    assert forall i :: 0 <= i < |a| ==> s[i] == a[i];
    assert forall i :: 0 <= i < |b| ==> t[i] == b[i];
    assert a == s[..|a|] && b == t[..|b|];
    assert "/" + x == s[|a|..] && "/" + y == t[|b|..];
    assert x == ("/" + x)[1..] && y == ("/" + y)[1..];
  }

  /** A locator says on sight which package, version and lease generation wrote the object. */
  lemma LocatorAttributes(p: string, v: nat, g: nat, name: string, p': string, v': nat, g': nat, name': string)
    requires '/' !in p && '/' !in p'
    requires ObjectLocator(p, v, g, name) == ObjectLocator(p', v', g', name')
    ensures p == p' && v == v' && g == g' && name == name'
  {
    var third, third' := "g" + Decimal(g) + ("/" + name), "g" + Decimal(g') + ("/" + name');
    var second, second' := "v" + Decimal(v) + ("/" + third), "v" + Decimal(v') + ("/" + third');
    var first, first' := p + ("/" + second), p' + ("/" + second');
    assert first == ObjectLocator(p, v, g, name)[9..] && first' == ObjectLocator(p', v', g', name')[9..];
    SplitAtSlash(p, second, p', second');
    DecimalHasNoSlash(v); DecimalHasNoSlash(v');
    SplitAtSlash("v" + Decimal(v), third, "v" + Decimal(v'), third');
    assert Decimal(v) == ("v" + Decimal(v))[1..] && Decimal(v') == ("v" + Decimal(v'))[1..];
    DecimalInjective(v, v');
    DecimalHasNoSlash(g); DecimalHasNoSlash(g');
    SplitAtSlash("g" + Decimal(g), name, "g" + Decimal(g'), name');
    assert Decimal(g) == ("g" + Decimal(g))[1..] && Decimal(g') == ("g" + Decimal(g'))[1..];
    DecimalInjective(g, g');
  }
}
