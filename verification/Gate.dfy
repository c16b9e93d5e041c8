/** The deterministic eligibility gate (packages/domain/gate.py). A skip never excludes: the gate fails
    only on a decisive conflict in some dimension. */
module Gate {
  import opened Basics

  datatype Verdict = Pass | Fail | Skip

  datatype Location = Location(country: string, city: string)  // "" for no city

  datatype RemoteMode = Onsite | Hybrid | Remote

  /** min and max UTC offset, each only if it is an integer. */
  datatype Offsets = Offsets(low: Option<int>, high: Option<int>)

  datatype Posting = Posting(
    locations: seq<string>, remoteMode: Option<RemoteMode>, restriction: Option<seq<string>>,
    timezone: Option<Offsets>, salary: string, seniority: Option<string>)

  datatype Company = Company(industry: Option<string>, stage: Option<string>, sizeBand: Option<string>)

  /** The policies the gate reads; an unset list is empty. */
  datatype Policies = Policies(
    floor: string, whitelist: seq<string>, timezone: Option<(int, int)>,
    industriesOut: seq<string>, stagesOut: seq<string>, sizesOut: seq<string>)

  datatype Context = Context(policies: Policies, residence: Option<string>, targets: set<string>)

  /** normalize_location, normalize_seniority, strip-and-lower, the compensation check and the bands. */
  datatype Tables = Tables(
    locate: string -> Option<Location>, band: string -> Option<string>, fold: string -> string,
    compensation: (string, string) -> Verdict, bands: set<string>)

  // ----- locations -----

  /** Everything the user side states must resolve. */
  predicate UserResolves(t: Tables, c: Context) {
    && (forall i :: 0 <= i < |c.policies.whitelist| ==> t.locate(c.policies.whitelist[i]).Some?)
    && (c.residence.Some? ==> t.locate(c.residence.value).Some?)
  }

  predicate Allowed(t: Tables, c: Context, country: string) {
    || (exists i :: 0 <= i < |c.policies.whitelist| && CountryIs(t, c.policies.whitelist[i], country))
    || (c.residence.Some? && CountryIs(t, c.residence.value, country))
  }

  predicate CountryIs(t: Tables, raw: string, country: string) {
    t.locate(raw).Some? && t.locate(raw).value.country == country
  }

  predicate NoneAllowed(c: Context) {
    c.policies.whitelist == [] && c.residence.None?
  }

  predicate AllResolve(t: Tables, raws: seq<string>) {
    forall i :: 0 <= i < |raws| ==> t.locate(raws[i]).Some?
  }

  predicate SomeAllowed(t: Tables, c: Context, raws: seq<string>) {
    exists i :: 0 <= i < |raws| && t.locate(raws[i]).Some? && Allowed(t, c, t.locate(raws[i]).value.country)
  }

  predicate ListedCity(t: Tables, c: Context, country: string, city: string) {
    exists i :: 0 <= i < |c.policies.whitelist| && CountryIs(t, c.policies.whitelist[i], country)
      && t.locate(c.policies.whitelist[i]).value.city == city && city != ""
  }

  predicate HasListedCity(t: Tables, c: Context, country: string) {
    exists i :: 0 <= i < |c.policies.whitelist| && CountryIs(t, c.policies.whitelist[i], country)
      && t.locate(c.policies.whitelist[i]).value.city != ""
  }

  /** In an allowed country, with no city to disagree about. */
  predicate Fits(t: Tables, c: Context, l: Location) {
    Allowed(t, c, l.country) && (l.city == "" || !HasListedCity(t, c, l.country) || ListedCity(t, c, l.country, l.city))
  }

  predicate SomeFits(t: Tables, c: Context, raws: seq<string>) {
    exists i :: 0 <= i < |raws| && t.locate(raws[i]).Some? && Fits(t, c, t.locate(raws[i]).value)
  }

  predicate UserStated(t: Tables, c: Context) {
    UserResolves(t, c) && !NoneAllowed(c)
  }

  /** A decisive conflict: every country the posting allows is outside every country the user does. */
  predicate LocationConflict(t: Tables, p: Posting, c: Context) {
    UserStated(t, c) &&
    if p.remoteMode == Some(Remote) then
      p.restriction.Some? && AllResolve(t, p.restriction.value) && !SomeAllowed(t, c, p.restriction.value)
    else
      p.locations != [] && AllResolve(t, p.locations) && !SomeAllowed(t, c, p.locations)
  }

  predicate LocationMatch(t: Tables, p: Posting, c: Context) {
    UserStated(t, c) &&
    if p.remoteMode == Some(Remote) then
      p.restriction.Some? ==> AllResolve(t, p.restriction.value) && SomeAllowed(t, c, p.restriction.value)
    else
      p.locations != [] && AllResolve(t, p.locations) && SomeFits(t, c, p.locations)
  }

  method NormalizeUserCountries(t: Tables, c: Context) returns (allowed: set<string>, failed: bool)
    ensures failed <==> !UserResolves(t, c)
    ensures forall x :: x in allowed <==> Allowed(t, c, x)
  {
    allowed, failed := {}, false;
    for i := 0 to |c.policies.whitelist|
      invariant failed <==> exists k :: 0 <= k < i && t.locate(c.policies.whitelist[k]).None?
      invariant forall x :: x in allowed <==> exists k :: 0 <= k < i && CountryIs(t, c.policies.whitelist[k], x)
    {
      var l := t.locate(c.policies.whitelist[i]);
      if l.None? {
        failed := true;
      } else {
        allowed := allowed + {l.value.country};
      }
    }
    if c.residence.Some? {
      var l := t.locate(c.residence.value);
      if l.None? {
        failed := true;
      } else {
        allowed := allowed + {l.value.country};
      }
    }
  }

  method UserCitiesIn(t: Tables, c: Context, country: string) returns (cities: set<string>)
    ensures forall x :: x in cities <==> ListedCity(t, c, country, x)
    ensures cities == {} <==> !HasListedCity(t, c, country)
  {
    cities := {};
    for i := 0 to |c.policies.whitelist|
      invariant forall x :: x in cities <==>
        exists k :: 0 <= k < i && CountryIs(t, c.policies.whitelist[k], country)
          && t.locate(c.policies.whitelist[k]).value.city == x && x != ""
    {
      var l := t.locate(c.policies.whitelist[i]);
      if l.Some? && l.value.country == country && l.value.city != "" {
        cities := cities + {l.value.city};
      }
    }
    if HasListedCity(t, c, country) {
      var i :| 0 <= i < |c.policies.whitelist| && CountryIs(t, c.policies.whitelist[i], country)
        && t.locate(c.policies.whitelist[i]).value.city != "";
      assert t.locate(c.policies.whitelist[i]).value.city in cities;
    }
  }

  /** The countries of a list, or nothing when an entry does not resolve. */
  method Countries(t: Tables, raws: seq<string>) returns (found: Option<seq<Location>>)
    ensures found.Some? <==> AllResolve(t, raws)
    ensures found.Some? ==>
      && |found.value| == |raws|
      && forall i :: 0 <= i < |raws| ==> Some(found.value[i]) == t.locate(raws[i])
  {
    var list := [];
    for i := 0 to |raws|
      invariant |list| == i && forall k :: 0 <= k < i ==> Some(list[k]) == t.locate(raws[k])
    {
      var l := t.locate(raws[i]);
      if l.None? {
        return None;
      }
      list := list + [l.value];
    }
    return Some(list);
  }

  method CheckRemote(t: Tables, c: Context, restriction: seq<string>, allowed: set<string>) returns (v: Verdict)
    requires forall x :: x in allowed <==> Allowed(t, c, x)
    ensures v == Pass <==> AllResolve(t, restriction) && SomeAllowed(t, c, restriction)
    ensures v == Fail <==> AllResolve(t, restriction) && !SomeAllowed(t, c, restriction)
  {
    var found := Countries(t, restriction);
    if found.None? {
      return Skip;
    }
    for i := 0 to |found.value|
      invariant forall k :: 0 <= k < i ==> found.value[k].country !in allowed
    {
      if found.value[i].country in allowed {
        assert t.locate(restriction[i]) == Some(found.value[i]);
        return Pass;
      }
    }
    return Fail;
  }

  method CheckBase(t: Tables, c: Context, locations: seq<string>, allowed: set<string>) returns (v: Verdict)
    requires forall x :: x in allowed <==> Allowed(t, c, x)
    ensures v == Pass <==> AllResolve(t, locations) && SomeFits(t, c, locations)
    ensures v == Fail <==> AllResolve(t, locations) && !SomeAllowed(t, c, locations)
  {
    var found := Countries(t, locations);
    if found.None? {
      return Skip;
    }
    var matched := false;
    for i := 0 to |found.value|
      invariant matched <==> exists k :: 0 <= k < i && found.value[k].country in allowed
      invariant forall k :: 0 <= k < i ==> !Fits(t, c, found.value[k])
    {
      var l := found.value[i];
      assert t.locate(locations[i]) == Some(l);
      if l.country in allowed {
        matched := true;
        var cities := UserCitiesIn(t, c, l.country);
        if l.city == "" || cities == {} || l.city in cities {
          return Pass;
        }
      }
    }
    if matched {
      ghost var k :| 0 <= k < |found.value| && found.value[k].country in allowed;
      assert t.locate(locations[k]) == Some(found.value[k]);
      return Skip;
    }
    return Fail;
  }

  /** Fails exactly on a decisive conflict, passes exactly on a match, skips otherwise. */
  method CheckLocation(t: Tables, p: Posting, c: Context) returns (v: Verdict)
    ensures v == Fail <==> LocationConflict(t, p, c)
    ensures v == Pass <==> LocationMatch(t, p, c)
  {
    var allowed, failed := NormalizeUserCountries(t, c);
    if failed {
      return Skip;
    }
    NothingAllowed(t, c, allowed);
    if allowed == {} {
      return Skip;
    }
    if p.remoteMode == Some(Remote) {
      if p.restriction.None? {
        return Pass;
      }
      v := CheckRemote(t, c, p.restriction.value, allowed);
      return;
    }
    if p.locations == [] {
      return Skip;
    }
    v := CheckBase(t, c, p.locations, allowed);
  }

  lemma NothingAllowed(t: Tables, c: Context, allowed: set<string>)
    requires UserResolves(t, c) && forall x :: x in allowed <==> Allowed(t, c, x)
    ensures allowed == {} <==> NoneAllowed(c)
  {
    if c.policies.whitelist != [] {
      assert CountryIs(t, c.policies.whitelist[0], t.locate(c.policies.whitelist[0]).value.country);
      assert t.locate(c.policies.whitelist[0]).value.country in allowed;
    }
    if c.residence.Some? {
      assert t.locate(c.residence.value).value.country in allowed;
    }
  }

  // ----- the other dimensions -----

  /** z lies between a and b. */
  predicate Between(z: int, a: int, b: int) { a <= z <= b }

  /** The offsets a posting asks for, from a to b, and those the user allows, from low to high, meet. A
      requirement stated the wrong way round has to lie within the bounds whole, and so do bounds. */
  ghost predicate OffsetsMeet(a: int, b: int, low: int, high: int) {
    if a <= b && low <= high then exists z: int :: Between(z, a, b) && Between(z, low, high)
    else if low <= high then forall z: int :: Between(z, b, a) ==> Between(z, low, high)
    else if a <= b then forall z: int :: Between(z, high, low) ==> Between(z, a, b)
    else false
  }

  predicate OffsetsStated(p: Posting, c: Context) {
    p.timezone.Some? && c.policies.timezone.Some? && p.timezone.value.low.Some? && p.timezone.value.high.Some?
  }

  ghost predicate TimezoneMatch(p: Posting, c: Context) {
    && OffsetsStated(p, c)
    && OffsetsMeet(p.timezone.value.low.value, p.timezone.value.high.value,
         c.policies.timezone.value.0, c.policies.timezone.value.1)
  }

  ghost predicate TimezoneConflict(p: Posting, c: Context) {
    OffsetsStated(p, c) && !TimezoneMatch(p, c)
  }

  /** Comparing the ends decides whether some offset suits both sides. */
  lemma EndsDecide(a: int, b: int, low: int, high: int)
    ensures OffsetsMeet(a, b, low, high) <==> !(a > high || b < low)
  {
    if a <= b && low <= high {
      if !(a > high || b < low) {
        var z := if a < low then low else a;
        assert Between(z, a, b) && Between(z, low, high);
      }
    } else if low <= high {
      assert Between(a, b, a) && Between(b, b, a);
    } else if a <= b {
      assert Between(low, high, low) && Between(high, high, low);
    }
  }

  function CheckTimezone(p: Posting, c: Context): (v: Verdict)
    ensures v == Fail <==> TimezoneConflict(p, c)
    ensures v == Pass <==> TimezoneMatch(p, c)
  {
    if p.timezone.None? || c.policies.timezone.None? then Skip
    else
      var (low, high) := (p.timezone.value.low, p.timezone.value.high);
      if low.None? || high.None? then Skip
      else
        EndsDecide(low.value, high.value, c.policies.timezone.value.0, c.policies.timezone.value.1);
        if low.value > c.policies.timezone.value.1 || high.value < c.policies.timezone.value.0 then Fail
        else Pass
  }

  /** Some entry excludes this value, read without regard to spelling. */
  predicate Excluded(t: Tables, value: Option<string>, out: seq<string>) {
    value.Some? && exists i :: 0 <= i < |out| && t.fold(out[i]) == t.fold(value.value)
  }

  function Folded(t: Tables, out: seq<string>): set<string> {
    set i | 0 <= i < |out| :: t.fold(out[i])
  }

  function CheckExclusion(t: Tables, value: Option<string>, out: seq<string>): (v: Verdict)
    ensures v == Fail <==> Excluded(t, value, out)
    ensures v == Skip <==> out == [] || value == None
  {
    if out == [] || value.None? then Skip
    else if t.fold(value.value) in Folded(t, out) then Fail
    else Pass
  }

  /** The verdict does not depend on how value and entries are spelt, in what order they are listed or how
      often; and two lists together exclude what either of them excludes. */
  lemma ExclusionUpToFolding(t: Tables, v: string, w: string, out: seq<string>, other: seq<string>)
    ensures t.fold(v) == t.fold(w) && Folded(t, out) == Folded(t, other) ==>
      CheckExclusion(t, Some(v), out) == CheckExclusion(t, Some(w), other)
    ensures CheckExclusion(t, Some(v), out + other) == Fail <==>
      CheckExclusion(t, Some(v), out) == Fail || CheckExclusion(t, Some(v), other) == Fail
  {
    forall x ensures x in Folded(t, out + other) <==> x in Folded(t, out) || x in Folded(t, other) {
      if x in Folded(t, out) {
        var i :| 0 <= i < |out| && t.fold(out[i]) == x;
        assert (out + other)[i] == out[i];
      }
      if x in Folded(t, other) {
        var i :| 0 <= i < |other| && t.fold(other[i]) == x;
        assert (out + other)[|out| + i] == other[i];
      }
    }
    if out != [] {
      assert t.fold(out[0]) in Folded(t, out);
    }
    if other != [] {
      assert t.fold(other[0]) in Folded(t, other);
    }
  }

  function TargetBands(t: Tables, c: Context): set<string> {
    set x | x in c.targets && t.band(x).Some? :: t.band(x).value
  }

  predicate SeniorityConflict(t: Tables, p: Posting, c: Context) {
    && p.seniority.Some? && p.seniority.value in t.bands
    && TargetBands(t, c) != {} && p.seniority.value !in TargetBands(t, c)
  }

  /** The posting's band is the band of some active family's target. */
  predicate SeniorityMatch(t: Tables, p: Posting, c: Context) {
    && p.seniority.Some? && p.seniority.value in t.bands
    && exists x :: x in c.targets && t.band(x) == p.seniority
  }

  function CheckSeniority(t: Tables, p: Posting, c: Context): (v: Verdict)
    ensures v == Fail <==> SeniorityConflict(t, p, c)
    ensures v == Pass <==> SeniorityMatch(t, p, c)
  {
    assert forall x :: x in c.targets && t.band(x).Some? ==> t.band(x).value in TargetBands(t, c);
    if p.seniority.None? || p.seniority.value !in t.bands then Skip
    else if TargetBands(t, c) == {} then Skip
    else if p.seniority.value in TargetBands(t, c) then Pass
    else Fail
  }

  // ----- the gate -----

  /** Some dimension is in decisive conflict; work authorization and language never are. */
  ghost predicate Conflict(t: Tables, p: Posting, c: Context, company: Company) {
    || t.compensation(p.salary, c.policies.floor) == Fail
    || LocationConflict(t, p, c) || TimezoneConflict(p, c)
    || Excluded(t, company.industry, c.policies.industriesOut)
    || Excluded(t, company.stage, c.policies.stagesOut)
    || Excluded(t, company.sizeBand, c.policies.sizesOut)
    || SeniorityConflict(t, p, c)
  }

  method EvaluateGate(t: Tables, p: Posting, c: Context, company: Company) returns (pass: bool,
                      dimensions: seq<Verdict>)
    ensures pass <==> !Conflict(t, p, c, company)
    ensures |dimensions| == 9 && (pass <==> Fail !in dimensions)
    ensures dimensions[0] == t.compensation(p.salary, c.policies.floor)
    ensures dimensions[1] == Fail <==> LocationConflict(t, p, c)
    ensures dimensions[1] == Pass <==> LocationMatch(t, p, c)
    ensures dimensions[2] == CheckTimezone(p, c) && dimensions[6] == CheckSeniority(t, p, c)
    ensures dimensions[3] == CheckExclusion(t, company.industry, c.policies.industriesOut)
    ensures dimensions[4] == CheckExclusion(t, company.stage, c.policies.stagesOut)
    ensures dimensions[5] == CheckExclusion(t, company.sizeBand, c.policies.sizesOut)
    ensures dimensions[7] == Skip && dimensions[8] == Skip
  {
    var location := CheckLocation(t, p, c);
    dimensions := [
      t.compensation(p.salary, c.policies.floor), location, CheckTimezone(p, c),
      CheckExclusion(t, company.industry, c.policies.industriesOut),
      CheckExclusion(t, company.stage, c.policies.stagesOut),
      CheckExclusion(t, company.sizeBand, c.policies.sizesOut),
      CheckSeniority(t, p, c), Skip, Skip];
    pass := Fail !in dimensions;
    assert dimensions[0] in dimensions && dimensions[1] in dimensions && dimensions[2] in dimensions;
    assert dimensions[3] in dimensions && dimensions[4] in dimensions && dimensions[5] in dimensions;
    assert dimensions[6] in dimensions;
  }
}
