/** The location check by the places themselves: what the user allows, and what a posting states
    (packages/domain/gate.py:101-207). */
module GateRules {
  import opened Basics
  import opened Gate

  /** The whitelist has this place. */
  predicate Lists(t: Tables, c: Context, l: Location) {
    exists raw :: raw in c.policies.whitelist && t.locate(raw) == Some(l)
  }

  /** The user lives there or would move there. */
  ghost predicate Home(t: Tables, c: Context, country: string) {
    || (exists city :: Lists(t, c, Location(country, city)))
    || (c.residence.Some? && t.locate(c.residence.value).Some? && t.locate(c.residence.value).value.country == country)
  }

  /** Something is stated on the user's side, and all of it is known. */
  predicate UserKnown(t: Tables, c: Context) {
    && (c.policies.whitelist != [] || c.residence.Some?)
    && (forall raw :: raw in c.policies.whitelist ==> t.locate(raw) != None)
    && (c.residence.Some? ==> t.locate(c.residence.value) != None)
  }

  /** Where the job is bound to, if it says so: a remote one by its restriction alone. */
  function Places(p: Posting): Option<seq<string>> {
    if p.remoteMode == Some(Remote) then p.restriction
    else if p.locations == [] then None else Some(p.locations)
  }

  predicate PlacesKnown(t: Tables, p: Posting) {
    Places(p).Some? && forall raw :: raw in Places(p).value ==> t.locate(raw) != None
  }

  /** The job could be done from this place: the country is allowed and, unless the job is remote, there is no city to
      disagree about, or the very place is listed. */
  ghost predicate Suits(t: Tables, p: Posting, c: Context, l: Location) {
    && Home(t, c, l.country)
    && (p.remoteMode == Some(Remote) || l.city == "" || Lists(t, c, l)
        || forall city :: Lists(t, c, Location(l.country, city)) ==> city == "")
  }

  lemma AllowedIsHome(t: Tables, c: Context, country: string)
    ensures Allowed(t, c, country) <==> Home(t, c, country)
  {
    if i :| 0 <= i < |c.policies.whitelist| && CountryIs(t, c.policies.whitelist[i], country) {
      var l := t.locate(c.policies.whitelist[i]).value;
      assert l == Location(country, l.city) && Lists(t, c, Location(country, l.city));
    }
    if city :| Lists(t, c, Location(country, city)) {
      var raw :| raw in c.policies.whitelist && t.locate(raw) == Some(Location(country, city));
      assert CountryIs(t, raw, country);
    }
  }

  lemma FitsIsSuits(t: Tables, p: Posting, c: Context, l: Location)
    requires p.remoteMode != Some(Remote)
    ensures Fits(t, c, l) <==> Suits(t, p, c, l)
  {
    AllowedIsHome(t, c, l.country);
    if l.city != "" {
      CitiesAre(t, c, l);
    }
  }

  lemma CitiesAre(t: Tables, c: Context, l: Location)
    requires l.city != ""
    ensures ListedCity(t, c, l.country, l.city) <==> Lists(t, c, l)
    ensures HasListedCity(t, c, l.country) <==> exists city :: Lists(t, c, Location(l.country, city)) && city != ""
  {
    if raw :| raw in c.policies.whitelist && t.locate(raw) == Some(l) {
      assert CountryIs(t, raw, l.country);
    }
    if city :| Lists(t, c, Location(l.country, city)) && city != "" {
      var raw :| raw in c.policies.whitelist && t.locate(raw) == Some(Location(l.country, city));
      assert CountryIs(t, raw, l.country);
    }
    if HasListedCity(t, c, l.country) {
      var i :| 0 <= i < |c.policies.whitelist| && CountryIs(t, c.policies.whitelist[i], l.country)
        && t.locate(c.policies.whitelist[i]).value.city != "";
      assert Lists(t, c, Location(l.country, t.locate(c.policies.whitelist[i]).value.city));
    }
  }

  /** A conflict: everything is known, and no place the job is bound to is in an allowed country. */
  lemma ConflictMeans(t: Tables, p: Posting, c: Context)
    ensures LocationConflict(t, p, c) <==>
      && UserKnown(t, c) && PlacesKnown(t, p)
      && forall raw :: raw in Places(p).value ==> !Home(t, c, t.locate(raw).value.country)
  {
    UserKnownIs(t, c);
    if Places(p).Some? {
      forall raw | raw in Places(p).value && t.locate(raw).Some?
        ensures Allowed(t, c, t.locate(raw).value.country) <==> Home(t, c, t.locate(raw).value.country)
      {
        AllowedIsHome(t, c, t.locate(raw).value.country);
      }
    }
  }

  lemma UserKnownIs(t: Tables, c: Context)
    ensures UserStated(t, c) <==> UserKnown(t, c)
  {
    if UserStated(t, c) {
      forall raw | raw in c.policies.whitelist ensures t.locate(raw) != None {
        var i :| 0 <= i < |c.policies.whitelist| && c.policies.whitelist[i] == raw;
      }
    }
  }

  /** A match: everything is known, and the job may be done from anywhere or suits from some place it names. */
  lemma MatchMeans(t: Tables, p: Posting, c: Context)
    ensures LocationMatch(t, p, c) <==>
      && UserKnown(t, c)
      && ((p.remoteMode == Some(Remote) && p.restriction == None)
          || (PlacesKnown(t, p) && exists raw :: raw in Places(p).value && Suits(t, p, c, t.locate(raw).value)))
  {
    UserKnownIs(t, c);
    if Places(p).Some? {
      forall raw | raw in Places(p).value && t.locate(raw).Some?
        ensures Allowed(t, c, t.locate(raw).value.country) <==> Home(t, c, t.locate(raw).value.country)
        ensures p.remoteMode != Some(Remote) ==>
          (Fits(t, c, t.locate(raw).value) <==> Suits(t, p, c, t.locate(raw).value))
      {
        AllowedIsHome(t, c, t.locate(raw).value.country);
        if p.remoteMode != Some(Remote) {
          FitsIsSuits(t, p, c, t.locate(raw).value);
        }
      }
    }
  }
}
