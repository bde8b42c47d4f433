/**
 When a verdict cuts, when it clashes with a phrase of the job, and what it pays:
 said of the verdict and the profile alone.
 */
module FactConditions {
  import opened Prelude
  import opened Text
  import opened TextLists
  import opened FactSignals
  import Scoring

  /** `x` is a text of the list, trimmed and not empty. */
  ghost predicate Names(xs: seq<string>, x: string) {
    x != "" && exists s :: s in xs && Trim(s) == x
  }

  /** How many texts of the list are not blank. */
  function Count(xs: seq<string>): nat {
    if xs == [] then 0 else Count(xs[1..]) + (if Trim(xs[0]) == "" then 0 else 1)
  }

  predicate Known(l: Letters, v: string) {
    Trim(v) != "" && l.fold(Trim(v)) != l.fold("unknown")
  }

  ghost predicate Allows(l: Letters, xs: seq<string>, code: string) {
    exists x :: Names(xs, x) && l.fold(x) == l.fold(code)
  }

  predicate Continent(l: Letters, region: string) {
    l.upper(region) == "EUROPE" || l.upper(region) == "EMEA" || l.upper(region) == "WORLDWIDE"
  }

  ghost predicate SomeContinent(l: Letters, regions: seq<string>) {
    exists x :: Names(regions, x) && Continent(l, x)
  }

  ghost predicate SomeEuropean(l: Letters, countries: seq<string>) {
    exists x :: Names(countries, x) && l.europe(x)
  }

  /** The scope takes the home in: a home of anywhere always, one of Europe or EMEA with a European country or a broad region. */
  ghost predicate TakesHome(l: Letters, home: string, countries: seq<string>, regions: seq<string>) {
    if l.upper(home) == "WORLDWIDE" then true
    else if Continent(l, home) then SomeEuropean(l, countries) || SomeContinent(l, regions)
    else exists s :: (s in countries || s in regions) && l.fold(s) == l.fold(home)
  }

  ghost predicate TakesIn(l: Letters, residence: seq<string>, countries: seq<string>, regions: seq<string>) {
    exists home :: Names(residence, home) && TakesHome(l, home, countries, regions)
  }

  /** Remote work for which Europe is enough. */
  ghost predicate RemoteFromEurope(l: Letters, f: Facts) {
    && Trim(f.workMode.value) == "remote" && Known(l, f.scope.value)
    && (f.scope.value == "worldwide"
        || (f.scope.value == "restricted" && TakesIn(l, ["EUROPE"], f.scope.countries, f.scope.regions)))
  }

  ghost predicate OfficeCode(f: Facts, code: string) {
    Names(f.office.countries, code) || Names(f.office.regions, code)
  }

  ghost predicate OfficeAllows(l: Letters, r: Rules, code: string) {
    Allows(l, r.office.allowCountries, code) || Allows(l, r.office.allowRegions, code)
  }

  ghost predicate OfficeCutsIt(l: Letters, r: Rules, f: Facts) {
    && r.office.scored && !f.office.unknown && !RemoteFromEurope(l, f)
    && exists code :: OfficeCode(f, code) && !OfficeAllows(l, r, code)
  }

  ghost predicate ScopeCutsIt(l: Letters, r: Rules, f: Facts) {
    && r.scope.scored && Known(l, f.scope.value) && f.scope.value == "restricted"
    && !TakesIn(l, r.residenceRegions, f.scope.countries, f.scope.regions)
  }

  ghost predicate GatedBy(l: Letters, gates: seq<string>, value: string) {
    exists g :: g in gates && l.fold(Trim(g)) == l.fold(Trim(value))
  }

  ghost predicate AuthCutsIt(l: Letters, r: Rules, f: Facts) {
    && r.auth.scored && Known(l, f.auth.value) && GatedBy(l, r.auth.gates, f.auth.value)
    && (exists c :: Names(f.auth.countries, c))
    && forall c :: Names(f.auth.countries, c) ==> !Allows(l, r.residenceCountries, c) && !Allows(l, r.residenceRegions, c)
  }

  predicate OpenZone(l: Letters, value: string) {
    l.fold(Trim(value)) == l.fold("open") || Trim(value) == "worldwide"
  }

  ghost predicate SomeZoneAllowed(l: Letters, r: Rules, f: Facts) {
    exists z :: Names(f.timezone.zones, z) && Allows(l, r.timezone.allow, z)
  }

  ghost predicate ZoneCutsIt(l: Letters, r: Rules, f: Facts) {
    && r.timezone.scored && Known(l, f.timezone.value) && f.timezone.value == "restricted"
    && !OpenZone(l, f.timezone.value) && !SomeZoneAllowed(l, r, f)
  }

  ghost predicate PayCutsIt(l: Letters, r: Rules, f: Facts) {
    r.pay.scored && !f.pay.unknown && Trim(f.pay.currency) != "" && !Allows(l, r.pay.allow, Trim(f.pay.currency))
  }

  ghost predicate ModeCutsIt(l: Letters, r: Rules, f: Facts) {
    r.workMode.scored && Known(l, f.workMode.value) && GatedBy(l, r.workMode.gates, f.workMode.value)
  }

  predicate HasRule(ss: seq<Signal>, code: Code, rule: string) {
    exists i :: 0 <= i < |ss| && ss[i].code == code && ss[i].rule == rule
  }

  // From the lists of the code to the texts they are made of.

  lemma CleanNames(xs: seq<string>)
    ensures forall x :: x in Clean(xs) <==> Names(xs, x)
  {
    forall x ensures x in Clean(xs) <==> Names(xs, x) {
      CleanMember(xs, x);
    }
  }

  lemma {:induction false} CleanCount(xs: seq<string>)
    ensures |Clean(xs)| == Count(xs)
    decreases |xs|
  {
    hide Trim;
    if xs == [] {
    } else {
      CleanCount(xs[1..]);
      assert [xs[0]] + xs[1..] == xs;
      CleanConcat([xs[0]], xs[1..]);
      assert [xs[0]][..0] == [];
    }
  }

  lemma AllowsIs(l: Letters, xs: seq<string>, code: string)
    ensures ContainsFold(l, Clean(xs), code) <==> Allows(l, xs, code)
  {
    CleanNames(xs);
    hide Clean, Names;
    if x :| Names(xs, x) && l.fold(x) == l.fold(code) {
      assert x in Clean(xs);
    }
  }

  lemma KnownIs(l: Letters, v: string)
    ensures Unknown(l, v) <==> !Known(l, v)
  {
  }

  lemma BroadIs(l: Letters, regions: seq<string>, countries: seq<string>)
    ensures forall x :: BroadRegion(l, x) <==> Continent(l, x)
    ensures HasBroadRegion(l, regions) <==> SomeContinent(l, regions)
    ensures HasEuropean(l, countries) <==> SomeEuropean(l, countries)
  {
    CleanNames(regions);
    CleanNames(countries);
    hide Clean, Names;
    if x :| Names(regions, x) && Continent(l, x) {
      assert x in Clean(regions);
    }
    if x :| Names(countries, x) && l.europe(x) {
      assert x in Clean(countries);
    }
  }

  lemma MeetsIs(l: Letters, home: string, countries: seq<string>, regions: seq<string>)
    ensures Meets(l, home, countries, regions) <==> TakesHome(l, home, countries, regions)
  {
    BroadIs(l, regions, countries);
    hide HasBroadRegion, SomeContinent, HasEuropean, SomeEuropean;
  }

  lemma TakesInIs(l: Letters, residence: seq<string>, countries: seq<string>, regions: seq<string>)
    ensures Intersects(l, residence, countries, regions) <==> TakesIn(l, residence, countries, regions)
  {
    CleanNames(residence);
    hide Clean, Names, Meets, TakesHome;
    forall home ensures Meets(l, home, countries, regions) <==> TakesHome(l, home, countries, regions) {
      MeetsIs(l, home, countries, regions);
    }
    if home :| Names(residence, home) && TakesHome(l, home, countries, regions) {
      assert home in Clean(residence);
    }
  }

  lemma RemoteIs(l: Letters, f: Facts)
    ensures OfficeCutSuppressed(l, f.workMode, f.scope) <==> RemoteFromEurope(l, f)
  {
    KnownIs(l, f.scope.value);
    TakesInIs(l, ["EUROPE"], f.scope.countries, f.scope.regions);
    hide Intersects, TakesIn, Unknown, Known;
  }

  lemma GatedIs(l: Letters, gates: seq<string>, value: string)
    ensures Gated(l, gates, Trim(value)) <==> GatedBy(l, gates, value)
  {
    hide Trim;
  }

  lemma MissesIs(l: Letters, code: string, countries: seq<string>, regions: seq<string>)
    ensures MissesAllowLists(l, code, Clean(countries), Clean(regions)) <==> !Allows(l, countries, code) && !Allows(l, regions, code)
  {
    AllowsIs(l, countries, code);
    AllowsIs(l, regions, code);
    hide Clean, Allows, ContainsFold;
  }

  lemma OfficeCodesAre(f: Facts)
    ensures forall x :: x in OfficeCodes(f.office) <==> OfficeCode(f, x)
  {
    CleanNames(f.office.countries);
    CleanNames(f.office.regions);
    hide Clean, Names;
  }

  lemma OfficeFires(l: Letters, r: Rules, f: Facts)
    ensures CutFires(l, r, f, OfficeFact) <==> OfficeCutsIt(l, r, f)
  {
    RemoteIs(l, f);
    OfficeCodesAre(f);
    hide OfficeCodes, OfficeCode, OfficeMissing, OfficeAllows, OfficeCutSuppressed, RemoteFromEurope;
    forall code ensures OfficeMissing(l, r.office, code) <==> !OfficeAllows(l, r, code) {
      OfficeMissIs(l, r, code);
    }
    if code :| OfficeCode(f, code) && !OfficeAllows(l, r, code) {
      assert code in OfficeCodes(f.office);
    }
  }

  lemma OfficeMissIs(l: Letters, r: Rules, code: string)
    ensures OfficeMissing(l, r.office, code) <==> !OfficeAllows(l, r, code)
  {
    MissesIs(l, code, r.office.allowCountries, r.office.allowRegions);
    hide MissesAllowLists, Allows, Clean;
  }

  lemma AuthFires(l: Letters, r: Rules, f: Facts)
    ensures CutFires(l, r, f, AuthFact) <==> AuthCutsIt(l, r, f)
  {
    KnownIs(l, f.auth.value);
    GatedIs(l, r.auth.gates, f.auth.value);
    CleanNames(f.auth.countries);
    hide Clean, Names, Known, Unknown, Gated, GatedBy, MissesAllowLists, Allows;
    forall c ensures MissesAllowLists(l, c, Clean(r.residenceCountries), Clean(r.residenceRegions))
      <==> !Allows(l, r.residenceCountries, c) && !Allows(l, r.residenceRegions, c)
    {
      MissesIs(l, c, r.residenceCountries, r.residenceRegions);
    }
    var codes := Clean(f.auth.countries);
    if codes != [] {
      assert Names(f.auth.countries, codes[0]);
    }
    if CutFires(l, r, f, AuthFact) {
      forall c | Names(f.auth.countries, c) ensures !Allows(l, r.residenceCountries, c) && !Allows(l, r.residenceRegions, c) {
        var i :| 0 <= i < |codes| && codes[i] == c;
      }
    }
  }

  lemma ZoneFires(l: Letters, r: Rules, f: Facts)
    ensures CutFires(l, r, f, TimezoneFact) <==> ZoneCutsIt(l, r, f)
    ensures ZoneAllowed(l, r.timezone, f.timezone) <==> SomeZoneAllowed(l, r, f)
  {
    KnownIs(l, f.timezone.value);
    CleanNames(f.timezone.zones);
    hide Clean, Names, Known, Unknown, Trim, ContainsFold, Allows;
    forall z ensures ContainsFold(l, Clean(r.timezone.allow), z) <==> Allows(l, r.timezone.allow, z) {
      AllowsIs(l, r.timezone.allow, z);
    }
    if z :| Names(f.timezone.zones, z) && Allows(l, r.timezone.allow, z) {
      assert z in Clean(f.timezone.zones);
    }
  }

  /** The conditions of the code are these. */
  lemma FiresAre(l: Letters, r: Rules, f: Facts)
    ensures CutFires(l, r, f, OfficeFact) <==> OfficeCutsIt(l, r, f)
    ensures CutFires(l, r, f, ScopeFact) <==> ScopeCutsIt(l, r, f)
    ensures CutFires(l, r, f, AuthFact) <==> AuthCutsIt(l, r, f)
    ensures CutFires(l, r, f, TimezoneFact) <==> ZoneCutsIt(l, r, f)
    ensures CutFires(l, r, f, PayFact) <==> PayCutsIt(l, r, f)
    ensures CutFires(l, r, f, ModeFact) <==> ModeCutsIt(l, r, f)
    ensures !CutFires(l, r, f, LoadFact) && !CutFires(l, r, f, EngagementFact)
  {
    OfficeFires(l, r, f);
    AuthFires(l, r, f);
    ZoneFires(l, r, f);
    hide OfficeCutsIt, AuthCutsIt, ZoneCutsIt, OfficeMissing, OfficeCutSuppressed, AuthCutFires, TimezoneCutFires;
    hide Intersects, TakesIn, Unknown, Known, Gated, GatedBy, ContainsFold, Allows, Clean, Trim;
    KnownIs(l, f.scope.value);
    KnownIs(l, f.workMode.value);
    TakesInIs(l, r.residenceRegions, f.scope.countries, f.scope.regions);
    GatedIs(l, r.workMode.gates, f.workMode.value);
    AllowsIs(l, r.pay.allow, Trim(f.pay.currency));
  }

  lemma RuleOf(ss: seq<Signal>, x: Field)
    requires AllFacts(ss)
    ensures HasCut(ss, x) <==> HasRule(ss, GateHard, "facts." + Name(x))
    ensures HasConflict(ss, x) <==> HasRule(ss, Conflict, Name(x))
  {
    hide Name;
    forall i | 0 <= i < |ss|
      ensures ss[i].code == GateHard || ss[i].code == Conflict ==> ss[i].delta == 0
    {
      FactDeltas(ss[i]);
    }
  }

  lemma FactDeltas(s: Signal)
    requires IsFact(s)
    ensures s.code == GateHard || s.code == Conflict ==> s.delta == 0
  {
  }

  lemma RuleNames()
    ensures "facts." + Name(OfficeFact) == "facts.office" && "facts." + Name(ScopeFact) == "facts.hiring_scope"
    ensures "facts." + Name(AuthFact) == "facts.work_authorization" && "facts." + Name(TimezoneFact) == "facts.timezone"
    ensures "facts." + Name(PayFact) == "facts.compensation" && "facts." + Name(ModeFact) == "facts.work_mode"
  {
  }

  /** The cuts of a verdict: which fields cut, and when. No other field does. */
  lemma CutsAre(l: Letters, fired: string -> bool, r: Rules, f: Facts)
    ensures var ss := FactSignalsOf(l, fired, r, f);
      && (HasRule(ss, GateHard, "facts.office") <==> OfficeCutsIt(l, r, f))
      && (HasRule(ss, GateHard, "facts.hiring_scope") <==> ScopeCutsIt(l, r, f))
      && (HasRule(ss, GateHard, "facts.work_authorization") <==> AuthCutsIt(l, r, f))
      && (HasRule(ss, GateHard, "facts.timezone") <==> ZoneCutsIt(l, r, f))
      && (HasRule(ss, GateHard, "facts.compensation") <==> PayCutsIt(l, r, f))
      && (HasRule(ss, GateHard, "facts.work_mode") <==> ModeCutsIt(l, r, f))
      && !HasRule(ss, GateHard, "facts.employment_load") && !HasRule(ss, GateHard, "facts.engagement")
  {
    hide FactSignalsOf, CutFires, HasCut, HasConflict, AllFacts, HasRule, OfficeCutsIt, ScopeCutsIt, AuthCutsIt, ZoneCutsIt;
    hide PayCutsIt, ModeCutsIt, Name, Clashes;
    var ss := FactSignalsOf(l, fired, r, f);
    FiresAre(l, r, f);
    RuleNames();
    LoadNames();
    forall x: Field ensures HasRule(ss, GateHard, "facts." + Name(x)) <==> CutFires(l, r, f, x) {
      FactsByField(l, fired, r, f, x);
      RuleOf(ss, x);
    }
  }

  lemma LoadNames()
    ensures "facts." + Name(LoadFact) == "facts.employment_load" && "facts." + Name(EngagementFact) == "facts.engagement"
  {
  }

  // Where the verdict allows what a phrase of the job seems to forbid.

  /** The first text that is not blank, trimmed; empty if there is none. */
  function HeadOf(xs: seq<string>): string {
    if xs == [] then "" else if Trim(xs[0]) != "" then Trim(xs[0]) else HeadOf(xs[1..])
  }

  function HeadOfBoth(countries: seq<string>, regions: seq<string>): string {
    if HeadOf(countries) != "" then HeadOf(countries) else HeadOf(regions)
  }

  ghost predicate NoAllowList(r: Rules) {
    (forall x :: !Names(r.office.allowCountries, x)) && (forall x :: !Names(r.office.allowRegions, x))
  }

  ghost predicate OfficeFits(l: Letters, r: Rules, f: Facts) {
    && !f.office.unknown && Known(l, HeadOfBoth(f.office.countries, f.office.regions))
    && (NoAllowList(r) || forall code :: OfficeCode(f, code) ==> OfficeAllows(l, r, code))
  }

  ghost predicate ScopeFits(l: Letters, r: Rules, f: Facts) {
    var head := HeadOfBoth(f.scope.countries, f.scope.regions);
    && Known(l, f.scope.value)
    && (f.scope.value == "worldwide"
        || (f.scope.value == "restricted" && TakesIn(l, r.residenceRegions, f.scope.countries, f.scope.regions)
            && (head != "" ==> Known(l, head))))
  }

  ghost predicate ZoneFits(l: Letters, r: Rules, f: Facts) {
    && Known(l, f.timezone.value)
    && (OpenZone(l, f.timezone.value)
        || (f.timezone.value == "restricted" && SomeZoneAllowed(l, r, f) && Known(l, HeadOf(f.timezone.zones))))
  }

  lemma {:induction false} HeadIs(xs: seq<string>)
    ensures HeadOf(xs) == if Clean(xs) == [] then "" else Clean(xs)[0]
    decreases |xs|
  {
    hide Trim;
    if xs == [] {
    } else {
      HeadIs(xs[1..]);
      assert [xs[0]] + xs[1..] == xs;
      CleanConcat([xs[0]], xs[1..]);
      assert [xs[0]][..0] == [];
      CleanIsClean(xs[1..]);
    }
  }

  lemma OfficeClash(l: Letters, r: Rules, f: Facts)
    ensures Allowed(l, r, f, OfficeFact) && !Unknown(l, Primary(l, f, OfficeFact)) <==> OfficeFits(l, r, f)
  {
    HeadIs(f.office.countries);
    HeadIs(f.office.regions);
    OfficeCodesAre(f);
    CleanNames(r.office.allowCountries);
    CleanNames(r.office.allowRegions);
    CleanIsClean(f.office.countries);
    CleanIsClean(f.office.regions);
    KnownIs(l, OfficePrimary(f.office));
    NamesNone(r.office.allowCountries);
    NamesNone(r.office.allowRegions);
    hide Clean, Names, HeadOf, OfficeCode, OfficeAllows, MissesAllowLists, Known, Unknown, Trim;
    forall code ensures MissesAllowLists(l, code, Clean(r.office.allowCountries), Clean(r.office.allowRegions))
      <==> !OfficeAllows(l, r, code)
    {
      OfficeMissIs(l, r, code);
    }
    BlankUnknown(l);
    assert forall code :: code in OfficeCodes(f.office) <==> OfficeCode(f, code);
  }

  lemma NamesNone(xs: seq<string>)
    ensures Clean(xs) == [] <==> forall x :: !Names(xs, x)
  {
    CleanNames(xs);
    hide Clean, Names;
    if Clean(xs) != [] {
      assert Clean(xs)[0] in Clean(xs);
    }
  }

  lemma BlankUnknown(l: Letters)
    ensures !Known(l, "")
  {
  }

  lemma ScopeClash(l: Letters, r: Rules, f: Facts)
    ensures Allowed(l, r, f, ScopeFact) && !Unknown(l, Primary(l, f, ScopeFact)) <==> ScopeFits(l, r, f)
  {
    HeadIs(f.scope.countries);
    HeadIs(f.scope.regions);
    CleanIsClean(f.scope.countries);
    CleanIsClean(f.scope.regions);
    KnownIs(l, f.scope.value);
    KnownIs(l, ScopePrimary(f.scope));
    TakesInIs(l, r.residenceRegions, f.scope.countries, f.scope.regions);
    TrimIsTrimmed(f.scope.value);
    KnownTrims(l, f.scope.value);
    hide Clean, HeadOf, Known, Unknown, Trim, Intersects, TakesIn;
  }

  lemma KnownTrims(l: Letters, v: string)
    ensures Known(l, Trim(v)) <==> Known(l, v)
  {
    TrimIsTrimmed(v);
    hide Trim;
  }

  lemma ZoneClash(l: Letters, r: Rules, f: Facts)
    ensures Allowed(l, r, f, TimezoneFact) && !Unknown(l, Primary(l, f, TimezoneFact)) <==> ZoneFits(l, r, f)
  {
    HeadIs(f.timezone.zones);
    CleanIsClean(f.timezone.zones);
    KnownIs(l, f.timezone.value);
    KnownIs(l, TimezonePrimary(l, f.timezone));
    KnownTrims(l, f.timezone.value);
    ZoneFires(l, r, f);
    NoZone(l, r, f);
    hide Clean, HeadOf, Known, Unknown, Trim, ZoneAllowed, SomeZoneAllowed;
  }

  lemma NoZone(l: Letters, r: Rules, f: Facts)
    ensures Clean(f.timezone.zones) == [] ==> !ZoneAllowed(l, r.timezone, f.timezone)
  {
    hide Clean;
  }

  lemma ValueClash(l: Letters, r: Rules, f: Facts)
    ensures Allowed(l, r, f, AuthFact) && !Unknown(l, Primary(l, f, AuthFact)) <==>
      Known(l, f.auth.value) && !GatedBy(l, r.auth.gates, f.auth.value)
    ensures Allowed(l, r, f, ModeFact) && !Unknown(l, Primary(l, f, ModeFact)) <==>
      Known(l, f.workMode.value) && !GatedBy(l, r.workMode.gates, f.workMode.value) && Trim(f.workMode.value) == "remote"
  {
    KnownIs(l, f.auth.value);
    KnownIs(l, f.workMode.value);
    KnownTrims(l, f.auth.value);
    KnownTrims(l, f.workMode.value);
    KnownIs(l, Trim(f.auth.value));
    KnownIs(l, Trim(f.workMode.value));
    GatedIs(l, r.auth.gates, f.auth.value);
    GatedIs(l, r.workMode.gates, f.workMode.value);
    hide Known, Unknown, Trim, Gated, GatedBy;
  }

  /** The conflicts of a verdict: five fields can have one, each exactly when it fits the profile and such a phrase stands in the job. */
  lemma ClashesAre(l: Letters, fired: string -> bool, r: Rules, f: Facts)
    ensures var ss := FactSignalsOf(l, fired, r, f);
      && (HasRule(ss, Conflict, "office") <==> fired("office") && OfficeFits(l, r, f))
      && (HasRule(ss, Conflict, "hiring_scope") <==> fired("hiring_scope") && ScopeFits(l, r, f))
      && (HasRule(ss, Conflict, "work_authorization") <==>
            fired("work_authorization") && Known(l, f.auth.value) && !GatedBy(l, r.auth.gates, f.auth.value))
      && (HasRule(ss, Conflict, "timezone") <==> fired("timezone") && ZoneFits(l, r, f))
      && (HasRule(ss, Conflict, "work_mode") <==>
            fired("work_mode") && Known(l, f.workMode.value) && !GatedBy(l, r.workMode.gates, f.workMode.value)
            && Trim(f.workMode.value) == "remote")
      && !HasRule(ss, Conflict, "compensation") && !HasRule(ss, Conflict, "employment_load")
      && !HasRule(ss, Conflict, "engagement")
  {
    hide FactSignalsOf, CutFires, HasCut, HasConflict, AllFacts, HasRule, OfficeFits, ScopeFits, ZoneFits, Known, GatedBy;
    hide Unknown, Primary, Trim, Allowed;
    var ss := FactSignalsOf(l, fired, r, f);
    OfficeClash(l, r, f);
    ScopeClash(l, r, f);
    ZoneClash(l, r, f);
    ValueClash(l, r, f);
    NoClash(l, r, f);
    forall x: Field ensures HasRule(ss, Conflict, Name(x)) <==> Clashes(l, fired, r, f, x) {
      FactsByField(l, fired, r, f, x);
      RuleOf(ss, x);
    }
    assert Name(OfficeFact) == "office" && Name(ScopeFact) == "hiring_scope" && Name(AuthFact) == "work_authorization";
    assert Name(TimezoneFact) == "timezone" && Name(ModeFact) == "work_mode";
    assert Name(PayFact) == "compensation" && Name(LoadFact) == "employment_load" && Name(EngagementFact) == "engagement";
  }

  lemma NoClash(l: Letters, r: Rules, f: Facts)
    ensures !Allowed(l, r, f, PayFact) && !Allowed(l, r, f, LoadFact) && !Allowed(l, r, f, EngagementFact)
  {
  }

  // What a verdict pays.

  function IfScored(scored: bool, points: int): int {
    if scored then points else 0
  }

  /** A foreign scope of one or two countries, where the residence meets it all the same. */
  ghost predicate NarrowScope(l: Letters, r: Rules, f: Facts) {
    && r.scope.scored && Known(l, f.scope.value) && f.scope.value == "restricted"
    && TakesIn(l, r.residenceRegions, f.scope.countries, f.scope.regions) && !SomeContinent(l, f.scope.regions)
    && 1 <= Count(f.scope.countries) <= 2 && (exists c :: Names(r.residenceCountries, c))
    && forall c :: Names(r.residenceCountries, c) ==> !Allows(l, f.scope.countries, c)
  }

  ghost function OfficePays(r: Rules, f: Facts): int {
    if f.office.unknown then 0
    else IfScored(r.office.scored, (Count(f.office.countries) + Count(f.office.regions)) * r.office.delta)
  }

  ghost function ScopePays(l: Letters, r: Rules, f: Facts): int {
    (if Known(l, f.scope.value)
        && (f.scope.value == "worldwide" || (f.scope.value == "restricted" && SomeContinent(l, f.scope.regions)))
     then IfScored(r.scope.scored, r.scope.delta) else 0)
    + (if NarrowScope(l, r, f) then r.scope.narrowPenalty else 0)
  }

  ghost function ZonePays(l: Letters, r: Rules, f: Facts): int {
    if !Known(l, f.timezone.value) then 0
    else if OpenZone(l, f.timezone.value) || Count(f.timezone.zones) == 0 then IfScored(r.timezone.scored, r.timezone.delta)
    else IfScored(r.timezone.scored, Count(f.timezone.zones) * r.timezone.delta)
  }

  ghost function ValuePays(l: Letters, value: string, scored: bool, delta: int): int {
    if Known(l, value) then IfScored(scored, delta) else 0
  }

  ghost function PayPays(r: Rules, f: Facts): int {
    if f.pay.unknown || Trim(f.pay.currency) == "" then 0 else IfScored(r.pay.scored, r.pay.delta)
  }

  lemma {:induction false} NotesSum(rule: string, quote: string, values: seq<string>, delta: int)
    ensures Sum(NotesFor(rule, quote, values, delta)) == |values| * delta
    decreases |values|
  {
    if values == [] {
    } else {
      var n := |values| - 1;
      NotesSum(rule, quote, values[..n], delta);
      var front := NotesFor(rule, quote, values[..n], delta);
      SumConcat(front, [Note(rule, quote, values[n], delta)]);
      SumOne(Note(rule, quote, values[n], delta));
      assert |values| * delta == n * delta + delta;
    }
  }

  lemma SumOne(s: Signal)
    ensures Sum([s]) == s.delta && Sum([]) == 0
  {
    assert [s][..0] == [];
  }

  lemma NarrowIs(l: Letters, r: Rules, f: Facts)
    ensures Sum(NarrowPenalty(l, r, f.scope)) == if NarrowScope(l, r, f) then r.scope.narrowPenalty else 0
  {
    KnownIs(l, f.scope.value);
    TakesInIs(l, r.residenceRegions, f.scope.countries, f.scope.regions);
    BroadIs(l, f.scope.regions, []);
    CleanCount(f.scope.countries);
    CleanNames(r.residenceCountries);
    NamesNone(r.residenceCountries);
    SumOne(Signal(Penalty, "facts.hiring_scope.narrow", f.scope.quote, ScopePrimary(f.scope), r.scope.narrowPenalty, 0));
    hide Known, Unknown, Intersects, TakesIn, HasBroadRegion, SomeContinent, Clean, Count, Names, ContainsFold, Allows, Sum;
    forall c ensures ContainsFold(l, Clean(f.scope.countries), c) <==> Allows(l, f.scope.countries, c) {
      AllowsIs(l, f.scope.countries, c);
    }
    var homes := Clean(r.residenceCountries);
    assert forall c :: c in homes <==> Names(r.residenceCountries, c);
  }

  lemma ScopeNotesSum(l: Letters, r: Rules, f: Facts)
    ensures Sum(ScopeNotes(l, r.scope, f.scope)) + Sum(NarrowPenalty(l, r, f.scope)) == ScopePays(l, r, f)
  {
    KnownIs(l, f.scope.value);
    NarrowIs(l, r, f);
    BroadIs(l, f.scope.regions, []);
    if Unknown(l, f.scope.value) {
      assert ScopeNotes(l, r.scope, f.scope) == [];
    } else {
      ScopeBonusOnce(l, r.scope, f.scope);
    }
    hide Known, Unknown, NarrowPenalty, NarrowScope, HasBroadRegion, SomeContinent, ScopeNotes;
  }

  lemma OfficeSum(r: Rules, f: Facts)
    ensures Sum(OfficeNotes(r.office, f.office)) == OfficePays(r, f)
  {
    CleanCount(f.office.countries);
    CleanCount(f.office.regions);
    NotesSum("office", f.office.quote, OfficeCodes(f.office), FactDelta(r.office.scored, r.office.delta));
    hide Clean, Count, NotesFor;
  }

  lemma ZoneSum(l: Letters, r: Rules, f: Facts)
    ensures Sum(TimezoneNotes(l, r.timezone, f.timezone)) == ZonePays(l, r, f)
  {
    KnownIs(l, f.timezone.value);
    CleanCount(f.timezone.zones);
    var delta := FactDelta(r.timezone.scored, r.timezone.delta);
    NotesSum("timezone", f.timezone.quote, Clean(f.timezone.zones), delta);
    SumOne(Note("timezone", f.timezone.quote, Trim(f.timezone.value), delta));
    hide Clean, Count, NotesFor, Known, Unknown, Trim, Sum;
  }

  lemma ValueSum(l: Letters, rule: string, quote: string, value: string, scored: bool, delta: int)
    ensures Sum(ValueNotes(l, rule, quote, value, FactDelta(scored, delta))) == ValuePays(l, value, scored, delta)
  {
    KnownIs(l, value);
    SumOne(Note(rule, quote, Trim(value), FactDelta(scored, delta)));
    hide Known, Unknown, Trim, Sum;
  }

  lemma PaySum(r: Rules, f: Facts)
    ensures Sum(PayNotes(r.pay, f.pay)) == PayPays(r, f)
  {
    SumOne(Note("compensation", f.pay.quote, Trim(f.pay.currency), FactDelta(r.pay.scored, r.pay.delta)));
    hide Trim, Sum;
  }

  /** Cuts and conflicts pay nothing. */
  lemma PartSum(l: Letters, fired: string -> bool, r: Rules, f: Facts, x: Field)
    ensures Sum(PartOf(l, fired, r, f, x)) ==
      Sum(NotesOf(l, r, f, x)) + (if x.ScopeFact? then Sum(NarrowPenalty(l, r, f.scope)) else 0)
  {
    hide NotesOf, NarrowPenalty, CutsOf, Allowed, Primary, QuoteOf, Unknown, AllCuts, Name;
    var notes, cuts := NotesOf(l, r, f, x), CutsOf(l, r, f, x);
    var narrow := if x.ScopeFact? then NarrowPenalty(l, r, f.scope) else [];
    var clash := ConflictIf(l, fired, Name(x), Allowed(l, r, f, x), QuoteOf(f, x), Primary(l, f, x));
    CutsOfAreCuts(l, r, f, x);
    CutsFree(cuts, x);
    SumOne(Signal(Conflict, Name(x), QuoteOf(f, x), Primary(l, f, x), 0, 0));
    SumConcat(notes, cuts);
    SumConcat(notes + cuts, narrow);
    SumConcat(notes + cuts + narrow, clash);
    hide Sum;
  }

  lemma {:induction false} CutsFree(ss: seq<Signal>, x: Field)
    requires AllCuts(ss, x)
    ensures Sum(ss) == 0
    decreases |ss|
  {
    if ss == [] {
    } else {
      assert IsCutOf(x, ss[|ss| - 1]);
      CutsFree(ss[..|ss| - 1], x);
    }
  }

  function PartsSum(l: Letters, fired: string -> bool, r: Rules, f: Facts, fields: seq<Field>): int {
    if fields == [] then 0 else Sum(PartOf(l, fired, r, f, fields[0])) + PartsSum(l, fired, r, f, fields[1..])
  }

  lemma {:induction false} GatherSum(l: Letters, fired: string -> bool, r: Rules, f: Facts, fields: seq<Field>)
    ensures Sum(Gather(l, fired, r, f, fields)) == PartsSum(l, fired, r, f, fields)
    decreases |fields|
  {
    hide PartOf;
    if fields == [] {
    } else {
      GatherSum(l, fired, r, f, fields[1..]);
      SumConcat(PartOf(l, fired, r, f, fields[0]), Gather(l, fired, r, f, fields[1..]));
    }
  }

  /**
   The points of a verdict. Offices and time zones pay for each code and zone, a
   scope of the world or of a broad region pays once, a narrow one costs its
   penalty, and each other known value pays once; what a profile does not score
   pays nothing.
   */
  lemma VerdictPays(l: Letters, fired: string -> bool, r: Rules, f: Facts)
    ensures Scoring.Points(FactSignalsOf(l, fired, r, f)) ==
      OfficePays(r, f) + ScopePays(l, r, f) + ZonePays(l, r, f) + PayPays(r, f)
      + ValuePays(l, f.auth.value, r.auth.scored, r.auth.delta)
      + ValuePays(l, f.workMode.value, r.workMode.scored, r.workMode.delta)
      + ValuePays(l, f.load.value, r.load.scored, r.load.delta)
      + ValuePays(l, f.engagement.value, r.engagement.scored, r.engagement.delta)
  {
    hide PartOf, Gather, Sum, Scoring.Points, OfficePays, ScopePays, ZonePays, PayPays, ValuePays, NarrowPenalty;
    hide OfficeNotes, ScopeNotes, ValueNotes, TimezoneNotes, PayNotes, FactDelta;
    Scoring.PointsAre(FactSignalsOf(l, fired, r, f));
    GatherSum(l, fired, r, f, ORDER);
    EightParts(l, fired, r, f);
    OfficeSum(r, f);
    ScopeNotesSum(l, r, f);
    ZoneSum(l, r, f);
    PaySum(r, f);
    ValueSum(l, Name(AuthFact), f.auth.quote, f.auth.value, r.auth.scored, r.auth.delta);
    ValueSum(l, Name(ModeFact), f.workMode.quote, f.workMode.value, r.workMode.scored, r.workMode.delta);
    ValueSum(l, Name(LoadFact), f.load.quote, f.load.value, r.load.scored, r.load.delta);
    ValueSum(l, Name(EngagementFact), f.engagement.quote, f.engagement.value, r.engagement.scored, r.engagement.delta);
    forall x: Field
      ensures Sum(PartOf(l, fired, r, f, x)) ==
        Sum(NotesOf(l, r, f, x)) + (if x.ScopeFact? then Sum(NarrowPenalty(l, r, f.scope)) else 0)
    {
      PartSum(l, fired, r, f, x);
    }
  }

  lemma EightParts(l: Letters, fired: string -> bool, r: Rules, f: Facts)
    ensures PartsSum(l, fired, r, f, ORDER) ==
      Sum(PartOf(l, fired, r, f, OfficeFact)) + Sum(PartOf(l, fired, r, f, ScopeFact)) + Sum(PartOf(l, fired, r, f, AuthFact))
      + Sum(PartOf(l, fired, r, f, TimezoneFact)) + Sum(PartOf(l, fired, r, f, PayFact)) + Sum(PartOf(l, fired, r, f, ModeFact))
      + Sum(PartOf(l, fired, r, f, LoadFact)) + Sum(PartOf(l, fired, r, f, EngagementFact))
  {
    hide PartOf, Sum, PartsSum;
    assert ORDER[0..] == ORDER;
    NextPart(l, fired, r, f, 0);
    NextPart(l, fired, r, f, 1);
    NextPart(l, fired, r, f, 2);
    NextPart(l, fired, r, f, 3);
    NextPart(l, fired, r, f, 4);
    NextPart(l, fired, r, f, 5);
    NextPart(l, fired, r, f, 6);
    NextPart(l, fired, r, f, 7);
    NoPart(l, fired, r, f);
  }

  lemma NextPart(l: Letters, fired: string -> bool, r: Rules, f: Facts, k: nat)
    requires k < |ORDER|
    ensures PartsSum(l, fired, r, f, ORDER[k..]) == Sum(PartOf(l, fired, r, f, ORDER[k])) + PartsSum(l, fired, r, f, ORDER[k + 1..])
  {
    hide PartOf, Sum;
    var fields := ORDER;
    assert fields[k..][1..] == fields[k + 1..];
  }

  lemma NoPart(l: Letters, fired: string -> bool, r: Rules, f: Facts)
    ensures PartsSum(l, fired, r, f, ORDER[8..]) == 0
  {
    assert ORDER[8..] == [];
  }
}
