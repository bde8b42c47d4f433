/**
 The signals a ready verdict adds to the score of a job: notes (LLM, CONFLICT,
 PENALTY) and cuts (GATE_HARD with a rule facts.*). Case folding, upper-casing and
 the set of European countries are parameters; so is whether a phrase that is
 mapped to a field stands in the job.
 */
module FactSignals {
  import opened Prelude
  import opened Text
  import opened TextLists

  datatype Code = GateRole | GateHard | CutLocation | CutTimezone | CutPostedAt | Plus | Penalty | LLM | Conflict

  datatype Signal = Signal(code: Code, rule: string, phrase: string, value: string, delta: int, occurrences: nat)

  datatype Letters = Letters(fold: string -> string, upper: string -> string, europe: string -> bool)

  /** What the model reported. A missing quote is the empty text. */
  datatype Quoted = Quoted(value: string, quote: string)
  datatype Office = Office(unknown: bool, countries: seq<string>, regions: seq<string>, quote: string)
  datatype Scope = Scope(value: string, countries: seq<string>, regions: seq<string>, quote: string)
  datatype WorkAuth = WorkAuth(value: string, countries: seq<string>, quote: string)
  datatype Timezone = Timezone(value: string, zones: seq<string>, quote: string)
  datatype Pay = Pay(unknown: bool, currency: string, quote: string)

  datatype Facts = Facts(
    office: Office, scope: Scope, auth: WorkAuth, timezone: Timezone, pay: Pay, workMode: Quoted, load: Quoted,
    engagement: Quoted)

  /** The fields of a verdict. */
  datatype Field = OfficeFact | ScopeFact | AuthFact | TimezoneFact | PayFact | ModeFact | LoadFact | EngagementFact

  function Name(field: Field): string {
    match field
    case OfficeFact => "office"
    case ScopeFact => "hiring_scope"
    case AuthFact => "work_authorization"
    case TimezoneFact => "timezone"
    case PayFact => "compensation"
    case ModeFact => "work_mode"
    case LoadFact => "employment_load"
    case EngagementFact => "engagement"
  }

  /** What a profile says about each field. `scored: false` keeps the note and drops the cut. */
  datatype OfficeRule = OfficeRule(scored: bool, delta: int, allowCountries: seq<string>, allowRegions: seq<string>)
  datatype ScopeRule = ScopeRule(scored: bool, delta: int, narrowPenalty: int)
  datatype GateRule = GateRule(scored: bool, delta: int, gates: seq<string>)
  datatype AllowRule = AllowRule(scored: bool, delta: int, allow: seq<string>)
  datatype NoteRule = NoteRule(scored: bool, delta: int)

  datatype Rules = Rules(
    office: OfficeRule, scope: ScopeRule, auth: GateRule, timezone: AllowRule, pay: AllowRule, workMode: GateRule,
    load: NoteRule, engagement: NoteRule, residenceRegions: seq<string>, residenceCountries: seq<string>)

  function FactDelta(scored: bool, delta: int): int {
    if scored then delta else 0
  }

  function Note(rule: string, quote: string, value: string, delta: int): Signal {
    Signal(LLM, rule, quote, value, delta, 0)
  }

  function Cut(field: string, quote: string, value: string): Signal {
    Signal(GateHard, "facts." + field, quote, value, 0, 0)
  }

  predicate EqualFold(l: Letters, a: string, b: string) {
    l.fold(a) == l.fold(b)
  }

  predicate ContainsFold(l: Letters, values: seq<string>, code: string) {
    exists i :: 0 <= i < |values| && EqualFold(l, values[i], code)
  }

  predicate MissesAllowLists(l: Letters, code: string, countries: seq<string>, regions: seq<string>) {
    !ContainsFold(l, countries, code) && !ContainsFold(l, regions, code)
  }

  predicate Unknown(l: Letters, value: string) {
    EqualFold(l, Trim(value), "unknown") || Blank(value)
  }

  predicate BroadRegion(l: Letters, region: string) {
    l.upper(region) in ["EUROPE", "EMEA", "WORLDWIDE"]
  }

  predicate HasBroadRegion(l: Letters, regions: seq<string>) {
    exists i :: 0 <= i < |Clean(regions)| && BroadRegion(l, Clean(regions)[i])
  }

  predicate HasEuropean(l: Letters, countries: seq<string>) {
    exists i :: 0 <= i < |Clean(countries)| && l.europe(Clean(countries)[i])
  }

  /** One residence region meets the scope. */
  predicate Meets(l: Letters, residence: string, countries: seq<string>, regions: seq<string>) {
    var r := l.upper(residence);
    if r == "WORLDWIDE" then true
    else if r == "EUROPE" || r == "EMEA" then HasEuropean(l, countries) || HasBroadRegion(l, regions)
    else ContainsFold(l, countries, residence) || ContainsFold(l, regions, residence)
  }

  /** residenceIntersects. */
  predicate Intersects(l: Letters, residence: seq<string>, countries: seq<string>, regions: seq<string>) {
    exists i :: 0 <= i < |Clean(residence)| && Meets(l, Clean(residence)[i], countries, regions)
  }

  /** Remote work whose scope is known and takes in Europe: the office is no presence requirement then. */
  predicate OfficeCutSuppressed(l: Letters, workMode: Quoted, scope: Scope) {
    && Trim(workMode.value) == "remote" && !Unknown(l, scope.value)
    && (scope.value == "worldwide"
        || (scope.value == "restricted" && Intersects(l, ["EUROPE"], scope.countries, scope.regions)))
  }

  /** A cut for each code that neither allow list holds. */
  function OfficeMisses(l: Letters, rule: OfficeRule, quote: string, codes: seq<string>): seq<Signal> {
    if codes == [] then []
    else
      var front, code := OfficeMisses(l, rule, quote, codes[..|codes| - 1]), codes[|codes| - 1];
      if MissesAllowLists(l, code, Clean(rule.allowCountries), Clean(rule.allowRegions))
      then front + [Cut("office", quote, code)] else front
  }

  function OfficeCodes(office: Office): seq<string> {
    Clean(office.countries) + Clean(office.regions)
  }

  function OfficeCuts(l: Letters, rule: OfficeRule, office: Office, workMode: Quoted, scope: Scope): seq<Signal> {
    if !rule.scored || office.unknown || OfficeCutSuppressed(l, workMode, scope) then []
    else OfficeMisses(l, rule, office.quote, Clean(office.countries)) + OfficeMisses(l, rule, office.quote, Clean(office.regions))
  }

  predicate OfficeMissing(l: Letters, rule: OfficeRule, code: string) {
    MissesAllowLists(l, code, Clean(rule.allowCountries), Clean(rule.allowRegions))
  }

  function ScopePrimary(scope: Scope): string {
    if scope.value == "worldwide" then "worldwide"
    else if Clean(scope.countries) != [] then Clean(scope.countries)[0]
    else if Clean(scope.regions) != [] then Clean(scope.regions)[0]
    else Trim(scope.value)
  }

  predicate ScopeCutFires(l: Letters, rule: ScopeRule, residence: seq<string>, scope: Scope) {
    rule.scored && !Unknown(l, scope.value) && scope.value == "restricted"
    && !Intersects(l, residence, scope.countries, scope.regions)
  }

  /** A scope of one or two foreign countries without a broad region, where the residence meets the scope. */
  predicate Narrow(l: Letters, rules: Rules, scope: Scope) {
    var countries := Clean(scope.countries);
    && rules.scope.scored && rules.scope.narrowPenalty != 0 && !Unknown(l, scope.value) && scope.value == "restricted"
    && Intersects(l, rules.residenceRegions, scope.countries, scope.regions)
    && Clean(rules.residenceCountries) != [] && !HasBroadRegion(l, scope.regions)
    && 1 <= |countries| <= 2
    && forall i :: 0 <= i < |Clean(rules.residenceCountries)| ==> !ContainsFold(l, countries, Clean(rules.residenceCountries)[i])
  }

  function NarrowPenalty(l: Letters, rules: Rules, scope: Scope): seq<Signal> {
    if Narrow(l, rules, scope)
    then [Signal(Penalty, "facts.hiring_scope.narrow", scope.quote, ScopePrimary(scope), rules.scope.narrowPenalty, 0)]
    else []
  }

  predicate Gated(l: Letters, gates: seq<string>, value: string) {
    exists i :: 0 <= i < |gates| && EqualFold(l, Trim(gates[i]), value)
  }

  /** A gated authorization cuts when it names countries and all of them miss the residence. */
  predicate AuthCutFires(l: Letters, rule: GateRule, auth: WorkAuth, countries: seq<string>, regions: seq<string>) {
    && rule.scored && !Unknown(l, auth.value) && Gated(l, rule.gates, Trim(auth.value)) && Clean(auth.countries) != []
    && forall i :: 0 <= i < |Clean(auth.countries)| ==>
         MissesAllowLists(l, Clean(auth.countries)[i], Clean(countries), Clean(regions))
  }

  predicate TimezoneOpen(l: Letters, value: string) {
    EqualFold(l, Trim(value), "open") || Trim(value) == "worldwide"
  }

  function TimezonePrimary(l: Letters, tz: Timezone): string {
    if TimezoneOpen(l, tz.value) || Clean(tz.zones) == [] then Trim(tz.value) else Clean(tz.zones)[0]
  }

  predicate ZoneAllowed(l: Letters, rule: AllowRule, tz: Timezone) {
    exists i :: 0 <= i < |Clean(tz.zones)| && ContainsFold(l, Clean(rule.allow), Clean(tz.zones)[i])
  }

  predicate TimezoneCutFires(l: Letters, rule: AllowRule, tz: Timezone) {
    rule.scored && !Unknown(l, tz.value) && !TimezoneOpen(l, tz.value) && tz.value == "restricted" && !ZoneAllowed(l, rule, tz)
  }

  predicate PayCutFires(l: Letters, rule: AllowRule, pay: Pay) {
    rule.scored && !pay.unknown && !Blank(pay.currency) && !ContainsFold(l, Clean(rule.allow), Trim(pay.currency))
  }

  predicate ModeCutFires(l: Letters, rule: GateRule, mode: Quoted) {
    rule.scored && !Unknown(l, mode.value) && Gated(l, rule.gates, Trim(mode.value))
  }

  function NotesFor(rule: string, quote: string, values: seq<string>, delta: int): seq<Signal> {
    if values == [] then []
    else NotesFor(rule, quote, values[..|values| - 1], delta) + [Note(rule, quote, values[|values| - 1], delta)]
  }

  function OfficeNotes(rule: OfficeRule, office: Office): seq<Signal> {
    if office.unknown then []
    else NotesFor("office", office.quote, OfficeCodes(office), FactDelta(rule.scored, rule.delta))
  }

  /** hiringScopeBonusEligible. */
  predicate BonusEligible(l: Letters, scope: Scope) {
    scope.value == "worldwide" || (scope.value == "restricted" && HasBroadRegion(l, scope.regions))
  }

  /** Region notes: the first broad region takes the bonus, if there is one to take. */
  function RegionNotes(l: Letters, quote: string, regions: seq<string>, bonus: int): seq<Signal> {
    if regions == [] then []
    else if bonus != 0 && BroadRegion(l, regions[0]) then
      [Note("hiring_scope", quote, regions[0], bonus)] + RegionNotes(l, quote, regions[1..], 0)
    else [Note("hiring_scope", quote, regions[0], 0)] + RegionNotes(l, quote, regions[1..], bonus)
  }

  function ScopeNotes(l: Letters, rule: ScopeRule, scope: Scope): seq<Signal> {
    var bonus := if rule.scored && BonusEligible(l, scope) then rule.delta else 0;
    var countries, regions := Clean(scope.countries), Clean(scope.regions);
    if Unknown(l, scope.value) then []
    else if scope.value == "worldwide" then [Note("hiring_scope", scope.quote, "worldwide", bonus)]
    else if countries == [] && regions == [] then [Note("hiring_scope", scope.quote, Trim(scope.value), 0)]
    else NotesFor("hiring_scope", scope.quote, countries, 0) + RegionNotes(l, scope.quote, regions, bonus)
  }

  function ValueNotes(l: Letters, rule: string, quote: string, value: string, delta: int): seq<Signal> {
    if Unknown(l, value) then [] else [Note(rule, quote, Trim(value), delta)]
  }

  function TimezoneNotes(l: Letters, rule: AllowRule, tz: Timezone): seq<Signal> {
    var delta, zones := FactDelta(rule.scored, rule.delta), Clean(tz.zones);
    if Unknown(l, tz.value) then []
    else if TimezoneOpen(l, tz.value) || zones == [] then [Note("timezone", tz.quote, Trim(tz.value), delta)]
    else NotesFor("timezone", tz.quote, zones, delta)
  }

  function PayNotes(rule: AllowRule, pay: Pay): seq<Signal> {
    if pay.unknown || Blank(pay.currency) then []
    else [Note("compensation", pay.quote, Trim(pay.currency), FactDelta(rule.scored, rule.delta))]
  }

  /** The model allows what a phrase of the job seems to forbid. `fired` says whether such a phrase stands in the job. */
  function ConflictIf(
      l: Letters, fired: string -> bool, field: string, onAllowSide: bool, quote: string, value: string): seq<Signal>
  {
    if !onAllowSide || Unknown(l, value) || !fired(field) then [] else [Signal(Conflict, field, quote, value, 0, 0)]
  }

  predicate OfficeAllowed(l: Letters, rule: OfficeRule, office: Office) {
    var codes := OfficeCodes(office);
    var countries, regions := Clean(rule.allowCountries), Clean(rule.allowRegions);
    && !office.unknown && codes != []
    && ((countries == [] && regions == []) || forall i :: 0 <= i < |codes| ==> !MissesAllowLists(l, codes[i], countries, regions))
  }

  predicate ScopeAllowed(l: Letters, residence: seq<string>, scope: Scope) {
    && !Unknown(l, scope.value)
    && (scope.value == "worldwide" || (scope.value == "restricted" && Intersects(l, residence, scope.countries, scope.regions)))
  }

  predicate TimezoneAllowed(l: Letters, rule: AllowRule, tz: Timezone) {
    !Unknown(l, tz.value) && (TimezoneOpen(l, tz.value) || (tz.value == "restricted" && ZoneAllowed(l, rule, tz)))
  }

  function OfficePrimary(office: Office): string {
    if Clean(office.countries) != [] then Clean(office.countries)[0]
    else if Clean(office.regions) != [] then Clean(office.regions)[0] else ""
  }

  function NotesOf(l: Letters, r: Rules, f: Facts, field: Field): seq<Signal> {
    match field
    case OfficeFact => OfficeNotes(r.office, f.office)
    case ScopeFact => ScopeNotes(l, r.scope, f.scope)
    case AuthFact => ValueNotes(l, Name(field), f.auth.quote, f.auth.value, FactDelta(r.auth.scored, r.auth.delta))
    case TimezoneFact => TimezoneNotes(l, r.timezone, f.timezone)
    case PayFact => PayNotes(r.pay, f.pay)
    case ModeFact => ValueNotes(l, Name(field), f.workMode.quote, f.workMode.value, FactDelta(r.workMode.scored, r.workMode.delta))
    case LoadFact => ValueNotes(l, Name(field), f.load.quote, f.load.value, FactDelta(r.load.scored, r.load.delta))
    case EngagementFact =>
      ValueNotes(l, Name(field), f.engagement.quote, f.engagement.value, FactDelta(r.engagement.scored, r.engagement.delta))
  }

  /** The condition under which a field cuts. */
  predicate CutFires(l: Letters, r: Rules, f: Facts, field: Field) {
    match field
    case OfficeFact =>
      && r.office.scored && !f.office.unknown && !OfficeCutSuppressed(l, f.workMode, f.scope)
      && exists i :: 0 <= i < |OfficeCodes(f.office)| && OfficeMissing(l, r.office, OfficeCodes(f.office)[i])
    case ScopeFact => ScopeCutFires(l, r.scope, r.residenceRegions, f.scope)
    case AuthFact => AuthCutFires(l, r.auth, f.auth, r.residenceCountries, r.residenceRegions)
    case TimezoneFact => TimezoneCutFires(l, r.timezone, f.timezone)
    case PayFact => PayCutFires(l, r.pay, f.pay)
    case ModeFact => ModeCutFires(l, r.workMode, f.workMode)
    case _ => false
  }

  function CutsOf(l: Letters, r: Rules, f: Facts, field: Field): seq<Signal> {
    if field.OfficeFact? then OfficeCuts(l, r.office, f.office, f.workMode, f.scope)
    else if CutFires(l, r, f, field) then [Cut(Name(field), QuoteOf(f, field), Primary(l, f, field))]
    else []
  }

  function QuoteOf(f: Facts, field: Field): string {
    match field
    case OfficeFact => f.office.quote
    case ScopeFact => f.scope.quote
    case AuthFact => f.auth.quote
    case TimezoneFact => f.timezone.quote
    case PayFact => f.pay.quote
    case ModeFact => f.workMode.quote
    case LoadFact => f.load.quote
    case EngagementFact => f.engagement.quote
  }

  function Primary(l: Letters, f: Facts, field: Field): string {
    match field
    case OfficeFact => OfficePrimary(f.office)
    case ScopeFact => ScopePrimary(f.scope)
    case AuthFact => Trim(f.auth.value)
    case TimezoneFact => TimezonePrimary(l, f.timezone)
    case PayFact => Trim(f.pay.currency)
    case ModeFact => Trim(f.workMode.value)
    case LoadFact => Trim(f.load.value)
    case EngagementFact => Trim(f.engagement.value)
  }

  /** The model's value is on the side the profile allows. Three fields have no such side. */
  predicate Allowed(l: Letters, r: Rules, f: Facts, field: Field) {
    match field
    case OfficeFact => OfficeAllowed(l, r.office, f.office)
    case ScopeFact => ScopeAllowed(l, r.residenceRegions, f.scope)
    case AuthFact => !Unknown(l, f.auth.value) && !Gated(l, r.auth.gates, Trim(f.auth.value))
    case TimezoneFact => TimezoneAllowed(l, r.timezone, f.timezone)
    case ModeFact =>
      && !Unknown(l, f.workMode.value) && !Gated(l, r.workMode.gates, Trim(f.workMode.value))
      && Trim(f.workMode.value) == "remote"
    case _ => false
  }

  predicate Clashes(l: Letters, fired: string -> bool, r: Rules, f: Facts, field: Field) {
    Allowed(l, r, f, field) && !Unknown(l, Primary(l, f, field)) && fired(Name(field))
  }

  /** What one field adds: notes, cuts, for the scope a penalty, and the conflict. */
  function PartOf(l: Letters, fired: string -> bool, r: Rules, f: Facts, field: Field): seq<Signal> {
    NotesOf(l, r, f, field) + CutsOf(l, r, f, field)
    + (if field.ScopeFact? then NarrowPenalty(l, r, f.scope) else [])
    + ConflictIf(l, fired, Name(field), Allowed(l, r, f, field), QuoteOf(f, field), Primary(l, f, field))
  }

  function Gather(l: Letters, fired: string -> bool, r: Rules, f: Facts, fields: seq<Field>): seq<Signal> {
    if fields == [] then [] else PartOf(l, fired, r, f, fields[0]) + Gather(l, fired, r, f, fields[1..])
  }

  const ORDER: seq<Field> :=
    [OfficeFact, ScopeFact, AuthFact, TimezoneFact, PayFact, ModeFact, LoadFact, EngagementFact]

  /** factSignals, field by field. */
  function FactSignalsOf(l: Letters, fired: string -> bool, r: Rules, f: Facts): seq<Signal> {
    Gather(l, fired, r, f, ORDER)
  }

  predicate IsNoteOf(field: Field, s: Signal) {
    s.code.LLM? && s.rule == Name(field)
  }

  predicate IsCutOf(field: Field, s: Signal) {
    s.code.GateHard? && s.delta == 0 && s.rule == "facts." + Name(field)
  }

  predicate IsConflictOf(field: Field, s: Signal) {
    s.code.Conflict? && s.rule == Name(field) && s.delta == 0
  }

  predicate IsNarrow(s: Signal) {
    s.code.Penalty? && s.rule == "facts.hiring_scope.narrow"
  }

  predicate IsFact(s: Signal) {
    exists field :: IsNoteOf(field, s) || IsCutOf(field, s) || IsConflictOf(field, s) || (field.ScopeFact? && IsNarrow(s))
  }

  predicate HasCut(ss: seq<Signal>, field: Field) {
    exists i :: 0 <= i < |ss| && IsCutOf(field, ss[i])
  }

  predicate HasConflict(ss: seq<Signal>, field: Field) {
    exists i :: 0 <= i < |ss| && IsConflictOf(field, ss[i])
  }

  predicate HasNarrow(ss: seq<Signal>) {
    exists i :: 0 <= i < |ss| && IsNarrow(ss[i])
  }

  predicate AllFacts(ss: seq<Signal>) {
    forall i :: 0 <= i < |ss| ==> IsFact(ss[i])
  }

  predicate AllNotes(ss: seq<Signal>, field: Field) {
    forall i :: 0 <= i < |ss| ==> IsNoteOf(field, ss[i])
  }

  predicate AllCuts(ss: seq<Signal>, field: Field) {
    forall i :: 0 <= i < |ss| ==> IsCutOf(field, ss[i])
  }

  lemma Concat(a: seq<Signal>, b: seq<Signal>, x: Field)
    ensures HasCut(a + b, x) <==> HasCut(a, x) || HasCut(b, x)
    ensures HasConflict(a + b, x) <==> HasConflict(a, x) || HasConflict(b, x)
    ensures HasNarrow(a + b) <==> HasNarrow(a) || HasNarrow(b)
    ensures AllFacts(a + b) <==> AllFacts(a) && AllFacts(b)
  {
    hide IsCutOf, IsConflictOf, IsNarrow, IsFact;
    assert forall i :: 0 <= i < |a| ==> (a + b)[i] == a[i];
    assert forall i :: 0 <= i < |b| ==> (a + b)[|a| + i] == b[i];
  }

  lemma NamesDiffer(a: Field, b: Field)
    ensures Name(a) == Name(b) ==> a == b
    ensures "facts." + Name(a) == "facts." + Name(b) ==> a == b
  {
    assert |Name(ScopeFact)| == |Name(PayFact)| == 12 && Name(ScopeFact)[0] == 'h' && Name(PayFact)[0] == 'c';
    assert ("facts." + Name(a))[6..] == Name(a) && ("facts." + Name(b))[6..] == Name(b);
  }

  lemma {:induction false} NotesForAreNotes(field: Field, quote: string, values: seq<string>, delta: int)
    ensures AllNotes(NotesFor(Name(field), quote, values, delta), field)
    decreases |values|
  {
    if values == [] {
    } else {
      NotesForAreNotes(field, quote, values[..|values| - 1], delta);
    }
  }

  lemma {:induction false} RegionNotesAreNotes(l: Letters, quote: string, regions: seq<string>, bonus: int)
    ensures AllNotes(RegionNotes(l, quote, regions, bonus), ScopeFact)
    decreases |regions|
  {
    if regions == [] {
    } else {
      RegionNotesAreNotes(l, quote, regions[1..], bonus);
      RegionNotesAreNotes(l, quote, regions[1..], 0);
    }
  }

  lemma NotesOfAreNotes(l: Letters, r: Rules, f: Facts, field: Field)
    ensures AllNotes(NotesOf(l, r, f, field), field)
  {
    hide Unknown, Clean, HasBroadRegion, BonusEligible, Trim, Blank, BroadRegion;
    NotesForAreNotes(OfficeFact, f.office.quote, OfficeCodes(f.office), FactDelta(r.office.scored, r.office.delta));
    NotesForAreNotes(ScopeFact, f.scope.quote, Clean(f.scope.countries), 0);
    var bonus := if r.scope.scored && BonusEligible(l, f.scope) then r.scope.delta else 0;
    RegionNotesAreNotes(l, f.scope.quote, Clean(f.scope.regions), bonus);
    NotesForAreNotes(TimezoneFact, f.timezone.quote, Clean(f.timezone.zones), FactDelta(r.timezone.scored, r.timezone.delta));
  }

  /** The cuts of a list of office codes: one for each code that both allow lists miss. */
  lemma {:induction false} OfficeMissesAre(l: Letters, rule: OfficeRule, quote: string, codes: seq<string>)
    ensures forall s ::
      s in OfficeMisses(l, rule, quote, codes) <==>
      exists i :: 0 <= i < |codes| && OfficeMissing(l, rule, codes[i]) && s == Cut("office", quote, codes[i])
    decreases |codes|
  {
    if codes == [] {
    } else {
      hide MissesAllowLists, Clean, Cut;
      var front := codes[..|codes| - 1];
      OfficeMissesAre(l, rule, quote, front);
      assert codes == front + [codes[|codes| - 1]];
    }
  }

  /** The office cut signals: a signal is among them exactly when it cuts a code that both allow lists miss. */
  predicate OfficeCutFor(l: Letters, rule: OfficeRule, office: Office, workMode: Quoted, scope: Scope, s: Signal) {
    && rule.scored && !office.unknown && !OfficeCutSuppressed(l, workMode, scope)
    && exists i :: 0 <= i < |OfficeCodes(office)| && OfficeMissing(l, rule, OfficeCodes(office)[i])
         && s == Cut("office", office.quote, OfficeCodes(office)[i])
  }

  lemma OfficeCutsAre(l: Letters, rule: OfficeRule, office: Office, workMode: Quoted, scope: Scope)
    ensures forall s :: s in OfficeCuts(l, rule, office, workMode, scope) <==> OfficeCutFor(l, rule, office, workMode, scope, s)
  {
    hide OfficeMissing, Clean, Cut, OfficeCutSuppressed, OfficeMisses;
    var first, more, codes := Clean(office.countries), Clean(office.regions), OfficeCodes(office);
    OfficeMissesAre(l, rule, office.quote, first);
    OfficeMissesAre(l, rule, office.quote, more);
    assert forall i :: 0 <= i < |first| ==> codes[i] == first[i];
    assert forall i :: 0 <= i < |more| ==> codes[|first| + i] == more[i];
  }

  /** A field's cuts are cuts of that field, and there are some exactly when its condition holds. */
  lemma CutsOfAreCuts(l: Letters, r: Rules, f: Facts, field: Field)
    ensures AllCuts(CutsOf(l, r, f, field), field)
    ensures CutsOf(l, r, f, field) != [] <==> CutFires(l, r, f, field)
  {
    hide Unknown, Clean, Gated, OfficeCuts, OfficeMissing, OfficeCutSuppressed, TimezoneOpen, ZoneAllowed, ContainsFold, Trim, Blank;
    hide ScopeCutFires, AuthCutFires, TimezoneCutFires, PayCutFires, ModeCutFires, Primary;
    if field.OfficeFact? {
      var cuts, codes := OfficeCuts(l, r.office, f.office, f.workMode, f.scope), OfficeCodes(f.office);
      OfficeCutsAre(l, r.office, f.office, f.workMode, f.scope);
      forall i | 0 <= i < |cuts| ensures IsCutOf(OfficeFact, cuts[i]) {
        assert OfficeCutFor(l, r.office, f.office, f.workMode, f.scope, cuts[i]);
      }
      if cuts != [] {
        assert OfficeCutFor(l, r.office, f.office, f.workMode, f.scope, cuts[0]);
      }
      if CutFires(l, r, f, field) {
        var i :| 0 <= i < |codes| && OfficeMissing(l, r.office, codes[i]);
        assert OfficeCutFor(l, r.office, f.office, f.workMode, f.scope, Cut("office", f.office.quote, codes[i]));
      }
    }
  }

  lemma NotesHave(ss: seq<Signal>, y: Field, x: Field)
    requires AllNotes(ss, y)
    ensures !HasCut(ss, x) && !HasConflict(ss, x) && !HasNarrow(ss) && AllFacts(ss)
  {
  }

  lemma CutsHave(ss: seq<Signal>, y: Field, x: Field)
    requires AllCuts(ss, y)
    ensures HasCut(ss, x) <==> x == y && ss != []
    ensures !HasConflict(ss, x) && !HasNarrow(ss) && AllFacts(ss)
  {
    NamesDiffer(x, y);
    if ss != [] {
      assert IsCutOf(y, ss[0]);
    }
  }

  lemma NarrowHas(l: Letters, r: Rules, f: Facts, x: Field)
    ensures var ss := NarrowPenalty(l, r, f.scope);
      && (HasNarrow(ss) <==> Narrow(l, r, f.scope)) && !HasCut(ss, x) && !HasConflict(ss, x) && AllFacts(ss)
  {
    hide Narrow, ScopePrimary;
    var ss := NarrowPenalty(l, r, f.scope);
    if ss != [] {
      assert IsNarrow(ss[0]) && ScopeFact.ScopeFact?;
      assert IsNoteOf(ScopeFact, ss[0]) || IsNarrow(ss[0]);
    }
  }

  lemma ConflictHas(l: Letters, fired: string -> bool, r: Rules, f: Facts, y: Field, x: Field)
    ensures var ss := ConflictIf(l, fired, Name(y), Allowed(l, r, f, y), QuoteOf(f, y), Primary(l, f, y));
      && (HasConflict(ss, x) <==> x == y && Clashes(l, fired, r, f, y)) && !HasCut(ss, x) && !HasNarrow(ss) && AllFacts(ss)
  {
    hide Allowed, Unknown, Primary, QuoteOf, Name;
    NamesDiffer(x, y);
    var ss := ConflictIf(l, fired, Name(y), Allowed(l, r, f, y), QuoteOf(f, y), Primary(l, f, y));
    if ss != [] {
      assert IsConflictOf(y, ss[0]);
    }
  }

  lemma PartHas(l: Letters, fired: string -> bool, r: Rules, f: Facts, y: Field, x: Field)
    ensures var ss := PartOf(l, fired, r, f, y);
      && (HasCut(ss, x) <==> x == y && CutFires(l, r, f, x))
      && (HasConflict(ss, x) <==> x == y && Clashes(l, fired, r, f, x))
      && (HasNarrow(ss) <==> y.ScopeFact? && Narrow(l, r, f.scope)) && AllFacts(ss)
  {
    hide HasCut, HasConflict, HasNarrow, AllFacts, AllNotes, AllCuts, NotesOf, CutsOf, CutFires, Clashes, Allowed, Primary;
    hide QuoteOf, Name, Narrow, NarrowPenalty, ConflictIf;
    var notes, cuts := NotesOf(l, r, f, y), CutsOf(l, r, f, y);
    var narrow := if y.ScopeFact? then NarrowPenalty(l, r, f.scope) else [];
    var clash := ConflictIf(l, fired, Name(y), Allowed(l, r, f, y), QuoteOf(f, y), Primary(l, f, y));
    NotesOfAreNotes(l, r, f, y);
    NotesHave(notes, y, x);
    CutsOfAreCuts(l, r, f, y);
    CutsHave(cuts, y, x);
    NarrowHas(l, r, f, x);
    NothingHas(x);
    ConflictHas(l, fired, r, f, y, x);
    Concat(notes, cuts, x);
    Concat(notes + cuts, narrow, x);
    Concat(notes + cuts + narrow, clash, x);
  }

  lemma NothingHas(x: Field)
    ensures !HasCut([], x) && !HasConflict([], x) && !HasNarrow([]) && AllFacts([])
  {
  }

  lemma {:induction false} GatherHas(l: Letters, fired: string -> bool, r: Rules, f: Facts, fields: seq<Field>, x: Field)
    ensures var ss := Gather(l, fired, r, f, fields);
      && (HasCut(ss, x) <==> x in fields && CutFires(l, r, f, x))
      && (HasConflict(ss, x) <==> x in fields && Clashes(l, fired, r, f, x))
      && (HasNarrow(ss) <==> ScopeFact in fields && Narrow(l, r, f.scope)) && AllFacts(ss)
    decreases |fields|
  {
    hide HasCut, HasConflict, HasNarrow, AllFacts, PartOf, CutFires, Clashes, Narrow;
    if fields == [] {
      NothingHas(x);
    } else {
      PartHas(l, fired, r, f, fields[0], x);
      GatherHas(l, fired, r, f, fields[1..], x);
      Concat(PartOf(l, fired, r, f, fields[0]), Gather(l, fired, r, f, fields[1..]), x);
    }
  }

  /** Among all the signals, each field's cut, its conflict and the penalty stand exactly under their own conditions. */
  lemma FactsByField(l: Letters, fired: string -> bool, r: Rules, f: Facts, x: Field)
    ensures var ss := FactSignalsOf(l, fired, r, f);
      && (HasCut(ss, x) <==> CutFires(l, r, f, x)) && (HasConflict(ss, x) <==> Clashes(l, fired, r, f, x))
      && (HasNarrow(ss) <==> Narrow(l, r, f.scope)) && AllFacts(ss)
  {
    hide HasCut, HasConflict, HasNarrow, AllFacts, CutFires, Clashes, Narrow, Gather;
    GatherHas(l, fired, r, f, ORDER, x);
  }

  predicate NoAllowLists(rule: OfficeRule) {
    Clean(rule.allowCountries) == [] && Clean(rule.allowRegions) == []
  }

  /**
   No field is both cut and in conflict, with one exception: an office named in a
   verdict for a profile that scores the office and has no allow list.
   */
  lemma CutAndConflictIff(l: Letters, fired: string -> bool, r: Rules, f: Facts, x: Field)
    ensures var ss := FactSignalsOf(l, fired, r, f);
      HasCut(ss, x) && HasConflict(ss, x) <==>
      && x.OfficeFact? && r.office.scored && NoAllowLists(r.office) && !f.office.unknown && OfficeCodes(f.office) != []
      && !OfficeCutSuppressed(l, f.workMode, f.scope) && !Unknown(l, OfficePrimary(f.office)) && fired("office")
  {
    hide HasCut, HasConflict, HasNarrow, AllFacts, FactSignalsOf, Narrow, Unknown, Gated, Clean, OfficeCutSuppressed, Intersects;
    hide ContainsFold, TimezoneOpen, ZoneAllowed, Trim, Blank, OfficePrimary, ScopePrimary, TimezonePrimary, EqualFold;
    FactsByField(l, fired, r, f, x);
    if x.OfficeFact? {
      OfficeBoth(l, r.office, f.office);
    }
  }

  lemma OfficeBoth(l: Letters, rule: OfficeRule, office: Office)
    ensures OfficeAllowed(l, rule, office)
      && (exists i :: 0 <= i < |OfficeCodes(office)| && OfficeMissing(l, rule, OfficeCodes(office)[i]))
      <==> !office.unknown && OfficeCodes(office) != [] && NoAllowLists(rule)
  {
    hide Clean, EqualFold;
    if OfficeCodes(office) != [] && NoAllowLists(rule) {
      assert OfficeMissing(l, rule, OfficeCodes(office)[0]);
    }
  }

  /** The exception occurs: an office in France, no allow list, and a phrase about the place. */
  lemma OfficeCutAndConflictOccur(l: Letters, r: Rules, f: Facts)
    requires l.fold("FR") != l.fold("unknown")
    requires r.office == OfficeRule(true, 0, [], []) && f.office == Office(false, ["FR"], [], "in Paris")
    requires f.workMode.value == "onsite"
    ensures var ss := FactSignalsOf(l, _ => true, r, f); HasCut(ss, OfficeFact) && HasConflict(ss, OfficeFact)
  {
    hide FactSignalsOf, HasCut, HasConflict, Intersects;
    CutAndConflictIff(l, _ => true, r, f, OfficeFact);
    TrimmedWords();
    assert ["FR"][..0] == [];
  }

  lemma TrimmedWords()
    ensures Trim("FR") == "FR" && Trim("onsite") == "onsite" && Trim("EUROPE") == "EUROPE"
  {
    hide Trim;
    TrimIsTrimmed("FR");
    TrimIsTrimmed("onsite");
    TrimIsTrimmed("EUROPE");
  }

  /** A scope that costs the narrow penalty does not cut: the two share no verdict. */
  lemma NarrowExcludesCut(l: Letters, fired: string -> bool, r: Rules, f: Facts)
    ensures var ss := FactSignalsOf(l, fired, r, f); !(HasNarrow(ss) && HasCut(ss, ScopeFact))
  {
    hide HasCut, HasConflict, HasNarrow, FactSignalsOf, Intersects, Unknown, Clean;
    FactsByField(l, fired, r, f, ScopeFact);
  }

  predicate BroadHome(l: Letters, residence: seq<string>) {
    exists i :: 0 <= i < |Clean(residence)| && BroadRegion(l, Clean(residence)[i])
  }

  /**
   For a residence in Europe, EMEA or anywhere, a scope that earns the bonus, or
   that takes the office cut back, is never cut.
   */
  lemma BroadHomeKeepsScope(l: Letters, fired: string -> bool, r: Rules, f: Facts)
    requires l.upper("EUROPE") == "EUROPE" && BroadHome(l, r.residenceRegions)
    ensures BonusEligible(l, f.scope) || OfficeCutSuppressed(l, f.workMode, f.scope)
      ==> !HasCut(FactSignalsOf(l, fired, r, f), ScopeFact)
  {
    hide HasCut, FactSignalsOf, Unknown, HasEuropean, HasBroadRegion, ContainsFold, Trim, Clean;
    FactsByField(l, fired, r, f, ScopeFact);
    EuropeAlone();
    var i :| 0 <= i < |Clean(r.residenceRegions)| && BroadRegion(l, Clean(r.residenceRegions)[i]);
    if f.scope.value == "restricted" && (HasEuropean(l, f.scope.countries) || HasBroadRegion(l, f.scope.regions)) {
      assert Meets(l, Clean(r.residenceRegions)[i], f.scope.countries, f.scope.regions);
    }
  }

  lemma EuropeAlone()
    ensures Clean(["EUROPE"]) == ["EUROPE"]
  {
    TrimmedWords();
    assert ["EUROPE"][..0] == [];
  }

  /** Otherwise the same scope is paid its bonus and cut, exactly when no residence is broad or named in the scope. */
  lemma BonusAndCutIff(l: Letters, fired: string -> bool, r: Rules, f: Facts)
    requires r.scope.scored && !Unknown(l, f.scope.value) && BonusEligible(l, f.scope)
    ensures HasCut(FactSignalsOf(l, fired, r, f), ScopeFact) <==>
      && f.scope.value == "restricted" && !BroadHome(l, r.residenceRegions)
      && forall i :: 0 <= i < |Clean(r.residenceRegions)| ==>
           var home := Clean(r.residenceRegions)[i];
           !ContainsFold(l, f.scope.countries, home) && !ContainsFold(l, f.scope.regions, home)
  {
    hide HasCut, FactSignalsOf, Unknown, HasEuropean, HasBroadRegion, ContainsFold, Trim, Clean;
    FactsByField(l, fired, r, f, ScopeFact);
    if f.scope.value == "restricted" {
      forall i | 0 <= i < |Clean(r.residenceRegions)|
        ensures var home := Clean(r.residenceRegions)[i];
          Meets(l, home, f.scope.countries, f.scope.regions) <==>
          BroadRegion(l, home) || ContainsFold(l, f.scope.countries, home) || ContainsFold(l, f.scope.regions, home)
      {
      }
    }
  }

  /** Some cut fires that asks for a review. */
  predicate SoftCutFires(l: Letters, r: Rules, f: Facts) {
    || CutFires(l, r, f, OfficeFact) || CutFires(l, r, f, TimezoneFact)
    || CutFires(l, r, f, PayFact) || CutFires(l, r, f, ModeFact)
  }

  /** Some cut fires that rejects: the hiring scope or the work authorization. */
  predicate HardCutFires(l: Letters, r: Rules, f: Facts) {
    CutFires(l, r, f, ScopeFact) || CutFires(l, r, f, AuthFact)
  }

  predicate IsSoftCut(s: Signal) {
    IsCutOf(OfficeFact, s) || IsCutOf(TimezoneFact, s) || IsCutOf(PayFact, s) || IsCutOf(ModeFact, s)
  }

  predicate IsHardCut(s: Signal) {
    IsCutOf(ScopeFact, s) || IsCutOf(AuthFact, s)
  }

  /** The kinds of signals in a list: all from facts, some cut for review or not, some reject or not. */
  ghost predicate Kinds(ss: seq<Signal>, soft: bool, hard: bool) {
    && (forall i :: 0 <= i < |ss| && ss[i].code.GateHard? ==> IsSoftCut(ss[i]) || IsHardCut(ss[i]))
    && (forall i :: 0 <= i < |ss| ==> ss[i].code.LLM? || ss[i].code.Conflict? || ss[i].code.Penalty? || ss[i].code.GateHard?)
    && ((exists i :: 0 <= i < |ss| && IsSoftCut(ss[i])) <==> soft)
    && ((exists i :: 0 <= i < |ss| && IsHardCut(ss[i])) <==> hard)
  }

  /**
   Every fact signal is a note, a cut for review or a cut that rejects; a cut for
   review is among them exactly when the office, time zone, pay or work mode cuts,
   and one that rejects exactly when the hiring scope or the authorization does.
   */
  lemma FactKinds(l: Letters, fired: string -> bool, r: Rules, f: Facts)
    ensures Kinds(FactSignalsOf(l, fired, r, f), SoftCutFires(l, r, f), HardCutFires(l, r, f))
  {
    hide FactSignalsOf, CutFires, HasCut, AllFacts, Kinds;
    var ss := FactSignalsOf(l, fired, r, f);
    FactsByField(l, fired, r, f, OfficeFact);
    FactsByField(l, fired, r, f, ScopeFact);
    FactsByField(l, fired, r, f, AuthFact);
    FactsByField(l, fired, r, f, TimezoneFact);
    FactsByField(l, fired, r, f, PayFact);
    FactsByField(l, fired, r, f, ModeFact);
    FactsByField(l, fired, r, f, LoadFact);
    FactsByField(l, fired, r, f, EngagementFact);
    NoLoadCut(l, r, f);
    KindsOf(ss);
  }

  lemma NoLoadCut(l: Letters, r: Rules, f: Facts)
    ensures !CutFires(l, r, f, LoadFact) && !CutFires(l, r, f, EngagementFact)
  {
  }

  lemma KindsOf(ss: seq<Signal>)
    requires AllFacts(ss) && !HasCut(ss, LoadFact) && !HasCut(ss, EngagementFact)
    ensures Kinds(ss,
                  HasCut(ss, OfficeFact) || HasCut(ss, TimezoneFact) || HasCut(ss, PayFact) || HasCut(ss, ModeFact),
                  HasCut(ss, ScopeFact) || HasCut(ss, AuthFact))
  {
    hide IsCutOf;
    forall i | 0 <= i < |ss|
      ensures ss[i].code.GateHard? ==> IsSoftCut(ss[i]) || IsHardCut(ss[i])
      ensures ss[i].code.LLM? || ss[i].code.Conflict? || ss[i].code.Penalty? || ss[i].code.GateHard?
    {
      FactCode(ss[i]);
      if ss[i].code.GateHard? {
        var x: Field :| IsCutOf(x, ss[i]);
        assert HasCut(ss, x);
        match x
        case OfficeFact | TimezoneFact | PayFact | ModeFact => assert IsSoftCut(ss[i]);
        case ScopeFact | AuthFact => assert IsHardCut(ss[i]);
        case LoadFact | EngagementFact => assert false;
      }
    }
  }

  lemma FactCode(s: Signal)
    requires IsFact(s)
    ensures s.code.LLM? || s.code.Conflict? || s.code.Penalty? || s.code.GateHard?
    ensures s.code.GateHard? ==> exists x: Field :: IsCutOf(x, s)
  {
  }

  function Sum(ss: seq<Signal>): int {
    if ss == [] then 0 else Sum(ss[..|ss| - 1]) + ss[|ss| - 1].delta
  }

  lemma {:induction false} SumConcat(a: seq<Signal>, b: seq<Signal>)
    ensures Sum(a + b) == Sum(a) + Sum(b)
    decreases |b|
  {
    if b == [] {
      assert a + b == a;
    } else {
      SumConcat(a, b[..|b| - 1]);
      assert (a + b)[..|a + b| - 1] == a + b[..|b| - 1];
    }
  }

  lemma {:induction false} FreeNotesSum(rule: string, quote: string, values: seq<string>)
    ensures Sum(NotesFor(rule, quote, values, 0)) == 0
    decreases |values|
  {
    if values == [] {
    } else {
      var n := |values| - 1;
      FreeNotesSum(rule, quote, values[..n]);
      var front := NotesFor(rule, quote, values[..n], 0);
      assert (front + [Note(rule, quote, values[n], 0)])[..|front|] == front;
    }
  }

  lemma {:induction false} RegionNotesSum(l: Letters, quote: string, regions: seq<string>, bonus: int)
    ensures Sum(RegionNotes(l, quote, regions, bonus)) ==
      if exists i :: 0 <= i < |regions| && BroadRegion(l, regions[i]) then bonus else 0
    decreases |regions|
  {
    if regions == [] {
    } else {
      var rest := regions[1..];
      RegionNotesSum(l, quote, rest, bonus);
      RegionNotesSum(l, quote, rest, 0);
      var taken := bonus != 0 && BroadRegion(l, regions[0]);
      var head := Note("hiring_scope", quote, regions[0], if taken then bonus else 0);
      SumConcat([head], RegionNotes(l, quote, rest, if taken then 0 else bonus));
      assert [head][..0] == [] && Sum([head]) == head.delta;
      assert forall i :: 1 <= i < |regions| ==> regions[i] == rest[i - 1];
    }
  }

  /** The scope bonus is given once, and exactly when the scope is worldwide or restricted to a broad region. */
  lemma ScopeBonusOnce(l: Letters, rule: ScopeRule, scope: Scope)
    requires !Unknown(l, scope.value)
    ensures Sum(ScopeNotes(l, rule, scope)) == if rule.scored && BonusEligible(l, scope) then rule.delta else 0
  {
    hide Unknown, Clean, Trim, BroadRegion;
    var bonus := if rule.scored && BonusEligible(l, scope) then rule.delta else 0;
    var countries, regions := Clean(scope.countries), Clean(scope.regions);
    var ns := ScopeNotes(l, rule, scope);
    if scope.value == "worldwide" || (countries == [] && regions == []) {
      assert ns == [ns[0]] && ns[..0] == [];
    } else {
      FreeNotesSum("hiring_scope", scope.quote, countries);
      RegionNotesSum(l, scope.quote, regions, bonus);
      SumConcat(NotesFor("hiring_scope", scope.quote, countries, 0), RegionNotes(l, scope.quote, regions, bonus));
    }
  }

  method OfficeCutSignals(l: Letters, rule: OfficeRule, office: Office, workMode: Quoted, scope: Scope)
    returns (out: seq<Signal>)
    ensures out == OfficeCuts(l, rule, office, workMode, scope)
    ensures forall s :: s in out <==> OfficeCutFor(l, rule, office, workMode, scope, s)
  {
    OfficeCutsAre(l, rule, office, workMode, scope);
    hide OfficeCutFor;
    if !rule.scored || office.unknown {
      return [];
    }
    if OfficeCutSuppressed(l, workMode, scope) {
      return [];
    }
    out := [];
    var codes := Clean(office.countries);
    for i := 0 to |codes|
      invariant out == OfficeMisses(l, rule, office.quote, codes[..i])
    {
      assert codes[..i + 1][..i] == codes[..i];
      if MissesAllowLists(l, codes[i], Clean(rule.allowCountries), Clean(rule.allowRegions)) {
        out := out + [Cut("office", office.quote, codes[i])];
      }
    }
    assert codes[..|codes|] == codes;
    var first := out;
    var more := Clean(office.regions);
    for i := 0 to |more|
      invariant out == first + OfficeMisses(l, rule, office.quote, more[..i])
    {
      assert more[..i + 1][..i] == more[..i];
      if MissesAllowLists(l, more[i], Clean(rule.allowCountries), Clean(rule.allowRegions)) {
        out := out + [Cut("office", office.quote, more[i])];
      }
    }
    assert more[..|more|] == more;
  }

  method WorkAuthCutSignals(l: Letters, rule: GateRule, auth: WorkAuth, countries: seq<string>, regions: seq<string>)
    returns (out: seq<Signal>)
    ensures out ==
      if AuthCutFires(l, rule, auth, countries, regions) then [Cut("work_authorization", auth.quote, Trim(auth.value))] else []
  {
    hide Unknown, Gated, MissesAllowLists, Clean, Trim;
    if !rule.scored || Unknown(l, auth.value) {
      return [];
    }
    var value := Trim(auth.value);
    var gated := InGates(l, rule.gates, value);
    if !gated {
      return [];
    }
    var codes := Clean(auth.countries);
    if |codes| == 0 {
      return [];
    }
    var allMiss := AllMiss(l, codes, Clean(countries), Clean(regions));
    return if allMiss then [Cut("work_authorization", auth.quote, value)] else [];
  }

  method InGates(l: Letters, gates: seq<string>, value: string) returns (gated: bool)
    ensures gated == Gated(l, gates, value)
  {
    for i := 0 to |gates|
      invariant forall k :: 0 <= k < i ==> !EqualFold(l, Trim(gates[k]), value)
    {
      if EqualFold(l, Trim(gates[i]), value) {
        return true;
      }
    }
    return false;
  }

  method AllMiss(l: Letters, codes: seq<string>, countries: seq<string>, regions: seq<string>) returns (r: bool)
    ensures r <==> forall i :: 0 <= i < |codes| ==> MissesAllowLists(l, codes[i], countries, regions)
  {
    for i := 0 to |codes|
      invariant forall k :: 0 <= k < i ==> MissesAllowLists(l, codes[k], countries, regions)
    {
      if !MissesAllowLists(l, codes[i], countries, regions) {
        return false;
      }
    }
    return true;
  }
}
