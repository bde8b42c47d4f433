/**
 Finding the row of a company that an aggregator shows, and merging the sighting
 into it: never a second row for a known company, never another key.
 */
module CompanyIdentity {
  import opened Prelude
  import opened Text
  import opened KeyedList
  import opened TextLists
  import opened CompanyKeys
  import opened CompanyTable
  import JobTable

  datatype Sighting = Sighting(name: string, website: string, applyURL: string)

  /** Everything the lookup goes by. */
  datatype Forms = Forms(birth: string, name: string, domain: string, website: string)

  datatype Found = Found(key: string, otherForm: string)

  datatype Decision = Decision(blocked: bool, needsReview: bool)

  /** The two normalizations and the blocklist, which this model leaves open. */
  datatype Rules = Rules(lower: string -> string, host: string -> string, blocklist: (string, string) -> Decision)

  /** ChooseKey and the forms beside it. */
  function FormsOf(rules: Rules, name: string, website: string): Forms {
    var n, d := NormalizeName(rules.lower, name), NormalizeDomain(rules.host, website);
    Forms(if d != "" then d else n, n, d, Trim(website))
  }

  function TryKeys(f: Forms): seq<string> {
    Dedup(Same, Clean([f.birth, f.name, f.domain]))
  }

  /** The first of the forms that is a key. */
  function KeyHit(rows: Companies, forms: seq<string>): Option<string> {
    if forms == [] then None else if forms[0] in rows then Some(forms[0]) else KeyHit(rows, forms[1..])
  }

  /** The first of the forms that is somebody's alias, and whose. */
  ghost function AliasHit(rows: Companies, forms: seq<string>): Option<Found> {
    if forms == [] then None
    else if AliasKeys(rows, forms[0]) != {} then Some(Found(First(AliasKeys(rows, forms[0])), forms[0]))
    else AliasHit(rows, forms[1..])
  }

  ghost function WebsiteHit(rows: Companies, f: Forms): Result<Option<Found>, Fault> {
    if f.website == "" then Ok(None)
    else if WebsiteKeys(rows, f.website) != {} then
      var k := First(WebsiteKeys(rows, f.website));
      Ok(Some(Found(k, if f.birth == k then f.name else f.birth)))
    else if f.domain == "" || f.domain == f.website then Ok(None)
    else if Blank(f.domain) then Err(WebsiteRequired)
    else if WebsiteKeys(rows, Trim(f.domain)) != {} then Ok(Some(Found(First(WebsiteKeys(rows, Trim(f.domain))), f.birth)))
    else Ok(None)
  }

  /** lookupExisting: by key, then by website, then by alias. */
  ghost function Lookup(rows: Companies, f: Forms): Result<Option<Found>, Fault> {
    match KeyHit(rows, TryKeys(f))
    case Some(k) => Ok(Some(Found(k, if f.birth != k then f.birth else if f.name != k then f.name else "")))
    case None =>
      match WebsiteHit(rows, f)
      case Err(e) => Err(e)
      case Ok(Some(found)) => Ok(Some(found))
      case Ok(None) => Ok(AliasHit(rows, TryKeys(f)))
  }

  function AppendAlias(aliases: seq<string>, form: string): seq<string> {
    if Blank(form) || Trim(form) in aliases then aliases else aliases + [Trim(form)]
  }

  /** mergeAggregatorSighting. */
  function WithSighting(c: Company, name: string, s: Sighting, otherForm: string, needsReview: bool, now: int): Company {
    c.(lastSeen := now,
       name := if name != "" then name else c.name,
       website := if c.website == "" && !Blank(s.website) then Trim(s.website) else c.website,
       aliases := if otherForm != "" && otherForm != c.key then AppendAlias(c.aliases, otherForm) else c.aliases,
       needsReview := c.needsReview || needsReview,
       pollState := Active,
       emptyStreak := if c.pollState == Inactive then 0 else c.emptyStreak,
       boardURL := if c.boardURL == "" && !Blank(s.applyURL) && (c.status == Pending || c.status == Unresolved)
                   then Trim(s.applyURL) else c.boardURL)
  }

  /** newPendingCompany, with the name form among the aliases when the key is another form. */
  function Newborn(f: Forms, name: string, s: Sighting, needsReview: bool, now: int): Company {
    Company(f.birth, name, if f.name != "" && f.name != f.birth then AppendAlias([], f.name) else [],
            Trim(s.website), NoATS, "", Trim(s.applyURL), "", Pending, NoMethod, Active, None, now, now, None, 0, 0,
            needsReview)
  }

  datatype SightResult = Blocked | Merges(key: string) | Creates(key: string)

  datatype Sighted = Sighted(rows: Companies, result: Result<SightResult, Fault>)

  /** UpsertFromAggregator on the rows. */
  ghost function Sight(rules: Rules, rows: Companies, s: Sighting, now: int): Sighted {
    var name := Trim(s.name);
    var f := FormsOf(rules, name, s.website);
    var decision := rules.blocklist(f.name, f.domain);
    if name == "" then Sighted(rows, Err(NameRequired))
    else if decision.blocked then Sighted(rows, Ok(Blocked))
    else match Lookup(rows, f)
         case Err(e) => Sighted(rows, Err(e))
         case Ok(Some(found)) =>
           if found.key !in rows then Sighted(rows, Err(NotFound))
           else if rows[found.key].key == "" then Sighted(rows, Err(KeyRequired))
           else Sighted(Upserted(rows, WithSighting(rows[found.key], name, s, found.otherForm, decision.needsReview, now)),
                        Ok(Merges(found.key)))
         case Ok(None) =>
           if f.birth == "" then Sighted(rows, Err(KeyRequired))
           else Sighted(Upserted(rows, Newborn(f, name, s, decision.needsReview, now)), Ok(Creates(f.birth)))
  }

  /** The jobs after the ones with the company's key or one of its aliases are linked to it. */
  function LinkedRows(rows: JobTable.Rows, c: Company, now: int): JobTable.Rows {
    JobTable.BackfilledRows(rows, c.key, Clean([c.key] + c.aliases), now)
  }

  /** The jobs after a sighting: the ones of the row it left behind are linked. */
  function JobsAfter(jobs: JobTable.Rows, rows: Companies, r: Result<SightResult, Fault>, now: int): JobTable.Rows {
    if r.Ok? && !r.value.Blocked? && r.value.key in rows then LinkedRows(jobs, rows[r.value.key], now) else jobs
  }

  lemma SameKeysLink(rows: JobTable.Rows, key: string, keys: seq<string>, now: int)
    ensures JobTable.BackfilledRows(rows, key, Clean(Dedup(Same, Clean(keys))), now)
      == JobTable.BackfilledRows(rows, key, Clean(keys), now)
  {
    CleanIsClean(keys);
    DedupKeys(Same, Clean(keys));
    CleanKeys(Clean(keys), Dedup(Same, Clean(keys)));
    CleanFixed(Dedup(Same, Clean(keys)));
    SameMembers(Clean(keys));
  }

  lemma {:induction false} KeyHitSound(rows: Companies, forms: seq<string>)
    ensures match KeyHit(rows, forms)
      case Some(k) => k in rows && k in forms
      case None => forall i :: 0 <= i < |forms| ==> forms[i] !in rows
    decreases |forms|
  {
    if forms == [] || forms[0] in rows {
    } else {
      KeyHitSound(rows, forms[1..]);
    }
  }

  lemma {:induction false} AliasHitSound(rows: Companies, forms: seq<string>)
    ensures match AliasHit(rows, forms)
      case Some(found) => found.key in rows && found.otherForm in forms && found.otherForm in rows[found.key].aliases
      case None => forall i :: 0 <= i < |forms| ==> AliasKeys(rows, forms[i]) == {}
    decreases |forms|
  {
    if forms == [] || AliasKeys(rows, forms[0]) != {} {
    } else {
      AliasHitSound(rows, forms[1..]);
    }
  }

  /** What the lookup finds is a row. */
  lemma LookupSound(rows: Companies, f: Forms)
    ensures var r := Lookup(rows, f); r.Ok? && r.value.Some? ==> r.value.value.key in rows
  {
    KeyHitSound(rows, TryKeys(f));
    AliasHitSound(rows, TryKeys(f));
  }

  lemma TryKeysClean(f: Forms)
    ensures AllClean(TryKeys(f))
    ensures forall k :: k in TryKeys(f) <==> k != "" && (k == Trim(f.birth) || k == Trim(f.name) || k == Trim(f.domain))
  {
    var raw := [f.birth, f.name, f.domain];
    CleanIsClean(raw);
    SameMembers(Clean(raw));
    DedupKeys(Same, Clean(raw));
    CleanKeys(Clean(raw), TryKeys(f));
    forall k ensures k in TryKeys(f) <==>
      k != "" && (k == Trim(f.birth) || k == Trim(f.name) || k == Trim(f.domain))
    {
      CleanMember(raw, k);
      assert f.birth in raw && f.name in raw && f.domain in raw;
    }
  }

  /** The aggregator path over the companies table, and the jobs table where there is one. */
  class Discovery {
    const rules: Rules
    const table: CompanyRepository
    const jobs: JobTable.JobRepository?

    constructor (rules: Rules, table: CompanyRepository, jobs: JobTable.JobRepository?)
      ensures this.rules == rules && this.table == table && this.jobs == jobs
    {
      this.rules := rules;
      this.table := table;
      this.jobs := jobs;
    }

    method LookupByKey(forms: seq<string>) returns (r: Option<Company>)
      requires Valid(table.rows) && AllClean(forms)
      ensures match KeyHit(table.rows, forms)
        case Some(k) => k in table.rows && r == Some(table.rows[k])
        case None => r == None
    {
      for i := 0 to |forms|
        invariant KeyHit(table.rows, forms) == KeyHit(table.rows, forms[i..])
      {
        var c := table.GetByKey(forms[i]);
        if c.Ok? {
          return Some(c.value);
        }
        assert forms[i..][1..] == forms[i + 1..];
      }
      return None;
    }

    method LookupByAlias(forms: seq<string>) returns (r: Option<(Company, string)>)
      requires Valid(table.rows) && AllClean(forms)
      ensures match AliasHit(table.rows, forms)
        case Some(found) => found.key in table.rows && r == Some((table.rows[found.key], found.otherForm))
        case None => r == None
    {
      for i := 0 to |forms|
        invariant AliasHit(table.rows, forms) == AliasHit(table.rows, forms[i..])
      {
        var c := table.FindByAlias(forms[i]);
        if c.Ok? {
          return Some((c.value, forms[i]));
        }
        assert forms[i..][1..] == forms[i + 1..];
      }
      return None;
    }

    method LookupByWebsite(f: Forms) returns (r: Result<Option<(Company, string)>, Fault>)
      requires Valid(table.rows) && Trim(f.website) == f.website
      ensures match WebsiteHit(table.rows, f)
        case Ok(Some(found)) => found.key in table.rows && r == Ok(Some((table.rows[found.key], found.otherForm)))
        case Ok(None) => r == Ok(None)
        case Err(e) => r == Err(e)
    {
      if f.website == "" {
        return Ok(None);
      }
      var c := table.FindByWebsite(f.website);
      if c.Ok? {
        var other := f.birth;
        if other == c.value.key {
          other := f.name;
        }
        return Ok(Some((c.value, other)));
      }
      if f.domain != "" && f.domain != f.website {
        c := table.FindByWebsite(f.domain);
        if c.Ok? {
          return Ok(Some((c.value, f.birth)));
        }
        if c.error != NotFound {
          return Err(c.error);
        }
      }
      return Ok(None);
    }

    method LookupExisting(f: Forms) returns (r: Result<Option<(Company, string)>, Fault>)
      requires Valid(table.rows) && Trim(f.website) == f.website
      ensures match Lookup(table.rows, f)
        case Ok(Some(found)) => found.key in table.rows && r == Ok(Some((table.rows[found.key], found.otherForm)))
        case Ok(None) => r == Ok(None)
        case Err(e) => r == Err(e)
    {
      var tryKeys := CollectTrimmed([f.birth, f.name, f.domain]);
      TryKeysClean(f);
      var byKey := LookupByKey(tryKeys);
      if byKey.Some? {
        var c, other := byKey.value, "";
        if f.birth != c.key {
          other := f.birth;
        } else if f.name != "" && f.name != c.key {
          other := f.name;
        }
        return Ok(Some((c, other)));
      }
      r := LookupByWebsite(f);
      if r.Err? || r.value.Some? {
        return;
      }
      var byAlias := LookupByAlias(tryKeys);
      r := Ok(byAlias);
    }

    /** `linkedAt` is the jobs table's own reading of the clock. */
    method UpsertFromAggregator(s: Sighting, now: int, linkedAt: int) returns (r: Result<SightResult, Fault>)
      requires Valid(table.rows)
      modifies table`rows, if jobs == null then {} else {jobs}
      ensures Sighted(table.rows, r) == Sight(rules, old(table.rows), s, now)
      ensures jobs != null ==> jobs.rows == JobsAfter(old(jobs.rows), table.rows, r, linkedAt)
    {
      hide Lookup, TryKeys, Trim, AppendAlias, Blank, Clean, NormalizeName, NormalizeDomain;
      var name := Trim(s.name);
      if name == "" {
        return Err(NameRequired);
      }
      var f := FormsOf(rules, name, s.website);
      var decision := rules.blocklist(f.name, f.domain);
      if decision.blocked {
        return Ok(Blocked);
      }
      TrimIsTrimmed(s.website);
      var existing := LookupExisting(f);
      if existing.Err? {
        return Err(existing.error);
      }
      if existing.value.Some? {
        var merged := MergeAggregatorSighting(existing.value.value.0, name, s, existing.value.value.1, decision.needsReview, now);
        var _ := table.Upsert(merged);
        Backfill(merged, linkedAt);
        return Ok(Merges(merged.key));
      }
      var created := Newborn(f, name, s, decision.needsReview, now);
      var done := table.Upsert(created);
      if done.Err? {
        return Err(done.error);
      }
      Backfill(created, linkedAt);
      return Ok(Creates(created.key));
    }

    /** backfillJobCompanyKeyRef. */
    method Backfill(c: Company, now: int)
      modifies if jobs == null then {} else {jobs}
      ensures jobs != null ==> jobs.rows == if c.key == "" then old(jobs.rows) else LinkedRows(old(jobs.rows), c, now)
    {
      if jobs == null || c.key == "" {
        return;
      }
      var contentKeys := CollectTrimmed([c.key] + c.aliases);
      SameKeysLink(jobs.rows, c.key, [c.key] + c.aliases, now);
      var _ := jobs.BackfillCompanyKeyRef(c.key, contentKeys, now);
    }

    method MergeAggregatorSighting(
        c: Company, name: string, s: Sighting, otherForm: string, needsReview: bool, now: int)
      returns (out: Company)
      ensures out == WithSighting(c, name, s, otherForm, needsReview, now)
    {
      hide Trim, AppendAlias;
      var newName, website, aliases := c.name, c.website, c.aliases;
      if name != "" {
        newName := name;
      }
      if website == "" && Trim(s.website) != "" {
        website := Trim(s.website);
      }
      if otherForm != "" && otherForm != c.key {
        aliases := AppendAlias(aliases, otherForm);
      }
      var pollState, emptyStreak, boardURL := c.pollState, c.emptyStreak, c.boardURL;
      if pollState == Inactive {
        pollState, emptyStreak := Active, 0;
      }
      if boardURL == "" && Trim(s.applyURL) != "" {
        if c.status == Pending || c.status == Unresolved {
          boardURL := Trim(s.applyURL);
        }
      }
      out := c.(lastSeen := now, name := newName, website := website, aliases := aliases,
                needsReview := c.needsReview || needsReview, pollState := pollState, emptyStreak := emptyStreak,
                boardURL := boardURL);
    }
  }

  /** Where the company of a sighting is, or is put. */
  function KeyOf(o: SightResult): Option<string> {
    match o
    case Blocked => None
    case Merges(key) => Some(key)
    case Creates(key) => Some(key)
  }

  /** A sighting keeps every row's key and first sighting, and adds at most the row it names. */
  lemma SightKeeps(rules: Rules, rows: Companies, s: Sighting, now: int)
    requires Valid(rows)
    ensures var after := Sight(rules, rows, s, now);
      && Valid(after.rows)
      && (forall k :: k in rows ==> k in after.rows && after.rows[k].firstSeen == rows[k].firstSeen)
      && (forall k :: k in after.rows && k !in rows ==> after.result == Ok(Creates(k)))
      && (after.result.Err? || after.result.value.Blocked? ==> after.rows == rows)
      && (after.result.Ok? && after.result.value.Merges? ==> after.rows.Keys == rows.Keys)
  {
    hide Lookup, FormsOf;
    var name := Trim(s.name);
    LookupSound(rows, FormsOf(rules, name, s.website));
  }

  lemma {:induction false} SameKeyHit(rows: Companies, after: Companies, forms: seq<string>)
    requires forall i :: 0 <= i < |forms| ==> (forms[i] in rows <==> forms[i] in after)
    ensures KeyHit(rows, forms) == KeyHit(after, forms)
    decreases |forms|
  {
    if forms == [] {
    } else {
      SameKeyHit(rows, after, forms[1..]);
    }
  }

  lemma {:induction false} SameAliasHit(rows: Companies, after: Companies, forms: seq<string>)
    requires forall i :: 0 <= i < |forms| ==> AliasKeys(rows, forms[i]) == AliasKeys(after, forms[i])
    ensures AliasHit(rows, forms) == AliasHit(after, forms)
    decreases |forms|
  {
    if forms == [] {
    } else {
      SameAliasHit(rows, after, forms[1..]);
    }
  }

  /** Found by key: the keys do not change, so it is found by key again. */
  lemma AgainByKey(rows: Companies, f: Forms, c: Company)
    requires KeyHit(rows, TryKeys(f)).Some? && c.key in rows
    ensures Lookup(Upserted(rows, c), f) == Lookup(rows, f)
  {
    SameKeyHit(rows, Upserted(rows, c), TryKeys(f));
  }

  /** Found by website: a website that is set is not changed, so the same rows have it. */
  lemma AgainByWebsite(rows: Companies, f: Forms, c: Company)
    requires KeyHit(rows, TryKeys(f)).None? && c.key in rows && c.website == rows[c.key].website
    requires WebsiteHit(rows, f).Ok? && WebsiteHit(rows, f).value.Some?
    ensures Lookup(Upserted(rows, c), f) == Lookup(rows, f)
  {
    var after := Upserted(rows, c);
    SameKeyHit(rows, after, TryKeys(f));
    forall w ensures WebsiteKeys(after, w) == WebsiteKeys(rows, w) {
    }
  }

  /** Found by alias: the row has the website now, or it still has the alias. */
  lemma AgainByAlias(rows: Companies, f: Forms, c: Company)
    requires KeyHit(rows, TryKeys(f)).None? && WebsiteHit(rows, f) == Ok(None) && c.key in rows
    requires c.aliases == rows[c.key].aliases
    requires c.website == if rows[c.key].website == "" then f.website else rows[c.key].website
    ensures var r := Lookup(Upserted(rows, c), f);
      r == Lookup(rows, f) || (r.Ok? && r.value.Some? && r.value.value.key == c.key)
  {
    var after := Upserted(rows, c);
    SameKeyHit(rows, after, TryKeys(f));
    forall a ensures AliasKeys(after, a) == AliasKeys(rows, a) {
    }
    SameAliasHit(rows, after, TryKeys(f));
    if rows[c.key].website == "" && f.website != "" {
      assert WebsiteKeys(after, f.website) == {c.key};
    } else {
      forall w | w != "" ensures WebsiteKeys(after, w) == WebsiteKeys(rows, w) {
      }
    }
  }

  /** Created with a website: it is found by key or by that website. */
  lemma AgainCreatedSite(rows: Companies, f: Forms, c: Company)
    requires KeyHit(rows, TryKeys(f)).None? && WebsiteHit(rows, f) == Ok(None)
    requires c.key == f.birth != "" && c.website == f.website != ""
    ensures var r := Lookup(Upserted(rows, c), f); r.Ok? && r.value.Some? && r.value.value.key == c.key
  {
    var after := Upserted(rows, c);
    KeyHitSound(rows, TryKeys(f));
    KeyHitSound(after, TryKeys(f));
    assert WebsiteKeys(after, f.website) == {c.key};
  }

  /** Created without a website: it is found by its key when that is trimmed, and otherwise not at all. */
  lemma AgainCreatedName(rows: Companies, f: Forms, c: Company)
    requires KeyHit(rows, TryKeys(f)).None? && AliasHit(rows, TryKeys(f)).None?
    requires c.key == f.birth == f.name != "" && f.website == "" && f.domain == "" && c.aliases == []
    ensures var r := Lookup(Upserted(rows, c), f);
      r.Ok? && (if IsTrimmed(f.birth) then r.value.Some? && r.value.value.key == c.key else r.value.None?)
  {
    var after := Upserted(rows, c);
    BirthOnly(f);
    KeyHitSound(rows, TryKeys(f));
    KeyHitSound(after, TryKeys(f));
    AliasHitSound(rows, TryKeys(f));
    if IsTrimmed(f.birth) {
      assert f.birth in TryKeys(f);
      var i :| 0 <= i < |TryKeys(f)| && TryKeys(f)[i] == f.birth;
    } else {
      forall i | 0 <= i < |TryKeys(f)| ensures AliasKeys(after, TryKeys(f)[i]) == AliasKeys(rows, TryKeys(f)[i]) {
        assert AliasKeys(rows, TryKeys(f)[i]) == {};
        assert forall k :: k in AliasKeys(after, TryKeys(f)[i]) ==> k in AliasKeys(rows, TryKeys(f)[i]);
      }
      SameAliasHit(rows, after, TryKeys(f));
    }
  }

  lemma BirthOnly(f: Forms)
    requires f.birth == f.name && f.domain == ""
    ensures forall k :: k in TryKeys(f) <==> k != "" && k == Trim(f.birth)
    ensures Trim(f.birth) == f.birth <==> IsTrimmed(f.birth)
  {
    TryKeysClean(f);
    TrimIsTrimmed(f.birth);
    assert Trim("") == "";
  }

  /** A merge keeps the aliases when the other form is one of them already. */
  lemma KnownAlias(c: Company, form: string)
    requires form in c.aliases && Trim(form) == form
    ensures AppendAlias(c.aliases, form) == c.aliases
  {
  }

  lemma LookupAgain(rows: Companies, f: Forms, c: Company, name: string, s: Sighting, needsReview: bool, now: int)
    requires Valid(rows) && f.website == Trim(s.website)
    requires var r := Lookup(rows, f);
      r.Ok? && r.value.Some? && r.value.value.key in rows
      && c == WithSighting(rows[r.value.value.key], name, s, r.value.value.otherForm, needsReview, now)
    ensures var r := Lookup(Upserted(rows, c), f);
      r.Ok? && r.value.Some? && r.value.value.key == Lookup(rows, f).value.value.key
  {
    hide TryKeys, AliasKeys;
    var found := Lookup(rows, f).value.value;
    if KeyHit(rows, TryKeys(f)).Some? {
      AgainByKey(rows, f, c);
    } else if WebsiteHit(rows, f).value.Some? {
      WebsiteHitSet(rows, f);
      AgainByWebsite(rows, f, c);
    } else {
      AliasHitSound(rows, TryKeys(f));
      TryKeysClean(f);
      assert found.otherForm in TryKeys(f);
      AllCleanMember(TryKeys(f), found.otherForm);
      KnownAlias(rows[found.key], found.otherForm);
      AgainByAlias(rows, f, c);
    }
  }

  lemma AllCleanMember(ss: seq<string>, s: string)
    requires AllClean(ss) && s in ss
    ensures Trim(s) == s != ""
  {
  }

  /** A row found by its website has one. */
  lemma WebsiteHitSet(rows: Companies, f: Forms)
    requires WebsiteHit(rows, f).Ok? && WebsiteHit(rows, f).value.Some?
    ensures var k := WebsiteHit(rows, f).value.value.key; k in rows && rows[k].website != ""
  {
  }

  /**
   Two sightings of the same company in a row: the second goes to the same key
   and adds no row, whatever the table holds. It merges, except where the first
   one created a row that no lookup finds again: no website, and a name that
   normalizes to something with a blank at an end. That row is written over.
   */
  lemma SightedTwice(rules: Rules, rows: Companies, s: Sighting, now: int, later: int)
    requires Valid(rows)
    requires var a := Sight(rules, rows, s, now); a.result.Ok? && !a.result.value.Blocked?
    ensures var a := Sight(rules, rows, s, now);
      var b := Sight(rules, a.rows, s, later);
      && b.result.Ok? && KeyOf(b.result.value) == KeyOf(a.result.value)
      && b.rows.Keys == a.rows.Keys
      && (b.result.value.Creates? <==>
          a.result.value.Creates? && Blank(s.website) && !IsTrimmed(NormalizeName(rules.lower, Trim(s.name))))
  {
    hide Lookup, TryKeys, NormalizeName, NormalizeDomain;
    var name := Trim(s.name);
    var f := FormsOf(rules, name, s.website);
    var decision := rules.blocklist(f.name, f.domain);
    var a := Sight(rules, rows, s, now);
    LookupSound(rows, f);
    LookupSound(a.rows, f);
    if a.result.value.Merges? {
      var found := Lookup(rows, f).value.value;
      var c := WithSighting(rows[found.key], name, s, found.otherForm, decision.needsReview, now);
      LookupAgain(rows, f, c, name, s, decision.needsReview, now);
    } else {
      CreatedAgain(rules, rows, s, now);
      assert f.name == NormalizeName(rules.lower, name);
    }
  }

  lemma CreatedAgain(rules: Rules, rows: Companies, s: Sighting, now: int)
    requires var a := Sight(rules, rows, s, now); a.result.Ok? && a.result.value.Creates?
    ensures var f := FormsOf(rules, Trim(s.name), s.website);
      var r := Lookup(Sight(rules, rows, s, now).rows, f);
      && r.Ok? && (r.value.Some? ==> r.value.value.key == f.birth)
      && (r.value.None? <==> !IsTrimmed(f.birth) && f.website == "")
      && (f.website == "" ==> f.birth == f.name)
  {
    hide NormalizeName;
    var f := FormsOf(rules, Trim(s.name), s.website);
    var c := Newborn(f, Trim(s.name), s, rules.blocklist(f.name, f.domain).needsReview, now);
    TrimIsTrimmed(s.website);
    if f.website != "" {
      AgainCreatedSite(rows, f, c);
    } else {
      AgainCreatedName(rows, f, c);
    }
  }

  predicate NoRepeats(aliases: seq<string>) {
    forall i, j :: 0 <= i < j < |aliases| ==> aliases[i] != aliases[j]
  }

  ghost predicate AliasesDistinct(rows: Companies) {
    forall k :: k in rows ==> NoRepeats(rows[k].aliases)
  }

  /** The other form differs from the key only by white space at its ends. */
  predicate NamesItself(key: string, otherForm: string) {
    otherForm != key && Trim(otherForm) == key
  }

  lemma AppendKeeps(aliases: seq<string>, form: string, key: string)
    ensures NoRepeats(aliases) ==> NoRepeats(AppendAlias(aliases, form))
    ensures key != "" ==> (key in AppendAlias(aliases, form) <==> key in aliases || Trim(form) == key)
  {
  }

  /** A sighting never repeats an alias. */
  lemma SightKeepsAliasesDistinct(rules: Rules, rows: Companies, s: Sighting, now: int)
    requires Valid(rows) && AliasesDistinct(rows)
    ensures AliasesDistinct(Sight(rules, rows, s, now).rows)
  {
    hide Lookup, FormsOf, AppendAlias;
    var f := FormsOf(rules, Trim(s.name), s.website);
    LookupSound(rows, f);
    AppendKeeps([], f.name, "");
    var r := Lookup(rows, f);
    if r.Ok? && r.value.Some? {
      AppendKeeps(rows[r.value.value.key].aliases, r.value.value.otherForm, "");
    }
  }

  /**
   The alias list of the sighted company holds its own key exactly when it did
   before, or the form appended is the key with white space at an end.
   */
  lemma OwnAliasIff(rules: Rules, rows: Companies, s: Sighting, now: int)
    requires Valid(rows)
    ensures var after := Sight(rules, rows, s, now);
      var f := FormsOf(rules, Trim(s.name), s.website);
      after.result.Ok? ==>
        match after.result.value
        case Blocked => after.rows == rows
        case Creates(k) => k in after.rows && (k in after.rows[k].aliases <==> NamesItself(k, f.name))
        case Merges(k) => (
          && k in rows && k in after.rows && Lookup(rows, f).Ok? && Lookup(rows, f).value.Some?
          && (k in after.rows[k].aliases <==> k in rows[k].aliases || NamesItself(k, Lookup(rows, f).value.value.otherForm)))
  {
    hide Lookup, FormsOf, AppendAlias;
    var f := FormsOf(rules, Trim(s.name), s.website);
    LookupSound(rows, f);
    AppendKeeps([], f.name, f.birth);
    assert Trim("") == "";
    var r := Lookup(rows, f);
    if r.Ok? && r.value.Some? {
      var found := r.value.value;
      AppendKeeps(rows[found.key].aliases, found.otherForm, found.key);
    }
  }

  /** When the two forms of the sighting have no white space at their ends, no alias list gains its own key. */
  lemma TrimmedFormsGainNoOwnAlias(rules: Rules, rows: Companies, s: Sighting, now: int, k: string)
    requires Valid(rows)
    requires var f := FormsOf(rules, Trim(s.name), s.website); IsTrimmed(f.birth) && IsTrimmed(f.name)
    requires k in Sight(rules, rows, s, now).rows && k in Sight(rules, rows, s, now).rows[k].aliases
    ensures k in rows && k in rows[k].aliases
  {
    hide Lookup, FormsOf, AppendAlias, WithSighting, Newborn;
    var f := FormsOf(rules, Trim(s.name), s.website);
    OwnAliasIff(rules, rows, s, now);
    TrimIsTrimmed(f.birth);
    TrimIsTrimmed(f.name);
    if Lookup(rows, f).Ok? && Lookup(rows, f).value.Some? {
      OtherFormTrimmed(rows, f);
    }
    SightTouchesOne(rules, rows, s, now, k);
  }

  lemma OtherFormTrimmed(rows: Companies, f: Forms)
    requires IsTrimmed(f.birth) && IsTrimmed(f.name)
    requires Lookup(rows, f).Ok? && Lookup(rows, f).value.Some?
    ensures var form := Lookup(rows, f).value.value.otherForm; Trim(form) == form
  {
    hide TryKeys;
    TrimIsTrimmed(f.birth);
    TrimIsTrimmed(f.name);
    TrimIsTrimmed("");
    AliasHitSound(rows, TryKeys(f));
    TryKeysClean(f);
    if KeyHit(rows, TryKeys(f)).None? && WebsiteHit(rows, f) == Ok(None) {
      AllCleanMember(TryKeys(f), Lookup(rows, f).value.value.otherForm);
    }
  }

  lemma SightTouchesOne(rules: Rules, rows: Companies, s: Sighting, now: int, k: string)
    requires Valid(rows)
    ensures var after := Sight(rules, rows, s, now);
      after.result.Err? || KeyOf(after.result.value) != Some(k) ==>
        (k in after.rows <==> k in rows) && (k in rows ==> after.rows[k] == rows[k])
  {
    hide Lookup, FormsOf;
    LookupSound(rows, FormsOf(rules, Trim(s.name), s.website));
  }

  /** The name "foo ..." with the website "foo" makes a company whose alias is its own key. */
  lemma OwnAliasWitness(rules: Rules)
    requires rules.lower("foo ...") == "foo ..." && rules.host("foo") == "foo"
    requires !rules.blocklist("foo ", "foo").blocked
    ensures var after := Sight(rules, map[], Sighting("foo ...", "foo", ""), 0);
      after.result == Ok(Creates("foo")) && "foo" in after.rows && after.rows["foo"].aliases == ["foo"]
  {
    hide NormalizeName, TryKeys;
    assert "foo" + " " + "..." == "foo ...";
    TwoWordsTrimmed("foo", "...");
    UntrimmedName(rules.lower);
    WordTrimmed("foo");
    var f := FormsOf(rules, "foo ...", "foo");
    assert f == Forms("foo", "foo ", "foo", "foo");
    KeyHitSound(map[], TryKeys(f));
    AliasHitSound(map[], TryKeys(f));
    assert Trim("foo ") == "foo" by {
      assert "foo "[..3] == "foo";
    }
  }

  lemma WordTrimmed(w: string)
    requires w != "" && IsWord(w)
    ensures Trim(w) == w
  {
    TrimIsTrimmed(w);
  }
}
