/**
 What each event leaves in the columns of a company, told from the row before it,
 what was read, and the clock.
 */
module CompanyColumns {
  import opened Prelude
  import opened Text
  import opened KeyedList
  import opened TextLists
  import opened CompanyKeys
  import opened CompanyTable
  import opened CompanyIdentity
  import opened PollOutcomes
  import opened SeedImport

  /** The columns that only polls write. */
  predicate SamePoll(a: Company, b: Company) {
    a.lastPolledAt == b.lastPolledAt && a.etag == b.etag && a.failCount == b.failCount
  }

  /** The columns that a resolution writes, but for the board. */
  predicate SameResolution(a: Company, b: Company) {
    a.status == b.status && a.resolvedBy == b.resolvedBy && a.ats == b.ats && a.slug == b.slug && a.nextResolveAt == b.nextResolveAt
  }

  /** The aliases of before, and at most one form of the sighting behind them. */
  ghost predicate GainsForm(was: seq<string>, now: seq<string>, forms: seq<string>) {
    now == was || exists form :: form in forms && Trim(form) != "" && Trim(form) !in was && now == was + [Trim(form)]
  }

  /** The forms of a sighting: its domain and its name. */
  function SightingForms(rules: Rules, name: string, website: string): seq<string> {
    [NormalizeDomain(rules.host, website), NormalizeName(rules.lower, Trim(name))]
  }

  /** When a sighting is refused, and when it is skipped. */
  lemma SightAnswer(rules: Rules, rows: Companies, s: Sighting, now: int)
    requires CompanyTable.Valid(rows)
    ensures var r := Sight(rules, rows, s, now).result;
      var blocked := rules.blocklist(NormalizeName(rules.lower, Trim(s.name)), NormalizeDomain(rules.host, s.website)).blocked;
      && (r == Err(NameRequired) <==> Trim(s.name) == "")
      && (r == Ok(Blocked) <==> Trim(s.name) != "" && blocked)
      && ((r.Err? || r.value.Blocked?) ==> Sight(rules, rows, s, now).rows == rows)
  {
    hide Lookup, NormalizeName, NormalizeDomain, WithSighting, Newborn;
    LookupSound(rows, FormsOf(rules, Trim(s.name), s.website));
    LookupErrors(rows, FormsOf(rules, Trim(s.name), s.website));
  }

  lemma LookupErrors(rows: Companies, f: Forms)
    ensures Lookup(rows, f).Err? ==> Lookup(rows, f).error == WebsiteRequired
  {
    hide AliasHit, KeyHit, TryKeys;
  }

  /**
   A sighting that merges into a company wakes it and clears the streak of an
   INACTIVE one. It fills an empty website, and an empty board of a company whose
   board is not known yet. Polls, resolution and first sighting stay.
   */
  lemma MergedColumns(rules: Rules, rows: Companies, s: Sighting, now: int, k: string)
    requires CompanyTable.Valid(rows) && Sight(rules, rows, s, now).result == Ok(Merges(k))
    ensures var after := Sight(rules, rows, s, now).rows;
      && after.Keys == rows.Keys && k in rows && (forall x :: x in rows && x != k ==> after[x] == rows[x])
      && var was, got := rows[k], after[k];
         && got.pollState == Active && got.lastSeen == now && got.name == Trim(s.name) && got.firstSeen == was.firstSeen
         && got.emptyStreak == (if was.pollState == Inactive then 0 else was.emptyStreak)
         && got.website == (if was.website == "" then Trim(s.website) else was.website)
         && got.boardURL == (if was.boardURL == "" && (was.status == Pending || was.status == Unresolved)
                            then Trim(s.applyURL) else was.boardURL)
         && SamePoll(was, got) && SameResolution(was, got)
         && got.needsReview ==
            (was.needsReview
             || rules.blocklist(NormalizeName(rules.lower, Trim(s.name)), NormalizeDomain(rules.host, s.website)).needsReview)
  {
    hide Lookup, NormalizeName, NormalizeDomain, AppendAlias, Newborn;
    LookupSound(rows, FormsOf(rules, Trim(s.name), s.website));
  }

  /** It adds at most one form to the aliases. */
  lemma MergedAliases(rules: Rules, rows: Companies, s: Sighting, now: int, k: string)
    requires CompanyTable.Valid(rows) && Sight(rules, rows, s, now).result == Ok(Merges(k))
    ensures k in rows && k in Sight(rules, rows, s, now).rows
    ensures GainsForm(rows[k].aliases, Sight(rules, rows, s, now).rows[k].aliases, SightingForms(rules, s.name, s.website))
  {
    hide Lookup, TryKeys, NormalizeName, NormalizeDomain, Newborn, GainsForm;
    var name := Trim(s.name);
    var f := FormsOf(rules, name, s.website);
    LookupSound(rows, f);
    OtherForm(rows, f, SightingForms(rules, s.name, s.website));
    Gains(rows[k].aliases, Lookup(rows, f).value.value.otherForm, SightingForms(rules, s.name, s.website));
    SameAliases(rows[k].aliases, SightingForms(rules, s.name, s.website));
  }

  /** The form that a lookup finds beside the key is one of the sighting, none, or an alias that is there. */
  lemma OtherForm(rows: Companies, f: Forms, forms: seq<string>)
    requires f.name in forms && (f.birth == "" || f.birth in forms)
    ensures var r := Lookup(rows, f); r.Ok? && r.value.Some? ==>
      var form := r.value.value.otherForm;
      form == "" || form in forms || (r.value.value.key in rows && form in rows[r.value.value.key].aliases && Trim(form) == form)
  {
    hide TryKeys, Trim;
    AliasHitSound(rows, TryKeys(f));
    TryKeysClean(f);
  }

  lemma Gains(aliases: seq<string>, form: string, forms: seq<string>)
    requires form == "" || form in forms || (form in aliases && Trim(form) == form)
    ensures GainsForm(aliases, AppendAlias(aliases, form), forms)
  {
  }

  lemma SameAliases(aliases: seq<string>, forms: seq<string>)
    ensures GainsForm(aliases, aliases, forms)
  {
  }

  /** A sighting that creates a company leaves a PENDING, ACTIVE one; written over an old row it keeps its first sighting. */
  lemma CreatedColumns(rules: Rules, rows: Companies, s: Sighting, now: int, k: string)
    requires CompanyTable.Valid(rows) && Sight(rules, rows, s, now).result == Ok(Creates(k))
    ensures var after := Sight(rules, rows, s, now).rows;
      var name, domain := NormalizeName(rules.lower, Trim(s.name)), NormalizeDomain(rules.host, s.website);
      && k == (if domain != "" then domain else name) && after.Keys == rows.Keys + {k}
      && (forall x :: x in rows && x != k ==> after[x] == rows[x])
      && var got := after[k];
         && got.pollState == Active && got.status == Pending && got.lastSeen == now && got.name == Trim(s.name)
         && got.firstSeen == (if k in rows then rows[k].firstSeen else now)
         && got.emptyStreak == 0 && got.failCount == 0 && got.lastPolledAt == None && got.etag == "" && got.slug == ""
         && got.ats == NoATS && got.nextResolveAt == None
         && got.website == Trim(s.website) && got.boardURL == Trim(s.applyURL)
         && got.aliases == (if name != "" && name != k && Trim(name) != "" then [Trim(name)] else [])
         && got.needsReview == rules.blocklist(name, domain).needsReview
  {
    hide Lookup, NormalizeName, NormalizeDomain, Trim, WithSighting;
    LookupSound(rows, FormsOf(rules, Trim(s.name), s.website));
  }

  /** The pollable board that a cell of the seed sheet names. */
  predicate NamesBoard(cell: string, ats: ATS) {
    (cell == "greenhouse" && ats == Greenhouse) || (cell == "lever" && ats == Lever) || (cell == "ashby" && ats == Ashby)
  }

  predicate NamesSomeBoard(cell: string) {
    cell == "greenhouse" || cell == "lever" || cell == "ashby"
  }

  /** The address of a company on such a board. */
  predicate AddressOn(ats: ATS, slug: string, url: string) {
    || (ats == Greenhouse && url == "https://boards.greenhouse.io/" + slug)
    || (ats == Lever && url == "https://jobs.lever.co/" + slug)
    || (ats == Ashby && url == "https://jobs.ashbyhq.com/" + slug)
  }

  predicate NamesForeign(cell: string) {
    || cell == "workday" || cell == "teamtailor" || cell == "workable" || cell == "recruitee" || cell == "personio"
    || cell == "rippling" || cell == "smartrecruiters"
  }

  predicate NamesNone(cell: string) {
    cell == "custom" || cell == "unknown" || cell == "none" || cell == "notion" || cell == ""
  }

  /** What a seed row makes of the board columns, whatever was there. */
  ghost predicate BoardFromSeed(row: SeedRow, c: Company) {
    var hint, slug := Trim(row.vacanciesURL), Trim(row.slug);
    && c.nextResolveAt == None
    && (if NamesSomeBoard(row.cell) && slug != "" && row.verified.Ok? && row.verified.value != DeadSlug then
          && c.status == Resolved && c.resolvedBy == Seed && NamesBoard(row.cell, c.ats) && c.slug == slug
          && (if hint != "" then c.boardURL == hint else AddressOn(c.ats, slug, c.boardURL))
        else
          && c.slug == "" && c.boardURL == hint
          && if NamesSomeBoard(row.cell) || NamesNone(row.cell)
             then c.status == Pending && c.resolvedBy == NoMethod && c.ats == NoATS
             else
               && c.status == UnsupportedATS && c.resolvedBy == Seed
               && c.ats == OtherATS(if NamesForeign(row.cell) then row.cell else "other"))
  }

  /** A seed row wakes the company it merges into, keeps its polls, and replaces its board columns. */
  lemma ImportedColumns(rules: Rules, rows: Companies, row: SeedRow, now: int, k: string)
    requires CompanyTable.Valid(rows) && ImportRow(rules, rows, row, now).fault.None?
    requires var one := ImportRow(rules, rows, row, now); k in one.rows && (k in rows ==> one.rows[k] != rows[k])
    ensures var got := ImportRow(rules, rows, row, now).rows[k];
      && got.pollState == Active && got.lastSeen == now && got.name == Trim(row.name) && BoardFromSeed(row, got)
      && (k in rows ==> got.firstSeen == rows[k].firstSeen)
      && (k in rows && ImportRow(rules, rows, row, now).tally.created == 0 ==>
            && SamePoll(rows[k], got)
            && got.emptyStreak == (if rows[k].pollState == Inactive then 0 else rows[k].emptyStreak)
            && got.website == (if rows[k].website == "" then Trim(row.website) else rows[k].website))
  {
    hide Lookup, FormsOf, WithSighting, Newborn, Seeded, BoardFromSeed, Trim, Upserted, SamePoll, ImportRow;
    var name := Trim(row.name);
    var f := FormsOf(rules, name, row.website);
    var review := rules.blocklist(f.name, f.domain).needsReview;
    ImportWrites(rules, rows, row, now);
    if ImportRow(rules, rows, row, now).tally.created == 0 {
      var at := Lookup(rows, f).value.value;
      SightingColumns(rows[at.key], name, SeedSighting(row), at.otherForm, review, now);
      SeededColumns(WithSighting(rows[at.key], name, SeedSighting(row), at.otherForm, review, now), row);
      UpsertedAt(rows, Seeded(WithSighting(rows[at.key], name, SeedSighting(row), at.otherForm, review, now), row), k, row);
      PollsOn(rows[at.key], WithSighting(rows[at.key], name, SeedSighting(row), at.otherForm, review, now),
              Seeded(WithSighting(rows[at.key], name, SeedSighting(row), at.otherForm, review, now), row),
              ImportRow(rules, rows, row, now).rows[k]);
    } else {
      BornColumns(f, name, SeedSighting(row), review, now);
      SeededColumns(Newborn(f, name, SeedSighting(row), review, now), row);
      UpsertedAt(rows, Seeded(Newborn(f, name, SeedSighting(row), review, now), row), k, row);
    }
  }

  /** What a seed row writes, if it writes. */
  lemma ImportWrites(rules: Rules, rows: Companies, row: SeedRow, now: int)
    requires CompanyTable.Valid(rows) && ImportRow(rules, rows, row, now).fault.None?
    requires ImportRow(rules, rows, row, now).rows != rows
    ensures var one := ImportRow(rules, rows, row, now);
      var name := Trim(row.name);
      var f := FormsOf(rules, name, row.website);
      var review := rules.blocklist(f.name, f.domain).needsReview;
      && name != "" && !VerifyFails(row) && Lookup(rows, f).Ok?
      && if one.tally.created == 0 then
           && Lookup(rows, f).value.Some? && Lookup(rows, f).value.value.key in rows
           && var at := Lookup(rows, f).value.value;
              one.rows == Upserted(rows, Seeded(WithSighting(rows[at.key], name, SeedSighting(row), at.otherForm, review, now), row))
         else one.rows == Upserted(rows, Seeded(Newborn(f, name, SeedSighting(row), review, now), row))
  {
    hide Lookup, FormsOf, WithSighting, Newborn, Seeded, Trim, Upserted, VerifyFails;
    LookupSound(rows, FormsOf(rules, Trim(row.name), row.website));
  }

  /** The row that an upsert changes or adds is the one it writes, but for the first sighting. */
  lemma UpsertedAt(rows: Companies, c: Company, k: string, row: SeedRow)
    requires CompanyTable.Valid(rows) && k in Upserted(rows, c) && (k in rows ==> Upserted(rows, c)[k] != rows[k])
    ensures k == c.key && Upserted(rows, c)[k] == c.(firstSeen := Upserted(rows, c)[k].firstSeen)
    ensures k in rows ==> Upserted(rows, c)[k].firstSeen == rows[k].firstSeen
    ensures BoardFromSeed(row, c) ==> BoardFromSeed(row, Upserted(rows, c)[k])
    ensures CompanyTable.Valid(rows) && k in rows ==> rows[k].key == k
  {
    hide BoardFromSeed;
    if BoardFromSeed(row, c) {
      BoardOnly(row, c, Upserted(rows, c)[k].firstSeen);
    }
  }

  lemma PollsOn(a: Company, b: Company, c: Company, d: Company)
    requires SamePoll(a, b) && SamePoll(b, c) && d == c.(firstSeen := d.firstSeen)
    ensures SamePoll(a, d)
  {
  }

  lemma BoardOnly(row: SeedRow, c: Company, firstSeen: int)
    requires BoardFromSeed(row, c)
    ensures BoardFromSeed(row, c.(firstSeen := firstSeen))
  {
  }

  lemma SightingColumns(c: Company, name: string, s: Sighting, otherForm: string, needsReview: bool, now: int)
    ensures var d := WithSighting(c, name, s, otherForm, needsReview, now);
      && d.key == c.key && d.firstSeen == c.firstSeen && d.pollState == Active && d.lastSeen == now
      && (name != "" ==> d.name == name) && SamePoll(c, d)
      && d.emptyStreak == (if c.pollState == Inactive then 0 else c.emptyStreak)
      && d.website == (if c.website == "" then Trim(s.website) else c.website)
  {
    hide Trim;
  }

  lemma BornColumns(f: Forms, name: string, s: Sighting, needsReview: bool, now: int)
    ensures var d := Newborn(f, name, s, needsReview, now);
      d.key == f.birth && d.name == name && d.pollState == Active && d.lastSeen == now
  {
  }

  lemma SeededColumns(c: Company, row: SeedRow)
    requires !VerifyFails(row)
    ensures var got := Seeded(c, row);
      && BoardFromSeed(row, got) && SamePoll(c, got)
      && got.key == c.key && got.name == c.name && got.firstSeen == c.firstSeen && got.lastSeen == c.lastSeen
      && got.emptyStreak == c.emptyStreak && got.pollState == c.pollState && got.website == c.website
  {
    hide Trim;
  }

  // Which company a sighting merges into.

  /** The least key of the companies with this website. */
  ghost predicate LeastWithWebsite(rows: Companies, website: string, k: string) {
    && k in rows && rows[k].website == website
    && forall x :: x in rows && rows[x].website == website ==> x == k || Less(k, x)
  }

  ghost predicate LeastWithAlias(rows: Companies, form: string, k: string) {
    && k in rows && form in rows[k].aliases
    && forall x :: x in rows && form in rows[x].aliases ==> x == k || Less(k, x)
  }

  ghost predicate SomeWebsite(rows: Companies, website: string) {
    exists k :: k in rows && rows[k].website == website
  }

  ghost predicate SomeAlias(rows: Companies, form: string) {
    exists k :: k in rows && form in rows[k].aliases
  }

  /** By alias: the first of the forms that is one. */
  ghost predicate FoundByAlias(rows: Companies, a: string, b: string, c: string, k: string) {
    if a != "" && SomeAlias(rows, a) then LeastWithAlias(rows, a, k)
    else if b != "" && SomeAlias(rows, b) then LeastWithAlias(rows, b, k)
    else c != "" && LeastWithAlias(rows, c, k)
  }

  /**
   The company of a sighting with the trimmed forms `a` (the key it would be born
   with), `b` (its name) and `c` (its domain): by key, in this order; else by its
   website; else by its domain as a website; else by alias.
   */
  ghost predicate FoundBy(rows: Companies, a: string, b: string, c: string, website: string, k: string) {
    if a in rows then k == a
    else if b in rows then k == b
    else if c in rows then k == c
    else if website != "" && SomeWebsite(rows, website) then LeastWithWebsite(rows, website, k)
    else if website != "" && c != "" && SomeWebsite(rows, c) then LeastWithWebsite(rows, c, k)
    else FoundByAlias(rows, a, b, c, k)
  }

  lemma {:induction false} KeyHitAppend(rows: Companies, forms: seq<string>, form: string)
    ensures KeyHit(rows, forms + [form]) ==
      if KeyHit(rows, forms).Some? then KeyHit(rows, forms) else if form in rows then Some(form) else None
    decreases |forms|
  {
    if forms == [] {
      assert forms + [form] == [form] && [form][1..] == [];
    } else {
      KeyHitAppend(rows, forms[1..], form);
      assert (forms + [form])[1..] == forms[1..] + [form];
    }
  }

  lemma {:induction false} AliasHitAppend(rows: Companies, forms: seq<string>, form: string)
    ensures AliasHit(rows, forms + [form]) ==
      if AliasHit(rows, forms).Some? then AliasHit(rows, forms)
      else if AliasKeys(rows, form) != {} then Some(Found(First(AliasKeys(rows, form)), form))
      else None
    decreases |forms|
  {
    hide AliasKeys;
    if forms == [] {
      assert forms + [form] == [form] && [form][1..] == [];
    } else {
      AliasHitAppend(rows, forms[1..], form);
      assert (forms + [form])[1..] == forms[1..] + [form];
    }
  }

  /** Repetitions have no say. */
  lemma {:induction false} HitsOfDistinct(rows: Companies, forms: seq<string>)
    ensures KeyHit(rows, Dedup(Same, forms)) == KeyHit(rows, forms)
    ensures AliasHit(rows, Dedup(Same, forms)) == AliasHit(rows, forms)
    decreases |forms|
  {
    hide AliasKeys;
    if forms == [] {
    } else {
      var n := |forms| - 1;
      var front, last := forms[..n], forms[n];
      HitsOfDistinct(rows, front);
      assert forms == front + [last];
      KeyHitAppend(rows, front, last);
      AliasHitAppend(rows, front, last);
      KeyHitAppend(rows, Dedup(Same, front), last);
      AliasHitAppend(rows, Dedup(Same, front), last);
      DedupKeys(Same, front);
      KeyHitSound(rows, front);
      AliasHitNone(rows, front);
      MemberKey(front, last);
    }
  }

  lemma {:induction false} AliasHitNone(rows: Companies, forms: seq<string>)
    ensures AliasHit(rows, forms).None? <==> forall i :: 0 <= i < |forms| ==> AliasKeys(rows, forms[i]) == {}
    decreases |forms|
  {
    hide AliasKeys;
    if forms == [] {
    } else {
      AliasHitNone(rows, forms[1..]);
      assert forall i :: 1 <= i < |forms| ==> forms[i] == forms[1..][i - 1];
    }
  }

  function One(form: string): seq<string> {
    if Trim(form) == "" then [] else [Trim(form)]
  }

  lemma CleanThree(a: string, b: string, c: string)
    ensures Clean([a, b, c]) == One(a) + One(b) + One(c)
  {
    hide Trim;
    assert [a, b, c][..2] == [a, b] && [a, b][..1] == [a] && [a][..0] == [];
    assert Clean([a]) == One(a);
    assert Clean([a, b]) == Clean([a]) + One(b);
    assert Clean([a, b, c]) == Clean([a, b]) + One(c);
  }

  /** What the three forms hit. */
  lemma FormsHit(rows: Companies, f: Forms)
    requires CompanyTable.Valid(rows)
    ensures var a, b, c := Trim(f.birth), Trim(f.name), Trim(f.domain);
      && KeyHit(rows, TryKeys(f)) == (if a in rows then Some(a) else if b in rows then Some(b) else if c in rows then Some(c) else None)
      && AliasHit(rows, TryKeys(f)) ==
         (if a != "" && AliasKeys(rows, a) != {} then Some(Found(First(AliasKeys(rows, a)), a))
          else if b != "" && AliasKeys(rows, b) != {} then Some(Found(First(AliasKeys(rows, b)), b))
          else if c != "" && AliasKeys(rows, c) != {} then Some(Found(First(AliasKeys(rows, c)), c))
          else None)
  {
    hide Trim, AliasKeys, Clean, Dedup;
    CleanThree(f.birth, f.name, f.domain);
    HitsOfDistinct(rows, Clean([f.birth, f.name, f.domain]));
    HitOne(rows, [], f.birth);
    HitOne(rows, [] + One(f.birth), f.name);
    HitOne(rows, [] + One(f.birth) + One(f.name), f.domain);
    assert [] + One(f.birth) == One(f.birth);
  }

  lemma HitOne(rows: Companies, forms: seq<string>, form: string)
    requires CompanyTable.Valid(rows)
    ensures KeyHit(rows, forms + One(form)) ==
      if KeyHit(rows, forms).Some? then KeyHit(rows, forms) else if Trim(form) in rows then Some(Trim(form)) else None
    ensures AliasHit(rows, forms + One(form)) ==
      if AliasHit(rows, forms).Some? then AliasHit(rows, forms)
      else if Trim(form) != "" && AliasKeys(rows, Trim(form)) != {} then Some(Found(First(AliasKeys(rows, Trim(form))), Trim(form)))
      else None
  {
    hide Trim, AliasKeys, KeyHit, AliasHit;
    if Trim(form) == "" {
      assert forms + One(form) == forms;
    } else {
      KeyHitAppend(rows, forms, Trim(form));
      AliasHitAppend(rows, forms, Trim(form));
    }
  }

  lemma FirstIsLeast(rows: Companies, form: string, website: string)
    ensures AliasKeys(rows, form) != {} <==> SomeAlias(rows, form)
    ensures AliasKeys(rows, form) != {} ==> LeastWithAlias(rows, form, First(AliasKeys(rows, form)))
    ensures WebsiteKeys(rows, website) != {} <==> SomeWebsite(rows, website)
    ensures WebsiteKeys(rows, website) != {} ==> LeastWithWebsite(rows, website, First(WebsiteKeys(rows, website)))
  {
    LessIsOrder();
    if k :| k in rows && form in rows[k].aliases {
      assert k in AliasKeys(rows, form);
    }
    if k :| k in rows && rows[k].website == website {
      assert k in WebsiteKeys(rows, website);
    }
  }

  /** What a lookup by name and website finds. */
  lemma LookupFinds(rules: Rules, rows: Companies, name: string, website: string, x: string)
    requires CompanyTable.Valid(rows) && Lookup(rows, FormsOf(rules, name, website)).Ok?
    ensures var found := Lookup(rows, FormsOf(rules, name, website)).value;
      var n, domain := NormalizeName(rules.lower, name), NormalizeDomain(rules.host, website);
      FoundBy(rows, Trim(if domain != "" then domain else n), Trim(n), Trim(domain), Trim(website), x)
      <==> found.Some? && found.value.key == x
  {
    hide Trim, NormalizeName, NormalizeDomain, TryKeys, WebsiteKeys, AliasKeys, SomeWebsite, SomeAlias, LeastWithWebsite, LeastWithAlias;
    hide KeyHit, AliasHit, First;
    var f := FormsOf(rules, name, website);
    FormsHit(rows, f);
    FirstIsLeast(rows, Trim(f.birth), Trim(website));
    FirstIsLeast(rows, Trim(f.name), f.domain);
    FirstIsLeast(rows, Trim(f.domain), Trim(f.domain));
    DomainTrims(rules, website);
    TrimIsTrimmed(website);
    OneLeast(rows, Trim(f.birth), Trim(website), x);
    OneLeast(rows, Trim(f.name), f.domain, x);
    OneLeast(rows, Trim(f.domain), Trim(f.domain), x);
  }

  /** A website that is blank has no domain. */
  lemma DomainTrims(rules: Rules, website: string)
    ensures Trim(website) == "" ==> NormalizeDomain(rules.host, website) == ""
    ensures Trim("") == ""
  {
  }

  /** There is one least key. */
  lemma OneLeast(rows: Companies, form: string, website: string, x: string)
    ensures LeastWithAlias(rows, form, x) ==> SomeAlias(rows, form)
    ensures LeastWithWebsite(rows, website, x) ==> SomeWebsite(rows, website)
    ensures forall k :: LeastWithAlias(rows, form, k) && LeastWithAlias(rows, form, x) ==> k == x
    ensures forall k :: LeastWithWebsite(rows, website, k) && LeastWithWebsite(rows, website, x) ==> k == x
  {
    hide Less;
    LessIsOrder();
  }

  /** The company a sighting merges into. */
  lemma MergedInto(rules: Rules, rows: Companies, s: Sighting, now: int, k: string)
    requires CompanyTable.Valid(rows) && Sight(rules, rows, s, now).result == Ok(Merges(k))
    ensures var name, domain := NormalizeName(rules.lower, Trim(s.name)), NormalizeDomain(rules.host, s.website);
      FoundBy(rows, Trim(if domain != "" then domain else name), Trim(name), Trim(domain), Trim(s.website), k)
  {
    hide Trim, FoundBy, Lookup, FormsOf, WithSighting, Newborn;
    LookupFinds(rules, rows, Trim(s.name), s.website, k);
  }

  /** A sighting creates a company only if none of these finds one. */
  lemma CreatedOnlyIfUnknown(rules: Rules, rows: Companies, s: Sighting, now: int, k: string, x: string)
    requires CompanyTable.Valid(rows) && Sight(rules, rows, s, now).result == Ok(Creates(k))
    ensures var name, domain := NormalizeName(rules.lower, Trim(s.name)), NormalizeDomain(rules.host, s.website);
      !FoundBy(rows, Trim(if domain != "" then domain else name), Trim(name), Trim(domain), Trim(s.website), x)
  {
    hide Trim, FoundBy, Lookup, FormsOf, WithSighting, Newborn;
    LookupFinds(rules, rows, Trim(s.name), s.website, x);
  }

  /** The seed row names a board that answered, and with something else than a dead slug. */
  predicate Verified(row: SeedRow) {
    NamesSomeBoard(row.cell) && Trim(row.slug) != "" && row.verified.Ok? && row.verified.value != DeadSlug
  }

  predicate Unanswered(row: SeedRow) {
    NamesSomeBoard(row.cell) && Trim(row.slug) != "" && row.verified.Err?
  }

  /**
   What a seed row does and how it is counted: skipped without a name, or blocked,
   or refused when its board does not answer; otherwise it is merged into the
   company its lookup finds, or creates one, and has the status of its board.
   */
  lemma ImportAnswer(rules: Rules, rows: Companies, row: SeedRow, now: int, x: string)
    requires CompanyTable.Valid(rows)
    ensures var one := ImportRow(rules, rows, row, now);
      var name, domain := NormalizeName(rules.lower, Trim(row.name)), NormalizeDomain(rules.host, row.website);
      var key := if domain != "" then domain else name;
      var t := one.tally;
      var found := FoundBy(rows, Trim(key), Trim(name), Trim(domain), Trim(row.website), x);
      if Trim(row.name) == "" || row.skip then one == Imported(rows, Counted(1, 0, 0, 0, 0, 0, 0), None)
      else if rules.blocklist(name, domain).blocked then one == Imported(rows, Counted(0, 1, 0, 0, 0, 0, 0), None)
      else if one.fault.Some? then
        && one.rows == rows
        && (one.fault == Some(WebsiteRequired) || if Unanswered(row) then one.fault == Some(FetchFailed)
                                                  else one.fault == Some(KeyRequired) && key == "")
      else
        && !Unanswered(row)
        && t.skipped == 0 && t.blocked == 0 && t.created + t.merged == 1 && t.created >= 0 && t.merged >= 0
        && (found ==> t.merged == 1 && x in one.rows && one.rows[x].lastSeen == now)
        && (t.created == 1 ==> !found && key in one.rows && one.rows[key].lastSeen == now)
        && t.resolved == (if Verified(row) then 1 else 0)
        && t.unsupported == (if NamesSomeBoard(row.cell) || NamesNone(row.cell) then 0 else 1)
        && t.resolved + t.unsupported + t.pending == 1
  {
    hide Trim, FoundBy, Lookup, FormsOf, WithSighting, Newborn, NormalizeName, NormalizeDomain, Seeded, VerifyFails, Written;
    hide Verified, NamesSomeBoard, NamesNone, ImportRow;
    var name := Trim(row.name);
    var f := FormsOf(rules, name, row.website);
    FormsAre(rules, name, row.website);
    var review := rules.blocklist(f.name, f.domain).needsReview;
    ImportIs(rules, rows, row, now);
    if name != "" && !row.skip && !rules.blocklist(f.name, f.domain).blocked && Lookup(rows, f).Ok? && !VerifyFails(row) {
      LookupFinds(rules, rows, name, row.website, x);
      var found := Lookup(rows, f).value;
      if found.Some? {
        LookupSound(rows, f);
        SightingColumns(rows[found.value.key], name, SeedSighting(row), found.value.otherForm, review, now);
        WrittenAs(rows, WithSighting(rows[found.value.key], name, SeedSighting(row), found.value.otherForm, review, now), row, false);
      } else {
        BornColumns(f, name, SeedSighting(row), review, now);
        WrittenAs(rows, Newborn(f, name, SeedSighting(row), review, now), row, true);
      }
    }
    Refused(row);
  }

  /** The way of a seed row through its tests. */
  lemma ImportIs(rules: Rules, rows: Companies, row: SeedRow, now: int)
    requires CompanyTable.Valid(rows)
    ensures var name := Trim(row.name);
      var f := FormsOf(rules, name, row.website);
      var decision := rules.blocklist(f.name, f.domain);
      var r := Lookup(rows, f);
      && (r.Ok? && r.value.Some? ==> r.value.value.key in rows && rows[r.value.value.key].key == r.value.value.key
                                     && r.value.value.key != "")
      && ImportRow(rules, rows, row, now) ==
         if name == "" || row.skip then Imported(rows, Counted(1, 0, 0, 0, 0, 0, 0), None)
         else if decision.blocked then Imported(rows, Counted(0, 1, 0, 0, 0, 0, 0), None)
         else if r.Err? then Imported(rows, NOTHING, Some(WebsiteRequired))
         else if VerifyFails(row) then Imported(rows, NOTHING, Some(FetchFailed))
         else if r.value.None? then Written(rows, Seeded(Newborn(f, name, SeedSighting(row), decision.needsReview, now), row), true)
         else Written(rows, Seeded(WithSighting(rows[r.value.value.key], name, SeedSighting(row), r.value.value.otherForm,
                                                decision.needsReview, now), row), false)
  {
    hide Trim, Lookup, FormsOf, WithSighting, Newborn, Seeded, VerifyFails, Written;
    LookupSound(rows, FormsOf(rules, Trim(row.name), row.website));
    LookupErrors(rows, FormsOf(rules, Trim(row.name), row.website));
  }

  /** The write of a seed row and its counters. */
  lemma WrittenAs(rows: Companies, d: Company, row: SeedRow, created: bool)
    requires !VerifyFails(row)
    ensures var one := Written(rows, Seeded(d, row), created);
      if d.key == "" then one.rows == rows && one.fault == Some(KeyRequired)
      else
        var t := one.tally;
        && one.fault == None && d.key in one.rows && one.rows[d.key].lastSeen == d.lastSeen
        && t.skipped == 0 && t.blocked == 0 && t.created == (if created then 1 else 0) && t.merged == 1 - t.created
        && t.resolved == (if Verified(row) then 1 else 0)
        && t.unsupported == (if NamesSomeBoard(row.cell) || NamesNone(row.cell) then 0 else 1)
        && t.resolved + t.unsupported + t.pending == 1
  {
    hide Seeded, Status, Verified, NamesSomeBoard, NamesNone, Upserted, VerifyFails;
    OneStatus(d, row);
    var c := Seeded(d, row);
    WroteIt(rows, c);
    assert Written(rows, c, created).tally.skipped == Status(c).skipped;
  }

  lemma FormsAre(rules: Rules, name: string, website: string)
    ensures var f := FormsOf(rules, name, website);
      && f.name == NormalizeName(rules.lower, name) && f.domain == NormalizeDomain(rules.host, website)
      && f.birth == (if f.domain != "" then f.domain else f.name)
  {
    hide NormalizeName, NormalizeDomain;
  }

  lemma Refused(row: SeedRow)
    ensures VerifyFails(row) <==> Unanswered(row)
  {
    hide Trim;
  }

  /** The status of a seed row is counted once, and is that of its board. */
  lemma OneStatus(c: Company, row: SeedRow)
    requires !VerifyFails(row)
    ensures var got, t := Seeded(c, row), Status(Seeded(c, row));
      && got.key == c.key && got.lastSeen == c.lastSeen
      && t.skipped == 0 && t.blocked == 0 && t.created == 0 && t.merged == 0 && t.resolved + t.unsupported + t.pending == 1
      && t.resolved == (if Verified(row) then 1 else 0)
      && t.unsupported == (if NamesSomeBoard(row.cell) || NamesNone(row.cell) then 0 else 1)
  {
    hide Trim;
  }

  lemma WroteIt(rows: Companies, c: Company)
    ensures c.key in Upserted(rows, c) && Upserted(rows, c)[c.key].lastSeen == c.lastSeen
  {
  }

  function Counted(skipped: int, blocked: int, created: int, merged: int, resolved: int, pending: int, unsupported: int): Tally {
    Tally(0, skipped, blocked, created, merged, resolved, pending, unsupported)
  }
}
