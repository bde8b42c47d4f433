/**
 The seed import: each row of a sheet is merged into the companies table like a
 sighting, and gets the board columns its ATS cell and its verified board allow.
 The counters of an import are part of the model; reading the sheet is not.
 */
module SeedImport {
  import opened Prelude
  import opened PollOutcomes
  import opened Text
  import opened TextLists
  import opened CompanyTable
  import opened CompanyIdentity

  datatype SeedClass = SeedNone | SeedPollable(ats: ATS) | SeedUnsupported(ats: ATS)

  /** classifySeedATS, on the cell without its notes, in lower case. */
  function Classify(cell: string): SeedClass {
    if cell == "greenhouse" then SeedPollable(Greenhouse)
    else if cell == "lever" then SeedPollable(Lever)
    else if cell == "ashby" then SeedPollable(Ashby)
    else if cell in ["workday", "teamtailor", "workable", "recruitee", "personio", "rippling", "smartrecruiters"] then
      SeedUnsupported(OtherATS(cell))
    else if cell in ["custom", "unknown", "none", "notion", ""] then SeedNone
    else SeedUnsupported(OtherATS("other"))
  }

  /** A row of the seed sheet; `cell` is its ATS cell without notes. `verified` is the answer of the board it names. */
  datatype SeedRow = SeedRow(
    name: string, website: string, cell: string, slug: string, vacanciesURL: string, skip: bool, verified: Result<Outcome, ()>)

  function SeedBoardURL(ats: ATS, slug: string): string {
    match ats
    case Greenhouse => "https://boards.greenhouse.io/" + slug
    case Lever => "https://jobs.lever.co/" + slug
    case Ashby => "https://jobs.ashbyhq.com/" + slug
    case _ => ""
  }

  /** The board columns a seed row gives a company. */
  function Seeded(c: Company, row: SeedRow): Company {
    var hint, slug := Trim(row.vacanciesURL), Trim(row.slug);
    var pending := Committed(c, Pending, NoMethod, NoATS, "", hint, None);
    match Classify(row.cell)
    case SeedUnsupported(ats) => Committed(c, UnsupportedATS, Seed, ats, "", hint, None)
    case SeedNone => pending
    case SeedPollable(ats) =>
      if slug == "" || row.verified.Err? || row.verified.value == DeadSlug then pending
      else Committed(c, Resolved, Seed, ats, slug, if hint == "" then SeedBoardURL(ats, slug) else hint, None)
  }

  /** The board of the row has to be asked, and cannot be. */
  predicate VerifyFails(row: SeedRow) {
    Classify(row.cell).SeedPollable? && Trim(row.slug) != "" && row.verified.Err?
  }

  function SeedSighting(row: SeedRow): Sighting {
    Sighting(row.name, row.website, "")
  }

  /** The counters of an import. */
  datatype Tally = Tally(
    rows: int, skipped: int, blocked: int, created: int, merged: int, resolved: int, pending: int, unsupported: int)

  const NOTHING: Tally := Tally(0, 0, 0, 0, 0, 0, 0, 0)

  function Add(a: Tally, b: Tally): Tally {
    Tally(a.rows + b.rows, a.skipped + b.skipped, a.blocked + b.blocked, a.created + b.created, a.merged + b.merged,
          a.resolved + b.resolved, a.pending + b.pending, a.unsupported + b.unsupported)
  }

  /** The counter of the status a row is given. */
  function Status(c: Company): Tally {
    match c.status
    case Resolved => NOTHING.(resolved := 1)
    case UnsupportedATS => NOTHING.(unsupported := 1)
    case _ => NOTHING.(pending := 1)
  }

  datatype Imported = Imported(rows: Companies, tally: Tally, fault: Option<Fault>)

  /** The write of one row, with its status counted before and its kind counted after the write. */
  function Written(rows: Companies, c: Company, created: bool): Imported {
    if c.key == "" then Imported(rows, Status(c), Some(KeyRequired))
    else
      Imported(CompanyTable.Upserted(rows, c),
               Add(Status(c), if created then NOTHING.(created := 1) else NOTHING.(merged := 1)), None)
  }

  /** importOneSeedRow. */
  ghost function ImportRow(rules: Rules, rows: Companies, row: SeedRow, now: int): Imported {
    var name := Trim(row.name);
    var f := FormsOf(rules, name, row.website);
    var decision := rules.blocklist(f.name, f.domain);
    var s := SeedSighting(row);
    if name == "" || row.skip then Imported(rows, NOTHING.(skipped := 1), None)
    else if decision.blocked then Imported(rows, NOTHING.(blocked := 1), None)
    else match Lookup(rows, f)
         case Err(e) => Imported(rows, NOTHING, Some(e))
         case Ok(found) =>
           if VerifyFails(row) then Imported(rows, NOTHING, Some(FetchFailed))
           else match found
                case None => Written(rows, Seeded(Newborn(f, name, s, decision.needsReview, now), row), true)
                case Some(at) =>
                  if at.key !in rows then Imported(rows, NOTHING, Some(NotFound))
                  else Written(rows, Seeded(WithSighting(rows[at.key], name, s, at.otherForm, decision.needsReview, now), row), false)
  }

  /** ImportSeedRows: row by row, each one counted before it is handled; the first error ends the import. `now(i)` is the clock at row `i`. */
  ghost function ImportSheet(rules: Rules, rows: Companies, sheet: seq<SeedRow>, now: nat -> int): Imported {
    if sheet == [] then Imported(rows, NOTHING, None)
    else
      var n := |sheet| - 1;
      var before := ImportSheet(rules, rows, sheet[..n], now);
      if before.fault.Some? then before
      else
        var one := ImportRow(rules, before.rows, sheet[n], now(n));
        Imported(one.rows, Add(before.tally, one.tally.(rows := 1)), one.fault)
  }

  lemma FormsTrimmed(rules: Rules, name: string, website: string)
    ensures Trim(FormsOf(rules, name, website).website) == FormsOf(rules, name, website).website
  {
    TrimIsTrimmed(website);
  }

  lemma SightingKeeps(c: Company, name: string, s: Sighting, otherForm: string, needsReview: bool, now: int)
    ensures var d := WithSighting(c, name, s, otherForm, needsReview, now);
      d.key == c.key && (name != "" ==> d.name == name) && d.firstSeen == c.firstSeen
  {
  }

  /** A seed row changes the board columns only. */
  lemma SeededKeeps(c: Company, row: SeedRow)
    ensures var d := Seeded(c, row);
      && d.key == c.key && d.name == c.name && d.aliases == c.aliases && d.firstSeen == c.firstSeen
      && d.emptyStreak == c.emptyStreak && d.failCount == c.failCount && d.pollState == c.pollState
  {
  }

  class Importer {
    const companies: Discovery

    constructor (companies: Discovery)
      ensures this.companies == companies
    {
      this.companies := companies;
    }

    /** One row of the sheet, and the counters with what the row adds to them. */
    method ImportSeedRow(row: SeedRow, now: int, stats: Tally) returns (fault: Option<Fault>, tally: Tally)
      requires CompanyTable.Valid(companies.table.rows)
      modifies companies.table`rows
      ensures var one := ImportRow(companies.rules, old(companies.table.rows), row, now);
        companies.table.rows == one.rows && fault == one.fault && tally == Add(stats, one.tally)
    {
      hide Lookup, FormsOf, WithSighting, Newborn, Seeded, Trim, Classify, AppendAlias;
      tally := stats;
      var name := Trim(row.name);
      if name == "" || row.skip {
        return None, tally.(skipped := tally.skipped + 1);
      }
      var f := FormsOf(companies.rules, name, row.website);
      var decision := companies.rules.blocklist(f.name, f.domain);
      if decision.blocked {
        return None, tally.(blocked := tally.blocked + 1);
      }
      FormsTrimmed(companies.rules, name, row.website);
      var existing := companies.LookupExisting(f);
      if existing.Err? {
        return Some(existing.error), tally;
      }
      var c := Newborn(f, name, SeedSighting(row), decision.needsReview, now);
      NewbornNamed(f, name, SeedSighting(row), decision.needsReview, now);
      if existing.value.Some? {
        SightingKeeps(existing.value.value.0, name, SeedSighting(row), existing.value.value.1, decision.needsReview, now);
        c := companies.MergeAggregatorSighting(
          existing.value.value.0, name, SeedSighting(row), existing.value.value.1, decision.needsReview, now);
      }
      if VerifyFails(row) {
        return Some(FetchFailed), tally;
      }
      SeededKeeps(c, row);
      c := Seeded(c, row);
      tally := Add(tally, Status(c));
      var done := companies.table.Upsert(c);
      if done.Err? {
        return Some(done.error), tally;
      }
      tally := if existing.value.None? then tally.(created := tally.created + 1) else tally.(merged := tally.merged + 1);
      fault := None;
    }

    method ImportSeedRows(sheet: seq<SeedRow>, now: nat -> int) returns (fault: Option<Fault>, stats: Tally)
      requires CompanyTable.Valid(companies.table.rows)
      modifies companies.table`rows
      ensures Imported(companies.table.rows, stats, fault) == ImportSheet(companies.rules, old(companies.table.rows), sheet, now)
    {
      hide ImportRow, ImportSheet, Add;
      stats, fault := NOTHING, None;
      ghost var was := companies.table.rows;
      SheetEmpty(companies.rules, was, now);
      assert sheet[..0] == [];
      for i := 0 to |sheet|
        invariant Imported(companies.table.rows, stats, fault) == ImportSheet(companies.rules, was, sheet[..i], now)
        invariant fault.None? && CompanyTable.Valid(companies.table.rows)
      {
        SheetNext(companies.rules, was, sheet, now, i, stats);
        ImportKeeps(companies.rules, companies.table.rows, sheet[i], now(i));
        stats := stats.(rows := stats.rows + 1);
        fault, stats := ImportSeedRow(sheet[i], now(i), stats);
        if fault.Some? {
          SheetStops(companies.rules, was, sheet, now, i + 1);
          return;
        }
      }
      assert sheet[..|sheet|] == sheet;
    }
  }

  lemma SheetEmpty(rules: Rules, rows: Companies, now: nat -> int)
    ensures ImportSheet(rules, rows, [], now) == Imported(rows, NOTHING, None)
  {
  }

  /** One row further: what the loop does to the table and to the counters it carries. */
  lemma SheetNext(rules: Rules, rows: Companies, sheet: seq<SeedRow>, now: nat -> int, i: nat, stats: Tally)
    requires i < |sheet|
    requires var before := ImportSheet(rules, rows, sheet[..i], now); before.fault.None? && before.tally == stats
    ensures var before := ImportSheet(rules, rows, sheet[..i], now);
      var one := ImportRow(rules, before.rows, sheet[i], now(i));
      ImportSheet(rules, rows, sheet[..i + 1], now) == Imported(one.rows, Add(stats.(rows := stats.rows + 1), one.tally), one.fault)
  {
    hide ImportRow, Add;
    var before := ImportSheet(rules, rows, sheet[..i], now);
    assert sheet[..i + 1][..i] == sheet[..i];
    NoRowCount(rules, before.rows, sheet[i], now(i));
    CountFirst(stats, ImportRow(rules, before.rows, sheet[i], now(i)).tally);
  }

  lemma CountFirst(a: Tally, b: Tally)
    requires b.rows == 0
    ensures Add(a, b.(rows := 1)) == Add(a.(rows := a.rows + 1), b)
  {
  }

  lemma NoRowCount(rules: Rules, rows: Companies, row: SeedRow, now: int)
    ensures ImportRow(rules, rows, row, now).tally.rows == 0
  {
    hide Lookup, FormsOf, WithSighting, Newborn, Seeded, Trim, VerifyFails;
  }

  lemma NewbornNamed(f: Forms, name: string, s: Sighting, needsReview: bool, now: int)
    ensures var c := Newborn(f, name, s, needsReview, now); c.key == f.birth && c.name == name
  {
  }

  lemma {:induction false} SheetStops(rules: Rules, rows: Companies, sheet: seq<SeedRow>, now: nat -> int, n: nat)
    requires n <= |sheet| && ImportSheet(rules, rows, sheet[..n], now).fault.Some?
    ensures ImportSheet(rules, rows, sheet, now) == ImportSheet(rules, rows, sheet[..n], now)
    decreases |sheet|
  {
    hide ImportRow;
    if n == |sheet| {
      assert sheet[..n] == sheet;
    } else {
      assert sheet[..|sheet| - 1][..n] == sheet[..n];
      SheetStops(rules, rows, sheet[..|sheet| - 1], now, n);
    }
  }

  /** Every key and first sighting stays, and the rows and counters add up. */
  ghost predicate Grows(rows: Companies, one: Imported) {
    && CompanyTable.Valid(one.rows)
    && (forall k :: k in rows ==> k in one.rows && one.rows[k].firstSeen == rows[k].firstSeen)
    && |one.rows| <= |rows| + one.tally.created
    && RowBalances(one.tally, one.fault.Some?)
  }

  /** One row keeps every key and first sighting, adds at most one key, and counts itself once. */
  lemma ImportKeeps(rules: Rules, rows: Companies, row: SeedRow, now: int)
    requires CompanyTable.Valid(rows)
    ensures Grows(rows, ImportRow(rules, rows, row, now))
  {
    hide Lookup, FormsOf, WithSighting, Newborn, Seeded, Trim, VerifyFails, Written, Grows;
    var name := Trim(row.name);
    var f := FormsOf(rules, name, row.website);
    var review := rules.blocklist(f.name, f.domain).needsReview;
    LookupSound(rows, f);
    NothingWritten(rows);
    var r := Lookup(rows, f);
    if r.Ok? && r.value.Some? {
      var was := rows[r.value.value.key];
      SightingKeeps(was, name, SeedSighting(row), r.value.value.otherForm, review, now);
      var d := WithSighting(was, name, SeedSighting(row), r.value.value.otherForm, review, now);
      SeededKeeps(d, row);
      WriteKeeps(rows, Seeded(d, row), false);
    } else {
      WriteKeeps(rows, Seeded(Newborn(f, name, SeedSighting(row), review, now), row), true);
    }
  }

  lemma NothingWritten(rows: Companies)
    requires CompanyTable.Valid(rows)
    ensures Grows(rows, Imported(rows, NOTHING.(skipped := 1), None)) && Grows(rows, Imported(rows, NOTHING.(blocked := 1), None))
    ensures forall e :: Grows(rows, Imported(rows, NOTHING, Some(e)))
  {
  }

  /** A row is skipped, blocked, created or merged, and gets one status when it is written; an error leaves at most the status. */
  predicate RowBalances(t: Tally, failed: bool) {
    && t.rows == 0 && 0 <= t.skipped && 0 <= t.blocked && 0 <= t.created && 0 <= t.merged
    && 0 <= t.resolved && 0 <= t.pending && 0 <= t.unsupported
    && t.skipped + t.blocked + t.created + t.merged == (if failed then 0 else 1)
    && var statuses := t.resolved + t.pending + t.unsupported;
      if failed then statuses <= 1 else statuses == t.created + t.merged
  }

  lemma WriteKeeps(rows: Companies, c: Company, created: bool)
    requires CompanyTable.Valid(rows) && (!created ==> c.key in rows)
    ensures Grows(rows, Written(rows, c, created))
  {
    hide RowBalances, CompanyTable.Upserted;
    WrittenBalances(rows, c, created);
    if c.key != "" {
      UpsertGrows(rows, c);
    }
  }

  lemma WrittenBalances(rows: Companies, c: Company, created: bool)
    ensures var one := Written(rows, c, created);
      RowBalances(one.tally, one.fault.Some?) && (one.fault.None? ==> one.tally.created == if created then 1 else 0)
      && one.tally.created >= 0
  {
    hide CompanyTable.Upserted, Status;
    StatusIsOne(c);
  }

  lemma StatusIsOne(c: Company)
    ensures var t := Status(c);
      && t.rows == t.skipped == t.blocked == t.created == t.merged == 0
      && 0 <= t.resolved && 0 <= t.pending && 0 <= t.unsupported && t.resolved + t.pending + t.unsupported == 1
  {
  }

  lemma UpsertGrows(rows: Companies, c: Company)
    requires CompanyTable.Valid(rows) && c.key != ""
    ensures var after := CompanyTable.Upserted(rows, c);
      && CompanyTable.Valid(after)
      && (forall k :: k in rows ==> k in after && after[k].firstSeen == rows[k].firstSeen)
      && |after| <= |rows| + (if c.key in rows then 0 else 1)
  {
    assert CompanyTable.Upserted(rows, c).Keys == rows.Keys + {c.key};
  }

  /**
   The counters of a whole import balance: every row seen is skipped, blocked,
   created, merged or the one that failed, and every company written has one
   status. Importing loses no company and adds no more than it reports created.
   */
  lemma {:induction false} SheetBalances(rules: Rules, rows: Companies, sheet: seq<SeedRow>, now: nat -> int)
    requires CompanyTable.Valid(rows)
    ensures var all := ImportSheet(rules, rows, sheet, now);
      var t := all.tally;
      var failed := if all.fault.Some? then 1 else 0;
      && CompanyTable.Valid(all.rows)
      && t.rows == t.skipped + t.blocked + t.created + t.merged + failed
      && (all.fault.None? ==> t.rows == |sheet|)
      && t.created + t.merged <= t.resolved + t.pending + t.unsupported <= t.created + t.merged + failed
      && (forall k :: k in rows ==> k in all.rows && all.rows[k].firstSeen == rows[k].firstSeen)
      && |all.rows| <= |rows| + t.created
    decreases |sheet|
  {
    hide ImportRow;
    if sheet == [] {
    } else {
      var n := |sheet| - 1;
      SheetBalances(rules, rows, sheet[..n], now);
      ImportKeeps(rules, ImportSheet(rules, rows, sheet[..n], now).rows, sheet[n], now(n));
    }
  }
}
