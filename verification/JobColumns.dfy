/**
 What saves leave in the columns of a row, told from its listings in the order they
 came. On a board the listings that are too old do not count.
 */
module JobColumns {
  import opened Prelude
  import opened Text
  import opened KeyedList
  import opened TextLists
  import opened JobMerge
  import opened JobTable
  import BoardApply

  /** The two texts that a board listing brings. */
  datatype Field = Title | Description

  function TextOf(job: Job, field: Field): string {
    match field
    case Title => job.title
    case Description => job.description
  }

  /** The listing is one of the row's, and young enough. */
  predicate Counts(job: Job, id: string, now: int) {
    job.id == id && !(job.postedAt.Some? && job.postedAt.value < now - 30 * 86400)
  }

  /** Listing `k` is the last one that counts and has such a text. */
  predicate LastWithText(jobs: seq<Job>, id: string, now: int, field: Field, k: nat) {
    && k < |jobs| && Counts(jobs[k], id, now) && Trim(TextOf(jobs[k], field)) != ""
    && forall m :: k < m < |jobs| && Counts(jobs[m], id, now) ==> Trim(TextOf(jobs[m], field)) == ""
  }

  /** Listing `k` is the first one that counts. */
  predicate FirstListing(jobs: seq<Job>, id: string, now: int, k: nat) {
    k < |jobs| && Counts(jobs[k], id, now) && forall m :: 0 <= m < k ==> !Counts(jobs[m], id, now)
  }

  ghost predicate SomeText(jobs: seq<Job>, id: string, now: int, field: Field) {
    exists k: nat :: LastWithText(jobs, id, now, field, k)
  }

  /** One listing: its text if it has one, else what the row had; a new row has the listing's text. */
  lemma OneListing(fold: string -> string, rows: Rows, key: string, job: Job, now: int, field: Field)
    ensures var row := BoardRow(fold, rows, key, job, now).job;
      TextOf(row, field) ==
      if job.id in rows && Trim(TextOf(job, field)) == "" then TextOf(rows[job.id].job, field) else TextOf(job, field)
  {
    hide SourceIDs, UnionCodes, MergedOpenings, RawOf, FillWebsite, Later, Trim;
  }

  lemma UpsertLast(fold: string -> string, rows: Rows, key: string, jobs: seq<Job>, now: int)
    requires jobs != [] && Upsert(fold, rows, key, jobs, now).fault.None?
    ensures var n := |jobs| - 1;
      var before, after := Upsert(fold, rows, key, jobs[..n], now), Upsert(fold, rows, key, jobs, now).rows;
      && before.fault.None? && jobs[n].id != ""
      && after == if Counts(jobs[n], jobs[n].id, now)
                  then before.rows[jobs[n].id := BoardRow(fold, before.rows, key, jobs[n], now)] else before.rows
  {
    hide BoardRow;
  }

  lemma CountsPrefix(jobs: seq<Job>, id: string, now: int, field: Field)
    requires jobs != []
    ensures var n := |jobs| - 1;
      && (Counts(jobs[n], id, now) && Trim(TextOf(jobs[n], field)) != "" ==>
            forall k: nat :: LastWithText(jobs, id, now, field, k) <==> k == n)
      && (!(Counts(jobs[n], id, now) && Trim(TextOf(jobs[n], field)) != "") ==>
            forall k: nat :: LastWithText(jobs, id, now, field, k) <==> LastWithText(jobs[..n], id, now, field, k))
      && (SomeText(jobs, id, now, field) <==>
            (Counts(jobs[n], id, now) && Trim(TextOf(jobs[n], field)) != "") || SomeText(jobs[..n], id, now, field))
      && (forall k: nat :: FirstListing(jobs[..n], id, now, k) ==> FirstListing(jobs, id, now, k))
      && (forall k: nat :: FirstListing(jobs, id, now, k) && k < n ==> FirstListing(jobs[..n], id, now, k))
  {
    hide Counts, Trim, TextOf;
    var n := |jobs| - 1;
    var front := jobs[..n];
    assert forall m :: 0 <= m < n ==> front[m] == jobs[m];
    assert Counts(jobs[n], id, now) && Trim(TextOf(jobs[n], field)) != "" ==> LastWithText(jobs, id, now, field, n);
    if k: nat :| LastWithText(front, id, now, field, k) {
      assert (Counts(jobs[n], id, now) && Trim(TextOf(jobs[n], field)) != "") || LastWithText(jobs, id, now, field, k);
    }
  }

  /** Listing `k` is the row's first one, and the text is its text unless some listing of the row has one. */
  ghost predicate MadeBy(jobs: seq<Job>, id: string, now: int, field: Field, text: string, k: nat) {
    FirstListing(jobs, id, now, k) && (!SomeText(jobs, id, now, field) ==> text == TextOf(jobs[k], field))
  }

  lemma NoListing(id: string, now: int, field: Field)
    ensures !SomeText([], id, now, field)
  {
  }

  lemma Inside(jobs: seq<Job>, id: string, now: int, field: Field, k: nat)
    ensures LastWithText(jobs, id, now, field, k) || FirstListing(jobs, id, now, k) ==> k < |jobs| && Counts(jobs[k], id, now)
  {
  }

  /** A row that no earlier listing has made is made by its first listing. */
  lemma NewListing(fold: string -> string, rows: Rows, key: string, jobs: seq<Job>, now: int, id: string)
    requires jobs != [] && Upsert(fold, rows, key, jobs[..|jobs| - 1], now).fault.None?
    requires id !in Upsert(fold, rows, key, jobs[..|jobs| - 1], now).rows && Counts(jobs[|jobs| - 1], id, now)
    ensures FirstListing(jobs, id, now, |jobs| - 1)
    ensures var front := jobs[..|jobs| - 1]; forall field, k: nat :: !LastWithText(front, id, now, field, k)
    ensures id !in rows
  {
    hide Upsert;
    var front := jobs[..|jobs| - 1];
    BoardApply.UpsertRows(fold, rows, key, front, now, id);
    forall m | 0 <= m < |front| ensures !Counts(front[m], id, now) {
      assert Counts(front[m], id, now) ==> BoardApply.Written(front, id, now);
    }
  }

  /**
   After a board upsert that goes through, the title of a row is that of the last
   listing of its id that has one, and the description likewise. Without one the
   row keeps what it had, and a new row has the text of its first listing.
   */
  lemma {:induction false} BoardTextIs(
      fold: string -> string, rows: Rows, key: string, jobs: seq<Job>, now: int, id: string, field: Field)
    requires Upsert(fold, rows, key, jobs, now).fault.None? && id in Upsert(fold, rows, key, jobs, now).rows
    ensures var text := TextOf(Upsert(fold, rows, key, jobs, now).rows[id].job, field);
      && (forall k: nat :: LastWithText(jobs, id, now, field, k) ==> k < |jobs| && text == TextOf(jobs[k], field))
      && (!SomeText(jobs, id, now, field) && id in rows ==> text == TextOf(rows[id].job, field))
      && (id !in rows ==> exists k: nat :: MadeBy(jobs, id, now, field, text, k))
    decreases |jobs|
  {
    hide Upsert, BoardRow, Counts, Trim, TextOf, LastWithText, FirstListing;
    if jobs == [] {
      NoListing(id, now, field);
      EmptyUpsert(fold, rows, key, now);
    } else {
      var n := |jobs| - 1;
      UpsertLast(fold, rows, key, jobs, now);
      CountsPrefix(jobs, id, now, field);
      OneListing(fold, Upsert(fold, rows, key, jobs[..n], now).rows, key, jobs[n], now, field);
      OwnId(jobs[n], id, now);
      forall k: nat ensures LastWithText(jobs, id, now, field, k) ==> k < |jobs| {
        Inside(jobs, id, now, field, k);
        Inside(jobs[..n], id, now, field, k);
      }
      if id in Upsert(fold, rows, key, jobs[..n], now).rows {
        BoardTextIs(fold, rows, key, jobs[..n], now, id, field);
        if id !in rows {
          var front, text := jobs[..n], TextOf(Upsert(fold, rows, key, jobs[..n], now).rows[id].job, field);
          var k: nat :| MadeBy(front, id, now, field, text, k);
          Inside(front, id, now, field, k);
          assert MadeBy(jobs, id, now, field, TextOf(Upsert(fold, rows, key, jobs, now).rows[id].job, field), k);
        }
      } else {
        NewListing(fold, rows, key, jobs, now, id);
        assert MadeBy(jobs, id, now, field, TextOf(Upsert(fold, rows, key, jobs, now).rows[id].job, field), n);
      }
    }
  }

  lemma EmptyUpsert(fold: string -> string, rows: Rows, key: string, now: int)
    ensures Upsert(fold, rows, key, [], now) == Upserted(rows, None)
  {
  }

  lemma OwnId(job: Job, id: string, now: int)
    ensures Counts(job, id, now) <==> job.id == id && Counts(job, job.id, now)
  {
  }

  ghost predicate Listed(jobs: seq<Job>, id: string, now: int) {
    exists k :: 0 <= k < |jobs| && Counts(jobs[k], id, now)
  }

  lemma ListedPrefix(jobs: seq<Job>, id: string, now: int)
    requires jobs != []
    ensures Listed(jobs, id, now) <==> Listed(jobs[..|jobs| - 1], id, now) || Counts(jobs[|jobs| - 1], id, now)
  {
    hide Counts;
    var n := |jobs| - 1;
    if Listed(jobs[..n], id, now) {
      var k :| 0 <= k < n && Counts(jobs[..n][k], id, now);
      assert Counts(jobs[k], id, now);
    }
    if Listed(jobs, id, now) {
      var k :| 0 <= k < |jobs| && Counts(jobs[k], id, now);
      assert k < n ==> Counts(jobs[..n][k], id, now);
    }
  }

  /** The date is the latest of the row's own and of the dates of its listings. */
  ghost predicate LatestDate(own: Option<int>, jobs: seq<Job>, id: string, now: int, date: Option<int>) {
    && (own.Some? ==> date.Some? && own.value <= date.value)
    && (forall k :: 0 <= k < |jobs| && Counts(jobs[k], id, now) && jobs[k].postedAt.Some? ==>
          date.Some? && jobs[k].postedAt.value <= date.value)
    && (date == own || exists k :: 0 <= k < |jobs| && Counts(jobs[k], id, now) && jobs[k].postedAt == date)
  }

  lemma NextDate(own: Option<int>, jobs: seq<Job>, id: string, now: int, before: Option<int>, date: Option<int>)
    requires jobs != [] && LatestDate(own, jobs[..|jobs| - 1], id, now, before)
    requires var last := jobs[|jobs| - 1];
      if !Counts(last, id, now) || last.postedAt.None? || (before.Some? && last.postedAt.value <= before.value)
      then date == before else date == last.postedAt
    ensures LatestDate(own, jobs, id, now, date)
  {
    hide Counts;
    var front := jobs[..|jobs| - 1];
    assert forall k :: 0 <= k < |front| ==> front[k] == jobs[k];
    if k :| 0 <= k < |front| && Counts(front[k], id, now) && front[k].postedAt == before {
      assert Counts(jobs[k], id, now) && jobs[k].postedAt == before;
    }
  }

  /** What one counted listing leaves of the columns below. */
  lemma ListingColumns(fold: string -> string, rows: Rows, key: string, job: Job, now: int)
    ensures var row := BoardRow(fold, rows, key, job, now);
      && row.job.lastSeen == row.updatedAt == now && row.boardSeenAt == Some(now) && row.companyKeyRef == Some(key)
      && (if job.id in rows then
            var was := rows[job.id];
            && row.job.firstSeen == was.job.firstSeen && row.createdAt == was.createdAt && SameClose(was, row)
            && (if job.postedAt.None? || (was.job.postedAt.Some? && job.postedAt.value <= was.job.postedAt.value)
                then row.job.postedAt == was.job.postedAt else row.job.postedAt == job.postedAt)
          else row.job.firstSeen == row.createdAt == now && row.closedAt == None && row.job.postedAt == job.postedAt)
  {
    hide SourceIDs, UnionCodes, MergedOpenings, RawOf, FillWebsite;
  }

  function DateOf(rows: Rows, id: string): Option<int> {
    if id in rows then rows[id].job.postedAt else None
  }

  /**
   The rows that the upsert reaches are those with a listing that counts. Each has
   its sightings of now, keeps its first one and its close columns, and has the
   latest date; a new row is open. No other row changes.
   */
  lemma {:induction false} BoardSightings(fold: string -> string, rows: Rows, key: string, jobs: seq<Job>, now: int, id: string)
    requires Upsert(fold, rows, key, jobs, now).fault.None?
    ensures var after := Upsert(fold, rows, key, jobs, now).rows;
      if Listed(jobs, id, now) then
        && id in after && after[id].job.lastSeen == after[id].updatedAt == now
        && after[id].boardSeenAt == Some(now) && after[id].companyKeyRef == Some(key)
        && (id in rows ==> after[id].job.firstSeen == rows[id].job.firstSeen && after[id].createdAt == rows[id].createdAt)
        && (id in rows ==> SameClose(rows[id], after[id]))
        && (id !in rows ==> after[id].job.firstSeen == after[id].createdAt == now && after[id].closedAt == None)
      else (id in after <==> id in rows) && (id in rows ==> after[id] == rows[id])
    ensures LatestDate(DateOf(rows, id), jobs, id, now, DateOf(Upsert(fold, rows, key, jobs, now).rows, id))
    decreases |jobs|
  {
    hide Upsert, BoardRow, Counts, SameClose;
    if jobs == [] {
      EmptyUpsert(fold, rows, key, now);
    } else {
      var n := |jobs| - 1;
      UpsertLast(fold, rows, key, jobs, now);
      BoardSightings(fold, rows, key, jobs[..n], now, id);
      ListedPrefix(jobs, id, now);
      OwnId(jobs[n], id, now);
      var before, after := Upsert(fold, rows, key, jobs[..n], now).rows, Upsert(fold, rows, key, jobs, now).rows;
      ListingColumns(fold, before, key, jobs[n], now);
      hide Listed, LatestDate;
      NextDate(DateOf(rows, id), jobs, id, now, DateOf(before, id), DateOf(after, id));
      if id in before && id in after {
        CloseStays(if id in rows then rows[id] else before[id], before[id], after[id]);
      }
    }
  }

  lemma CloseStays(a: Row, b: Row, c: Row)
    ensures SameClose(a, a) && (SameClose(a, b) && SameClose(b, c) ==> SameClose(a, c))
    ensures SameClose(b, c) ==> b.closedAt == c.closedAt
  {
  }

  /** An ingest writes one row. Of a row that is there it leaves texts, first sighting, company, board sighting and close columns. */
  lemma IngestColumns(fold: string -> string, rows: Rows, job: Job, now: int)
    ensures var after := Step(fold, rows, Event(Ingest(job), now));
      if job.id == "" then after == rows
      else
        && after.Keys == rows.Keys + {job.id} && (forall id :: id in rows && id != job.id ==> after[id] == rows[id])
        && var row := after[job.id];
           && row.updatedAt == row.job.lastSeen == now
           && if job.id in rows then
                var was := rows[job.id];
                && row.companyKeyRef == was.companyKeyRef && row.boardSeenAt == was.boardSeenAt && SameClose(was, row)
                && row.createdAt == was.createdAt && row.job.firstSeen == was.job.firstSeen
                && row.job.title == was.job.title && row.job.description == was.job.description
              else
                && row.companyKeyRef == None && row.boardSeenAt == None && row.closedAt == None && row.closedBy == Nobody
                && row.createdAt == row.job.firstSeen == now
                && row.job.title == job.title && row.job.description == job.description
  {
    hide SourceIDs, UnionCodes, MergedOpenings, RawOf, FillWebsite;
  }

  /** But for title and description a board listing leaves the same vacancy as an ingested one. */
  lemma BoardIsIngest(fold: string -> string, rows: Rows, key: string, job: Job, now: int)
    ensures var board, ingest := BoardRow(fold, rows, key, job, now).job, IngestRow(fold, rows, job, now).job;
      board == ingest.(title := board.title, description := board.description)
  {
    hide SourceIDs, UnionCodes, MergedOpenings, RawOf, FillWebsite, Later;
  }

  // The place.

  /** Texts with a comma and a blank between them. */
  function Commas(ts: seq<string>): string {
    if ts == [] then "" else if |ts| == 1 then ts[0] else ts[0] + ", " + Commas(ts[1..])
  }

  /** The country of opening `i`, trimmed and folded. */
  function CountryAt(fold: string -> string, openings: seq<Opening>, i: nat): string
    requires i < |openings|
  {
    fold(Trim(openings[i].country))
  }

  /** The text is the country of opening `i`, the first one with this country. */
  predicate SpelledAt(fold: string -> string, openings: seq<Opening>, text: string, i: nat) {
    && i < |openings| && text == Trim(openings[i].country) && CountryAt(fold, openings, i) != ""
    && forall m :: 0 <= m < i ==> CountryAt(fold, openings, m) != CountryAt(fold, openings, i)
  }

  ghost predicate Spelled(fold: string -> string, openings: seq<Opening>, text: string) {
    exists i: nat :: SpelledAt(fold, openings, text, i)
  }

  ghost predicate Covered(fold: string -> string, ts: seq<string>, country: string) {
    exists j :: 0 <= j < |ts| && fold(ts[j]) == country
  }

  /** One text for each country of the openings, as first spelled, in the order of the folded countries. */
  ghost predicate NamesCountries(fold: string -> string, openings: seq<Opening>, ts: seq<string>) {
    && (forall j :: 0 <= j < |ts| ==> Spelled(fold, openings, ts[j]))
    && (forall i, j :: 0 <= i < j < |ts| ==> Less(fold(ts[i]), fold(ts[j])))
    && forall i: nat :: i < |openings| && CountryAt(fold, openings, i) != "" ==> Covered(fold, ts, CountryAt(fold, openings, i))
  }

  function Texts(labels: seq<Label>): (ts: seq<string>)
    ensures |ts| == |labels| && forall i :: 0 <= i < |labels| ==> ts[i] == labels[i].text
  {
    seq(|labels|, i requires 0 <= i < |labels| => labels[i].text)
  }

  lemma {:induction false} CommasLast(ts: seq<string>)
    requires |ts| >= 2
    ensures Commas(ts) == Commas(ts[..|ts| - 1]) + ", " + ts[|ts| - 1]
    decreases |ts|
  {
    if |ts| == 2 {
      assert ts[1..] == [ts[1]] && ts[..1] == [ts[0]];
    } else {
      CommasLast(ts[1..]);
      assert ts[1..][..|ts| - 2] == ts[..|ts| - 1][1..];
      assert Commas(ts[..|ts| - 1]) == ts[0] + ", " + Commas(ts[..|ts| - 1][1..]);
      assert ts[0] + ", " + (Commas(ts[1..][..|ts| - 2]) + ", " + ts[|ts| - 1])
        == ts[0] + ", " + Commas(ts[1..][..|ts| - 2]) + ", " + ts[|ts| - 1];
    }
  }

  lemma {:induction false} JoinIsCommas(labels: seq<Label>)
    ensures Join(labels) == Commas(Texts(labels))
    decreases |labels|
  {
    if |labels| <= 1 {
    } else {
      var n := |labels| - 1;
      JoinIsCommas(labels[..n]);
      CommasLast(Texts(labels));
      assert Texts(labels)[..n] == Texts(labels[..n]);
    }
  }

  /** A label is that of an opening, and the labels before it are those of openings before. */
  lemma {:induction false} LabelsFrom(fold: string -> string, openings: seq<Opening>, k: nat) returns (i: nat)
    requires k < |LabelsOf(fold, openings)|
    ensures i < |openings| && CountryAt(fold, openings, i) != ""
    ensures LabelsOf(fold, openings)[k] == Label(CountryAt(fold, openings, i), Trim(openings[i].country))
    ensures forall m: nat :: m < i && CountryAt(fold, openings, m) != "" ==>
      exists b :: 0 <= b < k && LabelsOf(fold, openings)[b].norm == CountryAt(fold, openings, m)
    decreases |openings|
  {
    hide Trim;
    var n := |openings| - 1;
    var front := LabelsOf(fold, openings[..n]);
    TrimIsTrimmed(openings[n].country);
    if k < |front| {
      i := LabelsFrom(fold, openings[..n], k);
      forall m: nat | m < i && CountryAt(fold, openings, m) != ""
        ensures exists b :: 0 <= b < k && LabelsOf(fold, openings)[b].norm == CountryAt(fold, openings, m)
      {
        assert CountryAt(fold, openings, m) == CountryAt(fold, openings[..n], m);
        var b :| 0 <= b < k && LabelsOf(fold, openings[..n])[b].norm == CountryAt(fold, openings[..n], m);
        assert LabelsOf(fold, openings)[b] == front[b];
      }
    } else {
      i := n;
      forall m: nat | m < n && CountryAt(fold, openings, m) != ""
        ensures exists b :: 0 <= b < k && LabelsOf(fold, openings)[b].norm == CountryAt(fold, openings, m)
      {
        var b := LabelOfOpening(fold, openings[..n], m);
        assert LabelsOf(fold, openings)[b] == front[b];
      }
    }
  }

  lemma {:induction false} LabelOfOpening(fold: string -> string, openings: seq<Opening>, m: nat) returns (b: nat)
    requires m < |openings| && CountryAt(fold, openings, m) != ""
    ensures b < |LabelsOf(fold, openings)| && LabelsOf(fold, openings)[b].norm == CountryAt(fold, openings, m)
    decreases |openings|
  {
    hide Trim;
    var n := |openings| - 1;
    TrimIsTrimmed(openings[n].country);
    if m == n {
      b := |LabelsOf(fold, openings)| - 1;
    } else {
      b := LabelOfOpening(fold, openings[..n], m);
    }
  }

  /** `location.raw` is one text for each country of the openings, with commas between them. */
  lemma LocationIs(fold: string -> string, openings: seq<Opening>) returns (ts: seq<string>)
    ensures RawOf(fold, openings) == Commas(ts) && NamesCountries(fold, openings, ts)
  {
    var all := LabelsOf(fold, openings);
    var labels := Merged(NormOf, Less, all);
    ts := Texts(labels);
    JoinIsCommas(labels);
    LessIsOrder();
    MergedSorted(NormOf, Less, all);
    forall j | 0 <= j < |labels| ensures Spelled(fold, openings, ts[j]) && fold(ts[j]) == labels[j].norm {
      LabelSpelled(fold, openings, labels[j]);
    }
    hide Merged, LabelsOf, Trim, Spelled;
    forall i, j | 0 <= i < j < |ts| ensures Less(fold(ts[i]), fold(ts[j])) {
      assert Less(NormOf(labels[i]), NormOf(labels[j]));
    }
    forall i: nat | i < |openings| && CountryAt(fold, openings, i) != "" ensures Covered(fold, ts, CountryAt(fold, openings, i)) {
      var b := LabelOfOpening(fold, openings, i);
      InKeys(NormOf, all, all[b]);
      var j :| 0 <= j < |labels| && NormOf(labels[j]) == NormOf(all[b]);
      assert fold(ts[j]) == CountryAt(fold, openings, i);
    }
  }

  lemma LabelSpelled(fold: string -> string, openings: seq<Opening>, l: Label)
    requires l in Merged(NormOf, Less, LabelsOf(fold, openings))
    ensures Spelled(fold, openings, l.text) && fold(l.text) == l.norm
  {
    hide Trim, Merged;
    var all := LabelsOf(fold, openings);
    var k := MergedKeepsFirst(NormOf, Less, all, l);
    var i := LabelsFrom(fold, openings, k);
    forall m: nat | m < i ensures CountryAt(fold, openings, m) != CountryAt(fold, openings, i) {
      if CountryAt(fold, openings, m) != "" {
        var b :| 0 <= b < k && all[b].norm == CountryAt(fold, openings, m);
        assert NormOf(all[b]) != NormOf(l);
      }
    }
    assert SpelledAt(fold, openings, l.text, i);
  }

  /** The row's place, and its links: those of the least opening, which is the first. */
  lemma ParentIs(fold: string -> string, ls: seq<Job>, now: nat -> int) returns (ts: seq<string>)
    requires ls != []
    ensures var row := SaveAll(fold, ls, now);
      && row.location.raw == Commas(ts) && NamesCountries(fold, row.openings, ts)
      && row.openings != [] && row.url == row.openings[0].url && row.applyURL == row.openings[0].applyURL
  {
    hide RawOf, NamesCountries, Merged;
    var row := SaveAll(fold, ls, now);
    ts := LocationIs(fold, row.openings);
    SavedHolds(fold, ls, now);
    OpeningsSortedUnique(fold, ls, now);
    assert KeyOf(fold, OpeningFrom(ls[0])) in Keys(ByKey(fold), row.openings);
  }

  // The columns of ingested listings.

  /** Listing `k` is the first one with a website. */
  predicate FirstWebsite(ls: seq<Job>, k: nat) {
    k < |ls| && Trim(ls[k].website) != "" && forall m :: 0 <= m < k ==> Trim(ls[m].website) == ""
  }

  /** What one more listing leaves of the columns below. */
  lemma NextColumns(fold: string -> string, existing: Job, l: Job, t: int)
    ensures var row := Stored(MergeJob(fold, existing, l, t));
      && row.id == existing.id && row.title == existing.title && row.description == existing.description
      && row.companyKey == existing.companyKey && row.rest == existing.rest
      && row.firstSeen == existing.firstSeen && row.lastSeen == t
      && row.website == if Trim(existing.website) == "" && Trim(l.website) != "" then Trim(l.website) else existing.website
    ensures var row := Stored(NewJob(fold, l, t));
      && row.id == l.id && row.title == l.title && row.description == l.description && row.companyKey == l.companyKey
      && row.rest == l.rest && row.firstSeen == t && row.lastSeen == t && row.website == l.website
  {
    hide SourceIDs, UnionCodes, MergedOpenings, RawOf, Later, Trim;
  }

  /**
   Texts, company and the other columns of an ingested row are those of its first
   listing, whatever comes later; its sightings are the first and the last save.
   */
  lemma {:induction false} FirstListingStays(fold: string -> string, ls: seq<Job>, now: nat -> int)
    requires ls != []
    ensures var row := SaveAll(fold, ls, now);
      && row.id == ls[0].id && row.title == ls[0].title && row.description == ls[0].description
      && row.companyKey == ls[0].companyKey && row.rest == ls[0].rest
      && row.firstSeen == now(0) && row.lastSeen == now(|ls| - 1)
    decreases |ls|
  {
    hide Stored, NewJob, MergeJob;
    var n := |ls| - 1;
    if n == 0 {
      NextColumns(fold, ls[0], ls[0], now(0));
    } else {
      FirstListingStays(fold, ls[..n], now);
      NextColumns(fold, SaveAll(fold, ls[..n], now), ls[n], now(n));
    }
  }

  /** The website is the first one that is not blank, and the first listing's own where all are. */
  lemma {:induction false} WebsiteIs(fold: string -> string, ls: seq<Job>, now: nat -> int)
    requires ls != []
    ensures var website := SaveAll(fold, ls, now).website;
      && (forall k: nat :: FirstWebsite(ls, k) ==>
            k < |ls| && Trim(website) != "" && website == if k == 0 then ls[0].website else Trim(ls[k].website))
      && ((forall k: nat :: !FirstWebsite(ls, k)) ==> Trim(website) == "" && website == ls[0].website)
    decreases |ls|
  {
    hide Stored, NewJob, MergeJob, Trim, FirstWebsite;
    var n := |ls| - 1;
    OneWebsite(ls);
    if n == 0 {
      NextColumns(fold, ls[0], ls[0], now(0));
      assert FirstWebsite(ls, 0) <==> Trim(ls[0].website) != "";
    } else {
      WebsiteIs(fold, ls[..n], now);
      NextColumns(fold, SaveAll(fold, ls[..n], now), ls[n], now(n));
      WebsitePrefix(ls);
      TrimIsTrimmed(ls[n].website);
    }
  }

  lemma OneWebsite(ls: seq<Job>)
    requires ls != []
    ensures |ls| == 1 ==> forall k: nat :: FirstWebsite(ls, k) <==> k == 0 && Trim(ls[0].website) != ""
    ensures forall k: nat :: FirstWebsite(ls, k) ==> k < |ls|
    ensures var front := ls[..|ls| - 1]; forall k: nat :: FirstWebsite(front, k) ==> k < |front|
  {
    hide Trim;
  }

  lemma WebsitePrefix(ls: seq<Job>)
    requires |ls| > 1
    ensures var n := |ls| - 1;
      && (forall k: nat :: k < n ==> (FirstWebsite(ls, k) <==> FirstWebsite(ls[..n], k)))
      && ((forall k: nat :: !FirstWebsite(ls[..n], k)) ==> (FirstWebsite(ls, n) <==> Trim(ls[n].website) != ""))
      && (forall k: nat :: FirstWebsite(ls[..n], k) ==> !FirstWebsite(ls, n))
  {
    hide Trim;
    var n := |ls| - 1;
    if forall k: nat :: !FirstWebsite(ls[..n], k) {
      NoWebsite(ls[..n], n);
    }
  }

  lemma {:induction false} NoWebsite(ls: seq<Job>, n: nat)
    requires n <= |ls| && forall k: nat :: !FirstWebsite(ls, k)
    ensures forall m :: 0 <= m < n ==> Trim(ls[m].website) == ""
    decreases n
  {
    hide Trim;
    if n == 0 {
    } else {
      NoWebsite(ls, n - 1);
      assert !FirstWebsite(ls, n - 1);
    }
  }

  // The merged parts of ingested listings.

  function ListedOpening(l: Job): Opening {
    Opening(Trim(l.location.raw), l.url, l.applyURL)
  }

  /** The same vacancy: the country up to its spelling, and both links. */
  predicate SameOpening(fold: string -> string, a: Opening, b: Opening) {
    fold(Trim(a.country)) == fold(Trim(b.country)) && a.url == b.url && a.applyURL == b.applyURL
  }

  /** By country, then by URL, then by the link for applications. */
  predicate Before(fold: string -> string, a: Opening, b: Opening) {
    var c, d := fold(Trim(a.country)), fold(Trim(b.country));
    || Less(c, d)
    || (c == d && Less(a.url, b.url))
    || (c == d && a.url == b.url && Less(a.applyURL, b.applyURL))
  }

  /** The opening is that of listing `k`, the first one with it. */
  predicate OpenedBy(fold: string -> string, ls: seq<Job>, o: Opening, k: nat) {
    && k < |ls| && o == ListedOpening(ls[k])
    && forall m :: 0 <= m < k ==> !SameOpening(fold, ListedOpening(ls[m]), o)
  }

  ghost predicate Opened(fold: string -> string, ls: seq<Job>, o: Opening) {
    exists k: nat :: OpenedBy(fold, ls, o, k)
  }

  ghost predicate Kept(fold: string -> string, os: seq<Opening>, l: Job) {
    exists i :: 0 <= i < |os| && SameOpening(fold, os[i], ListedOpening(l))
  }

  lemma {:induction false} OpeningAt(ls: seq<Job>)
    ensures var os := Gather(OpeningsOf, ls);
      |os| == |ls| && forall i :: 0 <= i < |ls| ==> os[i] == ListedOpening(ls[i])
    decreases |ls|
  {
    hide Trim;
    if ls == [] {
    } else {
      OpeningAt(ls[..|ls| - 1]);
    }
  }

  lemma OpeningOrder(fold: string -> string, a: Opening, b: Opening)
    ensures KeyLess(KeyOf(fold, a), KeyOf(fold, b)) <==> Before(fold, a, b)
    ensures KeyOf(fold, a) == KeyOf(fold, b) <==> SameOpening(fold, a, b)
  {
    hide Trim, Less;
    LessIrreflexive(fold(Trim(a.country)));
    LessIrreflexive(a.url);
  }

  /** The openings of an ingested row: one for each vacancy of its listings, as it first came, in their order. */
  lemma OpeningsAre(fold: string -> string, ls: seq<Job>, now: nat -> int)
    requires ls != []
    ensures var os := SaveAll(fold, ls, now).openings;
      && (forall i, j :: 0 <= i < j < |os| ==> Before(fold, os[i], os[j]))
      && (forall i :: 0 <= i < |os| ==> Opened(fold, ls, os[i]))
      && (forall l :: l in ls ==> Kept(fold, os, l))
  {
    var all := Gather(OpeningsOf, ls);
    SavedHolds(fold, ls, now);
    KeyLessIsOrder();
    MergedSorted(ByKey(fold), KeyLess, all);
    OpeningAt(ls);
    hide Merged, Gather, SaveAll, KeyLess, Before, SameOpening, ListedOpening, RawOf;
    var os := SaveAll(fold, ls, now).openings;
    forall i, j | 0 <= i < j < |os| ensures Before(fold, os[i], os[j]) {
      OpeningOrder(fold, os[i], os[j]);
      assert KeyLess(ByKey(fold)(os[i]), ByKey(fold)(os[j]));
    }
    forall i | 0 <= i < |os| ensures Opened(fold, ls, os[i]) {
      var k := MergedKeepsFirst(ByKey(fold), KeyLess, all, os[i]);
      forall m | 0 <= m < k ensures !SameOpening(fold, ListedOpening(ls[m]), os[i]) {
        OpeningOrder(fold, all[m], os[i]);
        assert ByKey(fold)(all[m]) != ByKey(fold)(os[i]);
      }
      assert OpenedBy(fold, ls, os[i], k);
    }
    forall l | l in ls ensures Kept(fold, os, l) {
      var n :| 0 <= n < |ls| && ls[n] == l;
      InKeys(ByKey(fold), all, all[n]);
      var i :| 0 <= i < |os| && ByKey(fold)(os[i]) == ByKey(fold)(all[n]);
      OpeningOrder(fold, os[i], all[n]);
    }
  }

  /** The list has this text, which is not empty, but for white space around it. */
  ghost predicate Brings(texts: seq<string>, x: string) {
    x != "" && exists s :: s in texts && Trim(s) == x
  }

  ghost predicate SortedCodes(codes: seq<string>) {
    forall i, j :: 0 <= i < j < |codes| ==> Less(codes[i], codes[j])
  }

  ghost predicate SomeCountry(ls: seq<Job>, c: string) {
    exists l :: l in ls && Brings(l.location.countries, c)
  }

  ghost predicate SomeRegion(ls: seq<Job>, c: string) {
    exists l :: l in ls && Brings(l.location.regions, c)
  }

  ghost predicate SomeSource(ls: seq<Job>, x: string) {
    exists l :: l in ls && (Brings(l.sources, x) || (x != "" && Trim(l.source) == x))
  }

  lemma CodesMerged(codes: seq<string>)
    ensures SortedCodes(Merged(Same, Less, codes)) && forall c :: c in Merged(Same, Less, codes) <==> c in codes
  {
    LessIsOrder();
    MergedSorted(Same, Less, codes);
    var merged := Merged(Same, Less, codes);
    hide Merged;
    forall i, j | 0 <= i < j < |merged| ensures Less(merged[i], merged[j]) {
      assert Less(Same(merged[i]), Same(merged[j]));
    }
    forall c ensures c in merged <==> c in codes {
      MemberKey(merged, c);
      MemberKey(codes, c);
    }
  }

  lemma Gathered(ls: seq<Job>, x: string)
    ensures x in Gather(CountriesOf, ls) <==> SomeCountry(ls, x)
    ensures x in Gather(RegionsOf, ls) <==> SomeRegion(ls, x)
    ensures x in Gather(SourcesOf, ls) <==> SomeSource(ls, x)
  {
    hide Gather;
    InGather(CountriesOf, ls, x);
    InGather(RegionsOf, ls, x);
    InGather(SourcesOf, ls, x);
    hide Clean, Trim;
    forall l: Job
      ensures x in CountriesOf(l) <==> Brings(l.location.countries, x)
      ensures x in RegionsOf(l) <==> Brings(l.location.regions, x)
      ensures x in SourcesOf(l) <==> Brings(l.sources, x) || (x != "" && Trim(l.source) == x)
    {
      CleanMember(l.location.countries, x);
      CleanMember(l.location.regions, x);
      CleanMember([l.source] + l.sources, x);
      assert Trim(l.source) == x ==> ([l.source] + l.sources)[0] in [l.source] + l.sources;
    }
  }

  /** Country and region codes: sorted, and exactly those that some listing brings. */
  lemma CodesAre(fold: string -> string, ls: seq<Job>, now: nat -> int)
    requires ls != []
    ensures var place := SaveAll(fold, ls, now).location;
      && SortedCodes(place.countries) && (forall c :: c in place.countries <==> SomeCountry(ls, c))
      && SortedCodes(place.regions) && (forall c :: c in place.regions <==> SomeRegion(ls, c))
  {
    SavedHolds(fold, ls, now);
    CodesMerged(Gather(CountriesOf, ls));
    CodesMerged(Gather(RegionsOf, ls));
    hide Merged, Gather, SaveAll, SomeCountry, SomeRegion, SortedCodes, RawOf;
    forall c
      ensures c in Gather(CountriesOf, ls) <==> SomeCountry(ls, c)
      ensures c in Gather(RegionsOf, ls) <==> SomeRegion(ls, c)
    {
      Gathered(ls, c);
    }
  }

  /** Sources: each one once, exactly those of the listings; the first listing's own comes first, and later ones behind. */
  lemma SourcesAre(fold: string -> string, ls: seq<Job>, now: nat -> int, n: nat)
    requires 0 < n <= |ls|
    ensures var sources := SaveAll(fold, ls, now).sources;
      && (forall x :: x in sources <==> SomeSource(ls, x))
      && (forall i, j :: 0 <= i < j < |sources| ==> sources[i] != sources[j])
      && SaveAll(fold, ls[..n], now).sources <= sources
      && (Trim(ls[0].source) != "" ==> sources != [] && sources[0] == Trim(ls[0].source))
  {
    hide Gather, SaveAll, SomeSource, Dedup, Trim;
    SavedSources(fold, ls, now);
    SavedSources(fold, ls[..n], now);
    DedupDistinct(Same, Gather(SourcesOf, ls));
    SameMembers(Gather(SourcesOf, ls));
    SourcesGrow(ls, n);
    SourcesGrow(ls, 1);
    FirstSource(ls[0]);
    assert ls[..1] == [ls[0]];
    forall x ensures x in Gather(SourcesOf, ls) <==> SomeSource(ls, x) {
      Gathered(ls, x);
    }
  }

  lemma SavedSources(fold: string -> string, ls: seq<Job>, now: nat -> int)
    requires ls != []
    ensures SaveAll(fold, ls, now).sources == Dedup(Same, Gather(SourcesOf, ls))
  {
    hide Gather, SaveAll, Dedup, RawOf, Merged;
    SavedHolds(fold, ls, now);
  }

  lemma {:induction false} SourcesGrow(ls: seq<Job>, n: nat)
    requires n <= |ls|
    ensures Dedup(Same, Gather(SourcesOf, ls[..n])) <= Dedup(Same, Gather(SourcesOf, ls))
    decreases |ls|
  {
    hide Clean;
    if n == |ls| {
      assert ls[..n] == ls;
    } else {
      var m := |ls| - 1;
      SourcesGrow(ls[..m], n);
      assert ls[..m][..n] == ls[..n];
      DedupGrows(Gather(SourcesOf, ls[..m]), SourcesOf(ls[m]));
    }
  }

  lemma {:induction false} DedupGrows(s: seq<string>, t: seq<string>)
    ensures Dedup(Same, s) <= Dedup(Same, s + t)
    decreases |t|
  {
    if t == [] {
      assert s + t == s;
    } else {
      var n := |t| - 1;
      DedupGrows(s, t[..n]);
      DedupAppend(Same, s + t[..n], t[n]);
      assert s + t == s + t[..n] + [t[n]];
    }
  }

  lemma FirstSource(l: Job)
    ensures var sources := Dedup(Same, Gather(SourcesOf, [l]));
      Trim(l.source) != "" ==> sources != [] && sources[0] == Trim(l.source)
  {
    hide Trim;
    GatherOne(SourcesOf, l);
    CleanConcat([l.source], l.sources);
    assert [l.source][..0] == [];
    if Trim(l.source) != "" {
      assert Clean([l.source]) == [Trim(l.source)];
      DedupGrows([Trim(l.source)], Clean(l.sources));
      assert [Trim(l.source)][..0] == [];
      assert Dedup(Same, [Trim(l.source)]) == [Trim(l.source)];
    }
  }

  /** The date is the latest that some listing has. */
  lemma DateIs(fold: string -> string, ls: seq<Job>, now: nat -> int)
    requires ls != []
    ensures var date := SaveAll(fold, ls, now).postedAt;
      && (forall l :: l in ls && l.postedAt.Some? ==> date.Some? && l.postedAt.value <= date.value)
      && (date.Some? ==> exists l :: l in ls && l.postedAt == date)
  {
    SavedHolds(fold, ls, now);
    LatestIsGreatest(ls);
    hide Merged, Gather, SaveAll, RawOf, Dedup, LatestOf;
  }
}
