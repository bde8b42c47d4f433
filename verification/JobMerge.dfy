/**
 How listings of one vacancy are merged into its row. A listing contributes an
 opening, country and region codes, source ids and a posting date; the row keeps
 each of them in a canonical form. White-space collapsing and lower-casing of a
 country label is the parameter `fold`. A zero time is `None`.
 */
module JobMerge {
  import opened Prelude
  import opened Text
  import opened KeyedList
  import opened TextLists

  datatype Opening = Opening(country: string, url: string, applyURL: string)

  datatype OpeningKey = OpeningKey(country: string, url: string, applyURL: string)

  datatype Location = Location(raw: string, countries: seq<string>, regions: seq<string>)

  /**
   A listing, and the row made of listings. `rest` stands for the columns no
   merge touches: company, salary text, tags, position, location type, time zone.
   */
  datatype Job = Job(
    id: string,
    source: string,
    sources: seq<string>,
    title: string,
    description: string,
    companyKey: string,
    website: string,
    url: string,
    applyURL: string,
    postedAt: Option<int>,
    location: Location,
    openings: seq<Opening>,
    firstSeen: int,
    lastSeen: int,
    rest: string)

  /** normalizeCountry. */
  function NormalizeCountry(fold: string -> string, s: string): string {
    fold(Trim(s))
  }

  function KeyOf(fold: string -> string, o: Opening): OpeningKey {
    OpeningKey(NormalizeCountry(fold, o.country), o.url, o.applyURL)
  }

  function ByKey(fold: string -> string): Opening -> OpeningKey {
    (o: Opening) => KeyOf(fold, o)
  }

  /** openingLess, on the keys of the two openings. */
  predicate KeyLess(a: OpeningKey, b: OpeningKey) {
    if a.country != b.country then Less(a.country, b.country)
    else if a.url != b.url then Less(a.url, b.url)
    else Less(a.applyURL, b.applyURL)
  }

  lemma KeyLessOn(a: OpeningKey, b: OpeningKey, c: OpeningKey)
    ensures !KeyLess(a, a) && (KeyLess(a, b) || KeyLess(b, a) || a == b)
    ensures KeyLess(a, b) && KeyLess(b, c) ==> KeyLess(a, c)
  {
    OrderOn(a.country, b.country, c.country);
    OrderOn(a.url, b.url, c.url);
    OrderOn(a.applyURL, b.applyURL, c.applyURL);
  }

  lemma OrderOn(a: string, b: string, c: string)
    ensures !Less(a, a) && (Less(a, b) || Less(b, a) || a == b)
    ensures Less(a, b) && Less(b, c) ==> Less(a, c)
  {
    LessIsOrder();
  }

  lemma KeyLessIsOrder()
    ensures StrictTotal(KeyLess)
  {
    hide KeyLess;
    forall a, b, c ensures !KeyLess(a, a) && (KeyLess(a, b) || KeyLess(b, a) || a == b)
      && (KeyLess(a, b) && KeyLess(b, c) ==> KeyLess(a, c))
    {
      KeyLessOn(a, b, c);
    }
  }

  /** mergeSourceIDs. */
  function SourceIDs(existing: seq<string>, source: string, more: seq<string>): seq<string> {
    Dedup(Same, Clean(existing + ([source] + more)))
  }

  /** unionSortedCodes. */
  function UnionCodes(existing: seq<string>, incoming: seq<string>): seq<string> {
    Merged(Same, Less, Clean(existing + incoming))
  }

  /** openingFromListing. */
  function OpeningFrom(job: Job): Opening {
    Opening(Trim(job.location.raw), job.url, job.applyURL)
  }

  /** mergeOpenings. */
  function MergedOpenings(fold: string -> string, existing: seq<Opening>, incoming: Opening): seq<Opening> {
    Merged(ByKey(fold), KeyLess, existing + [incoming])
  }

  datatype Label = Label(norm: string, text: string)

  function NormOf(l: Label): string {
    l.norm
  }

  /** The countries of the openings, without those that normalize to nothing. */
  function LabelsOf(fold: string -> string, openings: seq<Opening>): seq<Label> {
    if openings == [] then []
    else
      var text := Trim(openings[|openings| - 1].country);
      var norm, front := NormalizeCountry(fold, text), LabelsOf(fold, openings[..|openings| - 1]);
      if norm == "" then front else front + [Label(norm, text)]
  }

  function Join(labels: seq<Label>): string {
    if labels == [] then ""
    else if |labels| == 1 then labels[0].text
    else Join(labels[..|labels| - 1]) + ", " + labels[|labels| - 1].text
  }

  /** locationRaw. */
  function RawOf(fold: string -> string, openings: seq<Opening>): string {
    Join(Merged(NormOf, Less, LabelsOf(fold, openings)))
  }

  /** applyOpeningParent. */
  function WithParent(fold: string -> string, job: Job): Job {
    job.(
      location := job.location.(raw := RawOf(fold, job.openings)),
      url := if job.openings == [] then "" else job.openings[0].url,
      applyURL := if job.openings == [] then "" else job.openings[0].applyURL)
  }

  /** laterPostedAt. */
  function Later(existing: Option<int>, incoming: Option<int>): Option<int> {
    if incoming.None? || (existing.Some? && incoming.value <= existing.value) then existing else incoming
  }

  function FillWebsite(existing: string, incoming: string): string {
    if Blank(existing) && !Blank(incoming) then Trim(incoming) else existing
  }

  /** newIngestJob. */
  function NewJob(fold: string -> string, incoming: Job, now: int): Job {
    WithParent(fold, incoming.(
      sources := SourceIDs([], incoming.source, incoming.sources),
      firstSeen := now,
      lastSeen := now,
      openings := MergedOpenings(fold, [], OpeningFrom(incoming)),
      location := incoming.location.(
        countries := UnionCodes([], incoming.location.countries),
        regions := UnionCodes([], incoming.location.regions))))
  }

  /** mergeIngestJob. */
  function MergeJob(fold: string -> string, existing: Job, incoming: Job, now: int): Job {
    WithParent(fold, existing.(
      sources := SourceIDs(existing.sources, incoming.source, incoming.sources),
      lastSeen := now,
      website := FillWebsite(existing.website, incoming.website),
      postedAt := Later(existing.postedAt, incoming.postedAt),
      openings := MergedOpenings(fold, existing.openings, OpeningFrom(incoming)),
      location := existing.location.(
        countries := UnionCodes(existing.location.countries, incoming.location.countries),
        regions := UnionCodes(existing.location.regions, incoming.location.regions))))
  }

  /** mergeBoardJob: board text replaces what the row has, unless it is blank. */
  function MergeBoardJob(fold: string -> string, existing: Job, incoming: Job, now: int): Job {
    MergeJob(fold, existing, incoming, now).(
      description := if Blank(incoming.description) then existing.description else incoming.description,
      title := if Blank(incoming.title) then existing.title else incoming.title)
  }

  /** What a row gives back after it was written: NewJobModel and ToDomain. The source column does not exist. */
  function Stored(job: Job): Job {
    job.(source := "", sources := SourceIDs([], job.source, job.sources))
  }

  method MergeSourceIDs(existing: seq<string>, source: string, more: seq<string>) returns (out: seq<string>)
    ensures out == SourceIDs(existing, source, more)
  {
    out := CollectTrimmed(existing + ([source] + more));
  }

  method UnionSortedCodes(existing: seq<string>, incoming: seq<string>) returns (out: seq<string>)
    ensures out == UnionCodes(existing, incoming)
  {
    out := CollectTrimmed(existing + incoming);
    out := SortStable(Same, Less, out);
  }

  method MergeOpenings(fold: string -> string, existing: seq<Opening>, incoming: Opening) returns (out: seq<Opening>)
    ensures out == MergedOpenings(fold, existing, incoming)
  {
    out := KeepFirst(ByKey(fold), existing + [incoming]);
    out := SortStable(ByKey(fold), KeyLess, out);
  }

  method LocationRaw(fold: string -> string, openings: seq<Opening>) returns (raw: string)
    ensures raw == RawOf(fold, openings)
  {
    var seen: set<string> := {};
    var labels: seq<Label> := [];
    for i := 0 to |openings|
      invariant labels == Dedup(NormOf, LabelsOf(fold, openings[..i])) && seen == Keys(NormOf, labels)
    {
      hide Dedup, Keys;
      assert openings[..i + 1][..i] == openings[..i];
      var text := Trim(openings[i].country);
      var norm := NormalizeCountry(fold, text);
      if norm != "" {
        DedupAppend(NormOf, LabelsOf(fold, openings[..i]), Label(norm, text));
        if norm !in seen {
          KeysAppend(NormOf, labels, Label(norm, text));
          seen := seen + {norm};
          labels := labels + [Label(norm, text)];
        }
      }
    }
    assert openings[..|openings|] == openings;
    labels := SortStable(NormOf, Less, labels);
    raw := JoinTexts(labels);
  }

  method JoinTexts(labels: seq<Label>) returns (raw: string)
    ensures raw == Join(labels)
  {
    raw := "";
    for i := 0 to |labels|
      invariant raw == Join(labels[..i])
    {
      assert labels[..i + 1][..i] == labels[..i];
      raw := if i == 0 then labels[i].text else raw + ", " + labels[i].text;
    }
    assert labels[..|labels|] == labels;
  }

  method ApplyOpeningParent(fold: string -> string, job: Job) returns (out: Job)
    ensures out == WithParent(fold, job)
  {
    var raw := LocationRaw(fold, job.openings);
    out := job.(location := job.location.(raw := raw));
    if |job.openings| == 0 {
      out := out.(url := "", applyURL := "");
      return;
    }
    out := out.(url := job.openings[0].url, applyURL := job.openings[0].applyURL);
  }

  method NewIngestJob(fold: string -> string, incoming: Job, now: int) returns (row: Job)
    ensures row == NewJob(fold, incoming, now)
  {
    var sources := MergeSourceIDs([], incoming.source, incoming.sources);
    var openings := MergeOpenings(fold, [], OpeningFrom(incoming));
    var countries := UnionSortedCodes([], incoming.location.countries);
    var regions := UnionSortedCodes([], incoming.location.regions);
    row := incoming.(sources := sources, firstSeen := now, lastSeen := now, openings := openings,
                     location := incoming.location.(countries := countries, regions := regions));
    row := ApplyOpeningParent(fold, row);
  }

  method MergeIngestJob(fold: string -> string, existing: Job, incoming: Job, now: int) returns (out: Job)
    ensures out == MergeJob(fold, existing, incoming, now)
  {
    var sources := MergeSourceIDs(existing.sources, incoming.source, incoming.sources);
    var openings := MergeOpenings(fold, existing.openings, OpeningFrom(incoming));
    var countries := UnionSortedCodes(existing.location.countries, incoming.location.countries);
    var regions := UnionSortedCodes(existing.location.regions, incoming.location.regions);
    out := existing.(sources := sources, lastSeen := now,
                     website := FillWebsite(existing.website, incoming.website),
                     postedAt := Later(existing.postedAt, incoming.postedAt), openings := openings,
                     location := existing.location.(countries := countries, regions := regions));
    out := ApplyOpeningParent(fold, out);
  }

  method MergeBoardListing(fold: string -> string, existing: Job, incoming: Job, now: int) returns (out: Job)
    ensures out == MergeBoardJob(fold, existing, incoming, now)
  {
    out := MergeIngestJob(fold, existing, incoming, now);
    if Trim(incoming.description) != "" {
      out := out.(description := incoming.description);
    }
    if Trim(incoming.title) != "" {
      out := out.(title := incoming.title);
    }
  }

  /** The row after the listings were saved one by one. `now(i)` is the clock at the i-th save. */
  function SaveAll(fold: string -> string, ls: seq<Job>, now: nat -> int): Job
    requires ls != []
  {
    var n := |ls| - 1;
    if n == 0 then Stored(NewJob(fold, ls[0], now(0)))
    else Stored(MergeJob(fold, SaveAll(fold, ls[..n], now), ls[n], now(n)))
  }

  /** `f` of every listing, one after the other. */
  function Gather<T>(f: Job -> seq<T>, ls: seq<Job>): seq<T> {
    if ls == [] then [] else Gather(f, ls[..|ls| - 1]) + f(ls[|ls| - 1])
  }

  function OpeningsOf(job: Job): seq<Opening> {
    [OpeningFrom(job)]
  }

  function CountriesOf(job: Job): seq<string> {
    Clean(job.location.countries)
  }

  function RegionsOf(job: Job): seq<string> {
    Clean(job.location.regions)
  }

  function SourcesOf(job: Job): seq<string> {
    Clean([job.source] + job.sources)
  }

  function LatestOf(ls: seq<Job>): Option<int> {
    if ls == [] then None else Later(LatestOf(ls[..|ls| - 1]), ls[|ls| - 1].postedAt)
  }

  /** Joining codes onto joined codes is joining everything at once. */
  lemma UnionOnto(s: seq<string>, incoming: seq<string>)
    requires AllClean(s)
    ensures UnionCodes(Merged(Same, Less, s), incoming) == Merged(Same, Less, s + Clean(incoming))
  {
    LessIsOrder();
    var m := Merged(Same, Less, s);
    MergedSorted(Same, Less, s);
    CleanKeys(s, m);
    CleanFixed(m);
    CleanConcat(m, incoming);
    MergeOnto(Same, Less, s, Clean(incoming));
  }

  lemma SourcesOnto(s: seq<string>, source: string, more: seq<string>)
    requires AllClean(s)
    ensures SourceIDs(Dedup(Same, s), source, more) == Dedup(Same, s + Clean([source] + more))
  {
    var d := Dedup(Same, s);
    DedupKeys(Same, s);
    CleanKeys(s, d);
    CleanFixed(d);
    CleanConcat(d, [source] + more);
    DedupOnto(Same, s, Clean([source] + more));
  }

  lemma CleanOne(source: string, d: seq<string>)
    requires AllClean(d)
    ensures Clean([source] + d) == (if Blank(source) then [] else [Trim(source)]) + d
  {
    CleanConcat([source], d);
    CleanFixed(d);
    assert [source][..0] == [];
  }

  /** Writing a merged row and reading it back changes nothing. */
  lemma StoredMerged(job: Job, s: seq<string>)
    requires AllClean(s) && job.source == "" && job.sources == Dedup(Same, s)
    ensures Stored(job) == job
  {
    var d := job.sources;
    DedupKeys(Same, s);
    CleanKeys(s, d);
    CleanOne("", d);
    assert [] + ([""] + d) == [""] + d && [] + d == d;
    DedupDistinct(Same, s);
    DistinctIsFixed(Same, d);
  }

  /** A new row's sources are collected twice, its own source first each time. */
  lemma StoredNew(source: string, more: seq<string>)
    ensures SourceIDs([], source, SourceIDs([], source, more)) == SourceIDs([], source, more)
  {
    hide Trim, Clean, Keys;
    var s := Clean([source] + more);
    assert [] + ([source] + more) == [source] + more;
    var d := Dedup(Same, s);
    CleanIsClean([source] + more);
    DedupKeys(Same, s);
    CleanKeys(s, d);
    CleanOne(source, d);
    assert [] + ([source] + d) == [source] + d;
    DedupDistinct(Same, s);
    if Blank(source) {
      assert [] + d == d;
      DistinctIsFixed(Same, d);
    } else {
      CleanConcat([source], more);
      CleanOne(source, []);
      assert [source] + [] == [source];
      assert s[0] == Trim(source);
      HeadStays(s);
      HeadTwice(d);
    }
  }

  lemma {:induction false} HeadStays(s: seq<string>)
    requires s != []
    ensures Dedup(Same, s) != [] && Dedup(Same, s)[0] == s[0]
    decreases |s|
  {
    if |s| <= 1 {
    } else {
      HeadStays(s[..|s| - 1]);
    }
  }

  lemma {:induction false} HeadTwice(d: seq<string>)
    requires d != [] && forall i, j :: 0 <= i < j < |d| ==> Same(d[i]) != Same(d[j])
    ensures Dedup(Same, [d[0]] + d) == d
    decreases |d|
  {
    var n := |d| - 1;
    if n == 0 {
      assert ([d[0]] + d)[..1] == [d[0]];
      assert Dedup(Same, [d[0]]) == [d[0]];
      assert [d[0]][0] == d[0];
    } else {
      HeadTwice(d[..n]);
      assert ([d[0]] + d)[..|d|] == [d[0]] + d[..n];
      assert Same(d[n]) !in Keys(Same, d[..n]);
      assert d == d[..n] + [d[n]];
    }
  }

  /** The row holds exactly what the listings bring, in canonical form, and its summary columns agree with its openings. */
  ghost predicate Holds(fold: string -> string, j: Job, ls: seq<Job>) {
    && j.source == "" && j.sources == Dedup(Same, Gather(SourcesOf, ls))
    && j.openings == Merged(ByKey(fold), KeyLess, Gather(OpeningsOf, ls))
    && j.location.countries == Merged(Same, Less, Gather(CountriesOf, ls))
    && j.location.regions == Merged(Same, Less, Gather(RegionsOf, ls))
    && j.postedAt == LatestOf(ls)
    && (Blank(j.website) ==> forall l :: l in ls ==> Blank(l.website))
    && WithParent(fold, j) == j
  }

  lemma GatherAppend<T>(f: Job -> seq<T>, ls: seq<Job>, l: Job)
    ensures Gather(f, ls + [l]) == Gather(f, ls) + f(l)
  {
    assert (ls + [l])[..|ls|] == ls;
  }

  lemma {:induction false} GatherClean(f: Job -> seq<string>, ls: seq<Job>)
    requires forall l :: AllClean(f(l))
    ensures AllClean(Gather(f, ls))
    decreases |ls|
  {
    if ls == [] {
    } else {
      GatherClean(f, ls[..|ls| - 1]);
    }
  }

  lemma PartsClean()
    ensures forall l :: AllClean(SourcesOf(l)) && AllClean(CountriesOf(l)) && AllClean(RegionsOf(l))
  {
    forall l ensures AllClean(SourcesOf(l)) && AllClean(CountriesOf(l)) && AllClean(RegionsOf(l)) {
      CleanIsClean([l.source] + l.sources);
      CleanIsClean(l.location.countries);
      CleanIsClean(l.location.regions);
    }
  }

  lemma ParentTwice(fold: string -> string, job: Job)
    ensures WithParent(fold, WithParent(fold, job)) == WithParent(fold, job)
  {
  }

  lemma FirstSave(fold: string -> string, l: Job, t: int)
    ensures Holds(fold, Stored(NewJob(fold, l, t)), [l])
  {
    hide Dedup, Merged, RawOf, Clean;
    ParentTwice(fold, l);
    StoredNew(l.source, l.sources);
    GatherOne(SourcesOf, l);
    GatherOne(OpeningsOf, l);
    GatherOne(CountriesOf, l);
    GatherOne(RegionsOf, l);
    assert [] + ([l.source] + l.sources) == [l.source] + l.sources;
    assert [] + [OpeningFrom(l)] == [OpeningFrom(l)];
    assert [] + l.location.countries == l.location.countries && [] + l.location.regions == l.location.regions;
    assert LatestOf([l]) == l.postedAt by {
      assert [l][..0] == [];
    }
  }

  lemma GatherOne<T>(f: Job -> seq<T>, l: Job)
    ensures Gather(f, [l]) == f(l)
  {
    assert [l][..0] == [];
    assert Gather(f, []) + f(l) == f(l);
  }

  lemma NextSave(fold: string -> string, j: Job, ls: seq<Job>, l: Job, t: int)
    requires Holds(fold, j, ls)
    ensures Holds(fold, Stored(MergeJob(fold, j, l, t)), ls + [l])
  {
    hide Dedup, Merged, RawOf, Clean, Gather, SourceIDs;
    PartsClean();
    GatherClean(SourcesOf, ls);
    GatherClean(CountriesOf, ls);
    GatherClean(RegionsOf, ls);
    GatherAppend(SourcesOf, ls, l);
    GatherAppend(OpeningsOf, ls, l);
    GatherAppend(CountriesOf, ls, l);
    GatherAppend(RegionsOf, ls, l);
    SourcesOnto(Gather(SourcesOf, ls), l.source, l.sources);
    UnionOnto(Gather(CountriesOf, ls), l.location.countries);
    UnionOnto(Gather(RegionsOf, ls), l.location.regions);
    KeyLessIsOrder();
    MergeOnto(ByKey(fold), KeyLess, Gather(OpeningsOf, ls), [OpeningFrom(l)]);
    GatherClean(SourcesOf, ls + [l]);
    StoredMerged(MergeJob(fold, j, l, t), Gather(SourcesOf, ls + [l]));
    assert (ls + [l])[..|ls|] == ls;
    WebsiteKept(j.website, l.website);
  }

  lemma WebsiteKept(existing: string, incoming: string)
    ensures Blank(FillWebsite(existing, incoming)) <==> Blank(existing) && Blank(incoming)
  {
    TrimIsTrimmed(incoming);
  }

  lemma {:induction false} SavedHolds(fold: string -> string, ls: seq<Job>, now: nat -> int)
    requires ls != []
    ensures Holds(fold, SaveAll(fold, ls, now), ls)
    decreases |ls|
  {
    hide Holds, NewJob, MergeJob, Stored;
    var n := |ls| - 1;
    if n == 0 {
      assert ls == [ls[0]];
      FirstSave(fold, ls[0], now(0));
    } else {
      SavedHolds(fold, ls[..n], now);
      NextSave(fold, SaveAll(fold, ls[..n], now), ls[..n], ls[n], now(n));
      assert ls == ls[..n] + [ls[n]];
    }
  }

  /** Whatever is saved, the openings are strictly sorted by key, hence key-unique, and are those of the listings. */
  lemma OpeningsSortedUnique(fold: string -> string, ls: seq<Job>, now: nat -> int)
    requires ls != []
    ensures Sorted(ByKey(fold), KeyLess, SaveAll(fold, ls, now).openings)
    ensures forall k :: k in Keys(ByKey(fold), SaveAll(fold, ls, now).openings) <==>
      exists l :: l in ls && k == KeyOf(fold, OpeningFrom(l))
  {
    SavedHolds(fold, ls, now);
    KeyLessIsOrder();
    MergedSorted(ByKey(fold), KeyLess, Gather(OpeningsOf, ls));
    forall k ensures k in Keys(ByKey(fold), Gather(OpeningsOf, ls)) <==>
      exists l :: l in ls && k == KeyOf(fold, OpeningFrom(l))
    {
      OpeningKeys(fold, ls, k);
    }
  }

  lemma OpeningKeys(fold: string -> string, ls: seq<Job>, k: OpeningKey)
    ensures k in Keys(ByKey(fold), Gather(OpeningsOf, ls)) <==> exists l :: l in ls && k == KeyOf(fold, OpeningFrom(l))
  {
    var os := Gather(OpeningsOf, ls);
    if k in Keys(ByKey(fold), os) {
      var i :| 0 <= i < |os| && ByKey(fold)(os[i]) == k;
      InGather(OpeningsOf, ls, os[i]);
    }
    if l :| l in ls && k == KeyOf(fold, OpeningFrom(l)) {
      InGather(OpeningsOf, ls, OpeningFrom(l));
      assert OpeningFrom(l) in OpeningsOf(l);
      InKeys(ByKey(fold), os, OpeningFrom(l));
    }
  }

  lemma {:induction false} InGather<T>(f: Job -> seq<T>, ls: seq<Job>, x: T)
    ensures x in Gather(f, ls) <==> exists l :: l in ls && x in f(l)
    decreases |ls|
  {
    if ls == [] {
    } else {
      var n := |ls| - 1;
      InGather(f, ls[..n], x);
      assert ls == ls[..n] + [ls[n]];
    }
  }

  lemma SameGather<T, K>(key: T -> K, f: Job -> seq<T>, ls: seq<Job>, ms: seq<Job>)
    requires forall l :: l in ls <==> l in ms
    ensures Keys(key, Gather(f, ls)) == Keys(key, Gather(f, ms))
  {
    SubGather(f, ls, ms);
    SubGather(f, ms, ls);
    SubKeys(key, Gather(f, ls), Gather(f, ms));
    SubKeys(key, Gather(f, ms), Gather(f, ls));
  }

  lemma SubGather<T>(f: Job -> seq<T>, ls: seq<Job>, ms: seq<Job>)
    requires forall l :: l in ls ==> l in ms
    ensures forall x :: x in Gather(f, ls) ==> x in Gather(f, ms)
  {
    forall x | x in Gather(f, ls) ensures x in Gather(f, ms) {
      InGather(f, ls, x);
      InGather(f, ms, x);
      var l :| l in ls && x in f(l);
      assert l in ms;
    }
  }

  lemma SubKeys<T, K>(key: T -> K, s: seq<T>, t: seq<T>)
    requires forall x :: x in s ==> x in t
    ensures Keys(key, s) <= Keys(key, t)
  {
    forall k | k in Keys(key, s) ensures k in Keys(key, t) {
      var i :| 0 <= i < |s| && key(s[i]) == k;
      InKeys(key, t, s[i]);
    }
  }

  lemma {:induction false} LatestIsGreatest(ls: seq<Job>)
    ensures LatestOf(ls).Some? ==> exists l :: l in ls && l.postedAt == LatestOf(ls)
    ensures forall l :: l in ls && l.postedAt.Some? ==> LatestOf(ls).Some? && l.postedAt.value <= LatestOf(ls).value
    decreases |ls|
  {
    if ls == [] {
    } else {
      var n := |ls| - 1;
      LatestIsGreatest(ls[..n]);
      assert ls == ls[..n] + [ls[n]];
      if LatestOf(ls).Some? && LatestOf(ls) != ls[n].postedAt {
        var l :| l in ls[..n] && l.postedAt == LatestOf(ls[..n]);
        assert l in ls;
      }
    }
  }

  lemma SameLatest(ls: seq<Job>, ms: seq<Job>)
    requires forall l :: l in ls <==> l in ms
    ensures LatestOf(ls) == LatestOf(ms)
  {
    LatestIsGreatest(ls);
    LatestIsGreatest(ms);
    if LatestOf(ls).Some? {
      var l :| l in ls && l.postedAt == LatestOf(ls);
      assert l in ms;
    }
    if LatestOf(ms).Some? {
      var l :| l in ms && l.postedAt == LatestOf(ms);
      assert l in ls;
    }
  }

  /**
   Saving the same set of listings of one vacancy in any order, each at least
   once, gives the same opening keys in the same order, the same URLs, codes,
   latest posting date and set of sources.
   */
  lemma SaveOrderDoesNotMatter(fold: string -> string, ls: seq<Job>, ms: seq<Job>, now: nat -> int, other: nat -> int)
    requires ls != [] && ms != [] && forall l :: l in ls <==> l in ms
    ensures var j, k := SaveAll(fold, ls, now), SaveAll(fold, ms, other);
      && KeySeq(ByKey(fold), j.openings) == KeySeq(ByKey(fold), k.openings)
      && j.url == k.url && j.applyURL == k.applyURL
      && j.location.countries == k.location.countries && j.location.regions == k.location.regions
      && j.postedAt == k.postedAt && Keys(Same, j.sources) == Keys(Same, k.sources)
  {
    hide Dedup, Merged, RawOf, Clean, Gather, SaveAll;
    SavedHolds(fold, ls, now);
    SavedHolds(fold, ms, other);
    SameParts(fold, ls, ms);
    var j, k := SaveAll(fold, ls, now), SaveAll(fold, ms, other);
    FirstOpening(fold, j, k);
    SameLatest(ls, ms);
  }

  lemma SameParts(fold: string -> string, ls: seq<Job>, ms: seq<Job>)
    requires forall l :: l in ls <==> l in ms
    ensures KeySeq(ByKey(fold), Merged(ByKey(fold), KeyLess, Gather(OpeningsOf, ls)))
      == KeySeq(ByKey(fold), Merged(ByKey(fold), KeyLess, Gather(OpeningsOf, ms)))
    ensures Merged(Same, Less, Gather(CountriesOf, ls)) == Merged(Same, Less, Gather(CountriesOf, ms))
    ensures Merged(Same, Less, Gather(RegionsOf, ls)) == Merged(Same, Less, Gather(RegionsOf, ms))
    ensures Keys(Same, Dedup(Same, Gather(SourcesOf, ls))) == Keys(Same, Dedup(Same, Gather(SourcesOf, ms)))
  {
    hide Dedup, Merged, Clean, Gather;
    LessIsOrder();
    KeyLessIsOrder();
    SameGather(ByKey(fold), OpeningsOf, ls, ms);
    MergeOrder(ByKey(fold), KeyLess, Gather(OpeningsOf, ls), Gather(OpeningsOf, ms));
    SameGather(Same, CountriesOf, ls, ms);
    MergeOrder(Same, Less, Gather(CountriesOf, ls), Gather(CountriesOf, ms));
    KeySeqSame(Merged(Same, Less, Gather(CountriesOf, ls)), Merged(Same, Less, Gather(CountriesOf, ms)));
    SameGather(Same, RegionsOf, ls, ms);
    MergeOrder(Same, Less, Gather(RegionsOf, ls), Gather(RegionsOf, ms));
    KeySeqSame(Merged(Same, Less, Gather(RegionsOf, ls)), Merged(Same, Less, Gather(RegionsOf, ms)));
    SameGather(Same, SourcesOf, ls, ms);
    DedupKeys(Same, Gather(SourcesOf, ls));
    DedupKeys(Same, Gather(SourcesOf, ms));
  }

  lemma FirstOpening(fold: string -> string, j: Job, k: Job)
    requires WithParent(fold, j) == j && WithParent(fold, k) == k
    requires KeySeq(ByKey(fold), j.openings) == KeySeq(ByKey(fold), k.openings)
    ensures j.url == k.url && j.applyURL == k.applyURL
  {
    hide RawOf;
    assert |j.openings| == |KeySeq(ByKey(fold), j.openings)| == |k.openings|;
    if j.openings != [] {
      assert KeySeq(ByKey(fold), j.openings)[0] == KeyOf(fold, j.openings[0]);
      assert KeySeq(ByKey(fold), k.openings)[0] == KeyOf(fold, k.openings[0]);
    }
  }

  /** Saving a listing again that the row already holds changes its last sighting and nothing else. */
  lemma ResaveTouchesLastSeenOnly(fold: string -> string, ls: seq<Job>, now: nat -> int, l: Job, t: int)
    requires l in ls
    ensures Stored(MergeJob(fold, SaveAll(fold, ls, now), l, t)) == SaveAll(fold, ls, now).(lastSeen := t)
  {
    SavedHolds(fold, ls, now);
    HeldResave(fold, SaveAll(fold, ls, now), ls, l, t);
  }

  lemma HeldResave(fold: string -> string, j: Job, ls: seq<Job>, l: Job, t: int)
    requires Holds(fold, j, ls) && l in ls
    ensures Stored(MergeJob(fold, j, l, t)) == j.(lastSeen := t)
  {
    hide Dedup, Merged, RawOf, Clean, Gather, LatestOf;
    NextSave(fold, j, ls, l, t);
    AbsorbPart(Same, SourcesOf, ls, l);
    AbsorbPart(ByKey(fold), OpeningsOf, ls, l);
    AbsorbPart(Same, CountriesOf, ls, l);
    AbsorbPart(Same, RegionsOf, ls, l);
    MergeAbsorbs(Same, Less, Gather(SourcesOf, ls), SourcesOf(l));
    MergeAbsorbs(ByKey(fold), KeyLess, Gather(OpeningsOf, ls), OpeningsOf(l));
    MergeAbsorbs(Same, Less, Gather(CountriesOf, ls), CountriesOf(l));
    MergeAbsorbs(Same, Less, Gather(RegionsOf, ls), RegionsOf(l));
    assert forall x :: x in ls + [l] <==> x in ls;
    SameLatest(ls + [l], ls);
    ResaveFields(fold, j, l, t);
  }

  lemma ResaveFields(fold: string -> string, j: Job, l: Job, t: int)
    requires WithParent(fold, j) == j
    requires var k := Stored(MergeJob(fold, j, l, t));
      && WithParent(fold, k) == k && k.source == j.source && k.sources == j.sources && k.openings == j.openings
      && k.location.countries == j.location.countries && k.location.regions == j.location.regions
      && k.postedAt == j.postedAt
    requires Blank(j.website) ==> Blank(l.website)
    ensures Stored(MergeJob(fold, j, l, t)) == j.(lastSeen := t)
  {
    hide RawOf, MergedOpenings, UnionCodes, SourceIDs, Later;
    var k := Stored(MergeJob(fold, j, l, t));
    assert k.location.raw == RawOf(fold, k.openings) == j.location.raw;
    assert k.location == j.location;
  }

  lemma AbsorbPart<T, K>(key: T -> K, f: Job -> seq<T>, ls: seq<Job>, l: Job)
    requires l in ls
    ensures Gather(f, ls + [l]) == Gather(f, ls) + f(l)
    ensures Keys(key, f(l)) <= Keys(key, Gather(f, ls))
  {
    GatherAppend(f, ls, l);
    forall x | x in f(l) ensures x in Gather(f, ls) {
      InGather(f, ls, x);
    }
    SubKeys(key, f(l), Gather(f, ls));
  }

  /** The same board listing saved twice in a row changes the last sighting and nothing else, its text included. */
  lemma BoardResave(fold: string -> string, ls: seq<Job>, j: Job, l: Job, t: int, u: int)
    requires Holds(fold, j, ls)
    ensures var k := Stored(MergeBoardJob(fold, j, l, t)); Stored(MergeBoardJob(fold, k, l, u)) == k.(lastSeen := u)
  {
    hide Dedup, Merged, RawOf, Clean, Gather, MergeJob;
    var m := Stored(MergeJob(fold, j, l, t));
    NextSave(fold, j, ls, l, t);
    HeldResave(fold, m, ls + [l], l, u);
    var k := Stored(MergeBoardJob(fold, j, l, t));
    assert k == m.(title := k.title, description := k.description);
    TextIsCarried(fold, m, k, l, u);
  }

  /** Title and description play no part in a merge. */
  lemma TextIsCarried(fold: string -> string, m: Job, k: Job, l: Job, u: int)
    requires k == m.(title := k.title, description := k.description)
    ensures MergeJob(fold, k, l, u) == MergeJob(fold, m, l, u).(title := k.title, description := k.description)
  {
    hide Dedup, Merged, RawOf, Clean, Later;
  }
}
