/**
 The companies table: rows by their immutable key, and the queries and writes of
 its repository. `First` in a query is the matching row with the smallest key.
 */
module CompanyTable {
  import opened Prelude
  import opened Text
  import opened TextLists

  datatype ATS = NoATS | Greenhouse | Lever | Ashby | OtherATS(name: string)

  datatype Resolution = Pending | Resolved | Unresolved | UnsupportedATS

  datatype Method = NoMethod | Seed | ApplyURL

  datatype PollState = Active | Inactive

  datatype Fault = KeyRequired | NameRequired | WebsiteRequired | AliasRequired | NotFound | NotPollable | FetchFailed | JobsFailed

  datatype Company = Company(
    key: string,
    name: string,
    aliases: seq<string>,
    website: string,
    ats: ATS,
    slug: string,
    boardURL: string,
    etag: string,
    status: Resolution,
    resolvedBy: Method,
    pollState: PollState,
    nextResolveAt: Option<int>,
    firstSeen: int,
    lastSeen: int,
    lastPolledAt: Option<int>,
    failCount: int,
    emptyStreak: int,
    needsReview: bool)

  type Companies = map<string, Company>

  /** Every row is stored under its own key. */
  ghost predicate Valid(rows: Companies) {
    forall k :: k in rows ==> rows[k].key == k && k != ""
  }

  predicate Pollable(ats: ATS) {
    ats.Greenhouse? || ats.Lever? || ats.Ashby?
  }

  /** Insert, or on a key conflict overwrite everything but the first sighting. */
  function Upserted(rows: Companies, c: Company): Companies {
    rows[c.key := if c.key in rows then c.(firstSeen := rows[c.key].firstSeen) else c]
  }

  function WebsiteKeys(rows: Companies, website: string): set<string> {
    set k | k in rows && rows[k].website == website
  }

  function AliasKeys(rows: Companies, form: string): set<string> {
    set k | k in rows && form in rows[k].aliases
  }

  predicate IsFirst(keys: set<string>, k: string) {
    k in keys && forall j :: j in keys && j != k ==> Less(k, j)
  }

  lemma {:induction false} FirstExists(keys: set<string>)
    requires keys != {}
    ensures exists k :: IsFirst(keys, k)
  {
    hide Less;
    var x :| x in keys;
    var rest := keys - {x};
    assert forall j :: j in keys ==> j in rest || j == x;
    if rest == {} {
      assert IsFirst(keys, x);
    } else {
      FirstExists(rest);
      var k :| IsFirst(rest, k);
      LessTotal(x, k);
      if Less(x, k) {
        forall j | j in keys && j != x ensures Less(x, j) {
          if j != k {
            LessTransitive(x, k, j);
          }
        }
        assert IsFirst(keys, x);
      } else {
        assert IsFirst(keys, k);
      }
    }
  }

  lemma FirstUnique(keys: set<string>, j: string, k: string)
    requires IsFirst(keys, j) && IsFirst(keys, k)
    ensures j == k
  {
    hide Less;
    if j != k {
      LessTransitive(j, k, j);
      LessIrreflexive(j);
    }
  }

  ghost function First(keys: set<string>): (k: string)
    requires keys != {}
    ensures IsFirst(keys, k)
  {
    FirstExists(keys);
    var k :| IsFirst(keys, k);
    k
  }

  /** The smallest of a non-empty set of keys. */
  method Smallest(keys: set<string>) returns (k: string)
    requires keys != {}
    ensures k == First(keys)
  {
    LessIsOrder();
    k :| k in keys;
    var rest := keys - {k};
    while rest != {}
      invariant k in keys && rest <= keys
      invariant forall j :: j in keys && j !in rest && j != k ==> Less(k, j)
      decreases |rest|
    {
      var j :| j in rest;
      if Less(j, k) {
        k := j;
      }
      rest := rest - {j};
    }
    FirstUnique(keys, k, First(keys));
  }

  class CompanyRepository {
    var rows: Companies

    constructor ()
      ensures rows == map[] && Valid(rows)
    {
      rows := map[];
    }

    method GetByKey(key: string) returns (r: Result<Company, Fault>)
      ensures if key == "" then r == Err(KeyRequired)
        else if key in rows then r == Ok(rows[key]) else r == Err(NotFound)
    {
      r := if key == "" then Err(KeyRequired) else if key in rows then Ok(rows[key]) else Err(NotFound);
    }

    method FindByWebsite(website: string) returns (r: Result<Company, Fault>)
      ensures if Blank(website) then r == Err(WebsiteRequired)
        else if WebsiteKeys(rows, Trim(website)) == {} then r == Err(NotFound)
        else var k := First(WebsiteKeys(rows, Trim(website))); r == Ok(rows[k])
    {
      if Trim(website) == "" {
        return Err(WebsiteRequired);
      }
      var keys := set k | k in rows && rows[k].website == Trim(website);
      assert keys == WebsiteKeys(rows, Trim(website));
      if keys == {} {
        return Err(NotFound);
      }
      var k := Smallest(keys);
      return Ok(rows[k]);
    }

    method FindByAlias(form: string) returns (r: Result<Company, Fault>)
      ensures if Blank(form) then r == Err(AliasRequired)
        else if AliasKeys(rows, Trim(form)) == {} then r == Err(NotFound)
        else var k := First(AliasKeys(rows, Trim(form))); r == Ok(rows[k])
    {
      if Trim(form) == "" {
        return Err(AliasRequired);
      }
      var keys := set k | k in rows && Trim(form) in rows[k].aliases;
      assert keys == AliasKeys(rows, Trim(form));
      if keys == {} {
        return Err(NotFound);
      }
      var k := Smallest(keys);
      return Ok(rows[k]);
    }

    method Upsert(c: Company) returns (r: Result<(), Fault>)
      modifies this`rows
      ensures if c.key == "" then r == Err(KeyRequired) && rows == old(rows)
        else if c.name == "" then r == Err(NameRequired) && rows == old(rows)
        else r == Ok(()) && rows == Upserted(old(rows), c)
    {
      if c.key == "" {
        return Err(KeyRequired);
      }
      if c.name == "" {
        return Err(NameRequired);
      }
      rows := rows[c.key := if c.key in rows then c.(firstSeen := rows[c.key].firstSeen) else c];
      return Ok(());
    }

    /** Poll bookkeeping of one row; the rest of it stays. */
    method MarkPolled(key: string, at: int, etag: string, failCount: int, emptyStreak: int, pollState: PollState)
      returns (r: Result<(), Fault>)
      modifies this`rows
      ensures if key == "" then r == Err(KeyRequired) && rows == old(rows)
        else if key !in old(rows) then r == Err(NotFound) && rows == old(rows)
        else r == Ok(()) && rows == old(rows)[key := Polled(old(rows)[key], at, etag, failCount, emptyStreak, pollState)]
    {
      if key == "" {
        return Err(KeyRequired);
      }
      if key !in rows {
        return Err(NotFound);
      }
      rows := rows[key := rows[key].(lastPolledAt := Some(at), etag := etag, failCount := failCount,
                                     emptyStreak := emptyStreak, pollState := pollState)];
      return Ok(());
    }

    method MarkResolution(
        key: string, status: Resolution, resolvedBy: Method, ats: ATS, slug: string, boardURL: string, next: Option<int>)
      returns (r: Result<(), Fault>)
      modifies this`rows
      ensures if key == "" then r == Err(KeyRequired) && rows == old(rows)
        else if key !in old(rows) then r == Err(NotFound) && rows == old(rows)
        else r == Ok(()) && rows == old(rows)[key := Committed(old(rows)[key], status, resolvedBy, ats, slug, boardURL, next)]
    {
      if key == "" {
        return Err(KeyRequired);
      }
      if key !in rows {
        return Err(NotFound);
      }
      rows := rows[key := rows[key].(status := status, resolvedBy := resolvedBy, ats := ats, slug := slug,
                                     boardURL := boardURL, nextResolveAt := next)];
      return Ok(());
    }
  }

  function Polled(
      c: Company, at: int, etag: string, failCount: int, emptyStreak: int, pollState: PollState): Company
  {
    c.(lastPolledAt := Some(at), etag := etag, failCount := failCount, emptyStreak := emptyStreak, pollState := pollState)
  }

  function Committed(
      c: Company, status: Resolution, resolvedBy: Method, ats: ATS, slug: string, boardURL: string, next: Option<int>): Company
  {
    c.(status := status, resolvedBy := resolvedBy, ats := ats, slug := slug, boardURL := boardURL, nextResolveAt := next)
  }
}
