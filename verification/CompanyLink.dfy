/**
 Which jobs the aggregator path links to a company: those whose content key is the
 company's key or one of its aliases. The keys are trimmed on the way; a content
 key is not, and it may have a blank at an end.
 */
module CompanyLink {
  import opened Prelude
  import opened Text
  import opened TextLists
  import opened CompanyKeys
  import opened CompanyTable
  import opened CompanyIdentity
  import JobTable

  /** A job is linked to the company afterwards exactly when it was, or its content key is one of the trimmed keys. */
  lemma LinkedIff(rows: JobTable.Rows, c: Company, now: int, id: string)
    requires id in rows && rows[id].companyKeyRef != Some(c.key)
    ensures var after, key := LinkedRows(rows, c, now)[id], rows[id].job.companyKey;
      && (after.companyKeyRef == Some(c.key) <==> key != "" && (key == Trim(c.key) || exists a :: a in c.aliases && key == Trim(a)))
      && (after.companyKeyRef == Some(c.key) || after == rows[id])
      && after.job == rows[id].job && after.closedAt == rows[id].closedAt && after.closedBy == rows[id].closedBy
  {
    hide Trim;
    var keys, key := [c.key] + c.aliases, rows[id].job.companyKey;
    CleanMember(keys, key);
    assert forall s :: s in keys <==> s == c.key || s in c.aliases;
  }

  /** The jobs of the company's own key are linked exactly when that key has no white space at an end. */
  lemma OwnJobsLinkedIff(rows: JobTable.Rows, c: Company, now: int, id: string)
    requires id in rows && rows[id].companyKeyRef != Some(c.key) && rows[id].job.companyKey == c.key != ""
    ensures LinkedRows(rows, c, now)[id].companyKeyRef == Some(c.key) <==> IsTrimmed(c.key)
  {
    LinkedIff(rows, c, now, id);
    TrimIsTrimmed(c.key);
    forall a | a in c.aliases && c.key == Trim(a) ensures IsTrimmed(c.key) {
      TrimIsTrimmed(a);
    }
  }

  /** The same for the jobs of an alias, which is kept trimmed, or of any other form. */
  lemma UntrimmedFormIsNeverLinked(rows: JobTable.Rows, c: Company, now: int, id: string)
    requires id in rows && !IsTrimmed(rows[id].job.companyKey)
    ensures LinkedRows(rows, c, now)[id] == rows[id]
  {
    hide Trim;
    var keys, key := [c.key] + c.aliases, rows[id].job.companyKey;
    CleanMember(keys, key);
    forall s | s in keys ensures Trim(s) != key {
      TrimIsTrimmed(s);
    }
  }

  /** A job of "foo ..." and the company its sighting creates have one key, and the job stays without a company. */
  lemma SightedJobStaysUnlinked(rules: Rules, jobs: JobTable.Rows, id: string, now: int, linkedAt: int)
    requires rules.lower("foo ...") == "foo ..." && !rules.blocklist("foo ", "").blocked
    requires id in jobs && jobs[id].job.companyKey == NormalizeName(rules.lower, "foo ...") && jobs[id].companyKeyRef == None
    ensures var after := Sight(rules, map[], Sighting("foo ...", "", ""), now);
      && after.result == Ok(Creates(jobs[id].job.companyKey))
      && JobsAfter(jobs, after.rows, after.result, linkedAt)[id].companyKeyRef == None
  {
    hide NormalizeName, TryKeys, IsTrimmed, Trim, LinkedRows;
    assert "foo" + " " + "..." == "foo ...";
    TwoWordsTrimmed("foo", "...");
    UntrimmedName(rules.lower);
    NoWebsite(rules);
    var f := FormsOf(rules, "foo ...", "");
    KeyHitSound(map[], TryKeys(f));
    AliasHitSound(map[], TryKeys(f));
    BlankAtEnd();
    UntrimmedFormIsNeverLinked(jobs, Newborn(f, "foo ...", Sighting("foo ...", "", ""), rules.blocklist("foo ", "").needsReview, now), linkedAt, id);
  }

  lemma NoWebsite(rules: Rules)
    requires rules.lower("foo ...") == "foo ..."
    ensures FormsOf(rules, "foo ...", "") == Forms("foo ", "foo ", "", "")
  {
    hide NormalizeName;
    UntrimmedName(rules.lower);
    TrimsAwayIff("");
  }

  lemma BlankAtEnd()
    ensures !IsTrimmed("foo ")
  {
    assert "foo "[3] == ' ';
    BlankIsSpace();
  }
}
