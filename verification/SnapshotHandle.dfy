/** Snapshot handles. A handle is either a bare snapshot id or a cloud resource name,
    whose last segment is the id and whose fourth-from-last names the account. */
module SnapshotHandle {
  import opened Text

  datatype Handle = Handle(snapshotID: string, accountID: string)

  /** The text after the first slash, up to the next one. */
  function AccountOf(segment: string): string {
    var tokens := Split(segment, '/');
    if |tokens| > 1 then tokens[1] else ""
  }

  function ParseHandle(text: string): Handle {
    var tokens := Split(text, ':');
    if |tokens| > 9 then Handle(tokens[|tokens| - 1], AccountOf(tokens[|tokens| - 4]))
    else Handle(text, "")
  }

  /** The segments of a resource name the provider issues for a snapshot. */
  predicate NamesSnapshot(segments: seq<string>, snapshotID: string, account: string) {
    && |segments| >= 10
    && (forall s | s in segments :: ':' !in s)
    && segments[|segments| - 1] == snapshotID
    && segments[|segments| - 4] == "a/" + account
    && '/' !in account
  }

  lemma AccountRoundTrip(account: string)
    requires '/' !in account
    ensures AccountOf("a/" + account) == account
  {
    AccountIsSecondPart("a", account, "");
    assert "a/" + account == "a" + "/" + account;
  }

  /** The account of any segment: what stands between its first two slashes, or after the
      only one; a segment without a slash has none. */
  lemma AccountIsSecondPart(before: string, account: string, rest: string)
    requires '/' !in before && '/' !in account
    ensures AccountOf(before) == ""
    ensures AccountOf(before + "/" + account) == account
    ensures AccountOf(before + "/" + account + "/" + rest) == account
  {
    SplitWhole(before, '/');
    SplitWhole(account, '/');
    SplitSegment(before, account, '/');
    SplitSegment(account, rest, '/');
    SplitSegment(before, account + "/" + rest, '/');
    assert before + "/" + account + "/" + rest == before + ['/'] + (account + ['/'] + rest);
  }

  /** Parsing undoes the construction of a resource name. */
  lemma HandleRoundTrip(segments: seq<string>, snapshotID: string, account: string)
    requires NamesSnapshot(segments, snapshotID, account)
    ensures ParseHandle(Join(segments, ':')) == Handle(snapshotID, account)
  {
    SplitUndoesJoin(segments, ':');
    AccountRoundTrip(account);
  }

  /** Text with fewer than nine colons is taken as a bare id, and only such text is. */
  lemma BareExactlyWhenFewColons(text: string)
    ensures ParseHandle(text).snapshotID == text <==> Occurrences(text, ':') < 9
    ensures Occurrences(text, ':') < 9 ==> ParseHandle(text).accountID == ""
  {
    SplitCount(text, ':');
    var tokens := Split(text, ':');
    if |tokens| > 9 {
      SplitSegmentsAreFree(text, ':', |tokens| - 1);
      OccursMeansPresent(text, ':');
    }
  }

  lemma {:induction false} OccursMeansPresent(s: string, c: char)
    requires Occurrences(s, c) > 0
    ensures c in s
  {
    if s[0] != c {
      OccursMeansPresent(s[1..], c);
    }
  }

  /** A bare id reads the same again, so a handle can be parsed at every hop. */
  lemma ParsingIsIdempotent(text: string)
    ensures ParseHandle(ParseHandle(text).snapshotID).snapshotID == ParseHandle(text).snapshotID
  {
    var tokens := Split(text, ':');
    if |tokens| > 9 {
      SplitSegmentsAreFree(text, ':', |tokens| - 1);
      SplitWhole(tokens[|tokens| - 1], ':');
    }
  }
}
