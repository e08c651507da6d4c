/** The leader's side of a follower's FETCH_LOG: streaming the log from where the follower stands. */
module CatchUp {
  import opened Bytes
  import opened LogFormat
  import opened Store
  import opened StoreRuns
  import opened LateReads
  import opened Partition

  lemma SameFiles(s: State, t: State)
    requires s.sealed == t.sealed && s.active == t.active
    ensures Written(s) == Written(t)
  {
    hide Records, SegmentRecords;
  }

  /** Where a catch-up that still has something to send stands after its next fetch. */
  lemma NextFetch(s: State, offset: nat)
    requires Inv(s) && offset < s.committed
    ensures s.active.base <= s.committed <= s.tail == |Written(s)|
    ensures var got := Fetch(s, offset, FETCH_BATCH);
            && (got == [] <==> s.sealed != [] && s.active.base <= offset)
            && offset + |got| <= (if s.sealed == [] || got == [] then s.tail else s.active.base)
            && got == Written(s)[offset..offset + |got|]
  {
    hide Inv, Written, Fetch, FetchEnd;
    FetchIsSlice(s, offset, FETCH_BATCH);
    FetchProgress(s, offset, FETCH_BATCH);
    CommittedRange(s);
    EndOfFile(s, offset);
  }

  lemma Joined<T>(s: seq<T>, a: nat, b: nat, c: nat)
    requires a <= b <= c <= |s|
    ensures s[a..b] + s[b..c] == s[a..c]
  {
  }

  /**
   * Sends consecutive records from exactly `start`, each once, across segments, on a log that does
   * not change meanwhile. It gets all the way to the committed offset exactly when nothing has
   * been sealed or the active segment is still empty; otherwise it stops where that segment begins.
   */
  method HandleFetchLog(store: PartitionStore, start: nat) returns (sent: seq<Record>)
    requires store.Valid()
    modifies store`cache
    ensures store.Valid()
    ensures start < store.committed ==>
              start + |sent| <= |Written(store.View())|
              && sent == Written(store.View())[start..start + |sent|]
    ensures start >= store.committed ==> sent == []
    ensures start + |sent| >= store.committed <==>
            start >= store.committed || store.sealed == [] || store.active.base == store.committed
    ensures start < store.committed && store.sealed != [] ==>
              start + |sent| == if start < store.active.base then store.active.base else start
  {
    hide Inv, Written, StoreRuns.Fetch, SegmentFor;
    sent := [];
    var offset := start;
    ghost var log := Written(store.View());
    CommittedRange(store.View());
    while offset < store.committed
      invariant store.Valid() && Written(store.View()) == log && |log| == store.tail
      invariant offset == start + |sent| && store.active.base <= store.committed <= |log|
      invariant start < store.committed ==> offset <= |log| && sent == log[start..offset]
      invariant start >= store.committed ==> sent == []
      invariant store.sealed != [] ==> offset <= if start < store.active.base then store.active.base else start
      decreases store.committed - offset
    {
      ghost var before := store.View();
      NextFetch(before, offset);
      var messages := store.Fetch(offset, FETCH_BATCH);
      SameFiles(before, store.View());
      if messages == [] { break; }
      Joined(log, start, offset, offset + |messages|);
      sent := sent + messages;
      offset := offset + |messages|;
    }
  }
}
