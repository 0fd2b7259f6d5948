/** Fetching all stored log records of a run, page by page, behind a cursor. */
module StoredLogs {
  type Int64 = x: int | -0x8000_0000_0000_0000 <= x < 0x8000_0000_0000_0000

  datatype Record = Record(id: Int64, body: string)

  datatype Reply = Page(records: seq<Record>, hasMore: bool) | Unreachable

  /** A log server, however it behaves: its answer may depend on the call and on the cursor. */
  class Collector {
    const behaviour: (nat, Int64) -> Reply
    var calls: nat

    constructor (behaviour: (nat, Int64) -> Reply)
      ensures this.behaviour == behaviour && calls == 0
    {
      this.behaviour := behaviour;
      calls := 0;
    }

    method FetchPage(after: Int64) returns (reply: Reply)
      modifies this
      ensures calls == old(calls) + 1 && reply == behaviour(old(calls), after)
    {
      reply := behaviour(calls, after);
      calls := calls + 1;
    }
  }

  /** The records of a table with identifiers above the cursor. */
  function Above(table: seq<Record>, after: Int64): seq<Record> {
    if table == [] then []
    else if table[0].id > after then [table[0]] + Above(table[1..], after)
    else Above(table[1..], after)
  }

  ghost predicate Ascending(table: seq<Record>) {
    forall i, j :: 0 <= i < j < |table| ==> table[i].id < table[j].id
  }

  /** A server that keeps this table answers with the first records above the cursor, and says
      truthfully whether there are more; it may fail now and then. */
  ghost predicate Serves(behaviour: (nat, Int64) -> Reply, table: seq<Record>) {
    forall call, after :: behaviour(call, after).Page? ==> ServesPage(behaviour(call, after), Above(table, after))
  }

  ghost predicate ServesPage(page: Reply, rest: seq<Record>)
    requires page.Page?
  {
    page.records <= rest && (page.hasMore <==> page.records != rest) && (page.hasMore ==> page.records != [])
  }

  lemma {:induction false} AllAbove(table: seq<Record>, after: Int64)
    requires forall i :: 0 <= i < |table| ==> table[i].id > after
    ensures Above(table, after) == table
  {
    if table == [] {
    } else {
      AllAbove(table[1..], after);
    }
  }

  lemma {:induction false} NoneAbove(table: seq<Record>, after: Int64)
    requires forall i :: 0 <= i < |table| ==> table[i].id <= after
    ensures Above(table, after) == []
  {
    if table == [] {
    } else {
      NoneAbove(table[1..], after);
    }
  }

  lemma {:induction false} AboveSplits(a: seq<Record>, b: seq<Record>, after: Int64)
    ensures Above(a + b, after) == Above(a, after) + Above(b, after)
  {
    if a == [] {
      assert a + b == b;
    } else {
      assert (a + b)[1..] == a[1..] + b;
      AboveSplits(a[1..], b, after);
    }
  }

  /** Above the last record taken lies exactly what has not been taken. */
  lemma CursorSplits(table: seq<Record>, n: nat)
    requires Ascending(table) && 0 < n <= |table|
    ensures Above(table, table[n - 1].id) == table[n..]
  {
    assert table == table[..n] + table[n..];
    hide Above;
    AboveSplits(table[..n], table[n..], table[n - 1].id);
    NoneAbove(table[..n], table[n - 1].id);
    AllAbove(table[n..], table[n - 1].id);
  }

  /** Stalled: the server announced more records without moving the cursor. */
  datatype Outcome = Fetched(records: seq<Record>) | Failed | Stalled

  /** A fetch ends so with this call, made for some cursor. */
  ghost predicate EndsWith(server: Collector, call: nat, r: Outcome) {
    exists after :: EndsAt(server.behaviour(call, after), after, r)
  }

  /** In failure exactly when the call was not answered, stalled exactly when the page announced
      more without moving the cursor, and otherwise with the records of the last page. */
  ghost predicate EndsAt(reply: Reply, after: Int64, r: Outcome) {
    && (r == Failed <==> reply == Unreachable)
    && (r == Stalled <==> Stuck(reply, after))
    && (r.Fetched? ==> !reply.hasMore && |reply.records| <= |r.records| && r.records[|r.records| - |reply.records|..] == reply.records)
  }

  lemma Ends(server: Collector, call: nat, after: Int64, r: Outcome)
    requires EndsAt(server.behaviour(call, after), after, r)
    ensures EndsWith(server, call, r)
  {
  }

  /** Every call from first on and before end is answered with a page. */
  ghost predicate AllAnswered(server: Collector, first: nat, end: nat) {
    forall call, after :: first <= call < end ==> server.behaviour(call, after).Page?
  }

  /** More is announced, but not beyond the cursor. */
  predicate Stuck(page: Reply, after: Int64) {
    page.Page? && page.hasMore && (page.records == [] || page.records[|page.records| - 1].id <= after)
  }

  /** Ends against any server, since the cursor only moves up within 64 bits: in failure exactly
      when its last call was not answered, stalled exactly when its last page announced more
      without moving the cursor. Against a server that keeps a table of positive ascending
      identifiers, it never stalls, and returns every record exactly once, in order, unless a
      call of its own was not answered. */
  method FetchAllStoredLogs(server: Collector) returns (r: Outcome)
    modifies server
    ensures old(server.calls) < server.calls
    ensures EndsWith(server, server.calls - 1, r)
    ensures forall table :: Serves(server.behaviour, table) && Ascending(table) && Positive(table) ==>
              r != Stalled && (r != Failed ==> r == Fetched(table))
    ensures AllAnswered(server, old(server.calls), server.calls) ==>
              forall table :: Serves(server.behaviour, table) && Ascending(table) && Positive(table) ==> r == Fetched(table)
  {
    var records: seq<Record> := [];
    var after: Int64 := 0;
    StartAbove();
    while true
      invariant after >= 0 && old(server.calls) <= server.calls
      invariant forall table :: Serves(server.behaviour, table) && Ascending(table) && Positive(table) ==> Taken(table, records, after)
      decreases 0x7fff_ffff_ffff_ffff - after
    {
      ghost var call := server.calls;
      var page := server.FetchPage(after);
      if page.Unreachable? {
        Ends(server, call, after, Failed);
        return Failed;
      }
      ghost var before := records;
      records := records + page.records;
      forall table | Serves(server.behaviour, table) && Ascending(table) && Positive(table)
        ensures ServesPage(page, Above(table, after)) && Taken(table, before, after)
        ensures page.hasMore ==> page.records != [] && page.records[|page.records| - 1].id > after
        ensures page.hasMore ==> Taken(table, records, page.records[|page.records| - 1].id)
        ensures !page.hasMore ==> records == table
      {
        assert ServesPage(server.behaviour(call, after), Above(table, after));
        PageTaken(table, before, after, page);
      }
      if !page.hasMore {
        Ends(server, call, after, Fetched(records));
        return Fetched(records);
      }
      if page.records == [] || page.records[|page.records| - 1].id <= after {
        Ends(server, call, after, Stalled);
        return Stalled;
      }
      after := page.records[|page.records| - 1].id;
    }
  }

  ghost predicate Positive(table: seq<Record>) {
    forall i :: 0 <= i < |table| ==> table[i].id > 0
  }

  /** What has been collected is the part of the table up to the cursor. */
  ghost predicate Taken(table: seq<Record>, records: seq<Record>, after: Int64) {
    records <= table && Above(table, after) == table[|records|..]
  }

  lemma StartAbove()
    ensures forall table :: Positive(table) ==> Taken(table, [], 0)
  {
    forall table | Positive(table)
      ensures Taken(table, [], 0)
    {
      AllAbove(table, 0);
    }
  }

  lemma PageTaken(table: seq<Record>, records: seq<Record>, after: Int64, page: Reply)
    requires page.Page? && Ascending(table) && Positive(table) && after >= 0 && Taken(table, records, after)
    requires ServesPage(page, Above(table, after))
    ensures !page.hasMore ==> records + page.records == table
    ensures page.hasMore ==> page.records[|page.records| - 1].id > after
    ensures page.hasMore ==> Taken(table, records + page.records, page.records[|page.records| - 1].id)
  {
    var n := |records| + |page.records|;
    assert table == records + table[|records|..];
    if page.hasMore {
      assert page.records == table[|records|..n];
      assert page.records[|page.records| - 1] == table[n - 1];
      AboveIsAbove(table, after);
      assert table[n - 1] in Above(table, after);
      CursorSplits(table, n);
    }
  }

  lemma {:induction false} AboveIsAbove(table: seq<Record>, after: Int64)
    ensures forall r :: r in Above(table, after) ==> r.id > after
  {
    if table == [] {
    } else {
      AboveIsAbove(table[1..], after);
    }
  }
}
