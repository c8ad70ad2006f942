/** The demand-driven subscription of a list read (`RecordsImpl` and its
  * `DatabaseSubscription`), as a sequential state machine: the subscriber
  * asks for rows with `request`, the subscription hands over the rows the
  * result set holds without fetching and asks the database for more, one
  * fetch at a time; the completion of a fetch is an explicit event. */
module DaoImplSubscription {

  import opened Values

  /** What a subscriber is told. */
  datatype Signal = OnSubscribe | OnNext(row: Row) | OnError(error: Error) | OnComplete

  /** The rows handed over by a sequence of signals, in order. */
  function NextRows(signals: seq<Signal>): (r: seq<Row>)
    ensures |r| <= |signals|
    decreases |signals|
  {
    if signals == [] then []
    else
      var last := signals[|signals| - 1];
      NextRows(signals[..|signals| - 1]) + (if last.OnNext? then [last.row] else [])
  }

  /** One `onNext` per row, in order. */
  function OnNexts(rows: seq<Row>): (r: seq<Signal>)
    ensures |r| == |rows| && forall i :: 0 <= i < |rows| ==> r[i] == OnNext(rows[i])
  {
    seq(|rows|, i requires 0 <= i < |rows| => OnNext(rows[i]))
  }

  lemma {:induction false} NextRowsAppend(signals: seq<Signal>, more: seq<Signal>)
    ensures NextRows(signals + more) == NextRows(signals) + NextRows(more)
    decreases |more|
  {
    if more == [] {
      assert signals + more == signals;
    } else {
      var init := more[..|more| - 1];
      assert (signals + more)[..|signals + more| - 1] == signals + init;
      NextRowsAppend(signals, init);
    }
  }

  /** The rows of `onNext` signals are exactly those rows. */
  lemma {:induction false} NextRowsOfOnNexts(rows: seq<Row>)
    ensures NextRows(OnNexts(rows)) == rows
    decreases |rows|
  {
    if rows != [] {
      var init := rows[..|rows| - 1];
      assert OnNexts(rows)[..|rows| - 1] == OnNexts(init);
      NextRowsOfOnNexts(init);
    }
  }

  /** What one `processReadRequests` does, given the rows available without
    * fetching, the pending demand, whether a fetch is running and whether the
    * result set is fully fetched. */
  datatype Plan = Plan(deliver: nat, complete: bool, fetch: bool)

  function ProcessPlan(available: nat, pending: nat, running: bool, fullyFetched: bool): (p: Plan)
    // the drain hands over min(available, pending) rows
    ensures p.deliver <= available && p.deliver <= pending
    ensures p.deliver == available || p.deliver == pending
    // more rows are asked for exactly when the demand is not met or nothing is available
    ensures p.fetch <==> !running && (available == 0 || p.deliver < pending)
    // a fully fetched result set completes the subscriber whenever more is asked for
    ensures p.complete <==> fullyFetched && (available == 0 || p.deliver < pending)
    // unmet demand always leaves a fetch running
    ensures p.deliver < pending ==> p.fetch || running
  {
    if available == 0 then
      Plan(0, fullyFetched, !running)
    else if available >= pending then
      Plan(pending, false, false)
    else
      Plan(available, fullyFetched, !running)
  }

  /** What the subscriber is told by one `processReadRequests`: the
    * completion, if any, comes before the rows. */
  function PlanSignals(p: Plan, available: seq<Row>): (r: seq<Signal>)
    requires p.deliver <= |available|
    ensures NextRows(r) == available[..p.deliver]
    ensures OnComplete in r <==> p.complete
  {
    NextRowsAppend(if p.complete then [OnComplete] else [], OnNexts(available[..p.deliver]));
    NextRowsOfOnNexts(available[..p.deliver]);
    assert NextRows([OnComplete]) == [] by {
      assert [OnComplete][..0] == [];
    }
    (if p.complete then [OnComplete] else []) + OnNexts(available[..p.deliver])
  }

  /** The driver's result set: the rows fetched and not yet iterated, and the
    * rows still on the server. */
  class ResultSet {
    var available: seq<Row>
    var unfetched: seq<Row>

    constructor (available: seq<Row>, unfetched: seq<Row>)
      ensures this.available == available && this.unfetched == unfetched
    {
      this.available := available;
      this.unfetched := unfetched;
    }

    function AvailableWithoutFetching(): (r: nat)
      reads this
      ensures r == |available|
    {
      |available|
    }

    predicate IsFullyFetched()
      reads this
    {
      unfetched == []
    }

    /** `iterator.next()` within the available rows. */
    method Next() returns (row: Row)
      requires available != []
      modifies this
      ensures row == old(available[0]) && available == old(available[1..]) && unfetched == old(unfetched)
    {
      row := available[0];
      available := available[1..];
    }

    /** The driver completing `fetchMoreResults` with the next `k` rows. */
    method Fetched(k: nat)
      requires k <= |unfetched|
      modifies this
      ensures available == old(available) + old(unfetched[..k]) && unfetched == old(unfetched[k..])
    {
      available := available + unfetched[..k];
      unfetched := unfetched[k..];
    }
  }

  class Subscriber {
    var signals: seq<Signal>

    constructor ()
      ensures signals == []
    {
      signals := [];
    }

    method Receive(s: Signal)
      modifies this
      ensures signals == old(signals) + [s]
    {
      signals := signals + [s];
    }
  }

  class DatabaseSubscription {
    const rs: ResultSet
    const subscriber: Subscriber
    var numPendingReads: int
    /** Whether a `fetchMoreResults` is in flight. */
    var runningDatabaseQuery: bool

    /** The total demand so far. */
    ghost var requested: int
    /** The rows handed over so far, and every row of the result. */
    ghost var delivered: seq<Row>
    ghost var allRows: seq<Row>
    /** The rows the subscriber had been handed before this subscription. */
    ghost const priorRows: seq<Row>
    ghost var fetchesIssued: nat
    ghost var fetchesCompleted: nat

    ghost predicate Valid()
      reads this, rs, subscriber
    {
      && numPendingReads >= 0
      && |delivered| + numPendingReads == requested
      && delivered + rs.available + rs.unfetched == allRows
      && NextRows(subscriber.signals) == priorRows + delivered
      && fetchesIssued == fetchesCompleted + (if runningDatabaseQuery then 1 else 0)
    }

    constructor (rs: ResultSet, subscriber: Subscriber)
      ensures Valid()
      ensures this.rs == rs && this.subscriber == subscriber
      ensures numPendingReads == 0 && !runningDatabaseQuery && requested == 0 && delivered == []
      ensures allRows == rs.available + rs.unfetched && fetchesIssued == 0
    {
      this.rs := rs;
      this.subscriber := subscriber;
      numPendingReads := 0;
      runningDatabaseQuery := false;
      requested := 0;
      delivered := [];
      allRows := rs.available + rs.unfetched;
      priorRows := NextRows(subscriber.signals);
      fetchesIssued := 0;
      fetchesCompleted := 0;
    }

    /** `request(n)`: a positive demand is added and drained; any other
      * does nothing. */
    method Request(n: int)
      requires Valid()
      modifies this, rs, subscriber
      ensures Valid()
      ensures n <= 0 ==> unchanged(this, rs, subscriber)
      ensures n > 0 ==> requested == old(requested) + n
      ensures n > 0 ==>
        Drained(ProcessPlan(|old(rs.available)|, old(numPendingReads) + n, old(runningDatabaseQuery), old(rs.unfetched) == []),
                old(rs.available), old(rs.unfetched), old(numPendingReads) + n, old(runningDatabaseQuery),
                old(delivered), old(subscriber.signals), old(fetchesIssued), old(fetchesCompleted))
    {
      if n > 0 {
        numPendingReads := numPendingReads + n;
        requested := requested + n;
        ProcessReadRequests();
      }
    }

    /** Hands over the first `count` available rows, in order, keeping the
      * handed-over, available and unfetched rows together the whole result. */
    method Deliver(count: nat)
      requires count <= |rs.available|
      requires delivered + rs.available + rs.unfetched == allRows
      requires NextRows(subscriber.signals) == priorRows + delivered
      modifies this`delivered, rs, subscriber
      ensures delivered == old(delivered) + old(rs.available)[..count]
      ensures rs.available == old(rs.available)[count..] && rs.unfetched == old(rs.unfetched)
      ensures subscriber.signals == old(subscriber.signals) + OnNexts(old(rs.available)[..count])
      ensures delivered + rs.available + rs.unfetched == allRows
      ensures NextRows(subscriber.signals) == priorRows + delivered
    {
      ghost var rows := rs.available;
      ghost var start := delivered;
      ghost var signals0 := subscriber.signals;
      HandOver(count);
      ghost var handed := rows[..count];
      calc {
        delivered + rs.available + rs.unfetched;
        (start + handed) + rows[count..] + rs.unfetched;
        { assert (start + handed) + rows[count..] == start + (handed + rows[count..]);
          assert handed + rows[count..] == rows; }
        start + rows + rs.unfetched;
      }
      NextRowsAppend(signals0, OnNexts(handed));
      NextRowsOfOnNexts(handed);
      assert NextRows(subscriber.signals) == (priorRows + start) + handed;
    }

    /** The loop of `processReadRequests`: `onNext(next())` `count` times. */
    method HandOver(count: nat)
      requires count <= |rs.available|
      modifies this`delivered, rs, subscriber
      ensures delivered == old(delivered) + old(rs.available)[..count]
      ensures rs.available == old(rs.available)[count..] && rs.unfetched == old(rs.unfetched)
      ensures subscriber.signals == old(subscriber.signals) + OnNexts(old(rs.available)[..count])
    {
      ghost var rows := rs.available;
      ghost var unfetched := rs.unfetched;
      ghost var start := delivered;
      ghost var signals0 := subscriber.signals;
      var i := 0;
      while i < count
        invariant 0 <= i <= count
        invariant delivered == start + rows[..i]
        invariant rs.available == rows[i..] && rs.unfetched == unfetched
        invariant subscriber.signals == signals0 + OnNexts(rows[..i])
      {
        var row := rs.Next();
        assert rows[..i + 1] == rows[..i] + [row];
        subscriber.Receive(OnNext(row));
        delivered := delivered + [row];
        assert OnNexts(rows[..i + 1]) == OnNexts(rows[..i]) + [OnNext(row)];
        i := i + 1;
      }
    }

    /** The state after a drain by plan `p`, from an earlier state with the
      * given available and unfetched rows, demand, fetch flag, handed-over
      * rows, signals and fetch counts. */
    ghost predicate Drained(p: Plan, rows: seq<Row>, unfetched: seq<Row>, pending: int, running: bool,
                            delivered0: seq<Row>, signals0: seq<Signal>, issued: nat, completed: nat)
      reads this, rs, subscriber
    {
      && p.deliver <= |rows|
      && numPendingReads == pending - p.deliver
      && delivered == delivered0 + rows[..p.deliver]
      && rs.available == rows[p.deliver..] && rs.unfetched == unfetched
      && subscriber.signals == signals0 + PlanSignals(p, rows)
      && runningDatabaseQuery == (running || p.fetch)
      && fetchesIssued == issued + (if p.fetch then 1 else 0)
      && fetchesCompleted == completed
    }

    /** `processReadRequests()`: nothing available asks for more; enough
      * available hands over the demand; too little asks for more first and
      * then hands over what there is. */
    method ProcessReadRequests()
      requires Valid()
      modifies this, rs, subscriber
      ensures Valid()
      ensures requested == old(requested) && allRows == old(allRows)
      ensures Drained(ProcessPlan(|old(rs.available)|, old(numPendingReads), old(runningDatabaseQuery), old(rs.unfetched) == []),
                      old(rs.available), old(rs.unfetched), old(numPendingReads), old(runningDatabaseQuery),
                      old(delivered), old(subscriber.signals), old(fetchesIssued), old(fetchesCompleted))
    {
      var available := rs.AvailableWithoutFetching();
      var numToRead := numPendingReads;
      if available == 0 {
        AskForMore();
      } else if available >= numToRead {
        DrainAll();
      } else {
        DrainPartly();
      }
    }

    /** Nothing is available: ask the database for more. */
    method AskForMore()
      requires Valid() && rs.available == []
      modifies this, rs, subscriber
      ensures Valid()
      ensures requested == old(requested) && allRows == old(allRows)
      ensures Drained(ProcessPlan(|old(rs.available)|, old(numPendingReads), old(runningDatabaseQuery), old(rs.unfetched) == []),
                      old(rs.available), old(rs.unfetched), old(numPendingReads), old(runningDatabaseQuery),
                      old(delivered), old(subscriber.signals), old(fetchesIssued), old(fetchesCompleted))
    {
      ghost var p := ProcessPlan(0, numPendingReads, runningDatabaseQuery, rs.IsFullyFetched());
      RequestDatabaseForMoreRecords();
      assert PlanSignals(p, []) == (if p.complete then [OnComplete] else []) + [];
      assert delivered + [] == delivered;
    }

    /** Enough is available: hand over the whole demand. */
    method DrainAll()
      requires Valid() && 0 < |rs.available| && numPendingReads <= |rs.available|
      modifies this, rs, subscriber
      ensures Valid()
      ensures requested == old(requested) && allRows == old(allRows)
      ensures Drained(ProcessPlan(|old(rs.available)|, old(numPendingReads), old(runningDatabaseQuery), old(rs.unfetched) == []),
                      old(rs.available), old(rs.unfetched), old(numPendingReads), old(runningDatabaseQuery),
                      old(delivered), old(subscriber.signals), old(fetchesIssued), old(fetchesCompleted))
    {
      var numToRead := numPendingReads;
      ghost var rows := rs.available;
      ghost var p := ProcessPlan(|rows|, numToRead, runningDatabaseQuery, rs.IsFullyFetched());
      Take(numToRead);
      assert p == Plan(numToRead, false, false);
      assert PlanSignals(p, rows) == [] + OnNexts(rows[..numToRead]);
    }

    /** Too little is available: ask for more, then hand over what there is. */
    method DrainPartly()
      requires Valid() && 0 < |rs.available| < numPendingReads
      modifies this, rs, subscriber
      ensures Valid()
      ensures requested == old(requested) && allRows == old(allRows)
      ensures Drained(ProcessPlan(|old(rs.available)|, old(numPendingReads), old(runningDatabaseQuery), old(rs.unfetched) == []),
                      old(rs.available), old(rs.unfetched), old(numPendingReads), old(runningDatabaseQuery),
                      old(delivered), old(subscriber.signals), old(fetchesIssued), old(fetchesCompleted))
    {
      var available := rs.AvailableWithoutFetching();
      ghost var rows := rs.available;
      ghost var signals0 := subscriber.signals;
      ghost var p := ProcessPlan(available, numPendingReads, runningDatabaseQuery, rs.IsFullyFetched());
      assert p == Plan(available, rs.unfetched == [], !runningDatabaseQuery);
      ghost var completion := if p.complete then [OnComplete] else [];
      RequestDatabaseForMoreRecords();
      Take(available);
      assert PlanSignals(p, rows) == completion + OnNexts(rows[..available]);
      assert subscriber.signals == signals0 + PlanSignals(p, rows);
    }

    /** Takes `count` of the pending reads and hands over as many rows. */
    method Take(count: nat)
      requires Valid() && count <= |rs.available| && count <= numPendingReads
      modifies this`numPendingReads, this`delivered, rs, subscriber
      ensures Valid()
      ensures numPendingReads == old(numPendingReads) - count
      ensures delivered == old(delivered) + old(rs.available)[..count]
      ensures rs.available == old(rs.available)[count..] && rs.unfetched == old(rs.unfetched)
      ensures subscriber.signals == old(subscriber.signals) + OnNexts(old(rs.available)[..count])
    {
      numPendingReads := numPendingReads - count;
      Deliver(count);
    }

    /** `requestDatabaseForMoreRecords()`: a fully fetched result set
      * completes the subscriber, and a fetch is issued anyway unless one is
      * running. */
    method RequestDatabaseForMoreRecords()
      requires NextRows(subscriber.signals) == priorRows + delivered
      requires fetchesIssued == fetchesCompleted + (if runningDatabaseQuery then 1 else 0)
      modifies this`runningDatabaseQuery, this`fetchesIssued, subscriber
      ensures subscriber.signals == old(subscriber.signals) + (if rs.IsFullyFetched() then [OnComplete] else [])
      ensures runningDatabaseQuery
      ensures fetchesIssued == old(fetchesIssued) + (if old(runningDatabaseQuery) then 0 else 1)
      ensures NextRows(subscriber.signals) == priorRows + delivered
      ensures fetchesIssued == fetchesCompleted + (if runningDatabaseQuery then 1 else 0)
    {
      if rs.IsFullyFetched() {
        Cancel();
      }
      if !runningDatabaseQuery {
        runningDatabaseQuery := true;
        fetchesIssued := fetchesIssued + 1;
      }
    }

    /** `cancel()`: completes the subscriber. */
    method Cancel()
      requires NextRows(subscriber.signals) == priorRows + delivered
      modifies subscriber
      ensures subscriber.signals == old(subscriber.signals) + [OnComplete]
      ensures NextRows(subscriber.signals) == priorRows + delivered
    {
      NextRowsAppend(subscriber.signals, [OnComplete]);
      assert NextRows([OnComplete]) == [] by {
        assert [OnComplete][..0] == [];
      }
      subscriber.Receive(OnComplete);
    }

    /** The running fetch completes with the next `k` rows: its listener
      * clears the flag and drains again. */
    method FetchCompleted(k: nat)
      requires Valid() && runningDatabaseQuery && k <= |rs.unfetched|
      modifies this, rs, subscriber
      ensures Valid()
      ensures requested == old(requested) && fetchesCompleted == old(fetchesCompleted) + 1
      ensures var avail := old(rs.available) + old(rs.unfetched)[..k];
        Drained(ProcessPlan(|avail|, old(numPendingReads), false, old(rs.unfetched)[k..] == []),
                avail, old(rs.unfetched)[k..], old(numPendingReads), false,
                old(delivered), old(subscriber.signals), old(fetchesIssued), old(fetchesCompleted) + 1)
    {
      rs.Fetched(k);
      runningDatabaseQuery := false;
      fetchesCompleted := fetchesCompleted + 1;
      ProcessReadRequests();
    }
  }

  /** `RecordsImpl`, as far as subscribing goes. */
  class RecordsImpl {
    const rs: ResultSet
    var subscription: DatabaseSubscription?

    constructor (rs: ResultSet)
      ensures this.rs == rs && subscription == null
    {
      this.rs := rs;
      subscription := null;
    }

    /** The first subscriber gets a subscription; every later one is told
      * that multiple subscriptions are not supported, and the first
      * subscription stays. */
    method Subscribe(subscriber: Subscriber)
      modifies this, subscriber
      ensures old(subscription) == null ==>
        && subscription != null && fresh(subscription)
        && subscription.rs == rs && subscription.subscriber == subscriber
        && subscription.Valid() && subscription.numPendingReads == 0 && !subscription.runningDatabaseQuery
        && subscriber.signals == old(subscriber.signals) + [OnSubscribe]
      ensures old(subscription) != null ==>
        && subscription == old(subscription)
        && subscriber.signals == old(subscriber.signals)
             + [OnError(IllegalState("subription alreday exists. Multi-subscribe is not supported"))]
      ensures old(subscription) != null && old(subscription.Valid()) ==> subscription.Valid()
    {
      if subscription == null {
        var s := new DatabaseSubscription(rs, subscriber);
        subscription := s;
        NextRowsAppend(subscriber.signals, [OnSubscribe]);
        assert NextRows([OnSubscribe]) == [] by {
          assert [OnSubscribe][..0] == [];
        }
        subscriber.Receive(OnSubscribe);
      } else {
        NextRowsAppend(subscriber.signals, [OnError(IllegalState("subription alreday exists. Multi-subscribe is not supported"))]);
        assert NextRows([OnError(IllegalState("subription alreday exists. Multi-subscribe is not supported"))]) == [] by {
          assert [OnError(IllegalState("subription alreday exists. Multi-subscribe is not supported"))][..0] == [];
        }
        subscriber.Receive(OnError(IllegalState("subription alreday exists. Multi-subscribe is not supported")));
      }
    }
  }

  /** Once every row is handed over, each completion of a fetch tells the
    * subscriber it is complete once more and issues yet another fetch. */
  lemma ExhaustedCompletesAndRefetches(pending: nat)
    ensures ProcessPlan(0, pending, false, true) == Plan(0, true, true)
    ensures PlanSignals(Plan(0, true, true), []) == [OnComplete]
  {
  }

  /** With a fully fetched result set holding fewer rows than asked for, the
    * subscriber is told it is complete and then still handed rows. */
  lemma CompletionBeforeLastRows(available: seq<Row>, pending: nat)
    requires 0 < |available| < pending
    ensures var p := ProcessPlan(|available|, pending, true, true);
      PlanSignals(p, available) == [OnComplete] + OnNexts(available)
  {
    assert available[..|available|] == available;
  }
}
