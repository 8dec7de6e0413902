/**
 * Clients of the listener in the situations the test project sets up:
 * two stores with one listener each, commits reported to one of them, and a
 * test waiting for the snapshot document `Something` with a given tracking id.
 * Each is proved from the listener's contracts alone.
 */
module Scenarios {
  import opened Wrappers
  import opened Records
  import opened ProjectionSearch
  import opened Listeners

  /**
   * Two listeners of two stores: a commit reported to one leaves the other's
   * Events and Documents as they were.
   */
  method CommitToOneStore(reported: Listener, other: Listener, commit: ChangeSet)
    requires reported != other
    modifies reported
    ensures reported.Events == old(reported.Events) + commit.events
    ensures reported.Documents == old(reported.Documents) + commit.updated
    ensures other.Events == old(other.Events) && other.Documents == old(other.Documents)
  {
    reported.AfterCommitAsync(commit);
  }

  /**
   * A fresh listener of a store with an inline `Something` snapshot: one
   * commit appends one `SomethingHappened` event to a stream, and the store
   * reports the snapshot it built for that stream. The listener then holds
   * exactly that event and exactly that one document.
   */
  method OneEventCommitted(streamId: Guid, trackingId: Guid) returns (events: seq<Event>, documents: seq<Instance>)
    ensures |events| == 1 && events[0].data == SomethingHappened(trackingId)
    ensures events[0].streamId == streamId
    ensures |documents| == 1 && documents[0] == Something(streamId, trackingId)
  {
    var listener := new Listener("store1");
    var commit := ChangeSet([Event(streamId, SomethingHappened(trackingId))], [Something(streamId, trackingId)]);
    listener.AfterCommitAsync(commit);
    events, documents := listener.Events, listener.Documents;
  }

  /** Two commits of one and two events: all three, in submission order. */
  method TwoCommitsInOrder(e1: Event, e2: Event, e3: Event) returns (events: seq<Event>)
    ensures events == [e1, e2, e3]
  {
    var listener := new Listener("store1");
    listener.AfterCommitAsync(ChangeSet([e1], []));
    listener.AfterCommitAsync(ChangeSet([e2, e3], []));
    events := listener.Events;
  }

  /** `s => s.TrackingId == trackingId`, a `Func<Something, bool>`. */
  function TrackedBy(trackingId: Guid): (pred: Instance --> bool)
    ensures Applicable(SomethingType, pred)
    ensures forall d: Instance :: d.Something? ==> pred.requires(d) && (pred(d) <==> d.trackingId == trackingId)
  {
    (d: Instance) requires d.Something? => d.trackingId == trackingId
  }

  /**
   * The test's wait, `WaitForProjection<Something>(s => s.TrackingId == id)`,
   * without a token of its own, while an unrelated document is already in
   * the log and the writer first commits nothing and then the matching
   * snapshot. The wait ends on the third pass, at the snapshot's index,
   * long before the default ceiling.
   */
  method ProjectionArrivesLater(id: Guid, trackingId: Guid, timer: CancellationToken)
    returns (status: TaskStatus, ghost passes: nat)
    requires IsDefaultTimerToken(timer)
    requires 3 <= timer.requestedAfter
    ensures status == RanToCompletion(Found(1)) && passes == 3
  {
    var listener := new Listener("repro-1");
    var unrelated := Other("Marten.Events.Aggregation", false, []);
    listener.AfterCommitAsync(ChangeSet([], [unrelated]));
    var snapshot := Something(id, trackingId);
    var writer := [ChangeSet([], []), ChangeSet([Event(trackingId, SomethingHappened(trackingId))], [snapshot])];
    var pred := TrackedBy(trackingId);
    ghost var base := [unrelated];
    assert Seen(base, writer, 0) == base && Seen(base, writer, 1) == base by {
      assert Arrived(writer, 0) == [] && Arrived(writer, 1) == [writer[0]];
      assert UpdatedIn([writer[0]]) == UpdatedIn([]) + [];
    }
    assert Seen(base, writer, 2) == [unrelated, snapshot] by {
      assert Arrived(writer, 2) == writer;
      assert writer[..1] == [writer[0]];
    }
    assert FirstMatch(base, SomethingType, pred, 0, 1) == None;
    assert FirstMatch([unrelated, snapshot], SomethingType, pred, 0, 2) == Some(1) by {
      assert Matches(SomethingType, pred, snapshot);
    }
    assert listener.Documents == base;
    ghost var outcome, commits;
    status, outcome, passes, commits := listener.WaitForProjection(SomethingType, pred, None, timer, writer);
    assert !MissedAt(base, writer, SomethingType, pred, 2);
    // so neither cancellation nor an earlier pass can have ended the wait
    assert commits <= 2;
  }

  /**
   * A wait bounded by a caller token that is requested after one pass, with
   * nothing matching: the task still runs to completion, exactly as it does
   * when the document is found, so an awaiting test cannot tell the two apart.
   */
  method TimeoutLooksLikeSuccess(trackingId: Guid, timer: CancellationToken) returns (status: TaskStatus, ghost passes: nat)
    requires IsDefaultTimerToken(timer)
    ensures status == RanToCompletion(NotFound) && passes == 1
  {
    var listener := new Listener("repro-2");
    ghost var outcome, commits;
    status, outcome, passes, commits := listener.WaitForProjection(SomethingType, TrackedBy(trackingId), Some(CancellationToken(1)), timer, []);
  }

  /**
   * A caller token already requested when the wait starts: no document is
   * examined and the task is Canceled.
   */
  method AlreadyCancelled(trackingId: Guid, timer: CancellationToken) returns (status: TaskStatus, ghost passes: nat)
    requires IsDefaultTimerToken(timer)
    ensures status == Canceled && passes == 0
  {
    var listener := new Listener("repro-1");
    listener.AfterCommitAsync(ChangeSet([], [Something(trackingId, trackingId)]));
    ghost var outcome, commits;
    status, outcome, passes, commits := listener.WaitForProjection(SomethingType, TrackedBy(trackingId), Some(CancellationToken(0)), timer, []);
  }

  /** `h => h.TrackingId == trackingId`, a `Func<SomethingHappened, bool>`. */
  function HappenedWith(trackingId: Guid): (pred: Instance --> bool)
    ensures Applicable(SomethingHappenedType, pred)
    ensures forall d: Instance :: d.SomethingHappened? ==> pred.requires(d) && (pred(d) <==> d.trackingId == trackingId)
  {
    (d: Instance) requires d.SomethingHappened? => d.trackingId == trackingId
  }

  /**
   * A wait for a `SomethingHappened` object that is already logged: the
   * first pass finds it, and the log line then reads `.Id`, which that
   * record lacks, so the task is Faulted instead of completing.
   */
  method FoundWithoutIdFaults(trackingId: Guid, timer: CancellationToken) returns (status: TaskStatus, ghost passes: nat)
    requires IsDefaultTimerToken(timer)
    ensures status == Faulted && passes == 1
  {
    var listener := new Listener("repro-1");
    var logged := SomethingHappened(trackingId);
    listener.AfterCommitAsync(ChangeSet([], [logged]));
    var pred := HappenedWith(trackingId);
    assert listener.Documents == [logged] == Seen([logged], [], 0);
    assert FirstMatch([logged], SomethingHappenedType, pred, 0, 1) == Some(0) by {
      assert Matches(SomethingHappenedType, pred, logged);
    }
    ghost var outcome, commits;
    status, outcome, passes, commits := listener.WaitForProjection(SomethingHappenedType, pred, None, timer, []);
    assert !MissedAt([logged], [], SomethingHappenedType, pred, 0);
  }
}
