/**
 * The commit listener of MartenStoresWithSessionListener.Tests/Listener.cs.
 * `GenericListener<T>` and `Listener` differ only in what they log, so one
 * class stands for both, labelled by its category.
 */
module Listeners {
  import opened Wrappers
  import opened Records
  import opened ProjectionSearch

  /**
   * A cancellation token as the polling loop observes it:
   * `IsCancellationRequested` reads false at the top of the first
   * `requestedAfter` passes and true from then on (a token never un-cancels).
   */
  datatype CancellationToken = CancellationToken(requestedAfter: nat)
  {
    /**
     * `IsCancellationRequested`, read after `passes` passes have run: false
     * before the `requestedAfter`-th pass has run, true from then on.
     */
    predicate IsCancellationRequested(passes: nat): (r: bool)
      ensures passes < requestedAfter ==> !r
      ensures requestedAfter <= passes ==> r
    {
      requestedAfter <= passes
    }
  }

  /** A token never un-cancels: once it reads true, it reads true at every later pass. */
  lemma CancellationSticks(t: CancellationToken, earlier: nat, later: nat)
    requires earlier <= later
    ensures t.IsCancellationRequested(earlier) ==> t.IsCancellationRequested(later)
    ensures !t.IsCancellationRequested(later) ==> !t.IsCancellationRequested(earlier)
  {
  }

  /** The hard ceiling WaitForProjection puts on a wait the caller did not bound. */
  const DefaultTimeoutMs: nat := 10000
  /** The sleep between two passes that found nothing. */
  const PollIntervalMs: nat := 200

  /**
   * The token of the source WaitForProjection creates and cancels after
   * DefaultTimeoutMs. It is not requested when the first pass starts, and
   * since every missed pass sleeps PollIntervalMs, it is requested at the
   * top of pass DefaultTimeoutMs / PollIntervalMs + 1 at the latest (the
   * timer is taken to fire on time).
   */
  predicate IsDefaultTimerToken(t: CancellationToken): (r: bool)
    ensures r ==> !t.IsCancellationRequested(0)
    ensures r ==> t.IsCancellationRequested(DefaultTimeoutMs / PollIntervalMs)
  {
    1 <= t.requestedAfter <= DefaultTimeoutMs / PollIntervalMs
  }

  /**
   * `token ?? cts.Token`: a caller's token replaces the default timer token
   * outright; the two are not combined.
   */
  function SelectToken(token: Option<CancellationToken>, timer: CancellationToken): (t: CancellationToken)
    ensures token.Some? ==> t == token.value
    ensures token.None? ==> t == timer
  {
    match token
    case Some(caller) => caller
    case None => timer
  }

  /**
   * How `Check` ends. Both are normal returns in the source: a found
   * document (its index in Documents), or cancellation with nothing found.
   */
  datatype Outcome = Found(index: nat) | NotFound

  /**
   * The final state of the task WaitForProjection returns. A caller that
   * awaits it sees only RanToCompletion, whichever Outcome Check had, or
   * an exception for Faulted and Canceled.
   */
  datatype TaskStatus = RanToCompletion(check: Outcome) | Faulted | Canceled

  /** The commits of a concurrent writer that have landed after `k` missed passes. */
  function Arrived(writer: seq<ChangeSet>, k: nat): (landed: seq<ChangeSet>)
  {
    writer[..if k <= |writer| then k else |writer|]
  }

  /** The documents the commits report, in commit order. */
  function UpdatedIn(commits: seq<ChangeSet>): (docs: seq<Instance>)
  {
    if commits == [] then [] else UpdatedIn(commits[..|commits| - 1]) + commits[|commits| - 1].updated
  }

  /** The events the commits report, in commit order. */
  function EventsIn(commits: seq<ChangeSet>): (events: seq<Event>)
  {
    if commits == [] then [] else EventsIn(commits[..|commits| - 1]) + commits[|commits| - 1].events
  }

  /**
   * Documents as pass `k` (counted from 0) of Check sees it: what was there
   * when the wait began, followed by what the writer committed during the
   * `k` sleeps before that pass.
   */
  ghost function Seen(base: seq<Instance>, writer: seq<ChangeSet>, k: nat): seq<Instance>
  {
    base + UpdatedIn(Arrived(writer, k))
  }

  /** Events as it stands after the writer's commits of `k` sleeps have landed. */
  ghost function Logged(baseEvents: seq<Event>, writer: seq<ChangeSet>, k: nat): seq<Event>
  {
    baseEvents + EventsIn(Arrived(writer, k))
  }

  /** Pass `k` would find nothing if it scanned everything it could see. */
  ghost predicate MissedAt(base: seq<Instance>, writer: seq<ChangeSet>, kind: TypeName, pred: Instance --> bool, k: nat)
    requires Applicable(kind, pred)
  {
    var s := Seen(base, writer, k);
    FirstMatch(s, kind, pred, 0, |s|).None?
  }

  /** Each of the passes `0 .. n - 1` would find nothing in all it could see. */
  ghost predicate MissedBefore(base: seq<Instance>, writer: seq<ChangeSet>, kind: TypeName, pred: Instance --> bool, n: nat)
    requires Applicable(kind, pred)
  {
    forall k :: 0 <= k < n ==> MissedAt(base, writer, kind, pred, k)
  }

  /** The sleep after pass `k` appends the writer's commit `k`, if it has one. */
  lemma SeenStep(base: seq<Instance>, baseEvents: seq<Event>, writer: seq<ChangeSet>, k: nat)
    ensures k < |writer| ==> Seen(base, writer, k + 1) == Seen(base, writer, k) + writer[k].updated
    ensures k < |writer| ==> Logged(baseEvents, writer, k + 1) == Logged(baseEvents, writer, k) + writer[k].events
    ensures |writer| <= k ==> Seen(base, writer, k + 1) == Seen(base, writer, k)
    ensures |writer| <= k ==> Logged(baseEvents, writer, k + 1) == Logged(baseEvents, writer, k)
  {
    if k < |writer| {
      assert Arrived(writer, k + 1)[..k] == Arrived(writer, k);
    }
  }

  /**
   * The writer only appends: what an earlier pass sees is a prefix of what
   * every later pass sees.
   */
  lemma {:induction false} SeenGrows(base: seq<Instance>, writer: seq<ChangeSet>, j: nat, k: nat)
    requires j <= k
    ensures Seen(base, writer, j) <= Seen(base, writer, k)
    decreases k - j
  {
    if j < k {
      SeenGrows(base, writer, j, k - 1);
      SeenStep(base, [], writer, k - 1);
    }
  }

  /**
   * A pass that scanned `[from, |Seen k|)` of snapshot `k`, knowing nothing
   * below `from` matches, and found nothing: the whole snapshot holds no
   * match, and neither does that prefix of the next snapshot.
   */
  lemma MissStep(base: seq<Instance>, writer: seq<ChangeSet>, kind: TypeName, pred: Instance --> bool, k: nat, from: nat)
    requires Applicable(kind, pred)
    requires MissedBefore(base, writer, kind, pred, k)
    requires from <= |Seen(base, writer, k)|
    requires FirstMatch(Seen(base, writer, k), kind, pred, 0, from).None?
    requires FirstMatch(Seen(base, writer, k), kind, pred, from, |Seen(base, writer, k)|).None?
    ensures MissedBefore(base, writer, kind, pred, k + 1)
    ensures Seen(base, writer, k) <= Seen(base, writer, k + 1)
    ensures FirstMatch(Seen(base, writer, k + 1), kind, pred, 0, |Seen(base, writer, k)|).None?
  {
    var s := Seen(base, writer, k);
    FirstMatchSplit(s, kind, pred, 0, from, |s|);
    SeenGrows(base, writer, k, k + 1);
    FirstMatchPrefix(s, Seen(base, writer, k + 1), kind, pred, 0, |s|);
  }

  class Listener {
    /** The label naming the store this listener belongs to. */
    const category: string
    /** Every document the store reported as updated, in commit order. */
    var Documents: seq<Instance>
    /** Every event the store reported as appended, in commit order. */
    var Events: seq<Event>

    /** Both source constructors; the logger is not modelled. */
    constructor (category: string)
      ensures this.category == category
      ensures Documents == [] && Events == []
    {
      this.category := category;
      Documents := [];
      Events := [];
    }

    /**
     * Called by the store after a commit: appends the commit's events and
     * its updated documents, in the reported order. An empty commit leaves
     * both lists as they were.
     */
    method AfterCommitAsync(commit: ChangeSet)
      modifies this
      ensures Events == old(Events) + commit.events
      ensures Documents == old(Documents) + commit.updated
    {
      Events := Events + commit.events;
      Documents := Documents + commit.updated;
    }

    method BeforeSaveChanges()
      ensures unchanged(this)
    {
    }

    method BeforeSaveChangesAsync()
      ensures unchanged(this)
    {
    }

    method AfterCommit(commit: ChangeSet)
      ensures unchanged(this)
    {
    }

    method DocumentLoaded(id: Guid, document: Instance)
      ensures unchanged(this)
    {
    }

    method DocumentAddedForStorage(id: Guid, document: Instance)
      ensures unchanged(this)
    {
    }

    /**
     * One pass of Check's inner loop: the first index in `[from, upTo)`
     * whose document has type `kind` exactly and satisfies `pred`. Entries
     * of other types are skipped without applying `pred` to them.
     */
    method ScanPass(kind: TypeName, pred: Instance --> bool, from: nat, upTo: nat) returns (found: Option<nat>)
      requires Applicable(kind, pred)
      requires from <= upTo <= |Documents|
      ensures found == FirstMatch(Documents, kind, pred, from, upTo)
    {
      for index := from to upTo
        invariant FirstMatch(Documents, kind, pred, from, upTo) == FirstMatch(Documents, kind, pred, index, upTo)
      {
        var ev := Documents[index];
        if KindOf(ev) == kind && pred(ev) {
          return Some(index);
        }
      }
      return None;
    }

    /**
     * How a run of Check that began with Documents == base and
     * Events == baseEvents has ended: after `passes` passes, during whose
     * sleeps the first `commits` commits of the writer landed.
     */
    ghost predicate CheckEndsIn(base: seq<Instance>, baseEvents: seq<Event>, kind: TypeName, pred: Instance --> bool,
                                token: CancellationToken, writer: seq<ChangeSet>,
                                outcome: Outcome, passes: nat, commits: nat)
      reads this
      requires Applicable(kind, pred)
    {
      // the token is read at the top of every pass, and a pass starts only when it is not requested
      && passes <= token.requestedAfter
      && (outcome.NotFound? ==> passes == token.requestedAfter && commits == passes)
      && (outcome.Found? ==> passes == commits + 1)
      // the log grew only by the writer's commits, appended in order
      && Documents == Seen(base, writer, commits)
      && Events == Logged(baseEvents, writer, commits)
      // every pass before the last found nothing in all it could see
      && MissedBefore(base, writer, kind, pred, commits)
      // a found index is the first match of the whole log: none was skipped
      && (outcome.Found? ==> outcome.index < |Documents|)
      && (outcome.Found? ==> FirstMatch(Documents, kind, pred, 0, |Documents|) == Some(outcome.index))
    }

    /**
     * The polling loop of WaitForProjection. Each pass takes the length of
     * Documents as `upTo`, scans `[from, upTo)` and, on a miss, moves the
     * cursor `from` to `upTo` and sleeps; the concurrent writer's next
     * commit, if any, lands during that sleep. The token is read before
     * every pass, the first included.
     */
    method Check(kind: TypeName, pred: Instance --> bool, token: CancellationToken, writer: seq<ChangeSet>)
      returns (outcome: Outcome, ghost passes: nat, ghost commits: nat)
      requires Applicable(kind, pred)
      modifies this
      ensures CheckEndsIn(old(Documents), old(Events), kind, pred, token, writer, outcome, passes, commits)
    {
      ghost var base, baseEvents := Documents, Events;
      var from: nat := 0;
      var attempts := 1;
      while !token.IsCancellationRequested(attempts - 1)
        invariant 1 <= attempts <= token.requestedAfter + 1
        invariant Documents == Seen(base, writer, attempts - 1)
        invariant Events == Logged(baseEvents, writer, attempts - 1)
        invariant from <= |Documents|
        invariant FirstMatch(Documents, kind, pred, 0, from).None?
        invariant MissedBefore(base, writer, kind, pred, attempts - 1)
        decreases token.requestedAfter - attempts
      {
        var upTo := |Documents|;
        var found := ScanPass(kind, pred, from, upTo);
        if found.Some? {
          assert FirstMatch(Documents, kind, pred, 0, upTo) == found by {
            FirstMatchSplit(Documents, kind, pred, 0, from, upTo);
          }
          return Found(found.value), attempts, attempts - 1;
        }
        ghost var next := Seen(base, writer, attempts);
        assert MissedBefore(base, writer, kind, pred, attempts) && upTo <= |next| && FirstMatch(next, kind, pred, 0, upTo).None? by {
          MissStep(base, writer, kind, pred, attempts - 1, from);
        }
        from := upTo;

        // Thread.Sleep(200): the writer's next commit may land meanwhile.
        SeenStep(base, baseEvents, writer, attempts - 1);
        if attempts - 1 < |writer| {
          AfterCommitAsync(writer[attempts - 1]);
        }
        attempts := attempts + 1;
      }
      return NotFound, attempts - 1, attempts - 1;
    }

    /**
     * Starts Check on the caller's token, or on a token cancelled after
     * DefaultTimeoutMs when the caller gives none (`timer`). A task started
     * on an already requested token is Canceled without running Check.
     * When Check finds a document, its log line reads the document's `Id`
     * through `dynamic` before returning; on a type without that member the
     * read throws and the task is Faulted. Nothing changes between that read
     * and Check's return, so the model makes the read after Check returns.
     */
    method WaitForProjection(kind: TypeName, pred: Instance --> bool, token: Option<CancellationToken>,
                             timer: CancellationToken, writer: seq<ChangeSet>)
      returns (status: TaskStatus, ghost outcome: Outcome, ghost passes: nat, ghost commits: nat)
      requires Applicable(kind, pred)
      requires IsDefaultTimerToken(timer)
      modifies this
      ensures status == Canceled <==> SelectToken(token, timer).requestedAfter == 0
      ensures status == Canceled ==> Documents == old(Documents) && Events == old(Events) && passes == 0
      ensures status != Canceled ==>
                CheckEndsIn(old(Documents), old(Events), kind, pred, SelectToken(token, timer), writer,
                            outcome, passes, commits)
      // a found document's type has `kind` exactly, so the task faults exactly when `kind` has no `Id`
      ensures status == Faulted <==> status != Canceled && outcome.Found? && !HasIdMember(kind)
      ensures status.RanToCompletion? ==> status.check == outcome
      // without a caller token the wait always runs and never outlasts the default ceiling
      ensures token.None? ==> status != Canceled && passes <= DefaultTimeoutMs / PollIntervalMs
    {
      var t := SelectToken(token, timer);
      if t.IsCancellationRequested(0) {
        status, outcome, passes, commits := Canceled, NotFound, 0, 0;
      } else {
        var checked;
        checked, passes, commits := Check(kind, pred, t, writer);
        outcome := checked;
        if checked.Found? && !HasIdMember(KindOf(Documents[checked.index])) {
          status := Faulted;
        } else {
          status := RanToCompletion(checked);
        }
      }
    }
  }
}
