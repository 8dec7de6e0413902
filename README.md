# Commit listener of MartenStoresWithSessionListener, in Dafny

The test project registers two Marten document stores, each with its own
session listener. A listener records, after every commit of its store, the
events the commit appended (`Events`) and the documents it stored
(`Documents`). A test then calls `WaitForProjection<T>(predicate)`. That call
polls `Documents` until a document whose runtime type is exactly `T` satisfies
the predicate, or until a cancellation token is requested. Without a caller
token, the token is one cancelled after 10 seconds.

The model has five modules:

- `Records` (records.dfy) holds the values the listener sees. `Instance` is
  a captured object: the `Something` snapshot, the `SomethingHappened` event
  record, or any other type. `KindOf` is its runtime type. `Event` wraps an
  object in a stream, and `ChangeSet` is a commit's events and updated
  documents.
- `ProjectionSearch` (search.dfy) holds the match test and `FirstMatch`.
  `FirstMatch` is the reference definition of "the first matching document
  in a range". The predicate is a partial function, defined only on objects
  of the requested type. So the scan verifies only because its type test
  short-circuits before the predicate is applied.
- `Listeners` (listener.dfy) holds the class `Listener`, which stands for
  both `GenericListener<T>` and `Listener`. The two differ only in their
  logging. The class has the fields `Documents` and `Events` and the
  `category` label. The module also holds the commit hook, the no-op hooks,
  one scan pass, the polling loop `Check` and `WaitForProjection` with its
  token selection.
- `Scenarios` (scenarios.dfy) holds clients in the test project's
  situations. Each is proved from the listener's contracts alone.
- `Wrappers` (wrappers.dfy) holds `Option`.

How the concurrency is modelled:

- A commit reported by the store is atomic.
- The concurrent writer is a sequence of commits. Commit `k` lands during the
  sleep after missed pass `k`. A pass reads only indices below the length it
  took at its start, and the writer only appends. So a commit that lands
  during a scan acts like one that lands in the following sleep.
- A cancellation token is the number of passes that start before
  `IsCancellationRequested` reads true. It never becomes false again.
- The 10-second token is a parameter. It is not yet requested when the first
  pass starts. Every missed pass sleeps 200 ms, so the token is requested by
  the top of pass 51 at the latest. This assumes the timer fires on time.

Consequences of the code that a caller may not expect:

- A timed-out wait is not reported as a failure. `Check` returns normally on
  cancellation, so the task runs to completion exactly as when a match is
  found. The model keeps the two apart inside (`Found` and `NotFound`). The
  `RanToCompletion` status carries both (`Scenarios.TimeoutLooksLikeSuccess`).
- A token that is already requested when `Task.Run(..., t)` is called gives
  a Canceled task, and `Check` never runs. Awaiting that task throws.
- A match is logged with `((dynamic)ev).Id`. When the matched type has no
  `Id` member (the `SomethingHappened` record, say), that read throws, and
  the task is Faulted instead of completing (`Scenarios.FoundWithoutIdFaults`).

## Model

| member | source | states |
|---|---|---|
| Records.KindOf | MartenStoresWithSessionListener.Tests/Listener.cs:137 | `GetType()`: each object has exactly one runtime type. `Something` and `SomethingHappened` objects have their own types. No other object shares them. |
| Records.HasIdMember | MartenStoresWithSessionListener.Tests/Events.cs:3-10 | The `Something` document has a member `Id`. The `SomethingHappened` record, whose only member is `TrackingId`, does not. Any other type has one exactly when it declares it. |
| ProjectionSearch.Matches | MartenStoresWithSessionListener.Tests/Listener.cs:137 | `typeof(T) == ev.GetType() && predicate((T)ev)`: an object of another type never matches, and the predicate is not applied to it. For an object of type `T`, the predicate is defined and decides the match. |
| ProjectionSearch.FirstMatch | MartenStoresWithSessionListener.Tests/Listener.cs:133-141 | The result is the least index in `[from, upTo)` whose document has type `kind` and satisfies the predicate. It is None exactly when no index in the range matches. |
| ProjectionSearch.FirstMatchSplit | MartenStoresWithSessionListener.Tests/Listener.cs:131-144 | Scanning `[from, mid)` and then, on a miss only, `[mid, upTo)` finds exactly what one scan of `[from, upTo)` finds. |
| ProjectionSearch.FirstMatchPrefix | MartenStoresWithSessionListener.Tests/Listener.cs:131-135 | Appending to the log never changes what a scan of a range of its earlier entries finds. |
| Listeners.CancellationToken.IsCancellationRequested | MartenStoresWithSessionListener.Tests/Listener.cs:128 | The token reads false at the top of each of the first `requestedAfter` passes and true from then on. |
| Listeners.CancellationSticks | MartenStoresWithSessionListener.Tests/Listener.cs:128 | A token never un-cancels: once it reads true, every later read is true, and a false read means every earlier read was false. |
| Listeners.IsDefaultTimerToken | MartenStoresWithSessionListener.Tests/Listener.cs:151-152 | The token cancelled after 10 seconds is not requested at the first pass and is requested after at most 10000 / 200 = 50 passes. This assumes the timer fires on time and each missed pass takes at least its 200 ms sleep. |
| Listeners.SelectToken | MartenStoresWithSessionListener.Tests/Listener.cs:151-154 | `token ?? cts.Token`: a caller's token is used as it is, whatever the default timer's deadline. The timer's token is used only when the caller passes none. |
| Listeners.SeenStep | MartenStoresWithSessionListener.Tests/Listener.cs:144-147 | The sleep after pass `k` appends the writer's commit `k`, if there is one, to both `Documents` and `Events`. Otherwise both are unchanged. |
| Listeners.SeenGrows | MartenStoresWithSessionListener.Tests/Listener.cs:71 | `Documents` only grows by appending. What an earlier pass sees is a prefix of what every later pass sees. |
| Listeners.MissStep | MartenStoresWithSessionListener.Tests/Listener.cs:131-144 | Suppose nothing below the cursor matches and a pass finds nothing in `[from, upTo)`. Then that pass's whole snapshot holds no match. The new cursor `upTo` still has no match below it after the writer appends. |
| Listeners.Listener.constructor | MartenStoresWithSessionListener.Tests/Listener.cs:32-48 | A new listener keeps its category and starts with empty `Events` and empty `Documents`. |
| Listeners.Listener.AfterCommitAsync | MartenStoresWithSessionListener.Tests/Listener.cs:53-73 | `Events` becomes the old `Events` followed by the commit's events in reported order. `Documents` becomes the old `Documents` followed by the commit's updated documents. So the old prefix is untouched, each list grows by exactly the batch size, and an empty commit changes nothing. |
| Listeners.Listener.BeforeSaveChanges | MartenStoresWithSessionListener.Tests/Listener.cs:75-80 | Changes no state of the listener. |
| Listeners.Listener.BeforeSaveChangesAsync | MartenStoresWithSessionListener.Tests/Listener.cs:82-89 | Changes no state of the listener. |
| Listeners.Listener.AfterCommit | MartenStoresWithSessionListener.Tests/Listener.cs:91-97 | Changes no state of the listener. In particular, it records nothing of the commit. |
| Listeners.Listener.DocumentLoaded | MartenStoresWithSessionListener.Tests/Listener.cs:99-105 | Changes no state of the listener. |
| Listeners.Listener.DocumentAddedForStorage | MartenStoresWithSessionListener.Tests/Listener.cs:107-113 | Changes no state of the listener. |
| Listeners.Listener.ScanPass | MartenStoresWithSessionListener.Tests/Listener.cs:133-142 | The inner `for` loop returns the first index in `[from, upTo)` holding a document of type exactly `kind` that satisfies the predicate, or None. The predicate is applied only to documents of that type. |
| Listeners.Listener.Check | MartenStoresWithSessionListener.Tests/Listener.cs:122-149 | The token is read before every pass, the first included, so the number of passes never exceeds its bound. Cancellation ends the loop with `NotFound`, after exactly that many passes. `Documents` and `Events` gain exactly the writer's commits that landed, in order. Every pass before the last found no match in its whole snapshot, so the cursor never skipped a match. A found index is the first match of the entire log, as one scan from index 0 would find it. |
| Listeners.Listener.WaitForProjection | MartenStoresWithSessionListener.Tests/Listener.cs:115-157 | Runs `Check` on the selected token. The task is Canceled, with no document examined and no state changed, exactly when that token is already requested. Otherwise it ends as `Check` ends. It is Faulted exactly when `Check` found a match whose type has no `Id` member, since the log line reads `.Id`. Else it runs to completion and carries `Check`'s outcome, found or not. Without a caller token, the wait always runs and ends within 10000 / 200 passes. |
| Scenarios.CommitToOneStore | MartenStoresWithSessionListener.Tests/When_registering_two_marten_marten_stores.cs:84-114 | With two listeners of two stores, a commit reported to one extends only that one. The other's `Events` and `Documents` are unchanged. |
| Scenarios.OneEventCommitted | MartenStoresWithSessionListener.Tests/When_registering_two_marten_marten_stores.cs:63-126 | The store keeps an inline `Something` snapshot. After one commit of one `SomethingHappened` event, `Events` has length 1, and its entry carries that event's stream and tracking id. `Documents` has length 1 and holds the snapshot of that stream. |
| Scenarios.TwoCommitsInOrder | MartenStoresWithSessionListener.Tests/Listener.cs:65 | Commits of one event and then two events leave all three in `Events`, in submission order. |
| Scenarios.TrackedBy | MartenStoresWithSessionListener.Tests/When_publishing_an_async_command_with_listeners_configured_by_marten_config.cs:109 | `s => s.TrackingId == trackingId` as a `Func<Something, bool>`: defined on every `Something` and true exactly for the one with that tracking id. |
| Scenarios.ProjectionArrivesLater | MartenStoresWithSessionListener.Tests/When_publishing_an_async_command_with_listeners_configured_by_marten_config.cs:104-114 | `WaitForProjection<Something>(s => s.TrackingId == id)` is called with no token, while an unrelated document is already logged. The snapshot arrives in the writer's second commit. The wait completes on the third pass with that snapshot's index, well before the default ceiling. |
| Scenarios.TimeoutLooksLikeSuccess | MartenStoresWithSessionListener.Tests/Listener.cs:128-156 | A caller token requested after one pass, with nothing matching, still gives a task that runs to completion. |
| Scenarios.AlreadyCancelled | MartenStoresWithSessionListener.Tests/Listener.cs:154-156 | A caller token that is already requested gives a Canceled task after zero passes. This holds even when a matching document is already logged. |

| Scenarios.HappenedWith | MartenStoresWithSessionListener.Tests/Events.cs:3-5 | `h => h.TrackingId == trackingId` as a `Func<SomethingHappened, bool>`: defined on every `SomethingHappened` and true exactly for the one with that tracking id. |
| Scenarios.FoundWithoutIdFaults | MartenStoresWithSessionListener.Tests/Listener.cs:137-140 | Waiting for a `SomethingHappened` record that is already logged, the first pass finds it, and the task is Faulted because the record has no `Id`. |

## Left out

- Listeners.Listener.Check: a caller token that is never cancelled (`CancellationToken.None`) is not modelled. With such a token and no match, the source polls forever. The model's tokens are always requested after finitely many passes.
- Listeners.Listener.WaitForProjection: a cancellation that arrives after `Task.Run` is called but before the task starts is not modelled. That is a scheduling race. The model treats the token as either requested before the wait or observed at the top of a pass.
- `Thread.Sleep(200)`, `CancellationTokenSource.CancelAfter` and `Task.Run` are wall-clock timing and thread scheduling. They become pass boundaries, the token-as-bound above, and the default timer token parameter.
- Thread safety of the unsynchronised `List<T>` appends that race with the reader is not modelled. Each commit's append is treated as atomic.
- Listeners.Listener.WaitForProjection: a predicate that throws is not modelled. `Applicable` requires the predicate to be defined on every object of the requested type, so the Faulted status arises in the model only from the `.Id` read on a match whose type has no `Id` member.
- Logging is left out, including the loggers passed to the constructors. The one effect of a log line on behaviour, the `dynamic` `.Id` read on a found document, is modelled as the Faulted status. The `attempts` counter exists in the source only for a log message. The model uses it as the clock the token is read against.
- `MartenEventListenerConfig<T>.Configure` is left out. It is dependency-injection wiring that adds the listener to Marten's option lists.
- The sessions passed to the hooks and the commit's cancellation token are left out. No hook reads them.
- Marten's `IChangeSet` and `IEvent` internals are left out. A commit is its two reported sequences, and an event is its stream id and data.
- `Something.Create` in Events.cs is left out. It only copies a tracking id, and the store's projection that calls it is not part of this model.
- The hosts, connection strings, message bus and handlers of the test fixtures are left out. The scenarios above restate the tests' situations directly.
