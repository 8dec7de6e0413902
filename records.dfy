/**
 * The values a commit listener sees: the records of the test project
 * (MartenStoresWithSessionListener.Tests/Events.cs), other objects a store
 * may report, the events wrapping them, and a commit's change set.
 */
module Records {

  /** A `System.Guid`; only its identity matters here. */
  type Guid = nat

  /**
   * The runtime type of an object. Two objects have the same kind only when
   * their types are the same type; there is no subtyping in this comparison.
   * For any other type, `declaresId` says whether it has a member `Id`.
   */
  datatype TypeName =
    | SomethingType
    | SomethingHappenedType
    | OtherType(fullName: string, declaresId: bool)

  /**
   * An object captured by the listener (a `List<object>` entry or an event's
   * `Data`). `Something` is the snapshot document, `SomethingHappened` the
   * event record; `Other` is any further type a store may report.
   */
  datatype Instance =
    | Something(id: Guid, trackingId: Guid)
    | SomethingHappened(trackingId: Guid)
    | Other(fullName: string, declaresId: bool, fields: seq<int>)

  /** `GetType()`: the exact runtime type of an object. */
  function KindOf(d: Instance): (t: TypeName)
    ensures t == SomethingType <==> d.Something?
    ensures t == SomethingHappenedType <==> d.SomethingHappened?
    ensures t.OtherType? <==> d.Other?
  {
    match d
    case Something(_, _) => SomethingType
    case SomethingHappened(_) => SomethingHappenedType
    case Other(name, declaresId, _) => OtherType(name, declaresId)
  }

  /**
   * Whether objects of type `t` have a member `Id`, as a `dynamic` read of
   * `.Id` needs: the `Something` document does, the `SomethingHappened`
   * record (whose only member is `TrackingId`) does not.
   */
  function HasIdMember(t: TypeName): (r: bool)
    ensures t == SomethingType ==> r
    ensures t == SomethingHappenedType ==> !r
    ensures t.OtherType? ==> r == t.declaresId
  {
    match t
    case SomethingType => true
    case SomethingHappenedType => false
    case OtherType(_, declaresId) => declaresId
  }

  /** An `IEvent`: the stream it was appended to and its data. */
  datatype Event = Event(streamId: Guid, data: Instance)

  /**
   * An `IChangeSet` as the listener reads it: the events appended by the
   * commit (`GetEvents()`) and the documents it stored (`Updated`), each in
   * the order the store reports them.
   */
  datatype ChangeSet = ChangeSet(events: seq<Event>, updated: seq<Instance>)
}
