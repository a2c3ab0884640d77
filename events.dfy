/** The typed publish/subscribe helper `EventEmitter`: a table from a closed
    set of event names to the ordered list of callbacks subscribed to each.
    Callbacks are opaque identifiers; publishing an event yields the
    sequence of calls the emitter makes, each callback paired with the
    payload it receives. */
module Events {

  import opened Wrappers

  // ---------------------------------------------------------------------
  // The event map: each event name fixes the shape of its payload.
  // ---------------------------------------------------------------------

  datatype Role = Admin | User | Moderator
  datatype Theme = Light | Dark

  datatype Preferences = Preferences(theme: Theme, notifications: bool)

  datatype Profile = Profile(avatar: Option<string>, bio: Option<string>, preferences: Preferences)

  /** The user record carried by user and authentication events. */
  datatype UserBasic = UserBasic(
    id: int,
    name: string,
    email: string,
    role: Role,
    createdAt: string,
    profile: Profile)

  /** `Partial<UserBasic>`: every top-level field may be absent. */
  datatype UserChanges = UserChanges(
    id: Option<int>,
    name: Option<string>,
    email: Option<string>,
    role: Option<Role>,
    createdAt: Option<string>,
    profile: Option<Profile>)

  /** The five keys of the event map: 'user:created', 'user:updated',
      'user:deleted', 'auth:login' and 'auth:logout'. */
  datatype EventName = UserCreated | UserUpdated | UserDeleted | AuthLogin | AuthLogout

  /** A payload of the event map; a `Date` is its time value in milliseconds. */
  datatype Payload =
    | UserCreatedData(user: UserBasic)
    | UserUpdatedData(user: UserBasic, changes: UserChanges)
    | UserDeletedData(userId: int)
    | AuthLoginData(user: UserBasic, timestamp: int)
    | AuthLogoutData(userId: int, timestamp: int)
  {
    /** The event name whose payload type this value has. */
    function Name(): EventName {
      match this
      case UserCreatedData(_) => UserCreated
      case UserUpdatedData(_, _) => UserUpdated
      case UserDeletedData(_) => UserDeleted
      case AuthLoginData(_, _) => AuthLogin
      case AuthLogoutData(_, _) => AuthLogout
    }
  }

  /** A subscribed callback, known only by its identity. */
  type CallbackId = nat

  /** One call `callback(data)` made while publishing. */
  datatype Invocation = Invocation(callback: CallbackId, data: Payload)

  // ---------------------------------------------------------------------
  // The listener table as a value
  // ---------------------------------------------------------------------

  type Table = map<EventName, seq<CallbackId>>

  /** The callbacks subscribed to `e`; a missing entry reads as none. */
  function Subscribers(t: Table, e: EventName): seq<CallbackId> {
    if e in t then t[e] else []
  }

  /** Every list present in the table is non-empty: a list is created only
      immediately before a callback is pushed onto it. */
  predicate WellFormed(t: Table) {
    forall e :: e in t ==> t[e] != []
  }

  /** The table after subscribing `cb` to `e`. */
  function Subscribe(t: Table, e: EventName, cb: CallbackId): (r: Table)
    ensures e in r && r[e] == Subscribers(t, e) + [cb]
    ensures e !in t ==> r[e] == [cb]
    ensures r.Keys == t.Keys + {e}
    ensures forall k :: k in t && k != e ==> r[k] == t[k]
    ensures WellFormed(t) ==> WellFormed(r)
  {
    t[e := Subscribers(t, e) + [cb]]
  }

  /** The calls made, in order, when `data` is published to `callbacks`. */
  function Dispatch(callbacks: seq<CallbackId>, data: Payload): (calls: seq<Invocation>)
    ensures |calls| == |callbacks|
    ensures forall i :: 0 <= i < |calls| ==> calls[i] == Invocation(callbacks[i], data)
  {
    if callbacks == [] then []
    else Dispatch(callbacks[..|callbacks| - 1], data) + [Invocation(callbacks[|callbacks| - 1], data)]
  }

  // ---------------------------------------------------------------------
  // The emitter
  // ---------------------------------------------------------------------

  class EventEmitter {
    var listeners: Table

    ghost predicate Valid()
      reads this
    {
      WellFormed(listeners)
    }

    /** The callbacks currently subscribed to `e`. */
    function CallbacksFor(e: EventName): seq<CallbackId>
      reads this
    {
      Subscribers(listeners, e)
    }

    constructor ()
      ensures Valid()
      ensures listeners == map[]
    {
      listeners := map[];
    }

    /** `on(event, callback)`: create the list for `e` if there is none,
        then push `cb` onto its end. */
    method On(e: EventName, cb: CallbackId)
      requires Valid()
      modifies this
      ensures Valid()
      ensures listeners == Subscribe(old(listeners), e, cb)
      ensures CallbacksFor(e) == old(CallbacksFor(e)) + [cb]
      ensures forall k :: k != e ==> CallbacksFor(k) == old(CallbacksFor(k))
    {
      if e !in listeners {
        listeners := listeners[e := []];
      }
      listeners := listeners[e := listeners[e] + [cb]];
    }

    /** `emit(event, data)`: call every callback subscribed to `e`, in
        subscription order, with the same `data`. The payload must have
        the type the event map assigns to `e`. With no subscribers nothing
        is called. Having no `modifies` clause, it leaves the table, and
        every other object, as it found them. */
    method Emit(e: EventName, data: Payload) returns (calls: seq<Invocation>)
      requires Valid()
      requires data.Name() == e
      ensures calls == Dispatch(CallbacksFor(e), data)
      ensures calls != [] <==> e in listeners
    {
      calls := [];
      if e in listeners {
        var callbacks := listeners[e];
        var i := 0;
        while i < |callbacks|
          invariant 0 <= i <= |callbacks|
          invariant calls == Dispatch(callbacks[..i], data)
        {
          assert callbacks[..i + 1][..i] == callbacks[..i];
          calls := calls + [Invocation(callbacks[i], data)];
          i := i + 1;
        }
        assert callbacks[..i] == callbacks;
      }
    }

    /** `on` called once for each subscription of `subs`, in order. */
    method OnEach(subs: seq<Subscription>)
      requires Valid()
      modifies this
      ensures Valid()
      ensures listeners == Replay(old(listeners), subs)
    {
      var i := 0;
      while i < |subs|
        invariant 0 <= i <= |subs|
        invariant Valid()
        invariant listeners == Replay(old(listeners), subs[..i])
      {
        assert subs[..i + 1][..i] == subs[..i];
        On(subs[i].event, subs[i].callback);
        i := i + 1;
      }
      assert subs[..i] == subs;
    }
  }

  // ---------------------------------------------------------------------
  // Histories of subscriptions
  // ---------------------------------------------------------------------

  /** One `on(event, callback)` call. */
  datatype Subscription = Subscription(event: EventName, callback: CallbackId)

  /** The table after the subscriptions `subs`, made in order, on `t`. */
  function Replay(t: Table, subs: seq<Subscription>): Table {
    if subs == [] then t
    else
      var last := subs[|subs| - 1];
      Subscribe(Replay(t, subs[..|subs| - 1]), last.event, last.callback)
  }

  /** The callbacks of `subs` that were subscribed to `e`, in order. */
  function SubscribedTo(subs: seq<Subscription>, e: EventName): seq<CallbackId> {
    if subs == [] then []
    else
      var last := subs[|subs| - 1];
      SubscribedTo(subs[..|subs| - 1], e) + (if last.event == e then [last.callback] else [])
  }

  /** Subscriptions only ever append: after any history, the callbacks of
      `e` are the earlier ones followed by those the history added to `e`,
      in the order they were added. */
  lemma {:induction false} ReplayAppends(t: Table, subs: seq<Subscription>, e: EventName)
    ensures Subscribers(Replay(t, subs), e) == Subscribers(t, e) + SubscribedTo(subs, e)
  {
    if subs != [] {
      ReplayAppends(t, subs[..|subs| - 1], e);
    }
  }

  /** Replaying a history keeps every present list non-empty. */
  lemma {:induction false} ReplayWellFormed(t: Table, subs: seq<Subscription>)
    requires WellFormed(t)
    ensures WellFormed(Replay(t, subs))
  {
    if subs != [] {
      ReplayWellFormed(t, subs[..|subs| - 1]);
    }
  }

  /** The callback `cb` is among those subscribed to `e` exactly when some
      subscription in the history paired it with `e`. */
  lemma {:induction false} SubscribedToMember(subs: seq<Subscription>, e: EventName, cb: CallbackId)
    ensures cb in SubscribedTo(subs, e) <==> Subscription(e, cb) in subs
  {
    if subs != [] {
      var init := subs[..|subs| - 1];
      SubscribedToMember(init, e, cb);
      assert subs == init + [subs[|subs| - 1]];
    }
  }

  /** No deduplication: `cb` appears among the subscribers of `e` as many
      times as it was subscribed to `e`. */
  lemma {:induction false} SubscribedToCount(subs: seq<Subscription>, e: EventName, cb: CallbackId)
    ensures multiset(SubscribedTo(subs, e))[cb] == multiset(subs)[Subscription(e, cb)]
  {
    if subs != [] {
      var init := subs[..|subs| - 1];
      SubscribedToCount(init, e, cb);
      assert subs == init + [subs[|subs| - 1]];
    }
  }

  /** Publishing after a history of subscriptions on a fresh emitter calls
      exactly the callbacks subscribed to that event, in subscription order,
      each with the published payload. */
  lemma {:induction false} PublishAfterHistory(subs: seq<Subscription>, data: Payload)
    ensures Dispatch(Subscribers(Replay(map[], subs), data.Name()), data)
         == Dispatch(SubscribedTo(subs, data.Name()), data)
  {
    ReplayAppends(map[], subs, data.Name());
  }

  /** A callback subscribed only to other events is never called: `cb` is
      called when `data` is published iff it was subscribed to that event. */
  lemma {:induction false} CalledIffSubscribed(subs: seq<Subscription>, data: Payload, cb: CallbackId)
    ensures Invocation(cb, data) in Dispatch(Subscribers(Replay(map[], subs), data.Name()), data)
        <==> Subscription(data.Name(), cb) in subs
  {
    var callbacks := Subscribers(Replay(map[], subs), data.Name());
    var calls := Dispatch(callbacks, data);
    ReplayAppends(map[], subs, data.Name());
    SubscribedToMember(subs, data.Name(), cb);
    if Invocation(cb, data) in calls {
      var i :| 0 <= i < |calls| && calls[i] == Invocation(cb, data);
      assert callbacks[i] == cb;
    }
    if cb in callbacks {
      var i :| 0 <= i < |callbacks| && callbacks[i] == cb;
      assert calls[i] == Invocation(cb, data);
    }
  }

  /** Publishing `data` calls `cb` once per subscription of `cb` to that
      event: a callback subscribed twice is called twice. */
  lemma {:induction false} CallCountIsSubscriptionCount(callbacks: seq<CallbackId>, data: Payload, cb: CallbackId)
    ensures multiset(Dispatch(callbacks, data))[Invocation(cb, data)] == multiset(callbacks)[cb]
  {
    if callbacks != [] {
      var init := callbacks[..|callbacks| - 1];
      CallCountIsSubscriptionCount(init, data, cb);
      assert callbacks == init + [callbacks[|callbacks| - 1]];
    }
  }

  // ---------------------------------------------------------------------
  // Scenarios on the emitter itself
  // ---------------------------------------------------------------------

  /** Subscribe `logCreated` to 'user:created', then publish a
      'user:created' and a 'user:deleted' event. */
  method CreatedThenDeleted(ann: UserBasic, logCreated: CallbackId)
    returns (onCreated: seq<Invocation>, onDeleted: seq<Invocation>)
    ensures onCreated == [Invocation(logCreated, UserCreatedData(ann))]
    ensures onDeleted == []
  {
    var emitter := new EventEmitter();
    emitter.On(UserCreated, logCreated);
    onCreated := emitter.Emit(UserCreated, UserCreatedData(ann));
    onDeleted := emitter.Emit(UserDeleted, UserDeletedData(ann.id));
  }

  /** A fresh emitter that receives the subscriptions `subs` and then
      publishes `data` calls exactly the callbacks subscribed to that event,
      in subscription order, each with `data`. */
  method PublishAfterSubscribing(subs: seq<Subscription>, data: Payload)
    returns (calls: seq<Invocation>)
    ensures calls == Dispatch(SubscribedTo(subs, data.Name()), data)
  {
    var emitter := new EventEmitter();
    emitter.OnEach(subs);
    calls := emitter.Emit(data.Name(), data);
    PublishAfterHistory(subs, data);
  }

  /** Two subscriptions to the same event are called in subscription order,
      and a callback subscribed twice is called twice, all with the same
      payload. */
  method OrderAndDuplicates(first: CallbackId, second: CallbackId, data: Payload)
    returns (calls: seq<Invocation>)
    ensures calls == [Invocation(first, data), Invocation(second, data), Invocation(first, data)]
  {
    var emitter := new EventEmitter();
    emitter.On(data.Name(), first);
    emitter.On(data.Name(), second);
    emitter.On(data.Name(), first);
    calls := emitter.Emit(data.Name(), data);
  }
}
