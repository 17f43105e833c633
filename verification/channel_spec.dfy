/**
 The channel facade as a state machine over values: what each operation does
 to the facade's state. The imperative facade in `BroadcastChannel` is proved
 to follow these transitions step for step, and the properties of the facade
 are proved here, about the transitions.
 */
module ChannelSpec {
  import opened Envelope
  import opened Registry

  /** Everything a facade holds: its sender identity, the registry, the ids of
      the data messages it has accepted, the two histories, the log of posts
      and callback calls, the next wrapper identity, and whether the channel
      has been closed. */
  datatype State = State(
    senderId: string,
    handlers: map<Value, seq<Handler>>,
    seen: set<Value>,
    messages: seq<Object>,
    acks: seq<Object>,
    effects: seq<Effect>,
    nextWrapper: nat,
    closed: bool)

  function Initial(senderId: string): State
  {
    State(senderId, map[], {}, [], [], [], 0, false)
  }

  /** The list registered for a type; a type never registered has none. */
  function Registered(s: State, kind: Value): seq<Handler>
  {
    if kind in s.handlers then s.handlers[kind] else []
  }

  /** Whether `messageHistory.has` finds the id read from a delivered event:
      an object id is a fresh clone and is never found. */
  predicate Known(s: State, id: Value)
  {
    SurvivesClone(id) && id in s.seen
  }

  /** The list `handlers.get` finds for the type read from a delivered event:
      an object type is a fresh clone and matches no registered key. */
  function Lookup(s: State, kind: Value): seq<Handler>
  {
    if SurvivesClone(kind) then Registered(s, kind) else []
  }

  /** What the facade keeps true of itself:
      every accepted ack came from another facade and is addressed to it; every
      accepted data message came from another facade, is not an ack, and has
      its id in the dedup set, and no two of them share an id that survives
      cloning; every registered wrapper has an identity below the next one to
      be handed out. */
  ghost predicate Inv(s: State)
  {
    && (forall a :: a in s.acks ==>
          && Get(a, "senderId") != Str(s.senderId)
          && Get(a, "to") == Str(s.senderId)
          && Get(a, "type") == Str(AckType))
    && (forall m :: m in s.messages ==>
          && Get(m, "senderId") != Str(s.senderId)
          && Get(m, "type") != Str(AckType)
          && Get(m, "messageId") in s.seen)
    && (forall i, j :: 0 <= i < j < |s.messages| && SurvivesClone(Get(s.messages[i], "messageId")) ==>
          Get(s.messages[i], "messageId") != Get(s.messages[j], "messageId"))
    && (forall kind :: kind in s.handlers ==> WrappersBelow(s.handlers[kind], s.nextWrapper))
  }

  ghost predicate WrappersBelow(list: seq<Handler>, n: nat)
  {
    forall h :: h in list && h.Once? ==> h.wrapper < n
  }

  // ---------------------------------------------------------------- outbound

  /** `postMessage`: appended to the log while the channel is open; on a
      closed channel the platform refuses the post and nothing is sent. */
  function Post(s: State, e: Object): (State, bool)
  {
    if s.closed then (s, false) else (s.(effects := s.effects + [Effect.Post(e)]), true)
  }

  /** `send(data)`: posts the data envelope and returns its id. */
  function Send(s: State, data: Object, messageId: string, now: int): (State, Option<string>)
  {
    var (s', ok) := Post(s, DataEnvelope(data, s.senderId, messageId, now));
    (s', if ok then Some(messageId) else None)
  }

  /** `sendAck(messageId, to)`. */
  function SendAck(s: State, ackFor: Value, to: Value, now: int): State
  {
    Post(s, AckEnvelope(ackFor, s.senderId, to, now)).0
  }

  // ---------------------------------------------------------------- registry

  function AddHandler(s: State, kind: Value, h: Handler): State
  {
    s.(handlers := s.handlers[kind := Registered(s, kind) + [h]])
  }

  function RemoveHandler(s: State, kind: Value, h: Handler): State
  {
    if kind in s.handlers then s.(handlers := s.handlers[kind := Without(s.handlers[kind], h)]) else s
  }

  /** `on(type, fn)`. */
  function On(s: State, kind: Value, fn: FnRef): State
  {
    AddHandler(s, kind, Plain(fn))
  }

  /** `off(type, fn)`. */
  function Off(s: State, kind: Value, fn: FnRef): State
  {
    RemoveHandler(s, kind, Plain(fn))
  }

  /** `once(type, fn)`: registers a wrapper with a new identity. */
  function OnceOn(s: State, kind: Value, fn: FnRef): State
  {
    AddHandler(s.(nextWrapper := s.nextWrapper + 1), kind, Once(s.nextWrapper, fn))
  }

  /** The scoped teardown: the channel is closed. */
  function Close(s: State): State
  {
    s.(closed := true)
  }

  // ----------------------------------------------------------------- inbound

  /** `invokeHandlers(type, payload, meta)`: every handler registered when the
      dispatch starts is called in order; each `once` wrapper among them has
      removed itself by the end. A type that does not survive cloning finds
      no handlers. */
  function Dispatch(s: State, kind: Value, payload: Value, meta: Meta): State
  {
    if kind in s.handlers && SurvivesClone(kind) then
      s.(handlers := s.handlers[kind := Survivors(s.handlers[kind])],
         effects := s.effects + Invocations(s.handlers[kind], payload, meta))
    else s
  }

  /** A dispatch logs one call per handler `handlers.get` finds, in order;
      the type's list keeps only its plain callbacks; nothing else changes. */
  lemma DispatchShape(s: State, kind: Value, payload: Value, meta: Meta)
    ensures var d := Dispatch(s, kind, payload, meta);
      && d.effects == s.effects + Invocations(Lookup(s, kind), payload, meta)
      && Registered(d, kind) == (if SurvivesClone(kind) then Survivors(Registered(s, kind)) else Registered(s, kind))
      && (forall k :: k != kind ==> Registered(d, k) == Registered(s, k))
      && d.(handlers := s.handlers, effects := s.effects) == s
  {
    if kind !in s.handlers {
      assert Invocations([], payload, meta) == [];
      assert Survivors([]) == [];
    }
  }

  /** One handler of a dispatch runs: its callback is called, then a `once`
      wrapper calls `off` on itself. */
  function RunHandler(s: State, kind: Value, h: Handler, payload: Value, meta: Meta): State
  {
    var s' := s.(effects := s.effects + [Invoke(h.fn, payload, meta)]);
    if h.Once? then RemoveHandler(s', kind, h) else s'
  }

  /** A dispatch over the list `fns` after its first `i` handlers have run. */
  function DispatchedUpTo(s: State, kind: Value, fns: seq<Handler>, i: nat, payload: Value, meta: Meta): State
    requires i <= |fns|
  {
    s.(handlers := s.handlers[kind := KeepUnfired(fns, fns[..i])],
       effects := s.effects + Invocations(fns[..i], payload, meta))
  }

  lemma DispatchStart(s: State, kind: Value, payload: Value, meta: Meta)
    requires kind in s.handlers
    ensures DispatchedUpTo(s, kind, s.handlers[kind], 0, payload, meta) == s
  {
    KeepUnfiredNone(s.handlers[kind]);
  }

  lemma DispatchStep(s: State, kind: Value, fns: seq<Handler>, i: nat, payload: Value, meta: Meta)
    requires i < |fns|
    ensures RunHandler(DispatchedUpTo(s, kind, fns, i, payload, meta), kind, fns[i], payload, meta)
         == DispatchedUpTo(s, kind, fns, i + 1, payload, meta)
  {
    var h := fns[i];
    RunHandlerOn(s, kind, KeepUnfired(fns, fns[..i]), Invocations(fns[..i], payload, meta), h, payload, meta);
    InvocationsStep(fns, i, payload, meta);
    assert fns[..i + 1] == fns[..i] + [h];
    if h.Once? {
      KeepUnfiredOnceStep(fns, fns[..i], h);
    } else {
      KeepUnfiredPlainStep(fns, fns[..i], h);
    }
  }

  /** Running one handler while the type's list is `list` and the dispatch
      has so far made the calls `calls`. */
  lemma RunHandlerOn(s: State, kind: Value, list: seq<Handler>, calls: seq<Effect>, h: Handler, payload: Value, meta: Meta)
    ensures RunHandler(s.(handlers := s.handlers[kind := list], effects := s.effects + calls), kind, h, payload, meta)
         == s.(handlers := s.handlers[kind := if h.Once? then Without(list, h) else list],
               effects := s.effects + (calls + [Invoke(h.fn, payload, meta)]))
  {
    var d := s.(handlers := s.handlers[kind := list], effects := s.effects + calls);
    assert (s.effects + calls) + [Invoke(h.fn, payload, meta)] == s.effects + (calls + [Invoke(h.fn, payload, meta)]);
    if h.Once? {
      assert s.handlers[kind := list][kind := Without(list, h)] == s.handlers[kind := Without(list, h)];
    }
  }

  lemma InvocationsStep(fns: seq<Handler>, i: nat, payload: Value, meta: Meta)
    requires i < |fns|
    ensures Invocations(fns[..i + 1], payload, meta) == Invocations(fns[..i], payload, meta) + [Invoke(fns[i].fn, payload, meta)]
  {
    assert fns[..i + 1][..i] == fns[..i];
  }

  lemma DispatchEnd(s: State, kind: Value, payload: Value, meta: Meta)
    requires kind in s.handlers && SurvivesClone(kind)
    ensures DispatchedUpTo(s, kind, s.handlers[kind], |s.handlers[kind]|, payload, meta)
         == Dispatch(s, kind, payload, meta)
  {
    var fns := s.handlers[kind];
    assert fns[..|fns|] == fns;
    KeepUnfiredAll(fns, fns);
  }

  /** `handleAck(ack)`. */
  function HandleAck(s: State, ack: Object): State
  {
    if Get(ack, "to") == Str(s.senderId) then s.(acks := s.acks + [ack]) else s
  }

  /** `handleMessage(message)`. */
  function HandleMessage(s: State, message: Object, now: int): State
  {
    var id := Get(message, "messageId");
    if Known(s, id) then s
    else
      var s1 := s.(seen := s.seen + {id});
      var s2 := SendAck(s1, id, Get(message, "senderId"), now);
      var s3 := s2.(messages := s2.messages + [message]);
      Dispatch(s3, Get(message, "type"), Get(message, "payload"), MetaOf(message))
  }

  /** `channel.onmessage`: one delivered event. Only an open channel is meant:
      the platform delivers nothing once the channel is closed, and there the
      source's `sendAck` would throw. */
  function Receive(s: State, message: Object, now: int): State
  {
    if Get(message, "senderId") == Str(s.senderId) then s
    else if Get(message, "type") == Str(AckType) then HandleAck(s, message)
    else HandleMessage(s, message, now)
  }

  /** A run of deliveries, in order, each with its arrival time. */
  function ReceiveAll(s: State, events: seq<(Object, int)>): State
    decreases |events|
  {
    if events == [] then s
    else ReceiveAll(Receive(s, events[0].0, events[0].1), events[1..])
  }
}
