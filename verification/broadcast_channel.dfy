/**
 The channel facade as the object it is: fields updated in place by its
 operations. Posting on the channel appends to the `effects` log, and so does
 calling a callback. Each method is proved to perform exactly the transition
 `ChannelSpec` gives for it, so the properties in `ChannelProps` hold of the
 object.
 */
module BroadcastChannel {
  import opened Envelope
  import opened Registry
  import ChannelSpec
  import ChannelProps

  class Channel {
    /** The channel name the facade is bound to. */
    const name: string
    /** This facade's sender identity, fixed for its lifetime. */
    const senderId: string

    var handlers: map<Value, seq<Handler>>
    /** Ids of the data messages already accepted (the dedup record). */
    var seen: set<Value>
    var messages: seq<Object>
    var acks: seq<Object>
    /** Posts and callback calls, in the order they happened. */
    var effects: seq<Effect>
    /** The identity the next `once` wrapper gets. */
    var nextWrapper: nat
    var closed: bool

    ghost function Model(): ChannelSpec.State
      reads this
    {
      ChannelSpec.State(senderId, handlers, seen, messages, acks, effects, nextWrapper, closed)
    }

    ghost predicate Valid()
      reads this
    {
      ChannelSpec.Inv(Model())
    }

    /** Opens the channel `name` under the identity `senderId`. */
    constructor (name: string, senderId: string)
      ensures Valid() && Model() == ChannelSpec.Initial(senderId) && this.name == name
    {
      this.name := name;
      this.senderId := senderId;
      handlers := map[];
      seen := {};
      messages := [];
      acks := [];
      effects := [];
      nextWrapper := 0;
      closed := false;
      new;
      ChannelProps.InitialInv(senderId);
    }

    /** `channel.postMessage(e)`; a closed channel refuses the post. */
    method PostMessage(e: Object) returns (ok: bool)
      modifies this`effects
      ensures (Model(), ok) == ChannelSpec.Post(old(Model()), e)
    {
      ok := !closed;
      if ok {
        effects := effects + [Effect.Post(e)];
      }
    }

    /** `send(data)`: returns the new message's id, or `None` when the closed
        channel refuses the post. */
    method Send(data: Object, messageId: string, now: int) returns (r: Option<string>)
      requires Valid()
      modifies this
      ensures Valid()
      ensures (Model(), r) == ChannelSpec.Send(old(Model()), data, messageId, now)
    {
      var message := DataEnvelope(data, senderId, messageId, now);
      var ok := PostMessage(message);
      r := if ok then Some(messageId) else None;
      ChannelProps.SendInv(old(Model()), data, messageId, now);
    }

    /** `sendAck(messageId, toSenderId)`. */
    method SendAck(ackFor: Value, to: Value, now: int)
      modifies this`effects
      ensures Model() == ChannelSpec.SendAck(old(Model()), ackFor, to, now)
    {
      var ack := AckEnvelope(ackFor, senderId, to, now);
      var _ := PostMessage(ack);
    }

    /** `handleAck(ack)`. */
    method HandleAck(ack: Object)
      modifies this`acks
      ensures Model() == ChannelSpec.HandleAck(old(Model()), ack)
    {
      if Get(ack, "to") == Str(senderId) {
        acks := acks + [ack];
      }
    }

    /** `handleMessage(message)`. */
    method HandleMessage(message: Object, now: int)
      modifies this
      ensures Model() == ChannelSpec.HandleMessage(old(Model()), message, now)
    {
      var id := Get(message, "messageId");
      if SurvivesClone(id) && id in seen {
        return;
      }
      seen := seen + {id};
      SendAck(id, Get(message, "senderId"), now);
      messages := messages + [message];
      InvokeHandlers(Get(message, "type"), Get(message, "payload"), MetaOf(message));
    }

    /** One registered handler runs: the callback is called, and a `once`
        wrapper then unregisters itself from `kind`. */
    method RunHandler(kind: Value, h: Handler, payload: Value, meta: Meta)
      modifies this`handlers, this`effects
      ensures Model() == ChannelSpec.RunHandler(old(Model()), kind, h, payload, meta)
    {
      effects := effects + [Invoke(h.fn, payload, meta)];
      if h.Once? {
        Remove(kind, h);
      }
    }

    /** `invokeHandlers(type, payload, meta)`: runs every handler of the list
        as it stood when the dispatch began, in order. */
    method InvokeHandlers(kind: Value, payload: Value, meta: Meta)
      modifies this`handlers, this`effects
      ensures Model() == ChannelSpec.Dispatch(old(Model()), kind, payload, meta)
    {
      if kind !in handlers || !SurvivesClone(kind) {
        return;
      }
      var fns := handlers[kind];
      ChannelSpec.DispatchStart(Model(), kind, payload, meta);
      var i := 0;
      while i < |fns|
        invariant i <= |fns|
        invariant Model() == ChannelSpec.DispatchedUpTo(old(Model()), kind, fns, i, payload, meta)
      {
        ChannelSpec.DispatchStep(old(Model()), kind, fns, i, payload, meta);
        RunHandler(kind, fns[i], payload, meta);
        i := i + 1;
      }
      ChannelSpec.DispatchEnd(old(Model()), kind, payload, meta);
    }

    /** `off`'s body for any registration, callback or wrapper. */
    method Remove(kind: Value, h: Handler)
      modifies this`handlers
      ensures Model() == ChannelSpec.RemoveHandler(old(Model()), kind, h)
    {
      if kind in handlers {
        var list := Without(handlers[kind], h);
        handlers := handlers[kind := list];
      }
    }

    /** `on(type, fn)`. */
    method On(kind: Value, fn: FnRef)
      requires Valid()
      modifies this`handlers
      ensures Valid()
      ensures Model() == ChannelSpec.On(old(Model()), kind, fn)
    {
      if kind !in handlers {
        handlers := handlers[kind := []];
      }
      handlers := handlers[kind := handlers[kind] + [Plain(fn)]];
      assert Model() == ChannelSpec.On(old(Model()), kind, fn);
      ChannelProps.RegistryInv(old(Model()), kind, fn);
    }

    /** `off(type, fn)`. */
    method Off(kind: Value, fn: FnRef)
      requires Valid()
      modifies this`handlers
      ensures Valid()
      ensures Model() == ChannelSpec.Off(old(Model()), kind, fn)
    {
      Remove(kind, Plain(fn));
      ChannelProps.RegistryInv(old(Model()), kind, fn);
    }

    /** `once(type, fn)`: registers a new wrapper around `fn`. */
    method Once(kind: Value, fn: FnRef)
      requires Valid()
      modifies this`handlers, this`nextWrapper
      ensures Valid()
      ensures Model() == ChannelSpec.OnceOn(old(Model()), kind, fn)
    {
      var wrapper := Handler.Once(nextWrapper, fn);
      nextWrapper := nextWrapper + 1;
      if kind !in handlers {
        handlers := handlers[kind := []];
      }
      handlers := handlers[kind := handlers[kind] + [wrapper]];
      assert Model() == ChannelSpec.OnceOn(old(Model()), kind, fn);
      ChannelProps.RegistryInv(old(Model()), kind, fn);
    }

    /** `channel.onmessage`: one event delivered by the channel. The channel
        delivers nothing once it is closed. */
    method Receive(message: Object, now: int)
      requires Valid() && !closed
      modifies this
      ensures Valid()
      ensures Model() == ChannelSpec.Receive(old(Model()), message, now)
    {
      ChannelProps.ReceiveInv(Model(), message, now);
      if Get(message, "senderId") == Str(senderId) {
        return;
      }
      if Get(message, "type") == Str(AckType) {
        HandleAck(message);
      } else {
        HandleMessage(message, now);
      }
    }

    /** The teardown hook: `channel.close()`, harmless when repeated. */
    method Close()
      requires Valid()
      modifies this`closed
      ensures Valid()
      ensures Model() == ChannelSpec.Close(old(Model()))
    {
      closed := true;
      ChannelProps.CloseInv(old(Model()));
    }
  }
}
