/**
 What the facade promises, proved about the transitions of `ChannelSpec`.
 */
module ChannelProps {
  import opened Envelope
  import opened Registry
  import opened ChannelSpec

  /** An inbound data message the facade will take: another facade's, not an
      ack, and with an id the dedup set does not find. */
  ghost predicate Fresh(s: State, m: Object)
  {
    && Get(m, "senderId") != Str(s.senderId)
    && Get(m, "type") != Str(AckType)
    && !Known(s, Get(m, "messageId"))
  }

  // ------------------------------------------------------------ self echo

  /** An event this facade posted itself changes nothing, data or ack alike. */
  lemma OwnEchoIgnored(s: State, m: Object, now: int)
    requires Get(m, "senderId") == Str(s.senderId)
    ensures Receive(s, m, now) == s
  {
  }

  // ---------------------------------------------------------------- dedup

  /** A data message whose id was seen before changes nothing. */
  lemma DuplicateIgnored(s: State, m: Object, now: int)
    requires Get(m, "senderId") != Str(s.senderId) && Get(m, "type") != Str(AckType)
    requires Known(s, Get(m, "messageId"))
    ensures Receive(s, m, now) == s
  {
  }

  /** Receiving the same data message twice is receiving it once: one history
      entry, one ack, one round of callback calls. This holds for every id that
      survives cloning; `CloneIdAcceptedAgain` covers the others. */
  lemma ReceiveTwice(s: State, m: Object, now1: int, now2: int)
    requires Get(m, "type") != Str(AckType) && SurvivesClone(Get(m, "messageId"))
    ensures Receive(Receive(s, m, now1), m, now2) == Receive(s, m, now1)
  {
  }

  /** An object id arrives as a new clone each time, so the dedup set never
      finds it: the same event delivered twice is accepted, recorded and
      acknowledged twice. */
  lemma CloneIdAcceptedAgain(s: State, m: Object, now1: int, now2: int)
    requires !s.closed
    requires Get(m, "senderId") != Str(s.senderId) && Get(m, "type") != Str(AckType)
    requires !SurvivesClone(Get(m, "messageId"))
    ensures var s1 := Receive(s, m, now1);
      var s2 := Receive(s1, m, now2);
      && s2.messages == s.messages + [m, m]
      && s1.effects[|s.effects|]
           == Effect.Post(AckEnvelope(Get(m, "messageId"), s.senderId, Get(m, "senderId"), now1))
      && s2.effects[|s1.effects|]
           == Effect.Post(AckEnvelope(Get(m, "messageId"), s.senderId, Get(m, "senderId"), now2))
  {
    var s1 := Receive(s, m, now1);
    AcceptData(s, m, now1);
    AckBeforeCallbacks(s, m, now1);
    AcceptData(s1, m, now2);
    AckBeforeCallbacks(s1, m, now2);
  }

  // ------------------------------------------------------- accepting data

  /** Accepting a new data message: its id joins the dedup set, it is appended
      to `messages`, exactly one ack is posted (signed by this facade,
      addressed to the originator, for this id) and only then are the
      callbacks registered for its type called in order with its payload and
      meta; the `once` wrappers among them are gone afterwards. */
  lemma AcceptData(s: State, m: Object, now: int)
    requires !s.closed && Fresh(s, m)
    ensures var s' := Receive(s, m, now);
      && s'.senderId == s.senderId && s'.closed == s.closed && s'.nextWrapper == s.nextWrapper
      && s'.seen == s.seen + {Get(m, "messageId")}
      && s'.messages == s.messages + [m]
      && s'.acks == s.acks
      && s'.effects == s.effects
           + [Effect.Post(AckEnvelope(Get(m, "messageId"), s.senderId, Get(m, "senderId"), now))]
           + Invocations(Lookup(s, Get(m, "type")), Get(m, "payload"), MetaOf(m))
      && Registered(s', Get(m, "type")) ==
           (if SurvivesClone(Get(m, "type")) then Survivors(Registered(s, Get(m, "type")))
            else Registered(s, Get(m, "type")))
      && (forall k :: k != Get(m, "type") ==> Registered(s', k) == Registered(s, k))
  {
    var id := Get(m, "messageId");
    var ack := AckEnvelope(id, s.senderId, Get(m, "senderId"), now);
    var s3 := s.(seen := s.seen + {id}, messages := s.messages + [m], effects := s.effects + [Effect.Post(ack)]);
    AcceptedThenDispatched(s, m, now);
    DispatchShape(s3, Get(m, "type"), Get(m, "payload"), MetaOf(m));
  }

  /** Before its dispatch, accepting a message records it and posts the ack. */
  lemma AcceptedThenDispatched(s: State, m: Object, now: int)
    requires !s.closed && Fresh(s, m)
    ensures var id := Get(m, "messageId");
      var ack := AckEnvelope(id, s.senderId, Get(m, "senderId"), now);
      Receive(s, m, now) ==
        Dispatch(s.(seen := s.seen + {id}, messages := s.messages + [m], effects := s.effects + [Effect.Post(ack)]),
                 Get(m, "type"), Get(m, "payload"), MetaOf(m))
  {
  }

  /** An object `type` arrives as a new clone and matches no registered type:
      an accepted event of that type is recorded and acknowledged, and calls
      no callback and changes no registration. */
  lemma CloneTypeCallsNothing(s: State, m: Object, now: int)
    requires !s.closed && Fresh(s, m) && !SurvivesClone(Get(m, "type"))
    ensures var s' := Receive(s, m, now);
      && s'.messages == s.messages + [m]
      && s'.effects == s.effects
           + [Effect.Post(AckEnvelope(Get(m, "messageId"), s.senderId, Get(m, "senderId"), now))]
      && s'.handlers == s.handlers
  {
  }

  /** The ack for an accepted message is the first thing it causes, before any
      callback runs. */
  lemma AckBeforeCallbacks(s: State, m: Object, now: int)
    requires !s.closed && Fresh(s, m)
    ensures |Receive(s, m, now).effects| > |s.effects|
    ensures Receive(s, m, now).effects[|s.effects|]
         == Effect.Post(AckEnvelope(Get(m, "messageId"), s.senderId, Get(m, "senderId"), now))
    ensures forall i :: |s.effects| < i < |Receive(s, m, now).effects| ==>
              Receive(s, m, now).effects[i].Invoke?
  {
    AcceptData(s, m, now);
  }

  // ---------------------------------------------------------------- acks

  /** `acks` gains exactly the acks of other facades addressed to this one;
      every other event leaves it as it was. */
  lemma AcksOnlyAddressed(s: State, m: Object, now: int)
    ensures Receive(s, m, now).acks ==
      if Get(m, "senderId") != Str(s.senderId) && Get(m, "type") == Str(AckType)
         && Get(m, "to") == Str(s.senderId)
      then s.acks + [m] else s.acks
  {
  }

  /** An ack from another facade touches nothing but `acks`: no dedup, no
      history entry, no post, no callback. */
  lemma ReceiveAck(s: State, m: Object, now: int)
    requires Get(m, "senderId") != Str(s.senderId) && Get(m, "type") == Str(AckType)
    ensures Receive(s, m, now) ==
      if Get(m, "to") == Str(s.senderId) then s.(acks := s.acks + [m]) else s
  {
  }

  /** Acks are not deduplicated: the same ack received twice is recorded twice. */
  lemma AckRecordedEachTime(s: State, m: Object, now1: int, now2: int)
    requires Get(m, "senderId") != Str(s.senderId) && Get(m, "type") == Str(AckType)
    requires Get(m, "to") == Str(s.senderId)
    ensures Receive(Receive(s, m, now1), m, now2).acks == s.acks + [m, m]
  {
  }

  /** Any event whose `type` is the ack discriminator takes the ack path, even
      one a caller posted through `send`: the receiver never records it as a
      message, never acknowledges it and calls no callback for it. */
  lemma AckTypedDataTakesAckPath(a: State, b: State, data: Object, messageId: string, now1: int, now2: int)
    requires a.senderId != b.senderId
    requires Get(data, "type") == Str(AckType)
    ensures var e := DataEnvelope(data, a.senderId, messageId, now1);
      Receive(b, e, now2) == if Get(data, "to") == Str(b.senderId) then b.(acks := b.acks + [e]) else b
  {
    DataEnvelopeKeepsTypeAndPayload(data, a.senderId, messageId, now1);
    var e := DataEnvelope(data, a.senderId, messageId, now1);
    assert Get(e, "to") == Get(data, "to");
  }

  // ------------------------------------------------------------- registry

  /** `on` appends at the end of its type's list and leaves other types alone. */
  lemma OnAppends(s: State, kind: Value, fn: FnRef)
    ensures Registered(On(s, kind, fn), kind) == Registered(s, kind) + [Plain(fn)]
    ensures forall k :: k != kind ==> Registered(On(s, kind, fn), k) == Registered(s, k)
    ensures On(s, kind, fn).(handlers := s.handlers) == s
  {
  }

  /** `off` drops every registration of the callback from its type's list and
      nothing else; other types are untouched; it does nothing for a type
      never registered; doing it twice is doing it once. */
  lemma OffRemovesAll(s: State, kind: Value, fn: FnRef)
    ensures Plain(fn) !in Registered(Off(s, kind, fn), kind)
    ensures forall x :: x in Registered(Off(s, kind, fn), kind) <==> x in Registered(s, kind) && x != Plain(fn)
    ensures forall k :: k != kind ==> Registered(Off(s, kind, fn), k) == Registered(s, k)
    ensures kind !in s.handlers ==> Off(s, kind, fn) == s
    ensures Off(s, kind, fn).(handlers := s.handlers) == s
    ensures Off(Off(s, kind, fn), kind, fn) == Off(s, kind, fn)
  {
    if kind in s.handlers {
      WithoutIdempotent(s.handlers[kind], Plain(fn));
    }
  }

  /** `off` keeps the remaining registrations in their order: removing from a
      list split in two is removing from each part. */
  lemma OffKeepsOrder(s: State, kind: Value, fn: FnRef, before: seq<Handler>, after: seq<Handler>)
    requires Registered(s, kind) == before + after
    ensures Registered(Off(s, kind, fn), kind) == Without(before, Plain(fn)) + Without(after, Plain(fn))
  {
    if kind in s.handlers {
      WithoutAppend(before, after, Plain(fn));
    } else {
      assert before == [] && after == [];
    }
  }

  /** `off(type, fn)` does not remove what `once(type, fn)` registered: the
      wrapper is a different reference from the callback. */
  lemma OffSparesOnceWrapper(s: State, kind: Value, fn: FnRef, w: nat)
    requires Once(w, fn) in Registered(s, kind)
    ensures Once(w, fn) in Registered(Off(s, kind, fn), kind)
  {
  }

  /** The first accepted delivery after `once(type, fn)`: the ack is posted,
      then the type's list as `once` left it is dispatched, and the type's
      list becomes its plain part. */
  lemma OnceAccept(s: State, kind: Value, fn: FnRef, m: Object, now: int)
    requires !s.closed && SurvivesClone(kind)
    requires Get(m, "type") == kind && Fresh(s, m)
    ensures var s2 := Receive(OnceOn(s, kind, fn), m, now);
      && s2.effects == s.effects
           + [Effect.Post(AckEnvelope(Get(m, "messageId"), s.senderId, Get(m, "senderId"), now))]
           + Invocations(Registered(s, kind) + [Once(s.nextWrapper, fn)], Get(m, "payload"), MetaOf(m))
      && Registered(s2, kind) == Survivors(Registered(s, kind) + [Once(s.nextWrapper, fn)])
      && (forall k :: k != kind ==> Registered(s2, k) == Registered(s, k))
  {
    var s1 := OnceOn(s, kind, fn);
    assert Registered(s1, kind) == Registered(s, kind) + [Once(s.nextWrapper, fn)];
    assert Fresh(s1, m);
    AcceptData(s1, m, now);
  }

  /** A log that grows by one post and then by the calls of a list whose last
      entry calls `fn` and no other entry does, has one more call of `fn`. */
  lemma CallsOneMore(log: seq<Effect>, post: Effect, list: seq<Handler>, w: Handler, payload: Value, meta: Meta, fn: FnRef)
    requires post.Post? && w.fn == fn
    requires forall x :: x in list ==> x.fn != fn
    ensures CallsTo(log + [post] + Invocations(list + [w], payload, meta), fn) == CallsTo(log, fn) + 1
  {
    var full := list + [w];
    assert full[..|full| - 1] == list;
    OccurrencesNone(list, fn);
    CallsToInvocations(full, payload, meta, fn);
    CallsToAppend(log + [post], Invocations(full, payload, meta), fn);
    CallsToAppend(log, [post], fn);
    assert CallsTo([post], fn) == 0 by {
      assert [post][1..] == [];
    }
  }

  /** The first delivery after `once(type, fn)` calls `fn` once and removes
      the wrapper; the type's list is then its plain callbacks, in their
      order. */
  lemma OnceFirstDelivery(s: State, kind: Value, fn: FnRef, m: Object, now: int)
    requires !s.closed && SurvivesClone(kind)
    requires forall x :: x in Registered(s, kind) ==> x.fn != fn
    requires Get(m, "type") == kind && Fresh(s, m)
    ensures var s2 := Receive(OnceOn(s, kind, fn), m, now);
      && CallsTo(s2.effects, fn) == CallsTo(s.effects, fn) + 1
      && Once(s.nextWrapper, fn) !in Registered(s2, kind)
      && (forall x :: x in Registered(s2, kind) ==> x.fn != fn)
      && Registered(s2, kind) == Survivors(Registered(s, kind))
  {
    var w := Once(s.nextWrapper, fn);
    OnceAccept(s, kind, fn, m, now);
    PlainAfterOnce(Registered(s, kind), w);
    CallsOneMore(s.effects, Effect.Post(AckEnvelope(Get(m, "messageId"), s.senderId, Get(m, "senderId"), now)),
                 Registered(s, kind), w, Get(m, "payload"), MetaOf(m), fn);
  }

  /** A delivery of a type none of whose registrations refers to `fn` does not
      call `fn`. */
  lemma NoCallsWhenUnregistered(s: State, kind: Value, fn: FnRef, m: Object, now: int)
    requires !s.closed
    requires forall x :: x in Registered(s, kind) ==> x.fn != fn
    requires Get(m, "type") == kind
    ensures CallsTo(Receive(s, m, now).effects, fn) == CallsTo(s.effects, fn)
  {
    if Fresh(s, m) {
      AcceptData(s, m, now);
      var ack := Effect.Post(AckEnvelope(Get(m, "messageId"), s.senderId, Get(m, "senderId"), now));
      var calls := Invocations(Lookup(s, kind), Get(m, "payload"), MetaOf(m));
      OccurrencesNone(Lookup(s, kind), fn);
      CallsToInvocations(Lookup(s, kind), Get(m, "payload"), MetaOf(m), fn);
      CallsToAppend(s.effects + [ack], calls, fn);
      CallsToAppend(s.effects, [ack], fn);
      assert CallsTo([ack], fn) == 0 by {
        assert [ack][1..] == [];
      }
    } else {
      assert Receive(s, m, now).effects == s.effects;
    }
  }

  /** A delivery only ever takes registrations away, and leaves the channel
      open or closed as it was. */
  lemma ReceiveShrinks(s: State, m: Object, now: int, kind: Value)
    ensures Receive(s, m, now).closed == s.closed
    ensures forall x :: x in Registered(Receive(s, m, now), kind) ==> x in Registered(s, kind)
  {
  }

  lemma {:induction false} ReceiveAllShrinks(s: State, events: seq<(Object, int)>, kind: Value)
    ensures ReceiveAll(s, events).closed == s.closed
    ensures forall x :: x in Registered(ReceiveAll(s, events), kind) ==> x in Registered(s, kind)
    decreases |events|
  {
    if events != [] {
      ReceiveShrinks(s, events[0].0, events[0].1, kind);
      ReceiveAllShrinks(Receive(s, events[0].0, events[0].1), events[1..], kind);
    }
  }

  /** Deliveries of a type none of whose registrations refers to `fn` never
      call `fn`, however many there are. */
  lemma {:induction false} NeverCalledAfter(s: State, kind: Value, fn: FnRef, events: seq<(Object, int)>)
    requires !s.closed
    requires forall x :: x in Registered(s, kind) ==> x.fn != fn
    requires forall i :: 0 <= i < |events| ==> Get(events[i].0, "type") == kind
    ensures CallsTo(ReceiveAll(s, events).effects, fn) == CallsTo(s.effects, fn)
    decreases |events|
  {
    if events != [] {
      var s1 := Receive(s, events[0].0, events[0].1);
      NoCallsWhenUnregistered(s, kind, fn, events[0].0, events[0].1);
      ReceiveShrinks(s, events[0].0, events[0].1, kind);
      NeverCalledAfter(s1, kind, fn, events[1..]);
    }
  }

  /** `once`: over any run of deliveries of its type whose first is accepted,
      the callback is called exactly once, and its wrapper is gone at the end;
      the type's list then holds its plain callbacks, or fewer. */
  lemma {:induction false} OnceFiresOnce(s: State, kind: Value, fn: FnRef, events: seq<(Object, int)>)
    requires !s.closed && SurvivesClone(kind)
    requires forall x :: x in Registered(s, kind) ==> x.fn != fn
    requires |events| > 0 && Fresh(s, events[0].0)
    requires forall i :: 0 <= i < |events| ==> Get(events[i].0, "type") == kind
    ensures var s' := ReceiveAll(OnceOn(s, kind, fn), events);
      && CallsTo(s'.effects, fn) == CallsTo(s.effects, fn) + 1
      && Once(s.nextWrapper, fn) !in Registered(s', kind)
      && (forall x :: x in Registered(s', kind) ==> x in Survivors(Registered(s, kind)))
  {
    var s2 := Receive(OnceOn(s, kind, fn), events[0].0, events[0].1);
    OnceFirstDelivery(s, kind, fn, events[0].0, events[0].1);
    NeverCalledAfter(s2, kind, fn, events[1..]);
    ReceiveAllShrinks(s2, events[1..], kind);
  }

  /** Wrapper `w` has been handed out and is no longer registered for any
      type. */
  ghost predicate Retired(s: State, w: nat)
  {
    && w < s.nextWrapper
    && forall k, h :: k in s.handlers && h in s.handlers[k] ==> !(h.Once? && h.wrapper == w)
  }

  /** After the first delivery the wrapper `once` registered is registered
      nowhere: the other types never held it, because every wrapper registered
      before it has a smaller identity. */
  lemma OnceRetiresWrapper(s: State, kind: Value, fn: FnRef, m: Object, now: int)
    requires Inv(s)
    requires !s.closed && SurvivesClone(kind)
    requires Get(m, "type") == kind && Fresh(s, m)
    ensures Retired(Receive(OnceOn(s, kind, fn), m, now), s.nextWrapper)
  {
    var s2 := Receive(OnceOn(s, kind, fn), m, now);
    OnceAccept(s, kind, fn, m, now);
    PlainAfterOnce(Registered(s, kind), Once(s.nextWrapper, fn));
    RetiredWhenOthersBelow(s, s2, kind, s.nextWrapper);
  }

  /** A wrapper is retired once its own type holds only plain callbacks and
      every other type is as it was when all its wrappers were below it. */
  lemma RetiredWhenOthersBelow(s: State, s2: State, kind: Value, w: nat)
    requires forall k :: k in s.handlers ==> WrappersBelow(s.handlers[k], w)
    requires w < s2.nextWrapper
    requires forall x :: x in Registered(s2, kind) ==> x.Plain?
    requires forall k :: k != kind ==> Registered(s2, k) == Registered(s, k)
    ensures Retired(s2, w)
  {
    forall k, h | k in s2.handlers && h in s2.handlers[k]
      ensures !(h.Once? && h.wrapper == w)
    {
      assert h in Registered(s2, k);
      if k != kind {
        assert h in Registered(s, k);
      }
    }
  }

  /** A retired wrapper stays retired through every operation of the
      registry: `on` and `off` register no wrapper, and `once` registers one
      with a new, larger identity. */
  lemma RetiredUnderRegistry(s: State, w: nat, kind: Value, fn: FnRef)
    requires Retired(s, w)
    ensures Retired(On(s, kind, fn), w) && Retired(Off(s, kind, fn), w) && Retired(OnceOn(s, kind, fn), w)
  {
  }

  /** A retired wrapper stays retired through deliveries, sends and closing,
      which only ever take registrations away. */
  lemma RetiredUnderTraffic(s: State, w: nat, m: Object, now: int, data: Object, messageId: string)
    requires Retired(s, w)
    ensures Retired(Receive(s, m, now), w) && Retired(Send(s, data, messageId, now).0, w) && Retired(Close(s), w)
  {
    forall k | k in Receive(s, m, now).handlers
      ensures forall h :: h in Receive(s, m, now).handlers[k] ==> h in Registered(s, k)
    {
      ReceiveShrinks(s, m, now, k);
    }
  }

  // ----------------------------------------------------------------- send

  /** `send` on an open channel posts one envelope carrying the caller's
      fields overwritten by this facade's identity, the given id and the time,
      returns that id and changes nothing else; on a closed channel the post is
      refused and nothing changes. */
  lemma SendPosts(s: State, data: Object, messageId: string, now: int)
    ensures var (s', r) := Send(s, data, messageId, now);
      if s.closed then s' == s && r == None
      else
        && r == Some(messageId)
        && s'.effects == s.effects + [Effect.Post(DataEnvelope(data, s.senderId, messageId, now))]
        && s'.(effects := s.effects) == s
  {
  }

  /** The acknowledgment round trip between two facades: A sends, B accepts
      the envelope and acknowledges it, A receives B's ack and records it, and
      the recorded ack names the id `send` returned. */
  lemma AckRoundTrip(a: State, b: State, data: Object, messageId: string, now1: int, now2: int, now3: int)
    requires a.senderId != b.senderId && !a.closed && !b.closed
    requires Get(data, "type") != Str(AckType)
    requires Str(messageId) !in b.seen
    ensures var (a1, r) := Send(a, data, messageId, now1);
      var e := DataEnvelope(data, a.senderId, messageId, now1);
      var b1 := Receive(b, e, now2);
      var ack := AckEnvelope(Str(messageId), b.senderId, Str(a.senderId), now2);
      var a2 := Receive(a1, ack, now3);
      && r == Some(messageId)
      && a1.effects[|a1.effects| - 1] == Effect.Post(e)
      && b1.messages == b.messages + [e]
      && b1.effects[|b.effects|] == Effect.Post(ack)
      && a2.acks == a.acks + [ack]
      && Get(ack, "ackFor") == Str(messageId)
  {
    var e := DataEnvelope(data, a.senderId, messageId, now1);
    DataEnvelopeKeepsTypeAndPayload(data, a.senderId, messageId, now1);
    assert Fresh(b, e);
    AckBeforeCallbacks(b, e, now2);
    AcceptData(b, e, now2);
  }

  // ------------------------------------------------------------ invariant

  lemma InitialInv(senderId: string)
    ensures Inv(Initial(senderId))
  {
  }

  /** Receiving any event keeps the invariant; in particular `messages` never
      holds two entries with the same id and `acks` only acks addressed here. */
  lemma ReceiveInv(s: State, m: Object, now: int)
    requires Inv(s)
    ensures Inv(Receive(s, m, now))
  {
    if Fresh(s, m) {
      var s' := Receive(s, m, now);
      var id := Get(m, "messageId");
      assert s'.messages == s.messages + [m];
      forall i, j | 0 <= i < j < |s'.messages| && SurvivesClone(Get(s'.messages[i], "messageId"))
        ensures Get(s'.messages[i], "messageId") != Get(s'.messages[j], "messageId")
      {
        if j == |s.messages| {
          assert s.messages[i] in s.messages;
        }
      }
    }
  }

  lemma RegistryInv(s: State, kind: Value, fn: FnRef)
    requires Inv(s)
    ensures Inv(On(s, kind, fn)) && Inv(Off(s, kind, fn)) && Inv(OnceOn(s, kind, fn))
  {
    InvNewRegistry(s, On(s, kind, fn));
    InvNewRegistry(s, Off(s, kind, fn));
    InvNewRegistry(s, OnceOn(s, kind, fn));
  }

  /** The invariant survives any change of the registry alone that keeps
      wrapper identities below the counter. */
  lemma InvNewRegistry(s: State, s': State)
    requires Inv(s)
    requires s' == s.(handlers := s'.handlers, nextWrapper := s'.nextWrapper)
    requires forall kind :: kind in s'.handlers ==> WrappersBelow(s'.handlers[kind], s'.nextWrapper)
    ensures Inv(s')
  {
  }

  lemma SendInv(s: State, data: Object, messageId: string, now: int)
    requires Inv(s)
    ensures Inv(Send(s, data, messageId, now).0)
  {
  }

  lemma CloseInv(s: State)
    requires Inv(s)
    ensures Inv(Close(s))
  {
  }

  /** A data message that was accepted appears in `messages` exactly once,
      when its id survives cloning. */
  lemma AcceptedOnce(s: State, i: nat, j: nat)
    requires Inv(s) && i < |s.messages| && j < |s.messages|
    requires SurvivesClone(Get(s.messages[i], "messageId"))
    requires Get(s.messages[i], "messageId") == Get(s.messages[j], "messageId")
    ensures i == j
  {
  }
}
