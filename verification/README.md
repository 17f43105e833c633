# Cross-tab broadcast channel, modelled in Dafny

This project models `useBroadcastChannel`, the cross-context messaging hook of
the vue3-quasar-admin front end. One instance of the hook is a *facade* bound
to a named broadcast channel. It holds:

- a sender identity, fixed for its lifetime;
- a handler registry mapping an event type to an ordered list of callbacks;
- a dedup set of the message ids it has already accepted;
- two append-only histories: `messages` (accepted data envelopes) and `acks`
  (acknowledgments addressed to it).

`send` posts a data envelope and returns its id. Every inbound event goes
through one dispatcher:

1. the facade's own echo is dropped;
2. an event whose `type` is `'__ack'` is kept in `acks` only when its `to` is
   this facade;
3. any other event is data: a seen id is dropped; a new one is marked seen,
   acknowledged to its sender, appended to `messages`, and handed to the
   callbacks of its type in registration order.

`on`, `off` and `once` edit the registry. Unmounting the owning component
closes the channel.

Files:

- `envelope.dfy` (module `Envelope`): field values, objects as field maps, and
  the two envelope builders.
- `registry.dfy` (module `Registry`): handlers, `off`'s filter, dispatch
  order, and the lemmas on list filtering that the dispatch proof uses.
- `channel_spec.dfy` (module `ChannelSpec`): the facade as a state machine
  over values; one transition function per operation.
- `channel_props.dfy` (module `ChannelProps`): the promised properties, proved
  about those transitions.
- `broadcast_channel.dfy` (module `BroadcastChannel`): the facade as a class
  whose fields its methods update in place. Each method is proved to perform
  its `ChannelSpec` transition, and each public method keeps the invariant
  `ChannelSpec.Inv`.

Modelling choices:

- A JavaScript object (the caller's data, an inbound event) is a
  `map<string, Value>`. Reading a missing field gives `Undefined`, as a
  property read does. Registry keys and dedup entries are `Value`s.
- Callbacks are opaque references (`FnRef`). `on` stores `Plain(fn)`. `once`
  stores `Once(w, fn)`, a wrapper with a new identity `w` taken from a counter.
  This stands in for the closure `once` creates: `off(type, fn)` never
  matches it, just as `wrapper !== fn` in the source.
- Posts on the channel and callback calls go into one ordered `effects` log.
  This lets the model state that the ack is posted before any callback runs.
- Message ids, timestamps and the sender identity are parameters. The source
  draws them from `Date.now` and `Math.random`.
- `invokeHandlers` loops over the array it read when the dispatch began. A
  `once` wrapper's `off` installs a new filtered array, so every handler in
  that snapshot still runs. Afterwards the type's list holds only its plain
  callbacks.
- The channel hands each receiver a structured clone of the posted object
  (`event.data`). Strings, numbers and `undefined` arrive as themselves, but
  an object-valued field arrives as a new object. `SurvivesClone` tells the
  two apart. So an object `messageId` is never found by the dedup set
  (`ChannelSpec.Known`), and an object `type` finds no handlers
  (`ChannelSpec.Lookup`).
- Where the code's behaviour is easy to misread, the model follows the code:
  - `off` removes every registration equal to the callback, not only the
    first (the `filter` at src/hooks/useBroadcastChannel.js:103).
  - Any inbound event typed `'__ack'` takes the ack path, including one a
    caller sent through `send`.
  - A post on a closed channel is refused by the platform: `postMessage` on a
    closed `BroadcastChannel` throws rather than being silently ignored.
    `Send` then returns `None` and posts nothing.

## Model

| member | source | states |
|---|---|---|
| `Envelope.DataEnvelope` | src/hooks/useBroadcastChannel.js:29-36 | the posted envelope keeps every caller field except `senderId`, `messageId` and `timestamp`, which carry the facade's identity, the new id and the send time; its fields are exactly the caller's plus those three |
| `Envelope.AckEnvelope` | src/hooks/useBroadcastChannel.js:43-50 | an ack carries type `'__ack'`, the acknowledged id, the acknowledger's identity, the addressee and a timestamp, and nothing else |
| `Envelope.DataEnvelopeKeepsTypeAndPayload` | src/hooks/useBroadcastChannel.js:31-36 | `send` keeps the caller's `type` and `payload` |
| `Registry.Without` | src/hooks/useBroadcastChannel.js:103 | after `off`'s filter, a handler is in the list iff it was there before and is not the removed one; the list never grows |
| `Registry.WithoutAppend` | src/hooks/useBroadcastChannel.js:103 | the filter distributes over concatenation, so it keeps the remaining handlers in their relative order |
| `Registry.WithoutAbsent` | src/hooks/useBroadcastChannel.js:101-106 | removing a handler that is not registered leaves the list unchanged |
| `Registry.WithoutIdempotent` | src/hooks/useBroadcastChannel.js:101-106 | removing twice is the same as removing once |
| `Registry.Survivors` | src/hooks/useBroadcastChannel.js:109-115 | what remains after every `once` wrapper of a list has fired: exactly the plain callbacks of the list |
| `Registry.SurvivorsAppend` | src/hooks/useBroadcastChannel.js:103-113 | the plain part of a concatenation is the concatenation of the plain parts, so a dispatch keeps the plain callbacks in order and with their multiplicity |
| `Registry.PlainAfterOnce` | src/hooks/useBroadcastChannel.js:109-115 | a `once` wrapper appended to a list leaves nothing behind once it has fired |
| `Registry.KeepUnfiredOnceStep` | src/hooks/useBroadcastChannel.js:110-113 | a wrapper that fires mid-dispatch and calls `off` on itself turns the list into the one with that wrapper also fired |
| `Registry.KeepUnfiredPlainStep` | src/hooks/useBroadcastChannel.js:86-88 | a plain callback running mid-dispatch leaves the list as it was |
| `Registry.KeepUnfiredNone` | src/hooks/useBroadcastChannel.js:84 | before any wrapper fires, the list is the one the dispatch read |
| `Registry.KeepUnfiredAll` | src/hooks/useBroadcastChannel.js:86-88 | once every wrapper of the list has fired, the list is its plain part |
| `Registry.Invocations` | src/hooks/useBroadcastChannel.js:83-90 | a dispatch makes one call per registered handler; the i-th call goes to the i-th handler's callback, with the event's payload and meta |
| `Registry.CallsToAppend` | src/hooks/useBroadcastChannel.js:86-88 | the calls to a callback in two consecutive stretches of the log add up |
| `Registry.CallsToInvocations` | src/hooks/useBroadcastChannel.js:83-90 | a dispatch calls a callback exactly as many times as the list refers to it |
| `Registry.OccurrencesNone` | src/hooks/useBroadcastChannel.js:84-88 | a callback no entry refers to is counted zero times |
| `ChannelSpec.DispatchStart` | src/hooks/useBroadcastChannel.js:84 | a dispatch that has run no handler has changed nothing |
| `ChannelSpec.DispatchStep` | src/hooks/useBroadcastChannel.js:86-88 | running the next handler of the snapshot advances the dispatch by exactly one call and one wrapper removal |
| `ChannelSpec.RunHandlerOn` | src/hooks/useBroadcastChannel.js:110-113 | one handler run appends its call to the log, then a wrapper removes itself from its type's list |
| `ChannelSpec.InvocationsStep` | src/hooks/useBroadcastChannel.js:86-88 | the calls for one more handler are the earlier calls followed by that handler's call |
| `ChannelSpec.DispatchEnd` | src/hooks/useBroadcastChannel.js:83-90 | a dispatch that has run the whole snapshot of a registered type leaves the plain callbacks registered and has logged every call in order |
| `ChannelSpec.DispatchShape` | src/hooks/useBroadcastChannel.js:83-90 | a dispatch logs one call per handler `handlers.get` finds for the type, in order, leaves the type's plain callbacks, and changes nothing else; an object type finds none |
| `ChannelProps.OwnEchoIgnored` | src/hooks/useBroadcastChannel.js:121 | an event carrying the facade's own sender id changes no state at all, whether data or ack |
| `ChannelProps.DuplicateIgnored` | src/hooks/useBroadcastChannel.js:65-68 | a data event whose id the dedup set finds (an id that survives cloning and was accepted before) changes no state at all |
| `ChannelProps.ReceiveTwice` | src/hooks/useBroadcastChannel.js:65-72 | receiving the same data event twice, when its id survives cloning, gives the same state as receiving it once: one history entry, one ack, one round of calls |
| `ChannelProps.CloneIdAcceptedAgain` | src/hooks/useBroadcastChannel.js:65-72 | an event whose `messageId` is an object is never deduplicated: delivered twice, it is appended to `messages` twice, and each delivery's first post is an ack for it |
| `ChannelProps.AcceptData` | src/hooks/useBroadcastChannel.js:64-80 | accepting a new data event adds its id to the dedup set and appends it to `messages`. It logs exactly one ack (for that id, signed by the facade, addressed to the originator), then the calls of the handlers `handlers.get` finds for its type, in order. The type's `once` wrappers are gone afterwards, and `acks`, the other types and the identity are unchanged |
| `ChannelProps.AcceptedThenDispatched` | src/hooks/useBroadcastChannel.js:69-79 | accepting a data event marks its id seen, posts its ack and appends it to `messages`, and then dispatches it |
| `ChannelProps.CloneTypeCallsNothing` | src/hooks/useBroadcastChannel.js:83-85 | an accepted event whose `type` is an object is recorded and acknowledged but calls no callback and changes no registration |
| `ChannelProps.AckBeforeCallbacks` | src/hooks/useBroadcastChannel.js:70-79 | the ack is the first thing an accepted event logs; everything after it is a callback call |
| `ChannelProps.AcksOnlyAddressed` | src/hooks/useBroadcastChannel.js:56-61 | `acks` gains an event iff it is another facade's ack addressed to this one; every other event leaves `acks` unchanged |
| `ChannelProps.ReceiveAck` | src/hooks/useBroadcastChannel.js:123-124 | an ack from another facade changes only `acks`: no dedup, no history entry, no post, no call |
| `ChannelProps.AckRecordedEachTime` | src/hooks/useBroadcastChannel.js:56-61 | acks are not deduplicated: an addressed ack received twice is recorded twice |
| `ChannelProps.AckTypedDataTakesAckPath` | src/hooks/useBroadcastChannel.js:123 | a caller's `send` with type `'__ack'` reaches another facade as an ack: it is recorded only if its `to` names the receiver, and is never recorded as a message, acknowledged or dispatched |
| `ChannelProps.OnAppends` | src/hooks/useBroadcastChannel.js:93-98 | `on` appends the callback at the end of its type's list, creating the list if absent; other types and all other state are unchanged |
| `ChannelProps.OffRemovesAll` | src/hooks/useBroadcastChannel.js:101-106 | `off` drops every registration of the callback and keeps every other one. Other types are untouched, it is a no-op for an absent type, it changes nothing but the registry, and it is idempotent |
| `ChannelProps.OffKeepsOrder` | src/hooks/useBroadcastChannel.js:103 | `off` keeps the remaining registrations in their relative order |
| `ChannelProps.OffSparesOnceWrapper` | src/hooks/useBroadcastChannel.js:103-114 | `off(type, fn)` does not remove the wrapper `once(type, fn)` registered |
| `ChannelProps.OnceFirstDelivery` | src/hooks/useBroadcastChannel.js:109-115 | the first accepted delivery after `once(type, fn)` calls `fn` exactly once and removes its wrapper; the type's list is then exactly its plain callbacks, in order and with their multiplicity |
| `ChannelProps.NoCallsWhenUnregistered` | src/hooks/useBroadcastChannel.js:83-90 | a delivery for a type none of whose registrations refers to `fn` does not call `fn` |
| `ChannelProps.OnceAccept` | src/hooks/useBroadcastChannel.js:109-115 | the first accepted delivery after `once(type, fn)` posts the ack, then calls the type's list with the wrapper at its end, and leaves the plain part of that list; other types are unchanged |
| `ChannelProps.CallsOneMore` | src/hooks/useBroadcastChannel.js:86-88 | a dispatch over a list in which only the last entry calls `fn` adds exactly one call of `fn` to the log |
| `ChannelProps.ReceiveShrinks` | src/hooks/useBroadcastChannel.js:118-128 | a delivery never adds a registration and never opens or closes the channel |
| `ChannelProps.ReceiveAllShrinks` | src/hooks/useBroadcastChannel.js:118-128 | the same holds over any run of deliveries |
| `ChannelProps.NeverCalledAfter` | src/hooks/useBroadcastChannel.js:83-90 | a run of deliveries of a type none of whose registrations refers to `fn` never calls `fn`, however long it is |
| `ChannelProps.OnceFiresOnce` | src/hooks/useBroadcastChannel.js:109-115 | over any run of deliveries of its type after `once(type, fn)` whose first is accepted, `fn` is called exactly once; at the end the wrapper is gone and the type's list holds only plain callbacks it had before |
| `ChannelProps.OnceRetiresWrapper` | src/hooks/useBroadcastChannel.js:109-115 | after the first delivery, the wrapper `once` registered is registered under no type at all (the counter keeps every other wrapper's identity below it) |
| `ChannelProps.RetiredWhenOthersBelow` | src/hooks/useBroadcastChannel.js:109-115 | a wrapper is gone for good when its type holds only plain callbacks and every other type holds only wrappers below it |
| `ChannelProps.RetiredUnderRegistry` | src/hooks/useBroadcastChannel.js:93-115 | a retired wrapper is not registered again by `on`, `off` or `once`, since `once` hands out a larger identity |
| `ChannelProps.RetiredUnderTraffic` | src/hooks/useBroadcastChannel.js:118-133 | a retired wrapper stays retired through deliveries, sends and closing |
| `ChannelProps.SendPosts` | src/hooks/useBroadcastChannel.js:29-40 | on an open channel `send` logs exactly one post of the data envelope, returns the id it was given and changes nothing else. On a closed channel it posts nothing and returns no id |
| `ChannelProps.AckRoundTrip` | src/hooks/useBroadcastChannel.js:29-79 | A sends and B accepts the envelope: B's `messages` gains it and B's first new post is the ack to A. A then receives that ack: A's `acks` gains it, and its `ackFor` is the id `send` returned |
| `ChannelProps.InitialInv` | src/hooks/useBroadcastChannel.js:10-19 | a new facade satisfies the invariant |
| `ChannelProps.ReceiveInv` | src/hooks/useBroadcastChannel.js:118-128 | every delivery keeps the invariant. `acks` holds only other facades' acks addressed here. `messages` holds only other facades' non-ack events whose ids are in the dedup set, no two sharing an id that survives cloning. Wrapper identities stay below the counter |
| `ChannelProps.RegistryInv` | src/hooks/useBroadcastChannel.js:93-115 | `on`, `off` and `once` keep the invariant |
| `ChannelProps.InvNewRegistry` | src/hooks/useBroadcastChannel.js:93-115 | a change to the registry alone that keeps wrapper identities below the counter keeps the invariant |
| `ChannelProps.SendInv` | src/hooks/useBroadcastChannel.js:29-40 | `send` keeps the invariant |
| `ChannelProps.CloseInv` | src/hooks/useBroadcastChannel.js:131-133 | closing keeps the invariant |
| `ChannelProps.AcceptedOnce` | src/hooks/useBroadcastChannel.js:65-72 | under the invariant, a message id that survives cloning appears at most once in `messages` |
| `BroadcastChannel.Channel.constructor` | src/hooks/useBroadcastChannel.js:10-19 | a new facade has the given identity, no handlers, an empty dedup set, empty histories and an open channel, and satisfies the invariant |
| `BroadcastChannel.Channel.PostMessage` | src/hooks/useBroadcastChannel.js:37 | an open channel logs the post and reports success; a closed one logs nothing and reports failure |
| `BroadcastChannel.Channel.Send` | src/hooks/useBroadcastChannel.js:29-40 | performs `ChannelSpec.Send` on the fields and returns its id, keeping the invariant |
| `BroadcastChannel.Channel.SendAck` | src/hooks/useBroadcastChannel.js:43-53 | performs `ChannelSpec.SendAck`: logs one ack post and changes nothing else |
| `BroadcastChannel.Channel.HandleAck` | src/hooks/useBroadcastChannel.js:56-61 | performs `ChannelSpec.HandleAck`: appends the ack to `acks` iff it is addressed to this facade |
| `BroadcastChannel.Channel.HandleMessage` | src/hooks/useBroadcastChannel.js:64-80 | performs `ChannelSpec.HandleMessage`: dedup (which never finds an object id), then ack, history append and dispatch |
| `BroadcastChannel.Channel.RunHandler` | src/hooks/useBroadcastChannel.js:110-113 | performs `ChannelSpec.RunHandler`: logs the call, and a wrapper then removes itself |
| `BroadcastChannel.Channel.InvokeHandlers` | src/hooks/useBroadcastChannel.js:83-90 | the loop over the snapshot performs `ChannelSpec.Dispatch`: all calls in order, and only the plain callbacks left registered; an object type finds no list |
| `BroadcastChannel.Channel.Remove` | src/hooks/useBroadcastChannel.js:101-106 | performs `ChannelSpec.RemoveHandler`: filters the type's list if the type is registered |
| `BroadcastChannel.Channel.On` | src/hooks/useBroadcastChannel.js:93-98 | performs `ChannelSpec.On`, keeping the invariant |
| `BroadcastChannel.Channel.Off` | src/hooks/useBroadcastChannel.js:101-106 | performs `ChannelSpec.Off`, keeping the invariant |
| `BroadcastChannel.Channel.Once` | src/hooks/useBroadcastChannel.js:109-115 | performs `ChannelSpec.OnceOn`: registers a wrapper with a new identity, keeping the invariant |
| `BroadcastChannel.Channel.Receive` | src/hooks/useBroadcastChannel.js:118-128 | performs `ChannelSpec.Receive` (self filter, ack path, data path), keeping the invariant |
| `BroadcastChannel.Channel.Close` | src/hooks/useBroadcastChannel.js:131-133 | sets the closed flag and changes nothing else; closing again changes nothing |

## Left out

- The `BroadcastChannel` platform object is replaced by the `effects` log and
  the `closed` flag. Delivery to other facades is not modelled as a network:
  `AckRoundTrip` hands one facade's post to the other explicitly.
- Ordering and loss on the transport: the model says nothing about which
  events the platform delivers, or in what order.
- `BroadcastChannel.Channel.Receive` requires an open channel, because the
  platform delivers nothing after `close()`. The source has no check of its
  own there. `ChannelSpec.Receive` is total, but a closed state is outside
  what it models: there the source's `sendAck` would throw after the id was
  marked seen. The lemmas about accepted data require an open channel.
- Values that cannot be cloned: a function or similar field in `send`'s data
  makes `postMessage` throw. `Value` has no such values, so every send is
  cloneable. `Ref` stands for a cloneable object.
- `generateId` and the timestamps: `Date.now()` and `Math.random()` are
  nondeterministic. Ids and times are parameters, and the uniqueness of ids is
  not modelled.
- Vue's `ref` wrappers and the `onBeforeUnmount` registration: foreign
  framework calls. `Close` stands for the hook's body.
- The `debug` option and its `console.log` calls: output only.
- Callbacks that throw, or that call `on`/`off`/`once` themselves: callbacks
  are opaque and only their calls are recorded. A throwing callback would
  stop the rest of a dispatch in the source.
- Floating-point numbers: numeric field values are integers.
- `null` and boolean field values, and event data that is not an object: a
  `Value` is `undefined`, a string, an integer or an object reference, and
  every inbound event is a field map. In the source, `null` or `undefined`
  event data throws when its `senderId` is read.
- The rest of the repository (HTTP request wrappers, resource helpers, the
  download directive, routes, view-models, plugin setup) is not part of this
  model.
