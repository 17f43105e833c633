/**
 The handler registry: for each event type, the ordered list of callbacks
 registered for it, and what dispatching an event to that list does.

 Callbacks are opaque references (`FnRef`). A callback registered with `on` is
 stored as itself (`Plain`); one registered with `once` is stored as a wrapper
 closure with an identity of its own (`Once`), which calls the callback and
 then unregisters itself.
 */
module Registry {
  import opened Envelope

  type FnRef = nat

  datatype Handler = Plain(fn: FnRef) | Once(wrapper: nat, fn: FnRef)

  /** What the facade does that the outside world can observe, in order:
      a post on the channel, or a call of a callback with `(payload, meta)`. */
  datatype Effect = Post(envelope: Object) | Invoke(fn: FnRef, payload: Value, meta: Meta)

  /** `off`'s filter: the list without any registration equal to `h`. */
  function Without(list: seq<Handler>, h: Handler): (r: seq<Handler>)
    ensures forall x :: x in r <==> x in list && x != h
    ensures |r| <= |list|
  {
    if list == [] then []
    else (if list[0] == h then [] else [list[0]]) + Without(list[1..], h)
  }

  /** The filter works element by element, so it keeps the relative order of
      what it keeps. */
  lemma {:induction false} WithoutAppend(a: seq<Handler>, b: seq<Handler>, h: Handler)
    ensures Without(a + b, h) == Without(a, h) + Without(b, h)
  {
    if a == [] {
      assert a + b == b;
    } else {
      assert (a + b)[1..] == a[1..] + b;
      WithoutAppend(a[1..], b, h);
    }
  }

  /** Removing a handler that is not registered changes nothing. */
  lemma {:induction false} WithoutAbsent(list: seq<Handler>, h: Handler)
    requires h !in list
    ensures Without(list, h) == list
  {
    if list != [] {
      WithoutAbsent(list[1..], h);
    }
  }

  /** Removing twice is removing once. */
  lemma WithoutIdempotent(list: seq<Handler>, h: Handler)
    ensures Without(Without(list, h), h) == Without(list, h)
  {
    WithoutAbsent(Without(list, h), h);
  }

  /** What is left of a list once every `once` wrapper in it has fired:
      the plainly registered callbacks, in their order. */
  function Survivors(list: seq<Handler>): (r: seq<Handler>)
    ensures forall x :: x in r <==> x in list && x.Plain?
  {
    if list == [] then []
    else (if list[0].Plain? then [list[0]] else []) + Survivors(list[1..])
  }

  /** The plain part of a list split in two is the plain parts of the two
      halves, one after the other: order and multiplicity are kept. */
  lemma {:induction false} SurvivorsAppend(a: seq<Handler>, b: seq<Handler>)
    ensures Survivors(a + b) == Survivors(a) + Survivors(b)
  {
    if a == [] {
      assert a + b == b;
    } else {
      assert (a + b)[1..] == a[1..] + b;
      SurvivorsAppend(a[1..], b);
    }
  }

  /** A `once` wrapper at the end of a list leaves nothing behind once it has
      fired. */
  lemma PlainAfterOnce(list: seq<Handler>, w: Handler)
    requires w.Once?
    ensures Survivors(list + [w]) == Survivors(list)
  {
    SurvivorsAppend(list, [w]);
    assert Survivors([w]) == [] by {
      assert [w][1..] == [];
    }
  }

  /** The list while a dispatch is under way: the `once` wrappers among
      `fired` have already removed themselves. */
  function KeepUnfired(list: seq<Handler>, fired: seq<Handler>): seq<Handler>
  {
    if list == [] then []
    else (if list[0].Once? && list[0] in fired then [] else [list[0]]) + KeepUnfired(list[1..], fired)
  }

  /** Before any wrapper fires the list is intact. */
  lemma {:induction false} KeepUnfiredNone(list: seq<Handler>)
    ensures KeepUnfired(list, []) == list
  {
    if list != [] {
      KeepUnfiredNone(list[1..]);
    }
  }

  /** A `once` wrapper that fires and calls `off` on itself takes one more step
      towards the surviving list. */
  lemma {:induction false} KeepUnfiredOnceStep(list: seq<Handler>, fired: seq<Handler>, h: Handler)
    requires h.Once?
    ensures Without(KeepUnfired(list, fired), h) == KeepUnfired(list, fired + [h])
  {
    if list != [] {
      KeepUnfiredOnceStep(list[1..], fired, h);
      var head := if list[0].Once? && list[0] in fired then [] else [list[0]];
      WithoutAppend(head, KeepUnfired(list[1..], fired), h);
    }
  }

  /** A plain callback that runs leaves the list as it was. */
  lemma {:induction false} KeepUnfiredPlainStep(list: seq<Handler>, fired: seq<Handler>, h: Handler)
    requires h.Plain?
    ensures KeepUnfired(list, fired + [h]) == KeepUnfired(list, fired)
  {
    if list != [] {
      KeepUnfiredPlainStep(list[1..], fired, h);
    }
  }

  /** Once every wrapper of the list has fired, what is left is its plain part. */
  lemma {:induction false} KeepUnfiredAll(list: seq<Handler>, fired: seq<Handler>)
    requires forall x :: x in list && x.Once? ==> x in fired
    ensures KeepUnfired(list, fired) == Survivors(list)
  {
    if list != [] {
      KeepUnfiredAll(list[1..], fired);
    }
  }

  /** The calls a dispatch makes: one per registered handler, in list order,
      each with the event's payload and meta. A `once` wrapper calls the
      callback it wraps. */
  function Invocations(list: seq<Handler>, payload: Value, meta: Meta): (r: seq<Effect>)
    ensures |r| == |list|
    ensures forall i :: 0 <= i < |list| ==> r[i] == Invoke(list[i].fn, payload, meta)
  {
    if list == [] then []
    else Invocations(list[..|list| - 1], payload, meta) + [Invoke(list[|list| - 1].fn, payload, meta)]
  }

  /** How many entries of the list call `f`. */
  function Occurrences(list: seq<Handler>, f: FnRef): nat
  {
    if list == [] then 0
    else Occurrences(list[..|list| - 1], f) + (if list[|list| - 1].fn == f then 1 else 0)
  }

  /** How many times callback `f` was called in a log of effects. */
  function CallsTo(log: seq<Effect>, f: FnRef): nat
  {
    if log == [] then 0
    else (if log[0].Invoke? && log[0].fn == f then 1 else 0) + CallsTo(log[1..], f)
  }

  lemma {:induction false} CallsToAppend(a: seq<Effect>, b: seq<Effect>, f: FnRef)
    ensures CallsTo(a + b, f) == CallsTo(a, f) + CallsTo(b, f)
  {
    if a == [] {
      assert a + b == b;
    } else {
      assert (a + b)[1..] == a[1..] + b;
      CallsToAppend(a[1..], b, f);
    }
  }

  /** A dispatch calls `f` once per registration of `f` in the list. */
  lemma {:induction false} CallsToInvocations(list: seq<Handler>, payload: Value, meta: Meta, f: FnRef)
    ensures CallsTo(Invocations(list, payload, meta), f) == Occurrences(list, f)
  {
    if list != [] {
      var init := list[..|list| - 1];
      var last := Invoke(list[|list| - 1].fn, payload, meta);
      CallsToInvocations(init, payload, meta, f);
      CallsToAppend(Invocations(init, payload, meta), [last], f);
      assert CallsTo([last], f) == (if last.fn == f then 1 else 0) by {
        assert [last][1..] == [];
      }
    }
  }

  /** A callback no entry of the list refers to is not counted in it. */
  lemma {:induction false} OccurrencesNone(list: seq<Handler>, f: FnRef)
    requires forall x :: x in list ==> x.fn != f
    ensures Occurrences(list, f) == 0
  {
    if list != [] {
      assert list[|list| - 1] in list;
      assert forall x :: x in list[..|list| - 1] ==> x in list;
      OccurrencesNone(list[..|list| - 1], f);
    }
  }
}
