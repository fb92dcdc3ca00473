/** The per-type singleton table of the render context (`CxRegistries` in
    render/src/cx.rs): a shared map from a type's identity to one boxed value
    of that type. */
module Registries {
  import opened Wrappers

  /** `std::any::TypeId`: an opaque identity with equality. */
  type TypeId(==)

  /** `Box<dyn Any>`: a value that remembers the identity of its own type. */
  datatype AnyBox<P> = AnyBox(typeId: TypeId, payload: P)

  /** `downcast_ref::<T>()` / `downcast_mut::<T>()`: succeeds exactly when the
      box holds a value whose type is the one asked for. */
  function Downcast<P>(b: AnyBox<P>, t: TypeId): Option<P>
  {
    if b.typeId == t then Some(b.payload) else None
  }

  type Table<P> = map<TypeId, AnyBox<P>>

  /** Every entry holds a value of the type it is keyed by. `new` and
      `get_or_create`, which stores `Box::new(new_cb())` under
      `TypeId::of::<T>()`, keep this; a direct write through the public
      field of `CxRegistries` need not. */
  ghost predicate TypeConsistent<P>(m: Table<P>)
  {
    forall t | t in m :: m[t].typeId == t
  }

  /** The table after `entry(t)` was either found occupied or filled with a
      fresh box holding `made`: the key is then present, an entry that was
      already there is kept untouched, and no other key is added, removed or
      replaced. */
  function OrInsert<P>(m: Table<P>, t: TypeId, made: P): (r: Table<P>)
    ensures r.Keys == m.Keys + {t}
    ensures forall u | u in m :: r[u] == m[u]
    ensures t !in m ==> r[t] == AnyBox(t, made)
  {
    if t in m then m else m[t := AnyBox(t, made)]
  }

  /** A second get_or_create for the same type finds the value the first one
      created and stores nothing new. */
  lemma OrInsertIdempotent<P>(m: Table<P>, t: TypeId, first: P, second: P)
    ensures OrInsert(OrInsert(m, t, first), t, second) == OrInsert(m, t, first)
  {
  }

  /** get_or_create for two different types can be done in either order. */
  lemma OrInsertCommutes<P>(m: Table<P>, t: TypeId, a: P, u: TypeId, b: P)
    requires t != u
    ensures OrInsert(OrInsert(m, t, a), u, b) == OrInsert(OrInsert(m, u, b), t, a)
  {
  }

  /** One get_or_create call: the type asked for and the value its callback
      would build. */
  datatype Request<P> = Request(typeId: TypeId, made: P)

  /** The table after a run of get_or_create calls, in order. */
  function Replay<P>(m: Table<P>, calls: seq<Request<P>>): Table<P>
    decreases |calls|
  {
    if calls == [] then m
    else Replay(OrInsert(m, calls[0].typeId, calls[0].made), calls[1..])
  }

  /** What the callback of the first call asking for `t` would build, if any
      call asks for it. */
  function FirstMade<P>(calls: seq<Request<P>>, t: TypeId): Option<P>
    decreases |calls|
  {
    if calls == [] then None
    else if calls[0].typeId == t then Some(calls[0].made)
    else FirstMade(calls[1..], t)
  }

  /** After any run of get_or_create calls: a type is registered exactly when
      it was registered before or some call asked for it; an entry present
      before is unchanged; otherwise the first call's value is the one kept. */
  lemma {:induction false} ReplayFirstWins<P>(m: Table<P>, calls: seq<Request<P>>, t: TypeId)
    ensures t in Replay(m, calls) <==> t in m || FirstMade(calls, t).Some?
    ensures t in m ==> Replay(m, calls)[t] == m[t]
    ensures t !in m && FirstMade(calls, t).Some? ==>
              Replay(m, calls)[t] == AnyBox(t, FirstMade(calls, t).value)
    decreases |calls|
  {
    if calls != [] {
      ReplayFirstWins(OrInsert(m, calls[0].typeId, calls[0].made), calls[1..], t);
    }
  }

  /** No run of get_or_create calls can store a value under a foreign type. */
  lemma {:induction false} ReplayTypeConsistent<P>(m: Table<P>, calls: seq<Request<P>>)
    requires TypeConsistent(m)
    ensures TypeConsistent(Replay(m, calls))
    decreases |calls|
  {
    if calls != [] {
      ReplayTypeConsistent(OrInsert(m, calls[0].typeId, calls[0].made), calls[1..]);
    }
  }

  /** The source's `Rc<RefCell<HashMap<TypeId, Box<dyn Any>>>>`: clones share the
      one table, so a clone is the same object. */
  class CxRegistries<P> {
    var table: Table<P>

    ghost predicate Valid()
      reads this
    {
      TypeConsistent(table)
    }

    /** `CxRegistries::new`: an empty table. */
    constructor ()
      ensures Valid() && table == map[]
    {
      table := map[];
    }

    /** `#[derive(Clone)]` on the `Rc`: the clone aliases this table. */
    method Clone() returns (c: CxRegistries<P>)
      ensures c == this
    {
      c := this;
    }

    /** `get::<T>`: the value stored for `t`; the lookup panics when `t` was
        never registered, and the downcast cannot fail. */
    function Get(t: TypeId): (v: P)
      reads this
      requires Valid()
      requires t in table
      ensures Downcast(table[t], t) == Some(v)
    {
      var b := table[t];
      assert b.typeId == t;
      Downcast(b, t).value
    }

    /** `get_or_create::<T>`: hands back the value stored for `t`, building it
        with `newCb` and storing it first only when `t` is absent. The ghost
        `created` says whether the callback's result was stored. */
    method GetOrCreate(t: TypeId, newCb: () -> P) returns (v: P, ghost created: bool)
      requires Valid()
      modifies this
      ensures Valid()
      ensures created <==> t !in old(table)
      ensures table == OrInsert(old(table), t, newCb())
      ensures t in table && v == Get(t)
      ensures !created ==> table == old(table) && v == old(table)[t].payload
      ensures created ==> v == newCb()
    {
      var b: AnyBox<P>;
      if t in table {
        b := table[t];
        created := false;
      } else {
        b := AnyBox(t, newCb());
        table := table[t := b];
        created := true;
      }
      v := Downcast(b, t).value;
    }
  }

  /** Two get_or_create calls for one type, the second through a clone: both
      hand back the same value, the one the first call found or created, and
      the second callback's result is never stored. */
  method GetOrCreateTwice<P>(r: CxRegistries<P>, t: TypeId, first: () -> P, second: () -> P)
      returns (a: P, b: P)
    requires r.Valid()
    modifies r
    ensures r.Valid() && a == b
    ensures t in old(r.table) ==> a == old(r.table)[t].payload && r.table == old(r.table)
    ensures t !in old(r.table) ==> a == first() && r.table == old(r.table)[t := AnyBox(t, first())]
  {
    ghost var created: bool;
    a, created := r.GetOrCreate(t, first);
    var alias := r.Clone();
    b, created := alias.GetOrCreate(t, second);
  }
}
