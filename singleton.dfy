/**
 * Singletons: a class whose construction always yields one cached instance,
 * two handout counters built on that idea, and a three-item resource pool
 * whose items are checked out and returned.
 *
 * Python keeps the cached instance in the class attribute `_instance`, which
 * `__new__` consults. Here each singleton class has an explicit class object
 * (`...Class`) holding that attribute; its `New` method is the constructor
 * call `X()` of the source.
 */
module Singletons {
  import opened Wrappers

  // ---------------------------------------------------------------------------
  // Singleton

  /** An instance of `Singleton`; it has no state of its own. */
  class Singleton {
    constructor () {}
  }

  /** The class object of `Singleton`: `_instance` starts as None. */
  class SingletonClass {
    var instance: Singleton?

    constructor ()
      ensures instance == null
    {
      instance := null;
    }

    /** `Singleton()`: `__new__` creates the instance on first use and returns the cached one after. */
    method New() returns (s: Singleton)
      modifies this
      ensures old(instance) != null ==> s == old(instance)
      ensures old(instance) == null ==> fresh(s)
      ensures instance == s
    {
      if instance == null {
        instance := new Singleton();
      }
      s := instance;
    }
  }

  /** Every construction after the first returns the instance the first one made. */
  method ConstructTwice(cls: SingletonClass) returns (s1: Singleton, s2: Singleton)
    modifies cls
    ensures s1 == s2 && cls.instance == s1
  {
    s1 := cls.New();
    s2 := cls.New();
  }

  /** The demonstration `s1 = Singleton(); s2 = Singleton(); print(s1 == s2)` prints True. */
  method SingletonDemo() returns (same: bool)
    ensures same
  {
    var cls := new SingletonClass();
    var s1, s2 := ConstructTwice(cls);
    same := s1 == s2;
  }

  // ---------------------------------------------------------------------------
  // TrackingSingleton

  /** The class object of `TrackingSingleton`: `_instance` and the shared class attribute `_handouts`. */
  class TrackingSingletonClass {
    var instance: TrackingSingleton?
    var handouts: nat

    ghost predicate Valid()
      reads this
    {
      instance != null ==> instance.cls == this
    }

    constructor ()
      ensures Valid() && instance == null && handouts == 0
    {
      instance := null;
      handouts := 0;
    }

    /** `TrackingSingleton()`: the cached instance, created on first use. */
    method New() returns (t: TrackingSingleton)
      requires Valid()
      modifies this
      ensures Valid() && instance == t && t.cls == this
      ensures old(instance) != null ==> t == old(instance)
      ensures old(instance) == null ==> fresh(t)
      ensures handouts == old(handouts)
    {
      if instance == null {
        instance := new TrackingSingleton(this);
      }
      t := instance;
    }
  }

  /** An instance of `TrackingSingleton`; its counter lives on its class. */
  class TrackingSingleton {
    const cls: TrackingSingletonClass

    constructor (c: TrackingSingletonClass)
      ensures cls == c
    {
      cls := c;
    }

    /** `handout`: increments the class-wide count and returns its new value. */
    method Handout() returns (n: nat)
      modifies cls
      ensures cls.handouts == old(cls.handouts) + 1 && n == cls.handouts
      ensures cls.instance == old(cls.instance)
    {
      cls.handouts := cls.handouts + 1;
      n := cls.handouts;
    }

    /** `handedOut`: reads the class-wide count without changing it. */
    method HandedOut() returns (n: nat)
      ensures n == cls.handouts
    {
      n := cls.handouts;
    }
  }

  /** The demonstration: two constructions share one count, so it prints 1, 2, 2, 2. */
  method TrackingDemo() returns (printed: seq<nat>)
    ensures printed == [1, 2, 2, 2]
  {
    var cls := new TrackingSingletonClass();
    var ts1 := cls.New();
    var a := ts1.Handout();
    var ts2 := cls.New();
    var b := ts2.Handout();
    var c := ts1.HandedOut();
    var d := ts2.HandedOut();
    printed := [a, b, c, d];
  }

  // ---------------------------------------------------------------------------
  // MaxHandoutSingleton

  /** The cap `__new__` stores in `_max`. */
  const MaxHandouts: int := 3

  /** The count after `handout`: unchanged at the cap, one more otherwise. */
  function CountAfterHandout(count: int, max: int): (next: int)
    ensures count == max ==> next == count
    ensures count != max ==> next == count + 1
  {
    if count == max then count else count + 1
  }

  /** What `handout` returns: an exception at the cap, the new count otherwise. */
  function HandoutResult(count: int, max: int): (r: Result<int>)
    ensures r.Failure? <==> count == max
    ensures r.Success? ==> r.value == CountAfterHandout(count, max)
  {
    if count == max then Failure(RaisedException) else Success(count + 1)
  }

  /** An instance of `MaxHandoutSingleton`. */
  class MaxHandoutSingleton {
    var handouts: int
    var max: int

    /** The state `__new__` sets up the first time. */
    constructor ()
      ensures handouts == 0 && max == MaxHandouts
    {
      handouts := 0;
      max := MaxHandouts;
    }

    /** `handout`: fails when the count is at the cap (leaving it), otherwise increments it. */
    method Handout() returns (r: Result<int>)
      modifies this
      ensures max == old(max)
      ensures handouts == CountAfterHandout(old(handouts), old(max))
      ensures r == HandoutResult(old(handouts), old(max))
    {
      if handouts == max {
        return Failure(RaisedException);
      }
      handouts := handouts + 1;
      return Success(handouts);
    }

    /** `turnin`: decrements the count, with no lower bound. */
    method Turnin()
      modifies this
      ensures max == old(max) && handouts == old(handouts) - 1
    {
      handouts := handouts - 1;
    }

    /** `handedOut`: the current count. */
    method HandedOut() returns (n: int)
      ensures n == handouts
    {
      n := handouts;
    }
  }

  /** The class object of `MaxHandoutSingleton`: the instance and its state are set up once. */
  class MaxHandoutSingletonClass {
    var instance: MaxHandoutSingleton?

    constructor ()
      ensures instance == null
    {
      instance := null;
    }

    /** `MaxHandoutSingleton()`: `__init__` does nothing, so a later construction keeps the count. */
    method New() returns (m: MaxHandoutSingleton)
      modifies this
      ensures instance == m
      ensures old(instance) != null ==> m == old(instance)
      ensures old(instance) == null ==> fresh(m) && m.handouts == 0 && m.max == MaxHandouts
    {
      if instance == null {
        instance := new MaxHandoutSingleton();
      }
      m := instance;
    }
  }

  datatype CounterOp = Handout | Turnin

  /** The count after applying `ops` in turn, failed handouts leaving it unchanged. */
  function Replay(count: int, max: int, ops: seq<CounterOp>): int
    decreases |ops|
  {
    if ops == [] then count
    else
      var next := if ops[0] == Handout then CountAfterHandout(count, max) else count - 1;
      Replay(next, max, ops[1..])
  }

  /** The number of handouts in `ops` that succeed. */
  function Granted(count: int, max: int, ops: seq<CounterOp>): nat
    decreases |ops|
  {
    if ops == [] then 0
    else if ops[0] == Handout then
      (if count == max then 0 else 1) + Granted(CountAfterHandout(count, max), max, ops[1..])
    else Granted(count - 1, max, ops[1..])
  }

  /** The number of turn-ins in `ops`. */
  function Turnins(ops: seq<CounterOp>): nat
    decreases |ops|
  {
    if ops == [] then 0 else (if ops[0] == Turnin then 1 else 0) + Turnins(ops[1..])
  }

  /** The count is the starting count plus the granted handouts minus the turn-ins. */
  lemma {:induction false} ReplayCounts(count: int, max: int, ops: seq<CounterOp>)
    ensures Replay(count, max, ops) == count + Granted(count, max, ops) - Turnins(ops)
    decreases |ops|
  {
    if ops != [] {
      var next := if ops[0] == Handout then CountAfterHandout(count, max) else count - 1;
      ReplayCounts(next, max, ops[1..]);
    }
  }

  /** Starting at or below the cap, no sequence of operations takes the count above it. */
  lemma {:induction false} ReplayStaysBelowMax(count: int, max: int, ops: seq<CounterOp>)
    requires count <= max
    ensures Replay(count, max, ops) <= max
    decreases |ops|
  {
    if ops != [] {
      var next := if ops[0] == Handout then CountAfterHandout(count, max) else count - 1;
      ReplayStaysBelowMax(next, max, ops[1..]);
    }
  }

  /** From a fresh instance the count stays in [0, 3] exactly while turn-ins do not outnumber granted handouts. */
  lemma CountInRangeIffTurninsCovered(ops: seq<CounterOp>)
    ensures Replay(0, MaxHandouts, ops) <= MaxHandouts
    ensures 0 <= Replay(0, MaxHandouts, ops) <==> Turnins(ops) <= Granted(0, MaxHandouts, ops)
  {
    ReplayStaysBelowMax(0, MaxHandouts, ops);
    ReplayCounts(0, MaxHandouts, ops);
  }

  /** A turn-in with nothing handed out drives the count negative. */
  lemma TurninFirstGoesNegative()
    ensures Replay(0, MaxHandouts, [Turnin]) == -1
  {
  }

  /**
   * The demonstration: three handouts print 1, 2, 3, the fourth raises, and
   * two turn-ins leave 1.
   */
  method MaxHandoutDemo() returns (printed: seq<int>, fourth: Result<int>)
    ensures printed == [1, 2, 3, 1]
    ensures fourth == Failure(RaisedException)
  {
    var cls := new MaxHandoutSingletonClass();
    var maxer := cls.New();
    var r := maxer.Handout();
    var a := maxer.HandedOut();
    r := maxer.Handout();
    var b := maxer.HandedOut();
    r := maxer.Handout();
    var c := maxer.HandedOut();
    fourth := maxer.Handout();
    maxer.Turnin();
    maxer.Turnin();
    var d := maxer.HandedOut();
    printed := [a, b, c, d];
  }

  // ---------------------------------------------------------------------------
  // LimitedResourceFactory

  /** The pool size: `__init__` fills the pool from `range(3)`. */
  const PoolSize: nat := 3

  /** The ids of the items the factory creates. */
  const AllItems: multiset<nat> := multiset{0, 1, 2}

  /** Pooled and checked-out items together are exactly the three items, each once. */
  ghost predicate Partition(pool: seq<nat>, out: seq<nat>) {
    multiset(pool) + multiset(out) == AllItems
  }

  /** A pooled item is not also checked out. */
  lemma PooledIsNotOut(pool: seq<nat>, out: seq<nat>, x: nat)
    requires Partition(pool, out) && x in pool
    ensures x !in out
  {
    assert multiset(pool)[x] >= 1;
    assert AllItems[x] == 1;
  }

  /** In a partition no item is both pooled and out, none appears twice, and there are three in all. */
  lemma PartitionIsDisjoint(pool: seq<nat>, out: seq<nat>)
    requires Partition(pool, out)
    ensures |pool| + |out| == PoolSize
    ensures forall x :: x in pool ==> x !in out && x < PoolSize
    ensures forall x :: x in out ==> x < PoolSize
    ensures forall i, j :: 0 <= i < j < |pool| ==> pool[i] != pool[j]
    ensures forall i, j :: 0 <= i < j < |out| ==> out[i] != out[j]
  {
    assert |multiset(pool)| + |multiset(out)| == |AllItems|;
    forall x | x in pool ensures x !in out && x < PoolSize {
      assert multiset(pool)[x] >= 1;
      assert AllItems[x] >= 1;
      assert AllItems[x] == 1;
    }
    forall x | x in out ensures x < PoolSize {
      assert multiset(out)[x] >= 1;
      assert AllItems[x] >= 1;
    }
    forall i, j | 0 <= i < j < |pool| ensures pool[i] != pool[j] {
      if pool[i] == pool[j] {
        TwiceMeansCountTwo(pool, i, j);
        assert false;
      }
    }
    forall i, j | 0 <= i < j < |out| ensures out[i] != out[j] {
      if out[i] == out[j] {
        TwiceMeansCountTwo(out, i, j);
        assert false;
      }
    }
  }

  /** An element at two positions occurs at least twice. */
  lemma TwiceMeansCountTwo(s: seq<nat>, i: nat, j: nat)
    requires i < j < |s| && s[i] == s[j]
    ensures multiset(s)[s[i]] >= 2
  {
    assert s == s[..i] + [s[i]] + s[i + 1..j] + [s[j]] + s[j + 1..];
  }

  /** `list.remove`: drops the first occurrence of `x`. */
  function RemoveFirst(s: seq<nat>, x: nat): (r: seq<nat>)
    requires x in s
    ensures |r| == |s| - 1
  {
    if s[0] == x then s[1..] else [s[0]] + RemoveFirst(s[1..], x)
  }

  /** Removing the first occurrence takes exactly one copy of `x` out of the multiset. */
  lemma {:induction false} RemoveFirstMultiset(s: seq<nat>, x: nat)
    requires x in s
    ensures multiset(RemoveFirst(s, x)) == multiset(s) - multiset{x}
    decreases |s|
  {
    assert s == [s[0]] + s[1..];
    if s[0] != x {
      RemoveFirstMultiset(s[1..], x);
    }
  }

  /** Removing an item that was just appended, and occurs nowhere else, gives the original back. */
  lemma {:induction false} RemoveFirstOfFreshLast(s: seq<nat>, x: nat)
    requires x !in s
    ensures RemoveFirst(s + [x], x) == s
    decreases |s|
  {
    var t := s + [x];
    if s == [] {
      assert t == [x];
    } else {
      assert t[0] == s[0] && t[1..] == s[1..] + [x];
      RemoveFirstOfFreshLast(s[1..], x);
      assert s == [s[0]] + s[1..];
    }
  }

  /** Returning a checked-out item keeps the two lists a partition of the items. */
  lemma ReturnKeepsPartition(pool: seq<nat>, out: seq<nat>, item: nat)
    requires Partition(pool, out) && item in out
    ensures Partition(pool + [item], RemoveFirst(out, item))
  {
    RemoveFirstMultiset(out, item);
    var rest := multiset(out) - multiset{item};
    assert multiset(out) == rest + multiset{item};
    assert multiset(pool + [item]) == multiset(pool) + multiset{item};
  }

  /** Checking the last pooled item out and returning it gives back the lists it started from. */
  lemma CheckoutThenReturnRestores(pool: seq<nat>, out: seq<nat>)
    requires Partition(pool, out) && pool != []
    ensures var item := pool[|pool| - 1];
            && item in out + [item]
            && RemoveFirst(out + [item], item) == out
            && pool[..|pool| - 1] + [item] == pool
  {
    var item := pool[|pool| - 1];
    assert item !in out by {
      PooledIsNotOut(pool, out, item);
    }
    assert RemoveFirst(out + [item], item) == out by {
      RemoveFirstOfFreshLast(out, item);
    }
    assert item in out + [item] by {
      assert (out + [item])[|out|] == item;
    }
    assert pool[..|pool| - 1] + [item] == pool;
  }

  /** An instance of `LimitedResourceFactory`. */
  class LimitedResourceFactory {
    var initialized: bool
    var pool: seq<nat>
    var out: seq<nat>

    ghost predicate Valid()
      reads this
    {
      initialized ==> Partition(pool, out)
    }

    /** `object.__new__` followed by `_initialized = False`; the lists do not exist yet. */
    constructor ()
      ensures Valid() && !initialized && pool == [] && out == []
    {
      initialized := false;
      pool := [];
      out := [];
    }

    /** `__init__`, run on every construction: it fills the pool with items 0, 1, 2 only the first time. */
    method Init()
      requires Valid()
      modifies this
      ensures Valid() && initialized
      ensures old(initialized) ==> pool == old(pool) && out == old(out)
      ensures !old(initialized) ==> pool == [0, 1, 2] && out == []
    {
      if !initialized {
        pool := [];
        out := [];
        var x := 0;
        while x < PoolSize
          invariant 0 <= x <= PoolSize
          invariant pool == seq(x, i => i) && out == []
        {
          pool := pool + [x];
          x := x + 1;
        }
        assert pool == [0, 1, 2];
        assert multiset(pool) == AllItems && multiset(out) == multiset{};
        initialized := true;
      }
    }

    /** `checkoutItem`: fails on an empty pool; otherwise moves the last pooled item to the end of `out`. */
    method CheckoutItem() returns (r: Result<nat>)
      requires Valid() && initialized
      modifies this
      ensures Valid() && initialized
      ensures r.Failure? <==> old(pool) == []
      ensures r.Failure? ==> r.error == TypeError && pool == old(pool) && out == old(out)
      ensures r.Success? ==>
                && r.value == old(pool)[|old(pool)| - 1]
                && pool == old(pool)[..|old(pool)| - 1]
                && out == old(out) + [r.value]
    {
      if |pool| == 0 {
        return Failure(TypeError);
      }
      var item := pool[|pool| - 1];
      assert pool == pool[..|pool| - 1] + [item];
      pool := pool[..|pool| - 1];
      out := out + [item];
      return Success(item);
    }

    /** `returnItem`: `out.remove` fails on an item that is not checked out; otherwise the item goes back to the end of the pool. */
    method ReturnItem(item: nat) returns (r: Outcome)
      requires Valid() && initialized
      modifies this
      ensures Valid() && initialized
      ensures r.Fail? <==> item !in old(out)
      ensures r.Fail? ==> r.error == ValueError && pool == old(pool) && out == old(out)
      ensures r.Pass? ==> out == RemoveFirst(old(out), item) && pool == old(pool) + [item]
    {
      if item !in out {
        return Fail(ValueError);
      }
      ReturnKeepsPartition(pool, out, item);
      out := RemoveFirst(out, item);
      pool := pool + [item];
      return Pass;
    }

    /** `status`: the pooled items and the handed-out items, in list order. */
    method Status() returns (inPool: seq<nat>, handedOut: seq<nat>)
      ensures inPool == pool && handedOut == out
    {
      inPool, handedOut := pool, out;
    }
  }

  /** The class object of `LimitedResourceFactory`. */
  class LimitedResourceFactoryClass {
    var instance: LimitedResourceFactory?

    ghost predicate Valid()
      reads this, instance
    {
      instance != null ==> instance.Valid() && instance.initialized
    }

    constructor ()
      ensures Valid() && instance == null
    {
      instance := null;
    }

    /** `LimitedResourceFactory()`: `__new__` then `__init__`, on the one cached instance. */
    method New() returns (f: LimitedResourceFactory)
      requires Valid()
      modifies this, instance
      ensures Valid() && instance == f
      ensures old(instance) != null ==> f == old(instance) && f.pool == old(f.pool) && f.out == old(f.out)
      ensures old(instance) == null ==> fresh(f) && f.pool == [0, 1, 2] && f.out == []
    {
      if instance == null {
        instance := new LimitedResourceFactory();
      }
      f := instance;
      f.Init();
    }
  }

  /** `LimitedResource.__exit__`: constructs the factory (getting the cached one) and returns the item to it. */
  method Exit(cls: LimitedResourceFactoryClass, item: nat) returns (r: Outcome)
    requires cls.Valid() && cls.instance != null
    modifies cls, cls.instance
    ensures cls.Valid() && cls.instance == old(cls.instance)
    ensures r.Fail? <==> item !in old(cls.instance.out)
    ensures r.Pass? ==>
              cls.instance.out == RemoveFirst(old(cls.instance.out), item) &&
              cls.instance.pool == old(cls.instance.pool) + [item]
    ensures r.Fail? ==> cls.instance.out == old(cls.instance.out) && cls.instance.pool == old(cls.instance.pool)
  {
    var factory := cls.New();
    r := factory.ReturnItem(item);
  }

  /**
   * The `with` block over an item of the constructed factory `factory`:
   * checks an item out, runs the body (which does not touch the pool and may
   * fail) and, on leaving the block either way, returns the item through
   * `__exit__`. A failed body still fails the block, since `__exit__` does not
   * suppress the exception; a failed checkout happens before the block is
   * entered, so nothing is returned.
   */
  method WithItem(cls: LimitedResourceFactoryClass, factory: LimitedResourceFactory, bodyFails: bool)
    returns (r: Outcome)
    requires cls.Valid() && cls.instance == factory
    modifies cls, factory
    ensures cls.Valid() && cls.instance == factory
    ensures factory.pool == old(factory.pool) && factory.out == old(factory.out)
    ensures r == if old(factory.pool) == [] then Fail(TypeError)
                 else if bodyFails then Fail(RaisedException) else Pass
  {
    ghost var pool0, out0 := factory.pool, factory.out;
    var checkout := factory.CheckoutItem();
    if checkout.Failure? {
      return Fail(checkout.error);
    }
    var item := checkout.value;
    CheckoutThenReturnRestores(pool0, out0);
    // The body of the block runs here; it leaves the pool alone.
    var returned := Exit(cls, item);
    r := if bodyFails then Fail(RaisedException) else Pass;
  }

  /** `with LimitedResourceFactory().checkoutItem() as item: <body>`: construct, then the block. */
  method WithCheckedOutItem(cls: LimitedResourceFactoryClass, bodyFails: bool)
    returns (r: Outcome)
    requires cls.Valid()
    modifies cls, cls.instance
    ensures cls.Valid() && cls.instance != null
    ensures old(cls.instance) != null ==>
              && cls.instance == old(cls.instance)
              && cls.instance.pool == old(cls.instance.pool)
              && cls.instance.out == old(cls.instance.out)
              && r == if old(cls.instance.pool) == [] then Fail(TypeError)
                      else if bodyFails then Fail(RaisedException) else Pass
    ensures old(cls.instance) == null ==>
              && cls.instance.pool == [0, 1, 2] && cls.instance.out == []
              && r == if bodyFails then Fail(RaisedException) else Pass
  {
    var factory := cls.New();
    r := WithItem(cls, factory, bodyFails);
  }

  /**
   * The demonstration: a `with` block over an item, then an explicit checkout
   * and return, printing the status inside and after each.
   */
  method PoolDemo() returns (statuses: seq<(seq<nat>, seq<nat>)>)
    ensures statuses == [([0, 1], [2]), ([0, 1, 2], []), ([0, 1], [2]), ([0, 1, 2], [])]
  {
    var cls := new LimitedResourceFactoryClass();
    var f := cls.New();
    var first := f.CheckoutItem();
    assert first == Success(2) && f.pool == [0, 1] && f.out == [2];
    f := cls.New();
    var p1, o1 := f.Status();
    assert RemoveFirst([2], 2) == [];
    var exited := Exit(cls, first.value);
    assert f.pool == [0, 1, 2] && f.out == [];
    f := cls.New();
    var p2, o2 := f.Status();
    f := cls.New();
    var second := f.CheckoutItem();
    assert second == Success(2) && f.pool == [0, 1] && f.out == [2];
    f := cls.New();
    var p3, o3 := f.Status();
    f := cls.New();
    var returned := f.ReturnItem(second.value);
    assert f.pool == [0, 1, 2] && f.out == [];
    f := cls.New();
    var p4, o4 := f.Status();
    statuses := [(p1, o1), (p2, o2), (p3, o3), (p4, o4)];
  }

  /** Three checkouts from a fresh pool hand out three distinct items; a fourth fails. */
  method ExhaustPool() returns (items: seq<nat>, fourth: Result<nat>)
    ensures items == [2, 1, 0]
    ensures fourth == Failure(TypeError)
  {
    var cls := new LimitedResourceFactoryClass();
    var f := cls.New();
    var a := f.CheckoutItem();
    var b := f.CheckoutItem();
    var c := f.CheckoutItem();
    fourth := f.CheckoutItem();
    items := [a.value, b.value, c.value];
  }
}
