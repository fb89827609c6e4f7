/** The pool of fixed-size memory blocks: a released block goes back to a cache under its own
    name and is handed out again for a request of the same size.  Requests and releases are
    serialised; byte counts are 64-bit. */
module MemoryPool {
  import opened Collections

  const TWO_64: nat := 0x1_0000_0000_0000_0000

  // ----- names

  function Digit(d: nat): char
    requires d < 10
  {
    ['0', '1', '2', '3', '4', '5', '6', '7', '8', '9'][d]
  }

  function Decimal(n: nat): (s: string)
    ensures |s| > 0
  {
    if n < 10 then [Digit(n)] else Decimal(n / 10) + [Digit(n % 10)]
  }

  function DigitValue(c: char): nat { if '0' <= c <= '9' then (c - '0') as nat else 0 }

  function Number(s: string): nat
  {
    if s == [] then 0 else 10 * Number(s[..|s| - 1]) + DigitValue(s[|s| - 1])
  }

  lemma DigitRoundTrip(d: nat)
    requires d < 10
    ensures DigitValue(Digit(d)) == d
  {
  }

  lemma {:induction false} NumberOfDecimal(n: nat)
    ensures Number(Decimal(n)) == n
  {
    DigitRoundTrip(n % 10);
    if n < 10 {
      assert Decimal(n)[..0] == [];
    } else {
      NumberOfDecimal(n / 10);
      assert Decimal(n)[..|Decimal(n)| - 1] == Decimal(n / 10);
    }
  }

  function Name(pool: string, id: nat): string { pool + Decimal(id) }

  /** Blocks of one pool never share a name. */
  lemma NamesDiffer(pool: string, i: nat, j: nat)
    requires Name(pool, i) == Name(pool, j)
    ensures i == j
  {
    assert Name(pool, i)[|pool|..] == Decimal(i) && Name(pool, j)[|pool|..] == Decimal(j);
    NumberOfDecimal(i);
    NumberOfDecimal(j);
  }

  /** The names of a pool by number, as one function. */
  function Names(pool: string): nat -> string { (i: nat) => Name(pool, i) }

  ghost predicate Distinct(names: nat -> string) { forall i, j | names(i) == names(j) :: i == j }

  lemma NamesDistinct(pool: string)
    ensures Distinct(Names(pool))
  {
    forall i, j | Names(pool)(i) == Names(pool)(j)
      ensures i == j
    {
      NamesDiffer(pool, i, j);
    }
  }

  // ----- the order of names

  predicate Less(a: string, b: string)
  {
    b != [] && (a == [] || a[0] < b[0] || (a[0] == b[0] && Less(a[1..], b[1..])))
  }

  lemma {:induction false} LessTotal(a: string, b: string)
    ensures a == b || Less(a, b) || Less(b, a)
  {
    if a != [] && b != [] && a[0] == b[0] {
      LessTotal(a[1..], b[1..]);
      assert a == [a[0]] + a[1..] && b == [b[0]] + b[1..];
    }
  }

  lemma {:induction false} LessTransitive(a: string, b: string, c: string)
    requires Less(a, b) && Less(b, c)
    ensures Less(a, c)
  {
    if a != [] && a[0] == b[0] == c[0] { LessTransitive(a[1..], b[1..], c[1..]); }
  }

  ghost predicate IsLeast(k: string, keys: set<string>) { k in keys && forall j | j in keys && j != k :: Less(k, j) }

  lemma {:induction false} HasLeast(keys: set<string>)
    requires keys != {}
    ensures exists k :: IsLeast(k, keys)
  {
    var k := Pick(keys);
    var rest := keys - {k};
    if rest == {} {
      assert keys == {k};
      assert IsLeast(k, keys);
    } else {
      HasLeast(rest);
      var m :| IsLeast(m, rest);
      LessTotal(k, m);
      if Less(k, m) {
        forall j | j in keys && j != k
          ensures Less(k, j)
        {
          if j != m { LessTransitive(k, m, j); }
        }
        assert IsLeast(k, keys);
      } else {
        assert IsLeast(m, keys);
      }
    }
  }

  // ----- the pool

  /** A block; the serial number stands for its address. */
  datatype Block = Block(serial: nat, size: nat)

  /** `held` and `sizes` are history: the blocks now with callers, by name, and the size of
      every block ever made. */
  datatype State = State(
    name: string,
    keyId: nat,
    cacheSize: nat,
    warningSize: nat,
    free: map<string, Block>,
    held: map<string, Block>,
    sizes: seq<nat>)

  datatype Action = Request(size: nat, granted: bool) | Release(name: string)

  function Init(name: string, warningSize: nat): State { State(name, 0, 0, warningSize, map[], map[], []) }

  ghost function Matching(free: map<string, Block>, size: nat): set<string>
  {
    set k | k in free && free[k].size == size
  }

  /** The first free block of a size, in the order of names. */
  ghost function FirstMatching(free: map<string, Block>, size: nat): (k: string)
    requires Matching(free, size) != {}
    ensures IsLeast(k, Matching(free, size))
  {
    HasLeast(Matching(free, size));
    var k :| IsLeast(k, Matching(free, size));
    k
  }

  predicate Refused(s: State, size: nat) { (s.cacheSize + size) % TWO_64 > s.warningSize }

  /** A request; `granted` says whether the system has the memory for a new block. */
  ghost function RequestStep(s: State, size: nat, granted: bool): (State, Option<string>)
  {
    if Matching(s.free, size) != {} then
      var k := FirstMatching(s.free, size);
      (s.(free := s.free - {k}, held := s.held[k := s.free[k]]), Some(k))
    else if Refused(s, size) || !granted then (s, None)
    else
      var k := Name(s.name, s.keyId);
      (s.(keyId := s.keyId + 1, cacheSize := (s.cacheSize + size) % TWO_64,
          held := s.held[k := Block(s.keyId, size)], sizes := s.sizes + [size]), Some(k))
  }

  function ReleaseStep(s: State, name: string): State
    requires name in s.held
  {
    s.(free := s.free[name := s.held[name]], held := s.held - {name})
  }

  // ----- the invariant

  function Total(sizes: seq<nat>): nat
  {
    if sizes == [] then 0 else Total(sizes[..|sizes| - 1]) + sizes[|sizes| - 1]
  }

  /** The block made as number i, under its own name in one place. */
  ghost predicate Placed(names: nat -> string, s: State, i: nat)
    requires i < |s.sizes|
  {
    var (k, b) := (names(i), Block(i, s.sizes[i]));
    || (k in s.free && s.free[k] == b && k !in s.held)
    || (k in s.held && s.held[k] == b && k !in s.free)
  }

  ghost predicate IsName(names: nat -> string, s: State, k: string) { exists i :: 0 <= i < s.keyId && k == names(i) }

  ghost predicate Kept(names: nat -> string, s: State)
  {
    && |s.sizes| == s.keyId
    && (forall i: nat | i < s.keyId :: Placed(names, s, i))
    && (forall k | k in s.free || k in s.held :: IsName(names, s, k))
    && Total(s.sizes) == s.cacheSize <= s.warningSize < TWO_64
  }

  ghost predicate Inv(s: State) { Kept(Names(s.name), s) }

  /** The system only grants memory that can be addressed together with what is in use. */
  ghost predicate Enabled(s: State, a: Action)
  {
    match a
    case Request(size, granted) => size < TWO_64 && (granted ==> Total(s.sizes) + size < TWO_64)
    case Release(name) => name in s.held
  }

  ghost function Next(s: State, a: Action): State
    requires Enabled(s, a)
  {
    match a
    case Request(size, granted) => RequestStep(s, size, granted).0
    case Release(name) => ReleaseStep(s, name)
  }

  lemma MoveKeeps(names: nat -> string, s: State, t: State, k: string)
    requires Kept(names, s) && (k in s.free || k in s.held)
    requires || (k in s.free && t == s.(free := s.free - {k}, held := s.held[k := s.free[k]]))
             || (k in s.held && t == s.(free := s.free[k := s.held[k]], held := s.held - {k}))
    ensures Kept(names, t)
  {
    forall i: nat | i < t.keyId
      ensures Placed(names, t, i)
    {
      assert Placed(names, s, i);
    }
    forall j | j in t.free || j in t.held
      ensures IsName(names, t, j)
    {
      assert IsName(names, s, j);
    }
  }

  lemma NewNameIsFree(names: nat -> string, s: State)
    requires Kept(names, s) && Distinct(names)
    ensures names(s.keyId) !in s.free && names(s.keyId) !in s.held
  {
    assert !IsName(names, s, names(s.keyId));
  }

  lemma NewKeeps(names: nat -> string, s: State, size: nat, t: State)
    requires Kept(names, s) && Distinct(names) && s.cacheSize + size <= s.warningSize
    requires t == s.(keyId := s.keyId + 1, cacheSize := s.cacheSize + size,
                     held := s.held[names(s.keyId) := Block(s.keyId, size)], sizes := s.sizes + [size])
    ensures Kept(names, t)
  {
    var k := names(s.keyId);
    NewNameIsFree(names, s);
    forall i: nat | i < t.keyId
      ensures Placed(names, t, i)
    {
      if i < s.keyId { assert Placed(names, s, i); }
    }
    forall j | j in t.free || j in t.held
      ensures IsName(names, t, j)
    {
      if j != k { assert IsName(names, s, j); }
    }
    assert t.sizes[..|t.sizes| - 1] == s.sizes;
  }

  /** What is stored under a name: the block of that number, in one place. */
  lemma UnderName(names: nat -> string, s: State, k: string)
    requires Kept(names, s) && (k in s.free || k in s.held)
    ensures k in s.free <==> k !in s.held
    ensures var b := if k in s.free then s.free[k] else s.held[k];
            b.serial < |s.sizes| && k == names(b.serial) && b.size == s.sizes[b.serial]
  {
    assert IsName(names, s, k);
    var i :| 0 <= i < s.keyId && k == names(i);
    assert Placed(names, s, i);
  }

  /** Within the granted memory the 64-bit sum does not wrap. */
  lemma NotRefused(s: State, size: nat)
    requires Inv(s) && Total(s.sizes) + size < TWO_64
    ensures (s.cacheSize + size) % TWO_64 == s.cacheSize + size
    ensures Refused(s, size) <==> s.cacheSize + size > s.warningSize
  {
  }

  lemma NextInv(s: State, a: Action)
    requires Inv(s) && Enabled(s, a)
    ensures Inv(Next(s, a))
  {
    match a
    case Request(size, granted) =>
      if Matching(s.free, size) != {} {
        MoveKeeps(Names(s.name), s, Next(s, a), FirstMatching(s.free, size));
      } else if !Refused(s, size) && granted {
        NotRefused(s, size);
        NamesDistinct(s.name);
        NewKeeps(Names(s.name), s, size, Next(s, a));
      }
    case Release(name) => MoveKeeps(Names(s.name), s, Next(s, a), name);
  }

  // ----- runs

  ghost predicate Follows(s: State, a: Action, t: State) { Enabled(s, a) && t == Next(s, a) }

  ghost predicate IsRun(name: string, warningSize: nat, actions: seq<Action>, states: seq<State>)
  {
    && |states| == |actions| + 1 && states[0] == Init(name, warningSize)
    && forall k | 0 <= k < |actions| :: Follows(states[k], actions[k], states[k + 1])
  }

  lemma {:induction false} RunInv(name: string, warningSize: nat, actions: seq<Action>, states: seq<State>, k: nat)
    requires warningSize < TWO_64 && IsRun(name, warningSize, actions, states) && k <= |actions|
    ensures Inv(states[k])
    decreases k
  {
    if k > 0 {
      RunInv(name, warningSize, actions, states, k - 1);
      assert Follows(states[k - 1], actions[k - 1], states[k]);
      NextInv(states[k - 1], actions[k - 1]);
    }
  }

  /** At every moment of every run, a block is either free or with exactly one caller, a
      release never overwrites a free entry, and the sizes of all blocks add up to the cache
      size, which stays within the limit. */
  lemma EveryBlockAccountedFor(name: string, warningSize: nat, actions: seq<Action>, states: seq<State>, k: nat)
    requires warningSize < TWO_64 && IsRun(name, warningSize, actions, states) && k <= |actions|
    ensures var s := states[k];
            && s.free.Keys !! s.held.Keys
            && (forall b | b in s.free.Values + s.held.Values :: b.serial < |s.sizes| && b.size == s.sizes[b.serial])
            && (forall x, y | x in s.free.Keys + s.held.Keys && y in s.free.Keys + s.held.Keys && x != y ::
                  BlockAt(s, x).serial != BlockAt(s, y).serial)
            && (forall i: nat | i < |s.sizes| :: SomewhereIn(s, i))
            && Total(s.sizes) == s.cacheSize <= warningSize
    ensures k < |actions| && actions[k].Release? ==> actions[k].name !in states[k].free
  {
    RunInv(name, warningSize, actions, states, k);
    if k < |actions| { assert Follows(states[k], actions[k], states[k + 1]); }
    NamesWarning(name, warningSize, actions, states, k);
    var s := states[k];
    forall x | x in s.free.Keys + s.held.Keys
      ensures x in s.free <==> x !in s.held
      ensures BlockAt(s, x).serial < |s.sizes| && x == Names(s.name)(BlockAt(s, x).serial)
      ensures BlockAt(s, x).size == s.sizes[BlockAt(s, x).serial]
    {
      UnderName(Names(s.name), s, x);
    }
    forall i: nat | i < |s.sizes|
      ensures SomewhereIn(s, i)
    {
      assert Placed(Names(s.name), s, i);
      assert Names(s.name)(i) in s.free.Keys + s.held.Keys && BlockAt(s, Names(s.name)(i)).serial == i;
    }
  }

  ghost predicate SomewhereIn(s: State, i: nat)
  {
    exists x :: x in s.free.Keys + s.held.Keys && BlockAt(s, x).serial == i
  }

  ghost function BlockAt(s: State, x: string): Block
    requires x in s.free.Keys + s.held.Keys
  {
    if x in s.free then s.free[x] else s.held[x]
  }

  lemma {:induction false} NamesWarning(name: string, warningSize: nat, actions: seq<Action>, states: seq<State>,
                                        k: nat)
    requires IsRun(name, warningSize, actions, states) && k <= |actions|
    ensures states[k].name == name && states[k].warningSize == warningSize
    decreases k
  {
    if k > 0 {
      NamesWarning(name, warningSize, actions, states, k - 1);
      assert Follows(states[k - 1], actions[k - 1], states[k]);
    }
  }

  /** A granted block has exactly the size asked for, was with nobody, and is now with the
      caller alone; a request fails exactly if no free block fits and there is no room. */
  lemma RequestGives(s: State, size: nat, granted: bool)
    requires Inv(s) && Enabled(s, Request(size, granted))
    ensures var (t, r) := RequestStep(s, size, granted);
            && (r.Some? ==> r.value !in s.held && t.held.Keys == s.held.Keys + {r.value} &&
                            t.held[r.value].size == size && r.value !in t.free)
            && (r.None? <==> (forall k | k in s.free :: s.free[k].size != size) &&
                             (s.cacheSize + size > s.warningSize || !granted))
            && (r.None? ==> t == s)
  {
    var (t, r) := RequestStep(s, size, granted);
    if Matching(s.free, size) != {} {
      var k := FirstMatching(s.free, size);
      UnderName(Names(s.name), s, k);
      assert k in s.free && s.free[k].size == size;
    } else {
      forall k | k in s.free
        ensures s.free[k].size != size
      {
        assert k !in Matching(s.free, size);
      }
      if !Refused(s, size) && granted {
        NotRefused(s, size);
        NamesDistinct(s.name);
        NewNameIsFree(Names(s.name), s);
      }
    }
  }

  /** Giving a block back and asking for its size again never needs new memory. */
  lemma ReleasedIsReused(s: State, name: string, granted: bool)
    requires Inv(s) && name in s.held
    ensures var t := ReleaseStep(s, name);
            var (u, r) := RequestStep(t, s.held[name].size, granted);
            r.Some? && u.cacheSize == s.cacheSize && u.sizes == s.sizes
  {
    var t := ReleaseStep(s, name);
    assert name in Matching(t.free, s.held[name].size);
  }
}

/** The pool as the object that callers share. */
module FixedMembuffer {
  import opened Collections
  import opened MemoryPool

  class FixedMembuffer {
    const moduleName: string
    const warningSize: nat
    var keyId: nat
    var cacheSize: nat
    var freeCache: map<string, Block>
    ghost var held: map<string, Block>
    ghost var sizes: seq<nat>

    ghost function Abs(): State
      reads this
    {
      State(moduleName, keyId, cacheSize, warningSize, freeCache, held, sizes)
    }

    ghost predicate Valid()
      reads this
    {
      Inv(Abs())
    }

    constructor (name: string, limit: nat)
      requires limit < TWO_64
      ensures Valid() && Abs() == Init(name, limit)
    {
      moduleName, warningSize := name, limit;
      keyId, cacheSize, freeCache, held, sizes := 0, 0, map[], map[], [];
    }

    /** The next name in the order of the cache. */
    method Least(keys: set<string>) returns (k: string)
      requires keys != {}
      ensures IsLeast(k, keys)
    {
      HasLeast(keys);
      k :| k in keys && forall j | j in keys && j != k :: Less(k, j);
    }

    /** Scan the cache in the order of names for a block of exactly this size. */
    method FindFree(size: nat) returns (k: Option<string>)
      ensures k.None? <==> Matching(freeCache, size) == {}
      ensures k.Some? ==> IsLeast(k.value, Matching(freeCache, size))
    {
      var keys := freeCache.Keys;
      while keys != {}
        invariant keys <= freeCache.Keys
        invariant Matching(freeCache, size) <= keys
        decreases keys
      {
        var name := Least(keys);
        if freeCache[name].size == size {
          assert name in Matching(freeCache, size);
          return Some(name);
        }
        keys := keys - {name};
      }
      return None;
    }

    /** Reuse a free block, or make a new one within the limit. */
    method RequestMemBlob(size: nat, granted: bool) returns (r: Option<(string, Block)>)
      requires Valid() && Enabled(Abs(), Request(size, granted))
      modifies this
      ensures Valid() && Abs() == Next(old(Abs()), Request(size, granted))
      ensures var name := RequestStep(old(Abs()), size, granted).1;
              if name.None? then r.None? else r.Some? && r.value.0 == name.value
      ensures r.Some? ==> r.value.0 in held && held[r.value.0] == r.value.1 && r.value.1.size == size
    {
      NextInv(Abs(), Request(size, granted));
      r := Serve(size, granted);
    }

    method Serve(size: nat, granted: bool) returns (r: Option<(string, Block)>)
      modifies this
      ensures (Abs(), if r.None? then None else Some(r.value.0)) == RequestStep(old(Abs()), size, granted)
      ensures r.Some? ==> r.value.0 in held && held[r.value.0] == r.value.1 && r.value.1.size == size
    {
      var found := FindFree(size);
      if found.Some? {
        LeastUnique(found.value, FirstMatching(freeCache, size), Matching(freeCache, size));
        var block := Reuse(found.value);
        return Some((found.value, block));
      }
      if (cacheSize + size) % TWO_64 > warningSize || !granted {
        return None;
      }
      var name, block := Allocate(size);
      return Some((name, block));
    }

    method Reuse(name: string) returns (block: Block)
      requires name in freeCache
      modifies this
      ensures block == old(freeCache)[name]
      ensures Abs() == old(Abs().(free := freeCache - {name}, held := held[name := freeCache[name]]))
    {
      block := freeCache[name];
      freeCache := freeCache - {name};
      held := held[name := block];
    }

    method Allocate(size: nat) returns (name: string, block: Block)
      modifies this
      ensures name == old(Name(moduleName, keyId)) && block == Block(old(keyId), size)
      ensures Abs() == old(Abs().(keyId := keyId + 1, cacheSize := (cacheSize + size) % TWO_64,
                                  held := held[Name(moduleName, keyId) := Block(keyId, size)], sizes := sizes + [size]))
    {
      name := Name(moduleName, keyId);
      block := Block(keyId, size);
      keyId := keyId + 1;
      cacheSize := (cacheSize + size) % TWO_64;
      held, sizes := held[name := block], sizes + [size];
    }

    /** What the last owner of a block runs: put it back under its name. */
    method Release(name: string, block: Block)
      requires Valid() && name in held && held[name] == block
      modifies this
      ensures Valid() && Abs() == Next(old(Abs()), MemoryPool.Release(name))
      ensures name !in old(freeCache)
    {
      NextInv(Abs(), MemoryPool.Release(name));
      HeldIsNotFree(Abs(), name);
      freeCache := freeCache[name := block];
      held := held - {name};
    }
  }

  lemma HeldIsNotFree(s: State, name: string)
    requires Inv(s) && name in s.held
    ensures name !in s.free
  {
    UnderName(Names(s.name), s, name);
  }

  lemma LeastUnique(a: string, b: string, keys: set<string>)
    requires IsLeast(a, keys) && IsLeast(b, keys)
    ensures a == b
  {
    if a != b { LessAsymmetric(a, b); }
  }

  lemma {:induction false} LessAsymmetric(a: string, b: string)
    ensures !(Less(a, b) && Less(b, a))
  {
    if a != [] && b != [] { LessAsymmetric(a[1..], b[1..]); }
  }
}
