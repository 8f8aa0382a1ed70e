/** The W-TinyLFU eviction container: a small Tiny list in front of Main, and frequency counters that grow
    with the cache and decay over a window.  The counters themselves are a parameter: every operation that
    compares frequencies is given the count of each node. */
module MMTinyLFU {
  import opened Sequences

  type Node = nat

  /** The estimated number of accesses of a node. */
  type Counts = Node -> nat

  const DEFAULT_CAPACITY: nat := 100

  datatype Mode = Read | Write

  datatype Config = Config(
    tinySizePercent: nat, windowToCacheSizeRatio: nat, refreshTime: nat,
    updateOnRead: bool, updateOnWrite: bool, tryLockUpdate: bool)
  {
    predicate Valid() { 1 <= tinySizePercent <= 50 && 2 <= windowToCacheSizeRatio <= 128 }
  }

  // ---- the two lists

  /** Both lists, head first, and the nodes with the Tiny bit. */
  datatype Lists = Lists(tiny: seq<Node>, main: seq<Node>, bits: set<Node>)
  {
    predicate Has(x: Node) { x in tiny || x in main }
    function Size(): nat { |tiny| + |main| }
  }

  /** The Tiny bit names the list that holds a node, and no node is linked twice. */
  ghost predicate Ok(q: Lists) {
    && Distinct(q.tiny) && Distinct(q.main)
    && (forall x :: x in q.bits <==> x in q.tiny)
    && (forall x {:trigger x in q.main} | x in q.main :: x !in q.bits)
  }

  function Last(s: seq<Node>): Node requires s != [] { s[|s| - 1] }

  function Front(s: seq<Node>): seq<Node> requires s != [] { s[..|s| - 1] }

  function Linked(q: Lists, x: Node): Lists { q.(tiny := [x] + q.tiny, bits := q.bits + {x}) }

  /** The tail of Tiny becomes the head of Main. */
  function TailToMain(q: Lists): Lists
    requires q.tiny != []
  {
    Lists(Front(q.tiny), [Last(q.tiny)] + q.main, q.bits - {Last(q.tiny)})
  }

  /** Whether the tail of Tiny is to be kept rather than that of Main. */
  predicate AdmitToMain(f: Counts, t: Node, m: Node) { f(t) >= f(m) }

  /** The less frequent of the two tails ends up as the tail of Tiny; the other goes to the head of Main. */
  function Promoted(q: Lists, f: Counts): Lists {
    if q.tiny == [] || q.main == [] then q
    else
      var t, m := Last(q.tiny), Last(q.main);
      if AdmitToMain(f, t, m) then Lists(Front(q.tiny) + [m], [t] + Front(q.main), q.bits - {t} + {m})
      else q.(main := [m] + Front(q.main))
  }

  function Added(q: Lists, x: Node, percent: nat, f: Counts): Lists {
    var q1 := Linked(q, x);
    if |q1.tiny| > percent * q1.Size() / 100 then TailToMain(q1) else Promoted(q1, f)
  }

  function Dropped(q: Lists, x: Node): Lists {
    if x in q.bits then q.(tiny := Without(q.tiny, x), bits := q.bits - {x}) else q.(main := Without(q.main, x))
  }

  function Raised(q: Lists, x: Node): Lists {
    if x in q.bits then q.(tiny := [x] + Without(q.tiny, x)) else q.(main := [x] + Without(q.main, x))
  }

  function Exchanged(q: Lists, x: Node, y: Node): Lists {
    if x in q.bits then q.(tiny := Replaced(q.tiny, x, y), bits := q.bits - {x} + {y})
    else q.(main := Replaced(q.main, x, y))
  }

  /** The bits and the members after a change. */
  ghost predicate Keeps(q: Lists, q': Lists) { Ok(q') && forall y :: q'.Has(y) <==> q.Has(y) }

  lemma LinkOk(q: Lists, x: Node)
    requires Ok(q) && !q.Has(x)
    ensures Ok(Linked(q, x)) && forall y :: Linked(q, x).Has(y) <==> q.Has(y) || y == x
  {
    DistinctFront(q.tiny, x);
  }

  lemma TailToMainOk(q: Lists)
    requires Ok(q) && q.tiny != []
    ensures Keeps(q, TailToMain(q)) && multiset(TailToMain(q).tiny + TailToMain(q).main) == multiset(q.tiny + q.main)
  {
    DistinctPop(q.tiny);
    assert Last(q.tiny) in q.tiny;
    DistinctFront(q.main, Last(q.tiny));
    assert q.tiny == Front(q.tiny) + [Last(q.tiny)];
  }

  lemma SwapTailsOk(q: Lists, t: Node, m: Node)
    requires Ok(q) && q.tiny != [] && q.main != [] && t == Last(q.tiny) && m == Last(q.main)
    ensures Keeps(q, Lists(Front(q.tiny) + [m], [t] + Front(q.main), q.bits - {t} + {m}))
  {
    DistinctPop(q.tiny);
    DistinctPop(q.main);
    assert t in q.tiny && m in q.main;
    DistinctBack(Front(q.tiny), m);
    DistinctFront(Front(q.main), t);
  }

  lemma RotateOk(q: Lists, m: Node)
    requires Ok(q) && q.main != [] && m == Last(q.main)
    ensures Keeps(q, q.(main := [m] + Front(q.main)))
  {
    DistinctPop(q.main);
    DistinctFront(Front(q.main), m);
  }

  lemma PromoteOk(q: Lists, f: Counts)
    requires Ok(q)
    ensures Keeps(q, Promoted(q, f)) && |Promoted(q, f).tiny| == |q.tiny| && Promoted(q, f).Size() == q.Size()
  {
    if q.tiny != [] && q.main != [] {
      SwapTailsOk(q, Last(q.tiny), Last(q.main));
      RotateOk(q, Last(q.main));
    }
  }

  lemma DropOk(q: Lists, x: Node)
    requires Ok(q) && q.Has(x)
    ensures Ok(Dropped(q, x)) && Dropped(q, x).Size() == q.Size() - 1 && |Dropped(q, x).tiny| <= |q.tiny|
    ensures forall y :: Dropped(q, x).Has(y) <==> q.Has(y) && y != x
  {
    DistinctWithout(q.tiny, x);
    DistinctWithout(q.main, x);
  }

  lemma ExchangeOk(q: Lists, x: Node, y: Node)
    requires Ok(q) && q.Has(x) && !q.Has(y)
    ensures var r := Exchanged(q, x, y); Ok(r) && r.Size() == q.Size() && |r.tiny| == |q.tiny|
    ensures forall z :: Exchanged(q, x, y).Has(z) <==> (q.Has(z) && z != x) || z == y
  {
    DistinctReplaced(q.tiny, x, y);
    DistinctReplaced(q.main, x, y);
  }

  lemma RaiseOk(q: Lists, x: Node)
    requires Ok(q) && q.Has(x)
    ensures Keeps(q, Raised(q, x)) && Raised(q, x).Size() == q.Size() && |Raised(q, x).tiny| == |q.tiny|
  {
    DistinctWithout(q.tiny, x);
    DistinctWithout(q.main, x);
    if x in q.bits { DistinctFront(Without(q.tiny, x), x); } else { DistinctFront(Without(q.main, x), x); }
  }

  /** Adding a node loses no other, and keeps Tiny within its share of the new size or as it was. */
  lemma AddOk(q: Lists, x: Node, percent: nat, f: Counts)
    requires Ok(q) && !q.Has(x)
    ensures var r := Added(q, x, percent, f);
            && Ok(r) && (forall y :: r.Has(y) <==> q.Has(y) || y == x) && r.Size() == q.Size() + 1
            && (|r.tiny| == |q.tiny| || |r.tiny| <= percent * r.Size() / 100)
  {
    LinkOk(q, x);
    var q1 := Linked(q, x);
    TailToMainOk(q1);
    PromoteOk(q1, f);
  }

  /** When both lists have a tail, the less frequent of the two is the tail of Tiny afterwards, where evictions
      look first, and the other has been moved away from the tail of Main. */
  lemma PromoteChoosesVictim(q: Lists, f: Counts)
    requires q.tiny != [] && q.main != []
    ensures var r := Promoted(q, f);
            && r.tiny != [] && r.main != [] && f(Last(r.tiny)) <= f(r.main[0])
            && {Last(r.tiny), r.main[0]} == {Last(q.tiny), Last(q.main)}
            && multiset(r.tiny + r.main) == multiset(q.tiny + q.main)
  {
    assert q.tiny == Front(q.tiny) + [Last(q.tiny)] && q.main == Front(q.main) + [Last(q.main)];
  }

  lemma ShareOfPeak(a: nat, percent: nat, n: nat, peak: nat, peak': nat)
    requires n <= peak' && peak <= peak' && (a <= percent * n / 100 || 100 * a <= percent * peak)
    ensures 100 * a <= percent * peak'
  {
    assert percent * n <= percent * peak' && percent * peak <= percent * peak';
  }

  // ---- the container

  /** The access window and the size for which the counters are made. */
  datatype Window = Window(size: nat, max: nat, capacity: nat)

  datatype Flags = Flags(accessed: set<Node>, inMM: set<Node>, updated: map<Node, nat>)
  {
    function TimeOf(x: Node): nat { if x in updated then updated[x] else 0 }
  }

  class Container {
    const config: Config
    var q: Lists
    var w: Window
    var flags: Flags
    // the largest size so far
    ghost var peak: nat

    ghost predicate Valid() reads this {
      && config.Valid() && Ok(q) && (forall x :: x in flags.inMM <==> q.Has(x))
      && q.Size() <= peak
      // Tiny stays within its share of the largest size so far
      && 100 * |q.tiny| <= config.tinySizePercent * peak
      // the window never jumps over the size at which the counts decay
      && w.size < w.max == w.capacity * config.windowToCacheSizeRatio
      // the counters are large enough
      && q.Size() < 2 * w.capacity
    }

    constructor (c: Config)
      requires c.Valid()
      ensures Valid() && config == c && q == Lists([], [], {}) && peak == 0
    {
      config := c;
      q, w, flags, peak := Lists([], [], {}), Window(0, 0, 0), Flags({}, {}, map[]), 0;
      new;
      MaybeGrowAccessCounters();
    }

    /** Makes the counters anew when the cache has doubled in size. */
    method MaybeGrowAccessCounters()
      requires config.Valid() && (w.capacity > 0 ==> w.size < w.max == w.capacity * config.windowToCacheSizeRatio)
      modifies this`w
      ensures w.size < w.max == w.capacity * config.windowToCacheSizeRatio && q.Size() < 2 * w.capacity
      ensures w == old(w) || (w.capacity >= 2 * old(w.capacity) && w.capacity >= DEFAULT_CAPACITY && w.size == 0)
    {
      if 2 * w.capacity > q.Size() { return; }
      var capacity := if q.Size() < DEFAULT_CAPACITY then DEFAULT_CAPACITY else q.Size();
      w := Window(0, capacity * config.windowToCacheSizeRatio, capacity);
      assert capacity * config.windowToCacheSizeRatio >= capacity * 2;
    }

    /** Counts one access in the window, which is halved together with the counts when it is full. */
    method UpdateFrequencies() returns (decay: bool)
      requires w.size < w.max
      modifies this`w
      ensures w.size < w.max && w.max == old(w.max) && w.capacity == old(w.capacity)
      ensures decay == (old(w.size) + 1 == w.max) && w.size == if decay then w.max / 2 else old(w.size) + 1
    {
      w := w.(size := w.size + 1);
      decay := w.size == w.max;
      if decay { w := w.(size := w.size / 2); }
    }

    method Add(x: Node, now: nat, f: Counts) returns (ok: bool)
      requires Valid()
      modifies this
      ensures Valid() && ok == !old(q).Has(x)
      ensures q == if ok then Added(old(q), x, config.tinySizePercent, f) else old(q)
    {
      if x in flags.inMM { return false; }
      AddOk(q, x, config.tinySizePercent, f);
      Place(x, f);
      MaybeGrowAccessCounters();
      flags := Flags(flags.accessed - {x}, flags.inMM + {x}, flags.updated[x := now]);
      ghost var p := if q.Size() > peak then q.Size() else peak;
      ShareOfPeak(|q.tiny|, config.tinySizePercent, q.Size(), peak, p);
      peak := p;
      return true;
    }

    /** Links a new node in Tiny, and settles which node Tiny gives up or keeps at its tail. */
    method Place(x: Node, f: Counts)
      requires w.size < w.max
      modifies this`q, this`w
      ensures q == Added(old(q), x, config.tinySizePercent, f)
      ensures w.size < w.max && w.max == old(w.max) && w.capacity == old(w.capacity)
    {
      q := q.(tiny := [x] + q.tiny, bits := q.bits + {x});
      var decay := UpdateFrequencies();
      if |q.tiny| > config.tinySizePercent * q.Size() / 100 {
        var t := Last(q.tiny);
        q := Lists(Front(q.tiny), [t] + q.main, q.bits - {t});
      } else {
        MaybePromoteTail(f);
      }
    }

    method MaybePromoteTail(f: Counts)
      modifies this`q
      ensures q == Promoted(old(q), f)
    {
      if q.main == [] || q.tiny == [] { return; }
      var t, m := Last(q.tiny), Last(q.main);
      if AdmitToMain(f, t, m) {
        q := q.(tiny := Front(q.tiny), main := [t] + q.main, bits := q.bits - {t});
        q := q.(tiny := q.tiny + [m], main := Front(q.main), bits := q.bits + {m});
      } else {
        q := q.(main := [m] + Front(q.main));
      }
    }

    method Remove(x: Node) returns (ok: bool)
      requires Valid()
      modifies this
      ensures Valid() && ok == old(q).Has(x) && q == if ok then Dropped(old(q), x) else old(q)
    {
      if x !in flags.inMM { return false; }
      DropOk(q, x);
      q := Dropped(q, x);
      flags := flags.(accessed := flags.accessed - {x}, inMM := flags.inMM - {x});
      return true;
    }

    /** Whether an access is recorded at all; a node's first access always is. */
    predicate Due(x: Node, mode: Mode, now: nat)
      reads this
    {
      && (mode == Write ==> config.updateOnWrite) && (mode == Read ==> config.updateOnRead)
      && q.Has(x) && (now >= flags.TimeOf(x) + config.refreshTime || x !in flags.accessed)
    }

    method RecordAccess(x: Node, mode: Mode, now: nat, gotLock: bool) returns (ok: bool)
      requires Valid()
      modifies this
      ensures Valid() && ok == (old(Due(x, mode, now)) && (config.tryLockUpdate ==> gotLock))
      ensures q == if ok then Raised(old(q), x) else old(q)
    {
      if (mode == Write && !config.updateOnWrite) || (mode == Read && !config.updateOnRead) { return false; }
      if !(x in flags.inMM && (now >= flags.TimeOf(x) + config.refreshTime || x !in flags.accessed)) { return false; }
      if x !in flags.accessed { flags := flags.(accessed := flags.accessed + {x}); }
      if config.tryLockUpdate && !gotLock { return false; }
      RaiseOk(q, x);
      q := Raised(q, x);
      flags := flags.(updated := flags.updated[x := now]);
      var decay := UpdateFrequencies();
      return true;
    }
  
    method Replace(x: Node, y: Node) returns (ok: bool)
      requires Valid()
      modifies this
      ensures Valid() && ok == (old(q).Has(x) && !old(q).Has(y)) && q == if ok then Exchanged(old(q), x, y) else old(q)
      ensures ok ==> (y in flags.accessed <==> x in old(flags.accessed)) && flags.TimeOf(y) == old(flags).TimeOf(x)
    {
      if x !in flags.inMM || y in flags.inMM { return false; }
      ExchangeOk(q, x, y);
      q := Exchanged(q, x, y);
      flags := Flags(if x in flags.accessed then flags.accessed + {y} else flags.accessed - {y},
                     flags.inMM - {x} + {y}, flags.updated[y := flags.TimeOf(x)]);
      return true;
    }
  }

  // ---- the eviction iterator

  /** The order in which an eviction visits the nodes of `t` and `m`, each given from its tail on: from `t` if `m`
      is exhausted or the node of `t` is less frequent, otherwise from `m`. */
  function Merge(t: seq<Node>, m: seq<Node>, f: Counts): seq<Node>
    decreases |t| + |m|
  {
    if m == [] then t
    else if t == [] then m
    else if f(t[0]) < f(m[0]) then [t[0]] + Merge(t[1..], m, f)
    else [m[0]] + Merge(t, m[1..], f)
  }

  /** The nodes of `s` in `keep`, in order. */
  function Only(s: seq<Node>, keep: set<Node>): seq<Node> {
    if s == [] then [] else (if s[0] in keep then [s[0]] else []) + Only(s[1..], keep)
  }

  lemma {:induction false} OnlyAll(s: seq<Node>, keep: set<Node>)
    ensures (forall x | x in s :: x in keep) ==> Only(s, keep) == s
    ensures (forall x | x in s :: x !in keep) ==> Only(s, keep) == []
  {
    if s != [] {
      OnlyAll(s[1..], keep);
      assert s == [s[0]] + s[1..];
    }
  }

  lemma OnlyFirst(x: Node, s: seq<Node>, keep: set<Node>)
    ensures Only([x] + s, keep) == (if x in keep then [x] else []) + Only(s, keep)
  {
    assert ([x] + s)[1..] == s;
  }

  /** Property: every node of both lists is visited exactly once. */
  lemma {:induction false} MergeVisitsAll(t: seq<Node>, m: seq<Node>, f: Counts)
    ensures multiset(Merge(t, m, f)) == multiset(t) + multiset(m)
    decreases |t| + |m|
  {
    if t != [] && m != [] {
      assert t == [t[0]] + t[1..] && m == [m[0]] + m[1..];
      if f(t[0]) < f(m[0]) { MergeVisitsAll(t[1..], m, f); } else { MergeVisitsAll(t, m[1..], f); }
    }
  }

  /** Property: each list is visited in its own order, from tail to head. */
  lemma {:induction false} MergeKeepsOrder(t: seq<Node>, m: seq<Node>, f: Counts, tiny: set<Node>, main: set<Node>)
    requires tiny !! main && (forall x | x in t :: x in tiny) && (forall x | x in m :: x in main)
    ensures Only(Merge(t, m, f), tiny) == t && Only(Merge(t, m, f), main) == m
    decreases |t| + |m|
  {
    if t == [] || m == [] {
      OnlyAll(t + m, tiny);
      OnlyAll(t + m, main);
      assert Merge(t, m, f) == t + m;
    } else if f(t[0]) < f(m[0]) {
      MergeKeepsOrder(t[1..], m, f, tiny, main);
      OnlyFirst(t[0], Merge(t[1..], m, f), tiny);
      OnlyFirst(t[0], Merge(t[1..], m, f), main);
    } else {
      MergeKeepsOrder(t, m[1..], f, tiny, main);
      OnlyFirst(m[0], Merge(t, m[1..], f), tiny);
      OnlyFirst(m[0], Merge(t, m[1..], f), main);
    }
  }

  /** What is left to visit with `i` nodes of Tiny and `j` of Main before the cursors. */
  function Rest(q: Lists, i: nat, j: nat, f: Counts): seq<Node>
    requires i <= |q.tiny| && j <= |q.main|
  {
    Merge(Reverse(q.tiny[..i]), Reverse(q.main[..j]), f)
  }

  /** Whether the cursor of Tiny is the one to use. */
  predicate EvictTiny(q: Lists, i: nat, j: nat, f: Counts)
    requires i <= |q.tiny| && j <= |q.main|
  {
    j == 0 || (i > 0 && !AdmitToMain(f, q.tiny[i - 1], q.main[j - 1]))
  }

  lemma RestStep(q: Lists, i: nat, j: nat, f: Counts)
    requires i <= |q.tiny| && j <= |q.main| && i + j > 0
    ensures EvictTiny(q, i, j, f) ==> i > 0 && Rest(q, i, j, f) == [q.tiny[i - 1]] + Rest(q, i - 1, j, f)
    ensures !EvictTiny(q, i, j, f) ==> j > 0 && Rest(q, i, j, f) == [q.main[j - 1]] + Rest(q, i, j - 1, f)
  {
    var t, m := Reverse(q.tiny[..i]), Reverse(q.main[..j]);
    if i > 0 { assert t[1..] == Reverse(q.tiny[..i - 1]); }
    if j > 0 { assert m[1..] == Reverse(q.main[..j - 1]); }
    assert i > 0 ==> t == [t[0]] + t[1..];
    assert j > 0 ==> m == [m[0]] + m[1..];
  }

  class EvictionIterator {
    const c: Container
    const counts: Counts
    var tLeft: nat                     // nodes of Tiny up to its cursor, counted from the head
    var mLeft: nat

    ghost predicate Valid() reads this, c { tLeft <= |c.q.tiny| && mLeft <= |c.q.main| && c.Valid() }

    constructor (container: Container, f: Counts)
      requires container.Valid()
      ensures Valid() && c == container && counts == f && tLeft == |c.q.tiny| && mLeft == |c.q.main|
    {
      c, counts := container, f;
      tLeft, mLeft := |container.q.tiny|, |container.q.main|;
    }

    function Left(): seq<Node> requires Valid() reads this, c { Rest(c.q, tLeft, mLeft, counts) }

    predicate More() reads this { tLeft > 0 || mLeft > 0 }

    method Get() returns (x: Node)
      requires Valid() && More()
      ensures Left() != [] && x == Left()[0]
    {
      RestStep(c.q, tLeft, mLeft, counts);
      x := if EvictTiny(c.q, tLeft, mLeft, counts) then c.q.tiny[tLeft - 1] else c.q.main[mLeft - 1];
    }

    /** operator++ */
    method Next()
      requires Valid() && More()
      modifies this
      ensures Valid() && old(Left()) != [] && Left() == old(Left())[1..]
      ensures old(EvictTiny(c.q, tLeft, mLeft, counts)) ==> tLeft == old(tLeft) - 1 && mLeft == old(mLeft)
      ensures !old(EvictTiny(c.q, tLeft, mLeft, counts)) ==> tLeft == old(tLeft) && mLeft == old(mLeft) - 1
    {
      RestStep(c.q, tLeft, mLeft, counts);
      if EvictTiny(c.q, tLeft, mLeft, counts) { tLeft := tLeft - 1; } else { mLeft := mLeft - 1; }
    }

    /** Removes the node at the cursor, after moving on; what is left to visit is as without the removal. */
    method RemoveAtCursor()
      requires Valid() && More()
      modifies this, c
      ensures Valid() && old(Left()) != [] && Left() == old(Left())[1..]
      ensures c.q == Dropped(old(c.q), old(Left())[0]) && tLeft + mLeft == old(tLeft + mLeft) - 1
      ensures forall y :: c.q.Has(y) <==> old(c.q).Has(y) && y != old(Left())[0]
    {
      var x := Get();
      ghost var q0, i, j := c.q, tLeft, mLeft;
      RestStep(q0, i, j, counts);
      Next();
      DropBehind(q0, tLeft, mLeft, x, counts);
      DropOk(q0, x);
      var ok := c.Remove(x);
    }

    method Visit(doomed: set<Node>) returns (x: Node)
      requires Valid() && More()
      modifies this, c
      ensures Valid() && old(Left()) != [] && x == old(Left())[0] && Left() == old(Left())[1..]
      ensures tLeft + mLeft == old(tLeft + mLeft) - 1
      ensures forall y :: c.q.Has(y) <==> old(c.q).Has(y) && !(y == x && x in doomed)
    {
      x := Get();
      if x in doomed { RemoveAtCursor(); } else { Next(); }
    }
  }

  /** Removing a node behind the cursors does not change what is left to visit. */
  lemma DropBehind(q: Lists, i: nat, j: nat, x: Node, f: Counts)
    requires Ok(q) && i <= |q.tiny| && j <= |q.main|
    requires (i < |q.tiny| && x == q.tiny[i]) || (j < |q.main| && x == q.main[j])
    ensures q.Has(x) && var r := Dropped(q, x); i <= |r.tiny| && j <= |r.main| && Rest(r, i, j, f) == Rest(q, i, j, f)
  {
    DistinctIsNoDup(q.tiny);
    DistinctIsNoDup(q.main);
    if x in q.tiny && i < |q.tiny| && x == q.tiny[i] {
      WithoutAt(q.tiny, i);
      assert Without(q.tiny, x)[..i] == q.tiny[..i];
    } else {
      assert x in q.main;
      WithoutAt(q.main, j);
      assert Without(q.main, x)[..j] == q.main[..j];
    }
  }

  /** Property: an eviction that removes any of the nodes it visits still visits all nodes, in the order of the
      lists it started with. */
  method EvictionWalk(c: Container, f: Counts, doomed: set<Node>) returns (visited: seq<Node>)
    requires c.Valid()
    modifies c
    ensures c.Valid() && visited == Merge(Reverse(old(c.q.tiny)), Reverse(old(c.q.main)), f)
    ensures forall x :: c.q.Has(x) <==> old(c.q).Has(x) && x !in doomed
  {
    var it := new EvictionIterator(c, f);
    ghost var order := it.Left();
    assert c.q.tiny[..|c.q.tiny|] == c.q.tiny && c.q.main[..|c.q.main|] == c.q.main;
    AllVisited(c.q, f);
    visited := [];
    while it.More()
      invariant fresh(it) && it.c == c && it.counts == f && it.Valid()
      invariant |visited| <= |order| && visited == order[..|visited|] && it.Left() == order[|visited|..]
      invariant forall x :: c.q.Has(x) <==> old(c.q).Has(x) && x !in Gone(visited, doomed)
      decreases it.tLeft + it.mLeft
    {
      var x := it.Visit(doomed);
      GoneStep(visited, x, doomed);
      OneMore(order, |visited|);
      visited := visited + [x];
    }
  }

  lemma OneMore(s: seq<Node>, k: nat)
    requires k < |s|
    ensures s[..k + 1] == s[..k] + [s[k]] && s[k..][0] == s[k] && s[k..][1..] == s[k + 1..]
  {}

  function Gone(visited: seq<Node>, doomed: set<Node>): set<Node> { set x | x in visited && x in doomed }

  lemma GoneStep(v: seq<Node>, x: Node, doomed: set<Node>)
    ensures Gone(v + [x], doomed) == if x in doomed then Gone(v, doomed) + {x} else Gone(v, doomed)
  {}

  lemma AllVisited(q: Lists, f: Counts)
    ensures forall x :: x in Merge(Reverse(q.tiny), Reverse(q.main), f) <==> q.Has(x)
  {
    var v, t, m := Merge(Reverse(q.tiny), Reverse(q.main), f), Reverse(q.tiny), Reverse(q.main);
    MergeVisitsAll(t, m, f);
    forall x ensures x in v <==> q.Has(x) {
      assert x in v <==> x in multiset(v);
      ReverseMembers(q.tiny, x);
      ReverseMembers(q.main, x);
    }
  }

  lemma ReverseMembers(s: seq<Node>, x: Node)
    ensures x in Reverse(s) <==> x in s
  {
    if x in s {
      var i :| 0 <= i < |s| && s[i] == x;
      assert Reverse(s)[|s| - 1 - i] == x;
    }
  }
}
