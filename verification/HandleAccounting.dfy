/** Who owns the references to the items, and which of them the per-thread handle counts include. */
module HandleAccounting {
  import opened Options

  datatype Id = Id(n: int)
  datatype Item = Item(id: int)
  type Tid = nat

  /** A handle holds nothing, an item, or a wait context whose item another thread will set. */
  datatype Handle = Empty | Plain(item: Item) | Waiting(ctx: Id)

  datatype Slot = NotReady | Ready(item: Option<Item>)

  /** A wait context, shared by at most one handle and, while it is armed, by whoever sets it. */
  datatype Context = Context(slot: Slot, callback: bool, holder: Option<Id>, armed: bool)

  /** Reference counts, handles, wait contexts, raw pointers released from handles, callback handles whose deferred
      adjustment has not run, linked children, and the handle count of every thread. */
  datatype Store = Store(
    refs: map<Item, nat>,
    handles: map<Id, Handle>,
    contexts: map<Id, Context>,
    raws: map<Id, Item>,
    pending: map<Id, Item>,
    children: set<Item>,
    counts: seq<int>)

  /** The possible owners of a reference. */
  datatype Owner = OfHandle(id: Id) | OfContext(id: Id) | OfRaw(id: Id) | OfPending(id: Id) | OfParent(child: Item)

  type Owners = map<Owner, Item>

  /** The handle counts include plain handles and released raw pointers only. */
  predicate Counted(o: Owner) { o.OfHandle? || o.OfRaw? }

  function Held(s: Store, o: Owner): Option<Item> {
    match o
    case OfHandle(h) => if h in s.handles && s.handles[h].Plain? then Some(s.handles[h].item) else None
    case OfContext(c) => if c in s.contexts && s.contexts[c].slot.Ready? then s.contexts[c].slot.item else None
    case OfRaw(r) => if r in s.raws then Some(s.raws[r]) else None
    case OfPending(p) => if p in s.pending then Some(s.pending[p]) else None
    case OfParent(x) => if x in s.children then Some(x) else None
  }

  function Sum(c: seq<int>): int { if c == [] then 0 else Sum(c[..|c| - 1]) + c[|c| - 1] }

  lemma {:induction false} SumUpdate(c: seq<int>, t: nat, d: int)
    requires t < |c|
    ensures Sum(c[t := c[t] + d]) == Sum(c) + d
  {
    var n := |c| - 1;
    if t == n {
      assert c[t := c[t] + d][..n] == c[..n];
    } else {
      SumUpdate(c[..n], t, d);
      assert c[t := c[t] + d][..n] == c[..n][t := c[..n][t] + d];
    }
  }

  function Of(m: Owners, x: Item): set<Owner> { set o | o in m && m[o] == x }

  function CountedOf(m: Owners): set<Owner> { set o | o in m && Counted(o) }

  ghost predicate Tied(s: Store, m: Owners) {
    forall o {:trigger Held(s, o)} {:trigger o in m} :: if o in m then Held(s, o) == Some(m[o]) else Held(s, o) == None
  }

  /** Property: the access refcount is the number of owners. */
  ghost predicate RefsOk(s: Store, m: Owners) {
    && (forall o | o in m :: m[o] in s.refs)
    && (forall x | x in s.refs :: s.refs[x] == |Of(m, x)|)
  }

  /** Property: the counts of the threads add up to the number of counted owners. */
  ghost predicate CountsOk(s: Store, m: Owners) { Sum(s.counts) == |CountedOf(m)| }

  predicate Waits(s: Store, h: Id) {
    h in s.handles && s.handles[h].Waiting? ==> s.handles[h].ctx in s.contexts && s.contexts[s.handles[h].ctx].holder == Some(h)
  }

  /** A waiting handle's context exists, and no other handle has it. */
  ghost predicate WaitOk(s: Store) { forall h :: Waits(s, h) }

  ghost predicate Ok(s: Store, m: Owners) { Tied(s, m) && RefsOk(s, m) && CountsOk(s, m) && WaitOk(s) }

  function One(b: bool): int { if b then 1 else 0 }

  lemma GainsOf(m: Owners, o: Owner, x: Item, y: Item)
    requires o !in m
    ensures |Of(m[o := x], y)| == |Of(m, y)| + One(y == x)
  {
    var m' := m[o := x];
    if y == x {
      assert Of(m', y) == Of(m, y) + {o};
    } else {
      assert Of(m', y) == Of(m, y);
    }
  }

  lemma GainsCounted(m: Owners, o: Owner, x: Item)
    requires o !in m
    ensures |CountedOf(m[o := x])| == |CountedOf(m)| + One(Counted(o))
  {
    if Counted(o) {
      assert CountedOf(m[o := x]) == CountedOf(m) + {o};
    } else {
      assert CountedOf(m[o := x]) == CountedOf(m);
    }
  }

  lemma Gains(m: Owners, o: Owner, x: Item)
    requires o !in m
    ensures forall y :: |Of(m[o := x], y)| == |Of(m, y)| + One(y == x)
    ensures |CountedOf(m[o := x])| == |CountedOf(m)| + One(Counted(o))
  {
    forall y ensures |Of(m[o := x], y)| == |Of(m, y)| + One(y == x) { GainsOf(m, o, x, y); }
    GainsCounted(m, o, x);
  }

  lemma Loses(m: Owners, o: Owner)
    requires o in m
    ensures forall y :: |Of(m - {o}, y)| == |Of(m, y)| - One(y == m[o])
    ensures |CountedOf(m - {o})| == |CountedOf(m)| - One(Counted(o))
  {
    assert (m - {o})[o := m[o]] == m;
    Gains(m - {o}, o, m[o]);
  }

  // ---- the changes of ownership that the operations are made of

  /** The store changed its holders at `o` only. */
  ghost predicate Same(s: Store, s': Store, o: Owner, o': Owner) {
    forall p {:trigger Held(s', p)} | p != o && p != o' :: Held(s', p) == Held(s, p)
  }

  /** `o` takes a reference. */
  lemma GainOk(s: Store, m: Owners, s': Store, o: Owner, x: Item)
    requires Ok(s, m) && o !in m && x in s.refs && s'.refs == s.refs[x := s.refs[x] + 1] && WaitOk(s')
    requires Sum(s'.counts) == Sum(s.counts) + One(Counted(o))
    requires Held(s', o) == Some(x) && Same(s, s', o, o)
    ensures Ok(s', m[o := x])
  {
    Gains(m, o, x);
    assert Tied(s', m[o := x]);
  }

  /** `o` gives its reference up. */
  lemma LoseOk(s: Store, m: Owners, s': Store, o: Owner)
    requires Ok(s, m) && o in m && m[o] in s.refs && s.refs[m[o]] > 0
    requires s'.refs == s.refs[m[o] := s.refs[m[o]] - 1] && WaitOk(s')
    requires Sum(s'.counts) == Sum(s.counts) - One(Counted(o))
    requires Held(s', o) == None && Same(s, s', o, o)
    ensures Ok(s', m - {o})
  {
    Loses(m, o);
    assert Tied(s', m - {o});
  }

  /** The reference of `o` passes to `o'`. */
  lemma PassOk(s: Store, m: Owners, s': Store, o: Owner, o': Owner)
    requires Ok(s, m) && o in m && o' !in m && s'.refs == s.refs && WaitOk(s')
    requires Sum(s'.counts) == Sum(s.counts) - One(Counted(o)) + One(Counted(o'))
    requires Held(s', o) == None && Held(s', o') == Some(m[o]) && Same(s, s', o, o')
    ensures Ok(s', (m - {o})[o' := m[o]])
  {
    Passes(m, o, o');
    PassTied(s, m, s', o, o');
  }

  lemma Passes(m: Owners, o: Owner, o': Owner)
    requires o in m && o' !in m
    ensures forall y :: |Of((m - {o})[o' := m[o]], y)| == |Of(m, y)|
    ensures |CountedOf((m - {o})[o' := m[o]])| == |CountedOf(m)| - One(Counted(o)) + One(Counted(o'))
  {
    Loses(m, o);
    Gains(m - {o}, o', m[o]);
  }

  lemma PassTied(s: Store, m: Owners, s': Store, o: Owner, o': Owner)
    requires Tied(s, m) && o in m && o' !in m && Held(s', o) == None && Held(s', o') == Some(m[o]) && Same(s, s', o, o')
    ensures Tied(s', (m - {o})[o' := m[o]])
  {}

  /** No owner changes. */
  lemma KeepOk(s: Store, m: Owners, s': Store)
    requires Ok(s, m) && s'.refs == s.refs && WaitOk(s') && Sum(s'.counts) == Sum(s.counts)
    requires forall p {:trigger Held(s', p)} :: Held(s', p) == Held(s, p)
    ensures Ok(s', m)
  {
    assert Tied(s', m);
  }

  /** An owner's item has a positive count. */
  lemma OwnedPositive(s: Store, m: Owners, o: Owner)
    requires Ok(s, m) && o in m
    ensures m[o] in s.refs && s.refs[m[o]] > 0
  {
    assert o in Of(m, m[o]);
  }

  /** Property: when no handle, raw pointer, context or pending callback owns a reference, the counts of all threads
      add up to 0, and an item is referred to exactly if it is a linked child, once. */
  lemma Quiescent(s: Store, m: Owners)
    requires Ok(s, m) && forall o | o in m :: o.OfParent?
    ensures Sum(s.counts) == 0
    ensures forall x | x in s.refs :: s.refs[x] == One(x in s.children)
  {
    assert CountedOf(m) == {};
    forall x | x in s.refs ensures s.refs[x] == One(x in s.children) {
      assert Held(s, OfParent(x)) == if x in s.children then Some(x) else None;
      forall o | o in Of(m, x) ensures o == OfParent(x) { assert Held(s, o) == Some(x); }
      assert Of(m, x) == if x in s.children then {OfParent(x)} else {};
    }
  }

  // ---- the operations on stores

  /** A count that a thread has adjusted. */
  function Adjusted(c: seq<int>, t: Tid, d: int): seq<int>
    requires t < |c|
  {
    c[t := c[t] + d]
  }

  /** Takes a reference to the item and counts it. */
  function IncRef(s: Store, t: Tid, x: Item): Store
    requires t < |s.counts| && x in s.refs
  {
    s.(refs := s.refs[x := s.refs[x] + 1], counts := Adjusted(s.counts, t, 1))
  }

  function DecRef(s: Store, t: Tid, x: Item): Store
    requires t < |s.counts| && x in s.refs && s.refs[x] > 0
  {
    s.(refs := s.refs[x := s.refs[x] - 1], counts := Adjusted(s.counts, t, -1))
  }

  /** One share of the context is given up, the handle's or the setter's; without shares the context is gone. */
  function Unshared(s: Store, c: Id, setter: bool): Store
    requires c in s.contexts
  {
    var x := s.contexts[c];
    var x' := if setter then x.(armed := false) else x.(holder := None);
    s.(contexts := if x'.holder.Some? || x'.armed then s.contexts[c := x'] else s.contexts - {c})
  }

  /** What a handle refers to once it is ready. */
  function Target(s: Store, h: Handle): Option<Item> {
    match h
    case Empty => None
    case Plain(x) => Some(x)
    case Waiting(c) => if c in s.contexts && s.contexts[c].slot.Ready? then s.contexts[c].slot.item else None
  }

  predicate IsReady(s: Store, h: Handle) { h.Waiting? ==> h.ctx in s.contexts && s.contexts[h.ctx].slot.Ready? }

  /** The owner behind a handle. */
  function Behind(h: Id, v: Handle): Owner { if v.Waiting? then OfContext(v.ctx) else OfHandle(h) }

  /** The setter's or the handle's share of `c` goes, on thread `t`: the last one takes the context with it, and the
      item that the context owns, if any, is released.  The count goes up and down again. */
  function ContextDropped(s: Store, t: Tid, c: Id, setter: bool): Store
    requires t < |s.counts| && c in s.contexts
    requires forall x | Held(s, OfContext(c)) == Some(x) :: x in s.refs && s.refs[x] > 0
  {
    var s' := Unshared(s, c, setter);
    var o := Held(s, OfContext(c));
    if c !in s'.contexts && o.Some? then DecRef(s'.(counts := Adjusted(s.counts, t, 1)), t, o.value) else s'
  }

  /** A share goes, but not the last, or the context owns nothing. */
  lemma UnsharedOk(s: Store, m: Owners, c: Id, setter: bool)
    requires Ok(s, m) && c in s.contexts && (!setter ==> NobodyWaits(s, c))
    requires c in Unshared(s, c, setter).contexts || OfContext(c) !in m
    ensures Ok(Unshared(s, c, setter), m)
  {
    var s' := Unshared(s, c, setter);
    UnsharedWaits(s, c, setter);
    forall p ensures Held(s', p) == Held(s, p) {
      if p == OfContext(c) { assert p !in m ==> Held(s, p) == None; }
    }
    KeepOk(s, m, s');
  }

  /** The last share goes, and with it the reference of the context. */
  lemma ContextGoneOk(s: Store, m: Owners, s': Store, c: Id, setter: bool)
    requires Ok(s, m) && c in s.contexts && (!setter ==> NobodyWaits(s, c)) && OfContext(c) in m
    requires var u := Unshared(s, c, setter);
             c !in u.contexts && m[OfContext(c)] in s.refs && s.refs[m[OfContext(c)]] > 0
             && s' == u.(refs := s.refs[m[OfContext(c)] := s.refs[m[OfContext(c)]] - 1])
    ensures Ok(s', m - {OfContext(c)})
  {
    UnsharedWaits(s, c, setter);
    var u := Unshared(s, c, setter);
    forall h ensures Waits(s', h) { assert Waits(u, h); }
    forall p | p != OfContext(c) ensures Held(s', p) == Held(s, p) {}
    LoseOk(s, m, s', OfContext(c));
  }

  lemma ContextDroppedOk(s: Store, m: Owners, t: Tid, c: Id, setter: bool)
    requires Ok(s, m) && t < |s.counts| && c in s.contexts && (!setter ==> NobodyWaits(s, c))
    ensures forall x | Held(s, OfContext(c)) == Some(x) :: x in s.refs && s.refs[x] > 0
    ensures Ok(ContextDropped(s, t, c, setter), if c in Unshared(s, c, setter).contexts then m else m - {OfContext(c)})
  {
    var o := OfContext(c);
    assert o in m <==> Held(s, o).Some?;
    if o in m { OwnedPositive(s, m, o); }
    var s', u := ContextDropped(s, t, c, setter), Unshared(s, c, setter);
    if o in m && c !in u.contexts {
      assert Adjusted(Adjusted(s.counts, t, 1), t, -1) == s.counts;
      ContextGoneOk(s, m, s', c, setter);
    } else {
      assert o !in m ==> m - {o} == m;
      UnsharedOk(s, m, c, setter);
    }
  }

  ghost predicate NobodyWaits(s: Store, c: Id) { forall h | h in s.handles :: s.handles[h] != Waiting(c) }

  lemma UnsharedWaits(s: Store, c: Id, setter: bool)
    requires WaitOk(s) && c in s.contexts && (!setter ==> NobodyWaits(s, c))
    ensures WaitOk(Unshared(s, c, setter))
  {
    var s' := Unshared(s, c, setter);
    forall h ensures Waits(s', h) { assert Waits(s, h); }
  }

  /** The owners once the handle has released what it held: its own reference, or its context's if the handle's was
      the last share of the context. */
  function ResetOwners(s: Store, m: Owners, h: Id): Owners
    requires h in s.handles
  {
    match s.handles[h]
    case Empty => m
    case Plain(_) => m - {OfHandle(h)}
    case Waiting(c) => if c in s.contexts && s.contexts[c].armed then m else m - {OfContext(c)}
  }

  /** The owners once what handle `h` held, `v`, has been moved to `k`. */
  function MoveOwners(m: Owners, h: Id, k: Id, v: Handle): Owners {
    if v.Plain? then (m - {OfHandle(h)})[OfHandle(k) := v.item] else m
  }

  datatype Op =
    | DoAllocate(t: Tid, x: Item, h: Id)
    | DoAcquire(t: Tid, it: Option<Item>, h: Id)
    | DoAcquireMoving(h: Id, c: Id)
    | DoClone(t: Tid, h: Id, k: Id)
    | DoMove(h: Id, k: Id)
    | DoAssign(t: Tid, h: Id, k: Id)
    | DoReset(t: Tid, h: Id)
    | DoRelease(t: Tid, h: Id, r: Id)
    | DoReleaseRaw(t: Tid, r: Id)
    | DoOnReady(c: Id)
    | DoSet(t: Tid, c: Id, h: Id, p: Id)
    | DoDropSetter(t: Tid, c: Id)
    | DoRunDeferred(t: Tid, p: Id, h: Id)
    | DoLinkChild(x: Item)
    | DoUnlinkChild(x: Item)

  /** The operation is possible: what it refers to is there, what it creates is not, and it does not block. */
  predicate Enabled(s: Store, op: Op) {
    match op
    case DoAllocate(t, x, h) => t < |s.counts| && h !in s.handles && x !in s.refs
    case DoAcquire(t, it, h) => t < |s.counts| && h !in s.handles && (it.Some? ==> it.value in s.refs)
    case DoAcquireMoving(h, c) => h !in s.handles && c !in s.contexts
    case DoClone(t, h, k) => t < |s.counts| && h in s.handles && k !in s.handles && IsReady(s, s.handles[h])
    case DoMove(h, k) => h in s.handles && h != k && (k in s.handles ==> s.handles[k] == Empty)
    case DoAssign(t, h, k) => t < |s.counts| && h in s.handles && k in s.handles
    case DoReset(t, h) => t < |s.counts| && h in s.handles
    case DoRelease(t, h, r) => t < |s.counts| && h in s.handles && IsReady(s, s.handles[h]) && r !in s.raws
    case DoReleaseRaw(t, r) => t < |s.counts| && r in s.raws
    case DoOnReady(c) => c in s.contexts
    case DoSet(t, c, h, p) =>
      && t < |s.counts| && c in s.contexts && s.contexts[c].armed && s.contexts[c].slot == NotReady
      && h in s.handles && IsReady(s, s.handles[h]) && p !in s.pending
    case DoDropSetter(t, c) => t < |s.counts| && c in s.contexts
    case DoRunDeferred(t, p, h) => t < |s.counts| && p in s.pending && h !in s.handles
    case DoLinkChild(x) => x in s.refs && x !in s.children
    case DoUnlinkChild(x) => x in s.children
  }

  class Cache {
    var s: Store
    ghost var owners: Owners

    ghost predicate Valid()
      reads this
    {
      Ok(s, owners)
    }

    constructor (threads: nat)
      ensures Valid() && owners == map[] && |s.counts| == threads && s.refs == map[] && s.handles == map[]
    {
      var counts := seq(threads, i => 0);
      ZeroSum(threads);
      s := Store(map[], map[], map[], map[], map[], {}, counts);
      owners := map[];
      new;
      assert CountedOf(map[]) == {};
    }

    /** A handle to the item by one more reference; no handle for no item. */
    method Acquire(t: Tid, it: Option<Item>, h: Id)
      requires Valid() && t < |s.counts| && h !in s.handles && (it.Some? ==> it.value in s.refs)
      modifies this
      ensures Valid() && owners == if it.Some? then old(owners)[OfHandle(h) := it.value] else old(owners)
      ensures s == (if it.Some? then IncRef(old(s), t, it.value) else old(s)).(
                handles := old(s.handles)[h := if it.Some? then Plain(it.value) else Empty])
    {
      ghost var s0 := s;
      var s' := s.(handles := s.handles[h := if it.Some? then Plain(it.value) else Empty]);
      if it.Some? {
        s' := IncRef(s', t, it.value);
        AcquireOk(s0, owners, s', t, it.value, h);
        owners := owners[OfHandle(h) := it.value];
      } else {
        forall k ensures Waits(s', k) { assert Waits(s0, k); }
        KeepOk(s0, owners, s');
      }
      s := s';
    }

    /** A new item with a handle to it. */
    method Allocate(t: Tid, x: Item, h: Id)
      requires Valid() && t < |s.counts| && h !in s.handles && x !in s.refs
      modifies this
      ensures Valid() && owners == old(owners)[OfHandle(h) := x]
      ensures s == old(s).(refs := old(s.refs)[x := 1], counts := Adjusted(old(s.counts), t, 1), handles := old(s.handles)[h := Plain(x)])
    {
      NewOk(s, owners, x);
      s := s.(refs := s.refs[x := 0]);
      Acquire(t, Some(x), h);
    }

    /** A handle that waits for an item that is being moved; the mover sets it. */
    method AcquireMoving(h: Id, c: Id)
      requires Valid() && h !in s.handles && c !in s.contexts
      modifies this
      ensures Valid() && owners == old(owners)
      ensures s == old(s).(handles := old(s.handles)[h := Waiting(c)],
                           contexts := old(s.contexts)[c := Context(NotReady, false, Some(h), true)])
    {
      var s' := s.(handles := s.handles[h := Waiting(c)], contexts := s.contexts[c := Context(NotReady, false, Some(h), true)]);
      forall k ensures Waits(s', k) { assert Waits(s, k); }
      KeepOk(s, owners, s');
      s := s';
    }

    /** Another handle to the item, by a reference of its own. */
    method Clone(t: Tid, h: Id, k: Id)
      requires Valid() && t < |s.counts| && h in s.handles && k !in s.handles && IsReady(s, s.handles[h])
      modifies this
      ensures Valid() && k in s.handles && s.handles[k] == (var x := Target(old(s), old(s.handles[h])); if x.Some? then Plain(x.value) else Empty)
      ensures owners == (var x := Target(old(s), old(s.handles[h])); if x.Some? then old(owners)[OfHandle(k) := x.value] else old(owners))
    {
      var x := Target(s, s.handles[h]);
      TargetOwned(s, owners, h);
      Acquire(t, x, k);
    }

    /** Moves what one handle holds to another that is empty. */
    method Move(h: Id, k: Id)
      requires Valid() && h in s.handles && h != k && (k in s.handles ==> s.handles[k] == Empty)
      modifies this
      ensures Valid() && s.refs == old(s.refs) && s.counts == old(s.counts)
      ensures s.handles == old(s.handles)[k := old(s.handles[h])][h := Empty]
      ensures owners == MoveOwners(old(owners), h, k, old(s.handles[h]))
    {
      var v := s.handles[h];
      var s' := Moved(s, h, k);
      MoveOk(s, owners, h, k);
      owners := if v.Plain? then (owners - {OfHandle(h)})[OfHandle(k) := v.item] else owners;
      s := s';
    }

    /** Releases what the handle holds. */
    method Reset(t: Tid, h: Id)
      requires Valid() && t < |s.counts| && h in s.handles
      modifies this
      ensures Valid() && s.handles == old(s.handles)[h := Empty] && Elsewhere(old(s.counts), s.counts, t)
      ensures s.raws == old(s.raws) && s.pending == old(s.pending) && s.children == old(s.children)
      ensures owners == ResetOwners(old(s), old(owners), h)
    {
      match s.handles[h]
      case Empty => assert s.handles[h := Empty] == s.handles;
      case Plain(_) => ResetPlain(t, h);
      case Waiting(_) => ResetWaiting(t, h);
    }

    method ResetPlain(t: Tid, h: Id)
      requires Valid() && t < |s.counts| && h in s.handles && s.handles[h].Plain?
      modifies this
      ensures Valid() && s.handles == old(s.handles)[h := Empty] && Elsewhere(old(s.counts), s.counts, t)
      ensures s.raws == old(s.raws) && s.pending == old(s.pending) && s.children == old(s.children)
      ensures owners == old(owners) - {OfHandle(h)}
    {
      ResetPlainOk(s, owners, t, h);
      s, owners := DecRef(s.(handles := s.handles[h := Empty]), t, s.handles[h].item), owners - {OfHandle(h)};
    }

    method ResetWaiting(t: Tid, h: Id)
      requires Valid() && t < |s.counts| && h in s.handles && s.handles[h].Waiting?
      modifies this
      ensures Valid() && s.handles == old(s.handles)[h := Empty] && s.counts == old(s.counts)
      ensures s.raws == old(s.raws) && s.pending == old(s.pending) && s.children == old(s.children)
      ensures owners == ResetOwners(old(s), old(owners), h)
    {
      ResetWaitingOk(s, owners, t, h);
      ResetWaitingKeeps(s, t, h);
      owners := ResetOwners(s, owners, h);
      s := ContextDropped(s.(handles := s.handles[h := Empty]), t, s.handles[h].ctx, false);
    }

    /** Move assignment: what the target held is released. */
    method Assign(t: Tid, h: Id, k: Id)
      requires Valid() && t < |s.counts| && h in s.handles && k in s.handles
      modifies this
      ensures Valid() && h in s.handles && k in s.handles && s.handles[k] == old(s.handles[h])
      ensures h != k ==> s.handles[h] == Empty && s.handles == old(s.handles)[k := old(s.handles[h])][h := Empty]
      ensures h != k ==> owners == MoveOwners(ResetOwners(old(s), old(owners), k), h, k, old(s.handles[h]))
      ensures h == k ==> s == old(s) && owners == old(owners)
    {
      if h != k {
        Reset(t, k);
        Move(h, k);
      }
    }

    /** Gives the item and its reference to the caller as a raw pointer. */
    method Release(t: Tid, h: Id, r: Id) returns (x: Option<Item>)
      requires Valid() && t < |s.counts| && h in s.handles && IsReady(s, s.handles[h]) && r !in s.raws
      modifies this
      ensures Valid() && s.handles == old(s.handles)[h := Empty] && s.refs == old(s.refs) && Elsewhere(old(s.counts), s.counts, t)
      ensures x == Target(old(s), old(s.handles[h]))
      ensures s.raws == if x.Some? then old(s.raws)[r := x.value] else old(s.raws)
      ensures owners == if x.Some? then (old(owners) - {Behind(h, old(s.handles[h]))})[OfRaw(r) := x.value] else old(owners)
    {
      var v := s.handles[h];
      x := Target(s, v);
      ghost var m := owners;
      TargetOwned(s, m, h);
      var s1 := Vacated(s, t, h);
      var s' := if x.Some? then s1.(raws := s.raws[r := x.value]) else s1;
      ReleaseOk(s, m, t, h, r);
      if x.Some? { m := (m - {Behind(h, v)})[OfRaw(r) := x.value]; }
      owners := m;
      LeftOk(s, s', m, h);
      s := Left(s', v);
    }

    /** Gives a raw pointer's reference back. */
    method ReleaseRaw(t: Tid, r: Id)
      requires Valid() && t < |s.counts| && r in s.raws
      modifies this
      ensures Valid() && owners == old(owners) - {OfRaw(r)} && Elsewhere(old(s.counts), s.counts, t)
      ensures s.raws == old(s.raws) - {r} && s.handles == old(s.handles) && s.contexts == old(s.contexts)
    {
      var x := s.raws[r];
      RawOk(s, owners, t, r);
      var s' := DecRef(s.(raws := s.raws - {r}), t, x);
      s, owners := s', owners - {OfRaw(r)};
    }

    /** Asks for a callback once the context is set; refused if it is set already. */
    method OnReady(c: Id) returns (queued: bool)
      requires Valid() && c in s.contexts
      modifies this
      ensures Valid() && owners == old(owners) && queued == (old(s.contexts[c]).slot == NotReady)
      ensures s == if queued then old(s).(contexts := old(s.contexts)[c := old(s.contexts[c]).(callback := true)]) else old(s)
    {
      queued := s.contexts[c].slot.NotReady?;
      if queued {
        var s' := s.(contexts := s.contexts[c := s.contexts[c].(callback := true)]);
        forall k ensures Waits(s', k) { assert Waits(s, k); }
        KeepOk(s, owners, s');
        s := s';
      }
    }

    /** Sets the context `c` to what `h` holds, on thread `t`.  The context takes the reference of the handle over,
        and a callback gets a clone; neither is counted on this thread. */
    method Set(t: Tid, c: Id, h: Id, p: Id) returns (x: Option<Item>)
      requires Valid() && t < |s.counts| && c in s.contexts && s.contexts[c].armed && s.contexts[c].slot == NotReady
      requires h in s.handles && IsReady(s, s.handles[h]) && p !in s.pending
      modifies this
      ensures Valid() && s.handles == old(s.handles)[h := Empty] && Elsewhere(old(s.counts), s.counts, t)
      ensures x == Target(old(s), old(s.handles[h])) && c in s.contexts && s.contexts[c] == old(s.contexts[c]).(slot := Ready(x))
      ensures owners == SetOwners(old(s), old(owners), c, h, p)
      ensures s.pending == if x.Some? && old(s.contexts[c]).callback then old(s.pending)[p := x.value] else old(s.pending)
    {
      var v := s.handles[h];
      x := Target(s, v);
      TargetOwned(s, owners, h);
      var s' := Filled(s, t, c, x);
      if s.contexts[c].callback && x.Some? {
        s' := IncRef(s', t, x.value);
        s' := s'.(counts := Adjusted(s'.counts, t, -1), pending := s.pending[p := x.value]);
      }
      s' := Vacated(s', t, h);
      SetOk(s, owners, t, c, h, p);
      LeftOk(s, s', SetOwners(s, owners, c, h, p), h);
      SetFacts(s, t, c, h, p);
      SetContexts(s, t, c, h, p);
      SetCounts(s, t, c, h, p);
      owners := SetOwners(s, owners, c, h, p);
      s := Left(s', v);
    }

    /** The setter is done with the context. */
    method DropSetter(t: Tid, c: Id)
      requires Valid() && t < |s.counts| && c in s.contexts
      modifies this
      ensures Valid() && s.handles == old(s.handles) && s.counts == old(s.counts)
      ensures owners == if old(s.contexts[c]).holder.Some? then old(owners) else old(owners) - {OfContext(c)}
    {
      ContextDroppedOk(s, owners, t, c, true);
      assert Adjusted(Adjusted(s.counts, t, 1), t, -1) == s.counts;
      var s' := ContextDropped(s, t, c, true);
      owners := if s.contexts[c].holder.Some? then owners else owners - {OfContext(c)};
      s := s';
    }

    /** The deferred adjustment: from now on the handle given to the callback is counted, on thread `t`. */
    method RunDeferred(t: Tid, p: Id, h: Id)
      requires Valid() && t < |s.counts| && p in s.pending && h !in s.handles
      modifies this
      ensures Valid() && s.handles == old(s.handles)[h := Plain(old(s.pending[p]))] && s.pending == old(s.pending) - {p}
      ensures owners == (old(owners) - {OfPending(p)})[OfHandle(h) := old(s.pending[p])] && Elsewhere(old(s.counts), s.counts, t)
    {
      var x := s.pending[p];
      var s' := s.(counts := Adjusted(s.counts, t, 1), pending := s.pending - {p}, handles := s.handles[h := Plain(x)]);
      DeferredOk(s, owners, t, p, h);
      s, owners := s', (owners - {OfPending(p)})[OfHandle(h) := x];
    }

    /** A child that is linked to its parent gets a reference that is not counted. */
    method LinkChild(x: Item)
      requires Valid() && x in s.refs && x !in s.children
      modifies this
      ensures Valid() && owners == old(owners)[OfParent(x) := x]
      ensures s == old(s).(refs := old(s.refs)[x := old(s.refs[x]) + 1], children := old(s.children) + {x})
    {
      LinkChildOk(s, owners, x);
      s, owners := s.(refs := s.refs[x := s.refs[x] + 1], children := s.children + {x}), owners[OfParent(x) := x];
    }

    /** A child that leaves its parent loses that reference. */
    method UnlinkChild(x: Item)
      requires Valid() && x in s.children
      modifies this
      ensures Valid() && owners == old(owners) - {OfParent(x)} && x in old(s.refs) && old(s.refs[x]) > 0
      ensures s == old(s).(refs := old(s.refs)[x := old(s.refs[x]) - 1], children := old(s.children) - {x})
    {
      UnlinkChildOk(s, owners, x);
      s, owners := s.(refs := s.refs[x := s.refs[x] - 1], children := s.children - {x}), owners - {OfParent(x)};
    }

    /** Property: over any run, whichever thread does what, the accounts stay right. */
    method Run(ops: seq<Op>)
      requires Valid()
      modifies this
      ensures Valid()
    {
      for i := 0 to |ops|
        invariant Valid()
      {
        if Enabled(s, ops[i]) { Do(ops[i]); }
      }
    }

    method Do(op: Op)
      requires Valid() && Enabled(s, op)
      modifies this
      ensures Valid()
    {
      match op {
        case DoAllocate(t, x, h) => Allocate(t, x, h);
        case DoAcquire(t, x, h) => Acquire(t, x, h);
        case DoAcquireMoving(h, c) => AcquireMoving(h, c);
        case DoClone(t, h, k) => Clone(t, h, k);
        case DoMove(h, k) => Move(h, k);
        case DoAssign(t, h, k) => Assign(t, h, k);
        case DoReset(t, h) => Reset(t, h);
        case DoRelease(t, h, r) => var _ := Release(t, h, r);
        case DoReleaseRaw(t, r) => ReleaseRaw(t, r);
        case DoOnReady(c) => var _ := OnReady(c);
        case DoSet(t, c, h, p) => var _ := Set(t, c, h, p);
        case DoDropSetter(t, c) => DropSetter(t, c);
        case DoRunDeferred(t, p, h) => RunDeferred(t, p, h);
        case DoLinkChild(x) => LinkChild(x);
        case DoUnlinkChild(x) => UnlinkChild(x);
      }
    }
  }

  // ---- why the operations keep the accounts

  ghost predicate Elsewhere(c: seq<int>, c': seq<int>, t: Tid) {
    |c'| == |c| && forall u | 0 <= u < |c| && u != t :: c'[u] == c[u]
  }

  lemma NewOk(s: Store, m: Owners, x: Item)
    requires Ok(s, m) && x !in s.refs
    ensures Ok(s.(refs := s.refs[x := 0]), m)
  {
    var s' := s.(refs := s.refs[x := 0]);
    assert Of(m, x) == {};
    forall k ensures Waits(s', k) { assert Waits(s, k); }
    assert forall o :: Held(s', o) == Held(s, o);
  }

  lemma TargetOwned(s: Store, m: Owners, h: Id)
    requires Ok(s, m) && h in s.handles && IsReady(s, s.handles[h])
    ensures var x := Target(s, s.handles[h]);
            x.Some? ==> Behind(h, s.handles[h]) in m && m[Behind(h, s.handles[h])] == x.value && x.value in s.refs && s.refs[x.value] > 0
  {
    var o := Behind(h, s.handles[h]);
    assert Held(s, o) == Target(s, s.handles[h]);
    if o in m { OwnedPositive(s, m, o); }
  }

  function Moved(s: Store, h: Id, k: Id): Store
    requires h in s.handles
  {
    var v := s.handles[h];
    s.(handles := s.handles[k := v][h := Empty],
       contexts := if v.Waiting? && v.ctx in s.contexts then s.contexts[v.ctx := s.contexts[v.ctx].(holder := Some(k))] else s.contexts)
  }

  lemma MoveOk(s: Store, m: Owners, h: Id, k: Id)
    requires Ok(s, m) && h in s.handles && h != k && (k in s.handles ==> s.handles[k] == Empty)
    ensures Ok(Moved(s, h, k), if s.handles[h].Plain? then (m - {OfHandle(h)})[OfHandle(k) := s.handles[h].item] else m)
  {
    MovedWaits(s, h, k);
    if s.handles[h].Plain? { MovePlainOk(s, m, h, k); } else { KeepOk(s, m, Moved(s, h, k)); }
  }

  lemma MovedWaits(s: Store, h: Id, k: Id)
    requires WaitOk(s) && h in s.handles && h != k && (k in s.handles ==> s.handles[k] == Empty)
    ensures WaitOk(Moved(s, h, k))
  {
    var s' := Moved(s, h, k);
    forall j ensures Waits(s', j) { assert Waits(s, j) && Waits(s, h); }
  }

  lemma MovePlainOk(s: Store, m: Owners, h: Id, k: Id)
    requires Ok(s, m) && h in s.handles && h != k && (k in s.handles ==> s.handles[k] == Empty)
    requires s.handles[h].Plain? && WaitOk(Moved(s, h, k))
    ensures Ok(Moved(s, h, k), (m - {OfHandle(h)})[OfHandle(k) := s.handles[h].item])
  {
    assert Held(s, OfHandle(h)) == Some(s.handles[h].item) && Held(s, OfHandle(k)) == None;
    PassOk(s, m, Moved(s, h, k), OfHandle(h), OfHandle(k));
  }

  lemma LinkChildOk(s: Store, m: Owners, x: Item)
    requires Ok(s, m) && x in s.refs && x !in s.children
    ensures Ok(s.(refs := s.refs[x := s.refs[x] + 1], children := s.children + {x}), m[OfParent(x) := x])
  {
    var s' := s.(refs := s.refs[x := s.refs[x] + 1], children := s.children + {x});
    assert Held(s, OfParent(x)) == None;
    forall k ensures Waits(s', k) { assert Waits(s, k); }
    GainOk(s, m, s', OfParent(x), x);
  }

  lemma UnlinkChildOk(s: Store, m: Owners, x: Item)
    requires Ok(s, m) && x in s.children
    ensures x in s.refs && s.refs[x] > 0
    ensures Ok(s.(refs := s.refs[x := s.refs[x] - 1], children := s.children - {x}), m - {OfParent(x)})
  {
    assert Held(s, OfParent(x)) == Some(x);
    OwnedPositive(s, m, OfParent(x));
    var s' := s.(refs := s.refs[x := s.refs[x] - 1], children := s.children - {x});
    forall k ensures Waits(s', k) { assert Waits(s, k); }
    LoseOk(s, m, s', OfParent(x));
  }

  lemma ResetPlainOk(s: Store, m: Owners, t: Tid, h: Id)
    requires Ok(s, m) && t < |s.counts| && h in s.handles && s.handles[h].Plain?
    ensures var x := s.handles[h].item;
            x in s.refs && s.refs[x] > 0 && Ok(DecRef(s.(handles := s.handles[h := Empty]), t, x), m - {OfHandle(h)})
  {
    TargetOwned(s, m, h);
    var s' := DecRef(s.(handles := s.handles[h := Empty]), t, s.handles[h].item);
    SumUpdate(s.counts, t, -1);
    forall k ensures Waits(s', k) { assert Waits(s, k); }
    LoseOk(s, m, s', OfHandle(h));
  }

  lemma UnhandOk(s: Store, m: Owners, h: Id)
    requires Ok(s, m) && h in s.handles && s.handles[h].Waiting?
    ensures var s' := s.(handles := s.handles[h := Empty]);
            Ok(s', m) && s.handles[h].ctx in s.contexts && s.contexts[s.handles[h].ctx].holder == Some(h) && NobodyWaits(s', s.handles[h].ctx)
  {
    var s' := s.(handles := s.handles[h := Empty]);
    assert Waits(s, h);
    forall k ensures Waits(s', k) { assert Waits(s, k); }
    UniqueWait(s, s', h);
    KeepOk(s, m, s');
  }

  lemma ResetWaitingOk(s: Store, m: Owners, t: Tid, h: Id)
    requires Ok(s, m) && t < |s.counts| && h in s.handles && s.handles[h].Waiting?
    ensures var s1, c := s.(handles := s.handles[h := Empty]), s.handles[h].ctx;
            && c in s.contexts && (forall x | Held(s1, OfContext(c)) == Some(x) :: x in s1.refs && s1.refs[x] > 0)
            && Ok(ContextDropped(s1, t, c, false), ResetOwners(s, m, h))
  {
    UnhandOk(s, m, h);
    var s1, c := s.(handles := s.handles[h := Empty]), s.handles[h].ctx;
    ContextDroppedOk(s1, m, t, c, false);
  }

  lemma ResetWaitingKeeps(s: Store, t: Tid, h: Id)
    requires t < |s.counts| && h in s.handles && s.handles[h].Waiting? && s.handles[h].ctx in s.contexts
    requires var s1, c := s.(handles := s.handles[h := Empty]), s.handles[h].ctx;
             forall x | Held(s1, OfContext(c)) == Some(x) :: x in s1.refs && s1.refs[x] > 0
    ensures var s' := ContextDropped(s.(handles := s.handles[h := Empty]), t, s.handles[h].ctx, false);
            && s'.handles == s.handles[h := Empty] && s'.counts == s.counts
            && s'.raws == s.raws && s'.pending == s.pending && s'.children == s.children
  {
    AdjustedBack(s.counts, t);
  }

  lemma UniqueWait(s: Store, s': Store, h: Id)
    requires WaitOk(s) && h in s.handles && s.handles[h].Waiting? && s'.handles == s.handles[h := Empty]
    ensures s.handles[h].ctx in s.contexts && NobodyWaits(s', s.handles[h].ctx)
  {
    assert Waits(s, h);
    forall k | k in s'.handles ensures s'.handles[k] != Waiting(s.handles[h].ctx) { assert Waits(s, k); }
  }

  /** The handle is empty, and if it had a context, that has given its item up and counted it. */
  function Vacated(s: Store, t: Tid, h: Id): Store
    requires t < |s.counts| && h in s.handles && IsReady(s, s.handles[h])
  {
    var v := s.handles[h];
    var s' := s.(handles := s.handles[h := Empty]);
    if !v.Waiting? then s'
    else
      s'.(contexts := s.contexts[v.ctx := s.contexts[v.ctx].(slot := Ready(None))],
          counts := if s.contexts[v.ctx].slot.item.Some? then Adjusted(s.counts, t, 1) else s.counts)
  }

  lemma VacatedWaits(s: Store, t: Tid, h: Id)
    requires WaitOk(s) && t < |s.counts| && h in s.handles && IsReady(s, s.handles[h])
    ensures WaitOk(Vacated(s, t, h))
  {
    var s' := Vacated(s, t, h);
    forall k ensures Waits(s', k) { assert Waits(s, k); }
  }

  lemma VacatedHolds(s: Store, t: Tid, h: Id)
    requires t < |s.counts| && h in s.handles && IsReady(s, s.handles[h])
    ensures var s', o := Vacated(s, t, h), Behind(h, s.handles[h]);
            Held(s', o) == None && Same(s, s', o, o) && (Target(s, s.handles[h]) == None ==> forall p {:trigger Held(s', p)} :: Held(s', p) == Held(s, p))
    ensures Sum(Vacated(s, t, h).counts) == Sum(s.counts) + One(s.handles[h].Waiting? && Target(s, s.handles[h]).Some?)
  {
    SumUpdate(s.counts, t, 1);
  }

  lemma ReleaseOk(s: Store, m: Owners, t: Tid, h: Id, r: Id)
    requires Ok(s, m) && t < |s.counts| && h in s.handles && IsReady(s, s.handles[h]) && r !in s.raws
    ensures var x := Target(s, s.handles[h]);
            if x.Some?
            then Ok(Vacated(s, t, h).(raws := s.raws[r := x.value]), (m - {Behind(h, s.handles[h])})[OfRaw(r) := x.value])
            else Ok(Vacated(s, t, h), m)
  {
    VacatedWaits(s, t, h);
    VacatedHolds(s, t, h);
    var x := Target(s, s.handles[h]);
    if x.Some? {
      TargetOwned(s, m, h);
      ReleaseSomeOk(s, m, Vacated(s, t, h), Behind(h, s.handles[h]), r, x.value);
    } else {
      KeepOk(s, m, Vacated(s, t, h));
    }
  }

  lemma ReleaseSomeOk(s: Store, m: Owners, s1: Store, o: Owner, r: Id, x: Item)
    requires Ok(s, m) && r !in s.raws && o in m && m[o] == x && (o.OfHandle? || o.OfContext?) && WaitOk(s1)
    requires Held(s1, o) == None && Same(s, s1, o, o) && s1.refs == s.refs && s1.raws == s.raws && Sum(s1.counts) == Sum(s.counts) + One(o.OfContext?)
    ensures Ok(s1.(raws := s.raws[r := x]), (m - {o})[OfRaw(r) := x])
  {
    var s' := s1.(raws := s.raws[r := x]);
    forall k ensures Waits(s', k) { assert Waits(s1, k); }
    assert Held(s, OfRaw(r)) == None;
    forall p | p != o && p != OfRaw(r) ensures Held(s', p) == Held(s, p) { assert Held(s1, p) == Held(s, p); }
    assert Held(s', o) == Held(s1, o);
    PassOk(s, m, s', o, OfRaw(r));
  }

  /** The context has its item, and the setting thread counts one handle less. */
  function Filled(s: Store, t: Tid, c: Id, x: Option<Item>): Store
    requires t < |s.counts| && c in s.contexts
  {
    s.(contexts := s.contexts[c := s.contexts[c].(slot := Ready(x))], counts := if x.Some? then Adjusted(s.counts, t, -1) else s.counts)
  }

  function Handed(s: Store, t: Tid, c: Id, h: Id): Store
    requires t < |s.counts| && c in s.contexts && h in s.handles && IsReady(s, s.handles[h])
  {
    Vacated(Filled(s, t, c, Target(s, s.handles[h])), t, h)
  }

  lemma HandedHolds(s: Store, t: Tid, c: Id, h: Id)
    requires t < |s.counts| && c in s.contexts && s.contexts[c].slot == NotReady && h in s.handles && IsReady(s, s.handles[h])
    ensures var s', o, x := Handed(s, t, c, h), Behind(h, s.handles[h]), Target(s, s.handles[h]);
            && Held(s', o) == None && Held(s', OfContext(c)) == x && Same(s, s', o, OfContext(c))
            && (x.None? ==> Held(s, o) == None)
    ensures Sum(Handed(s, t, c, h).counts) == Sum(s.counts) - One(!s.handles[h].Waiting? && Target(s, s.handles[h]).Some?)
  {
    var s1 := Filled(s, t, c, Target(s, s.handles[h]));
    VacatedHolds(s1, t, h);
    SumUpdate(s.counts, t, -1);
    forall p | p != OfContext(c) ensures Held(s1, p) == Held(s, p) {}
  }

  lemma HandedWaits(s: Store, t: Tid, c: Id, h: Id)
    requires WaitOk(s) && t < |s.counts| && c in s.contexts && s.contexts[c].slot == NotReady && h in s.handles && IsReady(s, s.handles[h])
    ensures WaitOk(Handed(s, t, c, h))
  {
    var s1 := Filled(s, t, c, Target(s, s.handles[h]));
    forall k ensures Waits(s1, k) { assert Waits(s, k); }
    VacatedWaits(s1, t, h);
  }

  lemma HandedOk(s: Store, m: Owners, t: Tid, c: Id, h: Id)
    requires Ok(s, m) && t < |s.counts| && c in s.contexts && s.contexts[c].slot == NotReady && h in s.handles && IsReady(s, s.handles[h])
    ensures var x := Target(s, s.handles[h]);
            Ok(Handed(s, t, c, h), if x.Some? then (m - {Behind(h, s.handles[h])})[OfContext(c) := x.value] else m)
  {
    HandedHolds(s, t, c, h);
    HandedWaits(s, t, c, h);
    assert Held(s, OfContext(c)) == None;
    if Target(s, s.handles[h]).Some? {
      TargetOwned(s, m, h);
      PassOk(s, m, Handed(s, t, c, h), Behind(h, s.handles[h]), OfContext(c));
    } else {
      KeepOk(s, m, Handed(s, t, c, h));
    }
  }

  lemma PendingOk(s: Store, m: Owners, p: Id, x: Item)
    requires Ok(s, m) && p !in s.pending && x in s.refs
    ensures Ok(CalledBack(s, p, x), m[OfPending(p) := x])
  {
    var s' := CalledBack(s, p, x);
    assert Held(s, OfPending(p)) == None;
    forall k ensures Waits(s', k) { assert Waits(s, k); }
    GainOk(s, m, s', OfPending(p), x);
  }

  predicate CanSet(s: Store, t: Tid, c: Id, h: Id, p: Id) {
    && t < |s.counts| && c in s.contexts && s.contexts[c].slot == NotReady && h in s.handles && IsReady(s, s.handles[h]) && p !in s.pending
    && (Target(s, s.handles[h]).Some? ==> Target(s, s.handles[h]).value in s.refs)
  }

  /** The context takes over what was behind the handle; a callback gets a reference of its own. */
  function SetOwners(s: Store, m: Owners, c: Id, h: Id, p: Id): Owners
    requires c in s.contexts && h in s.handles
  {
    match Target(s, s.handles[h])
    case None => m
    case Some(x) =>
      var m' := (m - {Behind(h, s.handles[h])})[OfContext(c) := x];
      if s.contexts[c].callback then m'[OfPending(p) := x] else m'
  }

  /** The store before the handle gives up its share of a context of its own. */
  function SetStore(s: Store, t: Tid, c: Id, h: Id, p: Id): Store
    requires CanSet(s, t, c, h, p)
  {
    var x := Target(s, s.handles[h]);
    var s1 := Filled(s, t, c, x);
    if s.contexts[c].callback && x.Some?
    then
      var s2 := IncRef(s1, t, x.value);
      Vacated(s2.(counts := Adjusted(s2.counts, t, -1), pending := s.pending[p := x.value]), t, h)
    else Vacated(s1, t, h)
  }

  lemma AdjustedBack(c: seq<int>, t: Tid)
    requires t < |c|
    ensures Adjusted(Adjusted(c, t, 1), t, -1) == c
  {}

  /** A callback's reference comes on top of the handing over; the setting thread's count goes up and down for it. */
  function CalledBack(s: Store, p: Id, x: Item): Store
    requires x in s.refs
  {
    s.(refs := s.refs[x := s.refs[x] + 1], pending := s.pending[p := x])
  }

  lemma SetStoreCalledBack(s: Store, t: Tid, c: Id, h: Id, p: Id, x: Item)
    requires CanSet(s, t, c, h, p) && Target(s, s.handles[h]) == Some(x) && s.contexts[c].callback
    ensures p !in Handed(s, t, c, h).pending && x in Handed(s, t, c, h).refs
    ensures SetStore(s, t, c, h, p) == CalledBack(Handed(s, t, c, h), p, x)
  {
    AdjustedBack(Filled(s, t, c, Some(x)).counts, t);
  }

  lemma SetOk(s: Store, m: Owners, t: Tid, c: Id, h: Id, p: Id)
    requires Ok(s, m) && CanSet(s, t, c, h, p)
    ensures Ok(SetStore(s, t, c, h, p), SetOwners(s, m, c, h, p))
  {
    HandedOk(s, m, t, c, h);
    var x := Target(s, s.handles[h]);
    if s.contexts[c].callback && x.Some? {
      SetStoreCalledBack(s, t, c, h, p, x.value);
      PendingOk(Handed(s, t, c, h), (m - {Behind(h, s.handles[h])})[OfContext(c) := x.value], p, x.value);
    }
  }

  lemma SetCounts(s: Store, t: Tid, c: Id, h: Id, p: Id)
    requires CanSet(s, t, c, h, p)
    ensures Elsewhere(s.counts, SetStore(s, t, c, h, p).counts, t)
  {}

  lemma SetFacts(s: Store, t: Tid, c: Id, h: Id, p: Id)
    requires CanSet(s, t, c, h, p)
    ensures var s', x := SetStore(s, t, c, h, p), Target(s, s.handles[h]);
            && s'.handles == s.handles[h := Empty]
            && s'.pending == if x.Some? && s.contexts[c].callback then s.pending[p := x.value] else s.pending
  {}

  lemma SetContexts(s: Store, t: Tid, c: Id, h: Id, p: Id)
    requires CanSet(s, t, c, h, p)
    ensures var s', v, x := SetStore(s, t, c, h, p), s.handles[h], Target(s, s.handles[h]);
            && c in s'.contexts && s'.contexts[c] == s.contexts[c].(slot := Ready(x))
            && (v.Waiting? ==> v.ctx != c && v.ctx in s'.contexts)
  {}

  lemma DeferredOk(s: Store, m: Owners, t: Tid, p: Id, h: Id)
    requires Ok(s, m) && t < |s.counts| && p in s.pending && h !in s.handles
    ensures var x := s.pending[p];
            Ok(s.(counts := Adjusted(s.counts, t, 1), pending := s.pending - {p}, handles := s.handles[h := Plain(x)]), (m - {OfPending(p)})[OfHandle(h) := x])
  {
    var x := s.pending[p];
    var s' := s.(counts := Adjusted(s.counts, t, 1), pending := s.pending - {p}, handles := s.handles[h := Plain(x)]);
    assert Held(s, OfPending(p)) == Some(x) && Held(s, OfHandle(h)) == None;
    SumUpdate(s.counts, t, 1);
    forall k ensures Waits(s', k) { assert Waits(s, k); }
    PassOk(s, m, s', OfPending(p), OfHandle(h));
  }

  /** The handle has given up its share of the context, if it had one. */
  function Left(s: Store, v: Handle): Store
    requires v.Waiting? ==> v.ctx in s.contexts
  {
    if v.Waiting? then Unshared(s, v.ctx, false) else s
  }

  lemma LeftOk(s: Store, s': Store, m: Owners, h: Id)
    requires WaitOk(s) && h in s.handles && s'.handles == s.handles[h := Empty] && Ok(s', m)
    requires s.handles[h].Waiting? ==> s.handles[h].ctx in s'.contexts && s'.contexts[s.handles[h].ctx].slot == Ready(None)
    ensures Ok(Left(s', s.handles[h]), m)
  {
    var v := s.handles[h];
    if v.Waiting? {
      UniqueWait(s, s', h);
      assert Held(s', OfContext(v.ctx)) == None;
      UnsharedOk(s', m, v.ctx, false);
    }
  }

  lemma RawOk(s: Store, m: Owners, t: Tid, r: Id)
    requires Ok(s, m) && t < |s.counts| && r in s.raws
    ensures var x := s.raws[r];
            x in s.refs && s.refs[x] > 0 && Ok(DecRef(s.(raws := s.raws - {r}), t, x), m - {OfRaw(r)})
  {
    assert Held(s, OfRaw(r)) == Some(s.raws[r]);
    OwnedPositive(s, m, OfRaw(r));
    var s' := DecRef(s.(raws := s.raws - {r}), t, s.raws[r]);
    SumUpdate(s.counts, t, -1);
    forall k ensures Waits(s', k) { assert Waits(s, k); }
    LoseOk(s, m, s', OfRaw(r));
  }

  lemma AcquireOk(s: Store, m: Owners, s': Store, t: Tid, x: Item, h: Id)
    requires Ok(s, m) && t < |s.counts| && h !in s.handles && x in s.refs
    requires s' == IncRef(s.(handles := s.handles[h := Plain(x)]), t, x)
    ensures Ok(s', m[OfHandle(h) := x])
  {
    SumUpdate(s.counts, t, 1);
    AcquireHolds(s, s', t, x, h);
    GainOk(s, m, s', OfHandle(h), x);
  }

  lemma AcquireHolds(s: Store, s': Store, t: Tid, x: Item, h: Id)
    requires WaitOk(s) && t < |s.counts| && h !in s.handles && x in s.refs
    requires s' == IncRef(s.(handles := s.handles[h := Plain(x)]), t, x)
    ensures Held(s, OfHandle(h)) == None && Held(s', OfHandle(h)) == Some(x) && Same(s, s', OfHandle(h), OfHandle(h)) && WaitOk(s')
  {
    forall k ensures Waits(s', k) { assert Waits(s, k); }
  }

  lemma {:induction false} ZeroSum(n: nat)
    ensures Sum(seq(n, i => 0)) == 0
  {
    if n > 0 {
      ZeroSum(n - 1);
      assert seq(n, i => 0)[..n - 1] == seq(n - 1, i => 0);
    }
  }
}
