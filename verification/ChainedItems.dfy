/** Chained items: every parent has a stack of children, linked through next pointers, whose head alone is in a
    secondary hash table under the parent as key. */
module ChainedItems {
  import opened Chains
  import opened Options
  import opened Sequences

  datatype Item = Item(id: nat)

  /** The secondary table (parent to head), the links and keys of the chained items, the parents' HasChainedItem
      bits, the items in MM containers, the reference counts and the two counters.  `freed` logs what was given
      back to the memory allocator. */
  datatype Store = Store(
    heads: map<Item, Item>,
    next: Links<Item>,
    parentOf: map<Item, Item>,
    flagged: set<Item>,
    inMM: set<Item>,
    refs: map<Item, nat>,
    numParents: int,
    numChildren: int,
    freed: seq<Item>)

  /** The stacks that a store stands for: parent to children, newest first; parents without children are absent. */
  type Stacks = map<Item, seq<Item>>

  function Stack(m: Stacks, p: Item): seq<Item> { if p in m then m[p] else [] }

  function Pushed(m: Stacks, p: Item, c: Item): Stacks { m[p := [c] + Stack(m, p)] }

  function Popped(m: Stacks, p: Item): Stacks
    requires p in m && m[p] != []
  {
    if |m[p]| == 1 then m - {p} else m[p := m[p][1..]]
  }

  function Swapped(m: Stacks, p: Item, x: Item, y: Item): Stacks
    requires p in m
  {
    m[p := Replaced(m[p], x, y)]
  }

  function Moved(m: Stacks, p: Item, n: Item): Stacks
    requires p in m
  {
    (m - {p})[n := m[p]]
  }

  /** Popping undoes pushing. */
  lemma PopUndoesPush(m: Stacks, p: Item, c: Item)
    requires forall q | q in m :: m[q] != []
    ensures Pushed(m, p, c)[p][0] == c && Popped(Pushed(m, p, c), p) == m
  {
    if p in m { assert ([c] + m[p])[1..] == m[p]; }
  }

  /** The stack of `p` is the chain that the table and the links give; its members are children of `p`. */
  ghost predicate StackOk(s: Store, m: Stacks, p: Item)
    requires p in m
  {
    && p in s.heads && m[p] != [] && Chain(Some(s.heads[p]), s.next, m[p])
    && forall c {:trigger c in m[p]} | c in m[p] :: Child(s, p, c)
  }

  predicate Child(s: Store, p: Item, c: Item) {
    c in s.parentOf && s.parentOf[c] == p && c in s.inMM && c in s.refs && s.refs[c] > 0
  }

  /** `c` is linked to a parent. */
  predicate Linked(s: Store, m: Stacks, c: Item) { c in s.parentOf && s.parentOf[c] in m && c in m[s.parentOf[c]] }

  /** Table, flags and links agree with the stacks. */
  ghost predicate ShapeOk(s: Store, m: Stacks) {
    && s.heads.Keys == m.Keys && s.flagged == m.Keys
    && forall p {:trigger StackOk(s, m, p)} | p in m :: StackOk(s, m, p)
  }

  /** `kids` are the linked children, and no other chained item is in an MM container. */
  ghost predicate KidsOk(s: Store, m: Stacks, kids: set<Item>) {
    && (forall c {:trigger c in kids} {:trigger Linked(s, m, c)} :: c in kids <==> Linked(s, m, c))
    && (forall c {:trigger c in s.inMM} | c in s.parentOf && c in s.inMM :: Linked(s, m, c))
  }

  /** The store stands for the stacks `m`, with the linked children `kids`, and both counters are right. */
  ghost predicate Ok(s: Store, m: Stacks, kids: set<Item>) {
    ShapeOk(s, m) && KidsOk(s, m, kids) && s.numParents == |m| && s.numChildren == |kids|
  }

  // ---- what the operations do to the store

  /** A change that leaves the chain of `q` alone. */
  lemma StackKeep(s: Store, m: Stacks, s': Store, m': Stacks, q: Item)
    requires q in m && q in m' && m'[q] == m[q] && StackOk(s, m, q) && q in s'.heads && s'.heads[q] == s.heads[q]
    requires forall c {:trigger c in m[q]} | c in m[q] && Child(s, q, c) ::
               Child(s', q, c) && (c in s.next ==> c in s'.next && s'.next[c] == s.next[c])
    ensures StackOk(s', m', q)
  {
    assert forall c | c in m[q] :: c in s.next;
    ChainKeep(Some(s.heads[q]), s.next, s'.next, m[q]);
  }

  function Added(s: Store, p: Item, c: Item): Store {
    s.(heads := s.heads[p := c],
       next := if p in s.heads then s.next[c := Some(s.heads[p])] else s.next,
       flagged := s.flagged + {p}, inMM := s.inMM + {c},
       numParents := if p in s.flagged then s.numParents else s.numParents + 1,
       numChildren := s.numChildren + 1)
  }

  /** A child that was allocated for `p` and has not been linked. */
  predicate Loose(s: Store, p: Item, c: Item) {
    c in s.parentOf && s.parentOf[c] == p && c !in s.inMM && c in s.refs && s.refs[c] > 0 && c in s.next && s.next[c] == None
  }

  lemma AddStack(s: Store, m: Stacks, kids: set<Item>, p: Item, c: Item)
    requires Ok(s, m, kids) && Loose(s, p, c)
    ensures StackOk(Added(s, p, c), Pushed(m, p, c), p)
  {
    var s', m' := Added(s, p, c), Pushed(m, p, c);
    if p in m {
      assert StackOk(s, m, p);
      ChainHead(Some(s.heads[p]), s.next, m[p], c);
      forall d | d in m'[p] ensures Child(s', p, d) { assert d == c || d in m[p]; }
    } else {
      assert m'[p] == [c];
    }
  }

  lemma AddShape(s: Store, m: Stacks, kids: set<Item>, p: Item, c: Item)
    requires Ok(s, m, kids) && Loose(s, p, c)
    ensures ShapeOk(Added(s, p, c), Pushed(m, p, c)) && c !in kids
  {
    var s', m' := Added(s, p, c), Pushed(m, p, c);
    AddStack(s, m, kids, p, c);
    forall q | q in m' ensures StackOk(s', m', q) {
      if q != p { assert StackOk(s, m, q); StackKeep(s, m, s', m', q); }
    }
    if p in m { assert StackOk(s, m, p); }
    assert !Linked(s, m, c);
  }

  lemma AddKids(s: Store, m: Stacks, kids: set<Item>, p: Item, c: Item)
    requires KidsOk(s, m, kids) && Loose(s, p, c)
    ensures KidsOk(Added(s, p, c), Pushed(m, p, c), kids + {c})
  {
    var s', m' := Added(s, p, c), Pushed(m, p, c);
    forall d ensures Linked(s', m', d) <==> Linked(s, m, d) || d == c {}
  }

  lemma AddOk(s: Store, m: Stacks, kids: set<Item>, p: Item, c: Item)
    requires Ok(s, m, kids) && Loose(s, p, c)
    ensures Ok(Added(s, p, c), Pushed(m, p, c), kids + {c})
  {
    AddShape(s, m, kids, p, c);
    AddKids(s, m, kids, p, c);
    assert Pushed(m, p, c).Keys == m.Keys + {p};
  }

  function Removed(s: Store, p: Item): Store
    requires p in s.heads && s.heads[p] in s.next
  {
    var h := s.heads[p];
    var s1 := s.(next := s.next[h := None], inMM := s.inMM - {h}, numChildren := s.numChildren - 1);
    match s.next[h]
    case Some(n) => s1.(heads := s.heads[p := n])
    case None => s1.(heads := s.heads - {p}, flagged := s.flagged - {p}, numParents := s.numParents - 1)
  }

  lemma PopStack(s: Store, m: Stacks, kids: set<Item>, p: Item)
    requires Ok(s, m, kids) && p in m && |m[p]| > 1
    ensures p in s.heads && s.heads[p] in s.next && StackOk(Removed(s, p), Popped(m, p), p)
  {
    assert StackOk(s, m, p);
    var s', m', c := Removed(s, p), Popped(m, p), m[p];
    ChainRest(Some(s.heads[p]), s.next, c);
    ChainKeep(s.next[c[0]], s.next, s'.next, c[1..]);
    assert forall d | d in c[1..] :: d in c;
    forall d | d in m'[p] ensures Child(s', p, d) { assert d in c && d != c[0]; }
  }

  lemma PopShape(s: Store, m: Stacks, kids: set<Item>, p: Item)
    requires Ok(s, m, kids) && p in m && m[p] != []
    ensures p in s.heads && s.heads[p] == m[p][0] && s.heads[p] in s.next
    ensures ShapeOk(Removed(s, p), Popped(m, p)) && Loose(Removed(s, p), p, m[p][0])
  {
    assert StackOk(s, m, p);
    var s', m' := Removed(s, p), Popped(m, p);
    assert m[p][0] in m[p] && Child(s, p, m[p][0]);
    if |m[p]| > 1 { PopStack(s, m, kids, p); }
    forall q | q in m' ensures StackOk(s', m', q) {
      if q != p { assert StackOk(s, m, q); StackKeep(s, m, s', m', q); }
    }
  }

  lemma PopKids(s: Store, m: Stacks, kids: set<Item>, p: Item)
    requires KidsOk(s, m, kids) && p in m && StackOk(s, m, p)
    ensures p in s.heads && s.heads[p] in s.next && m[p][0] in kids && KidsOk(Removed(s, p), Popped(m, p), kids - {m[p][0]})
  {
    var s', m', h := Removed(s, p), Popped(m, p), m[p][0];
    assert h in m[p] && Child(s, p, h);
    assert m[p] == [h] + m[p][1..];
    assert h !in m[p][1..];
    forall d ensures Linked(s', m', d) <==> Linked(s, m, d) && d != h {}
  }

  lemma PopOk(s: Store, m: Stacks, kids: set<Item>, p: Item)
    requires Ok(s, m, kids) && p in m && m[p] != []
    ensures p in s.heads && s.heads[p] == m[p][0] && s.heads[p] in s.next
    ensures Ok(Removed(s, p), Popped(m, p), kids - {m[p][0]}) && Loose(Removed(s, p), p, m[p][0])
  {
    PopShape(s, m, kids, p);
    assert StackOk(s, m, p);
    PopKids(s, m, kids, p);
    assert (m - {p}).Keys == m.Keys - {p} && p in m.Keys;
    if |m[p]| > 1 { assert Popped(m, p).Keys == m.Keys; }
  }

  /** `y` takes the place of `x` at position `i` of the stack of `p`. */
  function Exchanged(s: Store, m: Stacks, p: Item, i: nat, y: Item): Store
    requires p in m && i < |m[p]| && m[p][i] in s.next
  {
    var x := m[p][i];
    var next1 := if i > 0 then s.next[m[p][i - 1] := Some(y)] else s.next;
    s.(heads := if i > 0 then s.heads else s.heads[p := y],
       next := next1[y := s.next[x]][x := None],
       inMM := s.inMM - {x} + {y})
  }

  lemma SwapStack(s: Store, m: Stacks, kids: set<Item>, p: Item, i: nat, y: Item)
    requires Ok(s, m, kids) && p in m && i < |m[p]| && y in s.parentOf && s.parentOf[y] == p && y !in s.inMM
    requires y in s.refs && s.refs[y] > 0
    ensures m[p][i] in s.next && StackOk(Exchanged(s, m, p, i, y), m[p := m[p][i := y]], p)
  {
    assert StackOk(s, m, p);
    var c, x := m[p], m[p][i];
    assert x in c && y !in c;
    var s', m' := Exchanged(s, m, p, i, y), m[p := c[i := y]];
    ChainSwap(Some(s.heads[p]), s.next, c, i, y);
    var next1 := if i > 0 then s.next[c[i - 1] := Some(y)] else s.next;
    assert i > 0 ==> c[i - 1] != x;
    assert next1[c[i]] == s.next[x];
    forall d | d in c[i := y] ensures d != x && Child(s', p, d) {
      var j :| 0 <= j < |c| && c[i := y][j] == d;
      assert c[j] in c && Child(s, p, c[j]);
      assert j != i ==> c[j] != x;
    }
    ChainKeep(Some(s'.heads[p]), next1[y := next1[c[i]]], s'.next, c[i := y]);
  }

  lemma SwapShape(s: Store, m: Stacks, kids: set<Item>, p: Item, i: nat, y: Item)
    requires Ok(s, m, kids) && p in m && i < |m[p]| && y in s.parentOf && s.parentOf[y] == p && y !in s.inMM
    requires y in s.refs && s.refs[y] > 0
    ensures m[p][i] in s.next && ShapeOk(Exchanged(s, m, p, i, y), m[p := m[p][i := y]])
  {
    SwapStack(s, m, kids, p, i, y);
    var s', m' := Exchanged(s, m, p, i, y), m[p := m[p][i := y]];
    assert StackOk(s, m, p);
    assert m[p][i] in m[p] && (i > 0 ==> m[p][i - 1] in m[p]);
    forall q | q in m' ensures StackOk(s', m', q) {
      if q != p { assert StackOk(s, m, q); StackKeep(s, m, s', m', q); }
    }
  }

  lemma SwapKids(s: Store, m: Stacks, kids: set<Item>, p: Item, i: nat, y: Item)
    requires KidsOk(s, m, kids) && p in m && StackOk(s, m, p) && i < |m[p]| && y in s.parentOf && s.parentOf[y] == p && y !in s.inMM
    ensures m[p][i] in s.next && m[p][i] in kids && y !in kids
    ensures KidsOk(Exchanged(s, m, p, i, y), m[p := m[p][i := y]], kids - {m[p][i]} + {y})
  {
    var x, c := m[p][i], m[p];
    assert x in c && Child(s, p, x) && y !in c;
    var s', m' := Exchanged(s, m, p, i, y), m[p := c[i := y]];
    SwapMembers(c, i, y);
    forall d ensures Linked(s', m', d) <==> (Linked(s, m, d) && d != x) || d == y {}
    assert Linked(s, m, x) && !Linked(s, m, y);
  }

  lemma SwapMembers(c: seq<Item>, i: nat, y: Item)
    requires NoDup(c) && i < |c| && y !in c
    ensures forall d :: d in c[i := y] <==> (d in c && d != c[i]) || d == y
    ensures c[i := y] == Replaced(c, c[i], y)
  {
    forall d | d in c && d != c[i] ensures d in c[i := y] {
      var j :| 0 <= j < |c| && c[j] == d;
      assert c[i := y][j] == d;
    }
    assert c[i := y][i] == y;
  }

  lemma SwapOk(s: Store, m: Stacks, kids: set<Item>, p: Item, i: nat, y: Item)
    requires Ok(s, m, kids) && p in m && i < |m[p]| && y in s.parentOf && s.parentOf[y] == p && y !in s.inMM
    requires y in s.refs && s.refs[y] > 0
    ensures m[p][i] in s.next && Ok(Exchanged(s, m, p, i, y), Swapped(m, p, m[p][i], y), kids - {m[p][i]} + {y})
  {
    SwapShape(s, m, kids, p, i, y);
    assert StackOk(s, m, p);
    SwapKids(s, m, kids, p, i, y);
    SwapMembers(m[p], i, y);
    assert Swapped(m, p, m[p][i], y).Keys == m.Keys;
  }

  /** The keys after the members of `c` have been made children of `n`. */
  function Rekeyed(keys: map<Item, Item>, c: seq<Item>, n: Item): map<Item, Item> {
    map x | x in keys :: if x in c then n else keys[x]
  }

  function Transferred(s: Store, m: Stacks, p: Item, n: Item): Store
    requires p in m && p in s.heads
  {
    s.(heads := (s.heads - {p})[n := s.heads[p]], parentOf := Rekeyed(s.parentOf, m[p], n), flagged := s.flagged + {n} - {p})
  }

  lemma MoveShape(s: Store, m: Stacks, p: Item, n: Item)
    requires ShapeOk(s, m) && p in m && n !in m
    ensures p in s.heads && ShapeOk(Transferred(s, m, p, n), Moved(m, p, n))
  {
    assert StackOk(s, m, p);
    var s', m' := Transferred(s, m, p, n), Moved(m, p, n);
    forall c | c in m[p] ensures Child(s', n, c) { assert Child(s, p, c); }
    assert StackOk(s', m', n);
    forall q | q in m' ensures StackOk(s', m', q) {
      if q != n {
        assert StackOk(s, m, q);
        forall c | c in m[q] ensures c !in m[p] { assert Child(s, q, c); }
        StackKeep(s, m, s', m', q);
      }
    }
  }

  lemma MoveKids(s: Store, m: Stacks, kids: set<Item>, p: Item, n: Item)
    requires KidsOk(s, m, kids) && p in m && n !in m && StackOk(s, m, p)
    requires forall q, c | q in m && c in m[q] :: Child(s, q, c)
    ensures KidsOk(Transferred(s, m, p, n), Moved(m, p, n), kids)
  {
    var s', m' := Transferred(s, m, p, n), Moved(m, p, n);
    forall d ensures Linked(s', m', d) <==> Linked(s, m, d) {
      if d in m[p] { assert Child(s, p, d); }
    }
  }

  lemma MoveOk(s: Store, m: Stacks, kids: set<Item>, p: Item, n: Item)
    requires Ok(s, m, kids) && p in m && n !in m
    ensures p in s.heads && Ok(Transferred(s, m, p, n), Moved(m, p, n), kids)
  {
    MoveShape(s, m, p, n);
    forall q, c | q in m && c in m[q] ensures Child(s, q, c) { assert StackOk(s, m, q); }
    assert StackOk(s, m, p);
    MoveKids(s, m, kids, p, n);
    assert Moved(m, p, n).Keys == m.Keys - {p} + {n};
  }

  lemma RekeyStep(keys: map<Item, Item>, c: seq<Item>, n: Item, i: nat)
    requires i < |c| && c[i] in keys
    ensures Rekeyed(keys, c[..i + 1], n) == Rekeyed(keys, c[..i], n)[c[i] := n]
  {
    assert c[..i + 1] == c[..i] + [c[i]];
  }

  // ---- releasing a parent

  /** What is given back of a chain when `keep` is to be recycled. */
  function Freed(c: seq<Item>, keep: Option<Item>): seq<Item> {
    if c == [] then [] else (if keep == Some(c[0]) then [] else [c[0]]) + Freed(c[1..], keep)
  }

  lemma {:induction false} FreedStep(c: seq<Item>, keep: Option<Item>, i: nat)
    requires i < |c|
    ensures Freed(c[..i + 1], keep) == Freed(c[..i], keep) + if keep == Some(c[i]) then [] else [c[i]]
  {
    if i > 0 {
      FreedStep(c[1..], keep, i - 1);
      assert c[..i + 1][1..] == c[1..][..i] && c[..i][1..] == c[1..][..i - 1];
    }
  }

  lemma FreedLast(c: seq<Item>, x: Item, keep: Option<Item>)
    ensures Freed(c + [x], keep) == Freed(c, keep) + if keep == Some(x) then [] else [x]
    ensures keep.Some? ==> (keep.value in c + [x] <==> keep.value in c || keep.value == x)
  {
    FreedStep(c + [x], keep, |c|);
    assert (c + [x])[..|c|] == c && (c + [x])[..|c| + 1] == c + [x];
  }

  /** Every member is given back exactly once, except the one to be recycled. */
  lemma {:induction false} FreedOnce(c: seq<Item>, keep: Option<Item>, x: Item)
    requires NoDup(c)
    ensures multiset(Freed(c, keep))[x] == if x in c && keep != Some(x) then 1 else 0
  {
    if c != [] {
      assert c == [c[0]] + c[1..];
      FreedOnce(c[1..], keep, x);
    }
  }

  function Elems(c: seq<Item>): set<Item> { set x | x in c }

  lemma {:induction false} ElemsCount(c: seq<Item>)
    requires NoDup(c)
    ensures |Elems(c)| == |c|
  {
    if c != [] {
      ElemsCount(c[1..]);
      assert c == [c[0]] + c[1..];
      assert Elems(c) == {c[0]} + Elems(c[1..]) && c[0] !in Elems(c[1..]);
    }
  }

  /** The members of `c` have left the MM containers and lost the parent's reference. */
  ghost predicate Unlinked(s: Store, s': Store, c: seq<Item>) {
    && s'.next == s.next && s'.parentOf == s.parentOf
    && (forall x :: x in s'.inMM <==> x in s.inMM && x !in c)
    && s'.refs.Keys == s.refs.Keys
    && (forall x {:trigger s'.refs[x]} | x in s.refs :: if x in c then s.refs[x] > 0 && s'.refs[x] == s.refs[x] - 1 else s'.refs[x] == s.refs[x])
    && s'.numChildren == s.numChildren - |c|
  }

  lemma UnlinkStep(s: Store, s1: Store, c: seq<Item>, i: nat)
    requires NoDup(c) && i < |c| && Unlinked(s, s1, c[..i]) && c[i] in s.refs && s.refs[c[i]] > 0
    ensures c[i] in s1.refs && s1.refs[c[i]] > 0
    ensures Unlinked(s, s1.(inMM := s1.inMM - {c[i]}, refs := s1.refs[c[i] := s1.refs[c[i]] - 1], numChildren := s1.numChildren - 1), c[..i + 1])
  {
    assert c[..i + 1] == c[..i] + [c[i]];
    assert c[i] !in c[..i];
  }

  /** One child leaves its MM container, loses the parent's reference, and is freed unless it is to be kept. */
  function ReleasedOne(s: Store, x: Item, keep: Option<Item>): Store
    requires x in s.refs && s.refs[x] > 0
  {
    s.(inMM := s.inMM - {x}, refs := s.refs[x := s.refs[x] - 1], numChildren := s.numChildren - 1,
       freed := if keep == Some(x) then s.freed else s.freed + [x])
  }

  /** The members of `c` have been released. */
  ghost predicate Progress(s: Store, s': Store, c: seq<Item>, keep: Option<Item>, hit: bool) {
    && Unlinked(s, s', c) && s'.freed == s.freed + Freed(c, keep)
    && s'.heads == s.heads && s'.flagged == s.flagged && s'.numParents == s.numParents
    && hit == (keep.Some? && keep.value in c)
  }

  lemma ProgressStep(s: Store, s1: Store, c: seq<Item>, keep: Option<Item>, hit: bool, i: nat)
    requires NoDup(c) && i < |c| && Progress(s, s1, c[..i], keep, hit) && c[i] in s.refs && s.refs[c[i]] > 0
    ensures c[i] in s1.refs && s1.refs[c[i]] > 0
    ensures Progress(s, ReleasedOne(s1, c[i], keep), c[..i + 1], keep, hit || keep == Some(c[i]))
  {
    UnlinkStep(s, s1, c, i);
    FreedStep(c, keep, i);
    assert c[..i + 1] == c[..i] + [c[i]];
  }

  /** The log of freed memory has no part in the stacks. */
  lemma OkFreed(s: Store, m: Stacks, kids: set<Item>, f: seq<Item>)
    requires Ok(s, m, kids)
    ensures Ok(s.(freed := f), m, kids)
  {
    var s' := s.(freed := f);
    forall q | q in m ensures StackOk(s', m, q) {
      assert StackOk(s, m, q);
      StackKeep(s, m, s', m, q);
    }
    forall c ensures Linked(s', m, c) <==> Linked(s, m, c) {}
  }

  lemma AllocOk(s: Store, m: Stacks, kids: set<Item>, p: Item, c: Item)
    requires Ok(s, m, kids) && c !in s.parentOf && c !in s.inMM
    ensures Ok(s.(parentOf := s.parentOf[c := p], next := s.next[c := None], refs := s.refs[c := 1]), m, kids)
  {
    var s' := s.(parentOf := s.parentOf[c := p], next := s.next[c := None], refs := s.refs[c := 1]);
    forall q | q in m ensures StackOk(s', m, q) && c !in m[q] {
      assert StackOk(s, m, q);
      StackKeep(s, m, s', m, q);
    }
    forall d ensures Linked(s', m, d) <==> Linked(s, m, d) {}
  }

  /** Without `p` and its children, the store stands for the other stacks. */
  lemma ReleaseOk(s: Store, s': Store, m: Stacks, kids: set<Item>, p: Item)
    requires Ok(s, m, kids) && p in m && Unlinked(s, s', m[p])
    requires s'.heads == s.heads - {p} && s'.flagged == s.flagged - {p} && s'.numParents == s.numParents - 1
    ensures Ok(s', m - {p}, kids - Elems(m[p]))
  {
    var m' := m - {p};
    assert StackOk(s, m, p);
    ReleaseShape(s, s', m, p);
    ReleaseKids(s, s', m, kids, p);
    ElemsCount(m[p]);
    assert m'.Keys == m.Keys - {p} && p in m.Keys;
  }

  lemma ReleaseShape(s: Store, s': Store, m: Stacks, p: Item)
    requires ShapeOk(s, m) && p in m && Unlinked(s, s', m[p])
    requires s'.heads == s.heads - {p} && s'.flagged == s.flagged - {p}
    ensures ShapeOk(s', m - {p})
  {
    assert StackOk(s, m, p);
    forall q | q in m - {p} ensures StackOk(s', m - {p}, q) {
      assert StackOk(s, m, q);
      forall c | c in m[q] ensures c !in m[p] && Child(s', q, c) { assert Child(s, q, c); }
      StackKeep(s, m, s', m - {p}, q);
    }
  }

  lemma ReleaseKids(s: Store, s': Store, m: Stacks, kids: set<Item>, p: Item)
    requires KidsOk(s, m, kids) && p in m && StackOk(s, m, p) && Unlinked(s, s', m[p])
    ensures KidsOk(s', m - {p}, kids - Elems(m[p])) && Elems(m[p]) <= kids
  {
    forall d | d in m[p] ensures Linked(s, m, d) { assert Child(s, p, d); }
    forall d ensures Linked(s', m - {p}, d) <==> Linked(s, m, d) && d !in m[p] {}
  }

  datatype ReleaseRes = Released | NotRecycled | Recycled

  datatype Outcome<+T> = Done(result: T) | Throws

  /** What the release of `all` answers. */
  function Verdict(toRecycle: Option<Item>, all: seq<Item>): ReleaseRes {
    if toRecycle.None? then Released else if toRecycle.value in all then Recycled else NotRecycled
  }

  /** Nobody else refers to the children of `p`: the parent's is their only reference. */
  predicate Alone(s: Store, m: Stacks, p: Item) {
    p in m ==> p !in m[p] && forall c | c in m[p] :: c in s.refs && s.refs[c] == 1
  }

  /** The members of `c` are drained: no reference and in no container. */
  predicate Gone(s: Store, c: seq<Item>) { forall x | x in c :: x in s.refs && s.refs[x] == 0 && x !in s.inMM }

  method LinkChild(s: Store, p: Item, c: Item) returns (t: Store)
    requires c in s.parentOf && s.parentOf[c] == p
    ensures t == Added(s, p, c)
  {
    // the table replaces under the child's key, which is its parent
    var key := s.parentOf[c];
    var oldHead := if key in s.heads then Some(s.heads[key]) else None;
    t := s.(heads := s.heads[key := c]);
    if oldHead.Some? { t := t.(next := t.next[c := oldHead]); }
    if p !in t.flagged { t := t.(numParents := t.numParents + 1); }
    t := t.(flagged := t.flagged + {p}, numChildren := t.numChildren + 1, inMM := t.inMM + {c});
  }

  class Chained {
    var s: Store
    // the stacks the store stands for, and the linked children
    ghost var stacks: Stacks
    ghost var kids: set<Item>

    ghost predicate Valid() reads this { Ok(s, stacks, kids) }

    constructor ()
      ensures Valid() && stacks == map[] && s.parentOf == map[] && s.freed == []
    {
      s := Store(map[], map[], map[], {}, {}, map[], 0, 0, []);
      stacks, kids := map[], {};
    }

    /** A new chained item for the parent `p`, with the caller's reference. */
    method AllocateChainedItem(parent: Option<Item>, memory: Option<Item>) returns (r: Outcome<Option<Item>>)
      requires Valid() && (memory.Some? ==> memory.value !in s.parentOf && memory.value !in s.inMM)
      modifies this`s
      ensures Valid() && (r.Throws? <==> parent.None?) && (r.Done? ==> r.result == memory)
      ensures r == Done(memory) && memory.Some? ==> Loose(s, parent.value, memory.value) && s.freed == old(s.freed)
      ensures r.Throws? || memory.None? ==> s == old(s)
    {
      if parent.None? { return Throws; }
      if memory.None? { return Done(None); }
      var p, c := parent.value, memory.value;
      AllocOk(s, stacks, kids, p, c);
      s := s.(parentOf := s.parentOf[c := p], next := s.next[c := None], refs := s.refs[c := 1]);
      return Done(Some(c));
    }

    method AddChainedItem(parent: Option<Item>, child: Option<Item>) returns (r: Outcome<()>)
      requires Valid()
      requires parent.Some? && child.Some? && child.value in s.parentOf ==> Loose(s, parent.value, child.value)
      modifies this
      ensures Valid()
      ensures r.Throws? <==> parent.None? || child.None? || child.value !in old(s.parentOf)
      ensures if r.Throws? then s == old(s) && stacks == old(stacks)
              else stacks == Pushed(old(stacks), parent.value, child.value) && kids == old(kids) + {child.value}
    {
      if parent.None? || child.None? || child.value !in s.parentOf { return Throws; }
      Push(parent.value, child.value);
      return Done(());
    }

    method Push(p: Item, c: Item)
      requires Valid() && Loose(s, p, c)
      modifies this
      ensures Valid() && s == Added(old(s), p, c) && stacks == Pushed(old(stacks), p, c) && kids == old(kids) + {c}
    {
      AddOk(s, stacks, kids, p, c);
      s := LinkChild(s, p, c);
      stacks, kids := Pushed(stacks, p, c), kids + {c};
    }

    method PopChainedItem(parent: Option<Item>) returns (r: Outcome<Item>)
      requires Valid()
      modifies this
      ensures Valid() && (r.Throws? <==> parent.None? || parent.value !in old(stacks))
      ensures if r.Throws? then s == old(s) && stacks == old(stacks)
              else old(stacks)[parent.value] != [] && r.result == old(stacks)[parent.value][0]
                   && stacks == Popped(old(stacks), parent.value) && kids == old(kids) - {r.result}
                   && Loose(s, parent.value, r.result)
    {
      if parent.None? || parent.value !in s.flagged { return Throws; }
      var p := parent.value;
      assert StackOk(s, stacks, p);
      PopOk(s, stacks, kids, p);
      var head := s.heads[p];
      assert head in stacks[p] && Child(s, p, head);
      var next := s.next[head];
      var t := s;
      if next.Some? {
        t := t.(heads := t.heads[p := next.value]);
      } else {
        t := t.(heads := t.heads - {p}, flagged := t.flagged - {p}, numParents := t.numParents - 1);
      }
      t := t.(next := t.next[head := None], inMM := t.inMM - {head}, numChildren := t.numChildren - 1);
      assert t == Removed(s, p);
      s := t;
      stacks, kids := Popped(stacks, p), kids - {head};
      return Done(head);
    }

    /** Whether a replacement of `x` by `y` under `p` is refused. */
    predicate BadReplace(x: Item, y: Item, p: Item) reads this {
      || x !in s.parentOf || y !in s.parentOf || s.parentOf[x] != s.parentOf[y] || s.parentOf[x] != p
      || y in s.inMM || x !in s.inMM
    }

    method ReplaceChainedItem(x: Item, y: Option<Item>, p: Item) returns (r: Outcome<Item>)
      requires Valid()
      requires y.Some? ==> y.value in s.refs && s.refs[y.value] > 0
      modifies this
      ensures Valid() && (r.Throws? <==> y.None? || old(BadReplace(x, y.value, p)))
      ensures if r.Throws? then s == old(s) && stacks == old(stacks)
              else r == Done(x) && p in old(stacks) && x in old(stacks)[p] && stacks == Swapped(old(stacks), p, x, y.value)
                   && kids == old(kids) - {x} + {y.value}
    {
      if y.None? || BadReplace(x, y.value, p) { return Throws; }
      assert Linked(s, stacks, x);
      ReplaceInChain(x, y.value, p);
      return Done(x);
    }

    method ReplaceInChain(x: Item, y: Item, p: Item)
      requires Valid() && p in stacks && x in stacks[p] && y in s.parentOf && s.parentOf[y] == p && y !in s.inMM
      requires y in s.refs && s.refs[y] > 0
      modifies this
      ensures Valid() && stacks == Swapped(old(stacks), p, x, y) && kids == old(kids) - {x} + {y}
    {
      assert StackOk(s, stacks, p);
      var t := s.(inMM := s.inMM - {x} + {y});
      ghost var i;
      if s.heads[p] == x {
        t := t.(heads := t.heads[p := y]);
        i := 0;
      } else {
        var prev;
        prev, i := FindPrev(s.heads[p], x, stacks[p]);
        t := t.(next := t.next[prev := Some(y)]);
      }
      SwapOk(s, stacks, kids, p, i, y);
      t := t.(next := t.next[y := t.next[x]]);
      t := t.(next := t.next[x := None]);
      assert t == Exchanged(s, stacks, p, i, y);
      s := t;
      stacks, kids := Swapped(stacks, p, x, y), kids - {x} + {y};
    }

    /** Walks the chain `c` to the predecessor of `x`, which is not its head. */
    method FindPrev(head: Item, x: Item, ghost c: seq<Item>) returns (prev: Item, ghost i: nat)
      requires Chain(Some(head), s.next, c) && x in c && x != head
      ensures 0 < i < |c| && c[i] == x && prev == c[i - 1] && prev != x
    {
      var curr := s.next[head];
      prev, i := head, 1;
      while curr.Some? && curr.value != x
        invariant 0 < i <= |c| && prev == c[i - 1] && curr == At(c, i) && forall j | 0 <= j < i :: c[j] != x
        decreases |c| - i
      {
        prev := curr.value;
        curr := s.next[prev];
        i := i + 1;
      }
    }

    /** Gives the whole chain of `p` to the parent `n`, which has none. */
    method TransferChain(p: Item, n: Item) returns (r: Outcome<()>)
      requires Valid() && p in s.flagged
      modifies this
      ensures Valid() && (r.Throws? <==> n in old(stacks))
      ensures if r.Throws? then s == old(s) && stacks == old(stacks)
              else stacks == Moved(old(stacks), p, n) && kids == old(kids) && s.numParents == old(s.numParents)
    {
      if n in s.flagged { return Throws; }
      assert StackOk(s, stacks, p);
      MoveOk(s, stacks, kids, p, n);
      ghost var c := stacks[p];
      var head := s.heads[p];
      s := s.(heads := s.heads - {p});
      Rekey(Some(head), n, c);
      s := s.(flagged := s.flagged + {n});
      s := s.(heads := s.heads[n := head]);
      s := s.(flagged := s.flagged - {p});
      assert s == Transferred(old(s), stacks, p, n);
      stacks := Moved(stacks, p, n);
      return Done(());
    }

    /** Walks a chain and changes the key of every member. */
    method Rekey(head: Option<Item>, n: Item, ghost c: seq<Item>)
      requires Chain(head, s.next, c) && forall x | x in c :: x in s.parentOf
      modifies this`s
      ensures s == old(s).(parentOf := Rekeyed(old(s.parentOf), c, n))
    {
      var curr := head;
      ghost var i := 0;
      assert s.parentOf == Rekeyed(s.parentOf, c[..0], n);
      while curr.Some?
        invariant i <= |c| && curr == At(c, i) && s == old(s).(parentOf := Rekeyed(old(s.parentOf), c[..i], n))
        decreases |c| - i
      {
        RekeyStep(old(s.parentOf), c, n, i);
        s := s.(parentOf := s.parentOf[curr.value := n]);
        curr := s.next[curr.value];
        i := i + 1;
      }
      assert c[..i] == c;
    }

    /** Releases all children of `p`; tells whether the one to recycle was among them. */
    method ReleaseChain(p: Item, keep: Option<Item>) returns (hit: bool)
      requires Valid() && p in stacks && forall c | c in stacks[p] :: c in s.refs && s.refs[c] == 1
      modifies this
      ensures Valid() && stacks == old(stacks) - {p} && kids == old(kids) - Elems(old(stacks)[p])
      ensures s.freed == old(s.freed) + Freed(old(stacks)[p], keep)
      ensures hit == (keep.Some? && keep.value in old(stacks)[p])
      ensures Gone(s, old(stacks)[p])
    {
      assert StackOk(s, stacks, p);
      ghost var c := stacks[p];
      var head := s.heads[p];
      s := s.(heads := s.heads - {p});
      hit := ReleaseMembers(Some(head), keep, c);
      // the header of the parent is gone with its memory, and so is its bit
      s := s.(numParents := s.numParents - 1, flagged := s.flagged - {p});
      ReleaseOk(old(s), s, stacks, kids, p);
      stacks, kids := stacks - {p}, kids - Elems(c);
    }

    method ReleaseMembers(first: Option<Item>, keep: Option<Item>, ghost c: seq<Item>) returns (hit: bool)
      requires Chain(first, s.next, c) && forall x | x in c :: x in s.refs && s.refs[x] == 1
      modifies this`s
      ensures Progress(old(s), s, c, keep, hit)
    {
      var head := first;
      ghost var i := 0;
      hit := false;
      while head.Some?
        invariant i <= |c| && head == At(c, i) && Progress(old(s), s, c[..i], keep, hit)
        decreases |c| - i
      {
        var x := head.value;
        var next := s.next[x];
        ProgressStep(old(s), s, c, keep, hit, i);
        s := ReleasedOne(s, x, keep);
        if keep == Some(x) { hit := true; }
        head := next;
        i := i + 1;
      }
      assert c[..i] == c;
    }

    /** Gives a drained item back to the allocator, and all its children with it, except that `toRecycle` is kept
        for the caller.  A chained item gets here only if it was never linked. */
    method ReleaseBackToAllocator(it: Item, drained: bool, toRecycle: Option<Item>) returns (r: Outcome<ReleaseRes>)
      requires Valid() && Alone(s, stacks, it)
      modifies this
      ensures Valid()
      ensures r.Throws? <==> !drained || (it in old(s.parentOf) && toRecycle.Some?)
      ensures r.Throws? ==> s == old(s) && stacks == old(stacks)
      ensures !r.Throws? ==>
                var c := if it in old(s.parentOf) then [] else Stack(old(stacks), it);
                && s.freed == old(s.freed) + Freed(c + [it], toRecycle)
                && r.result == Verdict(toRecycle, c + [it])
                && stacks == (if it in old(s.parentOf) then old(stacks) else old(stacks) - {it})
                && Gone(s, c)
    {
      if !drained { return Throws; }
      if it in s.parentOf {
        if toRecycle.Some? { return Throws; }
        Free(it);
        assert [] + [it] == [it];
        return Done(Released);
      }
      var res := ReleaseParent(it, toRecycle);
      return Done(res);
    }

    method ReleaseParent(it: Item, toRecycle: Option<Item>) returns (res: ReleaseRes)
      requires Valid() && Alone(s, stacks, it)
      modifies this
      ensures Valid() && stacks == old(stacks) - {it} && res == Verdict(toRecycle, Stack(old(stacks), it) + [it])
      ensures s.freed == old(s.freed) + Freed(Stack(old(stacks), it) + [it], toRecycle) && Gone(s, Stack(old(stacks), it))
    {
      FreedLast(Stack(stacks, it), it, toRecycle);
      var hit := ReleaseAnyChain(it, toRecycle);
      if toRecycle == Some(it) { hit := true; } else { Free(it); }
      res := if toRecycle.None? then Released else if hit then Recycled else NotRecycled;
    }

    method ReleaseAnyChain(it: Item, keep: Option<Item>) returns (hit: bool)
      requires Valid() && Alone(s, stacks, it)
      modifies this
      ensures Valid() && stacks == old(stacks) - {it} && s.freed == old(s.freed) + Freed(Stack(old(stacks), it), keep)
      ensures hit == (keep.Some? && keep.value in Stack(old(stacks), it)) && Gone(s, Stack(old(stacks), it))
    {
      hit := false;
      if it in s.flagged {
        hit := ReleaseChain(it, keep);
      } else {
        assert stacks - {it} == stacks;
      }
    }

    method Free(x: Item)
      requires Valid()
      modifies this`s
      ensures Valid() && s == old(s).(freed := old(s.freed) + [x])
    {
      OkFreed(s, stacks, kids, s.freed + [x]);
      s := s.(freed := s.freed + [x]);
    }

    /** The item and its children as one buffer chain; every child is put right after the item. */
    method WrapAsIOBuf(item: Item) returns (bufs: seq<Item>)
      requires Valid()
      ensures bufs == [item] + Reverse(Stack(stacks, item))
    {
      bufs := [item];
      if item !in s.flagged { return; }
      assert StackOk(s, stacks, item);
      ghost var c, i := stacks[item], 0;
      var head := Some(s.heads[item]);
      while head.Some?
        invariant i <= |c| && head == At(c, i) && bufs == [item] + Reverse(c[..i])
        decreases |c| - i
      {
        assert c[..i + 1] == c[..i] + [c[i]];
        ReverseConcat(c[..i], [c[i]]);
        bufs := [bufs[0]] + [head.value] + bufs[1..];
        head := s.next[head.value];
        i := i + 1;
      }
      assert c[..i] == c;
    }
  }
}
