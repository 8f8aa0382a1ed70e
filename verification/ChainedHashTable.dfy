/** The intrusive chained hash table: an array of bucket heads and one next link per node. */
module ChainedHashTable {
  import opened Chains
  import opened Options
  import opened Sequences

  type Key = nat

  /** A node that can be linked; its key never changes while it is. */
  datatype Node = Node(key: Key, id: nat)

  // ---- the table as a map from keys to nodes

  type Map = map<Key, Node>

  predicate Has(m: Map, x: Node) { x.key in m && m[x.key] == x }

  function Inserted(m: Map, x: Node): Map { if x.key in m then m else m[x.key := x] }

  /** `throws` tells that no handle to the replaced node can be made. */
  function Put(m: Map, x: Node, throws: bool): Map { if x.key in m && throws then m else m[x.key := x] }

  function Swapped(m: Map, y: Node, x: Node, test: bool): Map { if Has(m, y) && test then m[x.key := x] else m }

  function Removed(m: Map, x: Node): Map { if Has(m, x) then m - {x.key} else m }

  /** The nodes of a bucket to which a handle can be made. */
  function Kept(c: seq<Node>, refused: set<Node>): seq<Node> {
    if c == [] then [] else (if c[0] in refused then [] else [c[0]]) + Kept(c[1..], refused)
  }

  lemma {:induction false} KeptStep(c: seq<Node>, refused: set<Node>, i: nat)
    requires i < |c|
    ensures Kept(c[..i + 1], refused) == Kept(c[..i], refused) + (if c[i] in refused then [] else [c[i]])
  {
    if i > 0 {
      KeptStep(c[1..], refused, i - 1);
      assert c[..i + 1][1..] == c[1..][..i] && c[..i][1..] == c[1..][..i - 1];
    }
  }

  lemma {:induction false} KeptOnce(c: seq<Node>, refused: set<Node>, x: Node)
    requires NoDup(c)
    ensures multiset(Kept(c, refused))[x] == if x in c && x !in refused then 1 else 0
  {
    if c != [] {
      assert c == [c[0]] + c[1..];
      KeptOnce(c[1..], refused, x);
    }
  }

  /** No two nodes of a bucket have the same key. */
  predicate KeysDistinct(c: seq<Node>) { forall i, j | 0 <= i < j < |c| :: c[i].key != c[j].key }

  /** The bit Accessible is set on exactly the nodes of the map, and the keys are counted. */
  ghost predicate Books(accessible: set<Node>, numKeys: int, m: Map) {
    (forall x :: x in accessible <==> Has(m, x)) && numKeys == |m|
  }

  lemma BooksEnter(acc: set<Node>, n: int, m: Map, x: Node)
    requires Books(acc, n, m) && x.key !in m
    ensures Books(acc + {x}, n + 1, m[x.key := x])
  {
    assert m[x.key := x].Keys == m.Keys + {x.key};
  }

  lemma BooksTakeOver(acc: set<Node>, n: int, m: Map, x: Node, y: Node)
    requires Books(acc, n, m) && Has(m, y) && x.key == y.key
    ensures Books(acc - {y} + {x}, n, m[x.key := x])
  {
    assert m[x.key := x].Keys == m.Keys;
  }

  lemma BooksLeave(acc: set<Node>, n: int, m: Map, x: Node)
    requires Books(acc, n, m) && Has(m, x)
    ensures Books(acc - {x}, n - 1, m - {x.key})
  {
    assert (m - {x.key}).Keys == m.Keys - {x.key};
  }

  class Table {
    const hasher: Key -> nat
    const heads: array<Option<Node>>
    var next: Links<Node>
    var accessible: set<Node>
    var numKeys: nat
    // what following the links gives, and the map that the table stands for
    ghost var chains: seq<seq<Node>>
    ghost var model: Map

    function GetBucket(k: Key): (b: nat)
      requires heads.Length > 0
      ensures b < heads.Length
    {
      hasher(k) % heads.Length
    }

    /** The nodes of a bucket hash to it and have distinct keys. */
    predicate InBucket(c: seq<Node>, b: nat)
      requires heads.Length > 0
    {
      KeysDistinct(c) && forall x {:trigger x in c} | x in c :: GetBucket(x.key) == b
    }

    /** Bucket `b` of heads `hs` and links `nx` is the chain `cs[b]`. */
    ghost predicate BucketOk(hs: seq<Option<Node>>, nx: Links<Node>, cs: seq<seq<Node>>, b: nat)
      requires b < |hs| == |cs| == heads.Length
    {
      Chain(hs[b], nx, cs[b]) && InBucket(cs[b], b)
    }

    ghost predicate BucketsOk(hs: seq<Option<Node>>, nx: Links<Node>, cs: seq<seq<Node>>) {
      && |hs| == |cs| == heads.Length > 0
      && forall b: nat {:trigger BucketOk(hs, nx, cs, b)} | b < |hs| :: BucketOk(hs, nx, cs, b)
    }

    ghost predicate ChainsOk() reads this, heads { BucketsOk(heads[..], next, chains) }

    /** A change within bucket `b` is not noticed by the others. */
    lemma BucketsKeep(hs: seq<Option<Node>>, nx: Links<Node>, cs: seq<seq<Node>>, b: nat, h: Option<Node>, nx': Links<Node>, c: seq<Node>)
      requires BucketsOk(hs, nx, cs) && b < |hs| && Chain(h, nx', c) && InBucket(c, b)
      requires forall x | x in nx && GetBucket(x.key) != b :: x in nx' && nx'[x] == nx[x]
      ensures BucketsOk(hs[b := h], nx', cs[b := c])
    {
      var hs', cs' := hs[b := h], cs[b := c];
      forall b': nat | b' < |hs| ensures BucketOk(hs', nx', cs', b') {
        if b' != b {
          assert BucketOk(hs, nx, cs, b');
          ChainKeep(hs[b'], nx, nx', cs[b']);
        }
      }
    }

    /** The chains hold exactly the nodes of the map `m`. */
    ghost predicate Mirrors(cs: seq<seq<Node>>, m: Map) {
      && |cs| == heads.Length > 0
      && (forall b: nat, x {:trigger x in cs[b]} | b < |cs| && x in cs[b] :: Has(m, x) && GetBucket(x.key) == b)
      && (forall k | k in m :: m[k].key == k && m[k] in cs[GetBucket(k)])
    }

    ghost predicate BooksOk() reads this { Books(accessible, numKeys, model) }

    ghost predicate Valid() reads this, heads { ChainsOk() && Mirrors(chains, model) && BooksOk() }

    constructor (buckets: nat, hash: Key -> nat)
      requires buckets > 0
      ensures Valid() && fresh(heads) && heads.Length == buckets && hasher == hash && model == map[]
    {
      hasher := hash;
      heads := new Option<Node>[buckets](_ => None);
      next, accessible, numKeys := map[], {}, 0;
      chains, model := seq(buckets, _ => []), map[];
    }

    /** Walks to the node with key `k`; `i` is its position, or the length of the chain. */
    method FindInBucket(k: Key, b: nat) returns (curr: Option<Node>, prev: Option<Node>, ghost i: nat)
      requires ChainsOk() && b == GetBucket(k)
      ensures i <= |chains[b]| && curr == At(chains[b], i)
      ensures prev == if i > 0 then Some(chains[b][i - 1]) else None
      ensures forall j | 0 <= j < i :: chains[b][j].key != k
      ensures curr.Some? ==> curr.value.key == k
    {
      assert BucketOk(heads[..], next, chains, b);
      ghost var c := chains[b];
      curr, prev, i := heads[b], None, 0;
      while curr.Some? && curr.value.key != k
        invariant i <= |c| && curr == At(c, i) && prev == (if i > 0 then Some(c[i - 1]) else None)
        invariant forall j | 0 <= j < i :: c[j].key != k
        decreases |c| - i
      {
        prev := curr;
        curr := next[curr.value];
        i := i + 1;
      }
    }

    method InsertInBucket(x: Node, b: nat) returns (ok: bool)
      requires ChainsOk() && b == GetBucket(x.key)
      modifies this`next, this`chains, heads
      ensures ChainsOk()
      ensures ok <==> forall y | y in old(chains)[b] :: y.key != x.key
      ensures chains == if ok then old(chains)[b := [x] + old(chains)[b]] else old(chains)
    {
      var existing, prev; ghost var i;
      existing, prev, i := FindInBucket(x.key, b);
      if existing.Some? { return false; }
      LinkAtHead(x, b);
      return true;
    }

    method LinkAtHead(x: Node, b: nat)
      requires ChainsOk() && b == GetBucket(x.key) && forall y | y in chains[b] :: y.key != x.key
      modifies this`next, this`chains, heads
      ensures ChainsOk() && chains == old(chains)[b := [x] + old(chains)[b]]
    {
      assert BucketOk(heads[..], next, chains, b);
      ChainHead(heads[b], next, chains[b], x);
      HeadKeys(chains[b], x, b);
      BucketsKeep(heads[..], next, chains, b, Some(x), next[x := heads[b]], [x] + chains[b]);
      var head := heads[b];
      heads[b] := Some(x);
      next := next[x := head];
      chains := chains[b := [x] + chains[b]];
      assert heads[..] == old(heads[..])[b := Some(x)];
    }

    lemma HeadKeys(c: seq<Node>, x: Node, b: nat)
      requires heads.Length > 0 && InBucket(c, b) && GetBucket(x.key) == b && forall y | y in c :: y.key != x.key
      ensures InBucket([x] + c, b)
    {}

    /** Puts `x` in the place of the node with its key, or at the head if there is none. */
    method InsertOrReplaceInBucket(x: Node, b: nat) returns (oldNode: Option<Node>, ghost i: nat)
      requires ChainsOk() && b == GetBucket(x.key)
      modifies this`next, this`chains, heads
      ensures ChainsOk()
      ensures oldNode.None? ==>
                chains == old(chains)[b := [x] + old(chains)[b]] && forall y | y in old(chains)[b] :: y.key != x.key
      ensures oldNode.Some? ==>
                && i < |old(chains)[b]| && old(chains)[b][i] == oldNode.value && oldNode.value.key == x.key
                && chains == old(chains)[b := old(chains)[b][i := x]]
    {
      var curr, prev;
      curr, prev, i := FindInBucket(x.key, b);
      if curr.None? {
        LinkAtHead(x, b);
        return None, i;
      }
      ghost var c := chains[b];
      SwapInBucket(b, i, x);
      if prev.Some? {
        next := next[prev.value := Some(x)];
      } else {
        heads[b] := Some(x);
      }
      next := next[x := next[curr.value]];
      chains := chains[b := c[i := x]];
      assert heads[..] == old(heads[..])[b := heads[b]];
      return curr, i;
    }

    lemma SwapKeys(c: seq<Node>, i: nat, x: Node, b: nat)
      requires heads.Length > 0 && InBucket(c, b) && i < |c| && c[i].key == x.key
      ensures InBucket(c[i := x], b)
    {
      forall y | y in c[i := x] ensures GetBucket(y.key) == b {
        var j :| 0 <= j < |c| && c[i := x][j] == y;
        assert c[j] in c && c[i] in c;
      }
    }

    lemma CutKeys(c: seq<Node>, i: nat, b: nat)
      requires heads.Length > 0 && InBucket(c, b) && i < |c|
      ensures InBucket(c[..i] + c[i + 1..], b)
    {
      var d := c[..i] + c[i + 1..];
      assert forall j | 0 <= j < |d| :: d[j] == if j < i then c[j] else c[j + 1];
      forall y | y in d ensures y in c {}
    }

    lemma SwapInBucket(b: nat, i: nat, x: Node)
      requires ChainsOk() && b == GetBucket(x.key) && i < |chains[b]| && chains[b][i].key == x.key
      ensures var c := chains[b]; var next1 := if i > 0 then next[c[i - 1] := Some(x)] else next;
              && c[i] in next1
              && BucketsOk(heads[..][b := if i > 0 then heads[b] else Some(x)], next1[x := next1[c[i]]], chains[b := c[i := x]])
    {
      assert BucketOk(heads[..], next, chains, b);
      var c := chains[b];
      if x in c {
        var j :| 0 <= j < |c| && c[j] == x;
        assert j == i;
      }
      ChainSwap(heads[b], next, c, i, x);
      SwapKeys(c, i, x, b);
      assert i > 0 ==> c[i - 1] in c;
      var next1 := if i > 0 then next[c[i - 1] := Some(x)] else next;
      BucketsKeep(heads[..], next, chains, b, if i > 0 then heads[b] else Some(x), next1[x := next1[c[i]]], c[i := x]);
    }

    method RemoveFromBucket(x: Node, b: nat)
      requires ChainsOk() && b == GetBucket(x.key) && x in chains[b]
      modifies this`next, this`chains, heads
      ensures ChainsOk() && chains == old(chains)[b := Without(old(chains)[b], x)]
    {
      var curr, prev; ghost var i;
      curr, prev, i := FindInBucket(x.key, b);
      CutInBucket(b, i, x);
      ghost var c := chains[b];
      if prev.Some? {
        next := next[prev.value := next[x]];
      } else {
        heads[b] := next[x];
      }
      chains := chains[b := c[..i] + c[i + 1..]];
      assert heads[..] == old(heads[..])[b := heads[b]];
    }

    lemma CutInBucket(b: nat, i: nat, x: Node)
      requires ChainsOk() && b < heads.Length && i < |chains[b]| && chains[b][i].key == x.key && x in chains[b]
      ensures var c := chains[b]; var d := c[..i] + c[i + 1..];
              && c[i] == x && d == Without(c, x) && x in next
              && BucketsOk(heads[..][b := if i > 0 then heads[b] else next[x]],
                           if i > 0 then next[c[i - 1] := next[x]] else next, chains[b := d])
    {
      assert BucketOk(heads[..], next, chains, b);
      var c := chains[b];
      var j :| 0 <= j < |c| && c[j] == x;
      assert i == j;
      ChainCut(heads[b], next, c, i);
      WithoutAt(c, i);
      CutKeys(c, i, b);
      assert i > 0 ==> c[i - 1] in c;
      BucketsKeep(heads[..], next, chains, b, if i > 0 then heads[b] else next[x],
                  if i > 0 then next[c[i - 1] := next[x]] else next, c[..i] + c[i + 1..]);
    }

    // ---- the map that the chains stand for

    lemma MirrorInsert(cs: seq<seq<Node>>, m: Map, x: Node)
      requires Mirrors(cs, m) && x.key !in m
      ensures var b := GetBucket(x.key); Mirrors(cs[b := [x] + cs[b]], m[x.key := x])
    {
      var b := GetBucket(x.key);
      var cs', m' := cs[b := [x] + cs[b]], m[x.key := x];
      forall b': nat, y | b' < |cs'| && y in cs'[b'] ensures Has(m', y) && GetBucket(y.key) == b' {
        assert (y == x && b' == b) || y in cs[b'];
      }
      forall k | k in m' ensures m'[k].key == k && m'[k] in cs'[GetBucket(k)] {
        if k != x.key { assert m[k] in cs[GetBucket(k)]; }
      }
    }

    lemma MirrorSwap(cs: seq<seq<Node>>, m: Map, i: nat, x: Node)
      requires Mirrors(cs, m)
      requires var b := GetBucket(x.key); InBucket(cs[b], b) && i < |cs[b]| && cs[b][i].key == x.key
      ensures var b := GetBucket(x.key); Mirrors(cs[b := cs[b][i := x]], m[x.key := x])
    {
      var b := GetBucket(x.key);
      var cs', m' := cs[b := cs[b][i := x]], m[x.key := x];
      forall b': nat, y | b' < |cs'| && y in cs'[b'] ensures Has(m', y) && GetBucket(y.key) == b' {
        if b' == b {
          var j :| 0 <= j < |cs'[b]| && cs'[b][j] == y;
          assert cs[b][j] in cs[b] && cs[b][i] in cs[b];
          assert j == i || y == cs[b][j];
        } else {
          assert y in cs[b'];
        }
      }
      forall k | k in m' ensures m'[k].key == k && m'[k] in cs'[GetBucket(k)] {
        if k == x.key {
          assert cs'[b][i] == x;
        } else if GetBucket(k) == b {
          var j :| 0 <= j < |cs[b]| && cs[b][j] == m[k];
          assert cs'[b][j] == m[k];
        }
      }
    }

    lemma MirrorCut(cs: seq<seq<Node>>, m: Map, x: Node)
      requires Mirrors(cs, m) && Has(m, x) && NoDup(cs[GetBucket(x.key)])
      ensures var b := GetBucket(x.key); Mirrors(cs[b := Without(cs[b], x)], m - {x.key})
    {
      var b := GetBucket(x.key);
      WithoutMembers(cs[b], x);
      CutNodes(cs, m, x, Without(cs[b], x));
      CutMap(cs, m, x, Without(cs[b], x));
    }

    lemma CutNodes(cs: seq<seq<Node>>, m: Map, x: Node, c: seq<Node>)
      requires Mirrors(cs, m) && Has(m, x) && forall y :: y in c <==> y in cs[GetBucket(x.key)] && y != x
      ensures var cs' := cs[GetBucket(x.key) := c];
              forall b: nat, y | b < |cs'| && y in cs'[b] :: Has(m - {x.key}, y) && GetBucket(y.key) == b
    {
      var cs' := cs[GetBucket(x.key) := c];
      forall b: nat, y | b < |cs'| && y in cs'[b] ensures Has(m - {x.key}, y) && GetBucket(y.key) == b {
        assert y in cs[b];
      }
    }

    lemma CutMap(cs: seq<seq<Node>>, m: Map, x: Node, c: seq<Node>)
      requires Mirrors(cs, m) && Has(m, x) && forall y :: y in c <==> y in cs[GetBucket(x.key)] && y != x
      ensures var cs', m' := cs[GetBucket(x.key) := c], m - {x.key};
              forall k | k in m' :: m'[k].key == k && m'[k] in cs'[GetBucket(k)]
    {}

    // ---- the operations of the container

    method Find(k: Key) returns (r: Option<Node>)
      requires Valid()
      ensures r == if k in model then Some(model[k]) else None
    {
      var prev; ghost var i;
      r, prev, i := FindInBucket(k, GetBucket(k));
      if k in model { assert model[k] in chains[GetBucket(k)]; }
      if r.Some? { assert r.value in chains[GetBucket(k)]; }
    }

    /** A node that has been linked under a new key is marked and counted. */
    method Enter(x: Node)
      requires ChainsOk() && BooksOk() && x.key !in model && Mirrors(chains, model[x.key := x])
      modifies this`accessible, this`numKeys, this`model
      ensures Valid() && model == old(model)[x.key := x]
    {
      BooksEnter(accessible, numKeys, model, x);
      accessible := accessible + {x};
      numKeys := numKeys + 1;
      model := model[x.key := x];
    }

    /** A node that has been linked in the place of another takes over its mark. */
    method TakeOver(x: Node, y: Node)
      requires ChainsOk() && BooksOk() && Has(model, y) && x.key == y.key && Mirrors(chains, model[x.key := x])
      modifies this`accessible, this`numKeys, this`model
      ensures Valid() && model == old(model)[x.key := x]
    {
      BooksTakeOver(accessible, numKeys, model, x, y);
      accessible := accessible - {y} + {x};
      model := model[x.key := x];
    }

    /** A node that has been unlinked loses its mark. */
    method Leave(x: Node)
      requires ChainsOk() && BooksOk() && Has(model, x) && Mirrors(chains, model - {x.key})
      modifies this`accessible, this`numKeys, this`model
      ensures Valid() && model == old(model) - {x.key}
    {
      BooksLeave(accessible, numKeys, model, x);
      assert x.key in model.Keys;
      accessible := accessible - {x};
      numKeys := numKeys - 1;
      model := model - {x.key};
    }

    /** A key is in the map just when its bucket has a node with it. */
    lemma KeyInBucket(k: Key)
      requires Valid()
      ensures k in model <==> exists y :: y in chains[GetBucket(k)] && y.key == k
      ensures k in model ==> model[k] in chains[GetBucket(k)]
    {}

    method Insert(x: Node) returns (ok: bool)
      requires Valid()
      modifies this, heads
      ensures Valid() && model == Inserted(old(model), x) && ok == (x.key !in old(model))
    {
      if x in accessible { return false; }
      KeyInBucket(x.key);
      ok := InsertInBucket(x, GetBucket(x.key));
      if ok {
        MirrorInsert(old(chains), model, x);
        Enter(x);
      }
    }

    /** The answer is the replaced node; `throws` tells that no handle to it can be made, in which case
        the chains are as before. */
    method InsertOrReplace(x: Node, throws: bool) returns (r: Option<Node>, failed: bool)
      requires Valid()
      modifies this, heads
      ensures Valid() && model == Put(old(model), x, throws)
      ensures failed == (throws && x.key in old(model) && x !in old(accessible))
      ensures failed ==> chains == old(chains) && accessible == old(accessible) && numKeys == old(numKeys)
      ensures r == if !failed && x !in old(accessible) && x.key in old(model) then Some(old(model)[x.key]) else None
    {
      if x in accessible {
        assert model[x.key := x] == model;
        return None, false;
      }
      var oldNode; ghost var i;
      oldNode, i := Link(x);
      if oldNode.None? {
        Enter(x);
        return None, false;
      }
      if throws {
        RollBack(x, oldNode.value, GetBucket(x.key), i);
        assert chains == old(chains);
        return None, true;
      }
      TakeOver(x, oldNode.value);
      return oldNode, false;
    }

    /** Links `x` in its bucket; the marks and the count are still to follow. */
    method Link(x: Node) returns (oldNode: Option<Node>, ghost i: nat)
      requires Valid()
      modifies this`next, this`chains, heads
      ensures ChainsOk() && Mirrors(chains, model[x.key := x])
      ensures oldNode == if x.key in model then Some(model[x.key]) else None
      ensures oldNode.Some? ==>
                var b := GetBucket(x.key);
                && i < |chains[b]| && chains[b][i] == x
                && chains[b := chains[b][i := oldNode.value]] == old(chains)
    {
      var b := GetBucket(x.key);
      KeyInBucket(x.key);
      assert BucketOk(heads[..], next, chains, b);
      oldNode, i := InsertOrReplaceInBucket(x, b);
      if oldNode.None? {
        MirrorInsert(old(chains), model, x);
      } else {
        assert oldNode.value in old(chains)[b];
        MirrorSwap(old(chains), model, i, x);
        assert chains[b][i := oldNode.value] == old(chains)[b];
      }
    }

    /** Replaces `y` by `x`, which has the same key, if `y` is accessible and passes the test. */
    method ReplaceIf(y: Node, x: Node, test: bool) returns (ok: bool)
      requires Valid() && y.key == x.key
      modifies this, heads
      ensures Valid() && model == Swapped(old(model), y, x, test) && ok == (Has(old(model), y) && test)
    {
      if !(y in accessible && test) { return false; }
      var oldNode; ghost var i;
      oldNode, i := Link(x);
      TakeOver(x, y);
      return true;
    }

    method Remove(x: Node) returns (ok: bool)
      requires Valid()
      modifies this, heads
      ensures Valid() && model == Removed(old(model), x) && ok == Has(old(model), x)
    {
      if x !in accessible { return false; }
      Unlink(x);
      Leave(x);
      return true;
    }

    /** Unlinks `x` from its bucket; the mark and the count are still to follow. */
    method Unlink(x: Node)
      requires Valid() && Has(model, x)
      modifies this`next, this`chains, heads
      ensures ChainsOk() && Mirrors(chains, model - {x.key})
    {
      KeyInBucket(x.key);
      assert BucketOk(heads[..], next, chains, GetBucket(x.key));
      RemoveFromBucket(x, GetBucket(x.key));
      MirrorCut(old(chains), model, x);
    }

    /** Removal under a test; nothing changes when no handle can be made. */
    method RemoveIf(x: Node, test: bool, throws: bool) returns (r: Option<Node>, failed: bool)
      requires Valid()
      modifies this, heads
      ensures Valid() && model == if test && !throws then Removed(old(model), x) else old(model)
      ensures failed == (Has(old(model), x) && test && throws)
      ensures r == if Has(old(model), x) && test && !throws then Some(x) else None
    {
      if !(x in accessible && test) { return None, false; }
      if throws { return None, true; }
      var ok := Remove(x);
      return Some(x), false;
    }

    /** Puts the replaced node back where it was. */
    method RollBack(x: Node, oldNode: Node, b: nat, ghost i: nat)
      requires ChainsOk() && b == GetBucket(x.key) && oldNode.key == x.key && i < |chains[b]| && chains[b][i] == x
      modifies this`next, this`chains, heads
      ensures ChainsOk() && chains == old(chains)[b := old(chains)[b][i := oldNode]]
    {
      assert BucketOk(heads[..], next, chains, b);
      assert x in chains[b];
      var y; ghost var j;
      y, j := InsertOrReplaceInBucket(oldNode, b);
      assert j == i;
    }
  
    /** The nodes of a bucket in order, except those to which no handle can be made. */
    method GetBucketElems(b: nat, refused: set<Node>) returns (elems: seq<Node>)
      requires Valid() && b < heads.Length
      ensures elems == Kept(chains[b], refused)
    {
      assert BucketOk(heads[..], next, chains, b);
      ghost var c := chains[b];
      elems := [];
      var curr := heads[b];
      ghost var i := 0;
      while curr.Some?
        invariant i <= |c| && curr == At(c, i) && elems == Kept(c[..i], refused)
        decreases |c| - i
      {
        KeptStep(c, refused, i);
        if curr.value !in refused { elems := elems + [curr.value]; }
        curr := next[curr.value];
        i := i + 1;
      }
      assert c[..i] == c;
    }
  }

  predicate IsPowerOfTwo(n: nat) { n == 1 || (n > 1 && n % 2 == 0 && IsPowerOfTwo(n / 2)) }

  /** A new table; null stands for the exception on a number of buckets that is not a power of two. */
  method NewTable(buckets: nat, hash: Key -> nat) returns (t: Table?)
    ensures t == null <==> !IsPowerOfTwo(buckets)
    ensures t != null ==> fresh(t) && t.Valid() && fresh(t.heads) && t.heads.Length == buckets && t.hasher == hash && t.model == map[]
  {
    var n := buckets;
    while n > 1 && n % 2 == 0
      invariant IsPowerOfTwo(n) == IsPowerOfTwo(buckets)
    {
      n := n / 2;
    }
    if n != 1 { return null; }
    t := new Table(buckets, hash);
  }
}
