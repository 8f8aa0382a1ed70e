/** Iteration over the hash table while other threads change it.

    The iterator reads one bucket at a time, under its lock, into a buffer of handles.  What other
    threads do between two such reads is a list of operations. */
module HashTableIterator {
  import opened ChainedHashTable

  datatype Op =
    | Insert(x: Node)
    | InsertOrReplace(x: Node, throws: bool)
    | ReplaceIf(y: Node, x: Node, test: bool)
    | Remove(x: Node)
    | RemoveIf(x: Node, test: bool, throws: bool)

  function Apply(m: Map, op: Op): Map {
    match op
    case Insert(x) => Inserted(m, x)
    case InsertOrReplace(x, throws) => Put(m, x, throws)
    case ReplaceIf(y, x, test) => if y.key == x.key then Swapped(m, y, x, test) else m
    case Remove(x) => Removed(m, x)
    case RemoveIf(x, test, throws) => if test && !throws then Removed(m, x) else m
  }

  function ApplyAll(m: Map, ops: seq<Op>): Map
    decreases |ops|
  {
    if ops == [] then m else ApplyAll(Apply(m, ops[0]), ops[1..])
  }

  /** What happens before the iterator reads a bucket, and the nodes of which it can get no handle then. */
  datatype Turn = Turn(ops: seq<Op>, refused: set<Node>)

  /** The map when bucket `|turns| - 1` is read. */
  function After(m: Map, turns: seq<Turn>): Map {
    if turns == [] then m else ApplyAll(After(m, turns[..|turns| - 1]), turns[|turns| - 1].ops)
  }

  method Do(t: Table, op: Op)
    requires t.Valid()
    modifies t, t.heads
    ensures t.Valid() && t.model == Apply(old(t.model), op)
  {
    match op
    case Insert(x) => var _ := t.Insert(x);
    case InsertOrReplace(x, throws) => var _, _ := t.InsertOrReplace(x, throws);
    case ReplaceIf(y, x, test) => if y.key == x.key { var _ := t.ReplaceIf(y, x, test); }
    case Remove(x) => var _ := t.Remove(x);
    case RemoveIf(x, test, throws) => var _, _ := t.RemoveIf(x, test, throws);
  }

  method DoAll(t: Table, ops: seq<Op>)
    requires t.Valid()
    modifies t, t.heads
    ensures t.Valid() && t.model == ApplyAll(old(t.model), ops)
  {
    var i := 0;
    while i < |ops|
      invariant 0 <= i <= |ops| && t.Valid() && ApplyAll(t.model, ops[i..]) == ApplyAll(old(t.model), ops)
    {
      assert ops[i..][1..] == ops[i + 1..];
      Do(t, ops[i]);
      i := i + 1;
    }
  }

  /** Node `x` was in the map, and a handle to it could be made, when bucket `b` was read. */
  ghost predicate Readable(m: Map, turns: seq<Turn>, b: nat, x: Node)
    requires b < |turns|
  {
    Has(After(m, turns[..b + 1]), x) && x !in turns[b].refused
  }

  /** `v` holds, exactly once, the nodes of the first `n` buckets that were readable at their turn, and no other. */
  ghost predicate Visits(t: Table, v: seq<Node>, n: nat, m: Map, turns: seq<Turn>)
    requires |turns| == t.heads.Length > 0
  {
    forall x :: multiset(v)[x] == if t.GetBucket(x.key) < n && Readable(m, turns, t.GetBucket(x.key), x) then 1 else 0
  }

  lemma VisitsMore(t: Table, v: seq<Node>, m: Map, turns: seq<Turn>, n: nat)
    requires t.Valid() && n < t.heads.Length == |turns| && Visits(t, v, n, m, turns) && t.model == After(m, turns[..n + 1])
    ensures Visits(t, v + Kept(t.chains[n], turns[n].refused), n + 1, m, turns)
  {
    assert t.BucketOk(t.heads[..], t.next, t.chains, n);
    forall x ensures multiset(v + Kept(t.chains[n], turns[n].refused))[x]
                     == if t.GetBucket(x.key) < n + 1 && Readable(m, turns, t.GetBucket(x.key), x) then 1 else 0 {
      KeptOnce(t.chains[n], turns[n].refused, x);
      if t.GetBucket(x.key) == n { t.KeyInBucket(x.key); }
    }
  }

  lemma AfterMore(m: Map, turns: seq<Turn>, b: nat)
    requires b < |turns|
    ensures After(m, turns[..b + 1]) == ApplyAll(After(m, turns[..b]), turns[b].ops)
  {
    assert turns[..b + 1][..b] == turns[..b];
  }

  /** What is left of the buffer `elems` at position `c`. */
  function Rest(elems: seq<Node>, c: nat): seq<Node> { if c < |elems| then elems[c..] else [] }

  lemma RestStep(passed: seq<Node>, elems: seq<Node>, c: nat)
    requires c < |elems|
    ensures passed + [elems[c]] + Rest(elems, c + 1) == passed + Rest(elems, c)
  {}

  /** One turn per bucket, and the map before all of them; wrapped, so that proofs about the iterator meet their
      contents only where they unwrap them. */
  datatype Script = Script(turns: seq<Turn>)
  datatype Start = Start(m: Map)

  /** The key to `Gives` below: what that says is used only in proofs that assert `Open(0)`. */
  ghost predicate Open(u: nat) { true }

  class Iterator {
    const table: Table
    var currBucket: nat
    var cursor: nat
    var elems: seq<Node>
    // what the reads so far have given, and the part that the iterator has moved past
    ghost var all: seq<Node>
    ghost var passed: seq<Node>

    constructor (t: Table)
      ensures table == t
    {
      table := t;
    }

    predicate AtEnd() reads this { currBucket == table.heads.Length && elems == [] && cursor == 0 }

    /** Reading the first `n` buckets, each at its turn, gives `v`; a proof that needs to know more says `Open(0)`. */
    ghost predicate Gives(n: nat, v: seq<Node>, m: Start, s: Script) {
      forall u: nat {:trigger Open(u)} | Open(u) ::
        n <= |s.turns| == table.heads.Length && table.heads.Length > 0 && Visits(table, v, n, m.m, s.turns)
    }

    /** The table is as the first `n` turns leave it. */
    ghost predicate TableAt(n: nat, m: Start, s: Script) reads table, table.heads {
      table.Valid() && n <= |s.turns| && table.model == After(m.m, s.turns[..n])
    }

    ghost predicate HasRead(n: nat, v: seq<Node>, m: Start, s: Script) reads table, table.heads {
      Gives(n, v, m, s) && TableAt(n, m, s)
    }

    /** The iteration is over, or the buffer holds the last bucket read. */
    ghost predicate Valid(m: Start, s: Script) reads this, table, table.heads {
      && HasRead(if AtEnd() then currBucket else currBucket + 1, all, m, s)
      && (AtEnd() || (cursor < |elems| && currBucket < table.heads.Length)) && all == passed + Rest(elems, cursor)
    }

    /** Reads bucket `currBucket` into the buffer. */
    method Read(s: Script, ghost m: Start)
      requires HasRead(currBucket, all, m, s) && currBucket < table.heads.Length
      modifies table, table.heads, this`elems, this`all
      ensures HasRead(currBucket + 1, all, m, s) && all == old(all) + elems
    {
      OneTurnEach(currBucket, all, m, s);
      var turn := s.turns[currBucket];
      DoAll(table, turn.ops);
      AfterMore(m.m, s.turns, currBucket);
      elems := table.GetBucketElems(currBucket, turn.refused);
      GivesMore(currBucket, all, m, s);
      all := all + elems;
    }

    lemma OneTurnEach(n: nat, v: seq<Node>, m: Start, s: Script)
      requires Gives(n, v, m, s)
      ensures |s.turns| == table.heads.Length
    {
      assert Open(0);
    }

    /** The bucket that is read at its turn adds what it holds. */
    lemma GivesMore(n: nat, v: seq<Node>, m: Start, s: Script)
      requires Gives(n, v, m, s) && n < |s.turns| == table.heads.Length
      requires table.Valid() && table.model == After(m.m, s.turns[..n + 1])
      ensures Gives(n + 1, v + Kept(table.chains[n], s.turns[n].refused), m, s)
    {
      assert Open(0);
      VisitsMore(table, v, m.m, s.turns, n);
    }

    method Reset(s: Script, ghost m: Start)
      requires HasRead(0, [], m, s) && table.heads.Length > 0
      modifies table, table.heads, this
      ensures Valid(m, s) && passed == []
    {
      elems, cursor, currBucket, all, passed := [], 0, 0, [], [];
      NextBucket(s, m);
      assert Rest(elems, 0) == elems;
    }

    /** operator++ */
    method Next(s: Script, ghost m: Start)
      requires Valid(m, s) && !AtEnd()
      modifies table, table.heads, this
      ensures Valid(m, s) && passed == old(passed) + [old(elems[cursor])]
      ensures currBucket > old(currBucket) || (currBucket == old(currBucket) && cursor > old(cursor) && elems == old(elems))
    {
      RestStep(passed, elems, cursor);
      passed := passed + [elems[cursor]];
      cursor := cursor + 1;
      if cursor < |elems| { return; }
      elems, cursor, currBucket := [], 0, currBucket + 1;
      NextBucket(s, m);
      assert Rest(elems, 0) == elems;
    }

    /** Goes on to the next bucket with an element, or to the end. */
    method NextBucket(s: Script, ghost m: Start)
      requires HasRead(currBucket, all, m, s) && all == passed && currBucket <= table.heads.Length && elems == []
      modifies table, table.heads, this`currBucket, this`elems, this`all
      ensures old(currBucket) <= currBucket <= table.heads.Length && all == passed + elems
      ensures HasRead(if elems == [] then currBucket else currBucket + 1, all, m, s)
      ensures elems == [] <==> currBucket == table.heads.Length
    {
      while elems == [] && currBucket < table.heads.Length
        invariant old(currBucket) <= currBucket <= table.heads.Length && all == passed + elems
        invariant elems != [] ==> currBucket < table.heads.Length
        invariant HasRead(if elems == [] then currBucket else currBucket + 1, all, m, s)
        decreases table.heads.Length - currBucket, |elems| == 0
      {
        TryBucket(s, m);
      }
    }

    /** Reads one bucket, and moves on if it gives nothing. */
    method TryBucket(s: Script, ghost m: Start)
      requires HasRead(currBucket, all, m, s) && currBucket < table.heads.Length && all == passed
      modifies table, table.heads, this`currBucket, this`elems, this`all
      ensures HasRead(if elems == [] then currBucket else currBucket + 1, all, m, s) && all == passed + elems
      ensures currBucket == old(currBucket) + if elems == [] then 1 else 0
    {
      Read(s, m);
      if elems == [] { currBucket := currBucket + 1; }
    }
  }

  /** Property: over a whole iteration, under any changes by others, a node is visited exactly once if it is in
      the map, and a handle to it can be made, at the time its bucket is read, and not at all otherwise. */
  method Iterate(t: Table, turns: seq<Turn>) returns (visited: seq<Node>)
    requires t.Valid() && |turns| == t.heads.Length
    modifies t, t.heads
    ensures forall x :: multiset(visited)[x] == if Readable(old(t.model), turns, t.GetBucket(x.key), x) then 1 else 0
  {
    ghost var m := Start(t.model);
    var s := Script(turns);
    var it := new Iterator(t);
    assert it.HasRead(0, [], m, s) by { assert turns[..0] == []; }
    visited := Walk(it, s, m);
    assert Open(0);
  }

  method Walk(it: Iterator, s: Script, ghost m: Start) returns (visited: seq<Node>)
    requires it.HasRead(0, [], m, s) && it.table.heads.Length > 0
    modifies it, it.table, it.table.heads
    ensures it.HasRead(it.table.heads.Length, visited, m, s) && it.AtEnd()
  {
    it.Reset(s, m);
    visited := [];
    while !it.AtEnd()
      invariant it.Valid(m, s) && visited == it.passed
      decreases it.table.heads.Length - it.currBucket, |it.elems| - it.cursor
    {
      visited := visited + [it.elems[it.cursor]];
      it.Next(s, m);
    }
  }

  // ---- what becomes of one key

  /** Every node is under its own key. */
  ghost predicate Keyed(m: Map) { forall k | k in m :: m[k].key == k }

  lemma {:induction false} KeyedAll(m: Map, ops: seq<Op>)
    requires Keyed(m)
    ensures Keyed(ApplyAll(m, ops))
    decreases |ops|
  {
    if ops != [] { KeyedAll(Apply(m, ops[0]), ops[1..]); }
  }

  lemma {:induction false} KeyedAfter(m: Map, turns: seq<Turn>)
    requires Keyed(m)
    ensures Keyed(After(m, turns))
  {
    if turns != [] {
      KeyedAfter(m, turns[..|turns| - 1]);
      KeyedAll(After(m, turns[..|turns| - 1]), turns[|turns| - 1].ops);
    }
  }

  /** A handle to the node under key `k` could be made when bucket `b` was read. */
  ghost predicate KeyReadable(m: Map, turns: seq<Turn>, b: nat, k: Key)
    requires b < |turns|
  {
    k in After(m, turns[..b + 1]) && After(m, turns[..b + 1])[k] !in turns[b].refused
  }

  /** Exactly one place of `v` has a node with key `k`. */
  ghost predicate Once(v: seq<Node>, k: Key) {
    exists i :: 0 <= i < |v| && v[i].key == k && forall j | 0 <= j < |v| && v[j].key == k :: j == i
  }

  lemma TwoPlaces(v: seq<Node>, i: nat, j: nat)
    requires i < j < |v| && v[i] == v[j]
    ensures multiset(v)[v[i]] >= 2
  {
    assert v == v[..i] + [v[i]] + v[i + 1..j] + [v[j]] + v[j + 1..];
  }

  /** Nodes visited as `Iterate` says: a key that is readable when its bucket is read is met once, any other never. */
  lemma KeyMetOnce(m: Map, turns: seq<Turn>, b: nat, v: seq<Node>, k: Key)
    requires b < |turns| && Keyed(m)
    requires forall x: Node | x.key == k :: multiset(v)[x] == if Readable(m, turns, b, x) then 1 else 0
    ensures if KeyReadable(m, turns, b, k) then Once(v, k) else forall i | 0 <= i < |v| :: v[i].key != k
  {
    KeyedAfter(m, turns[..b + 1]);
    forall i | 0 <= i < |v| && v[i].key == k
      ensures KeyReadable(m, turns, b, k) && v[i] == After(m, turns[..b + 1])[k]
    {
      assert v[i] in multiset(v);
    }
    if KeyReadable(m, turns, b, k) {
      var x := After(m, turns[..b + 1])[k];
      assert x in multiset(v);
      var i :| 0 <= i < |v| && v[i] == x;
      forall j | 0 <= j < |v| && v[j].key == k ensures j == i {
        if j < i { TwoPlaces(v, j, i); } else if i < j { TwoPlaces(v, i, j); }
      }
    }
  }

  /** Property: a key is visited exactly once if it is in the table, and a handle to its node of that time can be made,
      when its bucket is read, however often the node was replaced before; any other key is not visited. */
  method IterateKeys(t: Table, turns: seq<Turn>) returns (visited: seq<Node>)
    requires t.Valid() && |turns| == t.heads.Length
    modifies t, t.heads
    ensures forall k :: if KeyReadable(old(t.model), turns, t.GetBucket(k), k) then Once(visited, k)
                        else forall i | 0 <= i < |visited| :: visited[i].key != k
  {
    ghost var m := t.model;
    assert Keyed(m);
    visited := Iterate(t, turns);
    forall k ensures if KeyReadable(m, turns, t.GetBucket(k), k) then Once(visited, k)
                     else forall i | 0 <= i < |visited| :: visited[i].key != k
    {
      KeyMetOnce(m, turns, t.GetBucket(k), visited, k);
    }
  }
}
