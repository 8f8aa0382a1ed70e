/** The LRU eviction container with an insertion point: new nodes enter the list in front of a marked tail. */
module MMLru {
  import opened Options
  import opened Sequences

  type Node = nat

  datatype Mode = Read | Write

  /** `n >> k` */
  function Shift(n: nat, k: nat): nat { if k == 0 then n else Shift(n / 2, k - 1) }

  lemma {:induction false} ShiftStep(n: nat, k: nat)
    ensures Shift(n, k) <= Shift(n + 1, k) <= Shift(n, k) + 1
    ensures k > 0 ==> 2 * Shift(n, k) <= n
    decreases k
  {
    if k > 0 {
      ShiftStep(n / 2, k - 1);
      assert (n + 1) / 2 == n / 2 || (n + 1) / 2 == n / 2 + 1;
    }
  }

  /** How long the marked tail of a list of `n` nodes should be. */
  function Target(n: nat, spec: nat): nat {
    if spec == 0 || n == 0 then 0 else if Shift(n, spec) == 0 then 1 else Shift(n, spec)
  }

  /** One node more makes the tail at most one longer; a tail is the whole list only when that is one node. */
  lemma TargetStep(n: nat, spec: nat)
    requires spec > 0
    ensures Target(n, spec) <= Target(n + 1, spec) <= Target(n, spec) + 1
    ensures n > 1 ==> 1 <= Target(n, spec) < n
  {
    ShiftStep(n, spec);
    ShiftStep(n + 1, spec);
  }

  /** The members of `m` are the nodes of `s`. */
  ghost predicate Same(m: set<Node>, s: seq<Node>) { forall x :: x in m <==> x in s }

  lemma TargetSmall(n: nat, spec: nat)
    ensures n <= 1 && spec > 0 ==> Target(n, spec) == n
    ensures n > 1 && spec > 0 ==> Shift(n, spec) < n && Target(n, spec) == if Shift(n, spec) == 0 then 1 else Shift(n, spec)
  {
    ShiftStep(n, spec);
  }

  function Distance(a: nat, b: nat): nat { if a <= b then b - a else a - b }

  /** One node more calls for at most one step of repair. */
  lemma AddSteps(n: nat, spec: nat)
    ensures Distance(if Target(n, spec) == 0 && spec > 0 then 1 else Target(n, spec), Target(n + 1, spec)) <= 1
  {
    if spec > 0 { TargetStep(n, spec); }
  }

  /** The insertion point starts the last `t` nodes, and exactly those are marked. */
  ghost predicate TailIs(list: seq<Node>, t: nat, ip: Option<Node>, marked: set<Node>) {
    && t <= |list|
    && ip == (if t == 0 then None else Some(list[|list| - t]))
    && (forall i | 0 <= i < |list| :: list[i] in marked <==> i >= |list| - t)
    && (forall x | x in marked :: x in list)
  }

  function IndexOf(list: seq<Node>, x: Node): (i: nat)
    requires x in list
    ensures i < |list| && list[i] == x
  {
    if list[0] == x then 0 else 1 + IndexOf(list[1..], x)
  }

  lemma IndexUnique(list: seq<Node>, i: nat)
    requires Distinct(list) && i < |list|
    ensures IndexOf(list, list[i]) == i
  {
    DistinctIsNoDup(list);
  }

  function Prev(list: seq<Node>, x: Node): Option<Node>
    requires x in list
  {
    if IndexOf(list, x) == 0 then None else Some(list[IndexOf(list, x) - 1])
  }

  function Next(list: seq<Node>, x: Node): Option<Node>
    requires x in list
  {
    if IndexOf(list, x) + 1 == |list| then None else Some(list[IndexOf(list, x) + 1])
  }

  lemma AtEnds(list: seq<Node>, t: nat)
    requires Distinct(list) && 0 < t <= |list|
    ensures list[|list| - t] == list[0] <==> t == |list|
    ensures list[|list| - t] == list[|list| - 1] <==> t == 1
  {
    DistinctIsNoDup(list);
  }

  lemma TailGrow(list: seq<Node>, t: nat, marked: set<Node>)
    requires Distinct(list) && 0 < t < |list| && TailIs(list, t, Some(list[|list| - t]), marked)
    ensures var x := list[|list| - t - 1]; TailIs(list, t + 1, Some(x), marked + {x})
    ensures Prev(list, list[|list| - t]) == Some(list[|list| - t - 1]) && list[|list| - t - 1] != list[|list| - t]
  {
    DistinctIsNoDup(list);
    IndexUnique(list, |list| - t);
  }

  lemma TailShrink(list: seq<Node>, t: nat, marked: set<Node>)
    requires Distinct(list) && 0 < t <= |list| && TailIs(list, t, Some(list[|list| - t]), marked)
    ensures TailIs(list, t - 1, Next(list, list[|list| - t]), marked - {list[|list| - t]})
    ensures t > 1 ==> Next(list, list[|list| - t]) == Some(list[|list| - t + 1])
  {
    DistinctIsNoDup(list);
    IndexUnique(list, |list| - t);
  }

  lemma LastIsTail(list: seq<Node>, marked: set<Node>)
    requires Distinct(list) && list != [] && TailIs(list, 0, None, marked)
    ensures var x := list[|list| - 1]; TailIs(list, 1, Some(x), marked + {x})
  {
    DistinctIsNoDup(list);
  }

  lemma CutAt(list: seq<Node>, x: Node)
    requires Distinct(list) && x in list
    ensures var k := IndexOf(list, x); Without(list, x) == list[..k] + list[k + 1..]
  {
    DistinctIsNoDup(list);
    WithoutAt(list, IndexOf(list, x));
  }

  /** A node other than the insertion point leaves the list. */
  lemma TailRemove(list: seq<Node>, t: nat, ip: Option<Node>, marked: set<Node>, x: Node)
    requires Distinct(list) && TailIs(list, t, ip, marked) && x in list && ip != Some(x)
    ensures var t' := if x in marked then t - 1 else t; t' >= 0 && TailIs(Without(list, x), t', ip, marked - {x})
    ensures x in marked ==> t > 1
  {
    CutAt(list, x);
    TailCut(list, t, ip, marked, IndexOf(list, x));
  }

  lemma TailCut(list: seq<Node>, t: nat, ip: Option<Node>, marked: set<Node>, k: nat)
    requires Distinct(list) && TailIs(list, t, ip, marked) && k < |list| && ip != Some(list[k])
    ensures var x, r := list[k], list[..k] + list[k + 1..];
            var t' := if x in marked then t - 1 else t; t' >= 0 && TailIs(r, t', ip, marked - {x})
    ensures list[k] in marked ==> t > 1
  {
    DistinctIsNoDup(list);
    var x, r := list[k], list[..k] + list[k + 1..];
    assert forall i | 0 <= i < |r| :: r[i] == if i < k then list[i] else list[i + 1];
    forall y | y in marked - {x} ensures y in r {
      var i :| 0 <= i < |list| && list[i] == y;
      assert r[if i < k then i else i - 1] == y;
    }
  }

  /** A node in front of the tail, or of the whole list, does not change the tail. */
  lemma TailInsert(list: seq<Node>, t: nat, ip: Option<Node>, marked: set<Node>, x: Node, p: nat)
    requires TailIs(list, t, ip, marked) && p <= |list| - t && x !in list
    ensures TailIs(list[..p] + [x] + list[p..], t, ip, marked)
  {
    var r := list[..p] + [x] + list[p..];
    InsertedAt(list, x, p);
    forall i | 0 <= i < |r| ensures r[i] in marked <==> i >= |r| - t {
      if i < p { assert r[i] == list[i]; } else if i > p { assert r[i] == list[i - 1]; }
    }
  }

  lemma InsertedAt(list: seq<Node>, x: Node, p: nat)
    requires p <= |list|
    ensures var r := list[..p] + [x] + list[p..];
            && |r| == |list| + 1 && r[p] == x
            && (forall i | 0 <= i < p :: r[i] == list[i]) && (forall i | p < i < |r| :: r[i] == list[i - 1])
            && (forall y | y in list :: y in r)
  {
    assert list == list[..p] + list[p..];
  }

  lemma TailReplace(list: seq<Node>, t: nat, ip: Option<Node>, marked: set<Node>, x: Node, y: Node)
    requires Distinct(list) && TailIs(list, t, ip, marked) && x in list && y !in list
    ensures TailIs(Replaced(list, x, y), t, if ip == Some(x) then Some(y) else ip,
                   if x in marked then marked - {x} + {y} else marked)
    ensures y !in marked
  {
    DistinctIsNoDup(list);
    ReplacedMembers(list, x, y);
    var k := IndexOf(list, x);
    assert forall i | 0 <= i < |list| :: list[i] == x <==> i == k;
  }

  /** The list, head first, with its insertion point, the size of the tail and the tail-marked nodes. */
  datatype Queue = Queue(list: seq<Node>, ip: Option<Node>, tailSize: nat, marked: set<Node>)

  /** The other marks of the nodes, and their update times. */
  datatype Flags = Flags(accessed: set<Node>, inMM: set<Node>, updated: map<Node, nat>)
  {
    function TimeOf(x: Node): nat { if x in updated then updated[x] else 0 }
  }

  /** The marked nodes are exactly those from the insertion point on. */
  ghost predicate Ok(q: Queue) { Distinct(q.list) && TailIs(q.list, q.tailSize, q.ip, q.marked) }

  /** A new node enters in front of the tail, or at the head if there is none. */
  function Entered(q: Queue, x: Node): seq<Node> {
    if q.ip == None || q.tailSize > |q.list| then [x] + q.list
    else q.list[..|q.list| - q.tailSize] + [x] + q.list[|q.list| - q.tailSize..]
  }

  lemma EnterOk(q: Queue, x: Node)
    requires Ok(q) && x !in q.list
    ensures q.ip.Some? ==> |q.list| - q.tailSize >= 0 && IndexOf(q.list, q.ip.value) == |q.list| - q.tailSize
    ensures Ok(q.(list := Entered(q, x))) && |Entered(q, x)| == |q.list| + 1
    ensures forall y :: y in Entered(q, x) <==> y in q.list || y == x
  {
    var p := if q.ip == None then 0 else |q.list| - q.tailSize;
    TailInsert(q.list, q.tailSize, q.ip, q.marked, x, p);
    if q.ip.Some? { IndexUnique(q.list, p); }
    DistinctInsert(q.list, p, x);
    assert Entered(q, x) == q.list[..p] + [x] + q.list[p..];
  }

  lemma DistinctInsert(list: seq<Node>, p: nat, x: Node)
    requires Distinct(list) && x !in list && p <= |list|
    ensures Distinct(list[..p] + [x] + list[p..])
    ensures forall y :: y in list[..p] + [x] + list[p..] <==> y in list || y == x
  {
    assert list == list[..p] + list[p..];
    DistinctIsNoDup(list);
    var s := list[..p] + [x] + list[p..];
    forall i | 0 <= i < |s| ensures s[i] == if i < p then list[i] else if i == p then x else list[i - 1] {}
    forall i, j | 0 <= i < j < |s| ensures Differ(s, i, j) {}
  }

  /** `x` loses its place, and its mark with it. */
  function Left(q: Queue, x: Node): Queue
    requires x in q.marked ==> q.tailSize > 0
  {
    Queue(Without(q.list, x), q.ip, if x in q.marked then q.tailSize - 1 else q.tailSize, q.marked - {x})
  }

  lemma LeaveOk(q: Queue, x: Node)
    requires Ok(q) && x in q.list && q.ip != Some(x)
    ensures x in q.marked ==> q.tailSize > 1
    ensures Ok(Left(q, x)) && |Left(q, x).list| == |q.list| - 1
    ensures forall y :: y in Without(q.list, x) <==> y in q.list && y != x
  {
    TailRemove(q.list, q.tailSize, q.ip, q.marked, x);
    DistinctWithout(q.list, x);
  }

  lemma IpMarked(q: Queue)
    requires Ok(q) && q.ip.Some?
    ensures q.ip.value in q.marked && q.ip.value in q.list
  {}

  /** The only node, which is also the insertion point, loses its place. */
  lemma LeaveLast(q: Queue, x: Node)
    requires Ok(q) && |q.list| == 1 && q.ip == Some(x)
    ensures q.tailSize == 1 && x in q.marked && q.list == [x]
    ensures Ok(Queue([], None, 0, q.marked - {x}))
  {}

  lemma PutInFront(q: Queue, x: Node)
    requires Ok(q) && x !in q.list
    ensures Ok(q.(list := [x] + q.list))
  {
    TailInsert(q.list, q.tailSize, q.ip, q.marked, x, 0);
    DistinctInsert(q.list, 0, x);
    assert [x] + q.list == q.list[..0] + [x] + q.list[0..];
  }

  lemma ReplaceOk(q: Queue, x: Node, y: Node)
    requires Ok(q) && x in q.list && y !in q.list
    ensures Ok(Queue(Replaced(q.list, x, y), if q.ip == Some(x) then Some(y) else q.ip, q.tailSize,
                     if x in q.marked then q.marked - {x} + {y} else q.marked - {y}))
    ensures forall z :: z in Replaced(q.list, x, y) <==> (z in q.list && z != x) || z == y
  {
    TailReplace(q.list, q.tailSize, q.ip, q.marked, x, y);
    assert q.marked - {y} == q.marked;
    DistinctIsNoDup(q.list);
    ReplacedMembers(q.list, x, y);
    DistinctIsNoDup(Replaced(q.list, x, y));
  }

  lemma NoTail(q: Queue)
    requires TailIs(q.list, 0, q.ip, q.marked)
    ensures q.ip == None && q.marked == {}
  {
    assert forall x :: x !in q.marked;
  }

  class Container {
    const refreshTime: nat
    const updateOnRead: bool
    const updateOnWrite: bool
    const tryLockUpdate: bool
    var spec: nat                      // how far from the tail new nodes enter; 0 is at the head
    var q: Queue
    var flags: Flags

    /** The tail is a suffix of the list, and not all of it unless there is one node only; its length may be that of
        an earlier spec. */
    ghost predicate Consistent() reads this {
      && Ok(q) && Same(flags.inMM, q.list) && (spec == 0 ==> q.tailSize == 0)
      && (|q.list| > 1 ==> q.tailSize < |q.list|)
    }

    /** In addition, the tail is as long as it should be. */
    ghost predicate Valid() reads this { Consistent() && q.tailSize == Target(|q.list|, spec) }

    constructor (spec0: nat, refresh: nat, onRead: bool, onWrite: bool, tryLock: bool)
      ensures Valid() && q.list == [] && spec == spec0
    {
      spec, refreshTime, updateOnRead, updateOnWrite, tryLockUpdate := spec0, refresh, onRead, onWrite, tryLock;
      q, flags := Queue([], None, 0, {}), Flags({}, {}, map[]);
    }

    /** The last node becomes the insertion point. */
    method StartTail()
      requires Ok(q) && q.ip == None
      modifies this`q
      ensures Ok(q) && q.list == old(q.list) && q.tailSize == if q.list == [] then 0 else 1
    {
      q := q.(tailSize := 0);
      if q.list != [] {
        LastIsTail(q.list, q.marked);
        var x := q.list[|q.list| - 1];
        q := q.(ip := Some(x), marked := q.marked + {x}, tailSize := q.tailSize + 1);
      }
    }

    /** Moves the insertion point towards the head; `steps` counts the iterations. */
    method GrowTail(expected: nat) returns (ghost steps: nat)
      requires Ok(q) && q.ip.Some? && expected < |q.list|
      modifies this`q
      ensures Ok(q) && q.ip.Some? && q.list == old(q.list)
      ensures q.tailSize == old(q.tailSize) + steps
      ensures q.tailSize == if old(q.tailSize) < expected then expected else old(q.tailSize)
    {
      steps := 0;
      while q.tailSize < expected && q.ip.value != q.list[0]
        invariant Ok(q) && q.ip.Some? && q.list == old(q.list) && q.tailSize == old(q.tailSize) + steps
        invariant q.tailSize <= if old(q.tailSize) < expected then expected else old(q.tailSize)
        decreases expected - q.tailSize
      {
        TailGrow(q.list, q.tailSize, q.marked);
        var x := Prev(q.list, q.ip.value).value;
        q := q.(ip := Some(x), marked := q.marked + {x}, tailSize := q.tailSize + 1);
        steps := steps + 1;
      }
      AtEnds(q.list, q.tailSize);
    }

    /** Moves the insertion point towards the tail, which keeps at least one node. */
    method ShrinkTail(expected: nat) returns (ghost steps: nat)
      requires Ok(q) && q.ip.Some?
      modifies this`q
      ensures Ok(q) && q.ip.Some? && q.list == old(q.list)
      ensures old(q.tailSize) == q.tailSize + steps
      ensures var e := if expected == 0 then 1 else expected;
              q.tailSize == if old(q.tailSize) > e then e else old(q.tailSize)
    {
      steps := 0;
      while q.tailSize > expected && q.ip.value != q.list[|q.list| - 1]
        invariant Ok(q) && q.ip.Some? && q.list == old(q.list) && old(q.tailSize) == q.tailSize + steps
        invariant q.tailSize >= if old(q.tailSize) > expected then expected else old(q.tailSize)
        decreases q.tailSize
      {
        AtEnds(q.list, q.tailSize);
        TailShrink(q.list, q.tailSize, q.marked);
        var x := q.ip.value;
        q := q.(ip := Next(q.list, x), marked := q.marked - {x}, tailSize := q.tailSize - 1);
        steps := steps + 1;
      }
      AtEnds(q.list, q.tailSize);
    }

    /** Brings the tail to the expected size, or to one node if that is 0. */
    method Resize(expected: nat) returns (ghost steps: nat)
      requires Ok(q) && q.ip.Some? && expected < |q.list|
      modifies this`q
      ensures Ok(q) && q.list == old(q.list)
      ensures q.tailSize == (if expected == 0 then 1 else expected) && steps == Distance(old(q.tailSize), q.tailSize)
    {
      steps := GrowTail(expected);
      ghost var more := ShrinkTail(expected);
      steps := steps + more;
    }

    /** Repairs the tail after a change; `steps` counts the iterations of its two loops. */
    method UpdateLruInsertionPoint() returns (ghost steps: nat)
      requires Ok(q) && (spec == 0 ==> q.tailSize == 0)
      modifies this`q
      ensures Ok(q) && q.list == old(q.list) && q.tailSize == Target(|q.list|, spec)
      ensures |q.list| > 1 ==> q.tailSize < |q.list|
      ensures steps <= Distance(if old(q.tailSize) == 0 && spec > 0 then 1 else old(q.tailSize), q.tailSize)
    {
      TargetSmall(|q.list|, spec);
      if spec == 0 { return 0; }
      if |q.list| <= 1 {
        if q.ip == None { StartTail(); }
        return 0;
      }
      if q.ip == None { StartTail(); }
      steps := Resize(Shift(|q.list|, spec));
    }

    /** Before `x` leaves its place, the insertion point moves off it. */
    method EnsureNotInsertionPoint(x: Node)
      requires Ok(q) && x in q.list
      modifies this`q
      ensures q.list == old(q.list)
      ensures old(q.ip) != Some(x) ==> q == old(q)
      ensures old(q.ip) == Some(x) && old(q.tailSize) < |q.list| ==>
                Ok(q) && q.ip.Some? && q.ip != Some(x) && q.tailSize == old(q.tailSize) + 1 && old(q.marked) <= q.marked
      ensures old(q.ip) == Some(x) && old(q.tailSize) == |q.list| ==> q == old(q).(ip := None)
    {
      if q.ip == Some(x) {
        AtEnds(q.list, q.tailSize);
        IndexUnique(q.list, |q.list| - q.tailSize);
        if q.tailSize < |q.list| { TailGrow(q.list, q.tailSize, q.marked); }
        q := q.(ip := Prev(q.list, x));
        if q.ip.Some? {
          q := q.(tailSize := q.tailSize + 1, marked := q.marked + {q.ip.value});
        }
      }
    }

    /** Puts `x` in front of the tail, or at the head if there is none. */
    method Enter(x: Node)
      requires Consistent() && x !in q.list
      modifies this`q
      ensures Ok(q) && q.list == Entered(old(q), x) && |q.list| == |old(q.list)| + 1 && q.tailSize == old(q.tailSize)
      ensures forall y :: y in q.list <==> y in old(q.list) || y == x
    {
      EnterOk(q, x);
      if spec == 0 || q.ip == None {
        q := q.(list := [x] + q.list);
      } else {
        q := q.(list := q.list[..IndexOf(q.list, q.ip.value)] + [x] + q.list[IndexOf(q.list, q.ip.value)..]);
      }
    }

    /** Adds a node in front of the tail; whatever the tail was, it has its right length then. */
    method Add(x: Node, now: nat) returns (ok: bool, ghost steps: nat)
      requires Consistent()
      modifies this
      ensures Consistent() && spec == old(spec) && ok == (x !in old(q.list)) && (ok ==> Valid())
      ensures q.list == if ok then Entered(old(q), x) else old(q.list)
      ensures old(Valid()) ==> Valid() && steps <= 1
    {
      if x in flags.inMM { return false, 0; }
      steps := AddNew(x, now);
      return true, steps;
    }

    method AddNew(x: Node, now: nat) returns (ghost steps: nat)
      requires Consistent() && x !in flags.inMM
      modifies this
      ensures Valid() && spec == old(spec) && q.list == Entered(old(q), x) && (old(Valid()) ==> steps <= 1)
    {
      AddSteps(|q.list|, spec);
      Enter(x);
      flags := Flags(flags.accessed - {x}, flags.inMM + {x}, flags.updated[x := now]);
      steps := UpdateLruInsertionPoint();
    }

    /** Takes `x` out of its place, with its tail mark; the tail may be one too long or too short now. */
    method TakeOut(x: Node)
      requires Consistent() && x in q.list
      modifies this`q
      ensures Ok(q) && q.list == Without(old(q.list), x) && |q.list| == |old(q.list)| - 1
      ensures forall y :: y in q.list <==> y in old(q.list) && y != x
      ensures q.tailSize <= old(q.tailSize) <= q.tailSize + 1
      ensures x !in old(q.marked) ==> q.tailSize == old(q.tailSize)
      ensures old(q.tailSize) > 0 && |q.list| > 0 ==> q.tailSize > 0
    {
      if q.ip == Some(x) {
        IpMarked(q);
        if |q.list| == 1 { TakeLast(x); } else { TakeIp(x); }
      } else {
        EnsureNotInsertionPoint(x);
        LeaveOk(q, x);
        q := Left(q, x);
      }
    }

    method TakeLast(x: Node)
      requires Ok(q) && q.ip == Some(x) && |q.list| == 1
      modifies this`q
      ensures Ok(q) && q.list == [] && q.tailSize == 0 && old(q.tailSize) == 1 && Without(old(q.list), x) == []
    {
      LeaveLast(q, x);
      EnsureNotInsertionPoint(x);
      q := Left(q, x);
      assert q == Queue([], None, 0, old(q.marked) - {x});
    }

    method TakeIp(x: Node)
      requires Ok(q) && q.ip == Some(x) && q.tailSize < |q.list| && x in q.list && x in q.marked
      modifies this`q
      ensures Ok(q) && q.list == Without(old(q.list), x) && |q.list| == |old(q.list)| - 1 && q.tailSize == old(q.tailSize)
      ensures forall y :: y in q.list <==> y in old(q.list) && y != x
    {
      EnsureNotInsertionPoint(x);
      LeaveOk(q, x);
      q := Left(q, x);
    }

    method RemoveLocked(x: Node) returns (ghost steps: nat)
      requires Consistent() && x in flags.inMM
      modifies this
      ensures Valid() && spec == old(spec) && q.list == Without(old(q.list), x)
      ensures old(Valid()) ==> steps <= 1
    {
      if spec > 0 { TargetStep(|q.list| - 1, spec); }
      TakeOut(x);
      flags := flags.(accessed := flags.accessed - {x}, inMM := flags.inMM - {x});
      steps := UpdateLruInsertionPoint();
    }

    method Remove(x: Node) returns (ok: bool, ghost steps: nat)
      requires Consistent()
      modifies this
      ensures Consistent() && spec == old(spec) && ok == (x in old(q.list)) && (ok ==> Valid())
      ensures old(Valid()) ==> Valid() && steps <= 1
      ensures q.list == if ok then Without(old(q.list), x) else old(q.list)
    {
      if x !in flags.inMM { return false, 0; }
      steps := RemoveLocked(x);
      return true, steps;
    }

    /** Whether an access is recorded at all; a node's first access always is. */
    predicate Due(x: Node, mode: Mode, now: nat)
      reads this
    {
      && (mode == Write ==> updateOnWrite) && (mode == Read ==> updateOnRead)
      && x in flags.inMM && (now >= flags.TimeOf(x) + refreshTime || x !in flags.accessed)
    }

    method RecordAccess(x: Node, mode: Mode, now: nat, gotLock: bool) returns (ok: bool, ghost steps: nat)
      requires Consistent()
      modifies this
      ensures Consistent() && spec == old(spec) && (old(Valid()) ==> Valid() && steps <= 1)
      ensures ok == (old(Due(x, mode, now)) && (tryLockUpdate ==> gotLock))
      ensures q.list == if ok then [x] + Without(old(q.list), x) else old(q.list)
      ensures flags.accessed == old(flags.accessed) + if old(Due(x, mode, now)) then {x} else {}
    {
      if (mode == Write && !updateOnWrite) || (mode == Read && !updateOnRead) { return false, 0; }
      if !(x in flags.inMM && (now >= flags.TimeOf(x) + refreshTime || x !in flags.accessed)) { return false, 0; }
      if x !in flags.accessed { flags := flags.(accessed := flags.accessed + {x}); }
      if tryLockUpdate && !gotLock { return false, 0; }
      steps := Promote(x);
      flags := flags.(updated := flags.updated[x := now]);
      return true, steps;
    }

    /** Moves `x` to the head. */
    method Promote(x: Node) returns (ghost steps: nat)
      requires Consistent() && x in q.list
      modifies this`q
      ensures Consistent() && q.list == [x] + Without(old(q.list), x)
      ensures old(Valid()) ==> Valid() && steps <= 1
    {
      var wasTail := x in q.marked;
      TakeOut(x);
      PutInFront(q, x);
      q := q.(list := [x] + q.list);
      steps := 0;
      if wasTail { steps := UpdateLruInsertionPoint(); }
    }

    /** Puts `y` in the place of `x`, marks included. */
    method Replace(x: Node, y: Node) returns (ok: bool)
      requires Consistent()
      modifies this
      ensures Consistent() && spec == old(spec) && ok == (x in old(q.list) && y !in old(q.list)) && (old(Valid()) ==> Valid())
      ensures q.list == if ok then Replaced(old(q.list), x, y) else old(q.list)
      ensures ok ==> (y in flags.accessed <==> x in old(flags.accessed)) && flags.TimeOf(y) == old(flags).TimeOf(x)
    {
      if x !in flags.inMM || y in flags.inMM { return false; }
      ReplaceOk(q, x, y);
      flags := Flags(if x in flags.accessed then flags.accessed + {y} else flags.accessed - {y},
                     flags.inMM - {x} + {y}, flags.updated[y := flags.TimeOf(x)]);
      q := Queue(Replaced(q.list, x, y), if q.ip == Some(x) then Some(y) else q.ip, q.tailSize,
                 if x in q.marked then q.marked - {x} + {y} else q.marked - {y});
      return true;
    }

    /** A new insertion point setting; switching it off removes the marks from the whole tail.  Another
        setting takes effect with the next node that is added or removed. */
    method SetSpec(newSpec: nat)
      requires Consistent()
      modifies this
      ensures Consistent() && spec == newSpec && q.list == old(q.list)
      ensures newSpec == 0 ==> Valid() && q.ip == None && q.marked == {}
      ensures newSpec > 0 && old(spec) > 0 ==> q == old(q)
    {
      spec := newSpec;
      if spec == 0 && q.ip != None {
        var curr := q.ip;
        while q.tailSize != 0
          invariant spec == 0 && flags == old(flags) && q.list == old(q.list)
          invariant Distinct(q.list) && TailIs(q.list, q.tailSize, curr, q.marked)
          decreases q.tailSize
        {
          TailShrink(q.list, q.tailSize, q.marked);
          var x := curr.value;
          q := q.(marked := q.marked - {x}, tailSize := q.tailSize - 1);
          curr := Next(q.list, x);
        }
        q := q.(ip := None);
      }
      if spec == 0 { NoTail(q); }
    }
  }
}
