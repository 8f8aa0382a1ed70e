/** The 2Q eviction container: five lists, three flag bits per node, and size percentages. */
module MM2Q {
  import opened Sequences

  type Node = nat

  datatype LruType = Warm | WarmTail | Hot | Cold | ColdTail

  datatype Mode = Read | Write

  datatype Config = Config(
    hotPercent: nat, coldPercent: nat, tailSize: nat, refreshTime: nat,
    updateOnRead: bool, updateOnWrite: bool, tryLockUpdate: bool, rebalanceOnRecordAccess: bool)
  {
    function WarmPercent(): int { 100 - hotPercent - coldPercent }

    predicate Valid() { hotPercent + coldPercent <= 100 }
  }

  // ---- what the container looks like when the tail lists are not told apart

  /** The three queues, head first, and the update times. */
  datatype View = View(hot: seq<Node>, warm: seq<Node>, cold: seq<Node>, times: map<Node, nat>)
  {
    predicate Has(x: Node) { x in hot || x in warm || x in cold }
    function Size(): nat { |hot| + |warm| + |cold| }
    function TimeOf(x: Node): nat { if x in times then times[x] else 0 }
    function Drop(x: Node): View { this.(hot := Without(hot, x), warm := Without(warm, x), cold := Without(cold, x)) }
    function Put(x: Node, y: Node): View {
      this.(hot := Replaced(hot, x, y), warm := Replaced(warm, x, y), cold := Replaced(cold, x, y))
    }
    /** The order in which an eviction looks at the nodes. */
    function EvictionOrder(): seq<Node> { Reverse(cold) + Reverse(hot) + Reverse(warm) }
  }

  /** `percent` of `n`, rounded down. */
  function Share(percent: int, n: nat): nat
    requires percent >= 0
  {
    percent * n / 100
  }

  function Keep(s: seq<Node>, n: nat): nat { if |s| <= n then |s| else n }

  /** The surplus of Warm, then of Hot, goes to the head of Cold; no node changes places otherwise. */
  function Rebalanced(c: Config, v: View): View
    requires c.Valid()
  {
    var w := Keep(v.warm, Share(c.WarmPercent(), v.Size()));
    var h := Keep(v.hot, Share(c.hotPercent, v.Size()));
    v.(warm := v.warm[..w], hot := v.hot[..h], cold := v.hot[h..] + (v.warm[w..] + v.cold))
  }

  function Added(c: Config, v: View, x: Node, now: nat): (View, bool)
    requires c.Valid()
  {
    if v.Has(x) then (v, false)
    else (Rebalanced(c, v.(hot := [x] + v.hot)).(times := v.times[x := now]), true)
  }

  function Removed(c: Config, v: View, x: Node): (View, bool)
    requires c.Valid()
  {
    if !v.Has(x) then (v, false) else (Rebalanced(c, v.Drop(x)), true)
  }

  function Exchanged(v: View, x: Node, y: Node): (View, bool) {
    if !v.Has(x) || v.Has(y) then (v, false) else (v.Put(x, y).(times := v.times[y := v.TimeOf(x)]), true)
  }

  predicate Stale(c: Config, v: View, x: Node, mode: Mode, now: nat) {
    && (mode == Write ==> c.updateOnWrite) && (mode == Read ==> c.updateOnRead)
    && v.Has(x) && now >= v.TimeOf(x) + c.refreshTime
  }

  /** An access promotes Hot to the head of Hot, Warm to the head of Warm, and Cold to the head of Warm. */
  function MovedToHead(v: View, x: Node): View {
    if x in v.hot then v.(hot := [x] + Without(v.hot, x))
    else v.(cold := Without(v.cold, x), warm := [x] + Without(v.warm, x))
  }

  function Promoted(c: Config, v: View, x: Node): View
    requires c.Valid()
  {
    if x !in v.hot && x in v.cold && c.rebalanceOnRecordAccess then Rebalanced(c, MovedToHead(v, x)) else MovedToHead(v, x)
  }

  function Accessed(c: Config, v: View, x: Node, mode: Mode, now: nat, gotLock: bool): (View, bool)
    requires c.Valid()
  {
    if Stale(c, v, x, mode, now) && (c.tryLockUpdate ==> gotLock)
    then (Promoted(c, v, x).(times := v.times[x := now]), true)
    else (v, false)
  }

  lemma Split(s: seq<Node>, k: nat)
    requires k <= |s|
    ensures s == s[..k] + s[k..]
    ensures forall x :: x in s <==> x in s[..k] || x in s[k..]
  {
    assert s == s[..k] + s[k..];
  }

  lemma Spill(s: seq<Node>, k: nat, c: seq<Node>)
    requires k < |s|
    ensures s[k..] + c == [s[k]] + (s[k + 1..] + c)
    ensures s[..k + 1][..k] == s[..k]
  {}

  /** Rebalancing loses no node and makes none. */
  lemma RebalanceLosesNothing(c: Config, v: View)
    requires c.Valid()
    ensures var r := Rebalanced(c, v);
            && multiset(r.hot + r.warm + r.cold) == multiset(v.hot + v.warm + v.cold)
            && r.Size() == v.Size() && forall x :: r.Has(x) <==> v.Has(x)
  {
    var r := Rebalanced(c, v);
    Split(v.warm, |r.warm|);
    Split(v.hot, |r.hot|);
    assert multiset(v.warm) == multiset(r.warm) + multiset(v.warm[|r.warm|..]);
    assert multiset(v.hot) == multiset(r.hot) + multiset(v.hot[|r.hot|..]);
  }

  /** After rebalancing, Warm and Hot are within their shares and Cold has at least its own. */
  lemma RebalanceBounds(c: Config, v: View)
    requires c.Valid()
    ensures var r, n := Rebalanced(c, v), v.Size();
            && |r.warm| <= c.WarmPercent() * n / 100
            && |r.hot| <= c.hotPercent * n / 100
            && 100 * |r.cold| >= c.coldPercent * n
  {
    var r, n := Rebalanced(c, v), v.Size();
    assert |r.hot| + |r.warm| + |r.cold| == n;
    assert 100 * |r.hot| <= c.hotPercent * n && 100 * |r.warm| <= c.WarmPercent() * n;
    assert c.hotPercent * n + c.WarmPercent() * n + c.coldPercent * n == 100 * n;
  }

  // ---- operations in sequence

  datatype Op =
    | OpAdd(x: Node, now: nat)
    | OpRemove(x: Node)
    | OpEvict(x: Node)                 // removal through an eviction iterator
    | OpReplace(x: Node, y: Node)      // `y` is newly allocated, unless it is linked
    | OpAccess(x: Node, mode: Mode, now: nat, gotLock: bool)

  /** What an operation does to the three queues, and what it returns; the tail lists play no part. */
  function SpecStep(c: Config, v: View, op: Op): (View, bool)
    requires c.Valid()
  {
    match op
    case OpAdd(x, now) => Added(c, v, x, now)
    case OpRemove(x) => Removed(c, v, x)
    case OpEvict(x) => if v.Has(x) then (v.Drop(x), true) else (v, false)
    case OpReplace(x, y) => Exchanged(v, x, y)
    case OpAccess(x, mode, now, gotLock) => Accessed(c, v, x, mode, now, gotLock)
  }

  /** What can be seen of the container after an operation: its answer, the queues and the eviction order. */
  datatype Observation = Observation(answer: bool, view: View, order: seq<Node>)

  function SpecRun(c: Config, v: View, ops: seq<Op>): seq<Observation>
    requires c.Valid()
    decreases |ops|
  {
    if ops == [] then []
    else
      var (v', ok) := SpecStep(c, v, ops[0]);
      [Observation(ok, v', v'.EvictionOrder())] + SpecRun(c, v', ops[1..])
  }

  /** The specification makes no use of the size of the tails. */
  lemma {:induction false} SpecIgnoresTails(c: Config, v: View, ops: seq<Op>, n: nat)
    requires c.Valid()
    ensures SpecRun(c, v, ops) == SpecRun(c.(tailSize := n), v, ops)
    decreases |ops|
  {
    if ops != [] {
      assert SpecStep(c, v, ops[0]) == SpecStep(c.(tailSize := n), v, ops[0]);
      SpecIgnoresTails(c, SpecStep(c, v, ops[0]).0, ops[1..], n);
    }
  }

  /** Property: after every successful add or remove, the queues are within their shares. */
  lemma SharesAfterAddAndRemove(c: Config, v: View, op: Op)
    requires c.Valid() && (op.OpAdd? || op.OpRemove?) && SpecStep(c, v, op).1
    ensures var r := SpecStep(c, v, op).0;
            && |r.warm| <= c.WarmPercent() * r.Size() / 100
            && |r.hot| <= c.hotPercent * r.Size() / 100
            && 100 * |r.cold| >= c.coldPercent * r.Size()
  {
    var w := if op.OpAdd? then v.(hot := [op.x] + v.hot) else v.Drop(op.x);
    RebalanceBounds(c, w);
    RebalanceLosesNothing(c, w);
  }

  // ---- the percentages of a configuration

  const TWO64: nat := 0x1_0000_0000_0000_0000

  /** Whether the percentages pass; Warm gets the rest, computed in 64 bits without sign. */
  predicate CheckLruSizes(hot: nat, cold: nat) {
    var warm := (100 - hot - cold) % TWO64;
    if hot == 100 then !(cold != 0 && warm != 0)
    else !(hot <= 0 || hot > 100 || cold <= 0 || cold >= 100 || warm <= 0 || warm >= 100)
  }

  /** The check accepts exactly all-Hot, or three positive shares, although it joins its all-Hot tests
      by "and" and its subtraction wraps around. */
  lemma CheckLruSizesExact(hot: nat, cold: nat)
    requires hot < TWO64 && cold < TWO64
    ensures CheckLruSizes(hot, cold) <==> (hot == 100 && cold == 0) || (hot > 0 && cold > 0 && hot + cold < 100)
  {
    var d := 100 - hot - cold;
    if d < 0 && d + TWO64 >= 0 { assert d % TWO64 == d + TWO64; }
    if d + TWO64 < 0 { assert d % TWO64 == d + 2 * TWO64; }
  }

  // ---- the lists and the flag bits of the nodes

  /** The five lists, head first. */
  datatype Lists = Lists(warm: seq<Node>, warmTail: seq<Node>, hot: seq<Node>, cold: seq<Node>, coldTail: seq<Node>)
  {
    function Size(): nat { |warm| + |warmTail| + |hot| + |cold| + |coldTail| }
  }

  /** The nodes with the MM flags 0, 1 and 2 set. */
  datatype Bits = Bits(hot: set<Node>, tail: set<Node>, cold: set<Node>)

  /** The list that the bits of a node name. */
  function LruOf(tailSize: nat, b: Bits, x: Node): LruType {
    var inTail := tailSize > 0 && x in b.tail;
    if x in b.hot then Hot
    else if x in b.cold then (if inTail then ColdTail else Cold)
    else if inTail then WarmTail else Warm
  }

  /** The nodes of `s` are distinct and their bits name list `l`; a node of Hot has no stale tail bit. */
  predicate Named(s: seq<Node>, l: LruType, n: nat, b: Bits) {
    NoDup(s) && forall x | x in s :: LruOf(n, b, x) == l && (l == Hot ==> x !in b.tail)
  }

  /** The bits of every linked node name its list, no node is linked twice, tails are not too long. */
  predicate Ok(n: nat, q: Lists, b: Bits) {
    && Named(q.warm, Warm, n, b) && Named(q.warmTail, WarmTail, n, b) && Named(q.hot, Hot, n, b)
    && Named(q.cold, Cold, n, b) && Named(q.coldTail, ColdTail, n, b)
    && |q.warmTail| <= n && |q.coldTail| <= n
  }

  ghost predicate OnlyAt(b: Bits, b': Bits, x: Node) {
    forall y | y != x :: (y in b'.hot <==> y in b.hot) && (y in b'.tail <==> y in b.tail) && (y in b'.cold <==> y in b.cold)
  }

  lemma NamedKeep(s: seq<Node>, l: LruType, n: nat, b: Bits, b': Bits, x: Node)
    requires Named(s, l, n, b) && x !in s && OnlyAt(b, b', x)
    ensures Named(s, l, n, b')
  {}

  lemma NamedHead(s: seq<Node>, l: LruType, n: nat, b: Bits, b': Bits, x: Node)
    requires Named(s, l, n, b) && x !in s && OnlyAt(b, b', x) && Named([x], l, n, b')
    ensures Named([x] + s, l, n, b')
  {
    assert x in [x];
  }

  lemma NamedPop(s: seq<Node>, l: LruType, n: nat, b: Bits, b': Bits)
    requires Named(s, l, n, b) && s != [] && OnlyAt(b, b', s[|s| - 1])
    ensures Named(s[..|s| - 1], l, n, b') && s[|s| - 1] !in s[..|s| - 1]
  {
    var r := s[..|s| - 1];
    forall x | x in r ensures x in s && x != s[|s| - 1] {
      var i :| 0 <= i < |r| && r[i] == x;
      assert s[i] == x;
    }
  }

  /** Nodes that change their bits only at `x` keep their lists, when `x` is not linked. */
  lemma OkKeep(n: nat, q: Lists, b: Bits, b': Bits, x: Node)
    requires Ok(n, q, b) && OnlyAt(b, b', x)
    requires x !in q.warm && x !in q.warmTail && x !in q.hot && x !in q.cold && x !in q.coldTail
    ensures Ok(n, q, b')
  {
    NamedKeep(q.warm, Warm, n, b, b', x);
    NamedKeep(q.warmTail, WarmTail, n, b, b', x);
    NamedKeep(q.hot, Hot, n, b, b', x);
    NamedKeep(q.cold, Cold, n, b, b', x);
    NamedKeep(q.coldTail, ColdTail, n, b, b', x);
  }

  predicate Unlinked(q: Lists, x: Node) {
    x !in q.warm && x !in q.warmTail && x !in q.hot && x !in q.cold && x !in q.coldTail
  }

  /** The last node of a list leaves it. */
  lemma PopCold(n: nat, q: Lists, b: Bits)
    requires Ok(n, q, b) && q.cold != []
    ensures var x, q' := q.cold[|q.cold| - 1], q.(cold := q.cold[..|q.cold| - 1]); Ok(n, q', b) && Unlinked(q', x)
    ensures LruOf(n, b, q.cold[|q.cold| - 1]) == Cold
  {
    NamedPop(q.cold, Cold, n, b, b);
    assert q.cold[|q.cold| - 1] in q.cold;
  }

  lemma PopWarm(n: nat, q: Lists, b: Bits)
    requires Ok(n, q, b) && q.warm != []
    ensures var x, q' := q.warm[|q.warm| - 1], q.(warm := q.warm[..|q.warm| - 1]); Ok(n, q', b) && Unlinked(q', x)
    ensures LruOf(n, b, q.warm[|q.warm| - 1]) == Warm
  {
    NamedPop(q.warm, Warm, n, b, b);
    assert q.warm[|q.warm| - 1] in q.warm;
  }

  lemma PopWarmTail(n: nat, q: Lists, b: Bits)
    requires Ok(n, q, b) && q.warmTail != []
    ensures var x, q' := q.warmTail[|q.warmTail| - 1], q.(warmTail := q.warmTail[..|q.warmTail| - 1]);
            Ok(n, q', b) && Unlinked(q', x)
    ensures LruOf(n, b, q.warmTail[|q.warmTail| - 1]) == WarmTail
  {
    NamedPop(q.warmTail, WarmTail, n, b, b);
    assert q.warmTail[|q.warmTail| - 1] in q.warmTail;
  }

  lemma PopHot(n: nat, q: Lists, b: Bits)
    requires Ok(n, q, b) && q.hot != []
    ensures var x, q' := q.hot[|q.hot| - 1], q.(hot := q.hot[..|q.hot| - 1]); Ok(n, q', b) && Unlinked(q', x)
    ensures LruOf(n, b, q.hot[|q.hot| - 1]) == Hot && q.hot[|q.hot| - 1] !in b.tail
  {
    NamedPop(q.hot, Hot, n, b, b);
    assert q.hot[|q.hot| - 1] in q.hot;
  }

  /** An unlinked node becomes the head of the list that its new bits name. */
  lemma LinkHead(n: nat, q: Lists, b: Bits, b': Bits, x: Node)
    requires Ok(n, q, b) && Unlinked(q, x) && OnlyAt(b, b', x)
    ensures LruOf(n, b', x) == Cold ==> Ok(n, q.(cold := [x] + q.cold), b')
    ensures LruOf(n, b', x) == Warm ==> Ok(n, q.(warm := [x] + q.warm), b')
    ensures LruOf(n, b', x) == Hot && x !in b'.tail ==> Ok(n, q.(hot := [x] + q.hot), b')
    ensures LruOf(n, b', x) == ColdTail && |q.coldTail| < n ==> Ok(n, q.(coldTail := [x] + q.coldTail), b')
    ensures LruOf(n, b', x) == WarmTail && |q.warmTail| < n ==> Ok(n, q.(warmTail := [x] + q.warmTail), b')
  {
    OkKeep(n, q, b, b', x);
    if Named([x], LruOf(n, b', x), n, b') {
      match LruOf(n, b', x)
      case Cold => NamedHead(q.cold, Cold, n, b, b', x);
      case Warm => NamedHead(q.warm, Warm, n, b, b', x);
      case Hot => NamedHead(q.hot, Hot, n, b, b', x);
      case ColdTail => NamedHead(q.coldTail, ColdTail, n, b, b', x);
      case WarmTail => NamedHead(q.warmTail, WarmTail, n, b, b', x);
    }
  }

  /** A node is linked in no list but the one that its bits name. */
  lemma Elsewhere(n: nat, q: Lists, b: Bits, x: Node)
    requires Ok(n, q, b)
    ensures LruOf(n, b, x) != Warm ==> x !in q.warm
    ensures LruOf(n, b, x) != WarmTail ==> x !in q.warmTail
    ensures LruOf(n, b, x) != Hot ==> x !in q.hot
    ensures LruOf(n, b, x) != Cold ==> x !in q.cold
    ensures LruOf(n, b, x) != ColdTail ==> x !in q.coldTail
  {}

  function AllWithout(q: Lists, x: Node): Lists {
    Lists(Without(q.warm, x), Without(q.warmTail, x), Without(q.hot, x), Without(q.cold, x), Without(q.coldTail, x))
  }

  lemma NamedWithout(s: seq<Node>, l: LruType, n: nat, b: Bits, x: Node)
    requires Named(s, l, n, b)
    ensures Named(Without(s, x), l, n, b) && x !in Without(s, x)
  {
    WithoutMembers(s, x);
  }

  lemma OkWithout(n: nat, q: Lists, b: Bits, x: Node)
    requires Ok(n, q, b)
    ensures Ok(n, AllWithout(q, x), b) && Unlinked(AllWithout(q, x), x)
  {
    NamedWithout(q.warm, Warm, n, b, x);
    NamedWithout(q.warmTail, WarmTail, n, b, x);
    NamedWithout(q.hot, Hot, n, b, x);
    NamedWithout(q.cold, Cold, n, b, x);
    NamedWithout(q.coldTail, ColdTail, n, b, x);
  }

  function AllReplaced(q: Lists, x: Node, y: Node): Lists {
    Lists(Replaced(q.warm, x, y), Replaced(q.warmTail, x, y), Replaced(q.hot, x, y), Replaced(q.cold, x, y),
          Replaced(q.coldTail, x, y))
  }

  lemma NamedReplaced(s: seq<Node>, l: LruType, n: nat, b: Bits, x: Node, y: Node)
    requires Named(s, l, n, b) && y !in s && (x in s ==> Named([y], l, n, b))
    ensures Named(Replaced(s, x, y), l, n, b)
  {
    ReplacedMembers(s, x, y);
    assert y in [y];
  }

  /** The bits of a newly linked node in the place of one in list `l`. */
  function BitsFor(l: LruType, b: Bits, y: Node): Bits {
    Bits(if l == Hot then b.hot + {y} else b.hot,
         if l == ColdTail || l == WarmTail then b.tail + {y} else b.tail,
         if l == Cold || l == ColdTail then b.cold + {y} else b.cold)
  }

  lemma OkReplaced(n: nat, q: Lists, b: Bits, x: Node, y: Node)
    requires Ok(n, q, b) && !Unlinked(q, x) && Unlinked(q, y) && y !in b.hot && y !in b.tail && y !in b.cold
    ensures Ok(n, AllReplaced(q, x, y), BitsFor(LruOf(n, b, x), b, y))
  {
    var l := LruOf(n, b, x);
    var b' := BitsFor(l, b, y);
    Elsewhere(n, q, b, x);
    OkKeep(n, q, b, b', y);
    NamedReplaced(q.warm, Warm, n, b', x, y);
    NamedReplaced(q.warmTail, WarmTail, n, b', x, y);
    NamedReplaced(q.hot, Hot, n, b', x, y);
    NamedReplaced(q.cold, Cold, n, b', x, y);
    NamedReplaced(q.coldTail, ColdTail, n, b', x, y);
  }

  // ---- what the lists look like

  function ViewOf(q: Lists, times: map<Node, nat>): View { View(q.hot, q.warm + q.warmTail, q.cold + q.coldTail, times) }

  lemma ViewHas(q: Lists, times: map<Node, nat>)
    ensures forall x :: ViewOf(q, times).Has(x) <==> !Unlinked(q, x)
  {}

  lemma ViewWithout(n: nat, q: Lists, b: Bits, times: map<Node, nat>, x: Node)
    requires Ok(n, q, b)
    ensures ViewOf(AllWithout(q, x), times) == ViewOf(q, times).Drop(x)
    ensures forall y :: !Unlinked(AllWithout(q, x), y) <==> !Unlinked(q, y) && y != x
  {
    Elsewhere(n, q, b, x);
    WithoutConcat(q.warm, q.warmTail, x);
    WithoutConcat(q.cold, q.coldTail, x);
    WithoutMembers(q.warm, x);
    WithoutMembers(q.warmTail, x);
    WithoutMembers(q.hot, x);
    WithoutMembers(q.cold, x);
    WithoutMembers(q.coldTail, x);
  }

  lemma ViewReplaced(n: nat, q: Lists, b: Bits, times: map<Node, nat>, x: Node, y: Node)
    requires Ok(n, q, b) && !Unlinked(q, x) && Unlinked(q, y)
    ensures ViewOf(AllReplaced(q, x, y), times) == ViewOf(q, times).Put(x, y)
    ensures forall z :: !Unlinked(AllReplaced(q, x, y), z) <==> (!Unlinked(q, z) && z != x) || z == y
  {
    ReplacedConcat(q.warm, q.warmTail, x, y);
    ReplacedConcat(q.cold, q.coldTail, x, y);
    ReplacedMembers(q.warm, x, y);
    ReplacedMembers(q.warmTail, x, y);
    ReplacedMembers(q.hot, x, y);
    ReplacedMembers(q.cold, x, y);
    ReplacedMembers(q.coldTail, x, y);
  }

  lemma MoveWithinHot(n: nat, q: Lists, b: Bits, times: map<Node, nat>, x: Node)
    requires Ok(n, q, b) && !Unlinked(q, x) && x in b.hot
    ensures var q1 := AllWithout(q, x); var q' := q1.(hot := [x] + q1.hot);
            && Ok(n, q', b) && ViewOf(q', times) == MovedToHead(ViewOf(q, times), x)
            && forall y :: Unlinked(q', y) <==> Unlinked(q, y)
    ensures x in q.hot
  {
    Elsewhere(n, q, b, x);
    ViewWithout(n, q, b, times, x);
    OkWithout(n, q, b, x);
    LinkHead(n, AllWithout(q, x), b, b, x);
  }

  lemma MoveToWarm(n: nat, q: Lists, b: Bits, times: map<Node, nat>, x: Node)
    requires Ok(n, q, b) && !Unlinked(q, x) && x !in b.hot
    ensures var q1 := AllWithout(q, x); var q' := q1.(warm := [x] + q1.warm);
            && Ok(n, q', b.(tail := b.tail - {x}, cold := b.cold - {x}))
            && ViewOf(q', times) == MovedToHead(ViewOf(q, times), x)
            && forall y :: Unlinked(q', y) <==> Unlinked(q, y)
    ensures x !in q.hot && (x in ViewOf(q, times).cold <==> x in b.cold)
  {
    Elsewhere(n, q, b, x);
    ViewWithout(n, q, b, times, x);
    OkWithout(n, q, b, x);
    var q1 := AllWithout(q, x);
    LinkHead(n, q1, b, b.(tail := b.tail - {x}, cold := b.cold - {x}), x);
    assert [x] + q1.warm + q1.warmTail == [x] + (q1.warm + q1.warmTail);
  }

  // ---- the container

  class Container {
    const config: Config
    var lru: Lists
    // the MM flags, the bit InMMContainer and the update times of the nodes
    var bits: Bits
    var inMM: set<Node>
    var updated: map<Node, nat>

    predicate ListsOk() reads this { config.Valid() && Ok(config.tailSize, lru, bits) }

    /** The bit InMMContainer is set on exactly the linked nodes. */
    ghost predicate Valid() reads this {
      ListsOk() && forall x :: x in inMM <==> !Unlinked(lru, x)
    }

    /** Each tail list has its configured size, or all of its queue. */
    predicate TailsExact() reads this {
      |lru.warmTail| == Keep(Look().warm, config.tailSize) && |lru.coldTail| == Keep(Look().cold, config.tailSize)
    }

    function Look(): View reads this { ViewOf(lru, updated) }

    constructor (c: Config)
      requires c.Valid()
      ensures Valid() && config == c && Look() == View([], [], [], map[])
    {
      config := c;
      lru, bits, inMM, updated := Lists([], [], [], [], []), Bits({}, {}, {}), {}, map[];
    }

    function GetLruType(x: Node): LruType reads this { LruOf(config.tailSize, bits, x) }

    /** Moves nodes from the end of Cold to the head of ColdTail. */
    method AdjustColdTail()
      requires ListsOk()
      modifies this`lru, this`bits
      ensures ListsOk() && Look() == old(Look()) && lru.warm == old(lru.warm)
      ensures |lru.coldTail| == config.tailSize || lru.cold == []
    {
      while lru.cold != [] && |lru.coldTail| + 1 <= config.tailSize
        invariant ListsOk() && Look() == old(Look()) && lru.warm == old(lru.warm)
        decreases |lru.cold|
      {
        var x := lru.cold[|lru.cold| - 1];
        PopCold(config.tailSize, lru, bits);
        ghost var q, b := lru.(cold := lru.cold[..|lru.cold| - 1]), bits;
        bits := bits.(tail := bits.tail + {x});
        LinkHead(config.tailSize, q, b, bits, x);
        lru := lru.(cold := lru.cold[..|lru.cold| - 1], coldTail := [x] + lru.coldTail);
        assert Look().cold == old(Look()).cold;
      }
    }

    method AdjustWarmTail()
      requires ListsOk()
      modifies this`lru, this`bits
      ensures ListsOk() && Look() == old(Look()) && lru.cold == old(lru.cold)
      ensures |lru.warmTail| == config.tailSize || lru.warm == []
    {
      while lru.warm != [] && |lru.warmTail| + 1 <= config.tailSize
        invariant ListsOk() && Look() == old(Look()) && lru.cold == old(lru.cold)
        decreases |lru.warm|
      {
        var x := lru.warm[|lru.warm| - 1];
        PopWarm(config.tailSize, lru, bits);
        ghost var q, b := lru.(warm := lru.warm[..|lru.warm| - 1]), bits;
        bits := bits.(tail := bits.tail + {x});
        LinkHead(config.tailSize, q, b, bits, x);
        lru := lru.(warm := lru.warm[..|lru.warm| - 1], warmTail := [x] + lru.warmTail);
        assert Look().warm == old(Look()).warm;
      }
    }

    /** The last node of the Warm queue, from WarmTail if that is not empty, goes to the head of Cold. */
    method DemoteWarm()
      requires ListsOk() && Look().warm != []
      modifies this`lru, this`bits
      ensures ListsOk()
      ensures var v, k := old(Look()), |old(Look()).warm| - 1;
              Look() == v.(warm := v.warm[..k], cold := [v.warm[k]] + v.cold)
    {
      ghost var v, b := Look(), bits;
      var x: Node;
      if |lru.warmTail| > 0 {
        x := lru.warmTail[|lru.warmTail| - 1];
        PopWarmTail(config.tailSize, lru, bits);
        lru := lru.(warmTail := lru.warmTail[..|lru.warmTail| - 1]);
        bits := bits.(tail := bits.tail - {x});
      } else {
        x := lru.warm[|lru.warm| - 1];
        PopWarm(config.tailSize, lru, bits);
        lru := lru.(warm := lru.warm[..|lru.warm| - 1]);
      }
      bits := bits.(cold := bits.cold + {x});
      LinkHead(config.tailSize, lru, b, bits, x);
      lru := lru.(cold := [x] + lru.cold);
      assert Look().cold == [x] + v.cold && Look().warm == v.warm[..|v.warm| - 1];
    }

    method DemoteHot()
      requires ListsOk() && lru.hot != []
      modifies this`lru, this`bits
      ensures ListsOk()
      ensures var v, k := old(Look()), |old(Look()).hot| - 1;
              Look() == v.(hot := v.hot[..k], cold := [v.hot[k]] + v.cold)
    {
      ghost var v, b := Look(), bits;
      var x := lru.hot[|lru.hot| - 1];
      PopHot(config.tailSize, lru, bits);
      lru := lru.(hot := lru.hot[..|lru.hot| - 1]);
      bits := bits.(hot := bits.hot - {x}, cold := bits.cold + {x});
      LinkHead(config.tailSize, lru, b, bits, x);
      lru := lru.(cold := [x] + lru.cold);
      assert Look().cold == [x] + v.cold;
    }

    /** The surplus of Warm beyond `expected` goes to the head of Cold. */
    method ShrinkWarm(expected: nat)
      requires ListsOk()
      modifies this`lru, this`bits
      ensures ListsOk()
      ensures var v, k := old(Look()), Keep(old(Look()).warm, expected);
              Look() == v.(warm := v.warm[..k], cold := v.warm[k..] + v.cold)
    {
      ghost var v, k := Look(), |Look().warm|;
      while |lru.warm| + |lru.warmTail| > expected
        invariant ListsOk() && k == |lru.warm| + |lru.warmTail| && Keep(v.warm, expected) <= k <= |v.warm|
        invariant Look() == v.(warm := v.warm[..k], cold := v.warm[k..] + v.cold)
        decreases k
      {
        DemoteWarm();
        k := k - 1;
        Spill(v.warm, k, v.cold);
      }
    }

    /** The surplus of Hot beyond `expected` goes to the head of Cold. */
    method ShrinkHot(expected: nat)
      requires ListsOk()
      modifies this`lru, this`bits
      ensures ListsOk()
      ensures var v, k := old(Look()), Keep(old(Look()).hot, expected);
              Look() == v.(hot := v.hot[..k], cold := v.hot[k..] + v.cold)
    {
      ghost var v, k := Look(), |lru.hot|;
      while |lru.hot| > expected
        invariant ListsOk() && k == |lru.hot| && Keep(v.hot, expected) <= k <= |v.hot|
        invariant Look() == v.(hot := v.hot[..k], cold := v.hot[k..] + v.cold)
        decreases k
      {
        DemoteHot();
        k := k - 1;
        Spill(v.hot, k, v.cold);
      }
    }

    /** Shrinks Warm, then Hot, to their shares, and fills the tails. */
    method Rebalance()
      requires ListsOk()
      modifies this`lru, this`bits
      ensures ListsOk() && TailsExact() && Look() == Rebalanced(config, old(Look()))
      ensures forall x :: Unlinked(lru, x) <==> Unlinked(old(lru), x)
    {
      RebalanceLosesNothing(config, Look());
      ViewHas(lru, updated);
      var size := lru.Size();
      assert size == Look().Size();
      ShrinkWarm(Share(config.WarmPercent(), size));
      ShrinkHot(Share(config.hotPercent, size));
      AdjustColdTail();
      AdjustWarmTail();
      ViewHas(lru, updated);
    }

    /** Takes a linked node out of the list that its bits name. */
    method Unlink(x: Node)
      requires ListsOk() && !Unlinked(lru, x)
      modifies this`lru
      ensures lru == AllWithout(old(lru), x)
    {
      Elsewhere(config.tailSize, lru, bits, x);
      match GetLruType(x) {
        case Warm => lru := lru.(warm := Without(lru.warm, x));
        case WarmTail => lru := lru.(warmTail := Without(lru.warmTail, x));
        case Hot => lru := lru.(hot := Without(lru.hot, x));
        case Cold => lru := lru.(cold := Without(lru.cold, x));
        case ColdTail => lru := lru.(coldTail := Without(lru.coldTail, x));
      }
    }

    method Add(x: Node, now: nat) returns (ok: bool)
      requires Valid()
      modifies this
      ensures Valid() && (Look(), ok) == Added(config, old(Look()), x, now)
      ensures ok ==> TailsExact()
    {
      ViewHas(lru, updated);
      if x in inMM { return false; }
      ghost var b := bits;
      bits := Bits(bits.hot + {x}, bits.tail - {x}, bits.cold - {x});
      LinkHead(config.tailSize, lru, b, bits, x);
      lru := lru.(hot := [x] + lru.hot);
      Rebalance();
      inMM := inMM + {x};
      updated := updated[x := now];
      return true;
    }

    method RemoveLocked(x: Node, doRebalance: bool)
      requires Valid() && x in inMM
      modifies this
      ensures Valid() && (doRebalance ==> TailsExact())
      ensures Look() == if doRebalance then Rebalanced(config, old(Look()).Drop(x)) else old(Look()).Drop(x)
    {
      ViewWithout(config.tailSize, lru, bits, updated, x);
      OkWithout(config.tailSize, lru, bits, x);
      Unlink(x);
      if doRebalance {
        Rebalance();
      }
      inMM := inMM - {x};
    }

    method Remove(x: Node) returns (ok: bool)
      requires Valid()
      modifies this
      ensures Valid() && (Look(), ok) == Removed(config, old(Look()), x)
      ensures ok ==> TailsExact()
    {
      ViewHas(lru, updated);
      if x !in inMM { return false; }
      RemoveLocked(x, true);
      return true;
    }

    /** Removal through an eviction iterator, which must not move other nodes. */
    method RemoveAtIterator(x: Node)
      requires Valid() && x in inMM
      modifies this
      ensures Valid() && Look() == old(Look()).Drop(x)
    {
      RemoveLocked(x, false);
    }

    /** A newly allocated node has no flag set. */
    method ClearFlags(y: Node)
      requires Valid() && y !in inMM
      modifies this`bits
      ensures Valid() && y !in bits.hot && y !in bits.tail && y !in bits.cold
    {
      ghost var b := bits;
      bits := Bits(bits.hot - {y}, bits.tail - {y}, bits.cold - {y});
      OkKeep(config.tailSize, lru, b, bits, y);
    }

    /** Puts `y` in the place of `x`. */
    method Replace(x: Node, y: Node) returns (ok: bool)
      requires Valid()
      requires y !in inMM ==> y !in bits.hot && y !in bits.tail && y !in bits.cold
      modifies this
      ensures Valid() && (Look(), ok) == Exchanged(old(Look()), x, y)
    {
      ViewHas(lru, updated);
      if x !in inMM || y in inMM { return false; }
      var l := GetLruType(x);
      ViewReplaced(config.tailSize, lru, bits, updated, x, y);
      OkReplaced(config.tailSize, lru, bits, x, y);
      Elsewhere(config.tailSize, lru, bits, x);
      match l {
        case Warm => lru := lru.(warm := Replaced(lru.warm, x, y));
        case WarmTail => lru := lru.(warmTail := Replaced(lru.warmTail, x, y));
        case Hot => lru := lru.(hot := Replaced(lru.hot, x, y));
        case Cold => lru := lru.(cold := Replaced(lru.cold, x, y));
        case ColdTail => lru := lru.(coldTail := Replaced(lru.coldTail, x, y));
      }
      bits := BitsFor(l, bits, y);
      assert lru == AllReplaced(old(lru), x, y);
      inMM := inMM - {x} + {y};
      updated := updated[y := if x in updated then updated[x] else 0];
      return true;
    }

    method RecordAccess(x: Node, mode: Mode, now: nat, gotLock: bool) returns (ok: bool)
      requires Valid()
      modifies this
      ensures Valid() && (Look(), ok) == Accessed(config, old(Look()), x, mode, now, gotLock)
    {
      ViewHas(lru, updated);
      if (mode == Write && !config.updateOnWrite) || (mode == Read && !config.updateOnRead) { return false; }
      if !(x in inMM && now >= Look().TimeOf(x) + config.refreshTime) { return false; }
      if config.tryLockUpdate && !gotLock { return false; }
      var fromCold := MoveToHead(x);
      if fromCold && config.rebalanceOnRecordAccess {
        Rebalance();
      }
      updated := updated[x := now];
      return true;
    }

    method MoveToHead(x: Node) returns (fromCold: bool)
      requires Valid() && x in inMM
      modifies this`lru, this`bits
      ensures Valid() && Look() == MovedToHead(old(Look()), x)
      ensures fromCold <==> x !in old(Look()).hot && x in old(Look()).cold
    {
      var wasHot := x in bits.hot;
      fromCold := !wasHot && x in bits.cold;
      if wasHot {
        MoveWithinHot(config.tailSize, lru, bits, updated, x);
        Unlink(x);
        lru := lru.(hot := [x] + lru.hot);
      } else {
        MoveToWarm(config.tailSize, lru, bits, updated, x);
        Unlink(x);
        bits := bits.(tail := bits.tail - {x}, cold := bits.cold - {x});
        lru := lru.(warm := [x] + lru.warm);
      }
    }

    /** The nodes in the order an eviction looks at them: the lists from the last to the first, each
        from tail to head. */
    method EvictionCandidates() returns (r: seq<Node>)
      requires Valid()
      ensures r == Look().EvictionOrder()
    {
      ReverseConcat(lru.cold, lru.coldTail);
      ReverseConcat(lru.warm, lru.warmTail);
      r := Reverse(lru.coldTail) + Reverse(lru.cold) + Reverse(lru.hot) + Reverse(lru.warmTail) + Reverse(lru.warm);
    }
  }

  /** The answers and eviction orders of the container, for every sequence of operations and every size
      of the tails, are those of `SpecRun`. */
  method Run(q: Container, ops: seq<Op>) returns (seen: seq<Observation>)
    requires q.Valid()
    modifies q
    ensures q.Valid() && seen == SpecRun(q.config, old(q.Look()), ops)
    decreases |ops|
  {
    if ops == [] { return []; }
    var ok := Do(q, ops[0]);
    var order := q.EvictionCandidates();
    var first := Observation(ok, q.Look(), order);
    var rest := Run(q, ops[1..]);
    return [first] + rest;
  }

  /** Property: two containers that differ in the size of their tails only, say one that tracks them and one that
      does not, give the same answers, the same Hot, Warm and Cold queues and the same eviction orders over every
      sequence of operations. */
  method TailTrackingTransparent(a: Container, b: Container, ops: seq<Op>)
    returns (seenA: seq<Observation>, seenB: seq<Observation>)
    requires a != b && a.Valid() && b.Valid() && a.Look() == b.Look()
    requires b.config == a.config.(tailSize := b.config.tailSize)
    modifies a, b
    ensures a.Valid() && b.Valid() && seenA == seenB && |seenA| == |ops|
  {
    SpecIgnoresTails(a.config, a.Look(), ops, b.config.tailSize);
    SpecRunLength(a.config, a.Look(), ops);
    seenA := Run(a, ops);
    seenB := Run(b, ops);
  }

  lemma {:induction false} SpecRunLength(c: Config, v: View, ops: seq<Op>)
    requires c.Valid()
    ensures |SpecRun(c, v, ops)| == |ops|
    decreases |ops|
  {
    if ops != [] { SpecRunLength(c, SpecStep(c, v, ops[0]).0, ops[1..]); }
  }

  method Do(q: Container, op: Op) returns (ok: bool)
    requires q.Valid()
    modifies q
    ensures q.Valid() && (q.Look(), ok) == SpecStep(q.config, old(q.Look()), op)
  {
    match op
    case OpAdd(x, now) => ok := q.Add(x, now);
    case OpRemove(x) => ok := q.Remove(x);
    case OpEvict(x) =>
      ok := x in q.inMM;
      if ok { q.RemoveAtIterator(x); }
    case OpReplace(x, y) =>
      if y !in q.inMM { q.ClearFlags(y); }
      ok := q.Replace(x, y);
    case OpAccess(x, mode, now, gotLock) => ok := q.RecordAccess(x, mode, now, gotLock);
  }
}
