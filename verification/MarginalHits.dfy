/** Smoothed ranking of entities by marginal hits, and the pick of a victim and a receiver. */
module MarginalHits {
  import opened Options
  import opened Sequences

  datatype Id = Id(n: nat)
  type Scores = map<Id, real>
  type Ranks = map<Id, real>

  // ---- one round

  /** The scores that sorting looks up are there; a single entity is not looked up. */
  predicate Known(entities: seq<Id>, scores: Scores) { |entities| < 2 || forall e | e in entities :: e in scores }

  /** `order` is `entities` sorted by score; ties may come in any order. */
  ghost predicate IsSort(entities: seq<Id>, scores: Scores, order: seq<Id>) {
    multiset(order) == multiset(entities) && (|order| < 2 || Ascends(scores, order))
  }

  ghost predicate Ascends(scores: Scores, order: seq<Id>) {
    && (forall e | e in order :: e in scores)
    && forall i, j | 0 <= i < j < |order| :: scores[order[i]] <= scores[order[j]]
  }

  /** The rank of an entity that has none yet is 0. */
  function Rank(ranks: Ranks, e: Id): real { if e in ranks then ranks[e] else 0.0 }

  function Times(x: real, y: real): real { x * y }

  function Average(avg: real, value: real, m: real): real { Times(avg, m) + Times(value, 1.0 - m) }

  function Position(order: seq<Id>, e: Id): nat
    requires e in order
  {
    if order[|order| - 1] == e then |order| - 1 else Position(order[..|order| - 1], e)
  }

  lemma {:induction false} PositionAt(order: seq<Id>, i: nat)
    requires NoDup(order) && i < |order|
    ensures Position(order, order[i]) == i
  {
    if i < |order| - 1 { PositionAt(order[..|order| - 1], i); }
  }

  function Moved(ranks: Ranks, order: seq<Id>, m: real, e: Id): real {
    if e in order then Average(Rank(ranks, e), Position(order, e) as real, m) else Rank(ranks, e)
  }

  /** The ranks after a round that sorted the entities into `order`: every entity moves towards its position, the
      others keep their ranks. */
  function Updated(ranks: Ranks, order: seq<Id>, m: real): Ranks {
    map e | e in ranks.Keys + (set x | x in order) :: Moved(ranks, order, m, e)
  }

  lemma UpdatedAt(ranks: Ranks, order: seq<Id>, m: real)
    requires NoDup(order)
    ensures forall i | 0 <= i < |order| :: Rank(Updated(ranks, order, m), order[i]) == Average(Rank(ranks, order[i]), i as real, m)
  {
    forall i | 0 <= i < |order| ensures Rank(Updated(ranks, order, m), order[i]) == Average(Rank(ranks, order[i]), i as real, m) {
      PositionAt(order, i);
    }
  }

  lemma MovedStep(ranks: Ranks, order: seq<Id>, m: real, i: nat, e: Id)
    requires NoDup(order) && i < |order|
    ensures Moved(ranks, order[..i + 1], m, e) == if e == order[i] then Average(Rank(ranks, e), i as real, m) else Moved(ranks, order[..i], m, e)
  {
    assert order[..i + 1] == order[..i] + [order[i]] && order[..i + 1][..i] == order[..i];
  }

  lemma UpdatedStep(ranks: Ranks, order: seq<Id>, m: real, i: nat)
    requires NoDup(order) && i < |order|
    ensures Updated(ranks, order[..i + 1], m) == Updated(ranks, order[..i], m)[order[i] := Average(Rank(ranks, order[i]), i as real, m)]
    ensures Rank(Updated(ranks, order[..i], m), order[i]) == Rank(ranks, order[i])
  {
    assert order[..i + 1] == order[..i] + [order[i]] && order[i] !in order[..i];
    forall e ensures Moved(ranks, order[..i + 1], m, e) == if e == order[i] then Average(Rank(ranks, e), i as real, m) else Moved(ranks, order[..i], m, e) {
      MovedStep(ranks, order, m, i, e);
    }
  }

  // ---- whole runs

  /** One round: the order it sorted the entities into, and the averaging parameter it was given. */
  datatype Round = Round(order: seq<Id>, m: real)

  /** The ranks after the rounds, from no ranks at all. */
  function After(rounds: seq<Round>): Ranks {
    if rounds == [] then map[]
    else
      var last := rounds[|rounds| - 1];
      Updated(After(rounds[..|rounds| - 1]), last.order, last.m)
  }

  ghost predicate IsRound(entities: seq<Id>, scores: Scores, r: Round) { IsSort(entities, scores, r.order) }

  /** The parameters make averages: they are in [0, 1]. */
  predicate Averages(rounds: seq<Round>) { forall k | 0 <= k < |rounds| :: 0.0 <= rounds[k].m <= 1.0 }

  ghost predicate IsRun(entities: seq<Id>, scores: seq<Scores>, rounds: seq<Round>) {
    && |rounds| == |scores|
    && forall k | 0 <= k < |scores| :: IsRound(entities, scores[k], rounds[k])
  }

  /** All ranks are in [0, n - 1], and only the entities are ranked. */
  ghost predicate InRange(entities: seq<Id>, ranks: Ranks) {
    && (ranks.Keys == {} || ranks.Keys == set e | e in entities)
    && forall e | e in ranks :: 0.0 <= ranks[e] <= (|entities| - 1) as real
  }

  lemma Product(x: real, y: real)
    requires 0.0 <= x && 0.0 <= y
    ensures 0.0 <= x * y
  {}

  lemma AverageMonotone(x: real, v: real, x': real, v': real, m: real)
    requires 0.0 <= m <= 1.0 && x <= x' && v <= v'
    ensures Average(x, v, m) <= Average(x', v', m)
  {
    Product(x' - x, m);
    Product(v' - v, 1.0 - m);
    assert Average(x', v', m) - Average(x, v, m) == (x' - x) * m + (v' - v) * (1.0 - m);
  }

  lemma AverageSum(x: real, v: real, y: real, w: real, m: real)
    ensures Average(x, v, m) + Average(y, w, m) == Average(x + y, v + w, m)
  {}

  lemma AverageSame(x: real, m: real)
    ensures Average(x, x, m) == x
  {}

  lemma AverageRange(avg: real, value: real, m: real, top: real)
    requires 0.0 <= m <= 1.0 && 0.0 <= avg <= top && 0.0 <= value <= top
    ensures 0.0 <= Average(avg, value, m) <= top
  {
    AverageMonotone(0.0, 0.0, avg, value, m);
    AverageMonotone(avg, value, top, top, m);
    AverageSame(top, m);
  }

  lemma SortIsNoDup(entities: seq<Id>, order: seq<Id>)
    requires NoDup(entities) && multiset(order) == multiset(entities)
    ensures NoDup(order) && |order| == |entities| && forall e :: e in order <==> e in entities
  {
    assert |multiset(order)| == |order| && |multiset(entities)| == |entities|;
    forall e ensures e in order <==> e in entities { assert e in order <==> e in multiset(order); assert e in entities <==> e in multiset(entities); }
    NoDupCounts(entities);
    CountsNoDup(order);
  }

  lemma {:induction false} NoDupCounts(s: seq<Id>)
    requires NoDup(s)
    ensures forall e :: multiset(s)[e] <= 1
  {
    if s != [] {
      assert s == [s[0]] + s[1..];
      NoDupCounts(s[1..]);
    }
  }

  lemma CountsNoDup(s: seq<Id>)
    requires forall e :: multiset(s)[e] <= 1
    ensures NoDup(s)
  {
    forall i, j | 0 <= i < j < |s| ensures s[i] != s[j] {
      assert s == s[..i] + [s[i]] + s[i + 1..j] + [s[j]] + s[j + 1..];
      assert multiset(s)[s[i]] <= 1;
    }
  }

  lemma RoundInRange(entities: seq<Id>, order: seq<Id>, ranks: Ranks, m: real)
    requires NoDup(entities) && multiset(order) == multiset(entities) && 0.0 <= m <= 1.0 && InRange(entities, ranks)
    ensures InRange(entities, Updated(ranks, order, m))
  {
    SortIsNoDup(entities, order);
    UpdatedAt(ranks, order, m);
    var r := Updated(ranks, order, m);
    forall e | e in r ensures 0.0 <= r[e] <= (|entities| - 1) as real {
      var i :| 0 <= i < |order| && order[i] == e;
      AverageRange(Rank(ranks, e), i as real, m, (|entities| - 1) as real);
    }
  }

  /** Property: over all rounds every smoothed rank stays in [0, n - 1]. */
  lemma {:induction false} RanksInRange(entities: seq<Id>, scores: seq<Scores>, rounds: seq<Round>)
    requires NoDup(entities) && IsRun(entities, scores, rounds) && Averages(rounds)
    ensures InRange(entities, After(rounds))
    ensures rounds != [] ==> After(rounds).Keys == set e | e in entities
  {
    if rounds != [] {
      var n := |rounds| - 1;
      var last := rounds[n];
      RunPrefix(entities, scores, rounds, n);
      RanksInRange(entities, scores[..n], rounds[..n]);
      RoundInRange(entities, last.order, After(rounds[..n]), last.m);
      SortIsNoDup(entities, last.order);
    }
  }

  /** The weight that is left to the ranks before the rounds: the product of the parameters. */
  function Weight(rounds: seq<Round>): real {
    if rounds == [] then 1.0 else Times(rounds[|rounds| - 1].m, Weight(rounds[..|rounds| - 1]))
  }

  lemma {:induction false} WeightRange(rounds: seq<Round>)
    requires Averages(rounds)
    ensures 0.0 <= Weight(rounds) <= 1.0
  {
    if rounds != [] {
      var n := |rounds| - 1;
      WeightRange(rounds[..n]);
      AverageRange(Weight(rounds[..n]), 0.0, rounds[n].m, 1.0);
    }
  }

  lemma GapStep(x: real, y: real, i: real, j: real, m: real, p: real)
    requires i - j >= 1.0 && 0.0 <= m <= 1.0 && x - y >= 1.0 - p
    ensures Average(x, i, m) - Average(y, j, m) >= 1.0 - Times(m, p)
  {
    AverageSum(x - y, i - j, y, j, m);
    AverageMonotone(1.0 - p, 1.0, x - y, i - j, m);
    assert Average(1.0 - p, 1.0, m) == 1.0 - m * p;
  }

  lemma RunPrefix(entities: seq<Id>, scores: seq<Scores>, rounds: seq<Round>, n: nat)
    requires IsRun(entities, scores, rounds) && |rounds| == n + 1
    ensures IsRun(entities, scores[..n], rounds[..n]) && IsRound(entities, scores[n], rounds[n])
  {
    assert forall k | 0 <= k < n :: rounds[..n][k] == rounds[k] && scores[..n][k] == scores[k];
  }

  lemma RunMore(entities: seq<Id>, scores: seq<Scores>, rounds: seq<Round>, s: Scores, r: Round)
    requires IsRun(entities, scores, rounds) && IsRound(entities, s, r)
    ensures IsRun(entities, scores + [s], rounds + [r])
  {
  }

  predicate Outscores(scores: Scores, a: Id, b: Id) { a in scores && b in scores && scores[a] > scores[b] }

  lemma Positions(entities: seq<Id>, scores: Scores, order: seq<Id>, a: Id, b: Id) returns (i: nat, j: nat)
    requires NoDup(entities) && IsSort(entities, scores, order) && a in entities && b in entities
    requires Outscores(scores, a, b)
    ensures j < i < |order| && order[i] == a && order[j] == b && NoDup(order)
  {
    SortIsNoDup(entities, order);
    i :| 0 <= i < |order| && order[i] == a;
    j :| 0 <= j < |order| && order[j] == b;
  }

  /** `a` is ahead of `b` by at least 1 - p. */
  predicate Leads(ranks: Ranks, a: Id, b: Id, p: real) {
    Rank(ranks, a) - Rank(ranks, b) >= 1.0 - p
  }

  lemma RoundDominance(entities: seq<Id>, scores: Scores, order: seq<Id>, ranks: Ranks, m: real, a: Id, b: Id, p: real)
    requires NoDup(entities) && 0.0 <= m <= 1.0 && IsSort(entities, scores, order) && a in entities && b in entities
    requires Outscores(scores, a, b) && Leads(ranks, a, b, p)
    ensures Leads(Updated(ranks, order, m), a, b, Times(m, p))
  {
    var i, j := Positions(entities, scores, order, a, b);
    UpdatedAt(ranks, order, m);
    GapStep(Rank(ranks, a), Rank(ranks, b), i as real, j as real, m, p);
  }

  /** An entity that outscores another in every round is ahead by at least one minus the weight of the start. */
  lemma {:induction false} AheadAfter(entities: seq<Id>, scores: seq<Scores>, rounds: seq<Round>, a: Id, b: Id)
    requires NoDup(entities) && IsRun(entities, scores, rounds) && Averages(rounds) && a in entities && b in entities
    requires forall k | 0 <= k < |scores| :: Outscores(scores[k], a, b)
    ensures Leads(After(rounds), a, b, Weight(rounds))
  {
    if rounds != [] {
      var n := |rounds| - 1;
      RunPrefix(entities, scores, rounds, n);
      assert forall k | 0 <= k < n :: scores[..n][k] == scores[k];
      AheadAfter(entities, scores[..n], rounds[..n], a, b);
      RoundDominance(entities, scores[n], rounds[n].order, After(rounds[..n]), rounds[n].m, a, b, Weight(rounds[..n]));
      assert After(rounds) == Updated(After(rounds[..n]), rounds[n].order, rounds[n].m);
      assert Weight(rounds) == Times(rounds[n].m, Weight(rounds[..n]));
    }
  }

  /** Property: an entity that outscores another in every round never ranks below it. */
  lemma Dominance(entities: seq<Id>, scores: seq<Scores>, rounds: seq<Round>, a: Id, b: Id)
    requires NoDup(entities) && IsRun(entities, scores, rounds) && Averages(rounds) && a in entities && b in entities
    requires forall k | 0 <= k < |scores| :: Outscores(scores[k], a, b)
    ensures Rank(After(rounds), a) - Rank(After(rounds), b) >= 1.0 - Weight(rounds) >= 0.0
  {
    AheadAfter(entities, scores, rounds, a, b);
    WeightRange(rounds);
  }

  // ---- the ranks together

  function Total(s: seq<Id>, ranks: Ranks): real {
    if s == [] then 0.0 else Total(s[..|s| - 1], ranks) + Rank(ranks, s[|s| - 1])
  }

  lemma {:induction false} TotalWithout(s: seq<Id>, ranks: Ranks, i: nat)
    requires i < |s|
    ensures Total(s, ranks) == Total(s[..i] + s[i + 1..], ranks) + Rank(ranks, s[i])
  {
    var n := |s| - 1;
    if i == n {
      assert s[..i] + s[i + 1..] == s[..n];
    } else {
      TotalWithout(s[..n], ranks, i);
      var t := s[..i] + s[i + 1..];
      assert t[..|t| - 1] == s[..n][..i] + s[..n][i + 1..];
    }
  }

  lemma MultisetWithout(s: seq<Id>, i: nat)
    requires i < |s|
    ensures multiset(s[..i] + s[i + 1..]) == multiset(s) - multiset{s[i]}
  {
    assert s == s[..i] + [s[i]] + s[i + 1..];
  }

  /** The total does not depend on the order. */
  lemma {:induction false} TotalPermuted(s: seq<Id>, t: seq<Id>, ranks: Ranks)
    requires multiset(s) == multiset(t)
    ensures Total(s, ranks) == Total(t, ranks)
    decreases |s|
  {
    assert |multiset(s)| == |s| && |multiset(t)| == |t|;
    if s != [] {
      var n := |s| - 1;
      var x := s[n];
      assert x in multiset(s);
      var i :| 0 <= i < |t| && t[i] == x;
      MultisetWithout(s, n);
      MultisetWithout(t, i);
      assert s[..n] + s[n + 1..] == s[..n];
      TotalPermuted(s[..n], t[..i] + t[i + 1..], ranks);
      TotalWithout(t, ranks, i);
    }
  }

  /** 0 + 1 + ... + (n - 1) */
  function Triangle(n: nat): real { if n == 0 then 0.0 else Triangle(n - 1) + (n - 1) as real }

  /** The number of pairs of `n` entities. */
  function Pairs(n: nat): real { n as real * (n as real - 1.0) / 2.0 }

  lemma {:induction false} TriangleClosed(n: nat)
    ensures Triangle(n) == Pairs(n)
  {
    if n > 0 { TriangleClosed(n - 1); }
  }

  lemma {:induction false} TotalUpdated(order: seq<Id>, ranks: Ranks, r: Ranks, m: real, n: nat)
    requires n <= |order| && forall i | 0 <= i < |order| :: Rank(r, order[i]) == Average(Rank(ranks, order[i]), i as real, m)
    ensures Total(order[..n], r) == Average(Total(order[..n], ranks), Triangle(n), m)
  {
    if n > 0 {
      TotalUpdated(order, ranks, r, m, n - 1);
      assert order[..n][..n - 1] == order[..n - 1];
      AverageSum(Total(order[..n - 1], ranks), Triangle(n - 1), Rank(ranks, order[n - 1]), (n - 1) as real, m);
    }
  }

  lemma SumStep(x: real, t: real, w: real, m: real)
    requires x == Times(1.0 - w, t)
    ensures Average(x, t, m) == Times(1.0 - Times(m, w), t)
  {
    assert ((1.0 - w) * t) * m + t * (1.0 - m) == (1.0 - m * w) * t;
  }

  /** The ranks add up to 0 + 1 + ... + (n - 1), less the part `w` of it. */
  predicate SumsTo(entities: seq<Id>, ranks: Ranks, w: real) {
    Total(entities, ranks) == Times(1.0 - w, Triangle(|entities|))
  }

  lemma RoundTotal(entities: seq<Id>, order: seq<Id>, ranks: Ranks, m: real)
    requires NoDup(entities) && multiset(order) == multiset(entities)
    ensures Total(entities, Updated(ranks, order, m)) == Average(Total(entities, ranks), Triangle(|entities|), m)
  {
    SortIsNoDup(entities, order);
    UpdatedAt(ranks, order, m);
    TotalUpdated(order, ranks, Updated(ranks, order, m), m, |order|);
    assert order[..|order|] == order;
    TotalPermuted(entities, order, ranks);
    TotalPermuted(entities, order, Updated(ranks, order, m));
  }

  lemma RoundAddsUp(entities: seq<Id>, order: seq<Id>, ranks: Ranks, m: real, w: real)
    requires NoDup(entities) && multiset(order) == multiset(entities) && SumsTo(entities, ranks, w)
    ensures SumsTo(entities, Updated(ranks, order, m), Times(m, w))
  {
    RoundTotal(entities, order, ranks, m);
    SumStep(Total(entities, ranks), Triangle(|entities|), w, m);
  }

  lemma {:induction false} SumsAfter(entities: seq<Id>, scores: seq<Scores>, rounds: seq<Round>)
    requires NoDup(entities) && IsRun(entities, scores, rounds)
    ensures SumsTo(entities, After(rounds), Weight(rounds))
  {
    if rounds == [] {
      TotalZero(entities);
    } else {
      var n := |rounds| - 1;
      RunPrefix(entities, scores, rounds, n);
      SumsAfter(entities, scores[..n], rounds[..n]);
      RoundAddsUp(entities, rounds[n].order, After(rounds[..n]), rounds[n].m, Weight(rounds[..n]));
      assert After(rounds) == Updated(After(rounds[..n]), rounds[n].order, rounds[n].m);
      assert Weight(rounds) == Times(rounds[n].m, Weight(rounds[..n]));
    }
  }

  /** Property: a round hands out every position once: after any rounds the ranks add up to n (n - 1) / 2, less what
      the start still weighs. */
  lemma RanksAddUp(entities: seq<Id>, scores: seq<Scores>, rounds: seq<Round>)
    requires NoDup(entities) && IsRun(entities, scores, rounds)
    ensures Total(entities, After(rounds)) == Times(1.0 - Weight(rounds), Pairs(|entities|))
  {
    SumsAfter(entities, scores, rounds);
    TriangleClosed(|entities|);
  }

  lemma {:induction false} TotalZero(s: seq<Id>)
    ensures Total(s, map[]) == 0.0
  {
    if s != [] { TotalZero(s[..|s| - 1]); }
  }

  // ---- the state

  /** Moves the rank of every entity towards its position in the order. */
  method Smooth(ranks: Ranks, order: seq<Id>, m: real) returns (r: Ranks)
    requires NoDup(order)
    ensures r == Updated(ranks, order, m)
  {
    r := ranks;
    var i := 0;
    while i < |order|
      invariant 0 <= i <= |order| && r == Updated(ranks, order[..i], m)
    {
      UpdatedStep(ranks, order, m, i);
      r := r[order[i] := Average(Rank(r, order[i]), i as real, m)];
      i := i + 1;
    }
    assert order[..i] == order;
  }

  /** Of the valid entities seen so far, `v` has the least rank, `r`, if one is below the sentinel. */
  ghost predicate IsLeast(ranks: Ranks, valid: map<Id, bool>, seen: set<Id>, v: Id, r: real, invalid: Id)
    requires seen <= ranks.Keys && seen <= valid.Keys
  {
    if exists e :: e in seen && valid[e] && ranks[e] < |ranks| as real
    then v in seen && valid[v] && r == ranks[v] < |ranks| as real && forall e | e in seen && valid[e] :: r <= ranks[e]
    else v == invalid && r == |ranks| as real
  }

  /** Of the valid entities seen so far, `v` has the greatest rank, `r`, if one is above the sentinel. */
  ghost predicate IsGreatest(ranks: Ranks, valid: map<Id, bool>, seen: set<Id>, v: Id, r: real, invalid: Id)
    requires seen <= ranks.Keys && seen <= valid.Keys
  {
    if exists e :: e in seen && valid[e] && ranks[e] > -1.0
    then v in seen && valid[v] && r == ranks[v] > -1.0 && forall e | e in seen && valid[e] :: r >= ranks[e]
    else v == invalid && r == -1.0
  }

  lemma LeastStep(ranks: Ranks, valid: map<Id, bool>, seen: set<Id>, v: Id, r: real, invalid: Id, e: Id)
    requires seen <= ranks.Keys && seen <= valid.Keys && e in ranks && e in valid && IsLeast(ranks, valid, seen, v, r, invalid)
    ensures if valid[e] && ranks[e] < r then IsLeast(ranks, valid, seen + {e}, e, ranks[e], invalid)
            else IsLeast(ranks, valid, seen + {e}, v, r, invalid)
  {}

  lemma GreatestStep(ranks: Ranks, valid: map<Id, bool>, seen: set<Id>, v: Id, r: real, invalid: Id, e: Id)
    requires seen <= ranks.Keys && seen <= valid.Keys && e in ranks && e in valid && IsGreatest(ranks, valid, seen, v, r, invalid)
    ensures if valid[e] && ranks[e] > r then IsGreatest(ranks, valid, seen + {e}, e, ranks[e], invalid)
            else IsGreatest(ranks, valid, seen + {e}, v, r, invalid)
  {}

  /** One walk over the ranks, in any order, for the victim and the receiver. */
  method Extremes(ranks: Ranks, validVictim: map<Id, bool>, validReceiver: map<Id, bool>, invalid: Id)
    returns (r: Option<(Id, Id)>)
    ensures r.Some? <==> ranks.Keys <= validVictim.Keys && ranks.Keys <= validReceiver.Keys
    ensures r.Some? ==> exists least :: IsLeast(ranks, validVictim, ranks.Keys, r.value.0, least, invalid)
    ensures r.Some? ==> exists greatest :: IsGreatest(ranks, validReceiver, ranks.Keys, r.value.1, greatest, invalid)
  {
    var victim, receiver := invalid, invalid;
    var minRank, maxRank := |ranks| as real, -1.0;
    var rest := ranks.Keys;
    ghost var seen := {};
    while rest != {}
      invariant rest <= ranks.Keys && seen == ranks.Keys - rest && seen <= validVictim.Keys && seen <= validReceiver.Keys
      invariant IsLeast(ranks, validVictim, seen, victim, minRank, invalid)
      invariant IsGreatest(ranks, validReceiver, seen, receiver, maxRank, invalid)
    {
      var e :| e in rest;
      if e !in validReceiver || e !in validVictim { return None; }
      LeastStep(ranks, validVictim, seen, victim, minRank, invalid, e);
      GreatestStep(ranks, validReceiver, seen, receiver, maxRank, invalid, e);
      if validReceiver[e] && ranks[e] > maxRank { maxRank, receiver := ranks[e], e; }
      if validVictim[e] && ranks[e] < minRank { minRank, victim := ranks[e], e; }
      rest, seen := rest - {e}, seen + {e};
    }
    assert seen == ranks.Keys;
    return Some((victim, receiver));
  }

  class State {
    const entities: seq<Id>
    var ranks: Ranks
    /** The scores and the rounds so far. */
    ghost var scored: seq<Scores>
    ghost var rounds: seq<Round>

    ghost predicate Valid()
      reads this
    {
      NoDup(entities) && IsRun(entities, scored, rounds) && ranks == After(rounds)
    }

    constructor (es: seq<Id>)
      requires NoDup(es)
      ensures Valid() && entities == es && scored == []
    {
      entities, ranks, rounds, scored := es, map[], [], [];
    }

    /** Sorts the entities by score and moves every rank towards the entity's position; throws, before any rank is
        changed, if a score is missing. */
    method UpdateRankings(scores: Scores, m: real) returns (thrown: bool)
      requires Valid()
      modifies this
      ensures Valid() && thrown == !Known(entities, scores)
      ensures thrown ==> ranks == old(ranks) && scored == old(scored) && rounds == old(rounds)
      ensures !thrown ==> scored == old(scored) + [scores] && |rounds| == |old(rounds)| + 1
      ensures !thrown ==> rounds[..|rounds| - 1] == old(rounds) && rounds[|rounds| - 1].m == m
    {
      if !Known(entities, scores) { return true; }
      var order := SortEntitiesByScores(scores, entities);
      SortIsNoDup(entities, order);
      ranks := Smooth(ranks, order, m);
      RunMore(entities, scored, rounds, scores, Round(order, m));
      scored, rounds := scored + [scores], rounds + [Round(order, m)];
      assert rounds[..|rounds| - 1] == old(rounds);
      return false;
    }

    /** Picks a valid victim of least rank and a valid receiver of greatest rank, if the sentinels n and -1 are beaten.
        Property: with averages, they always are, by every valid entity.  Throws if the validity of an entity is missing. */
    method PickVictimAndReceiver(validVictim: map<Id, bool>, validReceiver: map<Id, bool>, invalid: Id)
      returns (r: Option<(Id, Id)>)
      requires Valid()
      ensures r.Some? <==> ranks.Keys <= validVictim.Keys && ranks.Keys <= validReceiver.Keys
      ensures r.Some? ==>
                if exists e :: e in ranks && validVictim[e] && (Averages(rounds) || ranks[e] < |ranks| as real)
                then r.value.0 in ranks && validVictim[r.value.0] && forall e | e in ranks && validVictim[e] :: ranks[r.value.0] <= ranks[e]
                else r.value.0 == invalid
      ensures r.Some? ==>
                if exists e :: e in ranks && validReceiver[e] && (Averages(rounds) || ranks[e] > -1.0)
                then r.value.1 in ranks && validReceiver[r.value.1] && forall e | e in ranks && validReceiver[e] :: ranks[r.value.1] >= ranks[e]
                else r.value.1 == invalid
    {
      if Averages(rounds) { Sentinel(); }
      r := Extremes(ranks, validVictim, validReceiver, invalid);
    }

    lemma Sentinel()
      requires Valid() && Averages(rounds)
      ensures forall e | e in ranks :: -1.0 < ranks[e] < |ranks| as real
    {
      RanksInRange(entities, scored, rounds);
      ElemCount(entities);
      assert |ranks| == |ranks.Keys|;
    }
  }

  lemma {:induction false} ElemCount(s: seq<Id>)
    requires NoDup(s)
    ensures |set e | e in s| == |s|
  {
    if s != [] {
      assert s == [s[0]] + s[1..];
      ElemCount(s[1..]);
      assert (set e | e in s) == {s[0]} + set e | e in s[1..];
    }
  }

  /** Some sort by score; the ranking relies on its contract only. */
  method SortEntitiesByScores(scores: Scores, entities: seq<Id>) returns (order: seq<Id>)
    requires Known(entities, scores)
    ensures IsSort(entities, scores, order)
  {
    if |entities| < 2 { return entities; }
    order := [];
    var i := 0;
    while i < |entities|
      invariant 0 <= i <= |entities| && multiset(order) == multiset(entities[..i]) && Ascends(scores, order)
    {
      assert entities[..i + 1] == entities[..i] + [entities[i]];
      order := Insertion(scores, order, entities[i]);
      i := i + 1;
    }
    assert entities[..i] == entities;
  }

  method Insertion(scores: Scores, order: seq<Id>, x: Id) returns (r: seq<Id>)
    requires Ascends(scores, order) && x in scores
    ensures Ascends(scores, r) && multiset(r) == multiset(order) + multiset{x}
  {
    var j := |order|;
    while j > 0 && scores[x] < scores[order[j - 1]]
      invariant 0 <= j <= |order| && forall k | j <= k < |order| :: scores[x] < scores[order[k]]
    {
      j := j - 1;
    }
    InsertedMembers(order, x, j);
    InsertedOrder(scores, order, x, j);
    r := order[..j] + [x] + order[j..];
  }

  lemma InsertedMembers(order: seq<Id>, x: Id, j: nat)
    requires j <= |order|
    ensures multiset(order[..j] + [x] + order[j..]) == multiset(order) + multiset{x}
    ensures forall e | e in order[..j] + [x] + order[j..] :: e in order || e == x
  {
    assert order == order[..j] + order[j..];
  }

  lemma InsertedOrder(scores: Scores, order: seq<Id>, x: Id, j: nat)
    requires Ascends(scores, order) && x in scores && j <= |order|
    requires forall k | j <= k < |order| :: scores[x] < scores[order[k]]
    requires j > 0 ==> scores[order[j - 1]] <= scores[x]
    ensures Ascends(scores, order[..j] + [x] + order[j..])
  {
    var r := order[..j] + [x] + order[j..];
    forall k | 0 <= k < j ensures scores[order[k]] <= scores[x] {}
    forall e | e in r ensures e in scores { assert e in order || e == x; }
    forall a, b | 0 <= a < b < |r| ensures scores[r[a]] <= scores[r[b]] {
      var a', b' := if a < j then a else a - 1, if b < j then b else b - 1;
      assert r[a] == (if a == j then x else order[a']) && r[b] == (if b == j then x else order[b']);
    }
  }
}
