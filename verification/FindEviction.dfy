/** The search for memory to recycle: the eviction queue is looked at from its end, under a limit on the number of
    items looked at, and started over while it may have changed. */
module FindEviction {
  import opened ChainedItems
  import opened Options
  import opened Sequences
  import Protocol

  type Word = Protocol.Item

  /** The refcount words, the parents that chained items name as their key, and the children of every parent. */
  datatype World = World(words: map<Item, Word>, parentOf: map<Item, Item>, stacks: Stacks)

  /** `c` is a child of `p`: only the head is in the secondary table, and the parent's is the only reference unless
      somebody has a handle to the parent. */
  predicate ChildOk(w: World, p: Item, c: Item)
    requires p in w.stacks && p in w.words
  {
    && c in w.parentOf && w.parentOf[c] == p && c in w.words && w.words[c].ref > 0 && !w.words[c].exclusive
    && (w.words[p].ref == 0 ==> w.words[c].ref == 1) && w.words[c].accessible == (w.stacks[p] != [] && w.stacks[p][0] == c)
  }

  ghost predicate Sound(w: World) {
    && (forall p {:trigger w.stacks[p]} | p in w.stacks ::
          p in w.words && p !in w.parentOf && NoDup(w.stacks[p]) && forall c | c in w.stacks[p] :: ChildOk(w, p, c))
    && (forall c {:trigger w.words[c]} | c in w.parentOf && c in w.words && w.words[c].linked ::
          w.parentOf[c] in w.stacks && c in w.stacks[w.parentOf[c]])
  }

  /** One place of the queue: the item there, the parent it names when the search reads it, and the world at the
      moment the mark is tried; between the two other threads may give the item another parent. */
  datatype Look = Look(item: Item, parent: Option<Item>, world: World)
  {
    /** The item to evict: the item itself, or the parent of a chained item. */
    function Candidate(): Item { if parent.Some? then parent.value else item }
    /** The queue is locked, so the item is still linked. */
    ghost predicate Consistent() {
      && Sound(world) && item in world.words && world.words[item].linked && Candidate() in world.words
      && (parent.Some? <==> item in world.parentOf) && Candidate() !in world.parentOf
    }
    predicate CanEvict() { Candidate() in world.words && world.words[Candidate()].CanMark() }
    /** The parent is still the same. */
    predicate Fits() { parent.None? || (item in world.parentOf && world.parentOf[item] == parent.value) }
    /** The candidate and its children. */
    function All(): seq<Item> { Stack(world.stacks, Candidate()) + [Candidate()] }
  }

  function Relabel(w: World, x: Item, word: Word): World { w.(words := w.words[x := word]) }

  function OffMM(w: World, x: Item): World
    requires x in w.words
  {
    Relabel(w, x, w.words[x].(linked := false))
  }

  /** Out of the table, out of the MM container, unmarked. */
  function UnlinkedForEviction(w: World, x: Item): World
    requires x in w.words
  {
    Relabel(w, x, w.words[x].(accessible := false, linked := false, exclusive := false))
  }

  /** What is given back over the items looked at; `None` stands for a look at an empty queue. */
  function GivenBack(log: seq<Option<Look>>): seq<Item> {
    if log == [] then [] else GivenBack(log[..|log| - 1]) + GivenBackBy(log[|log| - 1])
  }

  function GivenBackBy(o: Option<Look>): seq<Item> {
    if o.Some? && o.value.CanEvict() then Freed(o.value.All(), Some(o.value.item)) else []
  }

  predicate Wins(o: Option<Look>) { o.Some? && o.value.CanEvict() && o.value.Fits() }

  function Looks(queue: seq<Look>): seq<Option<Look>> { seq(|queue|, i requires 0 <= i < |queue| => Some(queue[i])) }

  /** The candidate of `l` was marked, taken out of both containers and unmarked; a recycled child has left the MM
      container; nothing else has changed. */
  ghost predicate Taken(l: Look, w: World) {
    && w.stacks == l.world.stacks && w.parentOf == l.world.parentOf && w.words.Keys == l.world.words.Keys
    && l.Candidate() in w.words && w.words[l.Candidate()].IsDrained()
    && forall x {:trigger w.words[x]} | x in w.words && x != l.Candidate() ::
         w.words[x] == if x == l.item && l.Fits() then l.world.words[x].(linked := false) else l.world.words[x]
  }

  method Take(l: Look) returns (w: World)
    requires l.Consistent() && l.CanEvict()
    ensures Taken(l, w)
  {
    var c := l.Candidate();
    w := Relabel(l.world, c, l.world.words[c].(exclusive := true));
    if l.parent.None? || w.parentOf[l.item] == c { w := OffMM(w, l.item); }
    w := UnlinkedForEviction(w, c);
  }

  /** More items may be looked at; a limit of 0 is no limit. */
  predicate Within(limit: nat, tries: nat) { limit == 0 || limit > tries }

  /** Looks at the queue until an item can be marked, the queue ends, or the limit is reached.  `looks` are the items
      looked at; `None` stands for a look at an empty queue. */
  method GetNextCandidate(queue: seq<Look>, limit: nat, tries: nat)
    returns (found: Option<Look>, w: World, tries': nat, ghost looks: seq<Option<Look>>)
    requires Within(limit, tries) && forall l | l in queue :: l.Consistent()
    ensures tries < tries' == tries + |looks| && (limit > 0 ==> tries' <= limit)
    ensures looks == if queue == [] then [None] else Looks(queue[..if |looks| <= |queue| then |looks| else |queue|])
    ensures found.Some? ==> found.value in queue && found.value.CanEvict() && Taken(found.value, w)
    ensures if found.Some? then Last(looks) == found && Busy(looks[..|looks| - 1])
            else Busy(looks) && (|looks| >= |queue| || !Within(limit, tries'))
  {
    tries', w, looks := tries, World(map[], map[], map[]), [];
    if queue == [] { return None, w, tries' + 1, [None]; }
    var i := 0;
    while Within(limit, tries') && i < |queue|
      invariant 0 <= i <= |queue| && tries' == tries + i && (limit > 0 ==> tries' <= limit)
      invariant looks == Looks(queue[..i]) && Busy(looks)
    {
      tries' := tries' + 1;
      assert queue[..i + 1] == queue[..i] + [queue[i]];
      assert Looks(queue[..i + 1]) == looks + [Some(queue[i])];
      looks := looks + [Some(queue[i])];
      var l := queue[i];
      assert l in queue && l.Consistent();
      if l.CanEvict() {
        w := Take(l);
        assert looks[..|looks| - 1] == Looks(queue[..i]);
        return Some(l), w, tries', looks;
      }
      i := i + 1;
    }
    return None, w, tries', looks;
  }

  /** The release of the members of `chain` up to `i`: these are drained, the rest is out of the table. */
  ghost predicate Halfway(world: World, w: World, it: Item, chain: seq<Item>, i: nat) {
    && w.words.Keys == world.words.Keys && it in w.words && w.words[it] == world.words[it]
    && forall j {:trigger chain[j]} | 0 <= j < |chain| ::
         && chain[j] in w.words && chain[j] != it
         && if j < i then w.words[chain[j]].IsDrained() else w.words[chain[j]].(linked := false, ref := 0).IsDrained() && w.words[chain[j]].ref == 1
  }

  lemma DropStep(world: World, w: World, it: Item, chain: seq<Item>, i: nat)
    requires NoDup(chain) && i < |chain| && Halfway(world, w, it, chain, i)
    ensures Halfway(world, Relabel(w, chain[i], w.words[chain[i]].(linked := false, ref := w.words[chain[i]].ref - 1)), it, chain, i + 1)
  {}

  /** The drained item `it` can be released. */
  ghost predicate Ready(w: World, it: Item) {
    && it in w.words && w.words[it].IsDrained()
    && (it in w.stacks ==>
          && NoDup(w.stacks[it]) && it !in w.stacks[it]
          && forall j | 0 <= j < |w.stacks[it]| :: ChildOk(w, it, w.stacks[it][j]))
  }

  lemma HeadStep(w: World, it: Item)
    requires Ready(w, it) && it in w.stacks && w.stacks[it] != []
    ensures var c := w.stacks[it][0]; c in w.words && Halfway(w, Relabel(w, c, w.words[c].(accessible := false)), it, w.stacks[it], 0)
  {
    var chain := w.stacks[it];
    assert ChildOk(w, it, chain[0]);
    forall j | 0 <= j < |chain| ensures ChildOk(w, it, chain[j]) && (j > 0 ==> chain[j] != chain[0]) && chain[j] != it {}
  }

  /** Gives the drained item `it` and its children back, except the one to recycle. */
  method Release(world: World, it: Item, toRecycle: Item) returns (w: World, freed: seq<Item>, res: ReleaseRes)
    requires Ready(world, it)
    ensures freed == Freed(Stack(world.stacks, it) + [it], Some(toRecycle))
    ensures res == Verdict(Some(toRecycle), Stack(world.stacks, it) + [it])
    ensures forall x | x in Stack(world.stacks, it) + [it] :: x in w.words && w.words[x].IsDrained()
  {
    w, freed, res := world, [], NotRecycled;
    var chain := Stack(world.stacks, it);
    if chain != [] {
      HeadStep(w, it);
      w := Relabel(w, chain[0], w.words[chain[0]].(accessible := false));
    }
    var i := 0;
    while i < |chain|
      invariant 0 <= i <= |chain| && freed == Freed(chain[..i], Some(toRecycle))
      invariant Halfway(world, w, it, chain, i) && NoDup(chain)
      invariant res == if toRecycle in chain[..i] then Recycled else NotRecycled
    {
      var c := chain[i];
      DropStep(world, w, it, chain, i);
      FreedStep(chain, Some(toRecycle), i);
      assert chain[..i + 1] == chain[..i] + [c];
      w := Relabel(w, c, w.words[c].(linked := false, ref := w.words[c].ref - 1));
      if c == toRecycle { res := Recycled; } else { freed := freed + [c]; }
      i := i + 1;
    }
    assert chain[..i] == chain;
    FreedLast(chain, it, Some(toRecycle));
    if it == toRecycle { res := Recycled; } else { freed := freed + [it]; }
  }

  function Last(log: seq<Option<Look>>): Option<Look>
    requires log != []
  {
    log[|log| - 1]
  }

  /** None of them can be marked. */
  predicate Busy(log: seq<Option<Look>>) { forall o | o in log && o.Some? :: !o.value.CanEvict() }

  predicate NoWin(log: seq<Option<Look>>) { forall o | o in log :: !Wins(o) }

  /** Every item looked at was in the queue at some attempt. */
  ghost predicate FromQueue(log: seq<Option<Look>>, queue: nat -> seq<Look>) {
    forall o | o in log && o.Some? :: exists n :: o.value in queue(n)
  }

  /** The first item of the queue that can be marked, if there is one, still has the same parent. */
  ghost predicate Fruitful(queue: seq<Look>) {
    exists i :: 0 <= i < |queue| && Wins(Some(queue[i])) && Busy(Looks(queue[..i]))
  }

  lemma FoundIsFirst(queue: seq<Look>, looks: seq<Option<Look>>)
    requires queue != [] && 0 < |looks| <= |queue| && looks == Looks(queue[..|looks|])
    requires Busy(looks[..|looks| - 1]) && Last(looks).value.CanEvict()
    ensures Wins(Last(looks)) <==> Fruitful(queue)
  {
    var k := |looks| - 1;
    assert Looks(queue[..k]) == looks[..k] && Last(looks) == Some(queue[k]);
    forall i | 0 <= i < k ensures !Wins(Some(queue[i])) { assert looks[..k][i] in looks[..k]; }
    forall i | k < i < |queue| ensures !Busy(Looks(queue[..i])) { assert Looks(queue[..i])[k] in Looks(queue[..i]); }
  }

  lemma NothingFound(queue: seq<Look>, looks: seq<Option<Look>>)
    requires Busy(looks) && (queue != [] ==> looks == Looks(queue))
    ensures !Fruitful(queue)
  {
    forall i | 0 <= i < |queue| ensures !Wins(Some(queue[i])) { assert looks[i] in looks; }
  }

  /** All that is known of the search so far: what was looked at, and what was given back. */
  ghost predicate SoFar(log: seq<Option<Look>>, queue: nat -> seq<Look>, tries: nat, freed: seq<Item>) {
    |log| == tries && FromQueue(log, queue) && freed == GivenBack(log)
  }

  /** The search ends with `r`: the last item looked at is the first that could be returned; it is drained. */
  ghost predicate Ends(log: seq<Option<Look>>, r: Item, w: World) {
    && log != [] && NoWin(log[..|log| - 1]) && Wins(Last(log)) && Last(log).value.item == r
    && r in w.words && w.words[r].IsDrained()
  }

  /** One attempt: the next candidate is evicted, with its children, and given back except for the item to return. */
  method Attempt(queue: nat -> seq<Look>, n: nat, limit: nat, tries: nat, freed: seq<Item>, ghost log: seq<Option<Look>>)
    returns (r: Option<Item>, tries': nat, w: World, freed': seq<Item>, ghost log': seq<Option<Look>>)
    requires Within(limit, tries) && (forall l | l in queue(n) :: l.Consistent())
    requires SoFar(log, queue, tries, freed) && NoWin(log)
    ensures SoFar(log', queue, tries', freed') && tries < tries' && (limit > 0 ==> tries' <= limit)
    ensures if r.Some? then Ends(log', r.value, w) else NoWin(log')
    ensures limit == 0 ==> (r.Some? <==> Fruitful(queue(n)))
  {
    var found;
    ghost var looks;
    found, w, tries', looks := GetNextCandidate(queue(n), limit, tries);
    LogMore(log, looks, found, queue, n);
    log', freed', r := log + looks, freed, None;
    if found.Some? {
      FoundIsFirst(queue(n), looks);
      TakenReady(found.value, w);
      var given, res;
      w, given, res := Release(w, found.value.Candidate(), found.value.item);
      freed' := freed + given;
      if res == Recycled { r := Some(found.value.item); } else { NoWinLast(log'); }
    } else if limit == 0 {
      if queue(n) != [] { assert queue(n)[..|queue(n)|] == queue(n); }
      NothingFound(queue(n), looks);
    }
  }

  lemma NoWinLast(log: seq<Option<Look>>)
    requires log != [] && NoWin(log[..|log| - 1]) && !Wins(Last(log))
    ensures NoWin(log)
  {
    assert log == log[..|log| - 1] + [Last(log)];
  }

  /** Property: with a limit, at most that many items are looked at over all restarts; the search gives up only after
      exactly that many, none of which it could have returned, and it returns the first that it can; the result is
      drained, hence out of both containers, and all that was evicted on the way is given back, but not the result.
      Without a limit (0) the search ends, with a result, as soon as an attempt is fruitful; that there is one must
      then be known.  `queue(n)` is the eviction queue that the `n`-th attempt finds. */
  method Search(limit: nat, queue: nat -> seq<Look>)
    returns (r: Option<Item>, tries: nat, w: World, freed: seq<Item>, ghost log: seq<Option<Look>>)
    requires forall n, l | l in queue(n) :: l.Consistent()
    requires limit > 0 || exists n :: Fruitful(queue(n))
    ensures SoFar(log, queue, tries, freed) && (limit > 0 ==> tries <= limit)
    ensures if r.Some? then Ends(log, r.value, w) else limit > 0 && tries == limit && NoWin(log)
  {
    ghost var last: nat := 0;
    if limit == 0 { last :| Fruitful(queue(last)); }
    r, tries, freed, log, w := None, 0, [], [], World(map[], map[], map[]);
    var n := 0;
    while Within(limit, tries)
      invariant SoFar(log, queue, tries, freed) && NoWin(log) && (if limit > 0 then tries <= limit else n <= last)
      decreases if limit > 0 then limit - tries else last - n
    {
      r, tries, w, freed, log := Attempt(queue, n, limit, tries, freed, log);
      if r.Some? { return; }
      n := n + 1;
    }
    return None, tries, w, freed, log;
  }

  lemma LogMore(log: seq<Option<Look>>, looks: seq<Option<Look>>, found: Option<Look>, queue: nat -> seq<Look>, n: nat)
    requires FromQueue(log, queue) && NoWin(log) && looks != [] && forall o | o in looks && o.Some? :: o.value in queue(n)
    requires if found.Some? then Last(looks) == found && Busy(looks[..|looks| - 1]) && found.value.CanEvict() else Busy(looks)
    ensures var all := log + looks;
            && FromQueue(all, queue) && NoWin(all[..|all| - 1]) && (found.None? ==> NoWin(all)) && Last(all) == Last(looks)
            && GivenBack(all) == GivenBack(log) + if found.Some? then GivenBackBy(found) else []
  {
    var all := log + looks;
    if found.Some? {
      assert all[..|all| - 1] == log + looks[..|looks| - 1];
      BusyGivesNothing(log, looks[..|looks| - 1]);
    } else {
      BusyGivesNothing(log, looks);
      assert forall o | o in all[..|all| - 1] :: o in all;
    }
  }

  lemma {:induction false} BusyGivesNothing(log: seq<Option<Look>>, looks: seq<Option<Look>>)
    requires Busy(looks)
    ensures GivenBack(log + looks) == GivenBack(log)
  {
    if looks == [] {
      assert log + looks == log;
    } else {
      var n := |looks| - 1;
      var all := log + looks;
      assert all[..|all| - 1] == log + looks[..n] && looks[n] in looks;
      BusyGivesNothing(log, looks[..n]);
    }
  }

  /** The candidate that was taken can be released, and the item is released with it exactly if the candidate still
      is its parent. */
  lemma TakenReady(l: Look, w: World)
    requires l.Consistent() && l.CanEvict() && Taken(l, w)
    ensures Ready(w, l.Candidate()) && (l.item in l.All() <==> l.Fits()) && Stack(w.stacks, l.Candidate()) + [l.Candidate()] == l.All()
  {
    var it := l.Candidate();
    if it in w.stacks {
      assert l.world.stacks[it] == w.stacks[it];
      forall j | 0 <= j < |w.stacks[it]| ensures w.stacks[it][j] != it && ChildOk(w, it, w.stacks[it][j]) {
        assert ChildOk(l.world, it, w.stacks[it][j]);
      }
    }
    if l.parent.Some? && l.Fits() { assert l.world.words[l.item].linked; }
  }

  /** What one eviction gives back: the candidate and its children, each exactly once, except the recycled item;
      the result of a search is thus not given back by the eviction that yields it. */
  lemma GivenOnce(l: Look, x: Item)
    requires l.Consistent() && l.CanEvict()
    ensures multiset(GivenBackBy(Some(l)))[x] == if x in l.All() && x != l.item then 1 else 0
  {
    var it := l.Candidate();
    var chain := Stack(l.world.stacks, it);
    if it in l.world.stacks {
      forall j | 0 <= j < |chain| ensures chain[j] != it { assert ChildOk(l.world, it, chain[j]); }
    }
    assert NoDup(chain) && it !in chain;
    assert NoDup(chain + [it]);
    FreedOnce(l.All(), Some(l.item), x);
  }
}
