/** The few shapes a step can have, and why each shape keeps the data invariant and leaves alone
    what other threads rely on. */
module ProtocolMoves {
  import opened Options
  import opened Protocol
  import opened ProtocolInv

  ghost predicate OnlyThread(s: State, s': State, t: Tid) {
    forall t' {:trigger KeepsThread(s, s', t')} {:trigger ClaimOf(s', t')} {:trigger PubOf(s', t')} {:trigger ReplOf(s', t')} |
      t' != t :: KeepsThread(s, s', t')
  }

  predicate SameRole(s: State, s': State, t: Tid) {
    ClaimOf(s', t) == ClaimOf(s, t) && PubOf(s', t) == PubOf(s, t) && ReplOf(s', t) == ReplOf(s, t)
  }

  ghost predicate Safe(s: State, s': State, t: Tid) { DataInv(s') && Guarantee(s, s', t) }

  /** Thread `t` takes no handle away, touches at most items `i` and `n`, which no other thread
      has claimed, and changes the table under at most the key `k`, with the bucket lock. */
  lemma LocalStep(s: State, s': State, t: Tid, i: ItemId, n: ItemId, k: Key)
    requires OnlyThread(s, s', t)
    requires forall j | j in s.items ::
               && j in s'.items && s'.items[j].key == s.items[j].key
               && (s'.items[j] == s.items[j] || ((j == i || j == n) && (j in s.claims ==> s.claims[j] == t)))
    requires forall j | j in s.claims :: j in s'.claims && s'.claims[j] == s.claims[j]
    requires forall j | j in s.pubs && s.pubs[j] != t :: j in s'.pubs && s'.pubs[j] == s.pubs[j]
    requires forall h | h in s.handles :: h in s'.handles && s'.handles[h] == s.handles[h]
    requires s'.locked == s.locked
    requires LockFree(s, k) || s'.table == s.table
    requires forall k' | k' in s.table && k' != k :: k' in s'.table && s'.table[k'] == s.table[k']
    requires forall w | w in s.waiters :: KeepsWaiter(s, s', t, w)
    ensures Guarantee(s, s', t)
  {}

  /** Thread `t` has a handle to `i`, or `i` is its own claim. */
  predicate InHand(s: State, t: Tid, i: ItemId) {
    && i in s.items
    && (i in s.claims ==> s.claims[i] == t)
    && (i !in s.claims ==> s.items[i].ref > 0)
  }

  /** The publication of `i` by `t` starts, ends or is not concerned. */
  predicate PubsMove(s: State, s': State, t: Tid, i: ItemId) {
    || (s'.pubs == s.pubs && PubOf(s', t) == PubOf(s, t))
    || (i !in s.pubs && s'.pubs == s.pubs[i := t] && PubOf(s, t) == None
        && IsHandleTo(s, PubOf(s', t), i))
    || (i in s.pubs && s.pubs[i] == t && s'.pubs == s.pubs - {i} && PubOf(s', t) == None && ReplOf(s, t) == None)
  }

  ghost predicate AllItems(s: State) {
    && s.claims.Keys <= s.items.Keys && s.pubs.Keys <= s.items.Keys
    && forall i {:trigger ItemInv(s, i)} | i in s.items :: ItemInv(s, i)
  }

  ghost predicate AllKeys(s: State) {
    && (forall h {:trigger HandleInv(s, h)} | h in s.handles :: HandleInv(s, h))
    && (forall k {:trigger KeyInv(s, k)} :: KeyInv(s, k))
  }

  /** Only the program counter moves. */
  ghost predicate PcShape(s: State, s': State, t: Tid) {
    && (DataInv(s) && OnlyThread(s, s', t) && SameRole(s, s', t))
    && (s' == s.(threads := s'.threads, waits := s'.waits, waiters := s'.waiters))
    && (forall w | w in s.waiters :: KeepsWaiter(s, s', t, w))
  }

  lemma PcItems(s: State, s': State, t: Tid)
    requires DataInv(s) && PcShape(s, s', t)
    ensures AllItems(s')
  {
    SameHandles(s, s');
    forall i | i in s'.items ensures ItemInv(s', i) { assert ItemInv(s, i); }
  }

  lemma PcKeys(s: State, s': State, t: Tid)
    requires DataInv(s) && PcShape(s, s', t)
    ensures AllKeys(s')
  {
    SameHandles(s, s');
    forall h | h in s'.handles ensures HandleInv(s', h) { assert HandleInv(s, h); }
    forall k ensures KeyInv(s', k) { assert KeyInv(s, k); }
  }

  lemma PcGuar(s: State, s': State, t: Tid)
    requires DataInv(s) && PcShape(s, s', t)
    ensures Guarantee(s, s', t)
  {
    LocalStep(s, s', t, 0, 0, 0);
  }

  lemma PcMove(s: State, s': State, t: Tid)
    requires DataInv(s) && PcShape(s, s', t)
    ensures Safe(s, s', t)
  {
    PcItems(s, s', t);
    PcKeys(s, s', t);
    PcGuar(s, s', t);
  }

  /** The MM bit of an item in hand changes. */
  ghost predicate LinkShape(s: State, s': State, t: Tid, i: ItemId, b: bool) {
    && (DataInv(s) && OnlyThread(s, s', t) && i in s.items && i !in s.claims && s.items[i].ref > 0)
    && (s' == s.(items := s.items[i := s.items[i].(linked := b)], threads := s'.threads, pubs := s'.pubs))
    && (ClaimOf(s', t) == ClaimOf(s, t) && ReplOf(s', t) == ReplOf(s, t))
    && (PubsMove(s, s', t, i) && (i !in s.pubs && i in s'.pubs ==> !s.items[i].accessible))
  }

  lemma LinkItems(s: State, s': State, t: Tid, i: ItemId, b: bool)
    requires DataInv(s) && LinkShape(s, s', t, i, b)
    ensures AllItems(s')
  {
    assert ItemInv(s, i);
    SameHandles(s, s');
    forall j | j in s'.items ensures ItemInv(s', j) { assert ItemInv(s, j); }
  }

  lemma LinkKeys(s: State, s': State, t: Tid, i: ItemId, b: bool)
    requires DataInv(s) && LinkShape(s, s', t, i, b)
    ensures AllKeys(s')
  {
    SameHandles(s, s');
    forall h | h in s'.handles ensures HandleInv(s', h) { assert HandleInv(s, h); }
    forall k ensures KeyInv(s', k) { assert KeyInv(s, k); }
  }

  lemma LinkGuar(s: State, s': State, t: Tid, i: ItemId, b: bool)
    requires DataInv(s) && LinkShape(s, s', t, i, b)
    ensures Guarantee(s, s', t)
  {
    LocalStep(s, s', t, i, i, 0);
  }

  lemma LinkMove(s: State, s': State, t: Tid, i: ItemId, b: bool)
    requires DataInv(s) && LinkShape(s, s', t, i, b)
    ensures Safe(s, s', t)
  {
    LinkItems(s, s', t, i, b);
    LinkKeys(s, s', t, i, b);
    LinkGuar(s, s', t, i, b);
  }

  /** The owner of a claimed item changes its bits or its count. */
  ghost predicate OwnShape(s: State, s': State, t: Tid, i: ItemId, it: Item) {
    && (DataInv(s) && OnlyThread(s, s', t) && SameRole(s, s', t))
    && (i in s.items && i in s.claims && s.claims[i] == t)
    && (it.key == s.items[i].key && it.accessible == s.items[i].accessible)
    && (s' == s.(items := s.items[i := it], threads := s'.threads))
  }

  lemma OwnItems(s: State, s': State, t: Tid, i: ItemId, it: Item)
    requires DataInv(s) && OwnShape(s, s', t, i, it)
    ensures AllItems(s')
  {
    SameHandles(s, s');
    forall j | j in s'.items ensures ItemInv(s', j) { assert ItemInv(s, j); }
  }

  lemma OwnKeys(s: State, s': State, t: Tid, i: ItemId, it: Item)
    requires DataInv(s) && OwnShape(s, s', t, i, it)
    ensures AllKeys(s')
  {
    SameHandles(s, s');
    forall h | h in s'.handles ensures HandleInv(s', h) { assert HandleInv(s, h); }
    forall k ensures KeyInv(s', k) { assert KeyInv(s, k); }
  }

  lemma OwnGuar(s: State, s': State, t: Tid, i: ItemId, it: Item)
    requires DataInv(s) && OwnShape(s, s', t, i, it)
    ensures Guarantee(s, s', t)
  {
    LocalStep(s, s', t, i, i, 0);
  }

  lemma OwnMove(s: State, s': State, t: Tid, i: ItemId, it: Item)
    requires DataInv(s) && OwnShape(s, s', t, i, it)
    ensures Safe(s, s', t)
  {
    OwnItems(s, s', t, i, it);
    OwnKeys(s, s', t, i, it);
    OwnGuar(s, s', t, i, it);
  }

  /** An idle thread claims an item without handles. */
  ghost predicate MarkShape(s: State, s': State, t: Tid, i: ItemId, it: Item) {
    && (DataInv(s) && OnlyThread(s, s', t) && t !in s.threads && ClaimOf(s', t) == Some(i))
    && (PubOf(s', t) == None && ReplOf(s', t) == None)
    && (i in s.items && i !in s.claims && s.items[i].ref == 0)
    && (it.key == s.items[i].key && it.accessible == s.items[i].accessible)
    && (s' == s.(items := s.items[i := it], threads := s'.threads, claims := s.claims[i := t]))
  }

  lemma MarkItems(s: State, s': State, t: Tid, i: ItemId, it: Item)
    requires DataInv(s) && MarkShape(s, s', t, i, it)
    ensures AllItems(s')
  {
    SameHandles(s, s');
    assert ItemInv(s, i);
    assert HandlesOf(s, i) == {};
    forall j | j in s'.items ensures ItemInv(s', j) { assert ItemInv(s, j); }
  }

  lemma MarkKeys(s: State, s': State, t: Tid, i: ItemId, it: Item)
    requires DataInv(s) && MarkShape(s, s', t, i, it)
    ensures AllKeys(s')
  {
    SameHandles(s, s');
    assert ItemInv(s, i);
    assert HandlesOf(s, i) == {};
    forall h | h in s'.handles ensures HandleInv(s', h) { assert HandleInv(s, h); assert h !in HandlesOf(s, i); }
    forall k ensures KeyInv(s', k) { assert KeyInv(s, k); }
  }

  lemma MarkGuar(s: State, s': State, t: Tid, i: ItemId, it: Item)
    requires DataInv(s) && MarkShape(s, s', t, i, it)
    ensures Guarantee(s, s', t)
  {
    LocalStep(s, s', t, i, i, 0);
  }

  lemma MarkMove(s: State, s': State, t: Tid, i: ItemId, it: Item)
    requires DataInv(s) && MarkShape(s, s', t, i, it)
    ensures Safe(s, s', t)
  {
    MarkItems(s, s', t, i, it);
    MarkKeys(s, s', t, i, it);
    MarkGuar(s, s', t, i, it);
  }

  /** A new handle to a live unclaimed item. */
  ghost predicate IncShape(s: State, s': State, t: Tid, i: ItemId, h: HandleId) {
    && (DataInv(s) && OnlyThread(s, s', t) && SameRole(s, s', t))
    && (i in s.items && i !in s.claims && h !in s.handles)
    && (s' == s.(items := s.items[i := s.items[i].(ref := s.items[i].ref + 1)], handles := s.handles[h := i],
               threads := s'.threads, waiters := s'.waiters))
    && (forall w | w in s.waiters :: KeepsWaiter(s, s', t, w))
  }

  lemma IncItems(s: State, s': State, t: Tid, i: ItemId, h: HandleId)
    requires DataInv(s) && IncShape(s, s', t, i, h)
    ensures AllItems(s')
  {
    HandleAdded(s, s', h, i);
    forall j | j in s'.items ensures ItemInv(s', j) { assert ItemInv(s, j); }
  }

  lemma IncKeys(s: State, s': State, t: Tid, i: ItemId, h: HandleId)
    requires DataInv(s) && IncShape(s, s', t, i, h)
    ensures AllKeys(s')
  {
    HandleAdded(s, s', h, i);
    forall g | g in s'.handles ensures HandleInv(s', g) { if g != h { assert HandleInv(s, g); } }
    forall k ensures KeyInv(s', k) { assert KeyInv(s, k); }
  }

  lemma IncGuar(s: State, s': State, t: Tid, i: ItemId, h: HandleId)
    requires DataInv(s) && IncShape(s, s', t, i, h)
    ensures Guarantee(s, s', t)
  {
    LocalStep(s, s', t, i, i, 0);
  }

  lemma IncMove(s: State, s': State, t: Tid, i: ItemId, h: HandleId)
    requires DataInv(s) && IncShape(s, s', t, i, h)
    ensures Safe(s, s', t)
  {
    IncItems(s, s', t, i, h);
    IncKeys(s, s', t, i, h);
    IncGuar(s, s', t, i, h);
  }

  /** A new allocation with its first handle. */
  ghost predicate AllocShape(s: State, s': State, t: Tid, n: ItemId, h: HandleId, k: Key) {
    && (DataInv(s) && OnlyThread(s, s', t) && ClaimOf(s', t) == ClaimOf(s, t) && ReplOf(s', t) == ReplOf(s, t))
    && (n !in s.items && h !in s.handles)
    && (s' == s.(items := s.items[n := Item(k, 1, false, false, false)], handles := s.handles[h := n],
               threads := s'.threads, pubs := s'.pubs))
    && ((s'.pubs == s.pubs && PubOf(s', t) == PubOf(s, t))
           || (s'.pubs == s.pubs[n := t] && PubOf(s, t) == None && PubOf(s', t) == Some(h)))
  }

  lemma AllocItems(s: State, s': State, t: Tid, n: ItemId, h: HandleId, k: Key)
    requires DataInv(s) && AllocShape(s, s', t, n, h, k)
    ensures AllItems(s')
  {
    AllocNew(s, s', t, n, h, k);
    HandleAdded(s, s', h, n);
    forall j | j in s'.items && j != n ensures ItemInv(s', j) { assert ItemInv(s, j); }
  }

  lemma AllocNew(s: State, s': State, t: Tid, n: ItemId, h: HandleId, k: Key)
    requires DataInv(s) && AllocShape(s, s', t, n, h, k)
    ensures ItemInv(s', n)
  {
    HandleAdded(s, s', h, n);
    forall g | g in s.handles ensures s.handles[g] != n { assert HandleInv(s, g); }
    assert HandlesOf(s, n) == {};
    assert KeyInv(s, k);
  }

  lemma AllocKeys(s: State, s': State, t: Tid, n: ItemId, h: HandleId, k: Key)
    requires DataInv(s) && AllocShape(s, s', t, n, h, k)
    ensures AllKeys(s')
  {
    HandleAdded(s, s', h, n);
    forall g | g in s.handles ensures s.handles[g] != n { assert HandleInv(s, g); }
    assert HandlesOf(s, n) == {};
    assert KeyInv(s, k);
    forall g | g in s'.handles ensures HandleInv(s', g) { if g != h { assert HandleInv(s, g); } }
    forall k ensures KeyInv(s', k) { assert KeyInv(s, k); }
  }

  lemma AllocGuar(s: State, s': State, t: Tid, n: ItemId, h: HandleId, k: Key)
    requires DataInv(s) && AllocShape(s, s', t, n, h, k)
    ensures Guarantee(s, s', t)
  {
    LocalStep(s, s', t, n, n, 0);
  }

  lemma AllocMove(s: State, s': State, t: Tid, n: ItemId, h: HandleId, k: Key)
    requires DataInv(s) && AllocShape(s, s', t, n, h, k)
    ensures Safe(s, s', t)
  {
    AllocItems(s, s', t, n, h, k);
    AllocKeys(s, s', t, n, h, k);
    AllocGuar(s, s', t, n, h, k);
  }

  /** An item in hand leaves the hash table. */
  ghost predicate OffTableShape(s: State, s': State, t: Tid, i: ItemId) {
    && (DataInv(s) && OnlyThread(s, s', t) && SameRole(s, s', t) && InHand(s, t, i) && LockFree(s, s.items[i].key))
    && (s.items[i].accessible)
    && (s' == s.(items := s.items[i := s.items[i].(accessible := false)], table := s.table - {s.items[i].key}, threads := s'.threads))
  }

  lemma OffTableItems(s: State, s': State, t: Tid, i: ItemId)
    requires DataInv(s) && OffTableShape(s, s', t, i)
    ensures AllItems(s')
  {
    SameHandles(s, s');
    assert ItemInv(s, i) && KeyInv(s, s.items[i].key);
    forall j | j in s'.items ensures ItemInv(s', j) { assert ItemInv(s, j); }
  }

  lemma OffTableKeys(s: State, s': State, t: Tid, i: ItemId)
    requires DataInv(s) && OffTableShape(s, s', t, i)
    ensures AllKeys(s')
  {
    SameHandles(s, s');
    assert ItemInv(s, i) && KeyInv(s, s.items[i].key);
    forall h | h in s'.handles ensures HandleInv(s', h) { assert HandleInv(s, h); }
    forall k ensures KeyInv(s', k) { assert KeyInv(s, k); }
  }

  lemma OffTableGuar(s: State, s': State, t: Tid, i: ItemId)
    requires DataInv(s) && OffTableShape(s, s', t, i)
    ensures Guarantee(s, s', t)
  {
    LocalStep(s, s', t, i, i, s.items[i].key);
  }

  lemma OffTableMove(s: State, s': State, t: Tid, i: ItemId)
    requires DataInv(s) && OffTableShape(s, s', t, i)
    ensures Safe(s, s', t)
  {
    OffTableItems(s, s', t, i);
    OffTableKeys(s, s', t, i);
    OffTableGuar(s, s', t, i);
  }

  /** A published item enters the hash table under a key that is not there. */
  ghost predicate IntoTableShape(s: State, s': State, t: Tid, i: ItemId) {
    && (DataInv(s) && OnlyThread(s, s', t) && t !in s'.threads && ClaimOf(s, t) == None && ReplOf(s, t) == None)
    && (i in s.items && i !in s.claims && s.items[i].ref > 0 && i in s.pubs && s.pubs[i] == t)
    && (s.items[i].key !in s.table && LockFree(s, s.items[i].key))
    && (s' == s.(items := Acc(s.items, i, true), table := s.table[s.items[i].key := i], pubs := s.pubs - {i},
                threads := s'.threads))
    && (IsHandleTo(s, PubOf(s, t), i))
  }

  lemma IntoTableItems(s: State, s': State, t: Tid, i: ItemId)
    requires DataInv(s) && IntoTableShape(s, s', t, i)
    ensures AllItems(s')
  {
    SameHandles(s, s');
    assert KeyInv(s, s.items[i].key);
    forall j | j in s'.items ensures ItemInv(s', j) { assert ItemInv(s, j); }
  }

  lemma IntoTableKeys(s: State, s': State, t: Tid, i: ItemId)
    requires DataInv(s) && IntoTableShape(s, s', t, i)
    ensures AllKeys(s')
  {
    SameHandles(s, s');
    assert KeyInv(s, s.items[i].key);
    forall h | h in s'.handles ensures HandleInv(s', h) { assert HandleInv(s, h); }
    forall k ensures KeyInv(s', k) { assert KeyInv(s, k); }
  }

  lemma IntoTableGuar(s: State, s': State, t: Tid, i: ItemId)
    requires DataInv(s) && IntoTableShape(s, s', t, i)
    ensures Guarantee(s, s', t)
  {
    LocalStep(s, s', t, i, i, s.items[i].key);
  }

  lemma IntoTableMove(s: State, s': State, t: Tid, i: ItemId)
    requires DataInv(s) && IntoTableShape(s, s', t, i)
    ensures Safe(s, s', t)
  {
    IntoTableItems(s, s', t, i);
    IntoTableKeys(s, s', t, i);
    IntoTableGuar(s, s', t, i);
  }

  /** `n` takes the place of `i` in the hash table. */
  ghost predicate SwapTableShape(s: State, s': State, t: Tid, i: ItemId, n: ItemId) {
    && (DataInv(s) && OnlyThread(s, s', t) && ClaimOf(s', t) == ClaimOf(s, t) && ReplOf(s', t) == ReplOf(s, t))
    && (InHand(s, t, i) && n in s.items && n !in s.claims && s.items[n].ref > 0)
    && (s.items[n].key == s.items[i].key && s.items[i].accessible && !s.items[n].accessible)
    && (LockFree(s, s.items[i].key))
    && (s' == s.(items := Acc(Acc(s.items, i, false), n, true), table := s.table[s.items[i].key := n],
                threads := s'.threads, pubs := s'.pubs))
    && ((n !in s.pubs && s'.pubs == s.pubs && PubOf(s', t) == PubOf(s, t))
           || (n in s.pubs && s.pubs[n] == t && s'.pubs == s.pubs - {n} && PubOf(s', t) == None
           && IsHandleTo(s, PubOf(s, t), n)))
  }

  lemma SwapTableItems(s: State, s': State, t: Tid, i: ItemId, n: ItemId)
    requires DataInv(s) && SwapTableShape(s, s', t, i, n)
    ensures AllItems(s')
  {
    SameHandles(s, s');
    assert ItemInv(s, i) && ItemInv(s, n) && KeyInv(s, s.items[i].key);
    assert ItemInv(s', i) && ItemInv(s', n);
    forall j | j in s'.items && j != i && j != n ensures ItemInv(s', j) { assert ItemInv(s, j); }
  }

  lemma SwapTableKeys(s: State, s': State, t: Tid, i: ItemId, n: ItemId)
    requires DataInv(s) && SwapTableShape(s, s', t, i, n)
    ensures AllKeys(s')
  {
    SameHandles(s, s');
    assert ItemInv(s, i) && KeyInv(s, s.items[i].key);
    forall h | h in s'.handles ensures HandleInv(s', h) { assert HandleInv(s, h); }
    forall k ensures KeyInv(s', k) { assert KeyInv(s, k); }
  }

  lemma SwapTableGuar(s: State, s': State, t: Tid, i: ItemId, n: ItemId)
    requires DataInv(s) && SwapTableShape(s, s', t, i, n)
    ensures Guarantee(s, s', t)
  {
    LocalStep(s, s', t, i, n, s.items[i].key);
  }

  lemma SwapTableMove(s: State, s': State, t: Tid, i: ItemId, n: ItemId)
    requires DataInv(s) && SwapTableShape(s, s', t, i, n)
    ensures Safe(s, s', t)
  {
    SwapTableItems(s, s', t, i, n);
    SwapTableKeys(s, s', t, i, n);
    SwapTableGuar(s, s', t, i, n);
  }

  /** `n` takes the place of `o` in the MM container. */
  lemma MMSwapMove(s: State, s': State, t: Tid, o: ItemId, n: ItemId)
    requires DataInv(s) && OnlyThread(s, s', t) && SameRole(s, s', t) && o != n
    requires o in s.items && o !in s.claims && s.items[o].ref > 0
    requires n in s.items && n !in s.claims && s.items[n].ref > 0
    requires s' == s.(items := s.items[o := s.items[o].(linked := false)][n := s.items[n].(linked := true)],
                      threads := s'.threads)
    ensures Safe(s, s', t)
  {
    var s1 := s.(items := s.items[o := s.items[o].(linked := false)]);
    assert forall t' :: KeepsThread(s, s1, t');
    assert DataInv(s1) by { LinkMove(s, s1, t, o, false); }
    assert forall t' | t' != t :: KeepsThread(s, s', t') ==> KeepsThread(s1, s', t');
    assert DataInv(s') by { LinkMove(s1, s', t, n, true); }
    LocalStep(s, s', t, o, n, 0);
  }

  /** A handle is dropped; if nothing else keeps the item, the idle thread claims it. */
  ghost predicate DecShape(s: State, s': State, t: Tid, i: ItemId, h: HandleId) {
    && OnlyThread(s, s', t) && t !in s.threads && h in s.handles && s.handles[h] == i
    && i in s.items && i !in s.claims && s.items[i].ref > 0
    && (forall t' | t' in s.threads :: !Uses(s, s.threads[t'], h))
    && s' == s.(items := s.items[i := s.items[i].(ref := s.items[i].ref - 1)], handles := s.handles - {h},
                threads := s'.threads, claims := s'.claims)
    && PubOf(s', t) == None && ReplOf(s', t) == None
    && (if s'.items[i].IsDrained() then s'.claims == s.claims[i := t] && ClaimOf(s', t) == Some(i)
        else s'.claims == s.claims && ClaimOf(s', t) == None)
  }

  lemma DecItems(s: State, s': State, t: Tid, i: ItemId, h: HandleId)
    requires DataInv(s) && DecShape(s, s', t, i, h)
    ensures AllItems(s')
  {
    HandleDropped(s, s', h);
    forall j | j in s'.items ensures ItemInv(s', j) {
      assert ItemInv(s, j);
      if j in s.pubs { assert Uses(s, s.threads[s.pubs[j]], PubOf(s, s.pubs[j]).value); }
    }
  }

  lemma DecKeys(s: State, s': State, t: Tid, i: ItemId, h: HandleId)
    requires DataInv(s) && DecShape(s, s', t, i, h)
    ensures AllKeys(s')
  {
    HandleDropped(s, s', h);
    assert ItemInv(s, i);
    forall g | g in s'.handles ensures HandleInv(s', g) {
      assert HandleInv(s, g);
      if s.handles[g] == i { assert g in HandlesOf(s', i); }
    }
    forall k ensures KeyInv(s', k) { assert KeyInv(s, k); }
  }

  lemma DecGuar(s: State, s': State, t: Tid, i: ItemId, h: HandleId)
    requires DataInv(s) && DecShape(s, s', t, i, h)
    ensures Guarantee(s, s', t)
  {
    forall g | g in s.handles ensures KeepsHandle(s, s', t, g) {}
    forall j | j in s.items ensures KeepsItem(s, s', t, j) {}
  }

  lemma DecMove(s: State, s': State, t: Tid, i: ItemId, h: HandleId)
    requires DataInv(s) && DecShape(s, s', t, i, h)
    ensures Safe(s, s', t)
  {
    DecItems(s, s', t, i, h);
    DecKeys(s, s', t, i, h);
    DecGuar(s, s', t, i, h);
  }

  /** The owner gives the memory of a drained item back. */
  ghost predicate FreeShape(s: State, s': State, t: Tid, i: ItemId) {
    && OnlyThread(s, s', t) && t !in s'.threads && t in s.threads && s.threads[t].Claim? && s.threads[t].ci == i && PubOf(s, t) == None
    && i in s.items && i in s.claims && s.claims[i] == t && s.items[i].IsDrained()
    && s' == s.(items := s.items - {i}, claims := s.claims - {i}, threads := s'.threads)
  }

  /** A drained claimed item is out of the table, has no handle and is published by nobody. */
  lemma FreeUnreferenced(s: State, i: ItemId)
    requires DataInv(s) && i in s.items && i in s.claims && s.items[i].IsDrained()
    ensures HandlesOf(s, i) == {} && i !in s.pubs
    ensures forall k | k in s.table :: s.table[k] != i
    ensures forall k | k in s.locked :: s.locked[k].prev != i
  {
    assert ItemInv(s, i);
    forall h | h in s.handles ensures s.handles[h] != i { assert HandleInv(s, h); }
    forall k | k in s.locked ensures s.locked[k].prev != i { assert KeyInv(s, k); }
    forall k | k in s.table ensures s.table[k] != i { assert KeyInv(s, k); }
  }

  lemma FreeItems(s: State, s': State, t: Tid, i: ItemId)
    requires DataInv(s) && FreeShape(s, s', t, i)
    ensures AllItems(s')
  {
    FreeUnreferenced(s, i);
    SameHandles(s, s');
    assert ItemInv(s, i);
    forall j | j in s'.items ensures ItemInv(s', j) { assert ItemInv(s, j); }
  }

  lemma FreeKeys(s: State, s': State, t: Tid, i: ItemId)
    requires DataInv(s) && FreeShape(s, s', t, i)
    ensures AllKeys(s')
  {
    FreeUnreferenced(s, i);
    forall h | h in s'.handles ensures HandleInv(s', h) { assert HandleInv(s, h); assert h !in HandlesOf(s, i); }
    forall k ensures KeyInv(s', k) { assert KeyInv(s, k); }
  }

  lemma FreeMove(s: State, s': State, t: Tid, i: ItemId)
    requires DataInv(s) && FreeShape(s, s', t, i)
    ensures Safe(s, s', t)
  {
    FreeItems(s, s', t, i);
    FreeKeys(s, s', t, i);
    assert Guarantee(s, s', t);
  }

  /** insertOrReplace links its node in the place of the one that holds the key and keeps the
      bucket locked; the flags are not touched yet. */
  ghost predicate PendShape(s: State, s': State, t: Tid, n: ItemId, p: ItemId, h: HandleId) {
    && OnlyThread(s, s', t) && ClaimOf(s, t) == None && ClaimOf(s', t) == None
    && ReplOf(s, t) == None && ReplOf(s', t) == Some(p) && PubOf(s, t) == Some(h) && PubOf(s', t) == Some(h)
    && n in s.items && n in s.pubs && s.pubs[n] == t && s.items[n].key in s.table && s.table[s.items[n].key] == p
    && LockFree(s, s.items[n].key)
    && s' == s.(table := s.table[s.items[n].key := n],
                locked := s.locked[s.items[n].key := Pending(n, p, t)], threads := s'.threads)
  }

  lemma PendItems(s: State, s': State, t: Tid, n: ItemId, p: ItemId, h: HandleId)
    requires DataInv(s) && PendShape(s, s', t, n, p, h)
    ensures AllItems(s')
  {
    SameHandles(s, s');
    assert KeyInv(s, s.items[n].key) && ItemInv(s, n) && ItemInv(s, p);
    forall j | j in s'.items ensures ItemInv(s', j) { assert ItemInv(s, j); }
  }

  lemma PendKeys(s: State, s': State, t: Tid, n: ItemId, p: ItemId, h: HandleId)
    requires DataInv(s) && PendShape(s, s', t, n, p, h)
    ensures AllKeys(s')
  {
    assert KeyInv(s, s.items[n].key) && ItemInv(s, n) && ItemInv(s, p);
    forall h | h in s'.handles ensures HandleInv(s', h) { assert HandleInv(s, h); }
    forall k ensures KeyInv(s', k) { assert KeyInv(s, k); }
  }

  lemma PendMove(s: State, s': State, t: Tid, n: ItemId, p: ItemId, h: HandleId)
    requires DataInv(s) && PendShape(s, s', t, n, p, h)
    ensures Safe(s, s', t)
  {
    PendItems(s, s', t, n, p, h);
    PendKeys(s, s', t, n, p, h);
    assert Guarantee(s, s', t);
  }

  /** The end of that replacement: flags swapped, bucket unlocked. */
  ghost predicate SwapFlagsShape(s: State, s': State, t: Tid, n: ItemId, p: ItemId) {
    && OnlyThread(s, s', t) && ClaimOf(s, t) == None && ClaimOf(s', t) == None
    && PubOf(s', t) == None && ReplOf(s, t) == Some(p) && ReplOf(s', t) == None
    && n in s.items && p in s.items && s.items[n].key in s.locked && s.locked[s.items[n].key] == Pending(n, p, t)
    && (p in s.claims || s.items[p].ref > 0)
    && s' == s.(items := s.items[n := s.items[n].(accessible := true)]
                                [p := s.items[p].(accessible := false)],
                locked := s.locked - {s.items[n].key}, pubs := s.pubs - {n}, threads := s'.threads)
  }

  lemma SwapFlagsItems(s: State, s': State, t: Tid, n: ItemId, p: ItemId)
    requires DataInv(s) && SwapFlagsShape(s, s', t, n, p)
    ensures AllItems(s')
  {
    SameHandles(s, s');
    assert KeyInv(s, s.items[n].key) && ItemInv(s, n) && ItemInv(s, p);
    forall j | j in s'.items ensures ItemInv(s', j) { assert ItemInv(s, j); }
  }

  lemma SwapFlagsKeys(s: State, s': State, t: Tid, n: ItemId, p: ItemId)
    requires DataInv(s) && SwapFlagsShape(s, s', t, n, p)
    ensures AllKeys(s')
  {
    assert KeyInv(s, s.items[n].key);
    forall h | h in s'.handles ensures HandleInv(s', h) { assert HandleInv(s, h); }
    forall k ensures KeyInv(s', k) { assert KeyInv(s, k); }
  }

  lemma SwapFlagsGuar(s: State, s': State, t: Tid, n: ItemId, p: ItemId)
    requires DataInv(s) && SwapFlagsShape(s, s', t, n, p)
    ensures Guarantee(s, s', t)
  {
    assert KeyInv(s, s.items[n].key) && ItemInv(s, n);
    HandleNotClaimed(s, PubOf(s, t).value);
  }

  lemma SwapFlagsMove(s: State, s': State, t: Tid, n: ItemId, p: ItemId)
    requires DataInv(s) && SwapFlagsShape(s, s', t, n, p)
    ensures Safe(s, s', t)
  {
    SwapFlagsItems(s, s', t, n, p);
    SwapFlagsKeys(s, s', t, n, p);
    SwapFlagsGuar(s, s', t, n, p);
  }
}
