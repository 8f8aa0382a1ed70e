/** No item is stranded in one container: the discipline of callers that ensures it, and why.

    The discipline has five rules.  An item is not published while another thread publishes it, while a thread
    still has to take it out of its MM container, or while a thread still has to add it there; an item is not
    removed while a thread publishes it; and no item is moved while another item with the same key is being
    moved.  Operations that do not overlap on an item or a key are not restricted. */
module ProtocolStrand {
  import opened Options
  import opened Protocol
  import opened ProtocolInv
  import opened ProtocolSteps

  /** All rules. */
  const DISCIPLINE := Rules(true, true, true, true, true)

  // ---- who completes the state of an item that is in one container only

  /** Out of the table, and nobody is putting it in. */
  predicate Gone(s: State, i: ItemId) { i in s.items && !s.items[i].accessible && i !in s.pubs }

  predicate AtMoveNew(s: State, t: Tid) { t in s.threads && s.threads[t].Claim? && s.threads[t].cstage == MoveNew }

  ghost predicate ItemS(s: State, i: ItemId)
    requires i in s.items
  {
    && (i in s.pubs ==> s.items[i].linked == !AtMoveNew(s, s.pubs[i]))
    && (s.items[i].accessible && !s.items[i].linked ==> exists t :: Adds(s, t, i))
    && (s.items[i].linked && !s.items[i].accessible && i !in s.pubs ==> exists t :: Unlinks(s, t, i))
  }

  /** The mover `t` has nothing to hand to its waiters. */
  predicate Doomed(s: State, t: Tid) {
    t in s.threads && s.threads[t].Claim? ==>
      var pc := s.threads[t];
      && (pc.ci in s.items ==> !s.items[pc.ci].accessible) && pc.cstage != MoveSwapped && pc.cstage != MoveOffMM
      && (pc.cstage == Waking || pc.cstage == Notifying ==> pc.to == None)
  }

  /** Waiter `w` is or will be set to nothing. */
  ghost predicate NoHandleFor(s: State, w: WaiterId) {
    w in s.waiters &&
    match s.waiters[w]
    case Ready(oh) => oh == None
    case Held(t) => t in s.threads && s.threads[t].Claim? && s.threads[t].to == None
    case Queued(k) => forall t {:trigger MovesKey(s, t, k)} | MovesKey(s, t, k) :: Doomed(s, t)
  }

  /** Waiter `w` is queued on the moving item `p`. */
  predicate QueuedOn(s: State, w: WaiterId, p: ItemId) {
    && p in s.items && p in s.claims && w in s.waiters && s.waiters[w] == Queued(s.items[p].key)
    && MovesKey(s, s.claims[p], s.items[p].key)
  }

  ghost predicate ThreadS(s: State, t: Tid)
    requires t in s.threads
  {
    match s.threads[t]
    case Unlink(_, r) => r in s.handles && Gone(s, s.handles[r])
    case Rpl(stage, o, n) =>
      && o in s.handles && (stage == Swapped ==> Gone(s, s.handles[o]))
      && n in s.handles && s.handles[n] in s.items && s.handles[n] !in s.pubs
      && (stage != Check ==> !s.items[s.handles[n]].linked)
    case Blocked(_, w) => NoHandleFor(s, w)
    case Swap(_, p, got) => got.GotWait? ==> QueuedOn(s, got.gw, p)
    case _ => true
  }

  ghost predicate UniqueRpl(s: State) {
    forall t, t' {:trigger RplItem(s, t), RplItem(s, t')} | RplItem(s, t).Some? && RplItem(s, t) == RplItem(s, t') :: t == t'
  }

  ghost predicate SingleMover(s: State) {
    forall t, t', k {:trigger MovesKey(s, t, k), MovesKey(s, t', k)} | MovesKey(s, t, k) && MovesKey(s, t', k) :: t == t'
  }

  ghost predicate ItemsS(s: State) {
    forall i {:trigger ItemS(s, i)} | i in s.items && i !in s.claims :: ItemS(s, i)
  }

  ghost predicate SInv(s: State) {
    && ItemsS(s)
    && (forall t {:trigger ThreadS(s, t)} | t in s.threads :: ThreadS(s, t))
    && UniqueRpl(s) && SingleMover(s)
  }

  // ---- what a step must keep

  /** No thread has to add item `i` to its MM container or to take it out. */
  ghost predicate Settled(s: State, i: ItemId) {
    forall t {:trigger Unlinks(s, t, i)} {:trigger RplItem(s, t)} :: !Unlinks(s, t, i) && RplItem(s, t) != Some(i)
  }

  /** Step `s` to `s'` of `t`: an item that is gone comes back only once it is settled, and only its publisher
      or its own replaceIfAccessible adds an item to an MM container. */
  ghost predicate KeepsFlags(s: State, s': State, t: Tid, j: ItemId)
    requires j in s.items && j in s'.items
  {
    && (Gone(s, j) && !Gone(s', j) ==> Settled(s, j))
    && (j in s'.pubs && j !in s.pubs ==> Settled(s, j))
    && (s'.items[j].linked && !s.items[j].linked ==> j in s'.pubs || RplItem(s, t) == Some(j))
  }

  ghost predicate Tame(s: State, s': State, t: Tid) {
    && (forall j {:trigger KeepsFlags(s, s', t, j)} | j in s.items && j in s'.items :: KeepsFlags(s, s', t, j))
    && (RplItem(s', t).Some? && RplItem(s', t) != RplItem(s, t) ==> Settled(s, RplItem(s', t).value))
    && (forall k {:trigger MovesKey(s', t, k)} | MovesKey(s', t, k) && !MovesKey(s, t, k) :: forall t' :: !MovesKey(s, t', k))
    && (Doomed(s, t) && t in s.threads && s.threads[t].Claim? ==> Doomed(s', t))
  }

  ghost predicate WaitersTame(s: State, s': State) {
    && (forall w {:trigger NoHandleFor(s', w)} | NoHandleFor(s, w) :: NoHandleFor(s', w))
    && (forall w, p {:trigger QueuedOn(s', w, p)} | QueuedOn(s, w, p) && s.items[p].accessible :: QueuedOn(s', w, p))
  }

  ghost predicate SGood(s: State, s': State, t: Tid) {
    ItemsS(s') && Tame(s, s', t) && (t in s'.threads ==> ThreadS(s', t))
  }

  lemma OthersHandle(s: State, s': State, t: Tid, t': Tid, h: HandleId)
    requires Inv(s) && Guarantee(s, s', t) && t' != t && t' in s.threads && Uses(s, s.threads[t'], h)
    ensures t' in s'.threads && s'.threads[t'] == s.threads[t']
    ensures h in s.handles && h in s'.handles && s'.handles[h] == s.handles[h]
  {
    assert KeepsThread(s, s', t') && ThreadInv(s, t') && KeepsHandle(s, s', t, h);
  }

  lemma OthersRplItem(s: State, s': State, t: Tid, t': Tid)
    requires Inv(s) && Guarantee(s, s', t) && t' != t
    ensures RplItem(s', t') == RplItem(s, t')
  {
    assert KeepsThread(s, s', t');
    if t' in s.threads && s.threads[t'].Rpl? { OthersHandle(s, s', t, t', s.threads[t'].rn); }
  }

  lemma OthersDuty(s: State, s': State, t: Tid, t': Tid, i: ItemId)
    requires Inv(s) && Guarantee(s, s', t) && t' != t
    ensures Adds(s, t', i) ==> Adds(s', t', i)
    ensures Unlinks(s, t', i) ==> Unlinks(s', t', i)
  {
    assert KeepsThread(s, s', t');
    OthersRplItem(s, s', t, t');
    if t' in s.threads && s.threads[t'].Rpl? { OthersHandle(s, s', t, t', s.threads[t'].ro); }
    if t' in s.threads && s.threads[t'].Unlink? { OthersHandle(s, s', t, t', s.threads[t'].ur); }
  }

  lemma OthersGone(s: State, s': State, t: Tid, t': Tid, i: ItemId)
    requires Tame(s, s', t) && Gone(s, i) && i in s'.items && Unlinks(s, t', i)
    ensures Gone(s', i)
  {
    assert KeepsFlags(s, s', t, i);
  }

  lemma OthersMove(s: State, s': State, t: Tid, t': Tid, k: Key)
    requires Inv(s) && Guarantee(s, s', t) && t' != t
    ensures MovesKey(s', t', k) <==> MovesKey(s, t', k)
  {
    assert KeepsThread(s, s', t');
    if t' in s.threads && s.threads[t'].Claim? {
      assert ThreadInv(s, t') && KeepsItem(s, s', t, s.threads[t'].ci);
    }
  }

  lemma OthersKeepRpl(s: State, s': State, t: Tid, t': Tid)
    requires Inv(s) && SInv(s) && Inv(s') && Good(s, s', t) && Tame(s, s', t) && t' != t
    requires t' in s.threads && s.threads[t'].Rpl?
    ensures t' in s'.threads && ThreadS(s', t')
  {
    var pc := s.threads[t'];
    assert ThreadS(s, t');
    OthersHandle(s, s', t, t', pc.ro);
    OthersHandle(s, s', t, t', pc.rn);
    assert HandleInv(s', pc.ro) && HandleInv(s', pc.rn);
    var o, n := s.handles[pc.ro], s.handles[pc.rn];
    if pc.rstage == Swapped { OthersGone(s, s', t, t', o); }
    assert KeepsFlags(s, s', t, n);
    assert RplItem(s, t') == Some(n);
    assert RplItem(s, t) != RplItem(s, t');
  }

  lemma OthersKeepS(s: State, s': State, t: Tid, t': Tid)
    requires Inv(s) && SInv(s) && Inv(s') && Good(s, s', t) && Tame(s, s', t) && WaitersTame(s, s')
    requires t' != t && t' in s.threads
    ensures t' in s'.threads && ThreadS(s', t')
  {
    assert KeepsThread(s, s', t') && ThreadS(s, t');
    match s.threads[t']
    case Unlink(_, r) =>
      OthersHandle(s, s', t, t', r);
      assert HandleInv(s', r);
      OthersGone(s, s', t, t', s.handles[r]);
    case Rpl(_, _, _) => OthersKeepRpl(s, s', t, t');
    case Swap(_, p, got) =>
      assert ThreadInv(s, t') && ItemInv(s, p);
    case _ =>
  }

  lemma KeepsUnique(s: State, s': State, t: Tid)
    requires Inv(s) && SInv(s) && Inv(s') && Good(s, s', t) && Tame(s, s', t)
    ensures UniqueRpl(s')
  {
    forall t1, t2 | RplItem(s', t1).Some? && RplItem(s', t1) == RplItem(s', t2) ensures t1 == t2 {
      if t1 != t { OthersRplItem(s, s', t, t1); if t1 in s.threads { assert ThreadS(s, t1); } }
      if t2 != t { OthersRplItem(s, s', t, t2); if t2 in s.threads { assert ThreadS(s, t2); } }
      assert RplItem(s, t1) == RplItem(s, t2) ==> RplItem(s, t1).Some? ==> t1 == t2;
    }
  }

  lemma KeepsSingle(s: State, s': State, t: Tid)
    requires Inv(s) && SInv(s) && Inv(s') && Good(s, s', t) && Tame(s, s', t)
    ensures SingleMover(s')
  {
    forall t1, t2, k | MovesKey(s', t1, k) && MovesKey(s', t2, k) ensures t1 == t2 {
      if t1 != t { OthersMove(s, s', t, t1, k); }
      if t2 != t { OthersMove(s, s', t, t2, k); }
    }
  }

  lemma KeepsS(s: State, s': State, t: Tid)
    requires Inv(s) && SInv(s) && Inv(s') && Good(s, s', t) && SGood(s, s', t) && WaitersTame(s, s')
    ensures SInv(s')
  {
    forall t' | t' in s'.threads ensures ThreadS(s', t') {
      if t' != t {
        assert KeepsThread(s, s', t');
        OthersKeepS(s, s', t, t');
      }
    }
    KeepsUnique(s, s', t);
    KeepsSingle(s, s', t);
  }

  // ---- waiters

  lemma DoomStays(s: State, s': State, t: Tid, t': Tid, k: Key)
    requires Inv(s) && Good(s, s', t) && t' != t && Doomed(s, t') && MovesKey(s', t', k)
    ensures Doomed(s', t')
  {
    assert KeepsThread(s, s', t') && ThreadInv(s, t') && KeepsItem(s, s', t, s.threads[t'].ci);
  }

  /** A waiter queued under `k` has a mover of `k`. */
  lemma QueuedHasMover(s: State, w: WaiterId, k: Key)
    requires Inv(s) && w in s.waiters && s.waiters[w] == Queued(k)
    ensures exists t :: MovesKey(s, t, k)
  {
    assert WaiterInv(s, w) && EntryInv(s, k);
    var i :| IsMoverOf(s, i, k);
    assert ItemInv(s, i);
    assert MovesKey(s, s.claims[i], k);
  }

  lemma QueuedStays(s: State, s': State, t: Tid, w: WaiterId, k: Key)
    requires Inv(s) && Good(s, s', t) && Tame(s, s', t) && NoHandleFor(s, w) && s.waiters[w] == Queued(k)
    ensures forall t' | MovesKey(s', t', k) :: Doomed(s', t')
  {
    QueuedHasMover(s, w, k);
    forall t' | MovesKey(s', t', k) ensures Doomed(s', t') {
      if t' != t {
        OthersMove(s, s', t, t', k);
        DoomStays(s, s', t, t', k);
      } else {
        assert MovesKey(s, t, k);
      }
    }
  }

  lemma OnMovingStays(s: State, s': State, t: Tid, w: WaiterId, p: ItemId)
    requires Inv(s) && Good(s, s', t) && KeepsDuty(s, s', t) && QueuedOn(s, w, p) && s.items[p].accessible
    requires w in s'.waiters && s'.waiters[w] == s.waiters[w]
    ensures QueuedOn(s', w, p)
  {
    var t' := s.claims[p];
    assert KeepsItem(s, s', t, p) && ItemInv(s, p) && ThreadInv(s, t');
    if t' != t { OthersMove(s, s', t, t', s.items[p].key); }
  }

  /** Steps that leave every waiter alone. */
  lemma WaitersStay(s: State, s': State, t: Tid)
    requires Inv(s) && Good(s, s', t) && KeepsDuty(s, s', t) && Tame(s, s', t)
    requires forall w | w in s.waiters :: w in s'.waiters && s'.waiters[w] == s.waiters[w]
    ensures WaitersTame(s, s')
  {
    forall w | NoHandleFor(s, w) ensures NoHandleFor(s', w) {
      match s.waiters[w]
      case Ready(_) =>
      case Held(t') =>
        assert WaiterInv(s, w) && ThreadInv(s, t');
        if t' != t { assert KeepsThread(s, s', t'); }
      case Queued(k) => QueuedStays(s, s', t, w, k);
    }
    forall w, p | QueuedOn(s, w, p) && s.items[p].accessible ensures QueuedOn(s', w, p) { OnMovingStays(s, s', t, w, p); }
  }

  lemma WakeTakeQueuedOn(s: State, t: Tid, w: WaiterId, p: ItemId)
    requires Inv(s) && SInv(s) && CanWakeTake(s, t) && Good(s, DoWakeTake(s, t), t)
    requires QueuedOn(s, w, p) && s.items[p].accessible
    ensures QueuedOn(DoWakeTake(s, t), w, p)
  {
    var s' := DoWakeTake(s, t);
    var t', k := s.claims[p], s.items[p].key;
    assert KeepsItem(s, s', t, p) && ItemInv(s, p) && ThreadInv(s, t') && ThreadInv(s, t);
    OthersMove(s, s', t, t', k);
    assert MovesKey(s, t, s.items[s.threads[t].ci].key);
    assert s.items[s.threads[t].ci].key != k;
    if s.items[s.threads[t].ci].key in s.waits { assert EntryInv(s, s.items[s.threads[t].ci].key); }
  }

  lemma WakeTakeWaiters(s: State, t: Tid)
    requires Inv(s) && SInv(s) && CanWakeTake(s, t) && Good(s, DoWakeTake(s, t), t) && Tame(s, DoWakeTake(s, t), t)
    ensures WaitersTame(s, DoWakeTake(s, t))
  {
    var s' := DoWakeTake(s, t);
    var k := s.items[s.threads[t].ci].key;
    assert ThreadInv(s, t) && MovesKey(s, t, k);
    forall w | NoHandleFor(s, w) ensures NoHandleFor(s', w) {
      assert WaiterInv(s, w);
      if k in s.waits { assert EntryInv(s, k); }
      match s.waiters[w]
      case Ready(_) =>
      case Held(t') => if t' != t { assert KeepsThread(s, s', t'); }
      case Queued(k') => QueuedStays(s, s', t, w, k');
    }
    forall w, p | QueuedOn(s, w, p) && s.items[p].accessible ensures QueuedOn(s', w, p) { WakeTakeQueuedOn(s, t, w, p); }
  }

  lemma NotifyOneQueuedOn(s: State, s': State, t: Tid, w: WaiterId, p: ItemId)
    requires Inv(s) && Good(s, s', t) && t in s.threads && s.threads[t].Claim? && s.threads[t].cstage == Notifying
    requires QueuedOn(s, w, p) && s.items[p].accessible && w in s'.waiters && s'.waiters[w] == s.waiters[w]
    ensures QueuedOn(s', w, p)
  {
    var t' := s.claims[p];
    assert KeepsItem(s, s', t, p) && ItemInv(s, p) && ThreadInv(s, t');
    OthersMove(s, s', t, t', s.items[p].key);
  }

  lemma NotifyOneWaiters(s: State, t: Tid, w0: WaiterId, h2: HandleId)
    requires Inv(s) && CanNotifyOne(s, t, w0, h2)
    requires var s' := DoNotifyOne(s, t, w0, h2); Good(s, s', t) && Tame(s, s', t)
    ensures WaitersTame(s, DoNotifyOne(s, t, w0, h2))
  {
    var s' := DoNotifyOne(s, t, w0, h2);
    assert ThreadInv(s, t);
    forall w | NoHandleFor(s, w) ensures NoHandleFor(s', w) {
      match s.waiters[w]
      case Ready(_) =>
      case Held(t') => if t' != t { assert KeepsThread(s, s', t'); }
      case Queued(k) => QueuedStays(s, s', t, w, k);
    }
    forall w, p | QueuedOn(s, w, p) && s.items[p].accessible ensures QueuedOn(s', w, p) {
      NotifyOneQueuedOn(s, s', t, w, p);
    }
  }

  // ---- items

  predicate SameFlags(s: State, s': State, j: ItemId)
    requires j in s'.items
  {
    if j in s.items then
      s'.items[j].linked == s.items[j].linked && s'.items[j].accessible == s.items[j].accessible
    else !s'.items[j].linked && !s'.items[j].accessible
  }

  /** An item whose bits the step leaves alone, along with what thread `t` still has to do for it. */
  lemma ItemKept(s: State, s': State, t: Tid, j: ItemId)
    requires Inv(s) && Good(s, s', t) && j in s.items && j in s'.items && ItemS(s, j) && SameFlags(s, s', j)
    requires j in s.pubs <==> j in s'.pubs
    requires j in s.pubs ==> s'.pubs[j] == s.pubs[j] && (s.pubs[j] == t ==> AtMoveNew(s', t) == AtMoveNew(s, t))
    requires Adds(s, t, j) && s.items[j].accessible && !s.items[j].linked ==> Adds(s', t, j)
    requires Unlinks(s, t, j) && s.items[j].linked && !s.items[j].accessible ==> Unlinks(s', t, j)
    ensures ItemS(s', j)
  {
    if j in s.pubs && s.pubs[j] != t { assert KeepsThread(s, s', s.pubs[j]); }
    if s.items[j].accessible && !s.items[j].linked {
      var t' :| Adds(s, t', j);
      if t' != t { OthersDuty(s, s', t, t', j); }
      assert Adds(s', t', j);
    }
    if s.items[j].linked && !s.items[j].accessible && j !in s.pubs {
      var t' :| Unlinks(s, t', j);
      if t' != t { OthersDuty(s, s', t, t', j); }
      assert Unlinks(s', t', j);
    }
  }

  /** Thread `t` has nothing to complete. */
  predicate NoDuty(s: State, t: Tid) { t in s.threads ==> !s.threads[t].Rpl? && !s.threads[t].Unlink? && !AtMoveNew(s, t) }

  /** The bits of unclaimed items stay, those of claimed ones are at most cleared. */
  ghost predicate Calm(s: State, s': State, t: Tid) {
    && s'.pubs == s.pubs && NoDuty(s, t) && !AtMoveNew(s', t)
    && (forall j {:trigger SameFlags(s, s', j)} | j in s'.items && j !in s'.claims :: j !in s.claims && SameFlags(s, s', j))
  }

  lemma CalmItems(s: State, s': State, t: Tid)
    requires Inv(s) && SInv(s) && Good(s, s', t) && Calm(s, s', t)
    ensures ItemsS(s')
  {
    forall j | j in s'.items && j !in s'.claims ensures ItemS(s', j) {
      assert SameFlags(s, s', j);
      if j in s.items {
        assert ItemS(s, j);
        ItemKept(s, s', t, j);
      }
    }
  }
}
