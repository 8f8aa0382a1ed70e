/** Every disciplined step keeps an item from being stranded. */
module ProtocolStrandSteps {
  import opened Options
  import opened Protocol
  import opened ProtocolInv
  import opened ProtocolSteps
  import opened ProtocolProof
  import opened ProtocolStrand

  /** The step leaves item `j` alone. */
  predicate Untouched(s: State, s': State, t: Tid, j: ItemId)
    requires j in s'.items
  {
    && j in s.items && j !in s.claims && SameFlags(s, s', j)
    && (j in s.pubs <==> j in s'.pubs)
    && (j in s.pubs ==> s'.pubs[j] == s.pubs[j] && (s.pubs[j] == t ==> AtMoveNew(s', t) == AtMoveNew(s, t)))
    && (Adds(s, t, j) && s.items[j].accessible && !s.items[j].linked ==> Adds(s', t, j))
    && (Unlinks(s, t, j) && s.items[j].linked && !s.items[j].accessible ==> Unlinks(s', t, j))
  }

  /** The step concerns at most the items `a` and `b`. */
  ghost predicate Rest(s: State, s': State, t: Tid, a: ItemId, b: ItemId) {
    forall j {:trigger Untouched(s, s', t, j)} | j in s'.items && j !in s'.claims && j != a && j != b :: Untouched(s, s', t, j)
  }

  lemma RestItems(s: State, s': State, t: Tid, a: ItemId, b: ItemId)
    requires Inv(s) && SInv(s) && Good(s, s', t) && Rest(s, s', t, a, b)
    requires a in s'.items && a !in s'.claims ==> ItemS(s', a)
    requires b in s'.items && b !in s'.claims ==> ItemS(s', b)
    ensures ItemsS(s')
  {
    forall j | j in s'.items && j !in s'.claims ensures ItemS(s', j) {
      if j != a && j != b {
        assert Untouched(s, s', t, j) && ItemS(s, j);
        ItemKept(s, s', t, j);
      }
    }
  }

  lemma AllocS(s: State, t: Tid, n: ItemId, h: HandleId, k: Key)
    requires Inv(s) && SInv(s) && CanAlloc(s, t, n, h, k) && Good(s, DoAlloc(s, t, n, h, k), t)
    ensures SGood(s, DoAlloc(s, t, n, h, k), t)
  {
    CalmItems(s, DoAlloc(s, t, n, h, k), t);
  }

  lemma CloneS(s: State, t: Tid, h: HandleId, h2: HandleId)
    requires Inv(s) && SInv(s) && CanClone(s, t, h, h2) && Good(s, DoClone(s, t, h, h2), t)
    ensures SGood(s, DoClone(s, t, h, h2), t)
  {
    CalmItems(s, DoClone(s, t, h, h2), t);
  }

  lemma DropLast(s: State, t: Tid, h: HandleId)
    requires Inv(s) && SInv(s) && CanDrop(s, t, h) && Good(s, DoDrop(s, t, h), t)
    requires Dec(s.items, s.handles[h])[s.handles[h]].IsDrained()
    ensures SGood(s, DoDrop(s, t, h), t)
  {
    CalmItems(s, DoDrop(s, t, h), t);
  }

  lemma DropMore(s: State, t: Tid, h: HandleId)
    requires Inv(s) && SInv(s) && CanDrop(s, t, h) && Good(s, DoDrop(s, t, h), t)
    requires !Dec(s.items, s.handles[h])[s.handles[h]].IsDrained()
    ensures SGood(s, DoDrop(s, t, h), t)
  {
    CalmItems(s, DoDrop(s, t, h), t);
  }

  lemma DropS(s: State, t: Tid, h: HandleId)
    requires Inv(s) && SInv(s) && CanDrop(s, t, h) && Good(s, DoDrop(s, t, h), t)
    ensures SGood(s, DoDrop(s, t, h), t)
  {
    if Dec(s.items, s.handles[h])[s.handles[h]].IsDrained() { DropLast(s, t, h); } else { DropMore(s, t, h); }
  }

  lemma FindHitS(s: State, t: Tid, k: Key)
    requires Inv(s) && SInv(s) && CanFindHit(s, t, k) && Good(s, DoFindHit(s, t, k), t)
    ensures SGood(s, DoFindHit(s, t, k), t)
  {
    CalmItems(s, DoFindHit(s, t, k), t);
  }

  lemma AcqOkS(s: State, t: Tid, h: HandleId)
    requires Inv(s) && SInv(s) && CanAcqOk(s, t, h) && Good(s, DoAcqOk(s, t, h), t)
    ensures SGood(s, DoAcqOk(s, t, h), t)
  {
    CalmItems(s, DoAcqOk(s, t, h), t);
  }

  lemma AcqEvictedS(s: State, t: Tid)
    requires Inv(s) && SInv(s) && CanAcqEvicted(s, t) && Good(s, DoAcqEvicted(s, t), t)
    ensures SGood(s, DoAcqEvicted(s, t), t)
  {
    CalmItems(s, DoAcqEvicted(s, t), t);
  }

  lemma AcqMovingS(s: State, t: Tid)
    requires Inv(s) && SInv(s) && CanAcqMoving(s, t) && Good(s, DoAcqMoving(s, t), t)
    ensures SGood(s, DoAcqMoving(s, t), t)
  {
    CalmItems(s, DoAcqMoving(s, t), t);
  }

  lemma WaitQueueS(s: State, t: Tid, w: WaiterId)
    requires Inv(s) && SInv(s) && CanWaitQueue(s, t, w) && Good(s, DoWaitQueue(s, t, w), t)
    ensures SGood(s, DoWaitQueue(s, t, w), t)
  {
    CalmItems(s, DoWaitQueue(s, t, w), t);
    var p := s.threads[t].li;
    MovingHasMover(s, p);
    assert ItemInv(s, p);
    OthersMove(s, DoWaitQueue(s, t, w), t, s.claims[p], s.items[p].key);
  }

  lemma WaitRetryS(s: State, t: Tid)
    requires Inv(s) && SInv(s) && CanWaitRetry(s, t) && Good(s, DoWaitRetry(s, t), t)
    ensures SGood(s, DoWaitRetry(s, t), t)
  {
    CalmItems(s, DoWaitRetry(s, t), t);
  }

  lemma PubAddS(s: State, t: Tid, h: HandleId, replace: bool)
    requires Inv(s) && SInv(s) && CanPubAdd(s, t, h, replace) && Good(s, DoPubAdd(s, t, h, replace), t)
    requires s.handles[h] !in s.pubs && Settled(s, s.handles[h])
    ensures SGood(s, DoPubAdd(s, t, h, replace), t)
  {
    var s', i := DoPubAdd(s, t, h, replace), s.handles[h];
    HandleNotClaimed(s, h);
    assert ItemS(s, i);
    RestItems(s, s', t, i, i);
  }

  lemma InsTableS(s: State, t: Tid)
    requires Inv(s) && SInv(s) && CanInsTable(s, t) && Good(s, DoInsTable(s, t), t)
    ensures SGood(s, DoInsTable(s, t), t)
  {
    var s', i := DoInsTable(s, t), s.handles[s.threads[t].ph];
    assert ThreadInv(s, t);
    HandleNotClaimed(s, s.threads[t].ph);
    if s.items[i].key in s.table {
      CalmItems(s, s', t);
    } else {
      IntoTableS(s, t, i);
    }
  }

  /** A published item enters the table. */
  lemma IntoTableS(s: State, t: Tid, i: ItemId)
    requires Inv(s) && SInv(s) && t in s.threads && s.threads[t].Publish? && Live(s, i) && i !in s.claims
    requires i in s.pubs && s.pubs[i] == t && Good(s, IntoTable(s, t, i), t)
    ensures SGood(s, IntoTable(s, t, i), t)
  {
    assert ItemS(s, i);
    RestItems(s, IntoTable(s, t, i), t, i, i);
  }

  lemma InsTakeBackS(s: State, t: Tid)
    requires Inv(s) && SInv(s) && CanInsTakeBack(s, t) && Good(s, DoInsTakeBack(s, t), t)
    ensures SGood(s, DoInsTakeBack(s, t), t)
  {
    var i := s.handles[s.threads[t].ph];
    assert ThreadInv(s, t);
    HandleNotClaimed(s, s.threads[t].ph);
    assert ItemS(s, i) && ItemInv(s, i);
    RestItems(s, DoInsTakeBack(s, t), t, i, i);
  }

  lemma IorTableS(s: State, t: Tid)
    requires Inv(s) && SInv(s) && CanIorTable(s, t) && Good(s, DoIorTable(s, t), t)
    ensures SGood(s, DoIorTable(s, t), t)
  {
    var s', i := DoIorTable(s, t), s.handles[s.threads[t].ph];
    assert ThreadInv(s, t);
    HandleNotClaimed(s, s.threads[t].ph);
    if s.items[i].key in s.table { CalmItems(s, s', t); } else { IntoTableS(s, t, i); }
  }

  /** Once the flags are swapped, the mover of the replaced node has nothing to hand over. */
  lemma SwapDoomed(s: State, t: Tid)
    requires Inv(s) && SInv(s) && CanIorSwapFlags(s, t) && Good(s, DoIorSwapFlags(s, t), t) && s.threads[t].got.GotWait?
    ensures NoHandleFor(DoIorSwapFlags(s, t), s.threads[t].got.gw)
  {
    var s', p := DoIorSwapFlags(s, t), s.threads[t].sprev;
    var k := s.items[p].key;
    assert ThreadInv(s, t) && ThreadS(s, t) && ItemInv(s, p);
    forall t' | MovesKey(s', t', k) ensures Doomed(s', t') {
      OthersMove(s, s', t, t', k);
      assert MovesKey(s, s.claims[p], k);
      assert ThreadInv(s, t') && KeepsThread(s, s', t');
    }
  }

  lemma IorSwapFlagsS(s: State, t: Tid)
    requires Inv(s) && SInv(s) && CanIorSwapFlags(s, t) && Good(s, DoIorSwapFlags(s, t), t)
    ensures SGood(s, DoIorSwapFlags(s, t), t)
  {
    var s', pc := DoIorSwapFlags(s, t), s.threads[t];
    var i, p := s.handles[pc.sh], pc.sprev;
    assert ThreadInv(s, t) && ThreadS(s, t);
    HandleNotClaimed(s, pc.sh);
    assert ItemS(s, i) && ItemInv(s, p);
    if pc.got.GotWait? { SwapDoomed(s, t); }
    if pc.got.GotHandle? {
      HandleNotClaimed(s, pc.got.gr);
      assert ItemS(s, p);
      assert Unlinks(s', t, p);
    }
    RestItems(s, s', t, i, p);
  }

  lemma IorResumeS(s: State, t: Tid)
    requires Inv(s) && SInv(s) && CanIorResume(s, t) && Good(s, DoIorResume(s, t), t)
    ensures SGood(s, DoIorResume(s, t), t)
  {
    assert ThreadS(s, t);
    CalmItems(s, DoIorResume(s, t), t);
  }

  lemma RemTableS(s: State, t: Tid, h: HandleId)
    requires Inv(s) && SInv(s) && CanRemTable(s, t, h) && Good(s, DoRemTable(s, t, h), t) && s.handles[h] !in s.pubs
    ensures SGood(s, DoRemTable(s, t, h), t)
  {
    var s', i := DoRemTable(s, t, h), s.handles[h];
    HandleNotClaimed(s, h);
    assert ItemS(s, i);
    assert Unlinks(s', t, i);
    RestItems(s, s', t, i, i);
  }

  lemma UnlinkMMS(s: State, t: Tid)
    requires Inv(s) && SInv(s) && CanUnlinkMM(s, t) && Good(s, DoUnlinkMM(s, t), t)
    ensures SGood(s, DoUnlinkMM(s, t), t)
  {
    var i := s.handles[s.threads[t].ur];
    assert ThreadS(s, t);
    HandleNotClaimed(s, s.threads[t].ur);
    assert ItemS(s, i);
    RestItems(s, DoUnlinkMM(s, t), t, i, i);
  }

  lemma RplTableS(s: State, t: Tid, o: HandleId, n: HandleId)
    requires Inv(s) && SInv(s) && CanRplTable(s, t, o, n) && Good(s, DoRplTable(s, t, o, n), t)
    requires s.handles[n] !in s.pubs && Settled(s, s.handles[n])
    ensures SGood(s, DoRplTable(s, t, o, n), t)
  {
    var s', i, j := DoRplTable(s, t, o, n), s.handles[o], s.handles[n];
    HandleNotClaimed(s, o);
    HandleNotClaimed(s, n);
    assert ItemS(s, i) && ItemS(s, j) && ItemInv(s, i);
    assert Unlinks(s', t, i) && Adds(s', t, j);
    RestItems(s, s', t, i, j);
  }

  /** The MM container refuses: the new item will leave the table, and the old one is not linked. */
  lemma RplRefusedS(s: State, t: Tid)
    requires Inv(s) && SInv(s) && t in s.threads && s.threads[t].Rpl? && s.threads[t].rstage == Swapped
    requires Holds(s, s.threads[t].ro) && !It(s, s.threads[t].ro).linked
    requires Good(s, SetPc(s, t, s.threads[t].(rstage := Undo)), t)
    ensures SGood(s, SetPc(s, t, s.threads[t].(rstage := Undo)), t)
  {
    var s', pc := SetPc(s, t, s.threads[t].(rstage := Undo)), s.threads[t];
    assert ThreadS(s, t);
    forall j | j in s'.items && j !in s'.claims ensures ItemS(s', j) {
      assert ItemS(s, j);
      assert Adds(s, t, j) ==> Adds(s', t, j);
      ItemKept(s, s', t, j);
    }
  }

  lemma RplMMTakenS(s: State, t: Tid)
    requires Inv(s) && SInv(s) && CanRplMM(s, t) && Good(s, DoRplMM(s, t), t)
    requires It(s, s.threads[t].ro).linked && !It(s, s.threads[t].rn).linked
    ensures SGood(s, DoRplMM(s, t), t)
  {
    var s', pc := DoRplMM(s, t), s.threads[t];
    assert ThreadS(s, t);
    HandleNotClaimed(s, pc.ro);
    HandleNotClaimed(s, pc.rn);
    var i, j := s.handles[pc.ro], s.handles[pc.rn];
    assert ItemS(s, i) && ItemS(s, j);
    assert RplItem(s', t) == Some(j);
    assert Unlinks(s', t, j);
    RestItems(s, s', t, i, j);
  }

  lemma RplMMS(s: State, t: Tid)
    requires Inv(s) && SInv(s) && CanRplMM(s, t) && Good(s, DoRplMM(s, t), t)
    ensures SGood(s, DoRplMM(s, t), t)
  {
    assert ThreadS(s, t);
    if It(s, s.threads[t].ro).linked && !It(s, s.threads[t].rn).linked { RplMMTakenS(s, t); } else { RplRefusedS(s, t); }
  }

  lemma RplMMRemoveTakenS(s: State, t: Tid)
    requires Inv(s) && SInv(s) && CanRplMMRemove(s, t) && Good(s, DoRplMMRemove(s, t), t)
    requires It(s, s.threads[t].ro).linked
    ensures SGood(s, DoRplMMRemove(s, t), t)
  {
    var s', pc := DoRplMMRemove(s, t), s.threads[t];
    assert ThreadS(s, t);
    HandleNotClaimed(s, pc.ro);
    HandleNotClaimed(s, pc.rn);
    var i, j := s.handles[pc.ro], s.handles[pc.rn];
    assert ItemS(s, i) && ItemS(s, j);
    assert RplItem(s', t) == Some(j);
    assert Adds(s', t, j);
    RestItems(s, s', t, i, j);
  }

  lemma RplMMRemoveS(s: State, t: Tid)
    requires Inv(s) && SInv(s) && CanRplMMRemove(s, t) && Good(s, DoRplMMRemove(s, t), t)
    ensures SGood(s, DoRplMMRemove(s, t), t)
  {
    assert ThreadS(s, t);
    if It(s, s.threads[t].ro).linked { RplMMRemoveTakenS(s, t); } else { RplRefusedS(s, t); }
  }

  lemma RplMMAddS(s: State, t: Tid)
    requires Inv(s) && SInv(s) && CanRplMMAdd(s, t) && Good(s, DoRplMMAdd(s, t), t)
    ensures SGood(s, DoRplMMAdd(s, t), t)
  {
    var s', pc := DoRplMMAdd(s, t), s.threads[t];
    assert ThreadS(s, t);
    HandleNotClaimed(s, pc.ro);
    HandleNotClaimed(s, pc.rn);
    var i, j := s.handles[pc.ro], s.handles[pc.rn];
    assert ItemS(s, i) && ItemS(s, j);
    assert RplItem(s', t) == Some(j);
    assert Unlinks(s', t, j);
    RestItems(s, s', t, j, j);
  }

  lemma RplTakeBackS(s: State, t: Tid)
    requires Inv(s) && SInv(s) && CanRplTakeBack(s, t) && Good(s, DoRplTakeBack(s, t), t)
    ensures SGood(s, DoRplTakeBack(s, t), t)
  {
    var s', pc := DoRplTakeBack(s, t), s.threads[t];
    assert ThreadS(s, t);
    HandleNotClaimed(s, pc.rn);
    var j := s.handles[pc.rn];
    assert ItemS(s, j);
    RestItems(s, s', t, j, j);
  }

  /** The new item is still accessible: nothing is left to do. */
  lemma RplLastKept(s: State, t: Tid)
    requires Inv(s) && SInv(s) && CanRplLast(s, t) && It(s, s.threads[t].rn).accessible && Good(s, Done(s, t), t)
    ensures SGood(s, Done(s, t), t)
  {
    var s' := Done(s, t);
    forall j | j in s'.items && j !in s'.claims ensures ItemS(s', j) {
      assert ItemS(s, j);
      ItemKept(s, s', t, j);
    }
  }

  lemma RplLastUnlinked(s: State, t: Tid)
    requires Inv(s) && SInv(s) && CanRplLast(s, t) && !It(s, s.threads[t].rn).accessible && Good(s, DoRplLast(s, t), t)
    ensures SGood(s, DoRplLast(s, t), t)
  {
    var s', pc := DoRplLast(s, t), s.threads[t];
    assert ThreadS(s, t);
    HandleNotClaimed(s, pc.rn);
    var j := s.handles[pc.rn];
    assert ItemS(s, j);
    RestItems(s, s', t, j, j);
  }

  lemma RplLastS(s: State, t: Tid)
    requires Inv(s) && SInv(s) && CanRplLast(s, t) && Good(s, DoRplLast(s, t), t)
    ensures SGood(s, DoRplLast(s, t), t)
  {
    if It(s, s.threads[t].rn).accessible { RplLastKept(s, t); } else { RplLastUnlinked(s, t); }
  }

  lemma EvMarkS(s: State, t: Tid, i: ItemId)
    requires Inv(s) && SInv(s) && CanMarkIt(s, t, i) && Good(s, DoEvMark(s, t, i), t)
    ensures SGood(s, DoEvMark(s, t, i), t)
  {
    CalmItems(s, DoEvMark(s, t, i), t);
  }

  lemma MvMarkS(s: State, t: Tid, i: ItemId)
    requires Inv(s) && SInv(s) && CanMarkIt(s, t, i) && Good(s, DoMvMark(s, t, i), t) && (forall t' | t' in s.threads :: !MovesKey(s, t', s.items[i].key))
    ensures SGood(s, DoMvMark(s, t, i), t)
  {
    CalmItems(s, DoMvMark(s, t, i), t);
  }

  lemma OwnOffMMS(s: State, t: Tid)
    requires Inv(s) && SInv(s) && CanOwnOffMM(s, t) && Good(s, DoOwnOffMM(s, t), t)
    ensures SGood(s, DoOwnOffMM(s, t), t)
  {
    assert ThreadInv(s, t);
    CalmItems(s, DoOwnOffMM(s, t), t);
  }

  lemma OwnOffTableS(s: State, t: Tid)
    requires Inv(s) && SInv(s) && CanOwnOffTable(s, t) && Good(s, DoOwnOffTable(s, t), t)
    ensures SGood(s, DoOwnOffTable(s, t), t)
  {
    assert ThreadInv(s, t);
    CalmItems(s, DoOwnOffTable(s, t), t);
  }

  lemma EvUnmarkS(s: State, t: Tid)
    requires Inv(s) && SInv(s) && CanEvUnmark(s, t) && Good(s, DoEvUnmark(s, t), t)
    ensures SGood(s, DoEvUnmark(s, t), t)
  {
    assert ThreadInv(s, t);
    CalmItems(s, DoEvUnmark(s, t), t);
  }

  lemma MvGiveUpS(s: State, t: Tid)
    requires Inv(s) && SInv(s) && CanMvGiveUp(s, t) && Good(s, DoMvGiveUp(s, t), t)
    ensures SGood(s, DoMvGiveUp(s, t), t)
  {
    assert ThreadInv(s, t);
    CalmItems(s, DoMvGiveUp(s, t), t);
  }

  lemma MvUnmarkS(s: State, t: Tid)
    requires Inv(s) && SInv(s) && CanMvUnmark(s, t) && Good(s, DoMvUnmark(s, t), t)
    ensures SGood(s, DoMvUnmark(s, t), t)
  {
    assert ThreadInv(s, t);
    CalmItems(s, DoMvUnmark(s, t), t);
  }

  lemma WakeTakeS(s: State, t: Tid)
    requires Inv(s) && SInv(s) && CanWakeTake(s, t) && Good(s, DoWakeTake(s, t), t)
    ensures SGood(s, DoWakeTake(s, t), t)
  {
    assert ThreadInv(s, t);
    CalmItems(s, DoWakeTake(s, t), t);
  }

  lemma NotifyDoneS(s: State, t: Tid)
    requires Inv(s) && SInv(s) && CanNotifyDone(s, t) && Good(s, DoNotifyDone(s, t), t)
    ensures SGood(s, DoNotifyDone(s, t), t)
  {
    assert ThreadInv(s, t);
    CalmItems(s, DoNotifyDone(s, t), t);
  }

  lemma NotifyOneCalm(s: State, t: Tid, w: WaiterId, h2: HandleId)
    requires Inv(s) && CanNotifyOne(s, t, w, h2)
    ensures Calm(s, DoNotifyOne(s, t, w, h2), t)
  { assert ThreadInv(s, t); }

  lemma NotifyOneS(s: State, t: Tid, w: WaiterId, h2: HandleId)
    requires Inv(s) && SInv(s) && CanNotifyOne(s, t, w, h2) && Good(s, DoNotifyOne(s, t, w, h2), t)
    ensures SGood(s, DoNotifyOne(s, t, w, h2), t)
  {
    NotifyOneCalm(s, t, w, h2);
    CalmItems(s, DoNotifyOne(s, t, w, h2), t);
    NotifyOneTame(s, t, w, h2);
  }

  lemma NotifyOneTame(s: State, t: Tid, w: WaiterId, h2: HandleId)
    requires CanNotifyOne(s, t, w, h2)
    ensures Tame(s, DoNotifyOne(s, t, w, h2), t)
  {}

  lemma MvAllocS(s: State, t: Tid, n: ItemId, h: HandleId)
    requires Inv(s) && SInv(s) && CanMvAlloc(s, t, n, h) && Good(s, DoMvAlloc(s, t, n, h), t)
    ensures SGood(s, DoMvAlloc(s, t, n, h), t)
  {
    assert ThreadInv(s, t);
    forall j | j in s.items ensures !(j in s.pubs && s.pubs[j] == t) { assert ItemInv(s, j); }
    RestItems(s, DoMvAlloc(s, t, n, h), t, n, n);
  }

  lemma MvAddS(s: State, t: Tid)
    requires Inv(s) && SInv(s) && CanMvAdd(s, t) && Good(s, DoMvAdd(s, t), t)
    ensures SGood(s, DoMvAdd(s, t), t)
  {
    var n := s.handles[s.threads[t].to.value];
    assert ThreadInv(s, t);
    HandleNotClaimed(s, s.threads[t].to.value);
    assert ItemS(s, n);
    forall j | j in s.pubs && s.pubs[j] == t ensures j == n { assert ItemInv(s, j); }
    RestItems(s, DoMvAdd(s, t), t, n, n);
  }

  lemma MvExpiredS(s: State, t: Tid)
    requires Inv(s) && SInv(s) && CanMvExpired(s, t) && Good(s, DoMvExpired(s, t), t)
    ensures SGood(s, DoMvExpired(s, t), t)
  {
    var n := s.handles[s.threads[t].to.value];
    assert ThreadInv(s, t);
    HandleNotClaimed(s, s.threads[t].to.value);
    assert ItemS(s, n) && ItemInv(s, n);
    forall j | j in s.pubs && s.pubs[j] == t ensures j == n { assert ItemInv(s, j); }
    RestItems(s, DoMvExpired(s, t), t, n, n);
  }

  lemma MvTakeBackS(s: State, t: Tid)
    requires Inv(s) && SInv(s) && CanMvTakeBack(s, t) && Good(s, DoMvTakeBack(s, t), t)
    ensures SGood(s, DoMvTakeBack(s, t), t)
  {
    var n := s.handles[s.threads[t].to.value];
    assert ThreadInv(s, t);
    HandleNotClaimed(s, s.threads[t].to.value);
    assert ItemS(s, n) && ItemInv(s, n);
    RestItems(s, DoMvTakeBack(s, t), t, n, n);
  }

  lemma MvTableTakenS(s: State, t: Tid)
    requires Inv(s) && SInv(s) && CanMvTable(s, t) && Good(s, DoMvTable(s, t), t) && s.items[s.threads[t].ci].accessible
    ensures SGood(s, DoMvTable(s, t), t)
  {
    var n := s.handles[s.threads[t].to.value];
    assert ThreadInv(s, t);
    HandleNotClaimed(s, s.threads[t].to.value);
    assert ItemS(s, n);
    RestItems(s, DoMvTable(s, t), t, n, n);
  }

  lemma MvTableS(s: State, t: Tid)
    requires Inv(s) && SInv(s) && CanMvTable(s, t) && Good(s, DoMvTable(s, t), t)
    ensures SGood(s, DoMvTable(s, t), t)
  {
    if s.items[s.threads[t].ci].accessible { MvTableTakenS(s, t); } else { CalmItems(s, DoMvTable(s, t), t); }
  }

  lemma FreeCalm(s: State, t: Tid)
    requires Inv(s) && CanFree(s, t)
    ensures Calm(s, DoFree(s, t), t)
  { assert ThreadInv(s, t); }

  lemma FreeS(s: State, t: Tid)
    requires Inv(s) && SInv(s) && CanFree(s, t) && Good(s, DoFree(s, t), t)
    ensures SGood(s, DoFree(s, t), t)
  {
    FreeCalm(s, t);
    CalmItems(s, DoFree(s, t), t);
  }

  lemma HandleS(s: State, t: Tid, op: HandleOp, s': State)
    requires Inv(s) && SInv(s) && HandleStep(s, t, op, s') && Allowed(DISCIPLINE, s, Action(t, OnHandle(op)))
    ensures Good(s, s', t) && SGood(s, s', t) && WaitersTame(s, s')
  {
    HandleGood(s, t, op, s');
    match op {
      case Alloc(n, h, k) => AllocS(s, t, n, h, k);
      case Clone(h, h2) => CloneS(s, t, h, h2);
      case Drop(h) => DropS(s, t, h);
    }
    WaitersStay(s, s', t);
  }

  lemma LookupS(s: State, t: Tid, op: LookupOp, s': State)
    requires Inv(s) && SInv(s) && LookupStep(s, t, op, s') && Allowed(DISCIPLINE, s, Action(t, OnLookup(op)))
    ensures Good(s, s', t) && SGood(s, s', t) && WaitersTame(s, s')
  {
    LookupGood(s, t, op, s');
    match op
    case FindHit(k) => FindHitS(s, t, k); WaitersStay(s, s', t);
    case AcqOk(h) => AcqOkS(s, t, h); WaitersStay(s, s', t);
    case AcqEvicted => AcqEvictedS(s, t); WaitersStay(s, s', t);
    case AcqMoving => AcqMovingS(s, t); WaitersStay(s, s', t);
    case WaitQueue(w) => WaitQueueS(s, t, w); WaitersStay(s, s', t);
    case WaitRetry => WaitRetryS(s, t); WaitersStay(s, s', t);
  }

  /** A publication that the discipline allows starts with a settled item. */
  lemma PublishSettled(s: State, a: Action)
    requires Allowed(DISCIPLINE, s, a) && Published(s, a).Some?
    ensures Settled(s, Published(s, a).value)
  {
    forall t ensures !Unlinks(s, t, Published(s, a).value) && RplItem(s, t) != Some(Published(s, a).value) {
      if t in s.threads { assert !Adds(s, t, Published(s, a).value); }
    }
  }

  lemma InsertS(s: State, t: Tid, op: InsertOp, s': State)
    requires Inv(s) && SInv(s) && InsertStep(s, t, op, s') && Allowed(DISCIPLINE, s, Action(t, OnInsert(op)))
    ensures Good(s, s', t) && SGood(s, s', t) && WaitersTame(s, s')
  {
    InsertGood(s, t, op, s');
    match op {
      case PubAdd(h, replace) => PublishSettled(s, Action(t, OnInsert(op))); PubAddS(s, t, h, replace);
      case InsTable => InsTableS(s, t);
      case InsTakeBack => InsTakeBackS(s, t);
      case IorTable => IorTableS(s, t);
      case IorSwapFlags => IorSwapFlagsS(s, t);
      case IorResume => IorResumeS(s, t);
      case RemTable(h) => RemTableS(s, t, h);
      case UnlinkMM => UnlinkMMS(s, t);
    }
    WaitersStay(s, s', t);
  }

  lemma ReplaceS(s: State, t: Tid, op: ReplaceOp, s': State)
    requires Inv(s) && SInv(s) && ReplaceStep(s, t, op, s') && Allowed(DISCIPLINE, s, Action(t, OnReplace(op)))
    ensures Good(s, s', t) && SGood(s, s', t) && WaitersTame(s, s')
  {
    ReplaceGood(s, t, op, s');
    match op {
      case RplTable(o, n) => PublishSettled(s, Action(t, OnReplace(op))); RplTableS(s, t, o, n);
      case RplMM => RplMMS(s, t);
      case RplMMRemove => RplMMRemoveS(s, t);
      case RplMMAdd => RplMMAddS(s, t);
      case RplTakeBack => RplTakeBackS(s, t);
      case RplLast => RplLastS(s, t);
    }
    WaitersStay(s, s', t);
  }

  lemma EvictS(s: State, t: Tid, op: EvictOp, s': State)
    requires Inv(s) && SInv(s) && EvictStep(s, t, op, s') && Allowed(DISCIPLINE, s, Action(t, OnEvict(op)))
    ensures Good(s, s', t) && SGood(s, s', t) && WaitersTame(s, s')
  {
    EvictGood(s, t, op, s');
    match op {
      case EvMark(i) => EvMarkS(s, t, i);
      case OwnOffMM => OwnOffMMS(s, t);
      case OwnOffTable => OwnOffTableS(s, t);
      case EvUnmark => EvUnmarkS(s, t);
      case Free => FreeS(s, t);
    }
    WaitersStay(s, s', t);
  }

  lemma MoveS(s: State, t: Tid, op: MoveOp, s': State)
    requires Inv(s) && SInv(s) && MoveStep(s, t, op, s') && Allowed(DISCIPLINE, s, Action(t, OnMove(op)))
    ensures Good(s, s', t) && SGood(s, s', t) && WaitersTame(s, s')
  {
    MoveGood(s, t, op, s');
    match op {
      case MvMark(i) => MvMarkS(s, t, i);
      case MvAlloc(n, h) => MvAllocS(s, t, n, h);
      case MvExpired => MvExpiredS(s, t);
      case MvAdd => MvAddS(s, t);
      case MvTable => MvTableS(s, t);
      case MvTakeBack => MvTakeBackS(s, t);
      case MvGiveUp => MvGiveUpS(s, t);
      case MvUnmark => MvUnmarkS(s, t);
    }
    WaitersStay(s, s', t);
  }

  lemma WakeS(s: State, t: Tid, op: WakeOp, s': State)
    requires Inv(s) && SInv(s) && WakeStep(s, t, op, s') && Allowed(DISCIPLINE, s, Action(t, OnWake(op)))
    ensures Good(s, s', t) && SGood(s, s', t) && WaitersTame(s, s')
  {
    WakeGood(s, t, op, s');
    match op
    case WakeTake => WakeTakeS(s, t); WakeTakeWaiters(s, t);
    case NotifyOne(w, h2) => NotifyOneS(s, t, w, h2); NotifyOneWaiters(s, t, w, h2);
    case NotifyDone => NotifyDoneS(s, t); WaitersStay(s, s', t);
  }
}
