/** Every step keeps the data invariant, leaves the other threads' footing alone and puts its own
    thread on a sound footing. */
module ProtocolSteps {
  import opened Options
  import opened Protocol
  import opened ProtocolInv
  import opened ProtocolMoves

  ghost predicate Good(s: State, s': State, t: Tid) {
    DataInv(s') && Guarantee(s, s', t) && (t in s'.threads ==> ThreadInv(s', t))
  }

  /** Thread `t` keeps the waiters in its hands, and its duty to wake up those queued on its key. */
  predicate KeepsDuty(s: State, s': State, t: Tid) {
    t in s.threads && s.threads[t].Claim? ==>
      var pc := s.threads[t];
      && (OwesWakeUp(pc) ==> t in s'.threads && OwesWakeUp(s'.threads[t]) && s'.threads[t].ci == pc.ci)
      && (pc.cstage == Notifying && pc.ws != {} ==> t in s'.threads && s'.threads[t] == pc)
  }

  /** The step does not concern the wait map. */
  predicate Quiet(s: State, s': State, t: Tid) {
    s'.waits == s.waits && s'.waiters == s.waiters && KeepsDuty(s, s', t)
  }

  /** The invariant as far as the acting thread `t` needs it. */
  ghost predicate Pre(s: State, t: Tid) { DataInv(s) && (t in s.threads ==> ThreadInv(s, t)) }

  // ---- handles in the hands of users

  lemma AllocStep(s: State, t: Tid, n: ItemId, h: HandleId, k: Key)
    requires Pre(s, t) && CanAlloc(s, t, n, h, k)
    ensures Good(s, DoAlloc(s, t, n, h, k), t)
    ensures Quiet(s, DoAlloc(s, t, n, h, k), t)
  {
    AllocMove(s, DoAlloc(s, t, n, h, k), t, n, h, k);
  }

  lemma CloneStep(s: State, t: Tid, h: HandleId, h2: HandleId)
    requires Pre(s, t) && CanClone(s, t, h, h2)
    ensures Good(s, DoClone(s, t, h, h2), t)
    ensures Quiet(s, DoClone(s, t, h, h2), t)
  {
    HandleNotClaimed(s, h);
    IncMove(s, DoClone(s, t, h, h2), t, s.handles[h], h2);
  }

  lemma DropSafe(s: State, t: Tid, h: HandleId)
    requires Pre(s, t) && CanDrop(s, t, h)
    ensures Safe(s, DoDrop(s, t, h), t)
  {
    HandleNotClaimed(s, h);
    DropShape(s, t, h);
    DecMove(s, DoDrop(s, t, h), t, s.handles[h], h);
  }

  /** The handle is the last thing that keeps the item. */
  predicate DropsLast(s: State, h: HandleId)
    requires Holds(s, h) && It(s, h).ref > 0
  {
    It(s, h).(ref := It(s, h).ref - 1).IsDrained()
  }

  lemma DropShapeLast(s: State, t: Tid, h: HandleId)
    requires CanDrop(s, t, h) && s.handles[h] !in s.claims && DropsLast(s, h)
    ensures DecShape(s, DoDrop(s, t, h), t, s.handles[h], h)
  {}

  lemma DropShapeMore(s: State, t: Tid, h: HandleId)
    requires CanDrop(s, t, h) && s.handles[h] !in s.claims && !DropsLast(s, h)
    ensures DecShape(s, DoDrop(s, t, h), t, s.handles[h], h)
  {}

  lemma DropShape(s: State, t: Tid, h: HandleId)
    requires CanDrop(s, t, h) && s.handles[h] !in s.claims
    ensures DecShape(s, DoDrop(s, t, h), t, s.handles[h], h)
  {
    if DropsLast(s, h) { DropShapeLast(s, t, h); } else { DropShapeMore(s, t, h); }
  }

  lemma DropOwnLast(s: State, t: Tid, h: HandleId)
    requires CanDrop(s, t, h) && DropsLast(s, h)
    ensures t in DoDrop(s, t, h).threads && ThreadInv(DoDrop(s, t, h), t)
  {}

  lemma DropOwnMore(s: State, t: Tid, h: HandleId)
    requires CanDrop(s, t, h) && !DropsLast(s, h)
    ensures t !in DoDrop(s, t, h).threads
  {}

  lemma DropOwn(s: State, t: Tid, h: HandleId)
    requires CanDrop(s, t, h)
    ensures var s' := DoDrop(s, t, h); t in s'.threads ==> ThreadInv(s', t)
  {
    if DropsLast(s, h) { DropOwnLast(s, t, h); } else { DropOwnMore(s, t, h); }
  }

  lemma DropQuiet(s: State, t: Tid, h: HandleId)
    requires CanDrop(s, t, h)
    ensures Quiet(s, DoDrop(s, t, h), t)
  {}

  lemma DropStep(s: State, t: Tid, h: HandleId)
    requires Pre(s, t) && CanDrop(s, t, h)
    ensures Good(s, DoDrop(s, t, h), t)
    ensures Quiet(s, DoDrop(s, t, h), t)
  {
    DropSafe(s, t, h);
    DropOwn(s, t, h);
    DropQuiet(s, t, h);
  }

  // ---- the acquire loop

  lemma FindHitStep(s: State, t: Tid, k: Key)
    requires Pre(s, t) && CanFindHit(s, t, k)
    ensures Good(s, DoFindHit(s, t, k), t)
    ensures Quiet(s, DoFindHit(s, t, k), t)
  {
    assert KeyInv(s, k);
    PcMove(s, DoFindHit(s, t, k), t);
  }

  /** The item in the acquire loop is accessible; without a mark it is not claimed. */
  lemma AcquiredItem(s: State, t: Tid)
    requires Pre(s, t) && t in s.threads && s.threads[t].Look?
    ensures var i := s.threads[t].li; i in s.items && s.items[i].accessible && (i !in s.claims ==> !s.items[i].exclusive)
  {
    var i := s.threads[t].li;
    assert KeyInv(s, s.items[i].key) && ItemInv(s, i);
  }

  lemma AcqOkStep(s: State, t: Tid, h: HandleId)
    requires Pre(s, t) && CanAcqOk(s, t, h) && s.threads[t].li !in s.claims
    ensures Good(s, DoAcqOk(s, t, h), t)
    ensures Quiet(s, DoAcqOk(s, t, h), t)
  {
    IncMove(s, DoAcqOk(s, t, h), t, s.threads[t].li, h);
  }

  lemma AcqEvictedStep(s: State, t: Tid)
    requires Pre(s, t) && CanAcqEvicted(s, t)
    ensures Good(s, DoAcqEvicted(s, t), t)
    ensures Quiet(s, DoAcqEvicted(s, t), t)
  {
    AcquiredItem(s, t);
    PcMove(s, DoAcqEvicted(s, t), t);
  }

  lemma AcqMovingStep(s: State, t: Tid)
    requires Pre(s, t) && CanAcqMoving(s, t)
    ensures Good(s, DoAcqMoving(s, t), t)
    ensures Quiet(s, DoAcqMoving(s, t), t)
  {
    PcMove(s, DoAcqMoving(s, t), t);
  }

  lemma WaitQueueStep(s: State, t: Tid, w: WaiterId)
    requires Pre(s, t) && CanWaitQueue(s, t, w)
    ensures Good(s, DoWaitQueue(s, t, w), t)
  {
    AcquiredItem(s, t);
    PcMove(s, DoWaitQueue(s, t, w), t);
  }

  lemma WaitRetryStep(s: State, t: Tid)
    requires Pre(s, t) && CanWaitRetry(s, t)
    ensures Good(s, DoWaitRetry(s, t), t)
    ensures Quiet(s, DoWaitRetry(s, t), t)
  {
    PcMove(s, DoWaitRetry(s, t), t);
  }

  // ---- insert, insertOrReplace and remove

  lemma PubAddStep(s: State, t: Tid, h: HandleId, replace: bool)
    requires Pre(s, t) && CanPubAdd(s, t, h, replace) && s.handles[h] !in s.pubs
    ensures Good(s, DoPubAdd(s, t, h, replace), t)
    ensures Quiet(s, DoPubAdd(s, t, h, replace), t)
  {
    HandleNotClaimed(s, h);
    LinkMove(s, DoPubAdd(s, t, h, replace), t, s.handles[h], true);
  }

  lemma InsTableStep(s: State, t: Tid)
    requires Pre(s, t) && CanInsTable(s, t)
    ensures Good(s, DoInsTable(s, t), t)
    ensures Quiet(s, DoInsTable(s, t), t)
  {
    var s' := DoInsTable(s, t);
    HandleNotClaimed(s, s.threads[t].ph);
    if It(s, s.threads[t].ph).key in s.table { PcMove(s, s', t); } else { IntoTableMove(s, s', t, s.handles[s.threads[t].ph]); }
  }

  lemma InsTakeBackStep(s: State, t: Tid)
    requires Pre(s, t) && CanInsTakeBack(s, t)
    ensures Good(s, DoInsTakeBack(s, t), t)
    ensures Quiet(s, DoInsTakeBack(s, t), t)
  {
    HandleNotClaimed(s, s.threads[t].ph);
    LinkMove(s, DoInsTakeBack(s, t), t, s.handles[s.threads[t].ph], false);
  }

  lemma IorTableStep(s: State, t: Tid)
    requires Pre(s, t) && CanIorTable(s, t)
    ensures Good(s, DoIorTable(s, t), t)
    ensures Quiet(s, DoIorTable(s, t), t)
  {
    var s' := DoIorTable(s, t);
    var h := s.threads[t].ph;
    var i := s.handles[h];
    HandleNotClaimed(s, h);
    assert KeyInv(s, s.items[i].key);
    if s.items[i].key in s.table { PendMove(s, s', t, i, s.table[s.items[i].key], h); } else { IntoTableMove(s, s', t, i); }
  }

  lemma IorSwapFlagsSafe(s: State, t: Tid)
    requires Pre(s, t) && CanIorSwapFlags(s, t)
    ensures Safe(s, DoIorSwapFlags(s, t), t)
  {
    var pc := s.threads[t];
    if pc.got.GotHandle? { HandleNotClaimed(s, pc.got.gr); }
    assert KeyInv(s, s.items[pc.sprev].key);
    SwapFlagsMove(s, DoIorSwapFlags(s, t), t, s.handles[pc.sh], pc.sprev);
  }

  lemma IorSwapFlagsOwn(s: State, t: Tid)
    requires t in s.threads && ThreadInv(s, t) && CanIorSwapFlags(s, t)
    ensures var s' := DoIorSwapFlags(s, t); t in s'.threads ==> ThreadInv(s', t)
  {}

  lemma IorSwapFlagsQuiet(s: State, t: Tid)
    requires CanIorSwapFlags(s, t)
    ensures Quiet(s, DoIorSwapFlags(s, t), t)
  {}

  lemma IorSwapFlagsStep(s: State, t: Tid)
    requires Pre(s, t) && CanIorSwapFlags(s, t)
    ensures Good(s, DoIorSwapFlags(s, t), t)
    ensures Quiet(s, DoIorSwapFlags(s, t), t)
  {
    IorSwapFlagsSafe(s, t);
    IorSwapFlagsOwn(s, t);
    IorSwapFlagsQuiet(s, t);
  }

  lemma IorResumeQuiet(s: State, t: Tid)
    requires CanIorResume(s, t)
    ensures Quiet(s, DoIorResume(s, t), t)
  {}

  lemma IorResumeStep(s: State, t: Tid)
    requires Pre(s, t) && CanIorResume(s, t)
    ensures Good(s, DoIorResume(s, t), t)
    ensures Quiet(s, DoIorResume(s, t), t)
  {
    IorResumeQuiet(s, t);
    PcMove(s, DoIorResume(s, t), t);
  }

  /** Remove `i` from the table if it is there: the two cases of OffTable. */
  lemma OffTableBoth(s: State, s': State, t: Tid, i: ItemId)
    requires DataInv(s) && OnlyThread(s, s', t) && SameRole(s, s', t) && InHand(s, t, i)
    requires LockFree(s, s.items[i].key) && s' == s.(items := OffItems(s, i), table := OffTable(s, i), threads := s'.threads)
    ensures Safe(s, s', t) && i in s'.items && !s'.items[i].accessible
  {
    if s.items[i].accessible { OffTableMove(s, s', t, i); } else { PcMove(s, s', t); }
  }

  lemma RemTableSafe(s: State, t: Tid, h: HandleId)
    requires Pre(s, t) && CanRemTable(s, t, h)
    ensures Safe(s, DoRemTable(s, t, h), t)
  {
    HandleNotClaimed(s, h);
    OffTableBoth(s, DoRemTable(s, t, h), t, s.handles[h]);
  }

  lemma RemTableOwn(s: State, t: Tid, h: HandleId)
    requires CanRemTable(s, t, h)
    ensures var s' := DoRemTable(s, t, h); (t in s'.threads ==> ThreadInv(s', t)) && Quiet(s, s', t)
  {}

  lemma RemTableStep(s: State, t: Tid, h: HandleId)
    requires Pre(s, t) && CanRemTable(s, t, h)
    ensures Good(s, DoRemTable(s, t, h), t)
    ensures Quiet(s, DoRemTable(s, t, h), t)
  {
    RemTableSafe(s, t, h);
    RemTableOwn(s, t, h);
  }

  lemma UnlinkMMStep(s: State, t: Tid)
    requires Pre(s, t) && CanUnlinkMM(s, t)
    ensures Good(s, DoUnlinkMM(s, t), t)
    ensures Quiet(s, DoUnlinkMM(s, t), t)
  {
    HandleNotClaimed(s, s.threads[t].ur);
    LinkMove(s, DoUnlinkMM(s, t), t, s.handles[s.threads[t].ur], false);
  }

  // ---- replaceIfAccessible

  lemma RplTableStep(s: State, t: Tid, o: HandleId, n: HandleId)
    requires Pre(s, t) && CanRplTable(s, t, o, n) && s.handles[n] !in s.pubs
    ensures Good(s, DoRplTable(s, t, o, n), t)
    ensures Quiet(s, DoRplTable(s, t, o, n), t)
  {
    HandleNotClaimed(s, o);
    HandleNotClaimed(s, n);
    SwapTableMove(s, DoRplTable(s, t, o, n), t, s.handles[o], s.handles[n]);
  }

  /** The MM container refuses: only the thread moves on. */
  lemma RplRefused(s: State, t: Tid)
    requires Pre(s, t) && t in s.threads && s.threads[t].Rpl?
    ensures Good(s, SetPc(s, t, s.threads[t].(rstage := Undo)), t)
  {
    PcMove(s, SetPc(s, t, s.threads[t].(rstage := Undo)), t);
  }

  lemma RplMMTaken(s: State, t: Tid)
    requires Pre(s, t) && CanRplMM(s, t) && It(s, s.threads[t].ro).linked && !It(s, s.threads[t].rn).linked
    ensures Good(s, DoRplMM(s, t), t)
  {
    HandleNotClaimed(s, s.threads[t].ro);
    HandleNotClaimed(s, s.threads[t].rn);
    MMSwapMove(s, DoRplMM(s, t), t, s.handles[s.threads[t].ro], s.handles[s.threads[t].rn]);
  }

  lemma RplMMQuiet(s: State, t: Tid)
    requires CanRplMM(s, t)
    ensures Quiet(s, DoRplMM(s, t), t)
  {}

  lemma RplMMStep(s: State, t: Tid)
    requires Pre(s, t) && CanRplMM(s, t)
    ensures Good(s, DoRplMM(s, t), t)
    ensures Quiet(s, DoRplMM(s, t), t)
  {
    RplMMQuiet(s, t);
    if It(s, s.threads[t].ro).linked && !It(s, s.threads[t].rn).linked { RplMMTaken(s, t); } else { RplRefused(s, t); }
  }

  lemma RplMMRemoveTaken(s: State, t: Tid)
    requires Pre(s, t) && CanRplMMRemove(s, t) && It(s, s.threads[t].ro).linked
    ensures Good(s, DoRplMMRemove(s, t), t)
  {
    HandleNotClaimed(s, s.threads[t].ro);
    LinkMove(s, DoRplMMRemove(s, t), t, s.handles[s.threads[t].ro], false);
  }

  lemma RplMMRemoveStep(s: State, t: Tid)
    requires Pre(s, t) && CanRplMMRemove(s, t)
    ensures Good(s, DoRplMMRemove(s, t), t)
    ensures Quiet(s, DoRplMMRemove(s, t), t)
  {
    if It(s, s.threads[t].ro).linked { RplMMRemoveTaken(s, t); } else { RplRefused(s, t); }
  }

  lemma RplMMAddTaken(s: State, t: Tid)
    requires Pre(s, t) && CanRplMMAdd(s, t) && !It(s, s.threads[t].rn).linked
    ensures Good(s, DoRplMMAdd(s, t), t)
  {
    HandleNotClaimed(s, s.threads[t].rn);
    LinkMove(s, DoRplMMAdd(s, t), t, s.handles[s.threads[t].rn], true);
  }

  lemma RplMMAddStep(s: State, t: Tid)
    requires Pre(s, t) && CanRplMMAdd(s, t)
    ensures Good(s, DoRplMMAdd(s, t), t)
    ensures Quiet(s, DoRplMMAdd(s, t), t)
  {
    if It(s, s.threads[t].rn).linked { RplRefused(s, t); } else { RplMMAddTaken(s, t); }
  }

  lemma RplTakeBackStep(s: State, t: Tid)
    requires Pre(s, t) && CanRplTakeBack(s, t)
    ensures Good(s, DoRplTakeBack(s, t), t)
    ensures Quiet(s, DoRplTakeBack(s, t), t)
  {
    HandleNotClaimed(s, s.threads[t].rn);
    OffTableBoth(s, DoRplTakeBack(s, t), t, s.handles[s.threads[t].rn]);
  }

  lemma RplLastStep(s: State, t: Tid)
    requires Pre(s, t) && CanRplLast(s, t)
    ensures Good(s, DoRplLast(s, t), t)
    ensures Quiet(s, DoRplLast(s, t), t)
  {
    var s' := DoRplLast(s, t);
    var n := s.threads[t].rn;
    HandleNotClaimed(s, n);
    if It(s, n).accessible { PcMove(s, s', t); } else { LinkMove(s, s', t, s.handles[n], false); }
  }

  // ---- eviction, slab release and release of memory

  lemma ClaimedState(s: State, i: ItemId)
    requires DataInv(s) && ThreadsInv(s) && i in s.claims
    ensures i in s.items && (s.items[i].exclusive || s.items[i].IsDrained())
  {
    assert ItemInv(s, i) && ThreadInv(s, s.claims[i]);
  }

  /** Only an unclaimed item can be marked. */
  lemma MarkableUnclaimed(s: State, i: ItemId)
    requires DataInv(s) && ThreadsInv(s) && i in s.items && s.items[i].CanMark()
    ensures i !in s.claims
  {
    if i in s.claims { ClaimedState(s, i); }
  }

  lemma EvMarkStep(s: State, t: Tid, i: ItemId)
    requires Pre(s, t) && CanMarkIt(s, t, i) && i !in s.claims
    ensures Good(s, DoEvMark(s, t, i), t)
    ensures Quiet(s, DoEvMark(s, t, i), t)
  {
    MarkMove(s, DoEvMark(s, t, i), t, i, s.items[i].(exclusive := true));
  }

  lemma MvMarkStep(s: State, t: Tid, i: ItemId)
    requires Pre(s, t) && CanMarkIt(s, t, i) && i !in s.claims
    ensures Good(s, DoMvMark(s, t, i), t)
    ensures Quiet(s, DoMvMark(s, t, i), t)
  {
    MarkMove(s, DoMvMark(s, t, i), t, i, s.items[i].(ref := s.items[i].ref + 1, exclusive := true));
  }

  lemma OwnOffMMSafe(s: State, t: Tid)
    requires Pre(s, t) && CanOwnOffMM(s, t)
    ensures Safe(s, DoOwnOffMM(s, t), t)
  {
    OwnMove(s, DoOwnOffMM(s, t), t, s.threads[t].ci, s.items[s.threads[t].ci].(linked := false));
  }

  lemma OwnOffMMStep(s: State, t: Tid)
    requires Pre(s, t) && CanOwnOffMM(s, t)
    ensures Good(s, DoOwnOffMM(s, t), t)
    ensures Quiet(s, DoOwnOffMM(s, t), t)
  {
    OwnOffMMSafe(s, t);
  }

  lemma OwnOffTableSafe(s: State, t: Tid)
    requires Pre(s, t) && CanOwnOffTable(s, t)
    ensures Safe(s, DoOwnOffTable(s, t), t)
  {
    OffTableBoth(s, DoOwnOffTable(s, t), t, s.threads[t].ci);
  }

  lemma OwnOffTableOwn(s: State, t: Tid)
    requires t in s.threads && ThreadInv(s, t) && CanOwnOffTable(s, t)
    ensures var s' := DoOwnOffTable(s, t); t in s'.threads ==> ThreadInv(s', t)
  {
    var i := s.threads[t].ci;
    assert DoOwnOffTable(s, t).items[i] == s.items[i].(accessible := false);
  }

  lemma OwnOffTableQuiet(s: State, t: Tid)
    requires CanOwnOffTable(s, t)
    ensures Quiet(s, DoOwnOffTable(s, t), t)
  {}

  lemma OwnOffTableStep(s: State, t: Tid)
    requires Pre(s, t) && CanOwnOffTable(s, t)
    ensures Good(s, DoOwnOffTable(s, t), t)
    ensures Quiet(s, DoOwnOffTable(s, t), t)
  {
    OwnOffTableSafe(s, t);
    OwnOffTableOwn(s, t);
    OwnOffTableQuiet(s, t);
  }

  lemma EvUnmarkQuiet(s: State, t: Tid)
    requires CanEvUnmark(s, t)
    ensures Quiet(s, DoEvUnmark(s, t), t)
  {}

  lemma EvUnmarkStep(s: State, t: Tid)
    requires Pre(s, t) && CanEvUnmark(s, t)
    ensures Good(s, DoEvUnmark(s, t), t)
    ensures Quiet(s, DoEvUnmark(s, t), t)
  {
    EvUnmarkQuiet(s, t);
    EvUnmarkSafe(s, t);
    EvUnmarkOwn(s, t);
  }

  lemma EvUnmarkSafe(s: State, t: Tid)
    requires Pre(s, t) && CanEvUnmark(s, t)
    ensures Safe(s, DoEvUnmark(s, t), t)
  {
    OwnMove(s, DoEvUnmark(s, t), t, s.threads[t].ci, s.items[s.threads[t].ci].(exclusive := false));
  }

  lemma EvUnmarkOwn(s: State, t: Tid)
    requires Pre(s, t) && CanEvUnmark(s, t)
    ensures t in DoEvUnmark(s, t).threads && ThreadInv(DoEvUnmark(s, t), t)
  {}

  lemma MvAllocSafe(s: State, t: Tid, n: ItemId, h: HandleId)
    requires Pre(s, t) && CanMvAlloc(s, t, n, h)
    ensures Safe(s, DoMvAlloc(s, t, n, h), t)
  {
    AllocMove(s, DoMvAlloc(s, t, n, h), t, n, h, s.items[s.threads[t].ci].key);
  }

  lemma MvAllocStep(s: State, t: Tid, n: ItemId, h: HandleId)
    requires Pre(s, t) && CanMvAlloc(s, t, n, h)
    ensures Good(s, DoMvAlloc(s, t, n, h), t)
    ensures Quiet(s, DoMvAlloc(s, t, n, h), t)
  {
    MvAllocSafe(s, t, n, h);
  }

  lemma MvAddStep(s: State, t: Tid)
    requires Pre(s, t) && CanMvAdd(s, t)
    ensures Good(s, DoMvAdd(s, t), t)
    ensures Quiet(s, DoMvAdd(s, t), t)
  {
    HandleNotClaimed(s, s.threads[t].to.value);
    LinkMove(s, DoMvAdd(s, t), t, s.handles[s.threads[t].to.value], true);
  }

  lemma MvTableSafe(s: State, t: Tid)
    requires Pre(s, t) && CanMvTable(s, t)
    ensures Safe(s, DoMvTable(s, t), t)
  {
    var s' := DoMvTable(s, t);
    var pc := s.threads[t];
    var n := s.handles[pc.to.value];
    HandleNotClaimed(s, pc.to.value);
    assert ItemInv(s, n);
    if s.items[pc.ci].accessible { SwapTableMove(s, s', t, pc.ci, n); } else { PcMove(s, s', t); }
  }

  lemma MvTableOwn(s: State, t: Tid)
    requires t in s.threads && ThreadInv(s, t) && CanMvTable(s, t) && s.items[s.threads[t].ci].accessible
    requires s.handles[s.threads[t].to.value] !in s.claims
    ensures ThreadInv(DoMvTable(s, t), t)
  {
    var i := s.threads[t].ci;
    assert DoMvTable(s, t).items[i] == s.items[i].(accessible := false);
  }

  lemma MvTableRefused(s: State, t: Tid)
    requires t in s.threads && ThreadInv(s, t) && CanMvTable(s, t) && !s.items[s.threads[t].ci].accessible
    ensures ThreadInv(DoMvTable(s, t), t)
  {}

  lemma MvTableStep(s: State, t: Tid)
    requires Pre(s, t) && CanMvTable(s, t)
    ensures Good(s, DoMvTable(s, t), t)
    ensures Quiet(s, DoMvTable(s, t), t)
  {
    HandleNotClaimed(s, s.threads[t].to.value);
    MvTableSafe(s, t);
    if s.items[s.threads[t].ci].accessible { MvTableOwn(s, t); } else { MvTableRefused(s, t); }
  }

  lemma MvTakeBackStep(s: State, t: Tid)
    requires Pre(s, t) && CanMvTakeBack(s, t)
    ensures Good(s, DoMvTakeBack(s, t), t)
    ensures Quiet(s, DoMvTakeBack(s, t), t)
  {
    HandleNotClaimed(s, s.threads[t].to.value);
    LinkMove(s, DoMvTakeBack(s, t), t, s.handles[s.threads[t].to.value], false);
  }

  lemma MvExpiredStep(s: State, t: Tid)
    requires Pre(s, t) && CanMvExpired(s, t)
    ensures Good(s, DoMvExpired(s, t), t)
    ensures Quiet(s, DoMvExpired(s, t), t)
  {
    var h := s.threads[t].to.value;
    HandleNotClaimed(s, h);
    assert Linked(s.items, s.handles[h], It(s, h).linked) == s.items;
    LinkMove(s, DoMvExpired(s, t), t, s.handles[h], It(s, h).linked);
  }

  lemma MvGiveUpSafe(s: State, t: Tid)
    requires Pre(s, t) && CanMvGiveUp(s, t)
    ensures Safe(s, DoMvGiveUp(s, t), t)
  {
    var i := s.threads[t].ci;
    OwnMove(s, DoMvGiveUp(s, t), t, i, s.items[i].(ref := s.items[i].ref - 1));
  }

  lemma MvGiveUpStep(s: State, t: Tid)
    requires Pre(s, t) && CanMvGiveUp(s, t)
    ensures Good(s, DoMvGiveUp(s, t), t)
    ensures Quiet(s, DoMvGiveUp(s, t), t)
  {
    MvGiveUpSafe(s, t);
  }

  lemma MvUnmarkSafe(s: State, t: Tid)
    requires Pre(s, t) && CanMvUnmark(s, t)
    ensures Safe(s, DoMvUnmark(s, t), t)
  {
    var i := s.threads[t].ci;
    OwnMove(s, DoMvUnmark(s, t), t, i, s.items[i].(ref := s.items[i].ref - 1, exclusive := false));
  }

  lemma MvUnmarkStep(s: State, t: Tid)
    requires Pre(s, t) && CanMvUnmark(s, t)
    ensures Good(s, DoMvUnmark(s, t), t)
    ensures Quiet(s, DoMvUnmark(s, t), t)
  {
    MvUnmarkSafe(s, t);
  }

  lemma FreeStep(s: State, t: Tid)
    requires Pre(s, t) && CanFree(s, t)
    ensures Good(s, DoFree(s, t), t)
    ensures Quiet(s, DoFree(s, t), t)
  {
    FreeMove(s, DoFree(s, t), t, s.threads[t].ci);
  }

  // ---- waking the waiters

  lemma WakeTakeSafe(s: State, t: Tid)
    requires Pre(s, t) && CanWakeTake(s, t) && WaitInv(s)
    ensures Safe(s, DoWakeTake(s, t), t)
  {
    var k := s.items[s.threads[t].ci].key;
    if k in s.waits { assert EntryInv(s, k); }
    PcMove(s, DoWakeTake(s, t), t);
  }

  lemma WakeTakeOwn(s: State, t: Tid)
    requires t in s.threads && ThreadInv(s, t) && CanWakeTake(s, t)
    requires var k := s.items[s.threads[t].ci].key; k in s.waits ==> EntryInv(s, k)
    ensures ThreadInv(DoWakeTake(s, t), t)
  {}

  lemma WakeTakeStep(s: State, t: Tid)
    requires Pre(s, t) && CanWakeTake(s, t) && WaitInv(s)
    ensures Good(s, DoWakeTake(s, t), t)
  {
    WakeTakeSafe(s, t);
    WakeTakeOwn(s, t);
  }

  lemma NotifyOneHit(s: State, t: Tid, w: WaiterId, h2: HandleId)
    requires Pre(s, t) && CanNotifyOne(s, t, w, h2) && s.threads[t].to.Some?
    ensures Safe(s, DoNotifyOne(s, t, w, h2), t)
  {
    HandleNotClaimed(s, s.threads[t].to.value);
    IncMove(s, DoNotifyOne(s, t, w, h2), t, s.handles[s.threads[t].to.value], h2);
  }

  lemma NotifyOneMiss(s: State, t: Tid, w: WaiterId, h2: HandleId)
    requires Pre(s, t) && CanNotifyOne(s, t, w, h2) && s.threads[t].to.None?
    ensures Safe(s, DoNotifyOne(s, t, w, h2), t)
  {
    PcMove(s, DoNotifyOne(s, t, w, h2), t);
  }

  lemma NotifyOneOwn(s: State, t: Tid, w: WaiterId, h2: HandleId)
    requires t in s.threads && ThreadInv(s, t) && CanNotifyOne(s, t, w, h2)
    requires s.threads[t].to.Some? ==> s.handles[s.threads[t].to.value] !in s.claims
    ensures ThreadInv(DoNotifyOne(s, t, w, h2), t)
  {}

  lemma NotifyOneStep(s: State, t: Tid, w: WaiterId, h2: HandleId)
    requires Pre(s, t) && CanNotifyOne(s, t, w, h2)
    ensures Good(s, DoNotifyOne(s, t, w, h2), t)
  {
    if s.threads[t].to.Some? {
      HandleNotClaimed(s, s.threads[t].to.value);
      NotifyOneHit(s, t, w, h2);
    } else {
      NotifyOneMiss(s, t, w, h2);
    }
    NotifyOneOwn(s, t, w, h2);
  }

  lemma NotifyDoneSafe(s: State, t: Tid)
    requires Pre(s, t) && CanNotifyDone(s, t)
    ensures Safe(s, DoNotifyDone(s, t), t)
  {
    PcMove(s, DoNotifyDone(s, t), t);
  }

  lemma NotifyDoneOwn(s: State, t: Tid)
    requires t in s.threads && ThreadInv(s, t) && CanNotifyDone(s, t)
    ensures var s' := DoNotifyDone(s, t); (t in s'.threads ==> ThreadInv(s', t)) && Quiet(s, s', t)
  {}

  lemma NotifyDoneStep(s: State, t: Tid)
    requires Pre(s, t) && CanNotifyDone(s, t)
    ensures Good(s, DoNotifyDone(s, t), t)
    ensures Quiet(s, DoNotifyDone(s, t), t)
  {
    NotifyDoneSafe(s, t);
    NotifyDoneOwn(s, t);
  }
}
