/** The invariant holds in every state of every run. */
module ProtocolProof {
  import opened Options
  import opened Protocol
  import opened ProtocolInv
  import opened ProtocolSteps

  // ---- a step leaves the other threads where they were

  lemma OthersKeepFind(s: State, s': State, t: Tid, t': Tid)
    requires DataInv(s) && Guarantee(s, s', t) && t != t' && t' in s.threads && PcOk(s, t', s.threads[t'])
    requires s.threads[t'].Look? && s.threads[t'].goal.ForFind?
    ensures PcOk(s', t', s.threads[t'])
  {
    var i := s.threads[t'].li;
    assert HoldsShared(s, s.threads[t'], s.items[i].key);
    assert KeepsItem(s, s', t, i) && KeepsKey(s, s', t, s.items[i].key) && ItemInv(s, i);
  }

  lemma OthersKeepPublished(s: State, s': State, t: Tid, t': Tid, h: HandleId)
    requires DataInv(s) && Guarantee(s, s', t) && t != t' && t' in s.threads
    requires Uses(s, s.threads[t'], h) && Holds(s, h) && Publishes(s, t', s.handles[h])
    ensures Holds(s', h) && s'.handles[h] == s.handles[h] && Publishes(s', t', s.handles[h])
    ensures It(s', h).key == It(s, h).key
  {
    assert KeepsHandle(s, s', t, h) && HandleInv(s, h) && KeepsItem(s, s', t, s.handles[h]);
  }

  lemma OthersKeepPending(s: State, s': State, t: Tid, t': Tid, h: HandleId, p: ItemId)
    requires DataInv(s) && Guarantee(s, s', t) && t != t' && t' in s.threads && PendOk(s, t', h, p)
    requires Uses(s, s.threads[t'], h)
    ensures PendOk(s', t', h, p) && (p in s.claims ==> p in s'.claims)
  {
    OthersKeepPublished(s, s', t, t', h);
    assert KeyInv(s, s.items[p].key) && KeepsKey(s, s', t, s.items[p].key) && ItemInv(s, p) && KeepsItem(s, s', t, p);
  }

  lemma OthersKeepSwap(s: State, s': State, t: Tid, t': Tid)
    requires DataInv(s) && Guarantee(s, s', t) && t != t' && t' in s.threads && ThreadInv(s, t')
    requires s.threads[t'].Swap?
    ensures PcOk(s', t', s.threads[t'])
  {
    var pc := s.threads[t'];
    OthersKeepPending(s, s', t, t', pc.sh, pc.sprev);
    if pc.got.GotHandle? { assert KeepsHandle(s, s', t, pc.got.gr); }
    if pc.got.GotWait? { assert KeepsWaiter(s, s', t, pc.got.gw); }
  }

  lemma OthersKeepClaim(s: State, s': State, t: Tid, t': Tid)
    requires DataInv(s) && Guarantee(s, s', t) && t != t' && t' in s.threads && ThreadInv(s, t')
    requires s.threads[t'].Claim?
    ensures PcOk(s', t', s.threads[t'])
  {
    var pc := s.threads[t'];
    assert KeepsItem(s, s', t, pc.ci);
    if HasDest(pc.cstage) { OthersKeepPublished(s, s', t, t', pc.to.value); }
    forall w | w in pc.ws ensures w in s'.waiters && s'.waiters[w] == Held(t') { assert KeepsWaiter(s, s', t, w); }
  }

  lemma OthersKeepPc(s: State, s': State, t: Tid, t': Tid)
    requires DataInv(s) && Guarantee(s, s', t) && t != t' && t' in s.threads && ThreadInv(s, t')
    ensures PcOk(s', t', s.threads[t'])
  {
    match s.threads[t']
    case Look(_, i, ForFind) => OthersKeepFind(s, s', t, t');
    case Look(_, i, ForReplace(h)) => OthersKeepPending(s, s', t, t', h, i);
    case Swap(h, p, got) => OthersKeepSwap(s, s', t, t');
    case Publish(_, h) => OthersKeepPublished(s, s', t, t', h);
    case Blocked(h, w) => assert KeepsWaiter(s, s', t, w);
    case Claim(_, _, _, _, _) => OthersKeepClaim(s, s', t, t');
    case Unlink(_, _) =>
    case Rpl(_, _, _) =>
  }

  lemma OthersKeepThread(s: State, s': State, t: Tid, t': Tid)
    requires DataInv(s) && Guarantee(s, s', t) && t != t' && t' in s.threads && ThreadInv(s, t')
    ensures t' in s'.threads && ThreadInv(s', t')
  {
    assert KeepsThread(s, s', t');
    OthersKeepPc(s, s', t, t');
    var pc := s.threads[t'];
    if pc.Blocked? { assert KeepsWaiter(s, s', t, pc.bw); }
    if pc.Swap? && pc.got.GotWait? { assert KeepsWaiter(s, s', t, pc.got.gw); }
    forall h | Uses(s', pc, h) ensures h in s'.handles {
      if Uses(s, pc, h) { assert KeepsHandle(s, s', t, h); }
    }
  }

  lemma KeepsThreads(s: State, s': State, t: Tid)
    requires DataInv(s) && ThreadsInv(s) && Good(s, s', t)
    ensures ThreadsInv(s')
  {
    forall t' | t' in s'.threads ensures ThreadInv(s', t') {
      if t' != t {
        assert KeepsThread(s, s', t') && ThreadInv(s, t');
        OthersKeepThread(s, s', t, t');
      }
    }
  }

  // ---- waiters

  lemma MoverStays(s: State, s': State, t: Tid, i: ItemId, k: Key)
    requires DataInv(s) && Good(s, s', t) && KeepsDuty(s, s', t) && IsMoverOf(s, i, k)
    ensures IsMoverOf(s', i, k)
  {
    assert KeepsItem(s, s', t, i) && ItemInv(s, i);
    if s.claims[i] != t { assert KeepsThread(s, s', s.claims[i]); }
  }

  lemma KeepsEntry(s: State, s': State, t: Tid, k: Key)
    requires Inv(s) && Good(s, s', t) && KeepsDuty(s, s', t)
    requires k in s.waits && k in s'.waits && s'.waits[k] == s.waits[k]
    requires forall w | w in s.waits[k] && w in s.waiters && s.waiters[w] == Queued(k) :: w in s'.waiters && s'.waiters[w] == Queued(k)
    ensures EntryInv(s', k)
  {
    assert EntryInv(s, k);
    var i :| IsMoverOf(s, i, k);
    MoverStays(s, s', t, i, k);
  }

  lemma KeepsHeld(s: State, s': State, t: Tid, w: WaiterId)
    requires Inv(s) && Good(s, s', t) && KeepsDuty(s, s', t)
    requires w in s.waiters && w in s'.waiters && s'.waiters[w] == s.waiters[w] && s'.waits == s.waits
    ensures WaiterInv(s', w)
  {
    assert WaiterInv(s, w);
    if s.waiters[w].Held? {
      assert ThreadInv(s, s.waiters[w].wt);
      if s.waiters[w].wt != t { assert KeepsThread(s, s', s.waiters[w].wt); }
    }
  }

  /** Steps that do not touch the wait map. */
  lemma QuietWait(s: State, s': State, t: Tid)
    requires Inv(s) && Good(s, s', t) && Quiet(s, s', t)
    ensures WaitInv(s')
  {
    forall w | w in s'.waiters ensures WaiterInv(s', w) { KeepsHeld(s, s', t, w); }
    forall k | k in s'.waits ensures EntryInv(s', k) { KeepsEntry(s, s', t, k); }
  }

  /** A moving item has a mover that owes its waiters a wake-up. */
  lemma MovingHasMover(s: State, i: ItemId)
    requires Inv(s) && i in s.items && s.items[i].IsMoving()
    ensures IsMoverOf(s, i, s.items[i].key)
  {
    assert ItemInv(s, i) && ThreadInv(s, s.claims[i]);
  }

  lemma WaitQueueEntry(s: State, t: Tid, w: WaiterId, k: Key)
    requires Inv(s) && CanWaitQueue(s, t, w) && Good(s, DoWaitQueue(s, t, w), t) && k in DoWaitQueue(s, t, w).waits
    ensures EntryInv(DoWaitQueue(s, t, w), k)
  {
    var s' := DoWaitQueue(s, t, w);
    var i := s.threads[t].li;
    if k in s.waits { assert EntryInv(s, k); }
    if k == s.items[i].key {
      MovingHasMover(s, i);
      MoverStays(s, s', t, i, k);
    } else {
      KeepsEntry(s, s', t, k);
    }
  }

  lemma WaitQueueWait(s: State, t: Tid, w: WaiterId)
    requires Inv(s) && CanWaitQueue(s, t, w) && Good(s, DoWaitQueue(s, t, w), t)
    ensures WaitInv(DoWaitQueue(s, t, w))
  {
    var s' := DoWaitQueue(s, t, w);
    forall k | k in s'.waits ensures EntryInv(s', k) { WaitQueueEntry(s, t, w, k); }
    forall v | v in s'.waiters ensures WaiterInv(s', v) {
      if v != w {
        assert WaiterInv(s, v);
        if s.waiters[v].Held? && s.waiters[v].wt != t { assert KeepsThread(s, s', s.waiters[v].wt); }
      }
    }
  }

  lemma WakeTakeWait(s: State, t: Tid)
    requires Inv(s) && CanWakeTake(s, t) && Good(s, DoWakeTake(s, t), t)
    ensures WaitInv(DoWakeTake(s, t))
  {
    var s' := DoWakeTake(s, t);
    var k := s.items[s.threads[t].ci].key;
    assert ThreadInv(s, t);
    forall k' | k' in s'.waits ensures EntryInv(s', k') {
      assert EntryInv(s, k');
      if k in s.waits { assert EntryInv(s, k); }
      var i :| IsMoverOf(s, i, k');
      assert KeepsItem(s, s', t, i) && ItemInv(s, i);
      if s.claims[i] != t { assert KeepsThread(s, s', s.claims[i]); }
      assert IsMoverOf(s', i, k');
    }
    forall w | w in s'.waiters ensures WaiterInv(s', w) {
      assert WaiterInv(s, w);
      if s.waiters[w].Held? && s.waiters[w].wt != t { assert KeepsThread(s, s', s.waiters[w].wt); }
    }
  }

  lemma NotifyOneEntry(s: State, s': State, t: Tid, k: Key)
    requires Inv(s) && Good(s, s', t) && k in s.waits && s'.waits == s.waits && t in s.threads && s.threads[t].Claim?
    requires s.threads[t].cstage == Notifying
    requires forall w | w in s.waiters && s.waiters[w].Queued? :: w in s'.waiters && s'.waiters[w] == s.waiters[w]
    ensures EntryInv(s', k)
  {
    assert EntryInv(s, k);
    var i :| IsMoverOf(s, i, k);
    assert KeepsItem(s, s', t, i) && ItemInv(s, i) && KeepsThread(s, s', s.claims[i]);
    assert IsMoverOf(s', i, k);
  }

  lemma NotifyOneWait(s: State, t: Tid, w: WaiterId, h2: HandleId)
    requires Inv(s) && CanNotifyOne(s, t, w, h2) && Good(s, DoNotifyOne(s, t, w, h2), t)
    ensures WaitInv(DoNotifyOne(s, t, w, h2))
  {
    var s' := DoNotifyOne(s, t, w, h2);
    assert ThreadInv(s, t);
    forall k | k in s'.waits ensures EntryInv(s', k) { NotifyOneEntry(s, s', t, k); }
    forall v | v in s'.waiters ensures WaiterInv(s', v) { if v != w { NotifyOneWaiter(s, s', t, w, v); } }
  }

  lemma NotifyOneWaiter(s: State, s': State, t: Tid, w: WaiterId, v: WaiterId)
    requires Inv(s) && Good(s, s', t) && v in s.waiters && v in s'.waiters && s'.waiters[v] == s.waiters[v] && v != w
    requires t in s.threads && s.threads[t].Claim? && s'.waits == s.waits
    requires t in s'.threads && s'.threads[t] == s.threads[t].(ws := s.threads[t].ws - {w})
    ensures WaiterInv(s', v)
  {
    assert WaiterInv(s, v);
    if s.waiters[v].Held? && s.waiters[v].wt != t { assert KeepsThread(s, s', s.waiters[v].wt); }
  }

  // ---- every step

  lemma AcqOkUnclaimed(s: State, t: Tid, h: HandleId)
    requires Inv(s) && CanAcqOk(s, t, h)
    ensures s.threads[t].li !in s.claims
  {
    assert ThreadInv(s, t);
    AcquiredItem(s, t);
    var i := s.threads[t].li;
    if i in s.claims { ClaimedState(s, i); }
  }

  lemma HandleGood(s: State, t: Tid, op: HandleOp, s': State)
    requires Inv(s) && HandleStep(s, t, op, s')
    ensures Good(s, s', t)
    ensures Quiet(s, s', t)
  {
    match op
    case Alloc(n, h, k) => AllocStep(s, t, n, h, k);
    case Clone(h, h2) => CloneStep(s, t, h, h2);
    case Drop(h) => DropStep(s, t, h);
  }

  lemma HandleKeepsInv(s: State, t: Tid, op: HandleOp, s': State)
    requires Inv(s) && HandleStep(s, t, op, s')
    ensures Inv(s')
  {
    HandleGood(s, t, op, s');
    KeepsThreads(s, s', t);
    QuietWait(s, s', t);
  }

  lemma LookupGood(s: State, t: Tid, op: LookupOp, s': State)
    requires Inv(s) && LookupStep(s, t, op, s')
    ensures Good(s, s', t)
    ensures !op.WaitQueue? ==> Quiet(s, s', t)
  {
    if t in s.threads { assert ThreadInv(s, t); }
    match op
    case FindHit(k) => FindHitStep(s, t, k);
    case AcqOk(h) => AcqOkUnclaimed(s, t, h); AcqOkStep(s, t, h);
    case AcqEvicted => AcqEvictedStep(s, t);
    case AcqMoving => AcqMovingStep(s, t);
    case WaitQueue(w) => WaitQueueStep(s, t, w);
    case WaitRetry => WaitRetryStep(s, t);
  }

  lemma LookupKeepsInv(s: State, t: Tid, op: LookupOp, s': State)
    requires Inv(s) && LookupStep(s, t, op, s')
    ensures Inv(s')
  {
    LookupGood(s, t, op, s');
    KeepsThreads(s, s', t);
    match op
    case WaitQueue(w) => WaitQueueWait(s, t, w);
    case _ => QuietWait(s, s', t);
  }

  lemma InsertGood(s: State, t: Tid, op: InsertOp, s': State)
    requires Inv(s) && InsertStep(s, t, op, s') && OnePublisher(s, Action(t, OnInsert(op)))
    ensures Good(s, s', t)
    ensures Quiet(s, s', t)
  {
    if t in s.threads { assert ThreadInv(s, t); }
    match op
    case PubAdd(h, replace) => PubAddStep(s, t, h, replace);
    case InsTable => InsTableStep(s, t);
    case InsTakeBack => InsTakeBackStep(s, t);
    case IorTable => IorTableStep(s, t);
    case IorSwapFlags => IorSwapFlagsStep(s, t);
    case IorResume => IorResumeStep(s, t);
    case RemTable(h) => RemTableStep(s, t, h);
    case UnlinkMM => UnlinkMMStep(s, t);
  }

  lemma InsertKeepsInv(s: State, t: Tid, op: InsertOp, s': State)
    requires Inv(s) && InsertStep(s, t, op, s') && OnePublisher(s, Action(t, OnInsert(op)))
    ensures Inv(s')
  {
    InsertGood(s, t, op, s');
    KeepsThreads(s, s', t);
    QuietWait(s, s', t);
  }

  lemma ReplaceGood(s: State, t: Tid, op: ReplaceOp, s': State)
    requires Inv(s) && ReplaceStep(s, t, op, s') && OnePublisher(s, Action(t, OnReplace(op)))
    ensures Good(s, s', t)
    ensures Quiet(s, s', t)
  {
    if t in s.threads { assert ThreadInv(s, t); }
    match op
    case RplTable(o, n) => RplTableStep(s, t, o, n);
    case RplMM => RplMMStep(s, t);
    case RplMMRemove => RplMMRemoveStep(s, t);
    case RplMMAdd => RplMMAddStep(s, t);
    case RplTakeBack => RplTakeBackStep(s, t);
    case RplLast => RplLastStep(s, t);
  }

  lemma ReplaceKeepsInv(s: State, t: Tid, op: ReplaceOp, s': State)
    requires Inv(s) && ReplaceStep(s, t, op, s') && OnePublisher(s, Action(t, OnReplace(op)))
    ensures Inv(s')
  {
    ReplaceGood(s, t, op, s');
    KeepsThreads(s, s', t);
    QuietWait(s, s', t);
  }

  lemma EvictGood(s: State, t: Tid, op: EvictOp, s': State)
    requires Inv(s) && EvictStep(s, t, op, s')
    ensures Good(s, s', t)
    ensures Quiet(s, s', t)
  {
    if t in s.threads { assert ThreadInv(s, t); }
    match op
    case EvMark(i) => MarkableUnclaimed(s, i); EvMarkStep(s, t, i);
    case OwnOffMM => OwnOffMMStep(s, t);
    case OwnOffTable => OwnOffTableStep(s, t);
    case EvUnmark => EvUnmarkStep(s, t);
    case Free => FreeStep(s, t);
  }

  lemma EvictKeepsInv(s: State, t: Tid, op: EvictOp, s': State)
    requires Inv(s) && EvictStep(s, t, op, s')
    ensures Inv(s')
  {
    EvictGood(s, t, op, s');
    KeepsThreads(s, s', t);
    QuietWait(s, s', t);
  }

  lemma MoveGood(s: State, t: Tid, op: MoveOp, s': State)
    requires Inv(s) && MoveStep(s, t, op, s')
    ensures Good(s, s', t)
    ensures Quiet(s, s', t)
  {
    if t in s.threads { assert ThreadInv(s, t); }
    match op
    case MvMark(i) => MarkableUnclaimed(s, i); MvMarkStep(s, t, i);
    case MvAlloc(n, h) => MvAllocStep(s, t, n, h);
    case MvExpired => MvExpiredStep(s, t);
    case MvAdd => MvAddStep(s, t);
    case MvTable => MvTableStep(s, t);
    case MvTakeBack => MvTakeBackStep(s, t);
    case MvGiveUp => MvGiveUpStep(s, t);
    case MvUnmark => MvUnmarkStep(s, t);
  }

  lemma MoveKeepsInv(s: State, t: Tid, op: MoveOp, s': State)
    requires Inv(s) && MoveStep(s, t, op, s')
    ensures Inv(s')
  {
    MoveGood(s, t, op, s');
    KeepsThreads(s, s', t);
    QuietWait(s, s', t);
  }

  lemma WakeGood(s: State, t: Tid, op: WakeOp, s': State)
    requires Inv(s) && WakeStep(s, t, op, s')
    ensures Good(s, s', t)
    ensures !op.WakeTake? && !op.NotifyOne? ==> Quiet(s, s', t)
  {
    if t in s.threads { assert ThreadInv(s, t); }
    match op
    case WakeTake => WakeTakeStep(s, t);
    case NotifyOne(w, h2) => NotifyOneStep(s, t, w, h2);
    case NotifyDone => NotifyDoneStep(s, t);
  }

  lemma WakeKeepsInv(s: State, t: Tid, op: WakeOp, s': State)
    requires Inv(s) && WakeStep(s, t, op, s')
    ensures Inv(s')
  {
    WakeGood(s, t, op, s');
    KeepsThreads(s, s', t);
    match op
    case WakeTake => WakeTakeWait(s, t);
    case NotifyOne(w, h2) => NotifyOneWait(s, t, w, h2);
    case _ => QuietWait(s, s', t);
  }

  lemma StepGood(s: State, a: Action, s': State)
    requires Inv(s) && Step(s, a, s') && OnePublisher(s, a)
    ensures Good(s, s', a.t)
  {
    match a.op
    case OnHandle(op) => HandleGood(s, a.t, op, s');
    case OnLookup(op) => LookupGood(s, a.t, op, s');
    case OnInsert(op) => InsertGood(s, a.t, op, s');
    case OnReplace(op) => ReplaceGood(s, a.t, op, s');
    case OnEvict(op) => EvictGood(s, a.t, op, s');
    case OnMove(op) => MoveGood(s, a.t, op, s');
    case OnWake(op) => WakeGood(s, a.t, op, s');
  }

  lemma InvStep(s: State, a: Action, s': State)
    requires Inv(s) && Step(s, a, s') && OnePublisher(s, a)
    ensures Inv(s')
  {
    match a.op
    case OnHandle(op) => HandleKeepsInv(s, a.t, op, s');
    case OnLookup(op) => LookupKeepsInv(s, a.t, op, s');
    case OnInsert(op) => InsertKeepsInv(s, a.t, op, s');
    case OnReplace(op) => ReplaceKeepsInv(s, a.t, op, s');
    case OnEvict(op) => EvictKeepsInv(s, a.t, op, s');
    case OnMove(op) => MoveKeepsInv(s, a.t, op, s');
    case OnWake(op) => WakeKeepsInv(s, a.t, op, s');
  }

  /** The invariant holds in every state of every run in which no item has two publishers at a time. */
  lemma {:induction false} InvRun(ss: seq<State>, r: Rules, j: nat)
    requires IsRun(ss, r) && r.onePublisher && j < |ss|
    ensures Inv(ss[j])
  {
    if j > 0 {
      InvRun(ss, r, j - 1);
      assert IsStep(ss[j - 1], ss[j - 1 + 1], r);
      var a :| Allowed(r, ss[j - 1], a) && Step(ss[j - 1], a, ss[j]);
      InvStep(ss[j - 1], a, ss[j]);
    }
  }
}
