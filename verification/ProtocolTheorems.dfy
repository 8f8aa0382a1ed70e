/** What the invariant means for the users of the cache. */
module ProtocolTheorems {
  import opened Options
  import opened Protocol
  import opened ProtocolInv
  import opened ProtocolMoves
  import opened ProtocolSteps
  import opened ProtocolProof

  // ---- memory is given back safely, and always given back

  /** A thread at `pc` has a pointer to item `i`, as the node it is acquiring or replacing, as its
      claim, or through a handle. */
  ghost predicate Touches(s: State, pc: PC, i: ItemId) {
    || (pc.Look? && pc.li == i)
    || (pc.Swap? && pc.sprev == i)
    || (pc.Claim? && pc.ci == i)
    || exists h :: Uses(s, pc, h) && h in s.handles && s.handles[h] == i
  }

  /** Nothing but thread `t` refers to item `i` any more. */
  ghost predicate Unreachable(s: State, t: Tid, i: ItemId) {
    && i in s.items && s.items[i].IsDrained()
    && (forall h | h in s.handles :: s.handles[h] != i)
    && (forall k | k in s.table :: s.table[k] != i)
    && (forall t' | t' in s.threads && t' != t :: !Touches(s, s.threads[t'], i))
  }

  lemma UntouchedByOthers(s: State, t: Tid, t': Tid)
    requires Inv(s) && CanFree(s, t) && t' in s.threads && t' != t
    ensures !Touches(s, s.threads[t'], s.threads[t].ci)
  {
    var i := s.threads[t].ci;
    assert ThreadInv(s, t) && ThreadInv(s, t');
    FreeUnreferenced(s, i);
    forall h | h in s.handles ensures s.handles[h] != i { assert HandleInv(s, h); }
    var pc := s.threads[t'];
    if pc.Swap? { assert ItemInv(s, pc.sprev); }
    if pc.Look? { AcquiredItem(s, t'); }
  }

  /** Property: whenever memory is freed, no handle refers to it, no thread is acquiring or replacing
      it, and it is in neither container. */
  lemma FreeSafety(s: State, t: Tid)
    requires Inv(s) && CanFree(s, t)
    ensures Unreachable(s, t, s.threads[t].ci)
  {
    var i := s.threads[t].ci;
    assert ThreadInv(s, t);
    FreeUnreferenced(s, i);
    forall h | h in s.handles ensures s.handles[h] != i { assert HandleInv(s, h); }
    forall t' | t' in s.threads && t' != t ensures !Touches(s, s.threads[t'], i) { UntouchedByOthers(s, t, t'); }
  }

  /** The same over whole runs. */
  lemma FreeSafetyRun(ss: seq<State>, r: Rules, j: nat, t: Tid)
    requires IsRun(ss, r) && r.onePublisher && j < |ss| && CanFree(ss[j], t)
    ensures Unreachable(ss[j], t, ss[j].threads[t].ci)
  {
    InvRun(ss, r, j);
    FreeSafety(ss[j], t);
  }

  /** The reference count is exact: one per handle, and the internal one of a mover. */
  lemma RefcountExact(s: State, i: ItemId)
    requires Inv(s) && i in s.items
    ensures s.items[i].ref == |HandlesOf(s, i)| + (if s.items[i].IsMoving() then 1 else 0)
  {
    assert ItemInv(s, i);
    if i in s.claims {
      assert ThreadInv(s, s.claims[i]);
      forall h | h in s.handles ensures s.handles[h] != i { assert HandleInv(s, h); }
      assert HandlesOf(s, i) == {};
    }
  }

  /** Nothing leaks: an item that nothing keeps alive is in the hands of exactly one thread, which
      is past every step that could fail. */
  lemma NoLeak(s: State, i: ItemId)
    requires Inv(s) && i in s.items && s.items[i].IsDrained()
    ensures exists t :: t in s.threads && s.threads[t].Claim? && s.threads[t].ci == i && IsDrainedStage(s.threads[t].cstage)
    ensures forall t, t' | t in s.threads && s.threads[t].Claim? && s.threads[t].ci == i &&
              t' in s.threads && s.threads[t'].Claim? && s.threads[t'].ci == i :: t == t'
  {
    assert ItemInv(s, i);
    assert ThreadInv(s, s.claims[i]);
    forall t | t in s.threads && s.threads[t].Claim? && s.threads[t].ci == i ensures t == s.claims[i] {
      assert ThreadInv(s, t);
    }
  }

  // ---- waiters

  predicate IsPending(s: State, w: WaiterId) { w in s.waiters && !s.waiters[w].Ready? }

  /** Thread `t` is bound to set waiter `w`: it has it in its hands, or it moves an item with the key
      that `w` is queued on and has not taken the wait entry yet. */
  predicate BoundToSet(s: State, t: Tid, w: WaiterId) {
    && w in s.waiters && t in s.threads && s.threads[t].Claim?
    && (|| w in s.threads[t].ws
        || (OwesWakeUp(s.threads[t]) && Live(s, s.threads[t].ci) && s.waiters[w] == Queued(s.items[s.threads[t].ci].key)))
  }

  /** No wake-up is lost: some thread in flight is bound to set every waiter that is not set yet. */
  lemma NoLostWakeUp(s: State, w: WaiterId)
    requires Inv(s) && IsPending(s, w)
    ensures exists t :: BoundToSet(s, t, w)
  {
    assert WaiterInv(s, w);
    match s.waiters[w]
    case Queued(k) =>
      assert EntryInv(s, k);
      var i :| IsMoverOf(s, i, k);
      assert ItemInv(s, i);
      assert BoundToSet(s, s.claims[i], w);
    case Held(t) => assert BoundToSet(s, t, w);
  }

  /** A bound on the steps of a mover until it has taken the waiters of its key. */
  function StagesLeft(c: ClaimStage): nat {
    match c
    case Move => 9
    case MoveNew => 8
    case MoveAdded => 7
    case MoveUndo => 6
    case MoveTried | Evict => 5
    case Unlink0 => 4
    case Unlink1 | MoveSwapped => 3
    case Unlink2 | MoveOffMM => 2
    case Waking => 1
    case Notifying | Freeing => 0
  }

  /** From `pc` to `pc'` the mover has come nearer to setting its waiters. */
  predicate Nearer(pc: PC, pc': PC)
    requires pc.Claim? && pc'.Claim?
  {
    || StagesLeft(pc'.cstage) < StagesLeft(pc.cstage)
    || (pc'.cstage == pc.cstage == Notifying && |pc'.ws| < |pc.ws|)
  }

  lemma OwnStepEvict(s: State, t: Tid, op: EvictOp, s': State, w: WaiterId)
    requires Inv(s) && BoundToSet(s, t, w) && EvictStep(s, t, op, s')
    ensures BoundToSet(s', t, w) && Nearer(s.threads[t], s'.threads[t])
  {
    assert ThreadInv(s, t);
  }

  lemma OwnStepDestination(s: State, t: Tid, op: MoveOp, s': State, w: WaiterId)
    requires Inv(s) && BoundToSet(s, t, w) && MoveStep(s, t, op, s') && (op.MvAlloc? || op.MvExpired? || op.MvAdd? || op.MvTakeBack?)
    ensures BoundToSet(s', t, w) && Nearer(s.threads[t], s'.threads[t])
  {
    assert ThreadInv(s, t);
  }

  lemma OwnStepTable(s: State, t: Tid, s': State, w: WaiterId)
    requires Inv(s) && BoundToSet(s, t, w) && MoveStep(s, t, MvTable, s')
    ensures BoundToSet(s', t, w) && Nearer(s.threads[t], s'.threads[t])
  {
    assert ThreadInv(s, t);
  }

  lemma OwnStepMove(s: State, t: Tid, op: MoveOp, s': State, w: WaiterId)
    requires Inv(s) && BoundToSet(s, t, w) && MoveStep(s, t, op, s')
    ensures BoundToSet(s', t, w) && Nearer(s.threads[t], s'.threads[t])
  {
    match op
    case MvTable => OwnStepTable(s, t, s', w);
    case MvAlloc(_, _) | MvExpired | MvAdd | MvTakeBack => OwnStepDestination(s, t, op, s', w);
    case MvGiveUp | MvUnmark => assert ThreadInv(s, t);
    case MvMark(_) =>
  }

  lemma OwnStepWake(s: State, t: Tid, op: WakeOp, s': State, w: WaiterId)
    requires Inv(s) && BoundToSet(s, t, w) && WakeStep(s, t, op, s')
    ensures w in s'.waiters && (s'.waiters[w].Ready? || (BoundToSet(s', t, w) && Nearer(s.threads[t], s'.threads[t])))
  {
    match op
    case WakeTake => OwnStepTake(s, t, w);
    case NotifyOne(v, h2) => if v != w { OwnStepNotify(s, t, v, h2, w); }
    case NotifyDone =>
  }

  lemma OwnStepNotify(s: State, t: Tid, v: WaiterId, h2: HandleId, w: WaiterId)
    requires BoundToSet(s, t, w) && CanNotifyOne(s, t, v, h2) && v != w
    ensures var s' := DoNotifyOne(s, t, v, h2); BoundToSet(s', t, w) && Nearer(s.threads[t], s'.threads[t])
  {}

  lemma OwnStepTake(s: State, t: Tid, w: WaiterId)
    requires Inv(s) && BoundToSet(s, t, w) && CanWakeTake(s, t)
    ensures BoundToSet(DoWakeTake(s, t), t, w) && Nearer(s.threads[t], DoWakeTake(s, t).threads[t])
  {
    assert ThreadInv(s, t) && WaiterInv(s, w);
  }

  /** Property: every step of a thread that is bound to set a waiter sets it or brings the thread strictly nearer:
      after at most nine steps of its own it has the waiter in hand, and then every step sets one of those in hand. */
  lemma WakeUpProgress(s: State, a: Action, s': State, w: WaiterId)
    requires Inv(s) && BoundToSet(s, a.t, w) && Step(s, a, s')
    ensures w in s'.waiters && (s'.waiters[w].Ready? || (BoundToSet(s', a.t, w) && Nearer(s.threads[a.t], s'.threads[a.t])))
  {
    match a.op
    case OnEvict(op) => OwnStepEvict(s, a.t, op, s', w);
    case OnMove(op) => OwnStepMove(s, a.t, op, s', w);
    case OnWake(op) => OwnStepWake(s, a.t, op, s', w);
    case OnHandle(op) => NotOwnHandle(s, a.t, op, s');
    case OnLookup(op) => NotOwnLookup(s, a.t, op, s');
    case OnInsert(op) => NotOwnInsert(s, a.t, op, s');
    case OnReplace(op) => NotOwnReplace(s, a.t, op, s');
  }

  lemma NotOwnHandle(s: State, t: Tid, op: HandleOp, s': State)
    requires t in s.threads && s.threads[t].Claim?
    ensures !HandleStep(s, t, op, s')
  {}

  lemma NotOwnLookup(s: State, t: Tid, op: LookupOp, s': State)
    requires t in s.threads && s.threads[t].Claim?
    ensures !LookupStep(s, t, op, s')
  {}

  lemma NotOwnInsert(s: State, t: Tid, op: InsertOp, s': State)
    requires t in s.threads && s.threads[t].Claim?
    ensures !InsertStep(s, t, op, s')
  {}

  lemma NotOwnReplace(s: State, t: Tid, op: ReplaceOp, s': State)
    requires t in s.threads && s.threads[t].Claim?
    ensures !ReplaceStep(s, t, op, s')
  {}

  /** Waiter `w` is in the wait entry of `k`. */
  predicate InEntry(s: State, w: WaiterId, k: Key) { k in s.waits && w in s.waits[k] }

  /** Waiter `w` is in the hands of thread `t`. */
  predicate InHands(s: State, w: WaiterId, t: Tid) { t in s.threads && s.threads[t].Claim? && w in s.threads[t].ws }

  /** A waiter is in one wait entry, in the hands of one notifier, or set: never in two places. */
  lemma WaiterInOnePlace(s: State, w: WaiterId, k: Key, k': Key, t: Tid, t': Tid)
    requires Inv(s)
    ensures !(InEntry(s, w, k) && InHands(s, w, t))
    ensures InEntry(s, w, k) && InEntry(s, w, k') ==> k == k'
    ensures InHands(s, w, t) && InHands(s, w, t') ==> t == t'
    ensures InEntry(s, w, k) || InHands(s, w, t) ==> IsPending(s, w)
  {
    if InEntry(s, w, k) { assert EntryInv(s, k); }
    if InEntry(s, w, k') { assert EntryInv(s, k'); }
    if InHands(s, w, t) { assert ThreadInv(s, t); }
    if InHands(s, w, t') { assert ThreadInv(s, t'); }
  }

  /** A waiter that is set stays set to the same handle for the rest of the run: it is set once. */
  lemma {:induction false} SetOnce(ss: seq<State>, r: Rules, j: nat, m: nat, w: WaiterId)
    requires IsRun(ss, r) && r.onePublisher && j <= m < |ss| && w in ss[j].waiters && ss[j].waiters[w].Ready?
    ensures w in ss[m].waiters && ss[m].waiters[w] == ss[j].waiters[w]
  {
    if j < m {
      SetOnce(ss, r, j, m - 1, w);
      InvRun(ss, r, m - 1);
      assert IsStep(ss[m - 1], ss[m - 1 + 1], r);
      var a :| Allowed(r, ss[m - 1], a) && Step(ss[m - 1], a, ss[m]);
      StepGood(ss[m - 1], a, ss[m]);
      assert KeepsWaiter(ss[m - 1], ss[m], a.t, w);
    }
  }

  /** A wait entry exists only while an item with that key is moving, or its mover has cleared the
      mark and has not erased the entry yet. */
  lemma EntryOnlyWhileMoving(s: State, k: Key)
    requires Inv(s) && k in s.waits
    ensures exists i :: i in s.items && s.items[i].key == k && i in s.claims && s.claims[i] in s.threads
                        && s.threads[s.claims[i]].Claim? && s.threads[s.claims[i]].mover
                        && (s.items[i].IsMoving() || s.items[i].IsMarkedForEviction() || s.threads[s.claims[i]].cstage == Waking)
  {
    assert EntryInv(s, k);
    var i :| IsMoverOf(s, i, k);
    assert ItemInv(s, i) && ThreadInv(s, s.claims[i]);
  }

  // ---- no deadlock

  /** Thread `t` has a step it can take. */
  ghost predicate CanGoOn(s: State, t: Tid) { exists op, s' :: Step(s, Action(t, op), s') }

  lemma {:induction false} UnusedId(ids: set<nat>) returns (n: nat)
    ensures forall m | m in ids :: m < n
  {
    if ids == {} { return 0; }
    var x :| x in ids;
    var y := UnusedId(ids - {x});
    n := if x < y then y else x + 1;
    forall m | m in ids ensures m < n { assert m == x || m in ids - {x}; }
  }

  lemma LookGoesOn(s: State, t: Tid)
    requires Inv(s) && t in s.threads && s.threads[t].Look?
    ensures CanGoOn(s, t)
  {
    assert ThreadInv(s, t);
    AcquiredItem(s, t);
    if s.threads[t].lstage == Acquire {
      var h := UnusedId(s.handles.Keys);
      assert CanAcqOk(s, t, h) || CanAcqEvicted(s, t) || CanAcqMoving(s, t);
      if CanAcqOk(s, t, h) { assert Step(s, Action(t, OnLookup(AcqOk(h))), DoAcqOk(s, t, h)); }
      if CanAcqEvicted(s, t) { assert Step(s, Action(t, OnLookup(AcqEvicted)), DoAcqEvicted(s, t)); }
      if CanAcqMoving(s, t) { assert Step(s, Action(t, OnLookup(AcqMoving)), DoAcqMoving(s, t)); }
    } else {
      var w := UnusedId(s.waiters.Keys);
      assert CanWaitQueue(s, t, w) || CanWaitRetry(s, t);
      if CanWaitQueue(s, t, w) { assert Step(s, Action(t, OnLookup(WaitQueue(w))), DoWaitQueue(s, t, w)); }
      if CanWaitRetry(s, t) { assert Step(s, Action(t, OnLookup(WaitRetry)), DoWaitRetry(s, t)); }
    }
  }

  lemma SwapGoesOn(s: State, t: Tid)
    requires Inv(s) && t in s.threads && s.threads[t].Swap?
    ensures CanGoOn(s, t)
  {
    assert ThreadInv(s, t);
    assert Step(s, Action(t, OnInsert(IorSwapFlags)), DoIorSwapFlags(s, t));
  }

  predicate HoldsLock(pc: PC) { pc.Look? || pc.Swap? }

  /** A bucket lock is held by a thread in the acquire loop or about to swap flags. */
  lemma LockHeldBySomeone(s: State, k: Key)
    requires Inv(s) && !LockFree(s, k)
    ensures exists t :: t in s.threads && HoldsLock(s.threads[t])
  {
    assert KeyInv(s, k);
    if k in s.locked { assert HoldsLock(s.threads[s.locked[k].holder]); }
  }

  lemma HandleHeld(s: State, t: Tid, h: HandleId)
    requires Inv(s) && t in s.threads && Uses(s, s.threads[t], h)
    ensures Holds(s, h) && !It(s, h).exclusive
  {
    assert ThreadInv(s, t);
    HandleNotClaimed(s, h);
  }

  lemma InsertGoesOn(s: State, t: Tid)
    requires Inv(s) && t in s.threads && (s.threads[t].Publish? || s.threads[t].Unlink?)
    requires forall k :: LockFree(s, k)
    ensures CanGoOn(s, t)
  {
    var pc := s.threads[t];
    if pc.Unlink? {
      HandleHeld(s, t, pc.ur);
      assert Step(s, Action(t, OnInsert(UnlinkMM)), DoUnlinkMM(s, t));
    } else {
      HandleHeld(s, t, pc.ph);
      match pc.pstage
      case Insert => assert Step(s, Action(t, OnInsert(InsTable)), DoInsTable(s, t));
      case TakeBack => assert Step(s, Action(t, OnInsert(InsTakeBack)), DoInsTakeBack(s, t));
      case InsertOrReplace => assert Step(s, Action(t, OnInsert(IorTable)), DoIorTable(s, t));
    }
  }

  lemma ReplaceGoesOn(s: State, t: Tid)
    requires Inv(s) && t in s.threads && s.threads[t].Rpl?
    requires forall k :: LockFree(s, k)
    ensures CanGoOn(s, t)
  {
    HandleHeld(s, t, s.threads[t].ro);
    HandleHeld(s, t, s.threads[t].rn);
    match s.threads[t].rstage
    case Swapped => assert Step(s, Action(t, OnReplace(RplMM)), DoRplMM(s, t));
    case Add => assert Step(s, Action(t, OnReplace(RplMMAdd)), DoRplMMAdd(s, t));
    case Undo => assert Step(s, Action(t, OnReplace(RplTakeBack)), DoRplTakeBack(s, t));
    case Check => assert Step(s, Action(t, OnReplace(RplLast)), DoRplLast(s, t));
  }

  lemma NotifyGoesOn(s: State, t: Tid)
    requires Inv(s) && t in s.threads && s.threads[t].Claim? && s.threads[t].cstage == Notifying
    ensures CanGoOn(s, t)
  {
    assert ThreadInv(s, t);
    var pc := s.threads[t];
    if pc.ws == {} {
      assert Step(s, Action(t, OnWake(NotifyDone)), DoNotifyDone(s, t));
    } else {
      var w :| w in pc.ws;
      var h2 := UnusedId(s.handles.Keys);
      if pc.to.Some? { HandleHeld(s, t, pc.to.value); }
      assert Step(s, Action(t, OnWake(NotifyOne(w, h2))), DoNotifyOne(s, t, w, h2));
    }
  }

  lemma UnlinkGoesOn(s: State, t: Tid)
    requires Inv(s) && t in s.threads && s.threads[t].Claim? && IsEvicting(s.threads[t].cstage)
    requires forall k :: LockFree(s, k)
    ensures CanGoOn(s, t)
  {
    assert ThreadInv(s, t);
    match s.threads[t].cstage
    case Evict | Unlink1 => assert Step(s, Action(t, OnEvict(OwnOffMM)), DoOwnOffMM(s, t));
    case Unlink0 => assert Step(s, Action(t, OnEvict(OwnOffTable)), DoOwnOffTable(s, t));
    case Unlink2 => assert Step(s, Action(t, OnEvict(EvUnmark)), DoEvUnmark(s, t));
    case _ =>
  }

  lemma DrainedGoesOn(s: State, t: Tid)
    requires Inv(s) && t in s.threads && s.threads[t].Claim? && IsDrainedStage(s.threads[t].cstage)
    ensures CanGoOn(s, t)
  {
    assert ThreadInv(s, t);
    match s.threads[t].cstage
    case Waking => assert Step(s, Action(t, OnWake(WakeTake)), DoWakeTake(s, t));
    case Freeing => assert Step(s, Action(t, OnEvict(Free)), DoFree(s, t));
    case Notifying => NotifyGoesOn(s, t);
    case _ =>
  }

  lemma DestinationGoesOn(s: State, t: Tid)
    requires Inv(s) && t in s.threads && s.threads[t].Claim? && HasDest(s.threads[t].cstage)
    requires forall k :: LockFree(s, k)
    ensures CanGoOn(s, t)
  {
    assert ThreadInv(s, t);
    match s.threads[t].cstage
    case MoveNew => assert Step(s, Action(t, OnMove(MvAdd)), DoMvAdd(s, t));
    case MoveAdded => assert Step(s, Action(t, OnMove(MvTable)), DoMvTable(s, t));
    case MoveUndo => assert Step(s, Action(t, OnMove(MvTakeBack)), DoMvTakeBack(s, t));
    case _ =>
  }

  lemma MoveGoesOn(s: State, t: Tid)
    requires Inv(s) && t in s.threads && s.threads[t].Claim?
    requires IsMovingStage(s.threads[t].cstage) && !HasDest(s.threads[t].cstage)
    ensures CanGoOn(s, t)
  {
    assert ThreadInv(s, t);
    match s.threads[t].cstage
    case Move | MoveTried => assert Step(s, Action(t, OnMove(MvGiveUp)), DoMvGiveUp(s, t));
    case MoveSwapped => assert Step(s, Action(t, OnEvict(OwnOffMM)), DoOwnOffMM(s, t));
    case MoveOffMM => assert Step(s, Action(t, OnMove(MvUnmark)), DoMvUnmark(s, t));
    case _ =>
  }

  /** With every bucket lock free, a thread that is not waiting for a mover can go on. */
  lemma UnlockedGoesOn(s: State, t: Tid)
    requires Inv(s) && t in s.threads && !s.threads[t].Blocked? && !HoldsLock(s.threads[t])
    requires forall k :: LockFree(s, k)
    ensures CanGoOn(s, t)
  {
    match s.threads[t]
    case Claim(c, _, _, _, _) =>
      if IsEvicting(c) { UnlinkGoesOn(s, t); }
      else if IsDrainedStage(c) { DrainedGoesOn(s, t); }
      else if HasDest(c) { DestinationGoesOn(s, t); }
      else { MoveGoesOn(s, t); }
    case Rpl(_, _, _) => ReplaceGoesOn(s, t);
    case _ => InsertGoesOn(s, t);
  }

  /** Property: in every reachable state with operations in flight, some thread in flight can take a step; bucket
      locks, marks and waiters never block each other.  The thread holds a lock itself, or no thread does: it would
      not be in the way if several keys had to share a lock. */
  lemma NoDeadlock(s: State)
    requires Inv(s) && s.threads != map[]
    ensures exists t :: && t in s.threads && CanGoOn(s, t)
                        && (HoldsLock(s.threads[t]) || forall t' | t' in s.threads :: !HoldsLock(s.threads[t']))
  {
    if t :| t in s.threads && HoldsLock(s.threads[t]) {
      if s.threads[t].Look? { LookGoesOn(s, t); } else { SwapGoesOn(s, t); }
      assert t in s.threads && CanGoOn(s, t);
    } else {
      forall k ensures LockFree(s, k) { if !LockFree(s, k) { LockHeldBySomeone(s, k); } }
      var t :| t in s.threads;
      if s.threads[t].Blocked? {
        assert ThreadInv(s, t);
        var w := s.threads[t].bw;
        if s.waiters[w].Ready? {
          assert Step(s, Action(t, OnInsert(IorResume)), DoIorResume(s, t));
        } else {
          NoLostWakeUp(s, w);
          var t' :| BoundToSet(s, t', w);
          UnlockedGoesOn(s, t');
        }
      } else {
        UnlockedGoesOn(s, t);
      }
    }
  }
}
