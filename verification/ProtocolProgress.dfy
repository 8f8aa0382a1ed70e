/** How many of its own steps a mover takes to set a waiter. */
module ProtocolProgress {
  import opened Options
  import opened Protocol
  import opened ProtocolInv
  import opened ProtocolSteps
  import opened ProtocolProof
  import opened ProtocolTheorems
  import opened ProtocolStrand
  import opened ProtocolNoStrand

  ghost predicate Takes(r: Rules, s: State, a: Action, s': State) { Allowed(r, s, a) && Step(s, a, s') }

  /** A run with the actions that make it. */
  ghost predicate IsTrace(ss: seq<State>, acts: seq<Action>, r: Rules) {
    |ss| == |acts| + 1 && ss[0] == Init() && forall j {:trigger TakesAt(ss, acts, r, j)} | 0 <= j < |acts| :: TakesAt(ss, acts, r, j)
  }

  ghost predicate TakesAt(ss: seq<State>, acts: seq<Action>, r: Rules, j: int)
    requires |ss| == |acts| + 1 && 0 <= j < |acts|
  {
    Takes(r, ss[j], acts[j], ss[j + 1])
  }

  lemma TraceIsRun(ss: seq<State>, acts: seq<Action>, r: Rules)
    requires IsTrace(ss, acts, r)
    ensures IsRun(ss, r)
  {
    forall j | 0 <= j < |ss| - 1 ensures IsStep(ss[j], ss[j + 1], r) {
      assert TakesAt(ss, acts, r, j);
    }
  }

  /** The number of steps of thread `t` among the actions `j` to `m - 1`. */
  function OwnSteps(acts: seq<Action>, t: Tid, j: nat, m: nat): nat
    requires j <= m <= |acts|
  {
    if j == m then 0 else OwnSteps(acts, t, j, m - 1) + if acts[m - 1].t == t then 1 else 0
  }

  // ---- what becomes of a waiter in one step

  /** A waiter stays as it is, is taken by the acting thread, or is set. */
  predicate WaiterMoves(s: State, s': State, t: Tid, w: WaiterId)
    requires w in s.waiters
  {
    w in s'.waiters && (s'.waiters[w] == s.waiters[w] || s'.waiters[w].Ready? || (s.waiters[w].Queued? && s'.waiters[w] == Held(t)))
  }

  lemma LookupMoves(s: State, t: Tid, op: LookupOp, s': State, w: WaiterId)
    requires LookupStep(s, t, op, s') && w in s.waiters
    ensures WaiterMoves(s, s', t, w)
  {}

  lemma WakeMoves(s: State, t: Tid, op: WakeOp, s': State, w: WaiterId)
    requires Inv(s) && WakeStep(s, t, op, s') && w in s.waiters
    ensures WaiterMoves(s, s', t, w)
  {
    if op.WakeTake? {
      var k := s.items[s.threads[t].ci].key;
      if k in s.waits { assert EntryInv(s, k); }
    }
  }

  lemma EveryMoves(s: State, a: Action, s': State, w: WaiterId)
    requires Inv(s) && Step(s, a, s') && OnePublisher(s, a) && w in s.waiters
    ensures WaiterMoves(s, s', a.t, w)
  {
    match a.op
    case OnHandle(op) => HandleGood(s, a.t, op, s');
    case OnLookup(op) => LookupMoves(s, a.t, op, s', w);
    case OnInsert(op) => InsertGood(s, a.t, op, s');
    case OnReplace(op) => ReplaceGood(s, a.t, op, s');
    case OnEvict(op) => EvictGood(s, a.t, op, s');
    case OnMove(op) => MoveGood(s, a.t, op, s');
    case OnWake(op) => WakeMoves(s, a.t, op, s', w);
  }

  /** Another mover of the key has taken the waiter from thread `t`. */
  predicate TakenFrom(s: State, t: Tid, w: WaiterId) { w in s.waiters && s.waiters[w].Held? && s.waiters[w].wt != t }

  predicate IsSet(s: State, w: WaiterId) { w in s.waiters && s.waiters[w].Ready? }

  /** A step of another thread: the waiter is set, is taken, or is left with `t`, which stays where it is. */
  lemma OthersStep(s: State, a: Action, s': State, t: Tid, w: WaiterId)
    requires Inv(s) && Step(s, a, s') && OnePublisher(s, a) && a.t != t && BoundToSet(s, t, w)
    ensures IsSet(s', w) || TakenFrom(s', t, w) || (BoundToSet(s', t, w) && s'.threads[t] == s.threads[t])
  {
    StepGood(s, a, s');
    EveryMoves(s, a, s', w);
    assert KeepsThread(s, s', t) && ThreadInv(s, t) && KeepsItem(s, s', a.t, s.threads[t].ci) && KeepsWaiter(s, s', a.t, w);
  }

  lemma BoundMoves(s: State, t: Tid, w: WaiterId)
    requires Inv(s) && BoundToSet(s, t, w)
    ensures s.waiters[w] == Held(t) || (s.waiters[w].Queued? && MovesKey(s, t, s.waiters[w].wk))
  {
    assert ThreadInv(s, t);
  }

  /** With one mover per key, nobody takes a waiter from the thread that is bound to set it. */
  lemma NobodyTakes(s: State, a: Action, s': State, t: Tid, w: WaiterId)
    requires Inv(s) && SingleMover(s) && Step(s, a, s') && OnePublisher(s, a) && BoundToSet(s, t, w) && a.t != t
    ensures !TakenFrom(s', t, w)
  {
    BoundMoves(s, t, w);
    EveryMoves(s, a, s', w);
    if s.waiters[w].Queued? { NotTaker(s, a, s', w); }
  }

  lemma NotTaker(s: State, a: Action, s': State, w: WaiterId)
    requires Inv(s) && Step(s, a, s') && OnePublisher(s, a) && w in s.waiters && s.waiters[w].Queued?
    requires !MovesKey(s, a.t, s.waiters[w].wk)
    ensures w in s'.waiters && s'.waiters[w] != Held(a.t)
  {
    EveryMoves(s, a, s', w);
    if s'.waiters[w] == Held(a.t) { TakerMoves(s, a, s', w); }
  }

  lemma TakerMoves(s: State, a: Action, s': State, w: WaiterId)
    requires Inv(s) && Step(s, a, s') && OnePublisher(s, a) && w in s.waiters && s.waiters[w].Queued?
    requires w in s'.waiters && s'.waiters[w] == Held(a.t)
    ensures MovesKey(s, a.t, s.waiters[w].wk)
  {
    match a.op
    case OnHandle(op) => HandleGood(s, a.t, op, s');
    case OnLookup(op) => LookupTakesNone(s, a.t, op, s', w);
    case OnInsert(op) => InsertGood(s, a.t, op, s');
    case OnReplace(op) => ReplaceGood(s, a.t, op, s');
    case OnEvict(op) => EvictGood(s, a.t, op, s');
    case OnMove(op) => MoveGood(s, a.t, op, s');
    case OnWake(op) => WakeTaker(s, a.t, op, s', w);
  }

  lemma LookupTakesNone(s: State, t: Tid, op: LookupOp, s': State, w: WaiterId)
    requires LookupStep(s, t, op, s') && w in s.waiters
    ensures w in s'.waiters && s'.waiters[w] == s.waiters[w]
  {}

  lemma WakeTaker(s: State, t: Tid, op: WakeOp, s': State, w: WaiterId)
    requires Inv(s) && WakeStep(s, t, op, s') && w in s.waiters && s.waiters[w].Queued?
    requires w in s'.waiters && s'.waiters[w] == Held(t)
    ensures MovesKey(s, t, s.waiters[w].wk)
  {
    assert ThreadInv(s, t);
    var k := s.items[s.threads[t].ci].key;
    if k in s.waits { assert EntryInv(s, k); }
  }

  // ---- over runs

  /** Thread `t` has never had more than `n` waiters in hand between `j` and `m`. */
  ghost predicate HandsFull(ss: seq<State>, t: Tid, j: nat, m: nat, n: nat)
    requires j <= m < |ss|
  {
    forall i | j <= i <= m && t in ss[i].threads && ss[i].threads[t].Claim? :: |ss[i].threads[t].ws| <= n
  }

  /** What `own` steps have brought from `pc` to `pc'`. */
  predicate Advanced(pc: PC, pc': PC, own: nat, n: nat)
    requires pc.Claim? && pc'.Claim?
  {
    if pc'.cstage == Notifying then own + |pc'.ws| <= StagesLeft(pc.cstage) + n
    else own + StagesLeft(pc'.cstage) <= StagesLeft(pc.cstage)
  }

  lemma AdvancedMore(pc: PC, pc1: PC, pc2: PC, own: nat, n: nat)
    requires pc.Claim? && pc1.Claim? && pc2.Claim? && Advanced(pc, pc1, own, n) && Nearer(pc1, pc2) && |pc2.ws| <= n
    ensures Advanced(pc, pc2, own + 1, n)
  {}

  /** The waiter is set, or another mover has it though that breaks a rule, or `t` is on its way. */
  predicate OnItsWay(s: State, r: Rules, t: Tid, w: WaiterId, pc: PC, own: nat, n: nat)
    requires pc.Claim?
  {
    || IsSet(s, w)
    || (TakenFrom(s, t, w) && r != DISCIPLINE)
    || (BoundToSet(s, t, w) && Advanced(pc, s.threads[t], own, n))
  }

  lemma StaysGone(s: State, a: Action, s': State, t: Tid, w: WaiterId)
    requires Inv(s) && Step(s, a, s') && OnePublisher(s, a) && (IsSet(s, w) || TakenFrom(s, t, w))
    ensures IsSet(s, w) ==> IsSet(s', w)
    ensures IsSet(s', w) || TakenFrom(s', t, w)
  {
    StepGood(s, a, s');
    EveryMoves(s, a, s', w);
    assert KeepsWaiter(s, s', a.t, w);
  }

  /** One step of a thread that is bound to set a waiter, or of another. */
  lemma BoundStep(s: State, a: Action, s': State, r: Rules, t: Tid, w: WaiterId, pc: PC, own: nat, n: nat)
    requires Inv(s) && Step(s, a, s') && OnePublisher(s, a) && BoundToSet(s, t, w) && (r == DISCIPLINE ==> SingleMover(s))
    requires pc.Claim? && Advanced(pc, s.threads[t], own, n)
    requires t in s'.threads && s'.threads[t].Claim? ==> |s'.threads[t].ws| <= n
    ensures OnItsWay(s', r, t, w, pc, if a.t == t then own + 1 else own, n)
  {
    if a.t == t {
      WakeUpProgress(s, a, s', w);
      if !IsSet(s', w) { AdvancedMore(pc, s.threads[t], s'.threads[t], own, n); }
    } else {
      OthersStep(s, a, s', t, w);
      if r == DISCIPLINE { NobodyTakes(s, a, s', t, w); }
    }
  }

  lemma WayStep(s: State, a: Action, s': State, r: Rules, t: Tid, w: WaiterId, pc: PC, own: nat, n: nat)
    requires Inv(s) && Takes(r, s, a, s') && r.onePublisher && (r == DISCIPLINE ==> SingleMover(s))
    requires pc.Claim? && OnItsWay(s, r, t, w, pc, own, n)
    requires t in s'.threads && s'.threads[t].Claim? ==> |s'.threads[t].ws| <= n
    ensures OnItsWay(s', r, t, w, pc, if a.t == t then own + 1 else own, n)
  {
    if IsSet(s, w) || (TakenFrom(s, t, w) && r != DISCIPLINE) {
      StaysGone(s, a, s', t, w);
    } else {
      BoundStep(s, a, s', r, t, w, pc, own, n);
    }
  }

  lemma StateOk(ss: seq<State>, acts: seq<Action>, r: Rules, j: nat)
    requires IsTrace(ss, acts, r) && r.onePublisher && j < |ss|
    ensures Inv(ss[j]) && (r == DISCIPLINE ==> SingleMover(ss[j]))
  {
    TraceIsRun(ss, acts, r);
    InvRun(ss, r, j);
    if r == DISCIPLINE { SInvRun(ss, j); }
  }

  lemma WayStarts(s: State, r: Rules, t: Tid, w: WaiterId, n: nat)
    requires BoundToSet(s, t, w) && |s.threads[t].ws| <= n
    ensures OnItsWay(s, r, t, w, s.threads[t], 0, n)
  {}

  lemma NextOnItsWay(ss: seq<State>, acts: seq<Action>, r: Rules, t: Tid, w: WaiterId, pc: PC, own: nat, i: nat, n: nat)
    requires IsTrace(ss, acts, r) && r.onePublisher && i < |acts| && pc.Claim? && OnItsWay(ss[i], r, t, w, pc, own, n)
    requires t in ss[i + 1].threads && ss[i + 1].threads[t].Claim? ==> |ss[i + 1].threads[t].ws| <= n
    ensures OnItsWay(ss[i + 1], r, t, w, pc, if acts[i].t == t then own + 1 else own, n)
  {
    StateOk(ss, acts, r, i);
    assert TakesAt(ss, acts, r, i);
    WayStep(ss[i], acts[i], ss[i + 1], r, t, w, pc, own, n);
  }

  lemma {:induction false} StaysOnItsWay(ss: seq<State>, acts: seq<Action>, r: Rules, t: Tid, w: WaiterId, j: nat, m: nat, n: nat)
    requires IsTrace(ss, acts, r) && r.onePublisher && j <= m < |ss| && BoundToSet(ss[j], t, w) && HandsFull(ss, t, j, m, n)
    ensures OnItsWay(ss[m], r, t, w, ss[j].threads[t], OwnSteps(acts, t, j, m), n)
  {
    if j == m {
      WayStarts(ss[j], r, t, w, n);
    } else {
      StaysOnItsWay(ss, acts, r, t, w, j, m - 1, n);
      NextOnItsWay(ss, acts, r, t, w, ss[j].threads[t], OwnSteps(acts, t, j, m - 1), m - 1, n);
    }
  }

  lemma WayEnds(s: State, r: Rules, t: Tid, w: WaiterId, pc: PC, own: nat, n: nat)
    requires Inv(s) && pc.Claim? && OnItsWay(s, r, t, w, pc, own, n) && own >= 9 + n
    ensures IsSet(s, w) || (TakenFrom(s, t, w) && r != DISCIPLINE)
  {
    if BoundToSet(s, t, w) { BoundHasWork(s, t, w); }
  }

  /** Property: a thread that is bound to set a waiter has set it after at most nine of its own steps and one for
      each waiter it then has in hand, whatever the other threads do meanwhile; only if two movers may work on one
      key can the other one take the waiter over. */
  lemma WakeUpWithin(ss: seq<State>, acts: seq<Action>, r: Rules, t: Tid, w: WaiterId, j: nat, m: nat, n: nat)
    requires IsTrace(ss, acts, r) && r.onePublisher && j <= m < |ss| && BoundToSet(ss[j], t, w) && HandsFull(ss, t, j, m, n)
    requires OwnSteps(acts, t, j, m) >= 9 + n
    ensures IsSet(ss[m], w) || (TakenFrom(ss[m], t, w) && r != DISCIPLINE)
  {
    StaysOnItsWay(ss, acts, r, t, w, j, m, n);
    StateOk(ss, acts, r, m);
    WayEnds(ss[m], r, t, w, ss[j].threads[t], OwnSteps(acts, t, j, m), n);
  }

  /** A thread that is bound to set a waiter is not done. */
  lemma BoundHasWork(s: State, t: Tid, w: WaiterId)
    requires Inv(s) && BoundToSet(s, t, w)
    ensures if s.threads[t].cstage == Notifying then |s.threads[t].ws| > 0 else StagesLeft(s.threads[t].cstage) > 0
  {
    assert ThreadInv(s, t);
  }
}
