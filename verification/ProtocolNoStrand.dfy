/** No item is stranded in one container, and no rule of the discipline can be dropped. */
module ProtocolNoStrand {
  import opened Options
  import opened Protocol
  import opened ProtocolInv
  import opened ProtocolSteps
  import opened ProtocolProof
  import opened ProtocolStrand
  import opened ProtocolStrandSteps
  import opened ProtocolTheorems

  lemma SInvStep(s: State, a: Action, s': State)
    requires Inv(s) && SInv(s) && Step(s, a, s') && Allowed(DISCIPLINE, s, a)
    ensures Inv(s') && SInv(s')
  {
    InvStep(s, a, s');
    match a.op {
      case OnHandle(op) => HandleS(s, a.t, op, s');
      case OnLookup(op) => LookupS(s, a.t, op, s');
      case OnInsert(op) => InsertS(s, a.t, op, s');
      case OnReplace(op) => ReplaceS(s, a.t, op, s');
      case OnEvict(op) => EvictS(s, a.t, op, s');
      case OnMove(op) => MoveS(s, a.t, op, s');
      case OnWake(op) => WakeS(s, a.t, op, s');
    }
    KeepsS(s, s', a.t);
  }

  lemma {:induction false} SInvRun(ss: seq<State>, j: nat)
    requires IsRun(ss, DISCIPLINE) && j < |ss|
    ensures Inv(ss[j]) && SInv(ss[j])
  {
    if j > 0 {
      SInvRun(ss, j - 1);
      assert IsStep(ss[j - 1], ss[j - 1 + 1], DISCIPLINE);
      var a :| Allowed(DISCIPLINE, ss[j - 1], a) && Step(ss[j - 1], a, ss[j]);
      SInvStep(ss[j - 1], a, ss[j]);
    }
  }

  /** Item `i` is live, nothing refers to it, no thread works on it, and yet one of the containers
      lacks it: it can be neither found nor freed, or found but never evicted. */
  ghost predicate Stranded(s: State, i: ItemId) {
    && i in s.items && s.items[i].ref == 0
    && (forall t | t in s.threads :: !Touches(s, s.threads[t], i))
    && !(s.items[i].linked && s.items[i].accessible)
  }

  /** Property: in every disciplined run, an item with reference count 0 that no thread works on is
      both accessible and in its MM container. */
  lemma NoStrand(ss: seq<State>, j: nat, i: ItemId)
    requires IsRun(ss, DISCIPLINE) && j < |ss|
    ensures !Stranded(ss[j], i)
  {
    SInvRun(ss, j);
    var s := ss[j];
    if i in s.items && s.items[i].ref == 0 && !(s.items[i].linked && s.items[i].accessible) {
      assert ItemInv(s, i);
      if i in s.claims {
        assert Touches(s, s.threads[s.claims[i]], i);
      } else {
        assert ItemS(s, i);
        if s.items[i].accessible {
          var t :| Adds(s, t, i);
          assert Uses(s, s.threads[t], s.threads[t].rn);
        } else if i in s.pubs {
          assert Uses(s, s.threads[s.pubs[i]], PubOf(s, s.pubs[i]).value);
        } else {
          UnlinkerTouches(s, i);
        }
      }
    }
  }

  lemma UnlinkerTouches(s: State, i: ItemId)
    requires exists t :: Unlinks(s, t, i)
    ensures exists t :: t in s.threads && Touches(s, s.threads[t], i)
  {
    var t :| Unlinks(s, t, i);
    var pc := s.threads[t];
    var h := if pc.Unlink? then pc.ur else if pc.rstage == Swapped then pc.ro else pc.rn;
    assert Uses(s, pc, h);
    assert Touches(s, pc, i);
  }

  // ---- without one of the rules, an item can be stranded

  ghost predicate Reach(r: Rules, s: State) { exists ss :: IsRun(ss, r) && ss[|ss| - 1] == s }

  lemma ReachInit(r: Rules)
    ensures Reach(r, Init())
  {
    assert IsRun([Init()], r);
  }

  lemma Go(r: Rules, s: State, a: Action, s': State)
    requires Reach(r, s) && Allowed(r, s, a) && Step(s, a, s')
    ensures Reach(r, s')
  {
    var ss :| IsRun(ss, r) && ss[|ss| - 1] == s;
    var ss' := ss + [s'];
    forall j | 0 <= j < |ss'| - 1 ensures IsStep(ss'[j], ss'[j + 1], r) {
      if j < |ss| - 1 { assert IsStep(ss[j], ss[j + 1], r); }
    }
    assert IsRun(ss', r) && ss'[|ss'| - 1] == s';
  }

  /** No rule is about the step. */
  predicate Unruled(op: Op) {
    match op
    case OnInsert(o) => !o.PubAdd? && !o.RemTable?
    case OnReplace(o) => !o.RplTable?
    case OnMove(o) => !o.MvMark?
    case _ => true
  }

  lemma GoOn(r: Rules, s: State, a: Action, s': State)
    requires Reach(r, s) && Unruled(a.op) && Step(s, a, s')
    ensures Reach(r, s')
  {
    Go(r, s, a, s');
  }
}
