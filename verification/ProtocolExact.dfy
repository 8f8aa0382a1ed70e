/** Exactly which rules make the cache safe. */
module ProtocolExact {
  import opened Protocol
  import opened ProtocolInv
  import opened ProtocolTheorems
  import opened ProtocolStrand
  import opened ProtocolNoStrand
  import opened ProtocolRuns

  /** Callers that keep the rules `r` keep the rules `r'` too. */
  predicate Stricter(r: Rules, r': Rules) {
    && (r'.onePublisher ==> r.onePublisher) && (r'.publishUnlinked ==> r.publishUnlinked)
    && (r'.publishAdded ==> r.publishAdded) && (r'.removePublished ==> r.removePublished)
    && (r'.oneMoverPerKey ==> r.oneMoverPerKey)
  }

  lemma ReachMore(r: Rules, r': Rules, s: State)
    requires Stricter(r, r') && Reach(r, s)
    ensures Reach(r', s)
  {
    var ss :| IsRun(ss, r) && ss[|ss| - 1] == s;
    forall j | 0 <= j < |ss| - 1 ensures IsStep(ss[j], ss[j + 1], r') {
      assert IsStep(ss[j], ss[j + 1], r);
      var a :| Allowed(r, ss[j], a) && Step(ss[j], a, ss[j + 1]);
      assert Allowed(r', ss[j], a);
    }
    assert IsRun(ss, r');
  }

  /** Memory is given back only when nothing refers to it. */
  ghost predicate SafeFrees(r: Rules) {
    forall s, t | Reach(r, s) && CanFree(s, t) :: Unreachable(s, t, s.threads[t].ci)
  }

  /** Property: frees are safe if and only if no item has two publishers at a time. */
  lemma FreeSafetyExact(r: Rules)
    ensures SafeFrees(r) <==> r.onePublisher
  {
    if r.onePublisher {
      forall s, t | Reach(r, s) && CanFree(s, t) ensures Unreachable(s, t, s.threads[t].ci) {
        var ss :| IsRun(ss, r) && ss[|ss| - 1] == s;
        FreeSafetyRun(ss, r, |ss| - 1, t);
      }
    } else {
      TwoPublishersFree();
      var s, t :| Reach(NOT_ONE_PUBLISHER, s) && CanFree(s, t) && !Unreachable(s, t, s.threads[t].ci);
      ReachMore(NOT_ONE_PUBLISHER, r, s);
    }
  }

  ghost predicate Strands(r: Rules) { exists s, i :: Reach(r, s) && Stranded(s, i) }

  lemma StrandsMore(r: Rules, r': Rules)
    requires Stricter(r, r') && Strands(r)
    ensures Strands(r')
  {
    var s, i :| Reach(r, s) && Stranded(s, i);
    ReachMore(r, r', s);
  }

  /** Without any one of the rules, all others kept, some run strands an item. */
  lemma EachRuleNeeded()
    ensures Strands(NOT_ONE_PUBLISHER) && Strands(NOT_PUBLISH_UNLINKED) && Strands(NOT_PUBLISH_ADDED)
    ensures Strands(NOT_REMOVE_PUBLISHED) && Strands(NOT_ONE_MOVER)
  {
    TwoPublishersStrand();
    PublishRacesRemove();
    PublishRacesReplace();
    RemoveRacesInsert();
    TwoMoversStrand();
  }

  /** Property: no item is ever stranded if and only if all rules are kept. */
  lemma NoStrandExact(r: Rules)
    ensures !Strands(r) <==> r == DISCIPLINE
  {
    if r == DISCIPLINE {
      forall s, i | Reach(r, s) ensures !Stranded(s, i) {
        var ss :| IsRun(ss, r) && ss[|ss| - 1] == s;
        NoStrand(ss, |ss| - 1, i);
      }
    } else {
      SomeRuleMissing(r);
    }
  }

  lemma SomeRuleMissing(r: Rules)
    requires r != DISCIPLINE
    ensures Strands(r)
  {
    EachRuleNeeded();
    if !r.onePublisher { StrandsMore(NOT_ONE_PUBLISHER, r); }
    else if !r.publishUnlinked { StrandsMore(NOT_PUBLISH_UNLINKED, r); }
    else if !r.publishAdded { StrandsMore(NOT_PUBLISH_ADDED, r); }
    else if !r.removePublished { StrandsMore(NOT_REMOVE_PUBLISHED, r); }
    else { StrandsMore(NOT_ONE_MOVER, r); }
  }

  /** The rules are about overlap only: with no operation in flight, they forbid nothing. */
  lemma RulesOnlyOverlap(s: State, a: Action)
    requires Inv(s) && s.threads == map[]
    ensures Allowed(DISCIPLINE, s, a)
  {
    forall i | i in s.items ensures i !in s.pubs { assert ItemInv(s, i); }
    assert s.pubs.Keys <= s.items.Keys;
  }
}
