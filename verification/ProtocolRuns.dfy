/** Runs that show that no rule of the discipline can be dropped: each breaks one rule and keeps the others.  A run
    is cut into legs of a few steps between states written out in full. */
module ProtocolRuns {
  import opened Options
  import opened Protocol
  import opened ProtocolNoStrand
  import opened ProtocolTheorems

  const NOT_ONE_PUBLISHER := Rules(false, true, true, true, true)
  const NOT_PUBLISH_UNLINKED := Rules(true, false, true, true, true)
  const NOT_PUBLISH_ADDED := Rules(true, true, false, true, true)
  const NOT_REMOVE_PUBLISHED := Rules(true, true, true, false, true)
  const NOT_ONE_MOVER := Rules(true, true, true, true, false)

  function Pub1(): State {
    State(
      map[0 := Item(0, 1, true, false, false)], map[], map[], map[0 := 0], map[1 := Publish(Insert, 0)],
      map[], map[], map[], map[0 := 1])
  }

  function Pub2(): State {
    State(
      map[0 := Item(0, 1, true, true, false), 1 := Item(0, 1, false, false, false)], map[0 := 0], map[],
      map[0 := 0, 1 := 1], map[], map[], map[], map[], map[])
  }

  lemma PubLeg1(r: Rules)
    requires Reach(r, Init())
    ensures Reach(r, Pub1())
  {
    var s1 := DoAlloc(Init(), 1, 0, 0, 0);
    GoOn(r, Init(), Action(1, OnHandle(Alloc(0, 0, 0))), s1);
    assert DoPubAdd(s1, 1, 0, false) == Pub1();
    Go(r, s1, Action(1, OnInsert(PubAdd(0, false))), Pub1());
  }

  lemma PubLeg2(r: Rules)
    requires Reach(r, Pub1())
    ensures Reach(r, Pub2())
  {
    var s1 := DoInsTable(Pub1(), 1);
    GoOn(r, Pub1(), Action(1, OnInsert(InsTable)), s1);
    assert DoAlloc(s1, 1, 1, 1, 0) == Pub2();
    GoOn(r, s1, Action(1, OnHandle(Alloc(1, 1, 0))), Pub2());
  }

  /** Under any rules, an item has been inserted, and another with the same key allocated. */
  lemma PubRun(r: Rules)
    ensures Reach(r, Pub2())
  {
    ReachInit(r);
    PubLeg1(r);
    PubLeg2(r);
  }

  function Both1(): State {
    State(
      map[0 := Item(0, 1, true, true, false), 1 := Item(0, 1, true, false, false)], map[0 := 0], map[],
      map[0 := 0, 1 := 1], map[2 := Publish(Insert, 1)], map[], map[], map[], map[1 := 2])
  }

  function Both2(): State {
    State(
      map[0 := Item(0, 1, true, false, false), 1 := Item(0, 1, true, true, false)], map[0 := 1], map[],
      map[0 := 0, 1 := 1], map[2 := Publish(Insert, 1), 3 := Rpl(Swapped, 0, 1)], map[], map[], map[],
      map[1 := 2])
  }

  function Both3(): State {
    State(
      map[0 := Item(0, 1, true, false, false), 1 := Item(0, 1, true, true, false)], map[0 := 1], map[],
      map[0 := 0, 1 := 1], map[2 := Publish(Insert, 1), 3 := Rpl(Undo, 0, 1)], map[], map[], map[],
      map[1 := 2])
  }

  function Both4(): State {
    State(
      map[0 := Item(0, 1, true, false, false), 1 := Item(0, 1, true, true, false)], map[0 := 1], map[],
      map[0 := 0, 1 := 1], map[], map[], map[], map[], map[])
  }

  function Both5(): State {
    State(
      map[0 := Item(0, 0, true, false, false), 1 := Item(0, 1, true, true, false)], map[0 := 1], map[],
      map[1 := 1], map[], map[], map[], map[], map[])
  }

  lemma BothLeg1()
    requires Reach(NOT_ONE_PUBLISHER, Pub2())
    ensures Reach(NOT_ONE_PUBLISHER, Both1())
  {
    assert DoPubAdd(Pub2(), 2, 1, false) == Both1();
    Go(NOT_ONE_PUBLISHER, Pub2(), Action(2, OnInsert(PubAdd(1, false))), Both1());
  }

  lemma BothLeg2()
    requires Reach(NOT_ONE_PUBLISHER, Both1())
    ensures Reach(NOT_ONE_PUBLISHER, Both2())
  {
    assert DoRplTable(Both1(), 3, 0, 1) == Both2();
    Go(NOT_ONE_PUBLISHER, Both1(), Action(3, OnReplace(RplTable(0, 1))), Both2());
  }

  lemma BothLeg3()
    requires Reach(NOT_ONE_PUBLISHER, Both2())
    ensures Reach(NOT_ONE_PUBLISHER, Both3())
  {
    assert DoRplMM(Both2(), 3) == Both3();
    GoOn(NOT_ONE_PUBLISHER, Both2(), Action(3, OnReplace(RplMM)), Both3());
  }

  lemma BothLeg4()
    requires Reach(NOT_ONE_PUBLISHER, Both3())
    ensures Reach(NOT_ONE_PUBLISHER, Both4())
  {
    var s1 := DoRplTakeBack(Both3(), 3);
    GoOn(NOT_ONE_PUBLISHER, Both3(), Action(3, OnReplace(RplTakeBack)), s1);
    assert DoInsTable(s1, 2) == Both4();
    GoOn(NOT_ONE_PUBLISHER, s1, Action(2, OnInsert(InsTable)), Both4());
  }

  lemma BothLeg5()
    requires Reach(NOT_ONE_PUBLISHER, Both4())
    ensures Reach(NOT_ONE_PUBLISHER, Both5())
  {
    assert DoDrop(Both4(), 1, 0) == Both5();
    GoOn(NOT_ONE_PUBLISHER, Both4(), Action(1, OnHandle(Drop(0))), Both5());
  }

  lemma BothRun()
    ensures Reach(NOT_ONE_PUBLISHER, Both5())
  {
    PubRun(NOT_ONE_PUBLISHER);
    BothLeg1();
    BothLeg2();
    BothLeg3();
    BothLeg4();
    BothLeg5();
  }

  lemma BothStranded()
    ensures Stranded(Both5(), 0)
  {}

  /** Two publishers of one item: the MM container refuses a replacement by an item that an insert has just
      added, and the replaced item stays there, out of the table. */
  lemma TwoPublishersStrand()
    ensures Reach(NOT_ONE_PUBLISHER, Both5()) && Stranded(Both5(), 0)
  {
    BothRun();
    BothStranded();
  }

  function Race1(): State {
    State(
      map[0 := Item(0, 1, false, false, false)], map[], map[], map[0 := 0], map[1 := Unlink(0, 0)], map[],
      map[], map[], map[])
  }

  function Race2(): State {
    State(
      map[0 := Item(0, 1, true, false, false)], map[], map[], map[0 := 0],
      map[1 := Unlink(0, 0), 2 := Publish(Insert, 0)], map[], map[], map[], map[0 := 2])
  }

  function Race3(): State {
    State(
      map[0 := Item(0, 1, true, true, false)], map[0 := 0], map[], map[0 := 0], map[1 := Unlink(0, 0)],
      map[], map[], map[], map[])
  }

  function Race4(): State {
    State(
      map[0 := Item(0, 0, false, true, false)], map[0 := 0], map[], map[], map[], map[], map[], map[],
      map[])
  }

  lemma RaceLeg1()
    requires Reach(NOT_PUBLISH_UNLINKED, Init())
    ensures Reach(NOT_PUBLISH_UNLINKED, Race1())
  {
    var s1 := DoAlloc(Init(), 0, 0, 0, 0);
    GoOn(NOT_PUBLISH_UNLINKED, Init(), Action(0, OnHandle(Alloc(0, 0, 0))), s1);
    assert DoRemTable(s1, 1, 0) == Race1();
    Go(NOT_PUBLISH_UNLINKED, s1, Action(1, OnInsert(RemTable(0))), Race1());
  }

  lemma RaceLeg2()
    requires Reach(NOT_PUBLISH_UNLINKED, Race1())
    ensures Reach(NOT_PUBLISH_UNLINKED, Race2())
  {
    assert DoPubAdd(Race1(), 2, 0, false) == Race2();
    Go(NOT_PUBLISH_UNLINKED, Race1(), Action(2, OnInsert(PubAdd(0, false))), Race2());
  }

  lemma RaceLeg3()
    requires Reach(NOT_PUBLISH_UNLINKED, Race2())
    ensures Reach(NOT_PUBLISH_UNLINKED, Race3())
  {
    assert DoInsTable(Race2(), 2) == Race3();
    GoOn(NOT_PUBLISH_UNLINKED, Race2(), Action(2, OnInsert(InsTable)), Race3());
  }

  lemma RaceLeg4()
    requires Reach(NOT_PUBLISH_UNLINKED, Race3())
    ensures Reach(NOT_PUBLISH_UNLINKED, Race4())
  {
    var s1 := DoUnlinkMM(Race3(), 1);
    GoOn(NOT_PUBLISH_UNLINKED, Race3(), Action(1, OnInsert(UnlinkMM)), s1);
    assert DoDrop(s1, 0, 0) == Race4();
    GoOn(NOT_PUBLISH_UNLINKED, s1, Action(0, OnHandle(Drop(0))), Race4());
  }

  lemma RaceRun()
    ensures Reach(NOT_PUBLISH_UNLINKED, Race4())
  {
    ReachInit(NOT_PUBLISH_UNLINKED);
    RaceLeg1();
    RaceLeg2();
    RaceLeg3();
    RaceLeg4();
  }

  lemma RaceStranded()
    ensures Stranded(Race4(), 0)
  {}

  /** A remove that has begun before its item is inserted takes it out of the MM container afterwards. */
  lemma PublishRacesRemove()
    ensures Reach(NOT_PUBLISH_UNLINKED, Race4()) && Stranded(Race4(), 0)
  {
    RaceRun();
    RaceStranded();
  }

  function Twice1(): State {
    State(
      map[0 := Item(0, 1, true, false, false), 1 := Item(0, 1, false, true, false)], map[0 := 1], map[],
      map[0 := 0, 1 := 1], map[2 := Rpl(Swapped, 0, 1)], map[], map[], map[], map[])
  }

  function Twice2(): State {
    State(
      map[0 := Item(0, 1, true, false, false), 1 := Item(0, 1, false, false, false)], map[], map[],
      map[0 := 0, 1 := 1], map[2 := Rpl(Swapped, 0, 1), 3 := Unlink(1, 1)], map[], map[], map[], map[])
  }

  function Twice3(): State {
    State(
      map[0 := Item(0, 1, true, false, false), 1 := Item(0, 1, true, false, false)], map[], map[],
      map[0 := 0, 1 := 1], map[2 := Rpl(Swapped, 0, 1), 3 := Publish(Insert, 1)], map[], map[], map[],
      map[1 := 3])
  }

  function Twice4(): State {
    State(
      map[0 := Item(0, 1, true, false, false), 1 := Item(0, 1, true, false, false)], map[], map[],
      map[0 := 0, 1 := 1], map[3 := Publish(Insert, 1)], map[], map[], map[], map[1 := 3])
  }

  function Twice5(): State {
    State(
      map[0 := Item(0, 1, true, false, false), 1 := Item(0, 1, true, true, false)], map[0 := 1], map[],
      map[0 := 0, 1 := 1], map[], map[], map[], map[], map[])
  }

  function Twice6(): State {
    State(
      map[0 := Item(0, 0, true, false, false), 1 := Item(0, 1, true, true, false)], map[0 := 1], map[],
      map[1 := 1], map[], map[], map[], map[], map[])
  }

  lemma TwiceLeg1()
    requires Reach(NOT_PUBLISH_ADDED, Pub2())
    ensures Reach(NOT_PUBLISH_ADDED, Twice1())
  {
    assert DoRplTable(Pub2(), 2, 0, 1) == Twice1();
    Go(NOT_PUBLISH_ADDED, Pub2(), Action(2, OnReplace(RplTable(0, 1))), Twice1());
  }

  lemma TwiceLeg2()
    requires Reach(NOT_PUBLISH_ADDED, Twice1())
    ensures Reach(NOT_PUBLISH_ADDED, Twice2())
  {
    assert DoRemTable(Twice1(), 3, 1) == Twice2();
    Go(NOT_PUBLISH_ADDED, Twice1(), Action(3, OnInsert(RemTable(1))), Twice2());
  }

  lemma TwiceLeg3()
    requires Reach(NOT_PUBLISH_ADDED, Twice2())
    ensures Reach(NOT_PUBLISH_ADDED, Twice3())
  {
    var s1 := DoUnlinkMM(Twice2(), 3);
    GoOn(NOT_PUBLISH_ADDED, Twice2(), Action(3, OnInsert(UnlinkMM)), s1);
    assert DoPubAdd(s1, 3, 1, false) == Twice3();
    Go(NOT_PUBLISH_ADDED, s1, Action(3, OnInsert(PubAdd(1, false))), Twice3());
  }

  lemma TwiceLeg4()
    requires Reach(NOT_PUBLISH_ADDED, Twice3())
    ensures Reach(NOT_PUBLISH_ADDED, Twice4())
  {
    var s1 := DoRplMM(Twice3(), 2);
    GoOn(NOT_PUBLISH_ADDED, Twice3(), Action(2, OnReplace(RplMM)), s1);
    assert DoRplTakeBack(s1, 2) == Twice4();
    GoOn(NOT_PUBLISH_ADDED, s1, Action(2, OnReplace(RplTakeBack)), Twice4());
  }

  lemma TwiceLeg5()
    requires Reach(NOT_PUBLISH_ADDED, Twice4())
    ensures Reach(NOT_PUBLISH_ADDED, Twice5())
  {
    assert DoInsTable(Twice4(), 3) == Twice5();
    GoOn(NOT_PUBLISH_ADDED, Twice4(), Action(3, OnInsert(InsTable)), Twice5());
  }

  lemma TwiceLeg6()
    requires Reach(NOT_PUBLISH_ADDED, Twice5())
    ensures Reach(NOT_PUBLISH_ADDED, Twice6())
  {
    assert DoDrop(Twice5(), 1, 0) == Twice6();
    GoOn(NOT_PUBLISH_ADDED, Twice5(), Action(1, OnHandle(Drop(0))), Twice6());
  }

  lemma TwiceRun()
    ensures Reach(NOT_PUBLISH_ADDED, Twice6())
  {
    PubRun(NOT_PUBLISH_ADDED);
    TwiceLeg1();
    TwiceLeg2();
    TwiceLeg3();
    TwiceLeg4();
    TwiceLeg5();
    TwiceLeg6();
  }

  lemma TwiceStranded()
    ensures Stranded(Twice6(), 0)
  {}

  /** The new item of a replacement is removed and inserted again before the replacement gets to the MM
      container, which then refuses it: the replaced item stays there, out of the table. */
  lemma PublishRacesReplace()
    ensures Reach(NOT_PUBLISH_ADDED, Twice6()) && Stranded(Twice6(), 0)
  {
    TwiceRun();
    TwiceStranded();
  }

  function Late1(): State {
    State(
      map[0 := Item(0, 1, true, false, false)], map[], map[], map[0 := 0], map[2 := Publish(Insert, 0)],
      map[], map[], map[], map[0 := 2])
  }

  function Late2(): State {
    State(
      map[0 := Item(0, 1, true, false, false)], map[], map[], map[0 := 0],
      map[1 := Unlink(0, 0), 2 := Publish(Insert, 0)], map[], map[], map[], map[0 := 2])
  }

  function Late3(): State {
    State(
      map[0 := Item(0, 1, true, true, false)], map[0 := 0], map[], map[0 := 0], map[1 := Unlink(0, 0)],
      map[], map[], map[], map[])
  }

  function Late4(): State {
    State(
      map[0 := Item(0, 0, false, true, false)], map[0 := 0], map[], map[], map[], map[], map[], map[],
      map[])
  }

  lemma LateLeg1()
    requires Reach(NOT_REMOVE_PUBLISHED, Init())
    ensures Reach(NOT_REMOVE_PUBLISHED, Late1())
  {
    var s1 := DoAlloc(Init(), 0, 0, 0, 0);
    GoOn(NOT_REMOVE_PUBLISHED, Init(), Action(0, OnHandle(Alloc(0, 0, 0))), s1);
    assert DoPubAdd(s1, 2, 0, false) == Late1();
    Go(NOT_REMOVE_PUBLISHED, s1, Action(2, OnInsert(PubAdd(0, false))), Late1());
  }

  lemma LateLeg2()
    requires Reach(NOT_REMOVE_PUBLISHED, Late1())
    ensures Reach(NOT_REMOVE_PUBLISHED, Late2())
  {
    assert DoRemTable(Late1(), 1, 0) == Late2();
    Go(NOT_REMOVE_PUBLISHED, Late1(), Action(1, OnInsert(RemTable(0))), Late2());
  }

  lemma LateLeg3()
    requires Reach(NOT_REMOVE_PUBLISHED, Late2())
    ensures Reach(NOT_REMOVE_PUBLISHED, Late3())
  {
    assert DoInsTable(Late2(), 2) == Late3();
    GoOn(NOT_REMOVE_PUBLISHED, Late2(), Action(2, OnInsert(InsTable)), Late3());
  }

  lemma LateLeg4()
    requires Reach(NOT_REMOVE_PUBLISHED, Late3())
    ensures Reach(NOT_REMOVE_PUBLISHED, Late4())
  {
    var s1 := DoUnlinkMM(Late3(), 1);
    GoOn(NOT_REMOVE_PUBLISHED, Late3(), Action(1, OnInsert(UnlinkMM)), s1);
    assert DoDrop(s1, 0, 0) == Late4();
    GoOn(NOT_REMOVE_PUBLISHED, s1, Action(0, OnHandle(Drop(0))), Late4());
  }

  lemma LateRun()
    ensures Reach(NOT_REMOVE_PUBLISHED, Late4())
  {
    ReachInit(NOT_REMOVE_PUBLISHED);
    LateLeg1();
    LateLeg2();
    LateLeg3();
    LateLeg4();
  }

  lemma LateStranded()
    ensures Stranded(Late4(), 0)
  {}

  /** A remove of an item that is being inserted finds nothing in the table, and takes the item out of the MM
      container once it is there. */
  lemma RemoveRacesInsert()
    ensures Reach(NOT_REMOVE_PUBLISHED, Late4()) && Stranded(Late4(), 0)
  {
    LateRun();
    LateStranded();
  }

  function Movers1(): State {
    State(
      map[0 := Item(0, 0, true, true, false), 1 := Item(0, 1, false, false, false)], map[0 := 0], map[],
      map[1 := 1], map[], map[], map[], map[], map[])
  }

  function Movers2(): State {
    State(
      map[0 := Item(0, 1, true, true, true), 1 := Item(0, 1, false, false, false)], map[0 := 0], map[],
      map[1 := 1], map[1 := Claim(Move, 0, true, None, {})], map[], map[], map[0 := 1], map[])
  }

  function Movers3(): State {
    State(
      map[0 := Item(0, 1, true, true, true), 1 := Item(0, 1, true, false, false)], map[0 := 0], map[],
      map[1 := 1], map[1 := Claim(Move, 0, true, None, {}), 2 := Publish(InsertOrReplace, 1)], map[],
      map[], map[0 := 1], map[1 := 2])
  }

  function Movers4(): State {
    State(
      map[0 := Item(0, 1, true, true, true), 1 := Item(0, 1, true, false, false)], map[0 := 1],
      map[0 := Pending(1, 0, 2)], map[1 := 1],
      map[1 := Claim(Move, 0, true, None, {}), 2 := Look(Acquire, 0, ForReplace(1))], map[], map[],
      map[0 := 1], map[1 := 2])
  }

  function Movers5(): State {
    State(
      map[0 := Item(0, 1, true, true, true), 1 := Item(0, 1, true, false, false)], map[0 := 1],
      map[0 := Pending(1, 0, 2)], map[1 := 1],
      map[1 := Claim(Move, 0, true, None, {}), 2 := Look(TryWait, 0, ForReplace(1))], map[], map[],
      map[0 := 1], map[1 := 2])
  }

  function Movers6(): State {
    State(
      map[0 := Item(0, 1, true, true, true), 1 := Item(0, 1, true, false, false)], map[0 := 1],
      map[0 := Pending(1, 0, 2)], map[1 := 1],
      map[1 := Claim(Move, 0, true, None, {}), 2 := Swap(1, 0, GotWait(0))], map[0 := {0}],
      map[0 := Queued(0)], map[0 := 1], map[1 := 2])
  }

  function Movers7(): State {
    State(
      map[0 := Item(0, 1, true, false, true), 1 := Item(0, 1, true, true, false)], map[0 := 1], map[],
      map[1 := 1], map[1 := Claim(Move, 0, true, None, {}), 2 := Blocked(1, 0)], map[0 := {0}],
      map[0 := Queued(0)], map[0 := 1], map[])
  }

  function Movers8(): State {
    State(
      map[0 := Item(0, 1, true, false, true), 1 := Item(0, 1, true, true, false), 2 := Item(0, 1, false, false, false)],
      map[0 := 1], map[], map[1 := 1, 2 := 2],
      map[1 := Claim(Move, 0, true, None, {}), 2 := Blocked(1, 0)], map[0 := {0}], map[0 := Queued(0)],
      map[0 := 1], map[])
  }

  function Movers9(): State {
    State(
      map[0 := Item(0, 1, true, false, true), 1 := Item(0, 1, true, false, false), 2 := Item(0, 1, false, true, false)],
      map[0 := 2], map[], map[1 := 1, 2 := 2],
      map[1 := Claim(Move, 0, true, None, {}), 2 := Blocked(1, 0), 3 := Rpl(Swapped, 1, 2)], map[0 := {0}],
      map[0 := Queued(0)], map[0 := 1], map[])
  }

  function Movers10(): State {
    State(
      map[0 := Item(0, 1, true, false, true), 1 := Item(0, 1, false, false, false), 2 := Item(0, 1, true, true, false)],
      map[0 := 2], map[], map[1 := 1, 2 := 2],
      map[1 := Claim(Move, 0, true, None, {}), 2 := Blocked(1, 0), 3 := Rpl(Check, 1, 2)], map[0 := {0}],
      map[0 := Queued(0)], map[0 := 1], map[])
  }

  function Movers11(): State {
    State(
      map[0 := Item(0, 1, true, false, true), 1 := Item(0, 1, false, false, false), 2 := Item(0, 1, true, true, false)],
      map[0 := 2], map[], map[1 := 1, 2 := 2],
      map[1 := Claim(Move, 0, true, None, {}), 2 := Blocked(1, 0)], map[0 := {0}], map[0 := Queued(0)],
      map[0 := 1], map[])
  }

  function Movers12(): State {
    State(
      map[0 := Item(0, 1, true, false, true), 1 := Item(0, 1, false, false, false), 2 := Item(0, 0, true, true, false)],
      map[0 := 2], map[], map[1 := 1], map[1 := Claim(Move, 0, true, None, {}), 2 := Blocked(1, 0)],
      map[0 := {0}], map[0 := Queued(0)], map[0 := 1], map[])
  }

  function Movers13(): State {
    State(
      map[0 := Item(0, 1, true, false, true), 1 := Item(0, 1, false, false, false), 2 := Item(0, 1, true, true, true)],
      map[0 := 2], map[], map[1 := 1],
      map[1 := Claim(Move, 0, true, None, {}), 2 := Blocked(1, 0), 4 := Claim(Move, 2, true, None, {})],
      map[0 := {0}], map[0 := Queued(0)], map[0 := 1, 2 := 4], map[])
  }

  function Movers14(): State {
    State(
      map[0 := Item(0, 1, true, false, true), 1 := Item(0, 1, false, false, false), 2 := Item(0, 1, true, true, true), 3 := Item(0, 1, false, false, false)],
      map[0 := 2], map[], map[1 := 1, 4 := 3],
      map[1 := Claim(Move, 0, true, None, {}), 2 := Blocked(1, 0), 4 := Claim(MoveNew, 2, true, Some(4), {})],
      map[0 := {0}], map[0 := Queued(0)], map[0 := 1, 2 := 4], map[3 := 4])
  }

  function Movers15(): State {
    State(
      map[0 := Item(0, 1, true, false, true), 1 := Item(0, 1, false, false, false), 2 := Item(0, 1, true, true, true), 3 := Item(0, 1, true, false, false)],
      map[0 := 2], map[], map[1 := 1, 4 := 3],
      map[1 := Claim(Move, 0, true, None, {}), 2 := Blocked(1, 0), 4 := Claim(MoveAdded, 2, true, Some(4), {})],
      map[0 := {0}], map[0 := Queued(0)], map[0 := 1, 2 := 4], map[3 := 4])
  }

  function Movers16(): State {
    State(
      map[0 := Item(0, 1, true, false, true), 1 := Item(0, 1, false, false, false), 2 := Item(0, 1, true, false, true), 3 := Item(0, 1, true, true, false)],
      map[0 := 3], map[], map[1 := 1, 4 := 3],
      map[1 := Claim(Move, 0, true, None, {}), 2 := Blocked(1, 0), 4 := Claim(MoveSwapped, 2, true, Some(4), {})],
      map[0 := {0}], map[0 := Queued(0)], map[0 := 1, 2 := 4], map[])
  }

  function Movers17(): State {
    State(
      map[0 := Item(0, 1, true, false, true), 1 := Item(0, 1, false, false, false), 2 := Item(0, 1, false, false, true), 3 := Item(0, 1, true, true, false)],
      map[0 := 3], map[], map[1 := 1, 4 := 3],
      map[1 := Claim(Move, 0, true, None, {}), 2 := Blocked(1, 0), 4 := Claim(MoveOffMM, 2, true, Some(4), {})],
      map[0 := {0}], map[0 := Queued(0)], map[0 := 1, 2 := 4], map[])
  }

  function Movers18(): State {
    State(
      map[0 := Item(0, 1, true, false, true), 1 := Item(0, 1, false, false, false), 2 := Item(0, 0, false, false, false), 3 := Item(0, 1, true, true, false)],
      map[0 := 3], map[], map[1 := 1, 4 := 3],
      map[1 := Claim(Move, 0, true, None, {}), 2 := Blocked(1, 0), 4 := Claim(Waking, 2, true, Some(4), {})],
      map[0 := {0}], map[0 := Queued(0)], map[0 := 1, 2 := 4], map[])
  }

  function Movers19(): State {
    State(
      map[0 := Item(0, 1, true, false, true), 1 := Item(0, 1, false, false, false), 2 := Item(0, 0, false, false, false), 3 := Item(0, 1, true, true, false)],
      map[0 := 3], map[], map[1 := 1, 4 := 3],
      map[1 := Claim(Move, 0, true, None, {}), 2 := Blocked(1, 0), 4 := Claim(Notifying, 2, true, Some(4), {0})],
      map[], map[0 := Held(4)], map[0 := 1, 2 := 4], map[])
  }

  function Movers20(): State {
    State(
      map[0 := Item(0, 1, true, false, true), 1 := Item(0, 1, false, false, false), 2 := Item(0, 0, false, false, false), 3 := Item(0, 2, true, true, false)],
      map[0 := 3], map[], map[1 := 1, 3 := 3, 4 := 3],
      map[1 := Claim(Move, 0, true, None, {}), 2 := Blocked(1, 0), 4 := Claim(Notifying, 2, true, Some(4), {})],
      map[], map[0 := Ready(Some(3))], map[0 := 1, 2 := 4], map[])
  }

  function Movers21(): State {
    State(
      map[0 := Item(0, 1, true, false, true), 1 := Item(0, 1, false, false, false), 2 := Item(0, 0, false, false, false), 3 := Item(0, 2, true, true, false)],
      map[0 := 3], map[], map[1 := 1, 3 := 3, 4 := 3],
      map[1 := Claim(Move, 0, true, None, {}), 2 := Unlink(1, 3), 4 := Claim(Notifying, 2, true, Some(4), {})],
      map[], map[0 := Ready(Some(3))], map[0 := 1, 2 := 4], map[])
  }

  function Movers22(): State {
    State(
      map[0 := Item(0, 1, true, false, true), 1 := Item(0, 1, false, false, false), 2 := Item(0, 0, false, false, false), 3 := Item(0, 2, false, true, false)],
      map[0 := 3], map[], map[1 := 1, 3 := 3, 4 := 3],
      map[1 := Claim(Move, 0, true, None, {}), 4 := Claim(Notifying, 2, true, Some(4), {})], map[],
      map[0 := Ready(Some(3))], map[0 := 1, 2 := 4], map[])
  }

  function Movers23(): State {
    State(
      map[0 := Item(0, 1, true, false, true), 1 := Item(0, 1, false, false, false), 2 := Item(0, 0, false, false, false), 3 := Item(0, 2, false, true, false)],
      map[0 := 3], map[], map[1 := 1, 3 := 3, 4 := 3],
      map[1 := Claim(Move, 0, true, None, {}), 4 := Claim(Freeing, 2, true, None, {})], map[],
      map[0 := Ready(Some(3))], map[0 := 1, 2 := 4], map[])
  }

  function Movers24(): State {
    State(
      map[0 := Item(0, 1, true, false, true), 1 := Item(0, 1, false, false, false), 2 := Item(0, 0, false, false, false), 3 := Item(0, 1, false, true, false)],
      map[0 := 3], map[], map[1 := 1, 3 := 3],
      map[1 := Claim(Move, 0, true, None, {}), 4 := Claim(Freeing, 2, true, None, {})], map[],
      map[0 := Ready(Some(3))], map[0 := 1, 2 := 4], map[])
  }

  function Movers25(): State {
    State(
      map[0 := Item(0, 1, true, false, true), 1 := Item(0, 1, false, false, false), 2 := Item(0, 0, false, false, false), 3 := Item(0, 0, false, true, false)],
      map[0 := 3], map[], map[1 := 1],
      map[1 := Claim(Move, 0, true, None, {}), 4 := Claim(Freeing, 2, true, None, {})], map[],
      map[0 := Ready(Some(3))], map[0 := 1, 2 := 4], map[])
  }

  lemma MoversLeg1()
    requires Reach(NOT_ONE_MOVER, Pub2())
    ensures Reach(NOT_ONE_MOVER, Movers1())
  {
    assert DoDrop(Pub2(), 9, 0) == Movers1();
    GoOn(NOT_ONE_MOVER, Pub2(), Action(9, OnHandle(Drop(0))), Movers1());
  }

  lemma MoversLeg2()
    requires Reach(NOT_ONE_MOVER, Movers1())
    ensures Reach(NOT_ONE_MOVER, Movers2())
  {
    assert DoMvMark(Movers1(), 1, 0) == Movers2();
    Go(NOT_ONE_MOVER, Movers1(), Action(1, OnMove(MvMark(0))), Movers2());
  }

  lemma MoversLeg3()
    requires Reach(NOT_ONE_MOVER, Movers2())
    ensures Reach(NOT_ONE_MOVER, Movers3())
  {
    assert DoPubAdd(Movers2(), 2, 1, true) == Movers3();
    Go(NOT_ONE_MOVER, Movers2(), Action(2, OnInsert(PubAdd(1, true))), Movers3());
  }

  lemma MoversLeg4()
    requires Reach(NOT_ONE_MOVER, Movers3())
    ensures Reach(NOT_ONE_MOVER, Movers4())
  {
    assert DoIorTable(Movers3(), 2) == Movers4();
    GoOn(NOT_ONE_MOVER, Movers3(), Action(2, OnInsert(IorTable)), Movers4());
  }

  lemma MoversLeg5()
    requires Reach(NOT_ONE_MOVER, Movers4())
    ensures Reach(NOT_ONE_MOVER, Movers5())
  {
    assert DoAcqMoving(Movers4(), 2) == Movers5();
    GoOn(NOT_ONE_MOVER, Movers4(), Action(2, OnLookup(AcqMoving)), Movers5());
  }

  lemma MoversLeg6()
    requires Reach(NOT_ONE_MOVER, Movers5())
    ensures Reach(NOT_ONE_MOVER, Movers6())
  {
    assert {} + {0} == {0};
    assert DoWaitQueue(Movers5(), 2, 0) == Movers6();
    GoOn(NOT_ONE_MOVER, Movers5(), Action(2, OnLookup(WaitQueue(0))), Movers6());
  }

  lemma MoversLeg7()
    requires Reach(NOT_ONE_MOVER, Movers6())
    ensures Reach(NOT_ONE_MOVER, Movers7())
  {
    assert DoIorSwapFlags(Movers6(), 2) == Movers7();
    GoOn(NOT_ONE_MOVER, Movers6(), Action(2, OnInsert(IorSwapFlags)), Movers7());
  }

  lemma MoversLeg8()
    requires Reach(NOT_ONE_MOVER, Movers7())
    ensures Reach(NOT_ONE_MOVER, Movers8())
  {
    assert DoAlloc(Movers7(), 9, 2, 2, 0) == Movers8();
    GoOn(NOT_ONE_MOVER, Movers7(), Action(9, OnHandle(Alloc(2, 2, 0))), Movers8());
  }

  lemma MoversLeg9()
    requires Reach(NOT_ONE_MOVER, Movers8())
    ensures Reach(NOT_ONE_MOVER, Movers9())
  {
    assert DoRplTable(Movers8(), 3, 1, 2) == Movers9();
    Go(NOT_ONE_MOVER, Movers8(), Action(3, OnReplace(RplTable(1, 2))), Movers9());
  }

  lemma MoversLeg10()
    requires Reach(NOT_ONE_MOVER, Movers9())
    ensures Reach(NOT_ONE_MOVER, Movers10())
  {
    assert DoRplMM(Movers9(), 3) == Movers10();
    GoOn(NOT_ONE_MOVER, Movers9(), Action(3, OnReplace(RplMM)), Movers10());
  }

  lemma MoversLeg11()
    requires Reach(NOT_ONE_MOVER, Movers10())
    ensures Reach(NOT_ONE_MOVER, Movers11())
  {
    assert DoRplLast(Movers10(), 3) == Movers11();
    GoOn(NOT_ONE_MOVER, Movers10(), Action(3, OnReplace(RplLast)), Movers11());
  }

  lemma MoversLeg12()
    requires Reach(NOT_ONE_MOVER, Movers11())
    ensures Reach(NOT_ONE_MOVER, Movers12())
  {
    assert DoDrop(Movers11(), 9, 2) == Movers12();
    GoOn(NOT_ONE_MOVER, Movers11(), Action(9, OnHandle(Drop(2))), Movers12());
  }

  lemma MoversLeg13()
    requires Reach(NOT_ONE_MOVER, Movers12())
    ensures Reach(NOT_ONE_MOVER, Movers13())
  {
    assert DoMvMark(Movers12(), 4, 2) == Movers13();
    Go(NOT_ONE_MOVER, Movers12(), Action(4, OnMove(MvMark(2))), Movers13());
  }

  lemma MoversLeg14()
    requires Reach(NOT_ONE_MOVER, Movers13())
    ensures Reach(NOT_ONE_MOVER, Movers14())
  {
    assert DoMvAlloc(Movers13(), 4, 3, 4) == Movers14();
    GoOn(NOT_ONE_MOVER, Movers13(), Action(4, OnMove(MvAlloc(3, 4))), Movers14());
  }

  lemma MoversLeg15()
    requires Reach(NOT_ONE_MOVER, Movers14())
    ensures Reach(NOT_ONE_MOVER, Movers15())
  {
    assert DoMvAdd(Movers14(), 4) == Movers15();
    GoOn(NOT_ONE_MOVER, Movers14(), Action(4, OnMove(MvAdd)), Movers15());
  }

  lemma MoversLeg16()
    requires Reach(NOT_ONE_MOVER, Movers15())
    ensures Reach(NOT_ONE_MOVER, Movers16())
  {
    assert DoMvTable(Movers15(), 4) == Movers16();
    GoOn(NOT_ONE_MOVER, Movers15(), Action(4, OnMove(MvTable)), Movers16());
  }

  lemma MoversLeg17()
    requires Reach(NOT_ONE_MOVER, Movers16())
    ensures Reach(NOT_ONE_MOVER, Movers17())
  {
    assert DoOwnOffMM(Movers16(), 4) == Movers17();
    GoOn(NOT_ONE_MOVER, Movers16(), Action(4, OnEvict(OwnOffMM)), Movers17());
  }

  lemma MoversLeg18()
    requires Reach(NOT_ONE_MOVER, Movers17())
    ensures Reach(NOT_ONE_MOVER, Movers18())
  {
    assert DoMvUnmark(Movers17(), 4) == Movers18();
    GoOn(NOT_ONE_MOVER, Movers17(), Action(4, OnMove(MvUnmark)), Movers18());
  }

  lemma MoversLeg19()
    requires Reach(NOT_ONE_MOVER, Movers18())
    ensures Reach(NOT_ONE_MOVER, Movers19())
  {
    assert DoWakeTake(Movers18(), 4) == Movers19();
    GoOn(NOT_ONE_MOVER, Movers18(), Action(4, OnWake(WakeTake)), Movers19());
  }

  lemma MoversLeg20()
    requires Reach(NOT_ONE_MOVER, Movers19())
    ensures Reach(NOT_ONE_MOVER, Movers20())
  {
    assert {0} - {0} == {};
    assert DoNotifyOne(Movers19(), 4, 0, 3) == Movers20();
    GoOn(NOT_ONE_MOVER, Movers19(), Action(4, OnWake(NotifyOne(0, 3))), Movers20());
  }

  lemma MoversLeg21()
    requires Reach(NOT_ONE_MOVER, Movers20())
    ensures Reach(NOT_ONE_MOVER, Movers21())
  {
    assert DoIorResume(Movers20(), 2) == Movers21();
    GoOn(NOT_ONE_MOVER, Movers20(), Action(2, OnInsert(IorResume)), Movers21());
  }

  lemma MoversLeg22()
    requires Reach(NOT_ONE_MOVER, Movers21())
    ensures Reach(NOT_ONE_MOVER, Movers22())
  {
    assert DoUnlinkMM(Movers21(), 2) == Movers22();
    GoOn(NOT_ONE_MOVER, Movers21(), Action(2, OnInsert(UnlinkMM)), Movers22());
  }

  lemma MoversLeg23()
    requires Reach(NOT_ONE_MOVER, Movers22())
    ensures Reach(NOT_ONE_MOVER, Movers23())
  {
    assert DoNotifyDone(Movers22(), 4) == Movers23();
    GoOn(NOT_ONE_MOVER, Movers22(), Action(4, OnWake(NotifyDone)), Movers23());
  }

  lemma MoversLeg24()
    requires Reach(NOT_ONE_MOVER, Movers23())
    ensures Reach(NOT_ONE_MOVER, Movers24())
  {
    assert DoDrop(Movers23(), 9, 4) == Movers24();
    GoOn(NOT_ONE_MOVER, Movers23(), Action(9, OnHandle(Drop(4))), Movers24());
  }

  lemma MoversLeg25()
    requires Reach(NOT_ONE_MOVER, Movers24())
    ensures Reach(NOT_ONE_MOVER, Movers25())
  {
    assert DoDrop(Movers24(), 9, 3) == Movers25();
    GoOn(NOT_ONE_MOVER, Movers24(), Action(9, OnHandle(Drop(3))), Movers25());
  }

  lemma MoversRun()
    ensures Reach(NOT_ONE_MOVER, Movers25())
  {
    PubRun(NOT_ONE_MOVER);
    MoversLeg1();
    MoversLeg2();
    MoversLeg3();
    MoversLeg4();
    MoversLeg5();
    MoversLeg6();
    MoversLeg7();
    MoversLeg8();
    MoversLeg9();
    MoversLeg10();
    MoversLeg11();
    MoversLeg12();
    MoversLeg13();
    MoversLeg14();
    MoversLeg15();
    MoversLeg16();
    MoversLeg17();
    MoversLeg18();
    MoversLeg19();
    MoversLeg20();
    MoversLeg21();
    MoversLeg22();
    MoversLeg23();
    MoversLeg24();
    MoversLeg25();
  }

  lemma MoversStranded()
    ensures Stranded(Movers25(), 3)
  {}

  /** Two movers of one key: an insertOrReplace that waits for the first is woken up by the second with the
      item that has just been moved, which is live, and takes that out of its MM container. */
  lemma TwoMoversStrand()
    ensures Reach(NOT_ONE_MOVER, Movers25()) && Stranded(Movers25(), 3)
  {
    MoversRun();
    MoversStranded();
  }

  function Freed1(): State {
    State(
      map[0 := Item(0, 1, true, true, false), 1 := Item(0, 1, true, false, false)], map[0 := 0], map[],
      map[0 := 0, 1 := 1], map[2 := Publish(InsertOrReplace, 1)], map[], map[], map[], map[1 := 2])
  }

  function Freed2(): State {
    State(
      map[0 := Item(0, 1, true, false, false), 1 := Item(0, 1, true, true, false)], map[0 := 1], map[],
      map[0 := 0, 1 := 1], map[2 := Publish(InsertOrReplace, 1), 3 := Rpl(Swapped, 0, 1)], map[], map[],
      map[], map[1 := 2])
  }

  function Freed3(): State {
    State(
      map[0 := Item(0, 1, true, false, false), 1 := Item(0, 1, true, true, false)], map[0 := 1],
      map[0 := Pending(1, 1, 2)], map[0 := 0, 1 := 1],
      map[2 := Look(Acquire, 1, ForReplace(1)), 3 := Rpl(Swapped, 0, 1)], map[], map[], map[], map[1 := 2])
  }

  function Freed4(): State {
    State(
      map[0 := Item(0, 1, true, false, false), 1 := Item(0, 2, true, true, false)], map[0 := 1],
      map[0 := Pending(1, 1, 2)], map[0 := 0, 1 := 1, 2 := 1],
      map[2 := Swap(1, 1, GotHandle(2)), 3 := Rpl(Swapped, 0, 1)], map[], map[], map[], map[1 := 2])
  }

  function Freed5(): State {
    State(
      map[0 := Item(0, 1, true, false, false), 1 := Item(0, 2, false, false, false)], map[0 := 1], map[],
      map[0 := 0, 1 := 1, 2 := 1], map[3 := Rpl(Swapped, 0, 1)], map[], map[], map[], map[])
  }

  function Freed6(): State {
    State(
      map[0 := Item(0, 1, false, false, false), 1 := Item(0, 2, false, false, false)], map[0 := 1], map[],
      map[0 := 0, 1 := 1, 2 := 1], map[], map[], map[], map[], map[])
  }

  function Freed7(): State {
    State(
      map[0 := Item(0, 1, false, false, false), 1 := Item(0, 1, false, false, false)], map[0 := 1], map[],
      map[0 := 0, 1 := 1], map[], map[], map[], map[], map[])
  }

  function Freed8(): State {
    State(
      map[0 := Item(0, 1, false, false, false), 1 := Item(0, 0, false, false, false)], map[0 := 1], map[],
      map[0 := 0], map[9 := Claim(Freeing, 1, false, None, {})], map[], map[], map[1 := 9], map[])
  }

  lemma FreedLeg1()
    requires Reach(NOT_ONE_PUBLISHER, Pub2())
    ensures Reach(NOT_ONE_PUBLISHER, Freed1())
  {
    assert DoPubAdd(Pub2(), 2, 1, true) == Freed1();
    Go(NOT_ONE_PUBLISHER, Pub2(), Action(2, OnInsert(PubAdd(1, true))), Freed1());
  }

  lemma FreedLeg2()
    requires Reach(NOT_ONE_PUBLISHER, Freed1())
    ensures Reach(NOT_ONE_PUBLISHER, Freed2())
  {
    assert DoRplTable(Freed1(), 3, 0, 1) == Freed2();
    Go(NOT_ONE_PUBLISHER, Freed1(), Action(3, OnReplace(RplTable(0, 1))), Freed2());
  }

  lemma FreedLeg3()
    requires Reach(NOT_ONE_PUBLISHER, Freed2())
    ensures Reach(NOT_ONE_PUBLISHER, Freed3())
  {
    assert DoIorTable(Freed2(), 2) == Freed3();
    GoOn(NOT_ONE_PUBLISHER, Freed2(), Action(2, OnInsert(IorTable)), Freed3());
  }

  lemma FreedLeg4()
    requires Reach(NOT_ONE_PUBLISHER, Freed3())
    ensures Reach(NOT_ONE_PUBLISHER, Freed4())
  {
    assert DoAcqOk(Freed3(), 2, 2) == Freed4();
    GoOn(NOT_ONE_PUBLISHER, Freed3(), Action(2, OnLookup(AcqOk(2))), Freed4());
  }

  lemma FreedLeg5()
    requires Reach(NOT_ONE_PUBLISHER, Freed4())
    ensures Reach(NOT_ONE_PUBLISHER, Freed5())
  {
    var s1 := DoIorSwapFlags(Freed4(), 2);
    GoOn(NOT_ONE_PUBLISHER, Freed4(), Action(2, OnInsert(IorSwapFlags)), s1);
    assert DoUnlinkMM(s1, 2) == Freed5();
    GoOn(NOT_ONE_PUBLISHER, s1, Action(2, OnInsert(UnlinkMM)), Freed5());
  }

  lemma FreedLeg6()
    requires Reach(NOT_ONE_PUBLISHER, Freed5())
    ensures Reach(NOT_ONE_PUBLISHER, Freed6())
  {
    var s1 := DoRplMM(Freed5(), 3);
    GoOn(NOT_ONE_PUBLISHER, Freed5(), Action(3, OnReplace(RplMM)), s1);
    assert DoRplLast(s1, 3) == Freed6();
    GoOn(NOT_ONE_PUBLISHER, s1, Action(3, OnReplace(RplLast)), Freed6());
  }

  lemma FreedLeg7()
    requires Reach(NOT_ONE_PUBLISHER, Freed6())
    ensures Reach(NOT_ONE_PUBLISHER, Freed7())
  {
    assert DoDrop(Freed6(), 9, 2) == Freed7();
    GoOn(NOT_ONE_PUBLISHER, Freed6(), Action(9, OnHandle(Drop(2))), Freed7());
  }

  lemma FreedLeg8()
    requires Reach(NOT_ONE_PUBLISHER, Freed7())
    ensures Reach(NOT_ONE_PUBLISHER, Freed8())
  {
    assert DoDrop(Freed7(), 9, 1) == Freed8();
    GoOn(NOT_ONE_PUBLISHER, Freed7(), Action(9, OnHandle(Drop(1))), Freed8());
  }

  lemma FreedRun()
    ensures Reach(NOT_ONE_PUBLISHER, Freed8())
  {
    PubRun(NOT_ONE_PUBLISHER);
    FreedLeg1();
    FreedLeg2();
    FreedLeg3();
    FreedLeg4();
    FreedLeg5();
    FreedLeg6();
    FreedLeg7();
    FreedLeg8();
  }

  /** Two publishers of one item: an insertOrReplace finds its own item in the table, as the node it replaces, and
      leaves it there without the Accessible bit; the last handle then frees memory that lookups still find. */
  lemma TwoPublishersFree()
    ensures Reach(NOT_ONE_PUBLISHER, Freed8()) && CanFree(Freed8(), 9) && !Unreachable(Freed8(), 9, Freed8().threads[9].ci)
  {
    FreedRun();
    assert Freed8().table[0] == Freed8().threads[9].ci;
  }
}
