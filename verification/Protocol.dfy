/** The life of a cache item under arbitrary interleavings.

    Items are shared by any number of threads that look keys up, insert, replace, remove,
    evict and move them.  The synchronisation is a reference count and three admin bits in one
    atomic word per item, a bucket lock around every hash-table operation and a lock around the
    map of waiters for moving items.  A state of the system is a value of `State`; every atomic
    step some thread can take is an `Action`. */
module Protocol {
  import opened Options

  type ItemId = nat
  type Key = nat
  type Tid = nat
  type HandleId = nat
  type WaiterId = nat

  /** The refcount word of a live allocation. */
  datatype Item = Item(key: Key, ref: nat, linked: bool, accessible: bool, exclusive: bool)
  {
    predicate IsMoving() { exclusive && ref != 0 }
    predicate IsMarkedForEviction() { exclusive && ref == 0 }
    predicate IsDrained() { ref == 0 && !linked && !accessible && !exclusive }
    predicate CanMark() { linked && ref == 0 && !exclusive }
  }

  /** A bucket locked exclusively by an insertOrReplace that has already linked the new node and
      is still acquiring a handle to the node it replaced. */
  datatype Pending = Pending(next: ItemId, prev: ItemId, holder: Tid)

  /** Why a thread runs the acquire loop: a lookup, or the replaced node of an insertOrReplace. */
  datatype Goal = ForFind | ForReplace(gh: HandleId)

  /** What the acquire loop gave an insertOrReplace for the replaced node. */
  datatype Got = GotHandle(gr: HandleId) | GotNone | GotWait(gw: WaiterId)

  datatype LookStage =
    | Acquire      // about to incRef
    | TryWait      // incRef said "moving": about to queue a waiter

  datatype PubStage =
    | Insert       // insert: in the MM container, not in the table
    | TakeBack     // insert: key taken, MM removal pending
    | InsertOrReplace

  datatype RplStage =
    | Swapped      // table swapped
    | Add          // old unlinked, new to be added to its own container
    | Undo         // MM replace failed, table removal pending
    | Check        // MM swapped, last accessibility check pending

  /** The stages of a thread that will give the memory of an item back. */
  datatype ClaimStage =
    | Evict        // marked for eviction, MM removal pending
    | Unlink0      // unlinkItemForEviction: table removal pending
    | Unlink1      // MM removal pending
    | Unlink2      // unmarking pending
    | Move         // marked moving
    | MoveNew      // destination allocated
    | MoveAdded    // destination in the MM container
    | MoveUndo     // table swap refused
    | MoveTried    // move given up
    | MoveSwapped  // table swapped
    | MoveOffMM    // old item out of the MM container
    | Waking       // mark cleared, wait entry not erased yet
    | Notifying    // wait entry taken, waiters being set
    | Freeing      // drained

  /** Where a thread stands inside an operation. */
  datatype PC =
    | Look(lstage: LookStage, li: ItemId, goal: Goal)            // acquire(), bucket lock held
    | Publish(pstage: PubStage, ph: HandleId)                    // making an item accessible
    | Swap(sh: HandleId, sprev: ItemId, got: Got)                // insertOrReplace: flags to be swapped, lock held
    | Blocked(bh: HandleId, bw: WaiterId)                        // insertOrReplace: replaced node is moving
    | Unlink(uh: HandleId, ur: HandleId)                         // MM removal of the item of `ur` pending
    | Rpl(rstage: RplStage, ro: HandleId, rn: HandleId)          // replaceIfAccessible
    | Claim(cstage: ClaimStage, ci: ItemId, mover: bool, to: Option<HandleId>, ws: set<WaiterId>)

  /** A waiter: queued under a key, in the hands of a notifying mover, or set. */
  datatype WState = Queued(wk: Key) | Held(wt: Tid) | Ready(oh: Option<HandleId>)

  /** `claims` and `pubs` are history variables: the thread that alone may free an item, and the
      thread that is making an item accessible.  No step depends on them. */
  datatype State = State(
    items: map<ItemId, Item>,
    table: map<Key, ItemId>,
    locked: map<Key, Pending>,
    handles: map<HandleId, ItemId>,
    threads: map<Tid, PC>,
    waits: map<Key, set<WaiterId>>,
    waiters: map<WaiterId, WState>,
    claims: map<ItemId, Tid>,
    pubs: map<ItemId, Tid>)

  function Init(): State {
    State(map[], map[], map[], map[], map[], map[], map[], map[], map[])
  }

  /** The handle a waiter was set to. */
  predicate Delivered(s: State, w: WaiterId, h: HandleId) {
    w in s.waiters && s.waiters[w] == Ready(Some(h))
  }

  /** The operation in flight keeps handle `h` alive. */
  predicate Uses(s: State, pc: PC, h: HandleId) {
    match pc
    case Look(_, _, goal) => goal == ForReplace(h)
    case Publish(_, ph) => h == ph
    case Swap(sh, _, got) => h == sh || got == GotHandle(h) || (got.GotWait? && Delivered(s, got.gw, h))
    case Blocked(bh, w) => h == bh || Delivered(s, w, h)
    case Unlink(uh, ur) => h == uh || h == ur
    case Rpl(_, o, n) => h == o || h == n
    case Claim(_, _, _, to, _) => to == Some(h)
  }

  /** The shared bucket lock of a lookup. */
  predicate HoldsShared(s: State, pc: PC, k: Key) {
    pc.Look? && pc.goal.ForFind? && pc.li in s.items && s.items[pc.li].key == k
  }

  predicate LockFree(s: State, k: Key) {
    k !in s.locked && forall t | t in s.threads :: !HoldsShared(s, s.threads[t], k)
  }

  predicate Live(s: State, i: ItemId) { i in s.items }

  predicate Idle(s: State, t: Tid) { t !in s.threads }

  /** `h` is a handle to a live item. */
  predicate Holds(s: State, h: HandleId) { h in s.handles && s.handles[h] in s.items }

  function It(s: State, h: HandleId): Item requires Holds(s, h) { s.items[s.handles[h]] }

  predicate Looking(s: State, t: Tid, stage: LookStage) {
    t in s.threads && s.threads[t].Look? && s.threads[t].lstage == stage && Live(s, s.threads[t].li)
  }

  predicate Publishing(s: State, t: Tid, stage: PubStage) {
    t in s.threads && s.threads[t].Publish? && s.threads[t].pstage == stage && Holds(s, s.threads[t].ph)
  }

  predicate Replacing(s: State, t: Tid, stage: RplStage) {
    && t in s.threads && s.threads[t].Rpl? && s.threads[t].rstage == stage
    && Holds(s, s.threads[t].ro) && Holds(s, s.threads[t].rn)
  }

  predicate Claiming(s: State, t: Tid, stage: ClaimStage) {
    t in s.threads && s.threads[t].Claim? && s.threads[t].cstage == stage && Live(s, s.threads[t].ci)
  }

  /** A mover with a destination item. */
  predicate MovingTo(s: State, t: Tid, stage: ClaimStage) {
    Claiming(s, t, stage) && s.threads[t].to.Some? && Holds(s, s.threads[t].to.value)
  }

  // ---- the atomic updates

  type Items = map<ItemId, Item>

  function Linked(m: Items, i: ItemId, b: bool): Items requires i in m { m[i := m[i].(linked := b)] }

  function Acc(m: Items, i: ItemId, b: bool): Items requires i in m {
    m[i := m[i].(accessible := b)]
  }

  /** incRef */
  function Inc(m: Items, i: ItemId): Items requires i in m { m[i := m[i].(ref := m[i].ref + 1)] }

  /** decRef */
  function Dec(m: Items, i: ItemId): Items requires i in m && m[i].ref > 0 { m[i := m[i].(ref := m[i].ref - 1)] }

  /** A fresh allocation with one reference. */
  function Fresh(m: Items, n: ItemId, k: Key): Items { m[n := Item(k, 1, false, false, false)] }

  /** The items and the table once `i` is taken out of the table, if it is in. */
  function OffItems(s: State, i: ItemId): Items requires Live(s, i) {
    if s.items[i].accessible then Acc(s.items, i, false) else s.items
  }

  function OffTable(s: State, i: ItemId): map<Key, ItemId> requires Live(s, i) {
    if s.items[i].accessible then s.table - {s.items[i].key} else s.table
  }

  function SetPc(s: State, t: Tid, pc: PC): State { s.(threads := s.threads[t := pc]) }

  function Done(s: State, t: Tid): State { s.(threads := s.threads - {t}) }

  function Stage(s: State, t: Tid, stage: ClaimStage): map<Tid, PC>
    requires t in s.threads && s.threads[t].Claim?
  {
    s.threads[t := s.threads[t].(cstage := stage)]
  }

  /** Put the published item `i` into the table and finish. */
  function IntoTable(s: State, t: Tid, i: ItemId): State requires Live(s, i) {
    s.(items := Acc(s.items, i, true), table := s.table[s.items[i].key := i], threads := s.threads - {t}, pubs := s.pubs - {i})
  }

  // ---- handles in the hands of users

  /** allocate: fresh memory and the first handle to it. */
  predicate CanAlloc(s: State, t: Tid, n: ItemId, h: HandleId, k: Key) {
    Idle(s, t) && n !in s.items && h !in s.handles
  }

  function DoAlloc(s: State, t: Tid, n: ItemId, h: HandleId, k: Key): State
    requires CanAlloc(s, t, n, h, k)
  {
    s.(items := Fresh(s.items, n, k), handles := s.handles[h := n])
  }

  predicate CanClone(s: State, t: Tid, h: HandleId, h2: HandleId) {
    Idle(s, t) && Holds(s, h) && h2 !in s.handles && !It(s, h).exclusive
  }

  function DoClone(s: State, t: Tid, h: HandleId, h2: HandleId): State
    requires CanClone(s, t, h, h2)
  {
    s.(items := Inc(s.items, s.handles[h]), handles := s.handles[h2 := s.handles[h]])
  }

  /** release: decRef; the thread that sees the whole word drop to zero frees the item. */
  predicate CanDrop(s: State, t: Tid, h: HandleId) {
    && Idle(s, t) && Holds(s, h) && It(s, h).ref > 0
    && forall t' | t' in s.threads :: !Uses(s, s.threads[t'], h)
  }

  function DoDrop(s: State, t: Tid, h: HandleId): State
    requires CanDrop(s, t, h)
  {
    var i := s.handles[h];
    var items := Dec(s.items, i);
    if items[i].IsDrained()
    then s.(items := items, handles := s.handles - {h}, claims := s.claims[i := t],
            threads := s.threads[t := Claim(Freeing, i, false, None, {})])
    else s.(items := items, handles := s.handles - {h})
  }

  // ---- the acquire loop, under the bucket lock

  predicate CanFindHit(s: State, t: Tid, k: Key) { Idle(s, t) && k in s.table && k !in s.locked }

  function DoFindHit(s: State, t: Tid, k: Key): State
    requires CanFindHit(s, t, k)
  {
    SetPc(s, t, Look(Acquire, s.table[k], ForFind))
  }

  /** The end of the acquire loop. */
  function Acquired(s: State, t: Tid, got: Got): map<Tid, PC>
    requires t in s.threads && s.threads[t].Look?
  {
    match s.threads[t].goal
    case ForFind => s.threads - {t}
    case ForReplace(h) => s.threads[t := Swap(h, s.threads[t].li, got)]
  }

  predicate CanAcqOk(s: State, t: Tid, h: HandleId) {
    Looking(s, t, Acquire) && h !in s.handles && !s.items[s.threads[t].li].exclusive
  }

  function DoAcqOk(s: State, t: Tid, h: HandleId): State
    requires CanAcqOk(s, t, h)
  {
    var i := s.threads[t].li;
    s.(items := Inc(s.items, i), handles := s.handles[h := i], threads := Acquired(s, t, GotHandle(h)))
  }

  predicate CanAcqEvicted(s: State, t: Tid) {
    Looking(s, t, Acquire) && s.items[s.threads[t].li].IsMarkedForEviction()
  }

  function DoAcqEvicted(s: State, t: Tid): State
    requires CanAcqEvicted(s, t)
  {
    s.(threads := Acquired(s, t, GotNone))
  }

  predicate CanAcqMoving(s: State, t: Tid) { Looking(s, t, Acquire) && s.items[s.threads[t].li].IsMoving() }

  function DoAcqMoving(s: State, t: Tid): State
    requires CanAcqMoving(s, t)
  {
    SetPc(s, t, s.threads[t].(lstage := TryWait))
  }

  predicate CanWaitQueue(s: State, t: Tid, w: WaiterId) {
    Looking(s, t, TryWait) && w !in s.waiters && s.items[s.threads[t].li].IsMoving()
  }

  function DoWaitQueue(s: State, t: Tid, w: WaiterId): State
    requires CanWaitQueue(s, t, w)
  {
    var k := s.items[s.threads[t].li].key;
    s.(waits := s.waits[k := (if k in s.waits then s.waits[k] else {}) + {w}],
       waiters := s.waiters[w := Queued(k)], threads := Acquired(s, t, GotWait(w)))
  }

  predicate CanWaitRetry(s: State, t: Tid) { Looking(s, t, TryWait) && !s.items[s.threads[t].li].IsMoving() }

  function DoWaitRetry(s: State, t: Tid): State
    requires CanWaitRetry(s, t)
  {
    SetPc(s, t, s.threads[t].(lstage := Acquire))
  }

  // ---- insert, insertOrReplace and remove

  /** An insertion goes on only if the item is out of both containers; otherwise it throws. */
  predicate CanPubAdd(s: State, t: Tid, h: HandleId, replace: bool) {
    Idle(s, t) && Holds(s, h) && !It(s, h).accessible && !It(s, h).linked
  }

  function DoPubAdd(s: State, t: Tid, h: HandleId, replace: bool): State
    requires CanPubAdd(s, t, h, replace)
  {
    s.(items := Linked(s.items, s.handles[h], true), pubs := s.pubs[s.handles[h] := t],
       threads := s.threads[t := Publish(if replace then InsertOrReplace else Insert, h)])
  }

  predicate CanInsTable(s: State, t: Tid) {
    Publishing(s, t, Insert) && LockFree(s, It(s, s.threads[t].ph).key)
  }

  function DoInsTable(s: State, t: Tid): State
    requires CanInsTable(s, t)
  {
    if It(s, s.threads[t].ph).key in s.table then SetPc(s, t, Publish(TakeBack, s.threads[t].ph))
    else IntoTable(s, t, s.handles[s.threads[t].ph])
  }

  predicate CanInsTakeBack(s: State, t: Tid) { Publishing(s, t, TakeBack) }

  function DoInsTakeBack(s: State, t: Tid): State
    requires CanInsTakeBack(s, t)
  {
    var i := s.handles[s.threads[t].ph];
    s.(items := Linked(s.items, i, false), pubs := s.pubs - {i}, threads := s.threads - {t})
  }

  predicate CanIorTable(s: State, t: Tid) {
    Publishing(s, t, InsertOrReplace) && LockFree(s, It(s, s.threads[t].ph).key)
  }

  function DoIorTable(s: State, t: Tid): State
    requires CanIorTable(s, t)
  {
    var h := s.threads[t].ph;
    var i := s.handles[h];
    var k := s.items[i].key;
    if k in s.table then
      s.(table := s.table[k := i], locked := s.locked[k := Pending(i, s.table[k], t)],
         threads := s.threads[t := Look(Acquire, s.table[k], ForReplace(h))])
    else IntoTable(s, t, i)
  }

  /** Where an insertOrReplace goes on, given what it got for the replaced node. */
  function Replaced(s: State, t: Tid, h: HandleId, got: Got): map<Tid, PC> {
    match got
    case GotHandle(r) => s.threads[t := Unlink(h, r)]
    case GotNone => s.threads - {t}
    case GotWait(w) => s.threads[t := Blocked(h, w)]
  }

  predicate CanIorSwapFlags(s: State, t: Tid) {
    t in s.threads && s.threads[t].Swap? && Holds(s, s.threads[t].sh) && Live(s, s.threads[t].sprev)
  }

  function DoIorSwapFlags(s: State, t: Tid): State
    requires CanIorSwapFlags(s, t)
  {
    var pc := s.threads[t];
    var i := s.handles[pc.sh];
    s.(items := Acc(Acc(s.items, i, true), pc.sprev, false), locked := s.locked - {s.items[i].key},
       pubs := s.pubs - {i}, threads := Replaced(s, t, pc.sh, pc.got))
  }

  predicate CanIorResume(s: State, t: Tid) {
    t in s.threads && s.threads[t].Blocked? && s.threads[t].bw in s.waiters && s.waiters[s.threads[t].bw].Ready?
  }

  function DoIorResume(s: State, t: Tid): State
    requires CanIorResume(s, t)
  {
    match s.waiters[s.threads[t].bw].oh
    case None => Done(s, t)
    case Some(r) => SetPc(s, t, Unlink(s.threads[t].bh, r))
  }

  predicate CanRemTable(s: State, t: Tid, h: HandleId) {
    Idle(s, t) && Holds(s, h) && LockFree(s, It(s, h).key)
  }

  function DoRemTable(s: State, t: Tid, h: HandleId): State
    requires CanRemTable(s, t, h)
  {
    s.(items := OffItems(s, s.handles[h]), table := OffTable(s, s.handles[h]),
       threads := s.threads[t := Unlink(h, h)])
  }

  /** The last step of remove, and of an insertOrReplace that got a handle to the replaced node. */
  predicate CanUnlinkMM(s: State, t: Tid) {
    t in s.threads && s.threads[t].Unlink? && Holds(s, s.threads[t].ur)
  }

  function DoUnlinkMM(s: State, t: Tid): State
    requires CanUnlinkMM(s, t)
  {
    s.(items := Linked(s.items, s.handles[s.threads[t].ur], false), threads := s.threads - {t})
  }

  // ---- replaceIfAccessible

  predicate CanRplTable(s: State, t: Tid, o: HandleId, n: HandleId) {
    && Idle(s, t) && Holds(s, o) && Holds(s, n) && It(s, o).key == It(s, n).key
    && It(s, o).accessible && !It(s, n).accessible
    && LockFree(s, It(s, o).key)
  }

  function DoRplTable(s: State, t: Tid, o: HandleId, n: HandleId): State
    requires CanRplTable(s, t, o, n)
  {
    s.(items := Acc(Acc(s.items, s.handles[o], false), s.handles[n], true),
       table := s.table[It(s, o).key := s.handles[n]], threads := s.threads[t := Rpl(Swapped, o, n)])
  }

  /** Both items in one MM container: replace in place. */
  predicate CanRplMM(s: State, t: Tid) { Replacing(s, t, Swapped) }

  function DoRplMM(s: State, t: Tid): State
    requires CanRplMM(s, t)
  {
    var pc := s.threads[t];
    if It(s, pc.ro).linked && !It(s, pc.rn).linked
    then s.(items := Linked(Linked(s.items, s.handles[pc.ro], false), s.handles[pc.rn], true),
            threads := s.threads[t := pc.(rstage := Check)])
    else SetPc(s, t, pc.(rstage := Undo))
  }

  /** Items of two MM containers: remove from one, then add to the other. */
  predicate CanRplMMRemove(s: State, t: Tid) { Replacing(s, t, Swapped) }

  function DoRplMMRemove(s: State, t: Tid): State
    requires CanRplMMRemove(s, t)
  {
    var pc := s.threads[t];
    if It(s, pc.ro).linked
    then s.(items := Linked(s.items, s.handles[pc.ro], false), threads := s.threads[t := pc.(rstage := Add)])
    else SetPc(s, t, pc.(rstage := Undo))
  }

  predicate CanRplMMAdd(s: State, t: Tid) { Replacing(s, t, Add) }

  function DoRplMMAdd(s: State, t: Tid): State
    requires CanRplMMAdd(s, t)
  {
    var pc := s.threads[t];
    if It(s, pc.rn).linked then SetPc(s, t, pc.(rstage := Undo))
    else s.(items := Linked(s.items, s.handles[pc.rn], true), threads := s.threads[t := pc.(rstage := Check)])
  }

  predicate CanRplTakeBack(s: State, t: Tid) {
    Replacing(s, t, Undo) && LockFree(s, It(s, s.threads[t].rn).key)
  }

  function DoRplTakeBack(s: State, t: Tid): State
    requires CanRplTakeBack(s, t)
  {
    var i := s.handles[s.threads[t].rn];
    s.(items := OffItems(s, i), table := OffTable(s, i), threads := s.threads - {t})
  }

  predicate CanRplLast(s: State, t: Tid) { Replacing(s, t, Check) }

  function DoRplLast(s: State, t: Tid): State
    requires CanRplLast(s, t)
  {
    var i := s.handles[s.threads[t].rn];
    if s.items[i].accessible then Done(s, t)
    else s.(items := Linked(s.items, i, false), threads := s.threads - {t})
  }

  // ---- eviction, slab release and release of memory

  predicate CanMarkIt(s: State, t: Tid, i: ItemId) { Idle(s, t) && Live(s, i) && s.items[i].CanMark() }

  /** markForEviction */
  function DoEvMark(s: State, t: Tid, i: ItemId): State
    requires CanMarkIt(s, t, i)
  {
    s.(items := s.items[i := s.items[i].(exclusive := true)], claims := s.claims[i := t],
       threads := s.threads[t := Claim(Evict, i, false, None, {})])
  }

  /** markMoving: the mark takes an internal reference. */
  function DoMvMark(s: State, t: Tid, i: ItemId): State
    requires CanMarkIt(s, t, i)
  {
    s.(items := s.items[i := s.items[i].(ref := s.items[i].ref + 1, exclusive := true)], claims := s.claims[i := t],
       threads := s.threads[t := Claim(Move, i, true, None, {})])
  }

  /** The claimed item leaves its MM container. */
  predicate CanOwnOffMM(s: State, t: Tid) {
    Claiming(s, t, Evict) || Claiming(s, t, Unlink1) || Claiming(s, t, MoveSwapped)
  }

  function DoOwnOffMM(s: State, t: Tid): State
    requires CanOwnOffMM(s, t)
  {
    var pc := s.threads[t];
    var next := if pc.cstage == Evict then Unlink0 else if pc.cstage == Unlink1 then Unlink2 else MoveOffMM;
    s.(items := Linked(s.items, pc.ci, false), threads := Stage(s, t, next))
  }

  predicate CanOwnOffTable(s: State, t: Tid) {
    Claiming(s, t, Unlink0) && LockFree(s, s.items[s.threads[t].ci].key)
  }

  function DoOwnOffTable(s: State, t: Tid): State
    requires CanOwnOffTable(s, t)
  {
    var i := s.threads[t].ci;
    s.(items := OffItems(s, i), table := OffTable(s, i), threads := Stage(s, t, Unlink1))
  }

  /** unmarkForEviction */
  predicate CanEvUnmark(s: State, t: Tid) { Claiming(s, t, Unlink2) }

  function DoEvUnmark(s: State, t: Tid): State
    requires CanEvUnmark(s, t)
  {
    var pc := s.threads[t];
    s.(items := s.items[pc.ci := s.items[pc.ci].(exclusive := false)],
       threads := Stage(s, t, if pc.mover then Waking else Freeing))
  }

  predicate CanMvAlloc(s: State, t: Tid, n: ItemId, h: HandleId) {
    Claiming(s, t, Move) && n !in s.items && h !in s.handles
  }

  function DoMvAlloc(s: State, t: Tid, n: ItemId, h: HandleId): State
    requires CanMvAlloc(s, t, n, h)
  {
    var i := s.threads[t].ci;
    s.(items := Fresh(s.items, n, s.items[i].key), handles := s.handles[h := n], pubs := s.pubs[n := t],
       threads := s.threads[t := Claim(MoveNew, i, true, Some(h), {})])
  }

  predicate CanMvAdd(s: State, t: Tid) { MovingTo(s, t, MoveNew) }

  function DoMvAdd(s: State, t: Tid): State
    requires CanMvAdd(s, t)
  {
    s.(items := Linked(s.items, s.handles[s.threads[t].to.value], true), threads := Stage(s, t, MoveAdded))
  }

  predicate CanMvTable(s: State, t: Tid) {
    MovingTo(s, t, MoveAdded) && LockFree(s, s.items[s.threads[t].ci].key)
  }

  function DoMvTable(s: State, t: Tid): State
    requires CanMvTable(s, t)
  {
    var i, n := s.threads[t].ci, s.handles[s.threads[t].to.value];
    if s.items[i].accessible
    then s.(items := Acc(Acc(s.items, i, false), n, true), table := s.table[s.items[i].key := n], pubs := s.pubs - {n},
            threads := Stage(s, t, MoveSwapped))
    else s.(threads := Stage(s, t, MoveUndo))
  }

  /** The item has expired: the move is given up before the destination is added to an MM container. */
  predicate CanMvExpired(s: State, t: Tid) { MovingTo(s, t, MoveNew) }

  function DoMvExpired(s: State, t: Tid): State
    requires CanMvExpired(s, t)
  {
    s.(pubs := s.pubs - {s.handles[s.threads[t].to.value]},
       threads := s.threads[t := Claim(MoveTried, s.threads[t].ci, true, None, {})])
  }

  /** The destination leaves its MM container; its handle goes the way of any other handle. */
  predicate CanMvTakeBack(s: State, t: Tid) { MovingTo(s, t, MoveUndo) }

  function DoMvTakeBack(s: State, t: Tid): State
    requires CanMvTakeBack(s, t)
  {
    var n := s.handles[s.threads[t].to.value];
    s.(items := Linked(s.items, n, false), pubs := s.pubs - {n},
       threads := s.threads[t := Claim(MoveTried, s.threads[t].ci, true, None, {})])
  }

  /** markForEvictionWhenMoving: the item could not be moved. */
  predicate CanMvGiveUp(s: State, t: Tid) {
    (Claiming(s, t, Move) || Claiming(s, t, MoveTried)) && s.items[s.threads[t].ci].ref > 0
  }

  function DoMvGiveUp(s: State, t: Tid): State
    requires CanMvGiveUp(s, t)
  {
    s.(items := Dec(s.items, s.threads[t].ci), threads := Stage(s, t, Unlink0))
  }

  predicate CanMvUnmark(s: State, t: Tid) { Claiming(s, t, MoveOffMM) && s.items[s.threads[t].ci].ref > 0 }

  function DoMvUnmark(s: State, t: Tid): State
    requires CanMvUnmark(s, t)
  {
    var i := s.threads[t].ci;
    s.(items := s.items[i := s.items[i].(ref := s.items[i].ref - 1, exclusive := false)], threads := Stage(s, t, Waking))
  }

  predicate CanFree(s: State, t: Tid) { Claiming(s, t, Freeing) }

  function DoFree(s: State, t: Tid): State
    requires CanFree(s, t)
  {
    s.(items := s.items - {s.threads[t].ci}, claims := s.claims - {s.threads[t].ci}, threads := s.threads - {t})
  }

  // ---- waking the waiters of a moved item

  predicate CanWakeTake(s: State, t: Tid) { Claiming(s, t, Waking) }

  function DoWakeTake(s: State, t: Tid): State
    requires CanWakeTake(s, t)
  {
    var pc := s.threads[t];
    var k := s.items[pc.ci].key;
    var ws := if k in s.waits then s.waits[k] else {};
    s.(waits := s.waits - {k}, waiters := map w | w in s.waiters :: if w in ws then Held(t) else s.waiters[w],
       threads := s.threads[t := Claim(Notifying, pc.ci, pc.mover, pc.to, ws)])
  }

  predicate CanNotifyOne(s: State, t: Tid, w: WaiterId, h2: HandleId) {
    && Claiming(s, t, Notifying) && w in s.threads[t].ws && h2 !in s.handles
    && (s.threads[t].to.Some? ==> Holds(s, s.threads[t].to.value) && !It(s, s.threads[t].to.value).exclusive)
  }

  function DoNotifyOne(s: State, t: Tid, w: WaiterId, h2: HandleId): State
    requires CanNotifyOne(s, t, w, h2)
  {
    var pc := s.threads[t];
    var threads := s.threads[t := pc.(ws := pc.ws - {w})];
    match pc.to
    case None => s.(waiters := s.waiters[w := Ready(None)], threads := threads)
    case Some(h) =>
      s.(items := Inc(s.items, s.handles[h]), handles := s.handles[h2 := s.handles[h]],
         waiters := s.waiters[w := Ready(Some(h2))], threads := threads)
  }

  predicate CanNotifyDone(s: State, t: Tid) { Claiming(s, t, Notifying) && s.threads[t].ws == {} }

  function DoNotifyDone(s: State, t: Tid): State
    requires CanNotifyDone(s, t)
  {
    SetPc(s, t, Claim(Freeing, s.threads[t].ci, s.threads[t].mover, None, {}))
  }

  // ---- all steps together

  /** Steps of handles in the hands of users. */
  datatype HandleOp = Alloc(ItemId, HandleId, Key) | Clone(HandleId, HandleId) | Drop(HandleId)

  /** Steps of the acquire loop. */
  datatype LookupOp = FindHit(Key) | AcqOk(HandleId) | AcqEvicted | AcqMoving | WaitQueue(WaiterId) | WaitRetry

  /** Steps of insert, insertOrReplace and remove. */
  datatype InsertOp = PubAdd(HandleId, bool) | InsTable | InsTakeBack | IorTable | IorSwapFlags | IorResume | RemTable(HandleId) | UnlinkMM

  /** Steps of replaceIfAccessible. */
  datatype ReplaceOp = RplTable(HandleId, HandleId) | RplMM | RplMMRemove | RplMMAdd | RplTakeBack | RplLast

  /** Steps of eviction and release of memory. */
  datatype EvictOp = EvMark(ItemId) | OwnOffMM | OwnOffTable | EvUnmark | Free

  /** Steps of slab release. */
  datatype MoveOp = MvMark(ItemId) | MvAlloc(ItemId, HandleId) | MvExpired | MvAdd | MvTable | MvTakeBack | MvGiveUp | MvUnmark

  /** Steps of waking the waiters of a moved item. */
  datatype WakeOp = WakeTake | NotifyOne(WaiterId, HandleId) | NotifyDone

  /** The operation a step belongs to. */
  datatype Op =
    | OnHandle(onHandle: HandleOp)
    | OnLookup(onLookup: LookupOp)
    | OnInsert(onInsert: InsertOp)
    | OnReplace(onReplace: ReplaceOp)
    | OnEvict(onEvict: EvictOp)
    | OnMove(onMove: MoveOp)
    | OnWake(onWake: WakeOp)

  /** A step of thread `t`. */
  datatype Action = Action(t: Tid, op: Op)

  ghost predicate HandleStep(s: State, t: Tid, op: HandleOp, s': State) {
    match op
    case Alloc(n, h, k) => CanAlloc(s, t, n, h, k) && s' == DoAlloc(s, t, n, h, k)
    case Clone(h, h2) => CanClone(s, t, h, h2) && s' == DoClone(s, t, h, h2)
    case Drop(h) => CanDrop(s, t, h) && s' == DoDrop(s, t, h)
  }

  ghost predicate LookupStep(s: State, t: Tid, op: LookupOp, s': State) {
    match op
    case FindHit(k) => CanFindHit(s, t, k) && s' == DoFindHit(s, t, k)
    case AcqOk(h) => CanAcqOk(s, t, h) && s' == DoAcqOk(s, t, h)
    case AcqEvicted => CanAcqEvicted(s, t) && s' == DoAcqEvicted(s, t)
    case AcqMoving => CanAcqMoving(s, t) && s' == DoAcqMoving(s, t)
    case WaitQueue(w) => CanWaitQueue(s, t, w) && s' == DoWaitQueue(s, t, w)
    case WaitRetry => CanWaitRetry(s, t) && s' == DoWaitRetry(s, t)
  }

  ghost predicate InsertStep(s: State, t: Tid, op: InsertOp, s': State) {
    match op
    case PubAdd(h, replace) => CanPubAdd(s, t, h, replace) && s' == DoPubAdd(s, t, h, replace)
    case InsTable => CanInsTable(s, t) && s' == DoInsTable(s, t)
    case InsTakeBack => CanInsTakeBack(s, t) && s' == DoInsTakeBack(s, t)
    case IorTable => CanIorTable(s, t) && s' == DoIorTable(s, t)
    case IorSwapFlags => CanIorSwapFlags(s, t) && s' == DoIorSwapFlags(s, t)
    case IorResume => CanIorResume(s, t) && s' == DoIorResume(s, t)
    case RemTable(h) => CanRemTable(s, t, h) && s' == DoRemTable(s, t, h)
    case UnlinkMM => CanUnlinkMM(s, t) && s' == DoUnlinkMM(s, t)
  }

  ghost predicate ReplaceStep(s: State, t: Tid, op: ReplaceOp, s': State) {
    match op
    case RplTable(o, n) => CanRplTable(s, t, o, n) && s' == DoRplTable(s, t, o, n)
    case RplMM => CanRplMM(s, t) && s' == DoRplMM(s, t)
    case RplMMRemove => CanRplMMRemove(s, t) && s' == DoRplMMRemove(s, t)
    case RplMMAdd => CanRplMMAdd(s, t) && s' == DoRplMMAdd(s, t)
    case RplTakeBack => CanRplTakeBack(s, t) && s' == DoRplTakeBack(s, t)
    case RplLast => CanRplLast(s, t) && s' == DoRplLast(s, t)
  }

  ghost predicate EvictStep(s: State, t: Tid, op: EvictOp, s': State) {
    match op
    case EvMark(i) => CanMarkIt(s, t, i) && s' == DoEvMark(s, t, i)
    case OwnOffMM => CanOwnOffMM(s, t) && s' == DoOwnOffMM(s, t)
    case OwnOffTable => CanOwnOffTable(s, t) && s' == DoOwnOffTable(s, t)
    case EvUnmark => CanEvUnmark(s, t) && s' == DoEvUnmark(s, t)
    case Free => CanFree(s, t) && s' == DoFree(s, t)
  }

  ghost predicate MoveStep(s: State, t: Tid, op: MoveOp, s': State) {
    match op
    case MvMark(i) => CanMarkIt(s, t, i) && s' == DoMvMark(s, t, i)
    case MvAlloc(n, h) => CanMvAlloc(s, t, n, h) && s' == DoMvAlloc(s, t, n, h)
    case MvExpired => CanMvExpired(s, t) && s' == DoMvExpired(s, t)
    case MvAdd => CanMvAdd(s, t) && s' == DoMvAdd(s, t)
    case MvTable => CanMvTable(s, t) && s' == DoMvTable(s, t)
    case MvTakeBack => CanMvTakeBack(s, t) && s' == DoMvTakeBack(s, t)
    case MvGiveUp => CanMvGiveUp(s, t) && s' == DoMvGiveUp(s, t)
    case MvUnmark => CanMvUnmark(s, t) && s' == DoMvUnmark(s, t)
  }

  ghost predicate WakeStep(s: State, t: Tid, op: WakeOp, s': State) {
    match op
    case WakeTake => CanWakeTake(s, t) && s' == DoWakeTake(s, t)
    case NotifyOne(w, h2) => CanNotifyOne(s, t, w, h2) && s' == DoNotifyOne(s, t, w, h2)
    case NotifyDone => CanNotifyDone(s, t) && s' == DoNotifyDone(s, t)
  }

  /** Action `a` leads from `s` to `s'`. */
  ghost predicate Step(s: State, a: Action, s': State) {
    match a.op
    case OnHandle(op) => HandleStep(s, a.t, op, s')
    case OnLookup(op) => LookupStep(s, a.t, op, s')
    case OnInsert(op) => InsertStep(s, a.t, op, s')
    case OnReplace(op) => ReplaceStep(s, a.t, op, s')
    case OnEvict(op) => EvictStep(s, a.t, op, s')
    case OnMove(op) => MoveStep(s, a.t, op, s')
    case OnWake(op) => WakeStep(s, a.t, op, s')
  }

  // ---- runs

  /** Thread `t` moves an item with key `k`, or is still waking up its waiters. */
  predicate MovesKey(s: State, t: Tid, k: Key) {
    && t in s.threads && s.threads[t].Claim? && s.threads[t].mover && s.threads[t].cstage != Freeing
    && Live(s, s.threads[t].ci) && s.items[s.threads[t].ci].key == k
  }

  /** The new item of a replaceIfAccessible in flight. */
  function RplItem(s: State, t: Tid): Option<ItemId> {
    if t in s.threads && s.threads[t].Rpl? && s.threads[t].rn in s.handles then Some(s.handles[s.threads[t].rn]) else None
  }

  /** Thread `t` will add item `i` to its MM container or take it out of the table. */
  predicate Adds(s: State, t: Tid, i: ItemId) { RplItem(s, t) == Some(i) && s.threads[t].rstage != Check }

  /** Thread `t` will take item `i` out of its MM container. */
  predicate Unlinks(s: State, t: Tid, i: ItemId) {
    t in s.threads &&
    var pc := s.threads[t];
    || (pc.Unlink? && pc.ur in s.handles && s.handles[pc.ur] == i)
    || (pc.Rpl? && pc.rstage == Swapped && pc.ro in s.handles && s.handles[pc.ro] == i)
    || (pc.Rpl? && pc.rstage == Check && RplItem(s, t) == Some(i))
  }

  /** The item that a step starts to publish: to be inserted, or to replace another. */
  function Published(s: State, a: Action): Option<ItemId> {
    match a.op
    case OnInsert(PubAdd(h, _)) => if h in s.handles then Some(s.handles[h]) else None
    case OnReplace(RplTable(_, n)) => if n in s.handles then Some(s.handles[n]) else None
    case _ => None
  }

  /** An item that a thread is publishing is not published by another. */
  predicate OnePublisher(s: State, a: Action) { Published(s, a).Some? ==> Published(s, a).value !in s.pubs }

  /** An item is not published while a thread still has to take it out of its MM container. */
  predicate PublishUnlinked(s: State, a: Action) {
    Published(s, a).Some? ==> forall t | t in s.threads :: !Unlinks(s, t, Published(s, a).value)
  }

  /** An item is not published while a replaceIfAccessible still has to add it to its MM container. */
  predicate PublishAdded(s: State, a: Action) {
    Published(s, a).Some? ==> forall t | t in s.threads :: !Adds(s, t, Published(s, a).value)
  }

  /** An item that a thread is publishing is not removed. */
  predicate RemovePublished(s: State, a: Action) {
    match a.op
    case OnInsert(RemTable(h)) => h in s.handles ==> s.handles[h] !in s.pubs
    case _ => true
  }

  /** No item is moved while another item with the same key is being moved. */
  predicate OneMoverPerKey(s: State, a: Action) {
    match a.op
    case OnMove(MvMark(i)) => Live(s, i) ==> forall t | t in s.threads :: !MovesKey(s, t, s.items[i].key)
    case _ => true
  }

  /** Which of the rules above the callers keep. */
  datatype Rules =
    Rules(onePublisher: bool, publishUnlinked: bool, publishAdded: bool, removePublished: bool, oneMoverPerKey: bool)

  predicate Allowed(r: Rules, s: State, a: Action) {
    && (r.onePublisher ==> OnePublisher(s, a))
    && (r.publishUnlinked ==> PublishUnlinked(s, a))
    && (r.publishAdded ==> PublishAdded(s, a))
    && (r.removePublished ==> RemovePublished(s, a))
    && (r.oneMoverPerKey ==> OneMoverPerKey(s, a))
  }

  ghost predicate IsStep(s: State, s': State, r: Rules) { exists a :: Allowed(r, s, a) && Step(s, a, s') }

  /** A finite run from the empty cache by callers that keep the rules `r`. */
  ghost predicate IsRun(ss: seq<State>, r: Rules) {
    && |ss| > 0
    && ss[0] == Init()
    && forall j | 0 <= j < |ss| - 1 :: IsStep(ss[j], ss[j + 1], r)
  }
}
