/** The invariant of every reachable state of the item protocol. */
module ProtocolInv {
  import opened Options
  import opened Protocol

  function HandlesOf(s: State, i: ItemId): set<HandleId> {
    set h | h in s.handles && s.handles[h] == i
  }

  predicate InTable(s: State, i: ItemId) {
    i in s.items && s.items[i].key in s.table && s.table[s.items[i].key] == i
  }

  /** `i` is the new node, or the node being replaced, of a half-done insertOrReplace. */
  predicate PendingNext(s: State, i: ItemId) {
    i in s.items && s.items[i].key in s.locked && s.locked[s.items[i].key].next == i
  }

  predicate PendingPrev(s: State, i: ItemId) {
    i in s.items && s.items[i].key in s.locked && s.locked[s.items[i].key].prev == i
  }

  predicate Owns(s: State, t: Tid, i: ItemId) { i in s.items && i in s.claims && s.claims[i] == t }

  predicate Publishes(s: State, t: Tid, i: ItemId) { i in s.items && i in s.pubs && s.pubs[i] == t }

  /** Thread `t` holds the bucket lock of the half-done replacement of `p` through handle `h`. */
  predicate PendOk(s: State, t: Tid, h: HandleId, p: ItemId) {
    && Holds(s, h) && p in s.items
    && s.items[p].key in s.locked && s.locked[s.items[p].key] == Pending(s.handles[h], p, t)
    && Publishes(s, t, s.handles[h])
  }

  predicate GotOk(s: State, p: ItemId, got: Got) {
    match got
    case GotHandle(r) => Holds(s, r) && s.handles[r] == p
    case GotNone => p in s.claims
    case GotWait(w) => p in s.claims && w in s.waiters
  }

  /** Stages of a claim: marked for eviction, marked moving, and drained. */
  predicate IsEvicting(c: ClaimStage) { c == Evict || c == Unlink0 || c == Unlink1 || c == Unlink2 }

  predicate IsMovingStage(c: ClaimStage) {
    c == Move || c == MoveNew || c == MoveAdded || c == MoveUndo || c == MoveTried || c == MoveSwapped || c == MoveOffMM
  }

  predicate IsDrainedStage(c: ClaimStage) { c == Waking || c == Notifying || c == Freeing }

  /** The mover has a destination that it has not put in the table yet. */
  predicate HasDest(c: ClaimStage) { c == MoveNew || c == MoveAdded || c == MoveUndo }

  /** What is true of a thread that will free item `i`. */
  predicate ClaimOk(s: State, t: Tid, c: ClaimStage, i: ItemId, to: Option<HandleId>, ws: set<WaiterId>) {
    && Owns(s, t, i)
    && (IsEvicting(c) ==> s.items[i].IsMarkedForEviction())
    && (IsMovingStage(c) ==> s.items[i].exclusive && s.items[i].ref == 1)
    && (IsDrainedStage(c) ==> s.items[i].IsDrained())
    && (c == Unlink1 || c == Unlink2 || c == MoveSwapped || c == MoveOffMM ==> !s.items[i].accessible)
    && (c == Unlink2 || c == MoveOffMM ==> !s.items[i].linked)
    && (HasDest(c) ==>
          to.Some? && Holds(s, to.value) && Publishes(s, t, s.handles[to.value]) && It(s, to.value).key == s.items[i].key)
    && (c == MoveSwapped || c == MoveOffMM ==> to.Some?)
    && (c == Freeing || IsEvicting(c) || c == Move || c == MoveTried ==> to == None)
    && (forall w | w in ws :: w in s.waiters && s.waiters[w] == Held(t))
    && (c != Notifying ==> ws == {})
  }

  /** What is true of thread `t` at program point `pc`. */
  predicate PcOk(s: State, t: Tid, pc: PC) {
    match pc
    case Look(_, i, goal) =>
      (match goal
       case ForFind => InTable(s, i) && s.items[i].key !in s.locked
       case ForReplace(h) => PendOk(s, t, h, i))
    case Publish(_, h) => Holds(s, h) && Publishes(s, t, s.handles[h])
    case Swap(h, p, got) => PendOk(s, t, h, p) && GotOk(s, p, got)
    case Blocked(_, w) => w in s.waiters
    case Unlink(_, _) => true
    case Rpl(_, _, _) => true
    case Claim(c, i, mover, to, ws) => ClaimOk(s, t, c, i, to, ws) && (IsMovingStage(c) || c == Waking ==> mover)
  }

  /** The item whose memory the thread is bound to give back. */
  function Claimed(pc: PC): Option<ItemId> { if pc.Claim? then Some(pc.ci) else None }

  /** The handle of the item the thread is about to make accessible. */
  function PubHandle(pc: PC): Option<HandleId> {
    match pc
    case Look(_, _, goal) => if goal.ForReplace? then Some(goal.gh) else None
    case Publish(_, h) => Some(h)
    case Swap(h, _, _) => Some(h)
    case Claim(c, _, _, to, _) => if HasDest(c) then to else None
    case _ => None
  }

  /** The node whose replacement the thread has in progress under the bucket lock. */
  function ReplacedNode(pc: PC): Option<ItemId> {
    match pc
    case Look(_, i, goal) => if goal.ForReplace? then Some(i) else None
    case Swap(_, p, _) => Some(p)
    case _ => None
  }

  /** A mover that has not erased the wait entry of its item's key yet. */
  predicate OwesWakeUp(pc: PC) { pc.Claim? && pc.mover && pc.cstage != Notifying && pc.cstage != Freeing }

  /** An item no thread has claimed: unmarked, its count is exactly the number of handles, and
      something keeps it alive. */
  predicate Unclaimed(s: State, i: ItemId)
    requires i in s.items
  {
    && !s.items[i].exclusive
    && s.items[i].ref == |HandlesOf(s, i)|
    && !s.items[i].IsDrained()
  }

  function ClaimOf(s: State, t: Tid): Option<ItemId> {
    if t in s.threads then Claimed(s.threads[t]) else None
  }

  function PubOf(s: State, t: Tid): Option<HandleId> {
    if t in s.threads then PubHandle(s.threads[t]) else None
  }

  function ReplOf(s: State, t: Tid): Option<ItemId> {
    if t in s.threads then ReplacedNode(s.threads[t]) else None
  }

  predicate IsHandleTo(s: State, oh: Option<HandleId>, i: ItemId) {
    oh.Some? && oh.value in s.handles && s.handles[oh.value] == i
  }

  /** Everything the invariant says about one item.  The Accessible bit is set exactly on the
      linked node of a key, except inside the bucket lock of an insertOrReplace, where it is still
      on the replaced node. */
  predicate ItemInv(s: State, i: ItemId)
    requires i in s.items
  {
    && (s.items[i].accessible <==> (InTable(s, i) && !PendingNext(s, i)) || PendingPrev(s, i))
    && (i !in s.claims ==> Unclaimed(s, i))
    && (i in s.claims ==> ClaimOf(s, s.claims[i]) == Some(i))
    && (i in s.pubs ==> !s.items[i].accessible && IsHandleTo(s, PubOf(s, s.pubs[i]), i))
  }

  predicate HandleInv(s: State, h: HandleId)
    requires h in s.handles
  {
    s.handles[h] in s.items && s.handles[h] !in s.claims
  }

  predicate KeyInv(s: State, k: Key) {
    && (k in s.table ==> s.table[k] in s.items && s.items[s.table[k]].key == k)
    && (k in s.locked ==>
          var p := s.locked[k];
          && k in s.table && s.table[k] == p.next && p.next != p.prev
          && p.prev in s.items && s.items[p.prev].key == k
          && ReplOf(s, p.holder) == Some(p.prev) && p.next in s.pubs && s.pubs[p.next] == p.holder)
  }

  ghost predicate ThreadInv(s: State, t: Tid)
    requires t in s.threads
  {
    PcOk(s, t, s.threads[t]) && forall h | Uses(s, s.threads[t], h) :: h in s.handles
  }

  /** A waiter is queued under exactly the key it waits for, or held by exactly one notifier. */
  predicate WaiterInv(s: State, w: WaiterId)
    requires w in s.waiters
  {
    match s.waiters[w]
    case Queued(k) => k in s.waits && w in s.waits[k]
    case Held(t) => t in s.threads && s.threads[t].Claim? && w in s.threads[t].ws
    case Ready(_) => true
  }

  predicate IsMoverOf(s: State, i: ItemId, k: Key) {
    && i in s.claims && i in s.items && s.items[i].key == k
    && s.claims[i] in s.threads && OwesWakeUp(s.threads[s.claims[i]])
  }

  /** A wait entry exists for a key only while some mover of an item with that key owes a wake-up. */
  ghost predicate EntryInv(s: State, k: Key)
    requires k in s.waits
  {
    && (forall w | w in s.waits[k] :: w in s.waiters && s.waiters[w] == Queued(k))
    && exists i :: IsMoverOf(s, i, k)
  }

  ghost predicate DataInv(s: State) {
    && s.claims.Keys <= s.items.Keys && s.pubs.Keys <= s.items.Keys
    && (forall i {:trigger ItemInv(s, i)} | i in s.items :: ItemInv(s, i))
    && (forall h {:trigger HandleInv(s, h)} | h in s.handles :: HandleInv(s, h))
    && (forall k {:trigger KeyInv(s, k)} :: KeyInv(s, k))
  }

  ghost predicate ThreadsInv(s: State) { forall t {:trigger ThreadInv(s, t)} | t in s.threads :: ThreadInv(s, t) }

  ghost predicate WaitInv(s: State) {
    && (forall w {:trigger WaiterInv(s, w)} | w in s.waiters :: WaiterInv(s, w))
    && (forall k {:trigger EntryInv(s, k)} | k in s.waits :: EntryInv(s, k))
  }

  ghost predicate Inv(s: State) { DataInv(s) && ThreadsInv(s) && WaitInv(s) }

  /** What a step of thread `t` leaves alone: everything the other threads depend on. */
  ghost predicate Guarantee(s: State, s': State, t: Tid) {
    && (forall t' {:trigger KeepsThread(s, s', t')} | t' != t :: KeepsThread(s, s', t'))
    && (forall i {:trigger KeepsItem(s, s', t, i)} | i in s.items :: KeepsItem(s, s', t, i))
    && (forall h {:trigger KeepsHandle(s, s', t, h)} | h in s.handles :: KeepsHandle(s, s', t, h))
    && (forall k {:trigger KeepsKey(s, s', t, k)} :: KeepsKey(s, s', t, k))
    && (forall w {:trigger KeepsWaiter(s, s', t, w)} | w in s.waiters :: KeepsWaiter(s, s', t, w))
  }

  predicate KeepsThread(s: State, s': State, t': Tid) {
    && (t' in s.threads <==> t' in s'.threads)
    && (t' in s.threads ==> s'.threads[t'] == s.threads[t'])
  }

  /** Live unless thread `t` freed it; marks of other threads kept, and the item of another
      thread's claim at most loses its Accessible bit. */
  predicate KeepsItem(s: State, s': State, t: Tid, i: ItemId)
    requires i in s.items
  {
    && (i in s'.items ==> s'.items[i].key == s.items[i].key)
    && (s.items[i].accessible || !(i in s.claims && s.claims[i] == t) ==>
          i in s'.items && (i in s.claims ==> i in s'.claims && s'.claims[i] == s.claims[i]))
    && (i in s.claims && s.claims[i] != t ==>
          i in s'.items && (s'.items[i] == s.items[i] || s'.items[i] == s.items[i].(accessible := false)))
    && (i in s.pubs && s.pubs[i] != t ==> i in s'.pubs && s'.pubs[i] == s.pubs[i])
  }

  predicate KeepsHandle(s: State, s': State, t: Tid, h: HandleId)
    requires h in s.handles
  {
    && (h in s'.handles ==> s'.handles[h] == s.handles[h])
    && (h !in s'.handles ==> forall t' | t' in s.threads && t' != t :: !Uses(s, s.threads[t'], h))
  }

  predicate KeepsKey(s: State, s': State, t: Tid, k: Key) {
    && (k in s.locked && s.locked[k].holder != t ==> k in s'.locked && s'.locked[k] == s.locked[k])
    && (k in s.table && k !in s.locked && !(k in s'.table && s'.table[k] == s.table[k] && k !in s'.locked) ==>
          forall t' | t' in s.threads && t' != t :: !HoldsShared(s, s.threads[t'], k))
  }

  predicate KeepsWaiter(s: State, s': State, t: Tid, w: WaiterId)
    requires w in s.waiters
  {
    && w in s'.waiters
    && (s.waiters[w].Ready? ==> s'.waiters[w] == s.waiters[w])
    && (s.waiters[w].Held? && s.waiters[w].wt != t ==> s'.waiters[w] == s.waiters[w])
    && (s'.waiters[w].Ready? && s'.waiters[w].oh.Some? && s'.waiters[w] != s.waiters[w] ==>
          s'.waiters[w].oh.value in s'.handles)
  }

  lemma HandleAdded(s: State, s': State, h: HandleId, i: ItemId)
    requires h !in s.handles && s'.handles == s.handles[h := i]
    ensures |HandlesOf(s', i)| == |HandlesOf(s, i)| + 1
    ensures forall j | j != i :: HandlesOf(s', j) == HandlesOf(s, j)
  {
    assert HandlesOf(s', i) == HandlesOf(s, i) + {h};
  }

  lemma HandleDropped(s: State, s': State, h: HandleId)
    requires h in s.handles && s'.handles == s.handles - {h}
    ensures |HandlesOf(s', s.handles[h])| == |HandlesOf(s, s.handles[h])| - 1
    ensures forall j | j != s.handles[h] :: HandlesOf(s', j) == HandlesOf(s, j)
  {
    assert HandlesOf(s', s.handles[h]) == HandlesOf(s, s.handles[h]) - {h};
  }

  lemma SameHandles(s: State, s': State)
    requires s'.handles == s.handles
    ensures forall i :: HandlesOf(s', i) == HandlesOf(s, i)
  {}

  lemma HandleNotClaimed(s: State, h: HandleId)
    requires DataInv(s) && h in s.handles
    ensures s.handles[h] in s.items && s.handles[h] !in s.claims
    ensures Unclaimed(s, s.handles[h]) && s.items[s.handles[h]].ref > 0
  {
    assert HandleInv(s, h);
    assert ItemInv(s, s.handles[h]);
    assert h in HandlesOf(s, s.handles[h]);
  }
}
