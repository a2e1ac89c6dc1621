/** The slot assignment of migrations/versions/0004_virtual_queue.py: queued pallets move into free pool slots. */
module PoolSlots {
  import opened Outcomes

  datatype Location = Pool | Queue | Machine | Storage

  datatype Pallet = Pallet(location: Location, slot: Option<int>, queuePosition: int)

  type Pallets = map<nat, Pallet>

  predicate InPool(p: Pallet) {
    p.location.Pool? && p.slot.Some?
  }

  /** The slots taken in the pool. */
  function Occupied(pallets: Pallets): set<int> {
    set id | id in pallets && InPool(pallets[id]) :: pallets[id].slot.value
  }

  /** The queued pallets in the order of their positions. */
  ghost predicate QueueOf(pallets: Pallets, queued: seq<nat>) {
    && (forall i, j | 0 <= i < j < |queued| :: queued[i] != queued[j])
    && (forall id :: id in queued <==> id in pallets && pallets[id].location.Queue?)
    && (forall i, j | 0 <= i < j < |queued| :: pallets[queued[i]].queuePosition <= pallets[queued[j]].queuePosition)
  }

  /** Slot `slots[i]` is the i-th smallest positive one not occupied: no free slot before it is passed over. */
  ghost predicate SmallestFree(slots: seq<int>, occupied: set<int>) {
    && (forall i | 0 <= i < |slots| :: slots[i] > 0 && slots[i] !in occupied)
    && (forall i, j | 0 <= i < j < |slots| :: slots[i] < slots[j])
    && (forall i, s | 0 <= i < |slots| && 0 < s < slots[i] :: s in occupied || s in slots[..i])
  }

  predicate AllKnown(pallets: Pallets, queued: seq<nat>) {
    forall id | id in queued :: id in pallets
  }

  /** The pallets once the first queued ones have been given the first slots. */
  function Placed(pallets: Pallets, queued: seq<nat>, slots: seq<int>): Pallets
    requires |slots| <= |queued| && AllKnown(pallets, queued)
    decreases |slots|
  {
    if slots == [] then pallets else
      var n := |slots| - 1;
      var earlier := Placed(pallets, queued, slots[..n]);
      earlier[queued[n] := pallets[queued[n]].(location := Pool, slot := Some(slots[n]))]
  }

  /** From `slot` on, the next one not occupied. */
  method NextFree(slot: int, occupied: set<int>) returns (free: int)
    ensures free >= slot && free !in occupied
    ensures forall s | slot <= s < free :: s in occupied
  {
    free := slot;
    ghost var ahead := occupied;
    while free in occupied
      invariant free >= slot && ahead <= occupied
      invariant forall s | slot <= s < free :: s in occupied
      invariant forall s | s in occupied && s >= free :: s in ahead
      decreases ahead
    {
      ahead := ahead - {free};
      free := free + 1;
    }
  }

  /** Slots handed out so far: the smallest free ones, all below `next` taken, and `occupied` keeping up. */
  ghost predicate SlotsSoFar(slots: seq<int>, taken: set<int>, occupied: set<int>, next: int) {
    && SmallestFree(slots, taken)
    && (forall s :: s in occupied <==> s in taken || s in slots)
    && next >= 1 && (forall s | 0 < s < next :: s in occupied)
    && (forall s | s in slots :: s <= next)
  }

  /** The larger of the old count and the last slot assigned. */
  function CountAfter(slots: seq<int>, oldCount: int): int {
    if slots != [] && slots[|slots| - 1] > oldCount then slots[|slots| - 1] else oldCount
  }

  method Upgrade(pallets: Pallets, queued: seq<nat>, oldCount: int) returns (after: Pallets, slots: seq<int>, count: int)
    requires QueueOf(pallets, queued)
    ensures |slots| == |queued| && SmallestFree(slots, Occupied(pallets))
    ensures after == Placed(pallets, queued, slots)
    ensures count == CountAfter(slots, oldCount)
  {
    assert AllKnown(pallets, queued);
    hide Occupied, SlotsSoFar, SmallestFree, QueueOf, Placed, CountAfter;
    after, slots, count := pallets, [], oldCount;
    var occupied := Occupied(pallets);
    var nextSlot := 1;
    NoSlotsYet(pallets, queued, occupied, oldCount);
    for i := 0 to |queued|
      invariant |slots| == i && SlotsSoFar(slots, Occupied(pallets), occupied, nextSlot)
      invariant slots != [] ==> slots[i - 1] == nextSlot
      invariant after == Placed(pallets, queued, slots)
      invariant count == CountAfter(slots, oldCount)
    {
      var free := NextFree(nextSlot, occupied);
      OneMoreSlot(slots, Occupied(pallets), occupied, nextSlot, free);
      nextSlot := free;
      CountOneMore(slots, nextSlot, oldCount);
      if nextSlot > count {
        count := nextSlot;
      }
      PlaceOneMore(pallets, queued, slots, nextSlot);
      after := after[queued[i] := pallets[queued[i]].(location := Pool, slot := Some(nextSlot))];
      slots := slots + [nextSlot];
      occupied := occupied + {nextSlot};
    }
    SlotsAreSmallest(slots, Occupied(pallets), occupied, nextSlot);
  }

  lemma {:induction false} NoSlotsYet(pallets: Pallets, queued: seq<nat>, taken: set<int>, oldCount: int)
    requires AllKnown(pallets, queued)
    ensures SlotsSoFar([], taken, taken, 1) && Placed(pallets, queued, []) == pallets && CountAfter([], oldCount) == oldCount
  {
  }

  lemma {:induction false} PlaceOneMore(pallets: Pallets, queued: seq<nat>, slots: seq<int>, slot: int)
    requires |slots| < |queued| && AllKnown(pallets, queued)
    ensures var id := queued[|slots|];
            id in pallets && Placed(pallets, queued, slots + [slot])
                          == Placed(pallets, queued, slots)[id := pallets[id].(location := Pool, slot := Some(slot))]
  {
    assert (slots + [slot])[..|slots|] == slots;
    assert queued[|slots|] in queued;
  }

  /** The count grows with the slots, which only increase. */
  lemma {:induction false} CountOneMore(slots: seq<int>, slot: int, oldCount: int)
    requires slots != [] ==> slots[|slots| - 1] < slot
    ensures CountAfter(slots + [slot], oldCount) == if slot > CountAfter(slots, oldCount) then slot else CountAfter(slots, oldCount)
  {
  }

  lemma {:induction false} SlotsAreSmallest(slots: seq<int>, taken: set<int>, occupied: set<int>, next: int)
    requires SlotsSoFar(slots, taken, occupied, next)
    ensures SmallestFree(slots, taken)
  {
  }

  lemma {:induction false} OneMoreSlot(slots: seq<int>, taken: set<int>, occupied: set<int>, next: int, slot: int)
    requires SlotsSoFar(slots, taken, occupied, next) && slot >= next && slot !in occupied
    requires forall s | next <= s < slot :: s in occupied
    ensures SlotsSoFar(slots + [slot], taken, occupied + {slot}, slot)
    ensures slots != [] && slots[|slots| - 1] == next ==> slot > next
  {
    var more := slots + [slot];
    assert slots != [] ==> slots[|slots| - 1] in slots;
    forall i, s | 0 <= i < |more| && 0 < s < more[i]
      ensures s in taken || s in more[..i]
    {
      assert more[..i] == slots[..i];
      if i == |slots| {
        assert slots[..i] == slots;
        assert s in occupied;
      }
    }
    forall i | 0 <= i < |slots|
      ensures slots[i] < slot
    {
      assert slots[i] in slots;
    }
  }

  // ---------- what the migration leaves ----------

  /** The pallet has been moved into the slot, and is otherwise as it was. */
  predicate IsPlaced(pallets: Pallets, after: Pallets, id: nat, slot: int) {
    id in pallets && id in after && after[id] == pallets[id].(location := Pool, slot := Some(slot))
  }

  lemma {:induction false} PlacedMeans(pallets: Pallets, queued: seq<nat>, slots: seq<int>)
    requires |slots| <= |queued| && AllKnown(pallets, queued)
    requires forall i, j | 0 <= i < j < |queued| :: queued[i] != queued[j]
    ensures var after := Placed(pallets, queued, slots);
            && after.Keys == pallets.Keys
            && (forall i | 0 <= i < |slots| :: IsPlaced(pallets, after, queued[i], slots[i]))
            && (forall id | id in pallets && id !in queued[..|slots|] :: after[id] == pallets[id])
    decreases |slots|
  {
    if slots != [] {
      var n := |slots| - 1;
      var earlier, after := Placed(pallets, queued, slots[..n]), Placed(pallets, queued, slots);
      PlacedMeans(pallets, queued, slots[..n]);
      assert queued[n] in queued;
      forall i | 0 <= i < |slots|
        ensures IsPlaced(pallets, after, queued[i], slots[i])
      {
        if i < n {
          assert IsPlaced(pallets, earlier, queued[i], slots[..n][i]) && queued[i] != queued[n];
        }
      }
      forall id | id in pallets && id !in queued[..|slots|]
        ensures after[id] == pallets[id]
      {
        assert queued[n] == queued[..|slots|][n];
        assert forall i | 0 <= i < n :: queued[..n][i] == queued[..|slots|][i];
      }
    }
  }

  predicate HoldsSlot(pallets: Pallets, id: nat, slot: int) {
    id in pallets && pallets[id].location == Pool && pallets[id].slot == Some(slot)
  }

  /** No two pallets share a pool slot. */
  ghost predicate SlotsDistinct(pallets: Pallets) {
    forall a, b, slot | HoldsSlot(pallets, a, slot) && HoldsSlot(pallets, b, slot) :: a == b
  }

  /** Every slot before one that was assigned is held by some pallet. */
  ghost predicate NoGaps(after: Pallets, slots: seq<int>) {
    forall i, slot | 0 <= i < |slots| && 0 < slot < slots[i] :: IsHeld(after, slot)
  }

  ghost predicate IsHeld(pallets: Pallets, slot: int) {
    exists id :: HoldsSlot(pallets, id, slot)
  }

  lemma {:induction false} OccupiedAreHeld(pallets: Pallets, slot: int)
    ensures slot in Occupied(pallets) <==> IsHeld(pallets, slot)
  {
    if slot in Occupied(pallets) {
      var id :| id in pallets && InPool(pallets[id]) && pallets[id].slot.value == slot;
      assert HoldsSlot(pallets, id, slot);
    }
    if id :| HoldsSlot(pallets, id, slot) {
      assert InPool(pallets[id]);
    }
  }

  lemma {:induction false} NewSlotIsNew(pallets: Pallets, queued: seq<nat>, slots: seq<int>, i: nat, other: nat)
    requires QueueOf(pallets, queued) && |slots| == |queued| && SmallestFree(slots, Occupied(pallets))
    requires i < |queued| && HoldsSlot(Placed(pallets, queued, slots), other, slots[i])
    ensures other == queued[i]
  {
    PlacedMeans(pallets, queued, slots);
    hide Occupied, Placed;
    if other in queued {
      var j :| 0 <= j < |queued| && queued[j] == other;
      assert IsPlaced(pallets, Placed(pallets, queued, slots), queued[j], slots[j]);
    } else {
      OthersHeldBefore(pallets, queued, slots, other, slots[i]);
    }
  }

  lemma {:induction false} OthersHeldBefore(pallets: Pallets, queued: seq<nat>, slots: seq<int>, other: nat, slot: int)
    requires QueueOf(pallets, queued) && |slots| == |queued|
    requires other !in queued && HoldsSlot(Placed(pallets, queued, slots), other, slot)
    ensures slot in Occupied(pallets)
  {
    PlacedMeans(pallets, queued, slots);
    OccupiedAreHeld(pallets, slot);
    hide Occupied, Placed;
    assert queued[..|slots|] == queued;
    assert HoldsSlot(pallets, other, slot);
  }

  lemma {:induction false} SlotsStayDistinct(pallets: Pallets, queued: seq<nat>, slots: seq<int>)
    requires QueueOf(pallets, queued) && |slots| == |queued| && SmallestFree(slots, Occupied(pallets))
    requires SlotsDistinct(pallets)
    ensures SlotsDistinct(Placed(pallets, queued, slots))
  {
    var after := Placed(pallets, queued, slots);
    PlacedMeans(pallets, queued, slots);
    hide Occupied, SmallestFree, Placed;
    assert queued[..|slots|] == queued;
    forall a, b, slot | HoldsSlot(after, a, slot) && HoldsSlot(after, b, slot)
      ensures a == b
    {
      if i :| 0 <= i < |queued| && queued[i] == a {
        assert IsPlaced(pallets, after, queued[i], slots[i]);
        NewSlotIsNew(pallets, queued, slots, i, b);
      } else if i :| 0 <= i < |queued| && queued[i] == b {
        assert IsPlaced(pallets, after, queued[i], slots[i]);
        NewSlotIsNew(pallets, queued, slots, i, a);
      } else {
        assert after[a] == pallets[a] && after[b] == pallets[b];
        assert HoldsSlot(pallets, a, slot) && HoldsSlot(pallets, b, slot);
      }
    }
  }

  lemma {:induction false} EarlierAreHeld(pallets: Pallets, queued: seq<nat>, slots: seq<int>)
    requires QueueOf(pallets, queued) && |slots| == |queued| && SmallestFree(slots, Occupied(pallets))
    ensures NoGaps(Placed(pallets, queued, slots), slots)
  {
    var after := Placed(pallets, queued, slots);
    PlacedMeans(pallets, queued, slots);
    hide Occupied, Placed;
    assert queued[..|slots|] == queued;
    forall i, slot | 0 <= i < |slots| && 0 < slot < slots[i]
      ensures IsHeld(after, slot)
    {
      if slot in slots[..i] {
        var j :| 0 <= j < i && slots[j] == slot;
        assert IsPlaced(pallets, after, queued[j], slots[j]);
        assert HoldsSlot(after, queued[j], slot);
      } else {
        OccupiedAreHeld(pallets, slot);
        var id :| HoldsSlot(pallets, id, slot);
        assert id !in queued;
        assert HoldsSlot(after, id, slot);
      }
    }
  }

  /**
   Pool slots stay distinct and are filled without gaps, nobody is left in the queue, queue order becomes slot order,
   pallets that were not queued are untouched, and the slot count covers every slot assigned. (The slots themselves
   increase along the queue.)
   */
  lemma {:induction false} MigrationIsSound(pallets: Pallets, queued: seq<nat>, slots: seq<int>, oldCount: int)
    requires QueueOf(pallets, queued) && |slots| == |queued| && SmallestFree(slots, Occupied(pallets))
    ensures var after := Placed(pallets, queued, slots);
            && (SlotsDistinct(pallets) ==> SlotsDistinct(after)) && NoGaps(after, slots)
            && after.Keys == pallets.Keys
            && (forall id | id in after :: !after[id].location.Queue?)
            && (forall id | id in pallets && !pallets[id].location.Queue? :: after[id] == pallets[id])
            && (forall i | 0 <= i < |queued| :: IsPlaced(pallets, after, queued[i], slots[i]) && 0 < slots[i] <= CountAfter(slots, oldCount))
  {
    if SlotsDistinct(pallets) {
      SlotsStayDistinct(pallets, queued, slots);
    }
    EarlierAreHeld(pallets, queued, slots);
    hide SlotsDistinct, NoGaps, Occupied, Placed, IsPlaced;
    PlacedMeans(pallets, queued, slots);
    assert queued[..|slots|] == queued;
    NobodyQueues(pallets, queued, slots);
  }

  lemma {:induction false} NobodyQueues(pallets: Pallets, queued: seq<nat>, slots: seq<int>)
    requires QueueOf(pallets, queued) && |slots| == |queued|
    ensures var after := Placed(pallets, queued, slots);
            forall id | id in after :: !after[id].location.Queue?
  {
    var after := Placed(pallets, queued, slots);
    PlacedMeans(pallets, queued, slots);
    hide Placed;
    assert queued[..|slots|] == queued;
    forall id | id in after
      ensures !after[id].location.Queue?
    {
      if i :| 0 <= i < |queued| && queued[i] == id {
        assert after[queued[i]].location.Pool?;
      } else {
        assert id !in queued && after[id] == pallets[id];
      }
    }
  }

  /** The slots are determined: two lists of equal length that both take the smallest free slots are the same. */
  lemma {:induction false} SmallestFreeIsUnique(a: seq<int>, b: seq<int>, occupied: set<int>, i: nat)
    requires SmallestFree(a, occupied) && SmallestFree(b, occupied) && i <= |a| && i <= |b|
    ensures a[..i] == b[..i]
  {
    if i > 0 {
      SmallestFreeIsUnique(a, b, occupied, i - 1);
      assert a[i - 1] !in a[..i - 1] && b[i - 1] !in b[..i - 1];
      assert a[i - 1] == b[i - 1];
      assert a[..i] == a[..i - 1] + [a[i - 1]] && b[..i] == b[..i - 1] + [b[i - 1]];
    }
  }
}
