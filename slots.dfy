/** The slot store and the slot-allocation facade over it (SlotService).
    The store itself (SlotRepository) is given here as the smallest store
    that has the observable behaviour SlotService relies on: slots kept in
    insertion order, allocation of one free slot of a class, release by id,
    and the list of free slots of a class. */
module Slots {
  import opened Common

  datatype ParkingSlot = ParkingSlot(id: SlotId, slotType: VehicleType, floor: int, occupied: bool)

  /** A slot that serves class `t` and is not occupied. */
  predicate IsFreeOf(slot: ParkingSlot, t: VehicleType) {
    slot.slotType == t && !slot.occupied
  }

  ghost predicate DistinctIds(s: seq<ParkingSlot>) {
    forall i, j :: 0 <= i < j < |s| ==> s[i].id != s[j].id
  }

  ghost function Ids(s: seq<ParkingSlot>): set<SlotId> {
    set i | 0 <= i < |s| :: s[i].id
  }

  /** The positions of the free slots of class `t`. */
  ghost function FreePositions(s: seq<ParkingSlot>, t: VehicleType): set<int> {
    set i | 0 <= i < |s| && IsFreeOf(s[i], t)
  }

  /** findAvailableSlots: the free slots of class `t`, in store order. */
  function AvailableSlots(s: seq<ParkingSlot>, t: VehicleType): (r: seq<ParkingSlot>)
    ensures |r| <= |s|
    ensures forall x :: x in r ==> x in s && IsFreeOf(x, t)
    ensures forall i :: 0 <= i < |s| && IsFreeOf(s[i], t) ==> s[i] in r
    decreases |s|
  {
    if s == [] then []
    else
      var init := s[..|s| - 1];
      assert forall i :: 0 <= i < |s| - 1 ==> s[i] == init[i];
      AvailableSlots(init, t) + (if IsFreeOf(s[|s| - 1], t) then [s[|s| - 1]] else [])
  }

  /** The number of free slots of class `t`. */
  function AvailableCount(s: seq<ParkingSlot>, t: VehicleType): nat {
    |AvailableSlots(s, t)|
  }

  /** The free positions of a non-empty store are those of all but its last
      slot, plus the last position when that slot is free. */
  lemma FreePositionsSnoc(s: seq<ParkingSlot>, t: VehicleType)
    requires s != []
    ensures FreePositions(s, t) ==
      FreePositions(s[..|s| - 1], t) + (if IsFreeOf(s[|s| - 1], t) then {|s| - 1} else {})
    ensures |s| - 1 !in FreePositions(s[..|s| - 1], t)
  {
    var n := |s| - 1;
    var init := s[..n];
    forall j | 0 <= j < n ensures s[j] == init[j] { }
  }

  /** The count of free slots is the number of positions holding one. */
  lemma {:induction false} AvailableCountIsFreePositions(s: seq<ParkingSlot>, t: VehicleType)
    ensures AvailableCount(s, t) == |FreePositions(s, t)|
    decreases |s|
  {
    if s != [] {
      var n := |s| - 1;
      AvailableCountIsFreePositions(s[..n], t);
      FreePositionsSnoc(s, t);
    }
  }

  /** No free slot of class `t` exists exactly when the count is zero. */
  lemma AvailableCountZero(s: seq<ParkingSlot>, t: VehicleType)
    ensures AvailableCount(s, t) == 0 <==> forall i :: 0 <= i < |s| ==> !IsFreeOf(s[i], t)
  {
    if AvailableCount(s, t) != 0 {
      var x := AvailableSlots(s, t)[0];
      assert x in AvailableSlots(s, t);
    }
  }

  /** Appending a slot raises the count of its class by one when it is free
      and leaves every other count alone. */
  lemma AvailableCountAppend(s: seq<ParkingSlot>, x: ParkingSlot, t: VehicleType)
    ensures AvailableCount(s + [x], t) == AvailableCount(s, t) + (if IsFreeOf(x, t) then 1 else 0)
  {
  }

  /** Replacing one slot changes each class's count by at most the slot
      that left and the slot that arrived. */
  lemma {:induction false} AvailableCountUpdate(s: seq<ParkingSlot>, i: int, x: ParkingSlot, t: VehicleType)
    requires 0 <= i < |s|
    ensures AvailableCount(s[i := x], t) ==
      AvailableCount(s, t) - (if IsFreeOf(s[i], t) then 1 else 0) + (if IsFreeOf(x, t) then 1 else 0)
    decreases |s|
  {
    var n := |s| - 1;
    var s' := s[i := x];
    if i == n {
      assert s'[..n] == s[..n];
    } else {
      assert s'[..n] == s[..n][i := x];
      AvailableCountUpdate(s[..n], i, x, t);
    }
  }

  /** The position of the first free slot of class `t` at or after `k`. */
  function FirstFreeFrom(s: seq<ParkingSlot>, t: VehicleType, k: nat): (r: Option<nat>)
    requires k <= |s|
    ensures r.None? <==> forall i :: k <= i < |s| ==> !IsFreeOf(s[i], t)
    ensures r.Some? ==> k <= r.value < |s| && IsFreeOf(s[r.value], t)
    ensures r.Some? ==> forall j :: k <= j < r.value ==> !IsFreeOf(s[j], t)
    decreases |s| - k
  {
    if k == |s| then None
    else if IsFreeOf(s[k], t) then Some(k)
    else FirstFreeFrom(s, t, k + 1)
  }

  /** The store's allocateSlot: the first free slot of class `t` becomes
      occupied and is returned; with none free nothing changes. */
  function Allocate(s: seq<ParkingSlot>, t: VehicleType): (r: (Option<ParkingSlot>, seq<ParkingSlot>))
    ensures r.0.None? <==> forall i :: 0 <= i < |s| ==> !IsFreeOf(s[i], t)
    ensures r.0.None? ==> r.1 == s
    ensures r.0.Some? ==> r.0.value.slotType == t && r.0.value.occupied
    ensures r.0.Some? ==>
      exists i :: 0 <= i < |s| && IsFreeOf(s[i], t) && r.0.value == s[i].(occupied := true) && r.1 == s[i := r.0.value]
    ensures r.0.Some? ==> r.0.value.id in Ids(s) && r.0.value in r.1
  {
    match FirstFreeFrom(s, t, 0)
    case None => (None, s)
    case Some(i) =>
      var slot := s[i].(occupied := true);
      assert s[i := slot][i] == slot;
      (Some(slot), s[i := slot])
  }

  /** After an allocation the count of the requested class drops by one
      exactly when a slot was returned, and no other class's count moves. */
  lemma AllocateCounts(s: seq<ParkingSlot>, t: VehicleType)
    ensures Allocate(s, t).0.None? <==> AvailableCount(s, t) == 0
    ensures AvailableCount(Allocate(s, t).1, t) ==
      AvailableCount(s, t) - (if Allocate(s, t).0.Some? then 1 else 0)
    ensures forall u :: u != t ==> AvailableCount(Allocate(s, t).1, u) == AvailableCount(s, u)
  {
    AvailableCountZero(s, t);
    var (r, s') := Allocate(s, t);
    if r.Some? {
      var i :| 0 <= i < |s| && IsFreeOf(s[i], t) && r.value == s[i].(occupied := true) && s' == s[i := r.value];
      AvailableCountUpdate(s, i, r.value, t);
      forall u | u != t ensures AvailableCount(s', u) == AvailableCount(s, u) {
        AvailableCountUpdate(s, i, r.value, u);
      }
    }
  }

  /** The store's releaseSlot: the slot with id `id`, if any, becomes free. */
  function Released(s: seq<ParkingSlot>, id: SlotId): (r: seq<ParkingSlot>)
    ensures |r| == |s|
    ensures forall i :: 0 <= i < |s| && s[i].id == id ==> r[i] == s[i].(occupied := false)
    ensures forall i :: 0 <= i < |s| && s[i].id != id ==> r[i] == s[i]
  {
    seq(|s|, i requires 0 <= i < |s| => if s[i].id == id then s[i].(occupied := false) else s[i])
  }

  /** Releasing twice is releasing once. */
  lemma ReleaseIdempotent(s: seq<ParkingSlot>, id: SlotId)
    ensures Released(Released(s, id), id) == Released(s, id)
  {
  }

  /** Releasing a slot that the store holds makes it free and raises its
      class's count by one if it was occupied; no other count moves. */
  lemma ReleaseCounts(s: seq<ParkingSlot>, i: int, t: VehicleType)
    requires DistinctIds(s)
    requires 0 <= i < |s|
    ensures Released(s, s[i].id) == s[i := s[i].(occupied := false)]
    ensures AvailableCount(Released(s, s[i].id), t) ==
      AvailableCount(s, t) + (if s[i].slotType == t && s[i].occupied then 1 else 0)
  {
    assert Released(s, s[i].id) == s[i := s[i].(occupied := false)];
    AvailableCountUpdate(s, i, s[i].(occupied := false), t);
  }

  /** Releasing the slot an allocation returned restores the store, and with
      it every class's count. */
  lemma ReleaseUndoesAllocate(s: seq<ParkingSlot>, t: VehicleType)
    requires DistinctIds(s)
    requires Allocate(s, t).0.Some?
    ensures Released(Allocate(s, t).1, Allocate(s, t).0.value.id) == s
    ensures forall u :: AvailableCount(Released(Allocate(s, t).1, Allocate(s, t).0.value.id), u) == AvailableCount(s, u)
  {
  }

  class SlotRepository {
    var slots: seq<ParkingSlot>

    ghost predicate Valid()
      reads this
    {
      DistinctIds(slots)
    }

    constructor ()
      ensures Valid() && slots == []
    {
      slots := [];
    }

    method Save(slot: ParkingSlot)
      requires Valid()
      requires slot.id !in Ids(slots)
      modifies this
      ensures Valid()
      ensures slots == old(slots) + [slot]
    {
      slots := slots + [slot];
    }

    method AllocateSlot(t: VehicleType) returns (r: Option<ParkingSlot>)
      requires Valid()
      modifies this
      ensures Valid()
      ensures (r, slots) == Allocate(old(slots), t)
    {
      var (found, after) := Allocate(slots, t);
      r, slots := found, after;
    }

    method ReleaseSlot(id: SlotId)
      requires Valid()
      modifies this
      ensures Valid()
      ensures slots == Released(old(slots), id)
    {
      slots := Released(slots, id);
    }
  }

  class SlotService {
    const repo: SlotRepository

    ghost predicate Valid()
      reads this, repo
    {
      repo.Valid()
    }

    constructor (repo: SlotRepository)
      requires repo.Valid()
      ensures Valid() && this.repo == repo
    {
      this.repo := repo;
    }

    /** allocateSlot: hands on the store's allocation result unchanged. A
        returned slot serves `t`, was free and is now occupied, with the
        count for `t` one lower and every other count unchanged; nothing is
        returned, and nothing changes, exactly when no slot of `t` is free. */
    method AllocateSlot(t: VehicleType) returns (r: Option<ParkingSlot>)
      requires Valid()
      modifies repo
      ensures Valid()
      ensures (r, repo.slots) == Allocate(old(repo.slots), t)
      ensures r.None? <==> AvailableCount(old(repo.slots), t) == 0
      ensures r.None? ==> repo.slots == old(repo.slots)
      ensures r.Some? ==> r.value.slotType == t && r.value.occupied
      ensures r.Some? ==> r.value.id in Ids(old(repo.slots)) && r.value in repo.slots
      ensures AvailableCount(repo.slots, t) == AvailableCount(old(repo.slots), t) - (if r.Some? then 1 else 0)
      ensures forall u :: u != t ==> AvailableCount(repo.slots, u) == AvailableCount(old(repo.slots), u)
    {
      AllocateCounts(repo.slots, t);
      r := repo.AllocateSlot(t);
    }

    /** releaseSlot: frees the slot with id `id`; an unknown id changes
        nothing. */
    method ReleaseSlot(id: SlotId)
      requires Valid()
      modifies repo
      ensures Valid()
      ensures repo.slots == Released(old(repo.slots), id)
      ensures id !in Ids(old(repo.slots)) ==> repo.slots == old(repo.slots)
    {
      repo.ReleaseSlot(id);
    }

    /** createSlot: adds one free slot of class `t` on floor `floor` under
        the fresh id `id`, and returns it. */
    method CreateSlot(t: VehicleType, floor: int, id: SlotId) returns (slot: ParkingSlot)
      requires Valid()
      requires id !in Ids(repo.slots)
      modifies repo
      ensures Valid()
      ensures slot == ParkingSlot(id, t, floor, false)
      ensures repo.slots == old(repo.slots) + [slot]
      ensures AvailableCount(repo.slots, t) == AvailableCount(old(repo.slots), t) + 1
      ensures forall u :: u != t ==> AvailableCount(repo.slots, u) == AvailableCount(old(repo.slots), u)
    {
      slot := ParkingSlot(id, t, floor, false);
      forall u ensures AvailableCount(repo.slots + [slot], u) == AvailableCount(repo.slots, u) + (if u == t then 1 else 0) {
        AvailableCountAppend(repo.slots, slot, u);
      }
      repo.Save(slot);
    }

    /** getAvailableSlotCount: the number of free slots of class `t`. */
    function GetAvailableSlotCount(t: VehicleType): (n: nat)
      reads this, repo
      ensures n == |FreePositions(repo.slots, t)|
    {
      AvailableCountIsFreePositions(repo.slots, t);
      |AvailableSlots(repo.slots, t)|
    }
  }
}
