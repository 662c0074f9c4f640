/**
  The DXGI keyed mutex of a staging texture: free under a key, held by one of
  the two processes, or abandoned by a process that died while holding it.
 */
module KeyedMutexes {

  datatype Side = Shim | Helper

  datatype KeyedMutex = Free(key: nat) | Held(side: Side) | Abandoned

  const SHIM_KEY: nat := 0
  const HELPER_KEY: nat := 1

  // AcquireSync with a zero timeout: S_OK, or WAIT_ABANDONED, which counts as acquired.
  predicate CanAcquire(m: KeyedMutex, key: nat) { m == Free(key) || m == Abandoned }
}

/**
  The shim's ring of staging slots (shim/src/frame_staging.cpp): the ring as a
  value, what each operation does to it, and the class that does it in place.
 */
module StagingRing {
  import opened Prelude
  import opened KeyedMutexes

  const MAX_SLOTS: nat := 3

  datatype Slot = Slot(helperOwned: bool, leased: bool, frameId: nat)

  const FREE_SLOT := Slot(false, false, 0)

  // An empty slot list is "no ring". The generation survives the ring it counts.
  datatype Ring = Ring(slots: seq<Slot>, generation: nat, stale: bool, next: nat)

  predicate WellFormed(r: Ring) {
    |r.slots| <= MAX_SLOTS && (if r.slots == [] then r.next == 0 else r.next < |r.slots|)
  }

  function RingSize(requested: nat): nat {
    if requested == 0 then 1 else if requested > MAX_SLOTS then MAX_SLOTS else requested
  }

  function Destroyed(r: Ring): Ring { Ring([], r.generation, false, 0) }

  function Created(r: Ring, requested: nat): Ring {
    Ring(seq(RingSize(requested), _ => FREE_SLOT), r.generation + 1, false, 0)
  }

  function MarkedStale(r: Ring): Ring {
    if r.slots != [] then r.(stale := true) else r
  }

  // A slot acquire_slot would take: ours, not out on lease, and its mutex can be
  // had under key 0 or, for a release the helper never consumed, under key 1.
  predicate Takable(slot: Slot, m: KeyedMutex) {
    && !slot.helperOwned
    && !slot.leased
    && (CanAcquire(m, SHIM_KEY) || CanAcquire(m, HELPER_KEY))
  }

  function RoundRobin(r: Ring, attempt: nat): (i: nat)
    requires WellFormed(r) && attempt < |r.slots|
    ensures i < |r.slots|
  {
    (r.next + attempt) % |r.slots|
  }

  // The slot a search starting at the round-robin position settles on.
  function Pick(r: Ring, ms: seq<KeyedMutex>, attempt: nat): Option<nat>
    requires WellFormed(r) && |ms| == |r.slots| && attempt <= |r.slots|
    decreases |r.slots| - attempt
  {
    if attempt == |r.slots| then None
    else
      var i := RoundRobin(r, attempt);
      if Takable(r.slots[i], ms[i]) then Some(i) else Pick(r, ms, attempt + 1)
  }

  // What acquire_slot returns: nothing on a missing or stale ring.
  function SlotToLease(r: Ring, ms: seq<KeyedMutex>): Option<nat>
    requires WellFormed(r) && |ms| == |r.slots|
  {
    if r.slots == [] || r.stale then None else Pick(r, ms, 0)
  }

  function LeasedOut(r: Ring, i: nat): Ring
    requires i < |r.slots|
  {
    r.(slots := r.slots[i := r.slots[i].(leased := true)], next := (i + 1) % |r.slots|)
  }

  function ReleasedToHelper(r: Ring, i: nat, frameId: nat): Ring
    requires i < |r.slots|
  {
    r.(slots := r.slots[i := Slot(true, false, frameId)])
  }

  function Returned(r: Ring, i: nat): Ring
    requires i < |r.slots|
  {
    r.(slots := r.slots[i := FREE_SLOT])
  }

  predicate Answers(r: Ring, id: nat, index: nat) {
    index < |r.slots| && r.slots[index].helperOwned && r.slots[index].frameId == id
  }

  function AfterFrameDone(r: Ring, id: nat, index: nat): Ring {
    if Answers(r, id, index)
    then r.(slots := r.slots[index := r.slots[index].(helperOwned := false, frameId := 0)])
    else r
  }

  lemma RoundRobinReaches(r: Ring, i: nat)
    requires WellFormed(r) && i < |r.slots|
    ensures exists k: nat :: k < |r.slots| && RoundRobin(r, k) == i
  {
    var n := |r.slots|;
    var k := if i >= r.next then i - r.next else i + n - r.next;
    assert (r.next + k) % n == i by {
      if i < r.next { assert r.next + k == i + n; }
    }
    assert RoundRobin(r, k) == i;
  }

  // The search from `attempt` on finds the first takable slot in round-robin
  // order, and finds nothing exactly when there is none.
  lemma {:induction false} PickFindsFirst(r: Ring, ms: seq<KeyedMutex>, attempt: nat)
    requires WellFormed(r) && |ms| == |r.slots| && attempt <= |r.slots|
    ensures Pick(r, ms, attempt) == None <==>
            forall k: nat :: attempt <= k < |r.slots| ==>
              !Takable(r.slots[RoundRobin(r, k)], ms[RoundRobin(r, k)])
    ensures Pick(r, ms, attempt).Some? ==>
            exists k: nat :: attempt <= k < |r.slots| && RoundRobin(r, k) == Pick(r, ms, attempt).value
              && Takable(r.slots[RoundRobin(r, k)], ms[RoundRobin(r, k)])
              && forall j: nat :: attempt <= j < k ==>
                   !Takable(r.slots[RoundRobin(r, j)], ms[RoundRobin(r, j)])
    decreases |r.slots| - attempt
  {
    if attempt < |r.slots| {
      var i := RoundRobin(r, attempt);
      if !Takable(r.slots[i], ms[i]) {
        PickFindsFirst(r, ms, attempt + 1);
      }
    }
  }

  // acquire_slot hands out nothing exactly when the ring is missing, stale, or
  // has no takable slot; what it hands out is takable.
  lemma LeaseRefusedExactly(r: Ring, ms: seq<KeyedMutex>)
    requires WellFormed(r) && |ms| == |r.slots|
    ensures SlotToLease(r, ms) == None <==>
            r.slots == [] || r.stale || forall i: nat :: i < |r.slots| ==> !Takable(r.slots[i], ms[i])
    ensures SlotToLease(r, ms).Some? ==>
            SlotToLease(r, ms).value < |r.slots|
            && Takable(r.slots[SlotToLease(r, ms).value], ms[SlotToLease(r, ms).value])
  {
    if r.slots != [] && !r.stale {
      PickFindsFirst(r, ms, 0);
      if Pick(r, ms, 0) == None {
        forall i: nat | i < |r.slots| ensures !Takable(r.slots[i], ms[i]) {
          RoundRobinReaches(r, i);
        }
      }
    }
  }

  /**
    FrameStagingRing. `slots` and `mutexes` are the fixed slot table; only the
    first `count` entries mean anything. A mutex entry is the state of the shared
    kernel object behind the slot's IDXGIKeyedMutex.
   */
  class FrameStagingRing {
    const slots: array<Slot>
    const mutexes: array<KeyedMutex>
    var count: nat
    var generation: nat
    var stale: bool
    var next: nat

    ghost predicate Valid()
      reads this
    {
      slots.Length == MAX_SLOTS && mutexes.Length == MAX_SLOTS && count <= MAX_SLOTS
      && (if count == 0 then next == 0 else next < count)
    }

    ghost function View(): (r: Ring)
      requires Valid()
      reads this, slots
      ensures WellFormed(r) && |r.slots| == count
    {
      Ring(slots[..count], generation, stale, next)
    }

    ghost function Mutexes(): (ms: seq<KeyedMutex>)
      requires Valid()
      reads this, mutexes
      ensures |ms| == count
    {
      mutexes[..count]
    }

    constructor ()
      ensures Valid() && fresh(slots) && fresh(mutexes) && View() == Ring([], 0, false, 0)
    {
      slots := new Slot[MAX_SLOTS](_ => FREE_SLOT);
      mutexes := new KeyedMutex[MAX_SLOTS](_ => Free(SHIM_KEY));
      count, generation, stale, next := 0, 0, false, 0;
    }

    // Returns the states the old ring's mutexes are left in: a lease still out is
    // given back under key 0 before the object is let go.
    method Destroy() returns (left: seq<KeyedMutex>)
      requires Valid()
      modifies this, slots
      ensures Valid() && View() == Destroyed(old(View()))
      ensures |left| == old(count)
      ensures forall i :: 0 <= i < old(count) ==>
                left[i] == if old(slots[i]).leased then Free(SHIM_KEY) else mutexes[i]
    {
      left := [];
      for i := 0 to count
        invariant |left| == i && count == old(count) && generation == old(generation) && Valid()
        invariant forall j :: i <= j < MAX_SLOTS ==> slots[j] == old(slots[j])
        invariant forall j :: 0 <= j < i ==>
                    left[j] == if old(slots[j]).leased then Free(SHIM_KEY) else mutexes[j]
      {
        left := left + [if slots[i].leased then Free(SHIM_KEY) else mutexes[i]];
        slots[i] := FREE_SLOT;
      }
      count, stale, next := 0, false, 0;
    }

    // `exported` is how many textures the device manages to create and export. A call
    // without a device or without an area leaves the ring there is in place.
    method Create(device: bool, width: nat, height: nat, requested: nat, exported: nat) returns (ok: bool)
      requires Valid()
      modifies this, slots, mutexes
      ensures Valid()
      ensures ok == (device && width > 0 && height > 0 && exported >= RingSize(requested))
      ensures ok ==> View() == Created(old(View()), requested)
      ensures !ok ==> View() == if device && width > 0 && height > 0 then Destroyed(old(View())) else old(View())
      ensures !(device && width > 0 && height > 0) ==> Mutexes() == old(Mutexes())
      ensures ok ==> forall i :: 0 <= i < count ==> mutexes[i] == Free(SHIM_KEY)
    {
      if !device || width == 0 || height == 0 { return false; }
      var n := RingSize(requested);
      var _ := Destroy();
      for i := 0 to n
        invariant Valid() && count == 0 && View() == Destroyed(old(View())) && i <= exported
        invariant forall j :: 0 <= j < i ==> slots[j] == FREE_SLOT && mutexes[j] == Free(SHIM_KEY)
      {
        if i >= exported {
          var _ := Destroy();
          return false;
        }
        mutexes[i] := Free(SHIM_KEY);
        slots[i] := FREE_SLOT;
      }
      count, stale, next := n, false, 0;
      generation := generation + 1;
      ok := true;
      assert slots[..count] == seq(n, _ => FREE_SLOT);
    }

    method AcquireSlot() returns (lease: Option<nat>)
      requires Valid()
      modifies this, slots, mutexes
      ensures Valid() && count == old(count)
      ensures lease == SlotToLease(old(View()), old(Mutexes()))
      ensures lease == None ==> View() == old(View()) && Mutexes() == old(Mutexes())
      ensures lease.Some? ==> lease.value < count && View() == LeasedOut(old(View()), lease.value)
                              && Mutexes() == old(Mutexes())[lease.value := Held(Shim)]
    {
      if count == 0 || stale {
        return None;
      }
      var attempt := 0;
      while attempt < count
        invariant attempt <= count && Valid() && View() == old(View()) && Mutexes() == old(Mutexes())
        invariant Pick(View(), Mutexes(), attempt) == Pick(View(), Mutexes(), 0)
      {
        var index := (next + attempt) % count;
        ghost var r, ms := View(), Mutexes();
        assert index == RoundRobin(r, attempt) && r.slots[index] == slots[index] && ms[index] == mutexes[index];
        if !slots[index].helperOwned && !slots[index].leased {
          var acquired := CanAcquire(mutexes[index], SHIM_KEY);
          if !acquired {
            acquired := CanAcquire(mutexes[index], HELPER_KEY);
          }
          if acquired {
            mutexes[index] := Held(Shim);
            slots[index] := slots[index].(leased := true);
            next := (index + 1) % count;
            assert View().slots == r.slots[index := r.slots[index].(leased := true)];
            assert Mutexes() == ms[index := Held(Shim)];
            return Some(index);
          }
        }
        attempt := attempt + 1;
      }
      lease := None;
    }

    method ReleaseToHelper(lease: int, frameId: nat)
      requires Valid()
      modifies slots, mutexes
      ensures Valid()
      ensures (0 <= lease < count && old(View()).slots[lease].leased) ==>
                View() == ReleasedToHelper(old(View()), lease, frameId)
                && Mutexes() == old(Mutexes())[lease := Free(HELPER_KEY)]
      ensures !(0 <= lease < count && old(View()).slots[lease].leased) ==>
                View() == old(View()) && Mutexes() == old(Mutexes())
    {
      if lease < 0 || lease >= count || !slots[lease].leased {
        return;
      }
      mutexes[lease] := Free(HELPER_KEY);
      slots[lease] := Slot(true, false, frameId);
      assert View().slots == old(View()).slots[lease := Slot(true, false, frameId)];
      assert Mutexes() == old(Mutexes())[lease := Free(HELPER_KEY)];
    }

    method ReturnSlot(lease: int)
      requires Valid()
      modifies slots, mutexes
      ensures Valid()
      ensures (0 <= lease < count && old(View()).slots[lease].leased) ==>
                View() == Returned(old(View()), lease) && Mutexes() == old(Mutexes())[lease := Free(SHIM_KEY)]
      ensures !(0 <= lease < count && old(View()).slots[lease].leased) ==>
                View() == old(View()) && Mutexes() == old(Mutexes())
    {
      if lease < 0 || lease >= count || !slots[lease].leased {
        return;
      }
      mutexes[lease] := Free(SHIM_KEY);
      slots[lease] := FREE_SLOT;
      assert View().slots == old(View()).slots[lease := FREE_SLOT];
      assert Mutexes() == old(Mutexes())[lease := Free(SHIM_KEY)];
    }

    method OnFrameDone(id: nat, index: nat) returns (freed: bool)
      requires Valid()
      modifies slots
      ensures Valid() && freed == Answers(old(View()), id, index)
      ensures View() == AfterFrameDone(old(View()), id, index) && Mutexes() == old(Mutexes())
    {
      if count == 0 || index >= count || !slots[index].helperOwned || slots[index].frameId != id {
        return false;
      }
      slots[index] := slots[index].(helperOwned := false, frameId := 0);
      assert View().slots == old(View()).slots[index := old(View()).slots[index].(helperOwned := false, frameId := 0)];
      freed := true;
    }

    method MarkStale()
      requires Valid()
      modifies this
      ensures Valid() && View() == MarkedStale(old(View())) && Mutexes() == old(Mutexes())
    {
      if count != 0 && !stale {
        stale := true;
      }
    }
  }
}
