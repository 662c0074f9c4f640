/**
  The heart of the frame transport: the staging textures of every ring generation,
  the shim's ring, the frames that are on their way to the encoder in order, and the
  ids of the answers that are on their way back. Eleven actions change this picture;
  each keeps CoreInv, which says that a frame on its way still has its own pixels in
  its slot, under the helper's key, and that the shim regards that slot as taken.
 */
module TransportCore {
  import opened Prelude
  import opened KeyedMutexes
  import opened StagingRing
  import opened Intake

  // NT handles are never reused within a run, so a texture is its generation and slot.
  datatype TexId = TexId(generation: nat, slot: nat)

  // `pixels` is the id of the frame last blitted into the texture, 0 for none.
  datatype Texture = Texture(mutex: KeyedMutex, pixels: nat)

  datatype Core = Core(ring: Ring, tex: map<TexId, Texture>, lastId: nat,
                       up: seq<Ready>, answers: set<nat>,
                       lease: Option<nat>, blitted: bool, held: Option<Ready>)

  function TexOf(f: Ready): TexId { TexId(f.generation, f.slot) }

  function MutexAt(tex: map<TexId, Texture>, t: TexId): KeyedMutex {
    if t in tex then tex[t].mutex else Free(SHIM_KEY)
  }

  function WithMutex(tex: map<TexId, Texture>, t: TexId, m: KeyedMutex): map<TexId, Texture> {
    if t in tex then tex[t := tex[t].(mutex := m)] else tex
  }

  function WithPixels(tex: map<TexId, Texture>, t: TexId, id: nat): map<TexId, Texture> {
    if t in tex then tex[t := tex[t].(pixels := id)] else tex
  }

  function RingMutexes(ring: Ring, tex: map<TexId, Texture>): (ms: seq<KeyedMutex>)
    ensures |ms| == |ring.slots|
  {
    seq(|ring.slots|, i requires 0 <= i => MutexAt(tex, TexId(ring.generation, i)))
  }

  ghost predicate Increasing(up: seq<Ready>) {
    forall i, j :: 0 <= i < j < |up| ==> up[i].id < up[j].id
  }

  ghost predicate Shape(c: Core) {
    WellFormed(c.ring)
    && (forall t :: t in c.tex ==> t.generation <= c.ring.generation)
    && (forall i: nat :: i < |c.ring.slots| ==> TexId(c.ring.generation, i) in c.tex)
    && (forall f :: f in c.up ==> TexOf(f) in c.tex)
  }

  ghost predicate InFlight(c: Core) {
    Increasing(c.up)
    && (forall f :: f in c.up ==> 0 < f.id <= c.lastId && f.id !in c.answers)
    && (forall id :: id in c.answers ==> id <= c.lastId)
    && (c.held.Some? ==> c.up != [] && c.up[0] == c.held.value)
  }

  // A frame on its way has its own pixels in its slot; the slot waits under the
  // helper's key, or the helper is holding it for exactly this frame.
  ghost predicate Pixels(c: Core)
    requires Shape(c)
  {
    forall f :: f in c.up ==>
      c.tex[TexOf(f)] == Texture(if c.held == Some(f) then Held(Helper) else Free(HELPER_KEY), f.id)
  }

  // The shim books a frame of its present ring against the slot it is in.
  ghost predicate Booked(c: Core) {
    forall f :: f in c.up && f.generation == c.ring.generation && c.ring.slots != [] ==>
      Answers(c.ring, f.id, f.slot)
  }

  // The mutex of a slot of the present ring, given what the shim thinks of the slot.
  ghost predicate SlotOk(c: Core, i: nat)
    requires Shape(c) && i < |c.ring.slots|
  {
    var slot, m := c.ring.slots[i], c.tex[TexId(c.ring.generation, i)].mutex;
    (slot.leased <==> c.lease == Some(i))
    && (slot.leased ==> !slot.helperOwned && m == Held(Shim)
                        && (c.blitted ==> c.tex[TexId(c.ring.generation, i)].pixels == c.lastId + 1))
    && (!slot.leased && !slot.helperOwned ==> m == Free(SHIM_KEY) || m == Free(HELPER_KEY))
    && (slot.helperOwned ==> slot.frameId <= c.lastId && m != Held(Shim)
                             && (m == Held(Helper) ==>
                                   c.held.Some? && TexOf(c.held.value) == TexId(c.ring.generation, i))
                             && (m == Abandoned ==> Forgotten(c, slot.frameId))
                             && (m.Free? ==> m == Free(SHIM_KEY) || m == Free(HELPER_KEY)))
  }

  // No answer to this frame exists or ever will: the helper died with it.
  ghost predicate Forgotten(c: Core, id: nat) {
    id !in c.answers && forall f :: f in c.up ==> f.id != id
  }

  ghost predicate CoreInv(c: Core) {
    && Shape(c)
    && InFlight(c)
    && Pixels(c)
    && Booked(c)
    && (forall i: nat :: i < |c.ring.slots| ==> SlotOk(c, i))
    && (c.lease.Some? ==> c.lease.value < |c.ring.slots|)
  }

  const NOTHING := Core(Ring([], 0, false, 0), map[], 0, [], {}, None, false, None)

  // --- What the invariant gives -----------------------------------------

  // Two frames in flight with the same id are the same frame.
  lemma SameFrame(c: Core, f: Ready, g: Ready)
    requires InFlight(c) && f in c.up && g in c.up && f.id == g.id
    ensures f == g
  {
    var i :| 0 <= i < |c.up| && c.up[i] == f;
    var j :| 0 <= j < |c.up| && c.up[j] == g;
    assert i == j;
  }

  // The slot the helper is holding is booked, and not answered yet.
  lemma HeldSlotIsBooked(c: Core, i: nat)
    requires CoreInv(c) && i < |c.ring.slots| && c.held.Some?
    requires TexOf(c.held.value) == TexId(c.ring.generation, i)
    ensures c.ring.slots[i].helperOwned && c.ring.slots[i].frameId !in c.answers
  {
    assert c.held.value in c.up;
    assert Answers(c.ring, c.held.value.id, c.held.value.slot);
  }

  // An answer frees only slots whose mutex nobody holds.
  lemma AnsweredSlotIsReleased(c: Core, i: nat)
    requires CoreInv(c) && i < |c.ring.slots| && c.ring.slots[i].helperOwned
    requires c.ring.slots[i].frameId in c.answers
    ensures var m := c.tex[TexId(c.ring.generation, i)].mutex; m == Free(SHIM_KEY) || m == Free(HELPER_KEY)
  {
    var m := c.tex[TexId(c.ring.generation, i)].mutex;
    assert SlotOk(c, i);
    match m
    case Held(Helper) => HeldSlotIsBooked(c, i);
    case Held(Shim) =>
    case Abandoned =>
    case Free(_) =>
  }

  // --- Actions: frames and answers ---------------------------------------

  // Removing a stretch of frames keeps the rest in order and removes nothing else.
  lemma RemoveStretch(a: seq<Ready>, b: seq<Ready>, d: seq<Ready>)
    requires Increasing(a + b + d)
    ensures Increasing(a + d)
    ensures forall f :: f in a + d ==> f in a + b + d
    ensures forall f, g :: f in a + d && g in b ==> f.id != g.id
  {
    var all := a + b + d;
    forall i, j | 0 <= i < j < |a + d| ensures (a + d)[i].id < (a + d)[j].id {
      var i' := if i < |a| then i else i + |b|;
      var j' := if j < |a| then j else j + |b|;
      assert all[i'] == (a + d)[i] && all[j'] == (a + d)[j];
    }
    forall f, g | f in a + d && g in b ensures f.id != g.id {
      var i :| 0 <= i < |a + d| && (a + d)[i] == f;
      var k :| 0 <= k < |b| && b[k] == g;
      var i' := if i < |a| then i else i + |b|;
      assert all[i'] == f && all[|a| + k] == g && i' != |a| + k;
    }
  }

  // Frames and answers are lost: a full queue, a broken pipe, a client gone.
  lemma LoseKeepsInv(c: Core, a: seq<Ready>, b: seq<Ready>, d: seq<Ready>, answers: set<nat>)
    requires CoreInv(c) && c.up == a + b + d && answers <= c.answers
    requires c.held.Some? ==> a != [] || b == []
    ensures CoreInv(c.(up := a + d, answers := answers))
  {
    RemoveStretch(a, b, d);
    var c' := c.(up := a + d, answers := answers);
    forall i: nat | i < |c'.ring.slots| ensures SlotOk(c', i) { assert SlotOk(c, i); }
  }

  // A frame the helper is not holding is answered instead of encoded.
  lemma AnswerKeepsInv(c: Core, a: seq<Ready>, f: Ready, d: seq<Ready>, answers: set<nat>)
    requires CoreInv(c) && c.up == a + [f] + d && (c.held.Some? ==> a != [])
    requires answers <= c.answers + {f.id}
    ensures CoreInv(c.(up := a + d, answers := answers))
  {
    RemoveStretch(a, [f], d);
    assert f in [f] && c.up[|a|] == f && f in c.up;
    var c' := c.(up := a + d, answers := answers);
    assert c.held.Some? ==> c.up[0] == a[0] && c'.up[0] == a[0];
    forall i: nat | i < |c'.ring.slots| ensures SlotOk(c', i) { assert SlotOk(c, i); }
  }

  // An answer reaches the shim.
  lemma DoneKeepsInv(c: Core, id: nat, slot: nat, answers: set<nat>)
    requires CoreInv(c) && id in c.answers && answers <= c.answers
    ensures CoreInv(c.(ring := AfterFrameDone(c.ring, id, slot), answers := answers))
  {
    var c' := c.(ring := AfterFrameDone(c.ring, id, slot), answers := answers);
    if Answers(c.ring, id, slot) { AnsweredSlotIsReleased(c, slot); }
    forall i: nat | i < |c'.ring.slots| ensures SlotOk(c', i) { assert SlotOk(c, i); }
  }

  // --- Actions: the shim -------------------------------------------------

  lemma StaleKeepsInv(c: Core)
    requires CoreInv(c)
    ensures CoreInv(c.(ring := MarkedStale(c.ring)))
  {
    var c' := c.(ring := MarkedStale(c.ring));
    forall i: nat | i < |c'.ring.slots| ensures SlotOk(c', i) { assert SlotOk(c, i); }
  }

  lemma DestroyKeepsInv(c: Core)
    requires CoreInv(c) && c.lease == None
    ensures CoreInv(c.(ring := Destroyed(c.ring)))
  {
  }

  function NewTextures(generation: nat, n: nat): map<TexId, Texture> {
    map i: nat | i < n :: TexId(generation, i) := Texture(Free(SHIM_KEY), 0)
  }

  lemma CreateKeepsInv(c: Core, requested: nat)
    requires CoreInv(c) && c.lease == None
    ensures var ring := Created(c.ring, requested);
            CoreInv(c.(ring := ring, tex := c.tex + NewTextures(ring.generation, |ring.slots|)))
  {
    var ring := Created(c.ring, requested);
    var c' := c.(ring := ring, tex := c.tex + NewTextures(ring.generation, |ring.slots|));
    forall f | f in c'.up ensures TexOf(f) in c'.tex && c'.tex[TexOf(f)] == c.tex[TexOf(f)] {
      assert f.generation < ring.generation;
    }
    forall i: nat | i < |ring.slots| ensures TexId(c'.ring.generation, i) in c'.tex && SlotOk(c', i) {
      assert c'.ring.slots[i] == FREE_SLOT;
    }
  }

  // The shim's lease can only be refused for want of a slot that is not booked.
  lemma LeaseExactlyWhenUnbooked(c: Core)
    requires CoreInv(c) && c.lease == None && c.ring.slots != [] && !c.ring.stale
    ensures SlotToLease(c.ring, RingMutexes(c.ring, c.tex)) == None <==>
            forall i: nat :: i < |c.ring.slots| ==> c.ring.slots[i].helperOwned
  {
    LeaseRefusedExactly(c.ring, RingMutexes(c.ring, c.tex));
    forall i: nat | i < |c.ring.slots|
      ensures Takable(c.ring.slots[i], RingMutexes(c.ring, c.tex)[i]) <==> !c.ring.slots[i].helperOwned
    {
      assert SlotOk(c, i);
    }
  }

  lemma LeaseKeepsInv(c: Core, i: nat)
    requires CoreInv(c) && c.lease == None && !c.blitted && i < |c.ring.slots|
    requires Takable(c.ring.slots[i], c.tex[TexId(c.ring.generation, i)].mutex)
    ensures var t := TexId(c.ring.generation, i);
            CoreInv(c.(ring := LeasedOut(c.ring, i), lease := Some(i),
                       tex := WithMutex(c.tex, t, Held(Shim))))
  {
    var t := TexId(c.ring.generation, i);
    var c' := c.(ring := LeasedOut(c.ring, i), lease := Some(i), tex := WithMutex(c.tex, t, Held(Shim)));
    SlotHasNoFrame(c, i);
    forall k: nat | k < |c'.ring.slots| ensures SlotOk(c', k) { assert SlotOk(c, k); }
  }

  // No frame is in flight in a slot the shim may write to.
  lemma SlotHasNoFrame(c: Core, i: nat)
    requires CoreInv(c) && i < |c.ring.slots| && !c.ring.slots[i].helperOwned
    ensures forall f :: f in c.up ==> TexOf(f) != TexId(c.ring.generation, i)
  {
  }

  lemma BlitKeepsInv(c: Core)
    requires CoreInv(c) && c.lease.Some?
    ensures var t := TexId(c.ring.generation, c.lease.value);
            CoreInv(c.(blitted := true, tex := WithPixels(c.tex, t, c.lastId + 1)))
  {
    var i := c.lease.value;
    var t := TexId(c.ring.generation, i);
    var c' := c.(blitted := true, tex := WithPixels(c.tex, t, c.lastId + 1));
    assert SlotOk(c, i);
    SlotHasNoFrame(c, i);
    forall k: nat | k < |c'.ring.slots| ensures SlotOk(c', k) { assert SlotOk(c, k); }
  }

  lemma AppendNewest(up: seq<Ready>, f: Ready)
    requires Increasing(up) && forall g :: g in up ==> g.id < f.id
    ensures Increasing(up + [f]) && forall g :: g in up + [f] <==> g in up || g == f
  {
    forall m, n | 0 <= m < n < |up + [f]| ensures (up + [f])[m].id < (up + [f])[n].id {
      if n == |up| { assert up[m] in up; }
    }
    assert (up + [f])[|up|] == f;
  }

  lemma ReleaseKeepsInv(c: Core)
    requires CoreInv(c) && c.lease.Some? && c.blitted
    ensures var i, t := c.lease.value, TexId(c.ring.generation, c.lease.value);
            CoreInv(c.(ring := ReleasedToHelper(c.ring, i, c.lastId + 1), lastId := c.lastId + 1,
                       tex := WithMutex(c.tex, t, Free(HELPER_KEY)),
                       up := c.up + [Ready(c.lastId + 1, c.ring.generation, i)], lease := None, blitted := false))
  {
    var i, t := c.lease.value, TexId(c.ring.generation, c.lease.value);
    var f := Ready(c.lastId + 1, c.ring.generation, i);
    var c' := c.(ring := ReleasedToHelper(c.ring, i, c.lastId + 1), lastId := c.lastId + 1,
                 tex := WithMutex(c.tex, t, Free(HELPER_KEY)),
                 up := c.up + [f], lease := None, blitted := false);
    assert SlotOk(c, i);
    SlotHasNoFrame(c, i);
    AppendNewest(c.up, f);
    assert Pixels(c');
    forall k: nat | k < |c'.ring.slots| ensures SlotOk(c', k) { assert SlotOk(c, k); }
  }

  // --- Actions: the helper -----------------------------------------------

  lemma AcquireKeepsInv(c: Core, f: Ready)
    requires CoreInv(c) && c.held == None && c.up != [] && c.up[0] == f
    ensures var t := TexOf(f);
            CoreInv(c.(held := Some(f), tex := WithMutex(c.tex, t, Held(Helper))))
  {
    var t := TexOf(f);
    var c' := c.(held := Some(f), tex := WithMutex(c.tex, t, Held(Helper)));
    assert f in c.up;
    OneFramePerTexture(c, f);
    forall k: nat | k < |c'.ring.slots| ensures SlotOk(c', k) { assert SlotOk(c, k); }
  }

  // Two frames in flight never share a texture: its pixels tell them apart.
  lemma OneFramePerTexture(c: Core, f: Ready)
    requires CoreInv(c) && f in c.up
    ensures forall g :: g in c.up && TexOf(g) == TexOf(f) ==> g == f
  {
    forall g | g in c.up && TexOf(g) == TexOf(f) ensures g == f { SameFrame(c, f, g); }
  }

  // The frame the helper holds leaves the line, its mutex released or abandoned.
  // Everything said about the frames that stay is still true.
  lemma HeldFrameLeaves(c: Core, f: Ready, d: seq<Ready>, m: KeyedMutex, answers: set<nat>)
    requires CoreInv(c) && c.up == [f] + d && c.held == Some(f) && answers <= c.answers + {f.id}
    ensures var c' := c.(held := None, tex := WithMutex(c.tex, TexOf(f), m), up := d, answers := answers);
            && Shape(c')
            && InFlight(c')
            && Pixels(c')
            && Booked(c')
            && forall g :: g in c'.up ==> g.id != f.id
  {
    assert c.up[0] == f;
    OneFramePerTexture(c, f);
    RemoveFirst(f, d);
  }

  lemma RemoveFirst(f: Ready, d: seq<Ready>)
    requires Increasing([f] + d)
    ensures Increasing(d)
    ensures forall g :: g in d ==> g.id != f.id && g in [f] + d
  {
    assert [f] + d == [] + [f] + d && d == [] + d;
    RemoveStretch([], [f], d);
    assert f in [f];
  }

  // The encode is over: the slot goes back under the shim's key and the frame turns
  // into an answer.
  lemma HandBackKeepsInv(c: Core, f: Ready, d: seq<Ready>, answers: set<nat>)
    requires CoreInv(c) && c.up == [f] + d && c.held == Some(f) && answers <= c.answers + {f.id}
    ensures CoreInv(c.(held := None, tex := WithMutex(c.tex, TexOf(f), Free(SHIM_KEY)), up := d, answers := answers))
  {
    HeldFrameLeaves(c, f, d, Free(SHIM_KEY), answers);
    var c' := c.(held := None, tex := WithMutex(c.tex, TexOf(f), Free(SHIM_KEY)), up := d, answers := answers);
    forall k: nat | k < |c'.ring.slots| ensures SlotOk(c', k) {
      assert SlotOk(c, k);
      assert f in c.up;
    }
  }

  // The helper dies with the slot held: the mutex is abandoned and the frame, like
  // every other frame in its hands, is never answered.
  lemma AbandonKeepsInv(c: Core, f: Ready, d: seq<Ready>)
    requires CoreInv(c) && c.up == [f] + d && c.held == Some(f)
    ensures CoreInv(c.(held := None, tex := WithMutex(c.tex, TexOf(f), Abandoned), up := d))
  {
    HeldFrameLeaves(c, f, d, Abandoned, c.answers);
    var c' := c.(held := None, tex := WithMutex(c.tex, TexOf(f), Abandoned), up := d);
    forall k: nat | k < |c'.ring.slots| ensures SlotOk(c', k) {
      assert SlotOk(c, k);
      assert f in c.up;
      if TexId(c.ring.generation, k) == TexOf(f) { assert Answers(c.ring, f.id, f.slot); }
    }
  }

  // --- The actions together ------------------------------------------------

  datatype Action =
    | Lose(a: seq<Ready>, b: seq<Ready>, d: seq<Ready>, stale: bool)
    | Answer(a: seq<Ready>, f: Ready, d: seq<Ready>)
    | Deliver(id: nat, slot: nat)
    | Destroy
    | Create(requested: nat)
    | LeaseSlot
    | BlitSlot
    | ReleaseSlot
    | Acquire(f: Ready)
    | HandBack(f: Ready, d: seq<Ready>)
    | Die(f: Ready, b: seq<Ready>, d: seq<Ready>)

  function LeaseFrom(ring: Ring, tex: map<TexId, Texture>): Option<nat> {
    if WellFormed(ring) then SlotToLease(ring, RingMutexes(ring, tex)) else None
  }

  // What one action makes of the core, given the answers that survive it; None when the
  // action is not possible. Nothing here assumes the invariant: the guards are the ones
  // the code itself checks, or follow from where its threads are.
  function Successor(c: Core, action: Action, answers: set<nat>): Option<Core> {
    match action
    case Lose(a, b, d, stale) =>
      if c.up == a + b + d && (c.held.Some? ==> a != [] || b == []) && answers <= c.answers
      then Some(c.(up := a + d, answers := answers, ring := if stale then MarkedStale(c.ring) else c.ring)) else None
    case Answer(a, f, d) =>
      if c.up == a + [f] + d && (c.held.Some? ==> a != []) && answers <= c.answers + {f.id}
      then Some(c.(up := a + d, answers := answers)) else None
    case Deliver(id, slot) =>
      if id in c.answers && answers <= c.answers
      then Some(c.(ring := AfterFrameDone(c.ring, id, slot), answers := answers)) else None
    case Destroy => if c.lease == None then Some(c.(ring := Destroyed(c.ring))) else None
    case Create(requested) =>
      var ring := Created(c.ring, requested);
      if c.lease == None
      then Some(c.(ring := ring, tex := c.tex + NewTextures(ring.generation, |ring.slots|)))
      else None
    case LeaseSlot =>
      var slot := LeaseFrom(c.ring, c.tex);
      if c.lease == None && !c.blitted && slot.Some? && slot.value < |c.ring.slots|
      then Some(c.(ring := LeasedOut(c.ring, slot.value), lease := slot,
                   tex := WithMutex(c.tex, TexId(c.ring.generation, slot.value), Held(Shim)))) else None
    case BlitSlot =>
      if c.lease.Some? && !c.blitted
      then Some(c.(blitted := true, tex := WithPixels(c.tex, TexId(c.ring.generation, c.lease.value), c.lastId + 1)))
      else None
    case ReleaseSlot =>
      if c.lease.Some? && c.blitted then
        var i, t := c.lease.value, TexId(c.ring.generation, c.lease.value);
        var leased := i < |c.ring.slots| && c.ring.slots[i].leased;
        Some(c.(ring := if leased then ReleasedToHelper(c.ring, i, c.lastId + 1) else c.ring,
                tex := if leased then WithMutex(c.tex, t, Free(HELPER_KEY)) else c.tex,
                lastId := c.lastId + 1, up := c.up + [Ready(c.lastId + 1, c.ring.generation, i)],
                lease := None, blitted := false))
      else None
    case Acquire(f) =>
      if c.held == None && c.up != [] && c.up[0] == f
      then Some(c.(held := Some(f), tex := WithMutex(c.tex, TexOf(f), Held(Helper)))) else None
    case HandBack(f, d) =>
      if c.held == Some(f) && c.up == [f] + d && answers <= c.answers + {f.id}
      then Some(c.(held := None, tex := WithMutex(c.tex, TexOf(f), Free(SHIM_KEY)), up := d, answers := answers))
      else None
    case Die(f, b, d) =>
      if c.held == Some(f) && c.up == [f] + b + d && answers <= c.answers
      then Some(c.(held := None, tex := WithMutex(c.tex, TexOf(f), Abandoned), up := d, answers := answers)) else None
  }

  ghost predicate Moves(c: Core, action: Action, c': Core) { Successor(c, action, c'.answers) == Some(c') }

  lemma DieKeepsInv(c: Core, f: Ready, b: seq<Ready>, d: seq<Ready>, answers: set<nat>)
    requires CoreInv(c) && c.up == [f] + b + d && c.held == Some(f) && answers <= c.answers
    ensures CoreInv(c.(held := None, tex := WithMutex(c.tex, TexOf(f), Abandoned), up := d, answers := answers))
  {
    assert c.up == [f] + (b + d) && b + d == [] + b + d && d == [] + d;
    AbandonKeepsInv(c, f, b + d);
    LoseKeepsInv(c.(held := None, tex := WithMutex(c.tex, TexOf(f), Abandoned), up := b + d), [], b, d, answers);
  }

  lemma LeaseActionKeepsInv(c: Core, c': Core)
    requires CoreInv(c) && Moves(c, LeaseSlot, c')
    ensures CoreInv(c')
  {
    var i := LeaseFrom(c.ring, c.tex).value;
    LeaseRefusedExactly(c.ring, RingMutexes(c.ring, c.tex));
    LeaseKeepsInv(c, i);
  }

  // Every action keeps the invariant.
  lemma ActionKeepsInv(c: Core, action: Action, c': Core)
    requires CoreInv(c) && Moves(c, action, c')
    ensures CoreInv(c')
  {
    match action
    case Lose(a, b, d, stale) =>
      LoseKeepsInv(c, a, b, d, c'.answers);
      if stale { StaleKeepsInv(c.(up := a + d, answers := c'.answers)); }
    case Answer(a, f, d) => AnswerKeepsInv(c, a, f, d, c'.answers);
    case Deliver(id, slot) => DoneKeepsInv(c, id, slot, c'.answers);
    case Destroy => DestroyKeepsInv(c);
    case Create(requested) => CreateKeepsInv(c, requested);
    case LeaseSlot => LeaseActionKeepsInv(c, c');
    case BlitSlot => BlitKeepsInv(c);
    case ReleaseSlot =>
      assert SlotOk(c, c.lease.value);
      ReleaseKeepsInv(c);
    case Acquire(f) => AcquireKeepsInv(c, f);
    case HandBack(f, d) => HandBackKeepsInv(c, f, d, c'.answers);
    case Die(f, b, d) => DieKeepsInv(c, f, b, d, c'.answers);
  }
}
