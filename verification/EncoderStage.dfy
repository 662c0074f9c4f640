/**
  The helper's half of the keyed-mutex discipline (helper/src/encoder/d3d11_stage.cpp)
  and the encode that uses it (helper/src/encoder/amf_video_encoder.cpp): a slot is
  taken under key 1, copied from, given back under key 0, and both eyes come out or
  neither does.
 */
module EncoderStage {
  import opened Prelude
  import opened KeyedMutexes
  import StagingRing
  import I = Intake
  import K = KeyFrames
  import V = VideoBridge

  const STREAMS := 2

  // The mutexes are shared with the shim; `held` is what the helper believes of them.
  class Stage {
    const held: array<bool>
    const mutexes: array<KeyedMutex>
    var count: nat
    var generation: nat

    // The helper holds a mutex exactly when it believes so.
    ghost predicate Valid()
      reads this, held, mutexes
    {
      && held.Length == mutexes.Length == StagingRing.MAX_SLOTS && count <= StagingRing.MAX_SLOTS
      && forall i :: 0 <= i < StagingRing.MAX_SLOTS ==> (held[i] <==> i < count && mutexes[i] == Held(Helper))
    }

    ghost predicate NothingHeld()
      requires Valid()
      reads this, held, mutexes
    {
      forall i :: 0 <= i < StagingRing.MAX_SLOTS ==> !held[i]
    }

    // Opens the ring of one generation; none of its mutexes is the helper's.
    constructor (ring: seq<KeyedMutex>, g: nat)
      requires |ring| <= StagingRing.MAX_SLOTS && forall i :: 0 <= i < |ring| ==> ring[i] != Held(Helper)
      ensures Valid() && NothingHeld() && count == |ring| && generation == g && fresh(held) && fresh(mutexes)
      ensures mutexes[..count] == ring
    {
      held := new bool[StagingRing.MAX_SLOTS](_ => false);
      mutexes := new KeyedMutex[StagingRing.MAX_SLOTS](i => if 0 <= i < |ring| then ring[i] else Free(SHIM_KEY));
      count, generation := |ring|, g;
    }

    // `inTime` is whether a mutex that can be had is had before the timeout.
    method Acquire(index: nat, inTime: bool) returns (ok: bool)
      requires Valid()
      modifies held, mutexes
      ensures Valid()
      ensures ok <==> index < count && !old(held[index]) && CanAcquire(old(mutexes[index]), HELPER_KEY) && inTime
      ensures ok ==> held[..] == old(held[..])[index := true] && mutexes[..] == old(mutexes[..])[index := Held(Helper)]
      ensures !ok ==> held[..] == old(held[..]) && mutexes[..] == old(mutexes[..])
    {
      if index >= count || held[index] { return false; }
      if !CanAcquire(mutexes[index], HELPER_KEY) || !inTime { return false; }
      mutexes[index] := Held(Helper);
      held[index] := true;
      ok := true;
    }

    method Release(index: nat)
      requires Valid()
      modifies held, mutexes
      ensures Valid()
      ensures index < count && old(held[index]) ==>
                held[..] == old(held[..])[index := false] && mutexes[..] == old(mutexes[..])[index := Free(SHIM_KEY)]
      ensures !(index < count && old(held[index])) ==> held[..] == old(held[..]) && mutexes[..] == old(mutexes[..])
    {
      if index >= count || !held[index] { return; }
      mutexes[index] := Free(SHIM_KEY);
      held[index] := false;
    }

    // Whatever is still held goes back to the shim; nothing else is touched.
    method CloseRing()
      requires Valid()
      modifies this, held, mutexes
      ensures Valid() && NothingHeld() && count == 0 && generation == 0
      ensures forall i :: 0 <= i < StagingRing.MAX_SLOTS ==>
                mutexes[i] == if old(held[i]) then Free(SHIM_KEY) else old(mutexes[i])
    {
      for i := 0 to StagingRing.MAX_SLOTS
        invariant count == old(count)
        invariant forall j :: 0 <= j < i ==>
                    !held[j] && mutexes[j] == if old(held[j]) then Free(SHIM_KEY) else old(mutexes[j])
        invariant forall j :: i <= j < StagingRing.MAX_SLOTS ==>
                    held[j] == old(held[j]) && mutexes[j] == old(mutexes[j])
      {
        if held[i] { mutexes[i] := Free(SHIM_KEY); }
        held[i] := false;
      }
      count, generation := 0, 0;
    }
  }

  // What the two component encoders do with one frame: each accepts it or not, and an
  // accepted frame comes out or not.
  datatype Streams = Streams(submitted: seq<K.Outcome>, retrieved: seq<K.Outcome>)

  predicate BothEyes(x: Streams) { |x.submitted| == STREAMS && |x.retrieved| == STREAMS }

  predicate Produces(x: Streams, i: nat)
    requires BothEyes(x) && i < STREAMS
  {
    x.submitted[i] == K.Ok && x.retrieved[i] == K.Ok
  }

  predicate Breaks(x: Streams, i: nat)
    requires BothEyes(x) && i < STREAMS
  {
    x.submitted[i] == K.Fatal || (x.submitted[i] == K.Ok && x.retrieved[i] == K.Fatal)
  }

  function FromEye(x: Streams, id: nat, i: nat): seq<V.Encoded>
    requires BothEyes(x) && i < STREAMS
  {
    if Produces(x, i) then [V.Encoded(id, i)] else []
  }

  // The collecting loop over the streams that accepted the frame.
  method Collect(id: nat, x: Streams) returns (broken: bool, produced: seq<V.Encoded>)
    requires BothEyes(x)
    ensures broken <==> Breaks(x, 0) || Breaks(x, 1)
    ensures produced == FromEye(x, id, 0) + FromEye(x, id, 1)
  {
    broken, produced := false, [];
    for i := 0 to STREAMS
      invariant broken <==> (i > 0 && Breaks(x, 0)) || (i > 1 && Breaks(x, 1))
      invariant produced == (if i > 0 then FromEye(x, id, 0) else []) + (if i > 1 then FromEye(x, id, 1) else [])
    {
      if x.submitted[i] == K.Fatal {
        broken := true;
      } else if x.submitted[i] == K.Ok {
        if x.retrieved[i] == K.Fatal {
          broken := true;
        } else if x.retrieved[i] == K.Ok {
          produced := produced + [V.Encoded(id, i)];
        }
      }
    }
  }

  // One encode. It is fatal when the encoder is not ready or a component failed, ok
  // when both eyes came out, dropped otherwise; it puts out both eyes of the frame or
  // nothing; and on every path the slot, if it was taken, is back under key 0.
  method Encode(stage: Stage, ready: bool, frame: I.Ready, x: Streams, inTime: bool)
    returns (result: K.Outcome, out: seq<V.Encoded>)
    requires stage.Valid() && stage.NothingHeld() && BothEyes(x)
    modifies stage.held, stage.mutexes
    ensures stage.Valid() && stage.NothingHeld()
    ensures var got := ready && frame.generation == stage.generation && frame.slot < stage.count
                       && CanAcquire(old(stage.mutexes[frame.slot]), HELPER_KEY) && inTime;
            && (result == K.Ok <==> got && Produces(x, 0) && Produces(x, 1))
            && (result == K.Fatal <==> !ready || (got && (Breaks(x, 0) || Breaks(x, 1))))
            && stage.mutexes[..] == (if got then old(stage.mutexes[..])[frame.slot := Free(SHIM_KEY)]
                                     else old(stage.mutexes[..]))
    ensures out == if result == K.Ok then V.Pair(frame.id) else []
  {
    out := [];
    if !ready { return K.Fatal, out; }
    if frame.generation != stage.generation { return K.Dropped, out; }
    ghost var before := stage.mutexes[..];
    var source := stage.Acquire(frame.slot, inTime);
    if !source { return K.Dropped, out; }
    stage.Release(frame.slot);
    assert stage.mutexes[..] == before[frame.slot := Free(SHIM_KEY)];
    var broken, produced := Collect(frame.id, x);
    if broken { return K.Fatal, out; }
    if |produced| < STREAMS { return K.Dropped, out; }
    assert produced == V.Pair(frame.id);
    return K.Ok, produced;
  }
}
