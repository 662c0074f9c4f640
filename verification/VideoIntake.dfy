/**
  The frame intake as the object both helper threads share
  (helper/src/video_intake.cpp). Its methods are proved to take the steps of Intake on
  the queue of answers and those of KeyFrames on the encoder's bookkeeping.
 */
module VideoIntake {
  import opened Prelude
  import opened VideoRequests
  import I = Intake
  import K = KeyFrames

  class FrameIntake {
    var staging: Option<I.Config>
    var stagingChanged: bool
    var pending: Option<I.Ready>
    var done: seq<I.Done>
    var enc: K.Encoder

    ghost function View(): I.State
      reads this
    {
      I.State(staging, stagingChanged, pending, done)
    }

    constructor ()
      ensures View() == I.INITIAL && enc == K.Encoder(false, 0, 0, 0, 0, 0)
    {
      staging, stagingChanged, pending, done := None, false, None, [];
      enc := K.Encoder(false, 0, 0, 0, 0, 0);
    }

    method PushDone(f: I.Ready, flags: nat)
      modifies `done
      ensures done == I.PushDone(old(done), f, flags)
    {
      if |done| >= I.MAX_DONE { done := done[1..]; }
      done := done + [I.Done(f.id, f.slot, flags)];
    }

    method PopDone() returns (d: Option<I.Done>)
      modifies `done
      ensures old(done) == [] ==> d == None && done == []
      ensures old(done) != [] ==> d == Some(old(done)[0]) && done == old(done)[1..]
    {
      if done == [] { return None; }
      d := Some(done[0]);
      done := done[1..];
    }

    method OnStagingConfig(c: I.Config)
      modifies `staging, `stagingChanged, `pending, `done
      ensures View() == I.OnStagingConfig(old(View()), c)
    {
      if pending.Some? && pending.value.generation != c.generation {
        PushDone(pending.value, I.DROPPED);
        pending := None;
      }
      staging := Some(c);
      stagingChanged := true;
    }

    // `active` is whether the request names a client at this moment.
    method OnFrameReady(f: I.Ready, hasEncoder: bool, active: bool) returns (wake: bool)
      modifies `pending, `done
      ensures View() == I.OnFrameReady(old(View()), f, hasEncoder && active)
      ensures wake <==> pending == Some(f) && I.Refers(old(View()), f) && hasEncoder && active
    {
      wake := false;
      if staging.None? || f.generation != staging.value.generation || f.slot >= staging.value.count {
        PushDone(f, I.DROPPED);
      } else if !hasEncoder || !active {
        PushDone(f, I.DROPPED);
      } else {
        if pending.Some? { PushDone(pending.value, I.DROPPED); }
        pending := Some(f);
        wake := true;
      }
    }

    method OnShimGone()
      modifies `staging, `stagingChanged, `pending, `done
      ensures View() == I.OnShimGone(old(View()))
    {
      staging := None;
      stagingChanged := true;
      pending := None;
      done := [];
    }

    // The encoder thread takes note of a changed ring, and whether the encoder has to be
    // shut down for it; the shutdown itself happens without the lock, so the other thread
    // may bring a ring or a frame meanwhile.
    method NoteChange() returns (shutdown: bool)
      modifies `stagingChanged
      ensures shutdown <==> old(stagingChanged) && enc.ready
      ensures View() == old(View()).(stagingChanged := false)
    {
      shutdown := stagingChanged && enc.ready;
      stagingChanged := false;
    }

    // Back under the lock after the shutdown: the step TearDown of KeyFrames. What arrived
    // in between, a change of ring included, is kept.
    method EndShutdown()
      requires enc.ready
      modifies `enc
      ensures enc == K.TornDown(old(enc))
    {
      enc := enc.(ready := false, bitrate := 0);
      enc := enc.(generation := 0);
    }

    // The frame the thread goes on to encode is the one pending now, not the one that was
    // pending before the shutdown.
    method TakePending() returns (f: Option<I.Ready>)
      modifies `pending
      ensures f == old(pending) && View() == old(View()).(pending := None)
    {
      f := pending;
      pending := None;
    }

    // `configured` is what configuring the encoder would come to; `tried` tells whether
    // it was asked to.
    method EnsureEncoder(generation: nat, q: Request, configured: bool) returns (tried: bool)
      modifies `enc
      ensures enc == K.Ensured(old(enc), q, generation, configured)
      ensures tried <==> !K.UpToDate(old(enc), q, generation)
      ensures tried && !configured ==> forall q': Request, g: nat :: !K.UpToDate(enc, q', g)
    {
      if enc.ready && enc.generation == generation && enc.configGen == q.configGen { return false; }
      tried := true;
      if enc.ready { enc := enc.(ready := false, bitrate := 0); }
      if !configured {
        enc := enc.(configGen := q.configGen, generation := generation, bitrate := 0);
        return;
      }
      enc := enc.(ready := true, bitrate := q.bitrate);
      enc := enc.(generation := generation, configGen := q.configGen);
      enc := enc.(idrSeen := 0, bitrateSeen := q.bitrateGen);
    }

    // The first critical section of an encode: the ring is read, and without one the frame
    // is answered there and then.
    method ReadRing(f: I.Ready) returns (ring: Option<I.Config>)
      modifies `done
      ensures ring == staging
      ensures done == if ring.None? then I.PushDone(old(done), f, I.DROPPED) else old(done)
    {
      if staging.None? { PushDone(f, I.DROPPED); }
      ring := staging;
    }

    // The encode itself, without the lock: the other thread may bring rings and frames
    // meanwhile. `flags` is what the frame is answered with in the critical section that
    // follows, encoded exactly when the encoder put it out; a key frame was forced exactly
    // when one was owed.
    method EncodeFrame(ring: I.Config, q: Request, configured: bool, outcome: K.Outcome)
      returns (forced: Option<bool>, flags: nat)
      modifies `enc
      ensures forced.Some? <==> q.active && K.Ensured(old(enc), q, ring.generation, configured).ready
      ensures flags == if forced.Some? && outcome == K.Ok then I.ENCODED else I.DROPPED
      ensures forced.Some? ==>
                var e := K.Begun(K.Ensured(old(enc), q, ring.generation, configured), q);
                forced.value == (q.idrGen != e.idrSeen) && enc == K.Finished(e, q, forced.value, outcome)
      ensures forced.None? ==>
                enc == if q.active then K.Ensured(old(enc), q, ring.generation, configured) else old(enc)
    {
      forced, flags := None, I.DROPPED;
      if !q.active { return; }
      var tried := EnsureEncoder(ring.generation, q, configured);
      if !enc.ready { return; }
      if q.bitrateGen != enc.bitrateSeen {
        enc := enc.(bitrateSeen := q.bitrateGen);
        if q.bitrate != 0 && q.bitrate != enc.bitrate { enc := enc.(bitrate := q.bitrate); }
      }
      var force := q.idrGen != enc.idrSeen;
      forced := Some(force);
      if outcome == K.Fatal { enc := enc.(ready := false, bitrate := 0); }
      if outcome == K.Ok {
        if force { enc := enc.(idrSeen := q.idrGen); }
        flags := I.ENCODED;
      }
    }
  }
}
