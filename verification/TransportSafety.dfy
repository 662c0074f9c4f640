/**
  Every step of the transport is one of the core's actions, or none; so the core's
  invariant holds in every run, and with it frame fidelity, the exact condition for
  a refused lease, and the bound on unanswered frames.
 */
module TransportSafety {
  import opened Prelude
  import opened KeyedMutexes
  import opened StagingRing
  import opened Intake
  import opened TransportCore
  import opened Transport

  lemma {:induction false} FramesConcat(a: seq<Message>, b: seq<Message>)
    ensures Frames(a + b) == Frames(a) + Frames(b)
    decreases |a|
  {
    if a == [] {
      assert a + b == b;
    } else {
      assert (a + b)[0] == a[0] && (a + b)[1..] == a[1..] + b;
      FramesConcat(a[1..], b);
      Regroup(if a[0].FrameReady? then [a[0].frame] else [], Frames(a[1..]), Frames(b));
    }
  }

  lemma FramesSplit(ms: seq<Message>, n: nat)
    requires n <= |ms|
    ensures Frames(ms) == Frames(ms[..n]) + Frames(ms[n..])
  {
    assert ms == ms[..n] + ms[n..];
    FramesConcat(ms[..n], ms[n..]);
  }

  lemma FramesOfOne(m: Message)
    ensures Frames([m]) == if m.FrameReady? then [m.frame] else []
  {
  }

  // The line is the concatenation of five stretches: being encoded, pending, in the
  // pipe, in the shim's queue, being handed over. Ways to cut it at one of them.
  lemma CutAtPending(e: seq<Ready>, p: seq<Ready>, u: seq<Ready>, q: seq<Ready>, h: seq<Ready>)
    ensures e + p + u + q + h == e + p + (u + q + h)
  {
  }

  lemma CutAtPipe(e: seq<Ready>, p: seq<Ready>, u: seq<Ready>, v: seq<Ready>, q: seq<Ready>, h: seq<Ready>)
    ensures e + p + (u + v) + q + h == (e + p) + u + (v + q + h)
    ensures e + p + v + q + h == (e + p) + (v + q + h)
  {
  }

  lemma CutAtQueue(e: seq<Ready>, p: seq<Ready>, u: seq<Ready>, q: seq<Ready>, r: seq<Ready>, h: seq<Ready>)
    ensures e + p + u + (q + r) + h == (e + p + u) + q + (r + h)
    ensures e + p + u + r + h == (e + p + u) + (r + h)
    ensures e + p + (u + q) + r + h == e + p + u + (q + r) + h
  {
  }

  lemma CutAfterEncoded(e: seq<Ready>, p: seq<Ready>, u: seq<Ready>, q: seq<Ready>, h: seq<Ready>)
    ensures e + p + u + q + h == e + (p + u + q + h)
    ensures [] + p + u + q + h == p + u + q + h
    ensures [] + e == e && [] + (p + u + q + h) == p + u + q + h
  {
  }

  lemma AddAtEnd(l: seq<Ready>, h: seq<Ready>)
    ensures l + h == (l + []) + h
  {
  }

  lemma NothingLost(l: seq<Ready>)
    ensures l == l + [] + [] && l == l + []
  {
  }

  // The frames ahead of the shim's own queue.
  function Ahead(s: Snapshot): seq<Ready> {
    BeingEncoded(s) + OneFrame(s.helper.intake.pending) + Frames(s.up)
  }

  // A step that touches nothing the core sees.
  ghost predicate SameView(s: Snapshot, s': Snapshot) {
    && s'.ring == s.ring && s'.tex == s.tex && s'.lastId == s.lastId && Line(s') == Line(s)
    && s'.helper.intake.done == s.helper.intake.done && s'.down == s.down && Decided(s') == Decided(s)
    && (s'.present == s.present || (!Busy(s.present) && !Busy(s'.present)))
    && (s'.encoder.Holding? <==> s.encoder.Holding?)
    && (s.encoder.Holding? ==> s'.helper.encoding == s.helper.encoding)
  }

  predicate Busy(p: Present) { p.Leased? || p.Blitted? }

  lemma SameViewMeans(s: Snapshot, s': Snapshot)
    requires SameView(s, s')
    ensures Means(s, None, s')
  {
  }

  // --- The present thread --------------------------------------------------

  // The first n messages leave the queue and nothing else on the line moves: their
  // frames are lost.
  lemma QueueLosesMeans(s: Snapshot, s': Snapshot, n: nat) returns (action: Option<Action>)
    requires Paired(s) && n <= |s.queue| && Frames(s'.queue) == Frames(s.queue[n..])
    requires s'.ring == s.ring && s'.tex == s.tex && s'.lastId == s.lastId && s'.up == s.up && s'.down == s.down
    requires s'.helper == s.helper && s'.encoder == s.encoder && BeingHanded(s') == BeingHanded(s)
    requires s'.present == s.present || (!Busy(s.present) && !Busy(s'.present))
    ensures Means(s, action, s')
  {
    var a, b, d := Ahead(s), Frames(s.queue[..n]), Frames(s.queue[n..]) + BeingHanded(s);
    FramesSplit(s.queue, n);
    CutAtQueue(BeingEncoded(s), OneFrame(s.helper.intake.pending), Frames(s.up), b, Frames(s.queue[n..]),
               BeingHanded(s));
    action := Some(Lose(a, b, d, false));
  }

  lemma PushConfigMeans(s: Snapshot) returns (action: Option<Action>)
    requires Paired(s) && s.present.QueueingConfig?
    ensures Means(s, action, ApplyPresent(s, PushConfig))
  {
    var s', n := ApplyPresent(s, PushConfig), if |s.queue| >= MAX_PENDING then 1 else 0;
    FramesConcat(s.queue[n..], [StagingConfig(s.present.c)]);
    FramesOfOne(StagingConfig(s.present.c));
    assert s'.queue == s.queue[n..] + [StagingConfig(s.present.c)];
    NothingLost(Frames(s.queue[n..]));
    action := QueueLosesMeans(s, s', n);
  }

  // The FrameReady could not be queued: the frame is lost and the ring goes stale.
  lemma HandedFrameIsLost(s: Snapshot) returns (action: Option<Action>)
    requires Paired(s) && (s.present.Handing? || s.present.QueueingFrame?)
    ensures Means(s, action, s.(ring := MarkedStale(s.ring), present := Resting))
  {
    var s' := s.(ring := MarkedStale(s.ring), present := Resting);
    var a, b := Ahead(s) + Frames(s.queue), [s.present.f];
    assert Line(s) == a + b + [] && Line(s') == a + [];
    action := Some(Lose(a, b, [], true));
  }

  lemma HandedJoinsQueue(a: seq<Ready>, q: seq<Ready>, f: Ready)
    ensures a + (q + [f]) + [] == a + q + [f]
  {
  }

  // The frame in hand becomes the last one of the queue: the same line, cut elsewhere.
  lemma QueuedFrameMeans(s: Snapshot, s': Snapshot)
    requires s.present.QueueingFrame?
    requires s' == s.(queue := s.queue + [FrameReady(s.present.f)], present := Resting)
    ensures Means(s, None, s')
  {
    FramesConcat(s.queue, [FrameReady(s.present.f)]);
    FramesOfOne(FrameReady(s.present.f));
    HandedJoinsQueue(Ahead(s), Frames(s.queue), s.present.f);
    assert Ahead(s') == Ahead(s);
    assert Line(s') == Line(s);
    SameViewMeans(s, s');
  }

  lemma PushFrameMeans(s: Snapshot) returns (action: Option<Action>)
    requires Paired(s) && s.present.QueueingFrame?
    ensures Means(s, action, ApplyPresent(s, PushFrame))
  {
    if |s.queue| >= MAX_PENDING {
      action := HandedFrameIsLost(s);
    } else {
      QueuedFrameMeans(s, ApplyPresent(s, PushFrame));
      action := None;
    }
  }

  // Everything but the frame being handed over, for a step that leaves it alone.
  lemma ShimStretches(s: Snapshot, s': Snapshot)
    requires s'.helper == s.helper && s'.encoder == s.encoder
    requires s'.up == s.up && s'.queue == s.queue && s'.down == s.down
    ensures Line(s) == Ahead(s) + Frames(s.queue) + BeingHanded(s)
    ensures Line(s') == Ahead(s) + Frames(s.queue) + BeingHanded(s')
    ensures AllAnswers(s') == AllAnswers(s)
  {
  }

  // What a released slot is to the core, field by field.
  lemma ReleaseInCore(c: Core, c': Core, i: nat, leased: bool)
    requires c.lease == Some(i) && c.blitted && (leased <==> i < |c.ring.slots| && c.ring.slots[i].leased)
    requires c'.ring == if leased then ReleasedToHelper(c.ring, i, c.lastId + 1) else c.ring
    requires c'.tex == if leased then WithMutex(c.tex, TexId(c.ring.generation, i), Free(HELPER_KEY)) else c.tex
    requires c'.lastId == c.lastId + 1 && c'.up == c.up + [Ready(c.lastId + 1, c.ring.generation, i)]
    requires c'.lease == None && !c'.blitted && c'.held == c.held && c'.answers == c.answers
    ensures Moves(c, ReleaseSlot, c')
  {
  }

  lemma ReleaseMeans(s: Snapshot)
    requires Paired(s) && s.present.Blitted?
    ensures Means(s, Some(ReleaseSlot), ApplyPresent(s, Release))
  {
    var s', i := ApplyPresent(s, Release), s.present.i;
    ShimStretches(s, s');
    AddAtEnd(Ahead(s) + Frames(s.queue), BeingHanded(s'));
    ReleaseInCore(Abs(s), Abs(s'), i, i < |s.ring.slots| && s.ring.slots[i].leased);
  }

  // What a lease is to the core, field by field.
  lemma LeaseInCore(c: Core, c': Core, slot: Option<nat>)
    requires slot == LeaseFrom(c.ring, c.tex) && slot.Some? && slot.value < |c.ring.slots|
    requires c.lease == None && !c.blitted
    requires c'.ring == LeasedOut(c.ring, slot.value) && c'.lastId == c.lastId && c'.up == c.up
    requires c'.tex == WithMutex(c.tex, TexId(c.ring.generation, slot.value), Held(Shim))
    requires c'.lease == slot && !c'.blitted && c'.held == c.held && c'.answers == c.answers
    ensures Moves(c, LeaseSlot, c')
  {
  }

  lemma LeaseMeans(s: Snapshot) returns (action: Option<Action>)
    requires Paired(s) && s.present.Leasing?
    ensures Means(s, action, ApplyPresent(s, Lease))
  {
    var s', slot := ApplyPresent(s, Lease), LeaseFrom(s.ring, s.tex);
    ShimStretches(s, s');
    if s'.present.Leased? {
      LeaseInCore(Abs(s), Abs(s'), slot);
      action := Some(LeaseSlot);
    } else {
      SameViewMeans(s, s');
      action := None;
    }
  }

  lemma RebuildMeans(s: Snapshot, step: PresentStep) returns (action: Option<Action>)
    requires Paired(s) && PresentEnabled(s, step) && step.RebuildRing?
    ensures Means(s, action, ApplyPresent(s, step))
  {
    assert Line(ApplyPresent(s, step)) == Line(s);
    action := Some(if step.ok then Create(step.requested) else Destroy);
  }

  lemma IdlePresentMeans(s: Snapshot, step: PresentStep)
    requires PresentEnabled(s, step)
    requires step.Enter? || step.Drop? || step.KeepRing? || step.Announce? || (step.Hand? && s.connected)
    ensures Means(s, None, ApplyPresent(s, step))
  {
    SameViewMeans(s, ApplyPresent(s, step));
  }

  lemma BlitMeans(s: Snapshot)
    requires PresentEnabled(s, Blit)
    ensures Means(s, Some(BlitSlot), ApplyPresent(s, Blit))
  {
    assert Line(ApplyPresent(s, Blit)) == Line(s);
  }

  lemma PresentMeans(s: Snapshot, step: PresentStep) returns (action: Option<Action>)
    requires Paired(s) && PresentEnabled(s, step)
    ensures Means(s, action, ApplyPresent(s, step))
  {
    match step
    case PushConfig => action := PushConfigMeans(s);
    case PushFrame => action := PushFrameMeans(s);
    case Hand => if s.connected { IdlePresentMeans(s, step); action := None; } else { action := HandedFrameIsLost(s); }
    case Release => ReleaseMeans(s); action := Some(ReleaseSlot);
    case RebuildRing(_, _) => action := RebuildMeans(s, step);
    case Lease => action := LeaseMeans(s);
    case Blit => BlitMeans(s); action := Some(BlitSlot);
    case _ => IdlePresentMeans(s, step); action := None;
  }

  // --- The IPC thread --------------------------------------------------------

  lemma QueueMoveMeans(s: Snapshot, step: IpcStep) returns (action: Option<Action>)
    requires Paired(s) && IpcEnabled(s, step) && (step.FlushFails? || step.DropPending?)
    ensures Means(s, action, ApplyIpc(s, step))
  {
    var s', n := ApplyIpc(s, step), if step.FlushFails? then 1 else |s.queue|;
    assert s'.queue == s.queue[n..];
    action := QueueLosesMeans(s, s', n);
  }

  // The oldest message moves from the queue into the pipe: the same line, cut elsewhere.
  lemma FlushedLine(s: Snapshot, s': Snapshot)
    requires s.queue != [] && s' == s.(up := s.up + [s.queue[0]], queue := s.queue[1..])
    ensures Line(s') == Line(s)
  {
    FramesSplit(s.queue, 1);
    assert s.queue[..1] == [s.queue[0]];
    FramesConcat(s.up, [s.queue[0]]);
    CutAtQueue(BeingEncoded(s), OneFrame(s.helper.intake.pending), Frames(s.up),
               Frames(s.queue[..1]), Frames(s.queue[1..]), BeingHanded(s));
  }

  lemma FlushMeans(s: Snapshot)
    requires Paired(s) && IpcEnabled(s, Flush)
    ensures Means(s, None, ApplyIpc(s, Flush))
  {
    FlushedLine(s, ApplyIpc(s, Flush));
    SameViewMeans(s, ApplyIpc(s, Flush));
  }

  lemma OpenMeans(s: Snapshot) returns (action: Option<Action>)
    requires Paired(s) && IpcEnabled(s, Open)
    ensures Means(s, action, ApplyIpc(s, Open))
  {
    var s' := ApplyIpc(s, Open);
    var a, b := BeingEncoded(s) + OneFrame(s.helper.intake.pending), Frames(s.up);
    var d := [] + Frames(s.queue) + BeingHanded(s);
    CutAtPipe(BeingEncoded(s), OneFrame(s.helper.intake.pending), b, [], Frames(s.queue), BeingHanded(s));
    assert b + [] == b;
    action := Some(Lose(a, b, d, false));
  }

  lemma ReceiveMeans(s: Snapshot) returns (action: Option<Action>)
    requires Paired(s) && IpcEnabled(s, ReceiveDone)
    ensures Means(s, action, ApplyIpc(s, ReceiveDone))
  {
    var s', d := ApplyIpc(s, ReceiveDone), s.down[0];
    assert d.id in AnswerIds(s.down);
    NothingLost(Line(s));
    assert Line(s') == Line(s);
    action := Some(if s.connected then Deliver(d.id, d.slot) else Lose(Line(s), [], [], false));
  }

  lemma QueueOtherMeans(s: Snapshot)
    requires IpcEnabled(s, QueueOther)
    ensures Means(s, None, ApplyIpc(s, QueueOther))
  {
    FramesConcat(s.queue, [Other]);
    FramesOfOne(Other);
    NothingLost(Frames(s.queue));
    SameViewMeans(s, ApplyIpc(s, QueueOther));
  }

  lemma DisconnectMeans(s: Snapshot)
    requires IpcEnabled(s, ReportDisconnect)
    ensures Means(s, Some(Lose(Line(s), [], [], true)), ApplyIpc(s, ReportDisconnect))
  {
    NothingLost(Line(s));
    assert Line(ApplyIpc(s, ReportDisconnect)) == Line(s);
  }

  lemma IdleIpcMeans(s: Snapshot, step: IpcStep)
    requires IpcEnabled(s, step) && (step.Connect? || step.SessionReady? || step.EndSession? || step.ClearConnected?)
    ensures Means(s, None, ApplyIpc(s, step))
  {
    SameViewMeans(s, ApplyIpc(s, step));
  }

  lemma IpcMeans(s: Snapshot, step: IpcStep) returns (action: Option<Action>)
    requires Paired(s) && IpcEnabled(s, step)
    ensures Means(s, action, ApplyIpc(s, step))
  {
    match step
    case Open => action := OpenMeans(s);
    case ReceiveDone => action := ReceiveMeans(s);
    case Flush => FlushMeans(s); action := None;
    case FlushFails => action := QueueMoveMeans(s, step);
    case DropPending => action := QueueMoveMeans(s, step);
    case QueueOther => QueueOtherMeans(s); action := None;
    case ReportDisconnect => DisconnectMeans(s); action := Some(Lose(Line(s), [], [], true));
    case _ => IdleIpcMeans(s, step); action := None;
  }

  // --- The pipe thread ---------------------------------------------------------

  // An answer is sent, or lost with the pipe: no id appears that was not there.
  lemma SendMeans(s: Snapshot, step: PipeStep) returns (action: Option<Action>)
    requires Paired(s) && PipeEnabled(s, step) && (step.Send? || step.SendBreaks?)
    ensures Means(s, action, ApplyPipe(s, step))
  {
    var s', done := ApplyPipe(s, step), s.helper.intake.done;
    assert forall d :: d in done[1..] ==> d in done;
    assert AnswerIds(s'.helper.intake.done) <= AnswerIds(done);
    assert AnswerIds(s'.down) <= AnswerIds(s.down) + AnswerIds(done) by { assert done[0] in done; }
    NothingLost(Line(s));
    assert Line(s') == Line(s);
    action := Some(Lose(Line(s), [], [], false));
  }

  lemma CleanMeans(s: Snapshot) returns (action: Option<Action>)
    requires Paired(s) && PipeEnabled(s, Cleans)
    ensures Means(s, action, ApplyPipe(s, Cleans))
  {
    var s' := ApplyPipe(s, Cleans);
    var a, b, d := BeingEncoded(s), OneFrame(s.helper.intake.pending), Frames(s.up) + Frames(s.queue) + BeingHanded(s);
    CutAtPending(a, b, Frames(s.up), Frames(s.queue), BeingHanded(s));
    CutAtPending(a, [], Frames(s.up), Frames(s.queue), BeingHanded(s));
    assert a + [] == a;
    assert AnswerIds(s'.helper.intake.done) == {};
    action := Some(Lose(a, b, d, false));
  }

  lemma PushedId(done: seq<Done>, f: Ready, flags: nat)
    ensures AnswerIds(PushDone(done, f, flags)) <= AnswerIds(done) + {f.id}
  {
    forall d | d in PushDone(done, f, flags) ensures d.id in AnswerIds(done) + {f.id} {
      if d in done { assert d.id in AnswerIds(done); }
    }
  }

  lemma DisplacedFrame(e: seq<Ready>, p: Ready, f: Ready, rest: seq<Ready>)
    ensures (e + [p]) + [f] + rest == e + [p] + ([f] + rest)
    ensures e + ([f] + rest) == e + [f] + rest && e + [] == e
  {
  }

  // A frame off the line, its answer on.
  lemma AnswerMeans(s: Snapshot, s': Snapshot, a: seq<Ready>, f: Ready, d: seq<Ready>)
    requires Line(s) == a + [f] + d && Line(s') == a + d && (s.encoder.Holding? && s.helper.encoding.Some? ==> a != [])
    requires s'.ring == s.ring && s'.tex == s.tex && s'.lastId == s.lastId && s'.present == s.present
             && s'.down == s.down
    requires s'.encoder == s.encoder && s'.helper.encoding == s.helper.encoding
    requires AnswerIds(s'.helper.intake.done) <= AnswerIds(s.helper.intake.done) + {f.id}
    ensures Means(s, Some(Answer(a, f, d)), s')
  {
  }

  // The frame read is answered at once.
  lemma RefusedFrameMeans(s: Snapshot, wanted: bool) returns (action: Option<Action>)
    requires Paired(s) && PipeEnabled(s, Read(wanted)) && s.up[0].FrameReady?
    requires !Refers(s.helper.intake, s.up[0].frame) || !wanted
    ensures Means(s, action, ApplyPipe(s, Read(wanted)))
  {
    var f, st := s.up[0].frame, s.helper.intake;
    var enc, rest := BeingEncoded(s), Frames(s.up[1..]) + Frames(s.queue) + BeingHanded(s);
    CutAtPipe(enc, OneFrame(st.pending), [f], Frames(s.up[1..]), Frames(s.queue), BeingHanded(s));
    PushedId(st.done, f, DROPPED);
    assert Frames(s.up) == [f] + Frames(s.up[1..]);
    AnswerMeans(s, ApplyPipe(s, Read(wanted)), enc + OneFrame(st.pending), f, rest);
    action := Some(Answer(enc + OneFrame(st.pending), f, rest));
  }

  // The frame read becomes the pending one; the frame it displaces, if any, is answered.
  lemma PendingFrameMeans(s: Snapshot, wanted: bool) returns (action: Option<Action>)
    requires Paired(s) && PipeEnabled(s, Read(wanted)) && s.up[0].FrameReady?
    requires Refers(s.helper.intake, s.up[0].frame) && wanted
    ensures Means(s, action, ApplyPipe(s, Read(wanted)))
  {
    var f, st := s.up[0].frame, s.helper.intake;
    var enc, rest := BeingEncoded(s), Frames(s.up[1..]) + Frames(s.queue) + BeingHanded(s);
    CutAtPipe(enc, OneFrame(st.pending), [f], Frames(s.up[1..]), Frames(s.queue), BeingHanded(s));
    CutAtPending(enc, [f], Frames(s.up[1..]), Frames(s.queue), BeingHanded(s));
    if st.pending.Some? {
      PushedId(st.done, st.pending.value, DROPPED);
      DisplacedFrame(enc, st.pending.value, f, rest);
      assert Frames(s.up) == [f] + Frames(s.up[1..]);
      AnswerMeans(s, ApplyPipe(s, Read(wanted)), enc, st.pending.value, [f] + rest);
      action := Some(Answer(enc, st.pending.value, [f] + rest));
    } else {
      DisplacedFrame(enc, f, f, rest);
      assert Frames(s.up) == [f] + Frames(s.up[1..]);
      SameViewMeans(s, ApplyPipe(s, Read(wanted)));
      action := None;
    }
  }

  lemma PendingLeaves(e: seq<Ready>, p: Ready, u: seq<Ready>, q: seq<Ready>, h: seq<Ready>)
    ensures e + [p] + u + q + h == e + [p] + (u + q + h)
    ensures e + [] + u + q + h == e + (u + q + h)
  {
  }

  // The pending frame is answered and nothing else on the line moves.
  lemma PendingAnsweredMeans(s: Snapshot, s': Snapshot, p: Ready) returns (action: Option<Action>)
    requires s.helper.intake.pending == Some(p) && s'.helper.intake.pending == None
    requires s'.helper.intake.done == PushDone(s.helper.intake.done, p, DROPPED)
    requires s'.helper.encoding == s.helper.encoding && s'.encoder == s.encoder && s'.down == s.down
    requires s'.ring == s.ring && s'.tex == s.tex && s'.lastId == s.lastId && s'.present == s.present
    requires Frames(s'.up) == Frames(s.up) && s'.queue == s.queue
    ensures Means(s, action, s')
  {
    var enc, d := BeingEncoded(s), Frames(s.up) + Frames(s.queue) + BeingHanded(s);
    PendingLeaves(enc, p, Frames(s.up), Frames(s.queue), BeingHanded(s));
    PushedId(s.helper.intake.done, p, DROPPED);
    AnswerMeans(s, s', enc, p, d);
    action := Some(Answer(enc, p, d));
  }

  // A newer ring displaces the pending frame of an older one.
  lemma DisplacingConfigMeans(s: Snapshot, wanted: bool) returns (action: Option<Action>)
    requires Paired(s) && PipeEnabled(s, Read(wanted)) && s.up[0].StagingConfig?
    requires s.helper.intake.pending.Some? && s.helper.intake.pending.value.generation != s.up[0].config.generation
    ensures Means(s, action, ApplyPipe(s, Read(wanted)))
  {
    assert Frames(s.up) == Frames(s.up[1..]);
    action := PendingAnsweredMeans(s, ApplyPipe(s, Read(wanted)), s.helper.intake.pending.value);
  }

  // Anything else read changes nothing on the line.
  lemma QuietReadMeans(s: Snapshot, wanted: bool)
    requires Paired(s) && PipeEnabled(s, Read(wanted)) && !s.up[0].FrameReady?
    requires s.up[0].StagingConfig? && s.helper.intake.pending.Some? ==>
               s.helper.intake.pending.value.generation == s.up[0].config.generation
    ensures Means(s, None, ApplyPipe(s, Read(wanted)))
  {
    var s' := ApplyPipe(s, Read(wanted));
    assert Frames(s.up) == [] + Frames(s.up[1..]) == Frames(s.up[1..]);
    assert s'.helper.intake.pending == s.helper.intake.pending && s'.helper.encoding == s.helper.encoding;
    assert BeingEncoded(s') == BeingEncoded(s) && Frames(s'.up) == Frames(s.up);
    SameViewMeans(s, s');
  }

  lemma ReadMeans(s: Snapshot, wanted: bool) returns (action: Option<Action>)
    requires Paired(s) && PipeEnabled(s, Read(wanted))
    ensures Means(s, action, ApplyPipe(s, Read(wanted)))
  {
    var m, st := s.up[0], s.helper.intake;
    if m.FrameReady? && Refers(st, m.frame) && wanted {
      action := PendingFrameMeans(s, wanted);
    } else if m.FrameReady? {
      action := RefusedFrameMeans(s, wanted);
    } else if m.StagingConfig? && st.pending.Some? && st.pending.value.generation != m.config.generation {
      action := DisplacingConfigMeans(s, wanted);
    } else {
      QuietReadMeans(s, wanted);
      action := None;
    }
  }

  lemma PipeMeans(s: Snapshot, step: PipeStep) returns (action: Option<Action>)
    requires Paired(s) && PipeEnabled(s, step)
    ensures Means(s, action, ApplyPipe(s, step))
  {
    match step
    case Send => action := SendMeans(s, step);
    case SendBreaks => action := SendMeans(s, step);
    case Read(wanted) => action := ReadMeans(s, wanted);
    case Cleans => action := CleanMeans(s);
    case _ => SameViewMeans(s, ApplyPipe(s, step)); action := None;
  }

  // --- The encoder thread --------------------------------------------------------

  // The encoder settles on an answer without having touched the texture.
  lemma EncoderDropMeans(s: Snapshot, s': Snapshot) returns (action: Option<Action>)
    requires Paired(s) && (s.encoder.Taken? || s.encoder.Configured?)
    requires s' == s.(encoder := Answering(DROPPED), stage := s'.stage)
    ensures Means(s, action, s')
  {
    var f, p := s.helper.encoding.value, OneFrame(s.helper.intake.pending);
    CutAfterEncoded(BeingEncoded(s), p, Frames(s.up), Frames(s.queue), BeingHanded(s));
    action := Some(Answer([], f, p + Frames(s.up) + Frames(s.queue) + BeingHanded(s)));
  }

  lemma AcquireMeans(s: Snapshot) returns (action: Option<Action>)
    requires Paired(s) && EncoderEnabled(s, Acquires)
    ensures Means(s, action, ApplyEncoder(s, Acquires))
  {
    var s', f := ApplyEncoder(s, Acquires), s.helper.encoding.value;
    if CanEncode(s, f) {
      assert BeingEncoded(s) == [f] && Line(s)[0] == f;
      assert Line(s') == Line(s);
      action := Some(Acquire(f));
    } else {
      action := EncoderDropMeans(s, s');
    }
  }

  lemma HandBackMeans(s: Snapshot, outcome: Outcome) returns (action: Option<Action>)
    requires Paired(s) && EncoderEnabled(s, HandsBack(outcome))
    ensures Means(s, action, ApplyEncoder(s, HandsBack(outcome)))
  {
    var f, p := s.helper.encoding.value, OneFrame(s.helper.intake.pending);
    CutAfterEncoded(BeingEncoded(s), p, Frames(s.up), Frames(s.queue), BeingHanded(s));
    var d := p + Frames(s.up) + Frames(s.queue) + BeingHanded(s);
    var s' := ApplyEncoder(s, HandsBack(outcome));
    assert BeingEncoded(s) == [f] && Line(s) == [f] + d && Line(s') == d;
    assert AllAnswers(s') <= AllAnswers(s) + {f.id};
    assert Abs(s') == Abs(s).(held := None, tex := s'.tex, up := d, answers := AllAnswers(s'));
    action := Some(HandBack(f, d));
  }

  lemma PushAnswerMeans(s: Snapshot) returns (action: Option<Action>)
    requires Paired(s) && EncoderEnabled(s, PushesAnswer)
    ensures Means(s, action, ApplyEncoder(s, PushesAnswer))
  {
    var s', f := ApplyEncoder(s, PushesAnswer), s.helper.encoding.value;
    PushedId(s.helper.intake.done, f, s.encoder.flags);
    NothingLost(Line(s));
    assert Line(s') == Line(s);
    assert AllAnswers(s') <= AllAnswers(s);
    action := Some(Lose(Line(s), [], [], false));
  }

  // A pending frame moves on to the encoder: the same line, cut elsewhere.
  lemma TakeMeans(s: Snapshot)
    requires Paired(s) && EncoderEnabled(s, Takes)
    ensures Means(s, None, ApplyEncoder(s, Takes))
  {
    var p := OneFrame(s.helper.intake.pending);
    assert [] + p == p + [];
    SameViewMeans(s, ApplyEncoder(s, Takes));
  }

  lemma IdleEncoderMeans(s: Snapshot, step: EncoderStep)
    requires Paired(s) && EncoderEnabled(s, step)
    requires step.Wakes? || step.Rebuilds? || (step.ReadsStaging? && s.helper.intake.staging.Some?)
    ensures Means(s, None, ApplyEncoder(s, step))
  {
    SameViewMeans(s, ApplyEncoder(s, step));
  }

  lemma EncoderMeans(s: Snapshot, step: EncoderStep) returns (action: Option<Action>)
    requires Paired(s) && EncoderEnabled(s, step)
    ensures Means(s, action, ApplyEncoder(s, step))
  {
    var s' := ApplyEncoder(s, step);
    match step
    case ReadsStaging =>
      if s'.encoder.Answering? {
        action := EncoderDropMeans(s, s');
      } else {
        IdleEncoderMeans(s, step);
        action := None;
      }
    case Takes => TakeMeans(s); action := None;
    case Refuses(_) => action := EncoderDropMeans(s, s');
    case Acquires => action := AcquireMeans(s);
    case GivesUp => action := EncoderDropMeans(s, s');
    case HandsBack(outcome) => action := HandBackMeans(s, outcome);
    case PushesAnswer => action := PushAnswerMeans(s);
    case _ => IdleEncoderMeans(s, step); action := None;
  }

  lemma DyingMeans(s: Snapshot) returns (action: Option<Action>)
    requires Paired(s)
    ensures Means(s, action, Replaced(s))
  {
    var s', pending := Replaced(s), OneFrame(s.helper.intake.pending);
    var d := Frames(s.up) + Frames(s.queue) + BeingHanded(s);
    CutAtPending(BeingEncoded(s), pending, Frames(s.up), Frames(s.queue), BeingHanded(s));
    CutAtPending([], [], Frames(s.up), Frames(s.queue), BeingHanded(s));
    assert Line(s') == d && AnswerIds(s'.helper.intake.done) == {};
    if s.encoder.Holding? {
      action := Some(Die(s.helper.encoding.value, pending, d));
    } else {
      var b := BeingEncoded(s) + pending;
      assert [] + b == b && d == [] + d;
      action := Some(Lose([], b, d, false));
    }
  }

  // --- Every run -------------------------------------------------------------------

  lemma StepMeans(s: Snapshot, step: Transport.Step) returns (action: Option<Action>)
    requires Paired(s) && Transport.Enabled(s, step)
    ensures Means(s, action, Transport.Apply(s, step))
  {
    match step
    case OfPresent(p) => action := PresentMeans(s, p);
    case OfIpc(i) => action := IpcMeans(s, i);
    case OfPipe(q) => action := PipeMeans(s, q);
    case OfEncoder(e) => action := EncoderMeans(s, e);
    case HelperDies => action := DyingMeans(s);
  }

  // The helper's own threads keep the books of the intake.
  lemma PipeKeepsBooks(s: Snapshot, q: PipeStep)
    requires Paired(s) && Intake.Inv(s.helper) && PipeEnabled(s, q)
    ensures Paired(ApplyPipe(s, q))
    ensures Intake.Inv(ApplyPipe(s, q).helper)
  {
    StepKeepsInv(s.helper, IntakeStep(s, q));
  }

  lemma EncoderKeepsBooks(s: Snapshot, e: EncoderStep)
    requires Paired(s) && Intake.Inv(s.helper) && EncoderEnabled(s, e)
    ensures Paired(ApplyEncoder(s, e))
    ensures Intake.Inv(ApplyEncoder(s, e).helper)
  {
    match e
    case Wakes => StepKeepsInv(s.helper, EncoderWakes);
    case Takes => StepKeepsInv(s.helper, EncoderTakes);
    case PushesAnswer => StepKeepsInv(s.helper, EncoderAnswers(s.encoder.flags));
    case _ =>
  }

  lemma ShimKeepsBooks(s: Snapshot, i: IpcStep)
    requires Paired(s) && Intake.Inv(s.helper) && IpcEnabled(s, i)
    ensures Paired(ApplyIpc(s, i))
    ensures Intake.Inv(ApplyIpc(s, i).helper)
  {
    if i.Open? { StepKeepsInv(s.helper, Accept); }
  }

  lemma BooksAreKept(s: Snapshot, step: Transport.Step)
    requires Paired(s) && Intake.Inv(s.helper) && Transport.Enabled(s, step)
    ensures Paired(Transport.Apply(s, step))
    ensures Intake.Inv(Transport.Apply(s, step).helper)
  {
    match step
    case OfPresent(_) =>
    case OfIpc(i) => ShimKeepsBooks(s, i);
    case OfPipe(q) => PipeKeepsBooks(s, q);
    case OfEncoder(e) => EncoderKeepsBooks(s, e);
    case HelperDies =>
  }

  lemma {:induction false} EveryRunKeepsInv(ss: seq<Snapshot>, steps: seq<Transport.Step>, k: nat)
    requires Transport.IsRun(ss, steps) && k < |ss|
    ensures forall i :: 0 <= i <= k ==> Transport.Inv(ss[i])
    decreases k
  {
    if k == 0 {
      assert Line(INIT) == [];
      assert Abs(INIT) == NOTHING;
    } else {
      EveryRunKeepsInv(ss, steps, k - 1);
      var action := StepMeans(ss[k - 1], steps[k - 1]);
      if action.Some? { ActionKeepsInv(Abs(ss[k - 1]), action.value, Abs(ss[k])); }
      BooksAreKept(ss[k - 1], steps[k - 1]);
    }
  }

  // Whenever the helper is inside an encode, the texture it holds carries exactly the
  // pixels blitted for the frame it is encoding, and the shim is not writing to it.
  lemma FrameFidelity(ss: seq<Snapshot>, steps: seq<Transport.Step>, k: nat)
    requires Transport.IsRun(ss, steps) && k < |ss| && ss[k].encoder.Holding?
    ensures ss[k].helper.encoding.Some?
    ensures var f := ss[k].helper.encoding.value;
            && TexOf(f) in ss[k].tex
            && ss[k].tex[TexOf(f)] == Texture(Held(Helper), f.id)
  {
    EveryRunKeepsInv(ss, steps, k);
    assert Line(ss[k])[0] in Line(ss[k]);
  }

  // No unanswered frame is ever overwritten, wherever it is on its way: queued in the
  // shim, in the pipe, pending in the helper or being encoded. Until it is encoded its
  // slot is free under the helper's key, so the helper's acquire never has to wait.
  lemma UnansweredFramesKeepTheirPixels(ss: seq<Snapshot>, steps: seq<Transport.Step>, k: nat, f: Ready)
    requires Transport.IsRun(ss, steps) && k < |ss| && f in Line(ss[k])
    ensures TexOf(f) in ss[k].tex
    ensures ss[k].tex[TexOf(f)].pixels == f.id
    ensures f.id !in AllAnswers(ss[k])
    ensures !(ss[k].encoder.Holding? && ss[k].helper.encoding == Some(f)) ==>
              ss[k].tex[TexOf(f)].mutex == Free(HELPER_KEY)
  {
    EveryRunKeepsInv(ss, steps, k);
  }

  // A lease on a usable ring is refused exactly when every slot is booked: no slot is
  // lost to a frame that was answered without ever having been acquired.
  lemma LeaseRefusedOnlyWhenAllBooked(ss: seq<Snapshot>, steps: seq<Transport.Step>, k: nat)
    requires Transport.IsRun(ss, steps) && k < |ss| && !Busy(ss[k].present)
    requires ss[k].ring.slots != [] && !ss[k].ring.stale
    ensures LeaseFrom(ss[k].ring, ss[k].tex) == None <==>
            forall i: nat :: i < |ss[k].ring.slots| ==> ss[k].ring.slots[i].helperOwned
  {
    EveryRunKeepsInv(ss, steps, k);
    LeaseExactlyWhenUnbooked(Abs(ss[k]));
  }

  // A slot the shim regards as free is never in the helper's hands.
  lemma FreeSlotsAreFree(ss: seq<Snapshot>, steps: seq<Transport.Step>, k: nat, i: nat)
    requires Transport.IsRun(ss, steps) && k < |ss| && i < |ss[k].ring.slots|
    requires !ss[k].ring.slots[i].helperOwned && !ss[k].ring.slots[i].leased
    ensures var m := MutexAt(ss[k].tex, TexId(ss[k].ring.generation, i)); m == Free(SHIM_KEY) || m == Free(HELPER_KEY)
  {
    EveryRunKeepsInv(ss, steps, k);
    assert SlotOk(Abs(ss[k]), i);
  }

  // Under the real pipe and encoder interleavings the helper never owes more than
  // three answers, so its eight-entry queue never evicts one.
  lemma AnswersStayBounded(ss: seq<Snapshot>, steps: seq<Transport.Step>, k: nat)
    requires Transport.IsRun(ss, steps) && k < |ss|
    ensures Outstanding(ss[k].helper) <= 3 < MAX_DONE
  {
    EveryRunKeepsInv(ss, steps, k);
  }
}
