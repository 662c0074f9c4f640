/**
  The cross-process frame transport, protocol version 3, as a step system with
  four threads: the compositor's present thread and the IPC thread in the shim
  (shim/src/direct_mode.cpp, shim/src/ipc_client.cpp), the pipe thread and the
  encoder thread in the helper (helper/src/pipe_server.cpp,
  helper/src/video_intake.cpp). A step is what one thread does between two points
  where another may get in, down to the gap between the connected() check and the
  push in queue_message. Sessions end and start again, rings are rebuilt, frames and
  answers are lost, the helper may die at any point.
 */
module Transport {
  import opened Prelude
  import opened KeyedMutexes
  import opened StagingRing
  import opened Intake
  import opened TransportCore

  // Shim to helper. Other is anything that is not video: keep-alives, haptics.
  datatype Message = StagingConfig(config: Config) | FrameReady(frame: Ready) | Other

  const MAX_PENDING: nat := 64

  // How far Present has got.
  datatype Present =
    | Resting
    | Entered                    // the helper is connected
    | Announcing                 // a ring to be announced with a StagingConfig
    | QueueingConfig(c: Config)  // queue_staging_config, past its connected() check
    | Leasing
    | Leased(i: nat)
    | Blitted(i: nat)
    | Handing(f: Ready)          // slot released, FrameReady not queued yet
    | QueueingFrame(f: Ready)    // queue_frame_ready, past its connected() check

  // Where the IPC thread is: between sessions, in one, between setting connected and
  // the session-ready callback, and in the three stages of ending a session.
  datatype Ipc = NoSession | InSession | Connecting | PipeClosed | Disconnecting | Reporting

  datatype Encoder = Waiting | Taken | Configured(config: Config) | Holding | Answering(flags: nat)

  // The ring the helper has opened on its own device.
  datatype Stage = Stage(generation: nat, count: nat)

  datatype Snapshot = Snapshot(
    ring: Ring, tex: map<TexId, Texture>, lastId: nat,
    present: Present, queue: seq<Message>, connected: bool, resend: bool, ipc: Ipc,
    up: seq<Message>, down: seq<Done>,
    helper: World, encoder: Encoder, stage: Option<Stage>)

  const INIT := Snapshot(Ring([], 0, false, 0), map[], 0, Resting, [], false, false, NoSession, [], [], START,
                         Waiting, None)

  // --- The present thread ------------------------------------------------

  datatype PresentStep =
    | Enter
    | Drop
    | KeepRing
    | RebuildRing(requested: nat, ok: bool)
    | Announce
    | PushConfig
    | Lease
    | Blit
    | Release
    | Hand
    | PushFrame

  predicate PresentEnabled(s: Snapshot, step: PresentStep) {
    match step
    case Enter => s.present.Resting? && s.connected
    case Drop => s.present.Entered?
    case KeepRing => s.present.Entered? && s.ring.slots != [] && !s.ring.stale
    case RebuildRing(_, _) => s.present.Entered?
    case Announce => s.present.Announcing?
    case PushConfig => s.present.QueueingConfig?
    case Lease => s.present.Leasing?
    case Blit => s.present.Leased?
    case Release => s.present.Blitted?
    case Hand => s.present.Handing?
    case PushFrame => s.present.QueueingFrame?
  }

  function Describe(r: Ring): Config { Config(r.generation, |r.slots|) }

  // A StagingConfig is never refused: a full queue loses its oldest message instead.
  function QueuedConfig(queue: seq<Message>, c: Config): seq<Message> {
    (if |queue| >= MAX_PENDING then queue[1..] else queue) + [StagingConfig(c)]
  }

  function ApplyPresent(s: Snapshot, step: PresentStep): Snapshot
    requires PresentEnabled(s, step)
  {
    match step
    case Enter => s.(present := Entered)
    case Drop => s.(present := Resting)
    case KeepRing => s.(resend := false, present := if s.resend then Announcing else Leasing)
    case RebuildRing(requested, ok) =>
      if ok then
        var ring := Created(s.ring, requested);
        s.(ring := ring, tex := s.tex + NewTextures(ring.generation, |ring.slots|), resend := false,
           present := Announcing)
      else s.(ring := Destroyed(s.ring), present := Resting)
    case Announce => s.(present := if s.connected then QueueingConfig(Describe(s.ring)) else Leasing)
    case PushConfig => s.(queue := QueuedConfig(s.queue, s.present.c), present := Leasing)
    case Lease =>
      var slot := LeaseFrom(s.ring, s.tex);
      if slot.Some? && slot.value < |s.ring.slots| then
        s.(ring := LeasedOut(s.ring, slot.value), present := Leased(slot.value),
           tex := WithMutex(s.tex, TexId(s.ring.generation, slot.value), Held(Shim)))
      else s.(present := Resting)
    case Blit =>
      s.(tex := WithPixels(s.tex, TexId(s.ring.generation, s.present.i), s.lastId + 1), present := Blitted(s.present.i))
    case Release =>
      var i := s.present.i;
      var s' := s.(lastId := s.lastId + 1, present := Handing(Ready(s.lastId + 1, s.ring.generation, i)));
      if i < |s.ring.slots| && s.ring.slots[i].leased then
        s'.(ring := ReleasedToHelper(s.ring, i, s.lastId + 1),
            tex := WithMutex(s.tex, TexId(s.ring.generation, i), Free(HELPER_KEY)))
      else s'
    case Hand =>
      if s.connected then s.(present := QueueingFrame(s.present.f))
      else s.(ring := MarkedStale(s.ring), present := Resting)
    case PushFrame =>
      if |s.queue| >= MAX_PENDING then s.(ring := MarkedStale(s.ring), present := Resting)
      else s.(queue := s.queue + [FrameReady(s.present.f)], present := Resting)
  }

  // --- The IPC thread, and whoever else queues a message --------------------

  datatype IpcStep =
    | Open
    | Connect
    | SessionReady
    | Flush
    | FlushFails
    | ReceiveDone
    | EndSession
    | ClearConnected
    | DropPending
    | ReportDisconnect
    | QueueOther

  predicate IpcEnabled(s: Snapshot, step: IpcStep) {
    match step
    case Open => s.ipc.NoSession? && s.helper.phase.Idle?
    case Connect => s.ipc.InSession? && !s.connected
    case SessionReady => s.ipc.Connecting?
    case Flush => s.ipc.InSession? && s.queue != []
    case FlushFails => s.ipc.InSession? && s.queue != []
    case ReceiveDone => s.ipc.InSession? && s.down != []
    case EndSession => s.ipc.InSession?
    case ClearConnected => s.ipc.PipeClosed?
    case DropPending => s.ipc.Disconnecting?
    case ReportDisconnect => s.ipc.Reporting?
    case QueueOther => |s.queue| < MAX_PENDING
  }

  function ApplyIpc(s: Snapshot, step: IpcStep): Snapshot
    requires IpcEnabled(s, step)
  {
    match step
    case Open => s.(ipc := InSession, up := [], down := [], helper := Intake.Apply(s.helper, Accept))
    case Connect => s.(connected := true, ipc := Connecting)
    case SessionReady => s.(resend := true, ipc := InSession)
    case Flush => s.(up := s.up + [s.queue[0]], queue := s.queue[1..])
    case FlushFails => s.(queue := s.queue[1..], ipc := PipeClosed)
    case ReceiveDone =>
      var d := s.down[0];
      s.(down := s.down[1..], ring := if s.connected then AfterFrameDone(s.ring, d.id, d.slot) else s.ring)
    case EndSession => s.(ipc := PipeClosed)
    case ClearConnected => s.(connected := false, ipc := Disconnecting)
    case DropPending => s.(queue := [], ipc := Reporting)
    case ReportDisconnect => s.(resend := false, ring := MarkedStale(s.ring), ipc := NoSession)
    case QueueOther => s.(queue := s.queue + [Other])
  }

  // --- The helper's pipe thread -------------------------------------------

  datatype PipeStep = Send | SendBreaks | FoundEmpty | Timeout | Read(wanted: bool) | Leaves | Cleans

  // What handling one message does to the intake. A message for a client the helper
  // has not lost yet is read even if the shim has already closed its end.
  function ReadStep(m: Message, wanted: bool): Intake.Step {
    match m
    case StagingConfig(c) => ReadConfig(c)
    case FrameReady(f) => ReadReady(f, wanted)
    case Other => ReadOther
  }

  function IntakeStep(s: Snapshot, step: PipeStep): Intake.Step {
    match step
    case Send => SendDone
    case SendBreaks => SendFails
    case FoundEmpty => Drained
    case Timeout => PollTimeout
    case Read(wanted) => if s.up == [] then ReadOther else ReadStep(s.up[0], wanted)
    case Leaves => Leave
    case Cleans => ShimGone
  }

  predicate PipeEnabled(s: Snapshot, step: PipeStep) {
    Intake.Enabled(s.helper, IntakeStep(s, step)) && (step.Read? ==> s.up != [])
  }

  function ApplyPipe(s: Snapshot, step: PipeStep): Snapshot
    requires PipeEnabled(s, step)
  {
    var s' := s.(helper := Intake.Apply(s.helper, IntakeStep(s, step)));
    match step
    case Send => s'.(down := s.down + [s.helper.intake.done[0]])
    case Read(_) => s'.(up := s.up[1..])
    case _ => s'
  }

  // --- The helper's encoder thread -----------------------------------------

  datatype Outcome = EncodedOk | EncodeDropped | EncodeFatal

  datatype EncoderStep =
    | Wakes
    | Takes
    | ReadsStaging
    | Refuses(closed: bool)    // no client, or the encoder was shut down and could not be configured
    | Rebuilds
    | Acquires
    | GivesUp                  // the acquire fails although the mutex could be had
    | HandsBack(outcome: Outcome)
    | PushesAnswer

  predicate EncoderEnabled(s: Snapshot, step: EncoderStep) {
    match step
    case Wakes => s.encoder.Waiting? && Intake.Enabled(s.helper, EncoderWakes)
    case Takes => s.encoder.Waiting? && Intake.Enabled(s.helper, EncoderTakes)
    case ReadsStaging => s.encoder.Taken?
    case Refuses(_) => s.encoder.Configured?
    case Rebuilds => s.encoder.Configured?
    case Acquires => s.encoder.Configured? && s.stage.Some? && s.stage.value.generation == s.encoder.config.generation
                     && s.helper.encoding.Some?
    case GivesUp => s.encoder.Configured?
    case HandsBack(_) => s.encoder.Holding? && s.helper.encoding.Some?
    case PushesAnswer => s.encoder.Answering? && s.helper.encoding.Some?
  }

  // encode() gets as far as the texture: the frame is of the opened ring, names one
  // of its slots, and the mutex can be had under the helper's key.
  predicate CanEncode(s: Snapshot, f: Ready) {
    s.stage.Some? && f.generation == s.stage.value.generation && f.slot < s.stage.value.count
    && CanAcquire(MutexAt(s.tex, TexId(s.stage.value.generation, f.slot)), HELPER_KEY)
  }

  function ApplyEncoder(s: Snapshot, step: EncoderStep): Snapshot
    requires EncoderEnabled(s, step)
  {
    match step
    case Wakes => s.(helper := Intake.Apply(s.helper, EncoderWakes), stage := None)
    case Takes => s.(helper := Intake.Apply(s.helper, EncoderTakes), encoder := Taken)
    case ReadsStaging =>
      var staging := s.helper.intake.staging;
      s.(encoder := if staging.Some? then Configured(staging.value) else Answering(DROPPED))
    case Refuses(closed) => s.(encoder := Answering(DROPPED), stage := if closed then None else s.stage)
    case Rebuilds => s.(stage := Some(Stage(s.encoder.config.generation, s.encoder.config.count)))
    case Acquires =>
      var f := s.helper.encoding.value;
      if CanEncode(s, f) then s.(encoder := Holding, tex := WithMutex(s.tex, TexOf(f), Held(Helper)))
      else s.(encoder := Answering(DROPPED))
    case GivesUp => s.(encoder := Answering(DROPPED))
    case HandsBack(outcome) =>
      s.(tex := WithMutex(s.tex, TexOf(s.helper.encoding.value), Free(SHIM_KEY)),
         stage := if outcome.EncodeFatal? then None else s.stage,
         encoder := Answering(if outcome.EncodedOk? then ENCODED else DROPPED))
    case PushesAnswer => s.(helper := Intake.Apply(s.helper, EncoderAnswers(s.encoder.flags)), encoder := Waiting)
  }

  // --- Runs ----------------------------------------------------------------

  datatype Step =
    | OfPresent(p: PresentStep)
    | OfIpc(i: IpcStep)
    | OfPipe(q: PipeStep)
    | OfEncoder(e: EncoderStep)
    | HelperDies

  predicate Enabled(s: Snapshot, step: Step) {
    match step
    case OfPresent(p) => PresentEnabled(s, p)
    case OfIpc(i) => IpcEnabled(s, i)
    case OfPipe(q) => PipeEnabled(s, q)
    case OfEncoder(e) => EncoderEnabled(s, e)
    case HelperDies => true
  }

  // A helper that died is replaced by a fresh one; a mutex it held is abandoned.
  function Replaced(s: Snapshot): Snapshot {
    s.(helper := START, encoder := Waiting, stage := None,
       tex := if s.encoder.Holding? && s.helper.encoding.Some?
              then WithMutex(s.tex, TexOf(s.helper.encoding.value), Abandoned) else s.tex)
  }

  function Apply(s: Snapshot, step: Step): Snapshot
    requires Enabled(s, step)
  {
    match step
    case OfPresent(p) => ApplyPresent(s, p)
    case OfIpc(i) => ApplyIpc(s, i)
    case OfPipe(q) => ApplyPipe(s, q)
    case OfEncoder(e) => ApplyEncoder(s, e)
    case HelperDies => Replaced(s)
  }

  ghost predicate IsRun(ss: seq<Snapshot>, steps: seq<Step>) {
    |ss| == |steps| + 1 && ss[0] == INIT
    && forall k :: 0 <= k < |steps| ==> Enabled(ss[k], steps[k]) && ss[k + 1] == Apply(ss[k], steps[k])
  }

  // --- What a state means to the core --------------------------------------

  function Frames(ms: seq<Message>): seq<Ready> {
    if ms == [] then [] else (if ms[0].FrameReady? then [ms[0].frame] else []) + Frames(ms[1..])
  }

  function OneFrame(f: Option<Ready>): seq<Ready> { if f.Some? then [f.value] else [] }

  // The frame the encoder thread is working on, until its answer is decided.
  function BeingEncoded(s: Snapshot): seq<Ready> {
    if s.encoder.Waiting? || s.encoder.Answering? then [] else OneFrame(s.helper.encoding)
  }

  function BeingHanded(s: Snapshot): seq<Ready> {
    if s.present.Handing? || s.present.QueueingFrame? then [s.present.f] else []
  }

  // Every frame on its way to the encoder, oldest first.
  function Line(s: Snapshot): seq<Ready> {
    BeingEncoded(s) + OneFrame(s.helper.intake.pending) + Frames(s.up) + Frames(s.queue) + BeingHanded(s)
  }

  function AnswerIds(done: seq<Done>): set<nat> { set d | d in done :: d.id }

  function Decided(s: Snapshot): set<nat> {
    if s.encoder.Answering? && s.helper.encoding.Some? then {s.helper.encoding.value.id} else {}
  }

  function AllAnswers(s: Snapshot): set<nat> {
    Decided(s) + AnswerIds(s.helper.intake.done) + AnswerIds(s.down)
  }

  function Abs(s: Snapshot): Core {
    Core(s.ring, s.tex, s.lastId, Line(s), AllAnswers(s),
         if s.present.Leased? || s.present.Blitted? then Some(s.present.i) else None, s.present.Blitted?,
         if s.encoder.Holding? then s.helper.encoding else None)
  }

  // The encoder thread is waiting exactly when it has no frame.
  predicate Paired(s: Snapshot) { s.encoder.Waiting? <==> s.helper.encoding.None? }

  ghost predicate Inv(s: Snapshot) {
    && CoreInv(Abs(s))
    && Intake.Inv(s.helper)
    && Paired(s)
  }

  // What an action of the core, or none, makes of a state.
  ghost function Meaning(s: Snapshot, action: Option<Action>, s': Snapshot): Option<Core> {
    if action.Some? then Successor(Abs(s), action.value, Abs(s').answers) else Some(Abs(s))
  }

  // A step means one action of the core, or nothing.
  ghost predicate Means(s: Snapshot, action: Option<Action>, s': Snapshot) {
    Meaning(s, action, s') == Some(Abs(s'))
  }
}
