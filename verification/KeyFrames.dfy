/**
  Key frames and bitrate across the session and encoder threads
  (helper/src/video_intake.cpp, helper/src/video_bridge.cpp): the session changes the
  request at any moment; the encoder thread works from a snapshot of it, rebuilding the
  encoder, moving its bitrate and forcing a key frame as its own counters tell it to.
 */
module KeyFrames {
  import opened VideoRequests

  // The encoder thread's bookkeeping, and the bitrate the encoder itself runs at.
  datatype Encoder = Encoder(ready: bool, generation: nat, configGen: nat, idrSeen: nat, bitrateSeen: nat, bitrate: nat)

  // How far the encoder thread is with one frame: it holds a snapshot of the request,
  // then a ready encoder, then an encode in progress.
  datatype Flight =
    | Waiting
    | Snapped(snap: Request, generation: nat)
    | Prepared(snap: Request)
    | Encoding(snap: Request, forced: bool)

  datatype Outcome = Ok | Dropped | Fatal

  // One finished encode: by which build of the encoder, what the snapshot had counted
  // and wanted, whether a key frame was forced, and the bitrate it ran at.
  datatype Entry = Entry(build: nat, idrGen: nat, forced: bool, outcome: Outcome, wanted: nat, used: nat)

  datatype World = World(prefs: Prefs, req: Request, enc: Encoder, flight: Flight, builds: nat, log: seq<Entry>)

  function Start(p: Prefs): World { World(p, Fresh(p), Encoder(false, 0, 0, 0, 0, 0), Waiting, 0, []) }

  datatype Step =
    | SetClient(refresh: real, h265: bool, h264: bool)
    | ClearClient
    | SetBitrate(bps: nat)
    | RequestIdr
    // The staging ring changed: the encoder is torn down.
    | TearDown
    // The request is read; no client, no encoding.
    | Snapshot(generation: nat)
    // The encoder is rebuilt unless it is the right one; configuring may fail.
    | Ensure(configured: bool)
    // The bitrate is applied and the encode begins.
    | Begin
    | Finish(outcome: Outcome)

  predicate Enabled(w: World, s: Step) {
    match s
    case TearDown => w.flight.Waiting?
    case Snapshot(_) => w.flight.Waiting?
    case Ensure(_) => w.flight.Snapped?
    case Begin => w.flight.Prepared?
    case Finish(_) => w.flight.Encoding?
    case _ => true
  }

  predicate UpToDate(e: Encoder, snap: Request, generation: nat) {
    && e.ready
    && e.generation == generation
    && e.configGen == snap.configGen
  }

  // The encoder ignores a bitrate of zero, and one it already runs at.
  function Retargeted(e: Encoder, bps: nat): Encoder { if bps == 0 then e else e.(bitrate := bps) }

  // The encoder rebuilt for a snapshot and a ring, unless it is the right one already.
  function Ensured(e: Encoder, q: Request, generation: nat, configured: bool): Encoder {
    if UpToDate(e, q, generation) then e
    else if configured then Encoder(true, generation, q.configGen, 0, q.bitrateGen, q.bitrate)
    else e.(ready := false, generation := generation, configGen := q.configGen, bitrate := 0)
  }

  // The encoder shut down because its ring changed.
  function TornDown(e: Encoder): Encoder { if e.ready then e.(ready := false, generation := 0, bitrate := 0) else e }

  // The encoder moved to the bitrate of a snapshot.
  function Begun(e: Encoder, q: Request): Encoder {
    if q.bitrateGen != e.bitrateSeen then Retargeted(e.(bitrateSeen := q.bitrateGen), q.bitrate) else e
  }

  // The encoder after an encode: only a success settles the key frame, only a fatal
  // failure tears it down.
  function Finished(e: Encoder, q: Request, forced: bool, outcome: Outcome): Encoder {
    match outcome
    case Ok => if forced then e.(idrSeen := q.idrGen) else e
    case Dropped => e
    case Fatal => e.(ready := false, bitrate := 0)
  }

  function Apply(w: World, s: Step): World
    requires Enabled(w, s)
  {
    match s
    case SetClient(refresh, h265, h264) => w.(req := WithClient(w.req, w.prefs, refresh, h265, h264))
    case ClearClient => w.(req := WithoutClient(w.req))
    case SetBitrate(bps) => w.(req := WithBitrate(w.req, bps))
    case RequestIdr => w.(req := WithIdr(w.req))
    case TearDown => w.(enc := TornDown(w.enc))
    case Snapshot(generation) => if w.req.active then w.(flight := Snapped(w.req, generation)) else w
    case Ensure(configured) =>
      var q, g := w.flight.snap, w.flight.generation;
      var enc := Ensured(w.enc, q, g, configured);
      w.(enc := enc, flight := if enc.ready then Prepared(q) else Waiting,
         builds := if enc.ready && !UpToDate(w.enc, q, g) then w.builds + 1 else w.builds)
    case Begin =>
      var enc := Begun(w.enc, w.flight.snap);
      w.(enc := enc, flight := Encoding(w.flight.snap, w.flight.snap.idrGen != enc.idrSeen))
    case Finish(outcome) =>
      var q, forced := w.flight.snap, w.flight.forced;
      w.(enc := Finished(w.enc, q, forced, outcome), flight := Waiting,
         log := w.log + [Entry(w.builds, q.idrGen, forced, outcome, q.bitrate, w.enc.bitrate)])
  }

  ghost predicate Takes(worlds: seq<World>, steps: seq<Step>, k: nat)
    requires k < |steps| && |worlds| == |steps| + 1
  {
    Enabled(worlds[k], steps[k]) && worlds[k + 1] == Apply(worlds[k], steps[k])
  }

  ghost predicate IsRun(p: Prefs, worlds: seq<World>, steps: seq<Step>) {
    && |worlds| == |steps| + 1
    && worlds[0] == Start(p)
    && forall k :: 0 <= k < |steps| ==> Takes(worlds, steps, k)
  }

  // --- Invariants ---------------------------------------------------------------------

  predicate Serves(e: Entry, build: nat, idrGen: nat) {
    e.build == build && e.idrGen == idrGen && e.forced && e.outcome == Ok
  }

  // A key frame came out of this build for this count of requests.
  ghost predicate Served(log: seq<Entry>, build: nat, idrGen: nat) {
    exists m :: 0 <= m < |log| && Serves(log[m], build, idrGen)
  }

  // A key frame is forced exactly when none came out yet of the same build of the
  // encoder for the same count of requests.
  ghost predicate LogOk(log: seq<Entry>) {
    forall k :: 0 <= k < |log| ==> (log[k].forced <==> !Served(log[..k], log[k].build, log[k].idrGen))
  }

  // The counter of the running encoder says what its build has served.
  ghost predicate CounterOk(w: World) {
    && (forall m :: 0 <= m < |w.log| ==> w.log[m].build <= w.builds)
    && (w.enc.ready ==> w.enc.idrSeen <= w.req.idrGen)
    && (w.enc.ready && w.enc.idrSeen != 0 ==> Served(w.log, w.builds, w.enc.idrSeen))
    && (w.enc.ready ==>
          forall m :: 0 <= m < |w.log| && Serves(w.log[m], w.builds, w.log[m].idrGen) ==>
                        w.log[m].idrGen <= w.enc.idrSeen)
    && (w.req.active ==> w.req.idrGen > 0)
  }

  // A snapshot is of the past, and not from before what the encoder has seen.
  ghost predicate FlightOk(w: World) {
    match w.flight
    case Waiting => true
    case Snapped(q, _) => q.active && 0 < q.idrGen <= w.req.idrGen && (w.enc.ready ==> w.enc.idrSeen <= q.idrGen)
    case Prepared(q) => w.enc.ready && q.active && 0 < q.idrGen <= w.req.idrGen && w.enc.idrSeen <= q.idrGen
    case Encoding(q, forced) =>
      w.enc.ready && q.active && 0 < q.idrGen <= w.req.idrGen && w.enc.idrSeen <= q.idrGen
      && (forced <==> q.idrGen != w.enc.idrSeen)
  }

  ghost predicate Inv(w: World) {
    && LogOk(w.log)
    && CounterOk(w)
    && FlightOk(w)
  }

  lemma ServedGrows(log: seq<Entry>, e: Entry, build: nat, idrGen: nat)
    ensures Served(log + [e], build, idrGen) <==>
              Served(log, build, idrGen) || Serves(e, build, idrGen)
  {
    var more := log + [e];
    assert more[|log|] == e && forall m :: 0 <= m < |log| ==> more[m] == log[m];
    if Served(log, build, idrGen) {
      var m :| 0 <= m < |log| && Serves(log[m], build, idrGen);
      assert more[m] == log[m];
    }
  }

  lemma LogGrows(log: seq<Entry>, e: Entry)
    requires LogOk(log) && (e.forced <==> !Served(log, e.build, e.idrGen))
    ensures LogOk(log + [e])
  {
    var more := log + [e];
    forall k | 0 <= k < |more| ensures more[k].forced <==> !Served(more[..k], more[k].build, more[k].idrGen) {
      assert k < |log| ==> more[..k] == log[..k] && more[k] == log[k];
      assert k == |log| ==> more[..k] == log;
    }
  }

  lemma FinishKeepsInv(w: World)
    requires Inv(w) && w.flight.Encoding?
    ensures forall outcome :: Inv(Apply(w, Finish(outcome)))
  {
    forall outcome ensures Inv(Apply(w, Finish(outcome))) {
      var q, forced := w.flight.snap, w.flight.forced;
      var e := Entry(w.builds, q.idrGen, forced, outcome, q.bitrate, w.enc.bitrate);
      LogGrows(w.log, e);
      ServedGrows(w.log, e, w.builds, w.enc.idrSeen);
      ServedGrows(w.log, e, w.builds, q.idrGen);
      var more := w.log + [e];
      assert forall m :: 0 <= m < |more| ==> more[m] == if m < |w.log| then w.log[m] else e;
    }
  }

  lemma StepKeepsInv(w: World)
    requires Inv(w)
    ensures forall s :: Enabled(w, s) ==> Inv(Apply(w, s))
  {
    forall s | Enabled(w, s) ensures Inv(Apply(w, s)) {
      if s.Finish? { FinishKeepsInv(w); }
    }
  }

  lemma {:induction false} RunKeepsInv(p: Prefs, worlds: seq<World>, steps: seq<Step>, n: nat)
    requires IsRun(p, worlds, steps) && n <= |steps|
    ensures forall k :: 0 <= k <= n ==> Inv(worlds[k])
  {
    if n > 0 {
      RunKeepsInv(p, worlds, steps, n - 1);
      assert Takes(worlds, steps, n - 1);
      StepKeepsInv(worlds[n - 1]);
    }
  }

  // --- Key frames -----------------------------------------------------------------------

  // In every run: an encode is forced exactly when its build of the encoder has not yet
  // put out a key frame for the count of requests its snapshot saw.
  lemma ForcedExactlyWhenOwed(p: Prefs, worlds: seq<World>, steps: seq<Step>, n: nat, k: nat)
    requires IsRun(p, worlds, steps) && n <= |steps| && k < |worlds[n].log|
    ensures var log := worlds[n].log;
            log[k].forced <==> !Served(log[..k], log[k].build, log[k].idrGen)
  {
    RunKeepsInv(p, worlds, steps, n);
  }

  // Until a rebuilt encoder has put out a frame, every encode it begins is forced.
  lemma FirstOutputOfBuildIsForced(p: Prefs, worlds: seq<World>, steps: seq<Step>, n: nat, k: nat)
    requires IsRun(p, worlds, steps) && n <= |steps| && k < |worlds[n].log|
    requires forall m :: 0 <= m < k ==>
               worlds[n].log[m].build != worlds[n].log[k].build || worlds[n].log[m].outcome != Ok
    ensures worlds[n].log[k].forced
  {
    ForcedExactlyWhenOwed(p, worlds, steps, n, k);
  }

  lemma {:induction false} RequestsOnlyCount(p: Prefs, worlds: seq<World>, steps: seq<Step>, i: nat, j: nat)
    requires IsRun(p, worlds, steps) && i <= j <= |steps|
    ensures worlds[i].req.idrGen <= worlds[j].req.idrGen
    ensures worlds[i].log <= worlds[j].log
    decreases j - i
  {
    if i < j {
      RequestsOnlyCount(p, worlds, steps, i, j - 1);
      assert Takes(worlds, steps, j - 1);
    }
  }

  // A snapshot taken after a request carries a count no snapshot before it had, so an
  // encode of such a snapshot is forced until one of them has succeeded.
  lemma RequestForcesKeyFrame(p: Prefs, worlds: seq<World>, steps: seq<Step>, i: nat, j: nat, s: nat)
    requires IsRun(p, worlds, steps) && i < j < s < |steps| && steps[i].RequestIdr?
    requires steps[j].Snapshot? && steps[s].Begin?
    requires forall m :: j < m < s ==> !steps[m].Snapshot?
    requires worlds[j].req.active && worlds[s].flight.Prepared?
    // No encode that saw the request has succeeded yet on the present encoder.
    requires forall m :: 0 <= m < |worlds[s].log| ==>
               worlds[s].log[m].build != worlds[s].builds || worlds[s].log[m].outcome != Ok
               || worlds[s].log[m].idrGen <= worlds[i].req.idrGen
    ensures worlds[s + 1].flight.Encoding? && worlds[s + 1].flight.forced
  {
    SnapshotIsKept(p, worlds, steps, j, s);
    assert Takes(worlds, steps, i) && Takes(worlds, steps, s);
    RequestsOnlyCount(p, worlds, steps, i + 1, j);
    RunKeepsInv(p, worlds, steps, s);
    var w := worlds[s];
    if w.enc.idrSeen != 0 {
      var m :| 0 <= m < |w.log| && Serves(w.log[m], w.builds, w.enc.idrSeen);
    }
  }

  // Between its snapshot and the start of its encode, a frame keeps that snapshot.
  lemma {:induction false} SnapshotIsKept(p: Prefs, worlds: seq<World>, steps: seq<Step>, j: nat, s: nat)
    requires IsRun(p, worlds, steps) && j < s <= |steps| && steps[j].Snapshot? && worlds[j].req.active
    requires forall m :: j < m < s ==> !steps[m].Snapshot?
    ensures worlds[s].flight.Waiting? || worlds[s].flight.snap == worlds[j].req
    decreases s
  {
    assert Takes(worlds, steps, s - 1);
    if j < s - 1 { SnapshotIsKept(p, worlds, steps, j, s - 1); }
  }

  // --- Requests and the encode that follows ------------------------------------------------

  datatype Phase = AtRest | Reading | Ready | Busy

  // How far the frame of the moment is: none, snapshot taken, encoder ready, encoding.
  function PhaseOf(f: Flight): Phase {
    match f
    case Waiting => AtRest
    case Snapped(_, _) => Reading
    case Prepared(_) => Ready
    case Encoding(_, _) => Busy
  }

  // Step i is a request and step s the first encode to begin after it.
  ghost predicate RequestThenBegin(steps: seq<Step>, i: nat, s: nat) {
    && i < s < |steps| && steps[i].RequestIdr? && steps[s].Begin?
    && forall m :: i < m < s ==> !steps[m].Begin?
  }

  // Nothing of before the request is left that an encode could begin from.
  ghost predicate Renewed(w: World, count: nat) {
    && w.req.idrGen > count
    && (w.enc.ready ==> w.enc.idrSeen <= count)
    && match w.flight
       case Waiting => true
       case Snapped(q, _) => q.idrGen > count
       case Prepared(q) => q.idrGen > count
       case Encoding(q, _) => q.idrGen <= count
  }

  lemma StepStaysRenewed(w: World, s: Step, count: nat)
    requires Renewed(w, count) && Enabled(w, s) && !s.Begin?
    ensures Renewed(Apply(w, s), count)
  {
  }

  lemma {:induction false} StaysRenewed(p: Prefs, worlds: seq<World>, steps: seq<Step>, i: nat, n: nat)
    requires IsRun(p, worlds, steps) && i < n <= |steps| && steps[i].RequestIdr?
    requires forall m :: i < m < n ==> !steps[m].Begin?
    requires PhaseOf(worlds[i].flight) == AtRest || PhaseOf(worlds[i].flight) == Busy
    ensures forall m :: i < m <= n ==> Renewed(worlds[m], worlds[i].req.idrGen)
    decreases n
  {
    assert Takes(worlds, steps, n - 1);
    if i == n - 1 {
      RunKeepsInv(p, worlds, steps, i);
    } else {
      StaysRenewed(p, worlds, steps, i, n - 1);
      StepStaysRenewed(worlds[n - 1], steps[n - 1], worlds[i].req.idrGen);
    }
  }

  // In every run: a request made while no frame is between its snapshot and its encode
  // forces the first encode that begins after it.
  lemma RequestForcesNextEncode(p: Prefs, worlds: seq<World>, steps: seq<Step>, i: nat, s: nat)
    requires IsRun(p, worlds, steps) && RequestThenBegin(steps, i, s)
    requires PhaseOf(worlds[i].flight) == AtRest || PhaseOf(worlds[i].flight) == Busy
    ensures worlds[s + 1].flight.Encoding? && worlds[s + 1].flight.forced
  {
    StaysRenewed(p, worlds, steps, i, s);
    RunKeepsInv(p, worlds, steps, s);
    assert Takes(worlds, steps, s);
  }

  // Step i of a run is a request in this phase and step s the first encode after it.
  ghost predicate Asks(p: Prefs, worlds: seq<World>, steps: seq<Step>, i: nat, s: nat, phase: Phase) {
    IsRun(p, worlds, steps) && RequestThenBegin(steps, i, s) && PhaseOf(worlds[i].flight) == phase
  }

  ghost predicate BeginsForced(w: World) { w.flight.Encoding? && w.flight.forced }

  // The first encode after any request made in this phase is forced, in every run.
  ghost predicate NextIsForced(p: Prefs, phase: Phase) {
    forall worlds, steps, i, s :: Asks(p, worlds, steps, i, s, phase) ==> BeginsForced(worlds[s + 1])
  }

  // One frame encoded, and the snapshot of a second one taken.
  function SecondFrame(p: Prefs): World {
    var client := WithClient(Fresh(p), p, 90.0, true, true);
    World(p, client, Encoder(true, 1, client.configGen, client.idrGen, client.bitrateGen, client.bitrate),
          Snapped(client, 1), 1, [Entry(1, client.idrGen, true, Ok, client.bitrate, client.bitrate)])
  }

  function FirstFrame(): seq<Step> {
    [SetClient(90.0, true, true), Snapshot(1), Ensure(true), Begin, Finish(Ok), Snapshot(1)]
  }

  lemma SecondFrameIsReached(p: Prefs)
    ensures exists worlds :: IsRun(p, worlds, FirstFrame()) && worlds[6] == SecondFrame(p)
  {
    var client := Apply(Start(p), SetClient(90.0, true, true));
    var snapped := Apply(client, Snapshot(1));
    var prepared := Apply(snapped, Ensure(true));
    var encoding := Apply(prepared, Begin);
    var finished := Apply(encoding, Finish(Ok));
    var worlds := [Start(p), client, snapped, prepared, encoding, finished, Apply(finished, Snapshot(1))];
    forall k | 0 <= k < 6 ensures Takes(worlds, FirstFrame(), k) {
    }
    assert IsRun(p, worlds, FirstFrame());
  }

  // A request that comes in after the snapshot of a frame, before or after the encoder is
  // looked at: the frame is encoded from the count before it, and is no key frame.
  lemma LateRequestIsNotServed(p: Prefs, phase: Phase)
    requires phase == Reading || phase == Ready
    ensures exists worlds, steps, i ::
              Asks(p, worlds, steps, i, 8, phase) && !BeginsForced(worlds[9]) && steps[..6] == FirstFrame()
  {
    SecondFrameIsReached(p);
    var first :| IsRun(p, first, FirstFrame()) && first[6] == SecondFrame(p);
    var rest := if phase == Ready then [Ensure(true), RequestIdr, Begin] else [RequestIdr, Ensure(true), Begin];
    var w6 := SecondFrame(p);
    var w7 := Apply(w6, rest[0]);
    var w8 := Apply(w7, rest[1]);
    var worlds, steps := first + [w7, w8, Apply(w8, Begin)], FirstFrame() + rest;
    forall k | 0 <= k < 9 ensures Takes(worlds, steps, k) {
      if k < 6 { assert Takes(first, FirstFrame(), k); }
    }
    assert Asks(p, worlds, steps, if phase == Ready then 7 else 6, 8, phase) && !BeginsForced(worlds[9]);
  }

  // The next encode is sure to be a key frame exactly when the request is made while no
  // frame is between its snapshot and its encode.
  lemma NextEncodeForcedExactly(p: Prefs, phase: Phase)
    ensures NextIsForced(p, phase) <==> phase == AtRest || phase == Busy
  {
    if phase == AtRest || phase == Busy {
      forall worlds, steps, i, s | Asks(p, worlds, steps, i, s, phase) ensures BeginsForced(worlds[s + 1]) {
        RequestForcesNextEncode(p, worlds, steps, i, s);
      }
    } else {
      LateRequestIsNotServed(p, phase);
    }
  }

  // --- Bitrate -----------------------------------------------------------------------------

  // The bitrate changes only together with its counter.
  ghost predicate BitrateOk(w: World) {
    && w.req.bitrate != 0
    && w.prefs.bitrate != 0
    && (w.enc.ready ==>
          && w.enc.bitrateSeen <= w.req.bitrateGen
          && (w.enc.bitrateSeen == w.req.bitrateGen ==> w.enc.bitrate == w.req.bitrate))
    && (!w.flight.Waiting? ==>
          var q := w.flight.snap;
          && q.bitrate != 0
          && q.bitrateGen <= w.req.bitrateGen
          && (q.bitrateGen == w.req.bitrateGen ==> q.bitrate == w.req.bitrate)
          && (w.enc.ready ==>
                && w.enc.bitrateSeen <= q.bitrateGen
                && (w.enc.bitrateSeen == q.bitrateGen ==> w.enc.bitrate == q.bitrate)))
    && (w.flight.Prepared? ==> w.enc.ready)
    && (w.flight.Encoding? ==> w.enc.ready && w.enc.bitrateSeen == w.flight.snap.bitrateGen)
    && forall k :: 0 <= k < |w.log| ==> w.log[k].used == w.log[k].wanted
  }

  lemma StepKeepsBitrate(w: World, s: Step)
    requires BitrateOk(w) && Enabled(w, s)
    ensures BitrateOk(Apply(w, s))
  {
  }

  lemma {:induction false} RunKeepsBitrate(p: Prefs, worlds: seq<World>, steps: seq<Step>, n: nat)
    requires IsRun(p, worlds, steps) && n <= |steps| && p.bitrate != 0
    ensures forall k :: 0 <= k <= n ==> BitrateOk(worlds[k])
  {
    if n > 0 {
      RunKeepsBitrate(p, worlds, steps, n - 1);
      assert Takes(worlds, steps, n - 1);
      StepKeepsBitrate(worlds[n - 1], steps[n - 1]);
    }
  }

  ghost predicate RunsAsAsked(worlds: seq<World>) {
    forall n, k :: 0 <= n < |worlds| && 0 <= k < |worlds[n].log| ==> worlds[n].log[k].used == worlds[n].log[k].wanted
  }

  // Some run ends in this world.
  ghost predicate Reached(p: Prefs, w: World) {
    exists worlds, steps :: IsRun(p, worlds, steps) && worlds[|steps|] == w
  }

  lemma StartIsReached(p: Prefs)
    ensures Reached(p, Start(p))
  {
    assert IsRun(p, [Start(p)], []);
  }

  lemma NextIsReached(p: Prefs, w: World, s: Step)
    requires Reached(p, w) && Enabled(w, s)
    ensures Reached(p, Apply(w, s))
  {
    var worlds, steps :| IsRun(p, worlds, steps) && worlds[|steps|] == w;
    var more, after := worlds + [Apply(w, s)], steps + [s];
    forall k | 0 <= k < |after| ensures Takes(more, after, k) {
      if k < |steps| { assert Takes(worlds, steps, k); }
    }
    assert IsRun(p, more, after);
  }

  // A world after one frame of a ring of generation one was encoded.
  function EncodedOnce(w: World): World {
    var b := Begun(Ensured(w.enc, w.req, 1, true), w.req);
    var force := w.req.idrGen != b.idrSeen;
    var builds := if UpToDate(w.enc, w.req, 1) then w.builds else w.builds + 1;
    w.(enc := Finished(b, w.req, force, Ok), builds := builds,
       log := w.log + [Entry(builds, w.req.idrGen, force, Ok, w.req.bitrate, b.bitrate)])
  }

  lemma EncodedIsReached(p: Prefs, w: World)
    requires Reached(p, w) && w.flight.Waiting? && w.req.active
    ensures Reached(p, EncodedOnce(w))
  {
    var w1 := Apply(w, Snapshot(1));
    NextIsReached(p, w, Snapshot(1));
    var w2 := Apply(w1, Ensure(true));
    NextIsReached(p, w1, Ensure(true));
    var w3 := Apply(w2, Begin);
    NextIsReached(p, w2, Begin);
    NextIsReached(p, w3, Finish(Ok));
  }

  // A second greeting from a connected client resets the request to a preference of
  // zero, which the running encoder ignores.
  lemma ZeroPreferenceIsNotFollowed(p: Prefs)
    requires p.bitrate == 0
    ensures exists worlds, steps :: IsRun(p, worlds, steps) && !RunsAsAsked(worlds)
  {
    var hello := SetClient(90.0, true, true);
    StartIsReached(p);
    NextIsReached(p, Start(p), hello);
    var asked := Apply(Apply(Start(p), hello), SetBitrate(5));
    NextIsReached(p, Apply(Start(p), hello), SetBitrate(5));
    EncodedIsReached(p, asked);
    var again := Apply(EncodedOnce(asked), hello);
    NextIsReached(p, EncodedOnce(asked), hello);
    assert again.req == asked.req.(bitrate := 0, bitrateGen := 2);
    EncodedIsReached(p, again);
    var log := EncodedOnce(again).log;
    assert log[|log| - 1].wanted == 0 && log[|log| - 1].used == 5;
    var worlds, steps :| IsRun(p, worlds, steps) && worlds[|steps|] == EncodedOnce(again);
    assert !RunsAsAsked(worlds);
  }

  // Every encode of every run goes at the bitrate of its snapshot exactly when the
  // configured bitrate is not zero.
  lemma EncodesRunAtSnapshotBitrate(p: Prefs)
    ensures (forall worlds, steps :: IsRun(p, worlds, steps) ==> RunsAsAsked(worlds)) <==> p.bitrate != 0
  {
    if p.bitrate == 0 {
      ZeroPreferenceIsNotFollowed(p);
    } else {
      forall worlds: seq<World>, steps: seq<Step> | IsRun(p, worlds, steps) ensures RunsAsAsked(worlds) {
        forall n | 0 <= n < |worlds| ensures BitrateOk(worlds[n]) { RunKeepsBitrate(p, worlds, steps, n); }
      }
    }
  }

  // --- Configuring the encoder ---------------------------------------------------------------

  // The frame of step k finds the encoder unready or built for another ring or another
  // configuration, so it asks the encoder to configure itself.
  ghost predicate Tries(worlds: seq<World>, steps: seq<Step>, k: nat)
    requires k < |steps| && |worlds| == |steps| + 1
  {
    && steps[k].Ensure?
    && worlds[k].flight.Snapped?
    && !UpToDate(worlds[k].enc, worlds[k].flight.snap, worlds[k].flight.generation)
  }

  // Two frames that reach the encoder for the same ring and the same configuration.
  ghost predicate SameKind(worlds: seq<World>, i: nat, j: nat)
    requires i < |worlds| && j < |worlds|
  {
    && worlds[i].flight.Snapped? && worlds[j].flight.Snapped?
    && worlds[i].flight.generation == worlds[j].flight.generation
    && worlds[i].flight.snap.configGen == worlds[j].flight.snap.configGen
  }

  // What takes a built encoder away or replaces it.
  ghost predicate Disturbs(worlds: seq<World>, steps: seq<Step>, k: nat)
    requires k < |steps| && |worlds| == |steps| + 1
  {
    steps[k].TearDown? || steps[k] == Finish(Fatal) || Tries(worlds, steps, k)
  }

  // The encoder configured at step i is still there before step n.
  ghost predicate Stands(worlds: seq<World>, steps: seq<Step>, i: nat, n: nat)
    requires i < n <= |steps| && |worlds| == |steps| + 1
  {
    && Tries(worlds, steps, i)
    && steps[i].configured
    && forall m :: i < m < n ==> !Disturbs(worlds, steps, m)
  }

  lemma StandsLonger(worlds: seq<World>, steps: seq<Step>, i: nat, n: nat)
    ensures i < n < |steps| && |worlds| == |steps| + 1 ==>
              (Stands(worlds, steps, i, n + 1) <==> Stands(worlds, steps, i, n) && !Disturbs(worlds, steps, n))
  {
  }

  // An encoder that stands is the one built there.
  lemma {:induction false} StandingEncoder(p: Prefs, worlds: seq<World>, steps: seq<Step>, i: nat, n: nat)
    requires IsRun(p, worlds, steps) && i < n <= |steps| && Stands(worlds, steps, i, n)
    ensures forall m :: i < m <= n ==> UpToDate(worlds[m].enc, worlds[i].flight.snap, worlds[i].flight.generation)
    decreases n
  {
    assert Takes(worlds, steps, n - 1);
    if i < n - 1 {
      StandsLonger(worlds, steps, i, n - 1);
      StandingEncoder(p, worlds, steps, i, n - 1);
    }
  }

  // A ready encoder is one that was configured and has stood since.
  lemma {:induction false} ReadyStands(p: Prefs, worlds: seq<World>, steps: seq<Step>, n: nat)
    requires IsRun(p, worlds, steps) && n <= |steps| && worlds[n].enc.ready
    ensures exists i :: 0 <= i < n && Stands(worlds, steps, i, n)
  {
    assert n > 0;
    assert Takes(worlds, steps, n - 1);
    if Tries(worlds, steps, n - 1) {
      assert Stands(worlds, steps, n - 1, n);
    } else {
      ReadyStands(p, worlds, steps, n - 1);
      var i :| 0 <= i < n - 1 && Stands(worlds, steps, i, n - 1);
      StandsLonger(worlds, steps, i, n - 1);
    }
  }

  lemma StandsSinceLastTry(worlds: seq<World>, steps: seq<Step>, i: nat, b: nat, n: nat)
    requires i < n <= |steps| && b < n && |worlds| == |steps| + 1
    requires Tries(worlds, steps, i) && Stands(worlds, steps, b, n)
    ensures i <= b
  {
    assert Disturbs(worlds, steps, i);
  }

  // In every run: a frame does not configure the encoder exactly when an earlier frame
  // did so for the same ring and configuration, with success, and the encoder was
  // neither torn down nor failed nor replaced since.
  lemma ConfigureSkippedExactly(p: Prefs, worlds: seq<World>, steps: seq<Step>, j: nat)
    requires IsRun(p, worlds, steps) && j < |steps| && steps[j].Ensure?
    ensures !Tries(worlds, steps, j) <==>
              exists i :: 0 <= i < j && Stands(worlds, steps, i, j) && SameKind(worlds, i, j)
  {
    assert Takes(worlds, steps, j);
    if !Tries(worlds, steps, j) {
      ReadyStands(p, worlds, steps, j);
      var i :| 0 <= i < j && Stands(worlds, steps, i, j);
      StandingEncoder(p, worlds, steps, i, j);
    }
    forall i | 0 <= i < j && Stands(worlds, steps, i, j) && SameKind(worlds, i, j) ensures !Tries(worlds, steps, j) {
      StandingEncoder(p, worlds, steps, i, j);
    }
  }

  // After a failed configure every frame tries again until one succeeds, whatever its
  // ring and its configuration.
  lemma FailureIsRetried(p: Prefs, worlds: seq<World>, steps: seq<Step>, i: nat, j: nat)
    requires IsRun(p, worlds, steps) && i < j < |steps| && steps[j].Ensure?
    requires Tries(worlds, steps, i) && !steps[i].configured
    requires forall m :: i < m < j ==> steps[m] != Ensure(true)
    ensures Tries(worlds, steps, j)
  {
    assert Takes(worlds, steps, j);
    if !Tries(worlds, steps, j) {
      ReadyStands(p, worlds, steps, j);
      var b :| 0 <= b < j && Stands(worlds, steps, b, j);
      StandsSinceLastTry(worlds, steps, i, b, j);
    }
  }

  // A failed configure, and a later frame of the same kind with no change of ring
  // between them: what the code means to let pass without another try.
  ghost predicate FollowsFailure(worlds: seq<World>, steps: seq<Step>, i: nat, j: nat)
    requires |worlds| == |steps| + 1
  {
    && i < j < |steps| && steps[j].Ensure? && SameKind(worlds, i, j)
    && Tries(worlds, steps, i) && !steps[i].configured
    && forall m :: i < m < j ==> !steps[m].TearDown?
  }

  // No failed configure is tried again before the ring changes.
  ghost predicate NeverRetried(worlds: seq<World>, steps: seq<Step>)
    requires |worlds| == |steps| + 1
  {
    forall i, j :: FollowsFailure(worlds, steps, i, j) ==> !Tries(worlds, steps, j)
  }

  // A run goes without a retry exactly when no frame of the same kind follows a
  // failure: nothing the code records keeps such a frame from trying.
  lemma NeverRetriedExactly(p: Prefs, worlds: seq<World>, steps: seq<Step>)
    requires IsRun(p, worlds, steps)
    ensures NeverRetried(worlds, steps) <==> forall i, j :: !FollowsFailure(worlds, steps, i, j)
  {
    forall i: nat, j: nat | FollowsFailure(worlds, steps, i, j) ensures !NeverRetried(worlds, steps) {
      if !Tries(worlds, steps, j) {
        assert Takes(worlds, steps, j);
        ConfigureSkippedExactly(p, worlds, steps, j);
        var b: nat :| 0 <= b < j && Stands(worlds, steps, b, j) && SameKind(worlds, b, j);
        StandsSinceLastTry(worlds, steps, i, b, j);
        assert FollowsFailure(worlds, steps, i, b) && Tries(worlds, steps, b);
      }
    }
  }

  // Two frames of one ring and one client, the encoder failing to configure on both.
  function TwoFailures(): seq<Step> {
    [SetClient(90.0, true, true), Snapshot(1), Ensure(false), Snapshot(1), Ensure(false)]
  }

  // The second frame asks the encoder again.
  lemma FailureIsRetriedOnTheNextFrame(p: Prefs)
    ensures exists worlds ::
              && IsRun(p, worlds, TwoFailures()) && !NeverRetried(worlds, TwoFailures())
              && Tries(worlds, TwoFailures(), 2) && Tries(worlds, TwoFailures(), 4)
  {
    var client := Apply(Start(p), SetClient(90.0, true, true));
    var first := Apply(client, Snapshot(1));
    var failed := Apply(first, Ensure(false));
    var second := Apply(failed, Snapshot(1));
    var worlds := [Start(p), client, first, failed, second, Apply(second, Ensure(false))];
    forall k | 0 <= k < 5 ensures Takes(worlds, TwoFailures(), k) {
    }
    assert FollowsFailure(worlds, TwoFailures(), 2, 4);
    assert IsRun(p, worlds, TwoFailures()) && !NeverRetried(worlds, TwoFailures());
  }
}
