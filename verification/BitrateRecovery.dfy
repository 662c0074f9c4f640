/**
  Recovery from a deep drop over whole runs of the bitrate controller
  (helper/src/wivrn/bitrate_controller.cpp): rebound evaluations double the bitrate up
  to the target, whatever calls come between them, and recovery comes to an end unless
  the floor was configured to zero.
 */
module BitrateRecovery {
  import opened Prelude
  import opened BitrateLaw
  import opened BitrateSafety
  import opened BitrateRuns

  // --- Rebounds in a run --------------------------------------------------------------

  // What recovery is about, apart from timers.
  ghost predicate SameCourse(r: Rate, q: Rate) {
    (q.bitrate, q.target, q.recovering, q.floor, q.ceiling)
    == (r.bitrate, r.target, r.recovering, r.floor, r.ceiling)
  }

  // One step while recovering that is no decrease: nothing moves, or it is a rebound.
  lemma RecoveryStep(s: State, e: Event)
    requires Inv(s) && s.rate.recovering && !Restarts(s, e)
    requires Step(s, e).rate.lastDecrease == s.rate.lastDecrease
    ensures SameCourse(s.rate, Step(s, e).rate) || SameCourse(Rebounded(s.rate), Step(s, e).rate)
  {
    match e
    case OnFrameBytes(index, stream, bytes, now) => BytesCollect(s, index, stream, bytes, now);
    case OnFeedback(report, period, streaming, now) =>
      if Controlling(s) && streaming && period > 0 && report.stream < STREAMS && !TooOld(s, report.frame) {
        var c := Collected(s, report, period, now);
        ReportCollects(s, report, period, now);
        EvaluationRecovers(c, now);
      }
    case OnWifiState(rssi, link, now) => RadioWaits(s, rssi, link, now);
    case _ =>
  }

  // The radio keeps out of a recovery.
  lemma RadioWaits(s: State, rssi: int, link: int, now: int)
    requires Inv(s) && s.rate.recovering
    ensures Wifi(s, rssi, link, now).rate == s.rate
  {
  }

  lemma LawRecovers(s: State, t: Stats, now: int)
    requires Shaped(s) && RateOk(s.switches, s.rate) && s.rate.recovering
    requires EvaluatedAimd(s, t, now).rate.lastDecrease == s.rate.lastDecrease
    ensures var r := EvaluatedAimd(s, t, now).rate; SameCourse(s.rate, r) || SameCourse(Rebounded(s.rate), r)
  {
  }

  lemma EvaluationRecovers(s: State, now: int)
    requires Shaped(s) && RateOk(s.switches, s.rate) && s.rate.recovering
    requires Evaluated(s, now).rate.lastDecrease == s.rate.lastDecrease
    ensures var r := Evaluated(s, now).rate; SameCourse(s.rate, r) || SameCourse(Rebounded(s.rate), r)
  {
    if now - s.rate.lastEvaluation >= EVALUATION_INTERVAL {
      var w := Recent(s.frames.window, now);
      var e := s.(rate := s.rate.(lastEvaluation := now),
                  radio := s.radio.(hold := s.radio.hold && now - s.radio.lastSample <= RADIO_MAX_AGE),
                  frames := s.frames.(window := w));
      var t := Statistics(w);
      if t.count >= MIN_SAMPLES { LawRecovers(e, t, now); }
    }
  }

  // The steps between two positions that moved the bitrate.
  ghost function Moves(states: seq<State>, i: nat, j: nat): nat
    requires i <= j < |states|
    decreases j
  {
    if i == j then 0
    else Moves(states, i, j - 1) + if states[j].rate.bitrate != states[j - 1].rate.bitrate then 1 else 0
  }

  // The controller is recovering all the way, with no restart and no further decrease.
  ghost predicate Undisturbed(states: seq<State>, events: seq<Event>, i: nat, j: nat)
    requires |states| == |events| + 1 && i <= j <= |events|
  {
    forall k :: i <= k < j ==>
      && states[k].rate.recovering && !Restarts(states[k], events[k])
      && states[k + 1].rate.lastDecrease == states[k].rate.lastDecrease
  }

  lemma StepInRun(states: seq<State>, events: seq<Event>, k: nat)
    requires IsRun(states, events) && k < |events| && Undisturbed(states, events, k, k + 1)
    ensures var r, q := states[k].rate, states[k + 1].rate; SameCourse(r, q) || SameCourse(Rebounded(r), q)
  {
    RunInv(states, events, k);
    assert Takes(states, events, k);
    RecoveryStep(states[k], events[k]);
  }

  // One more step of the course of n rebounds, counted when it moves the bitrate.
  lemma OneMoreRebound(r: Rate, n: nat, p: Rate, q: Rate) returns (m: nat)
    requires Recovering(r) && SameCourse(Rebounds(r, n), p) && p.recovering
    requires SameCourse(p, q) || SameCourse(Rebounded(p), q)
    ensures SameCourse(Rebounds(r, m), q)
    ensures r.bitrate > 0 ==> m == if q.bitrate != p.bitrate then n + 1 else n
  {
    ReboundsDouble(r, n);
    DoublingGrows(r.bitrate, n);
    m := if SameCourse(p, q) then n else n + 1;
  }

  lemma {:induction false} RunRebounds(states: seq<State>, events: seq<Event>, i: nat, j: nat) returns (n: nat)
    requires IsRun(states, events) && i <= j <= |events| && Undisturbed(states, events, i, j)
             && states[i].rate.recovering
    ensures SameCourse(Rebounds(states[i].rate, n), states[j].rate)
    ensures states[i].rate.bitrate > 0 ==> n == Moves(states, i, j)
    decreases j
  {
    if i == j {
      n := 0;
    } else {
      n := RunRebounds(states, events, i, j - 1);
      RunInv(states, events, i);
      StepInRun(states, events, j - 1);
      n := OneMoreRebound(states[i].rate, n, states[j - 1].rate, states[j].rate);
    }
  }

  // In every run: from a recovering controller on, as long as nothing restarts or lowers
  // it, the steps that moved the bitrate have doubled it that many times, up to the
  // target, and recovery is over exactly when the target is reached.
  lemma RecoveryDoublesInEveryRun(states: seq<State>, events: seq<Event>, i: nat, j: nat)
    requires IsRun(states, events) && i <= j <= |events| && Undisturbed(states, events, i, j)
             && states[i].rate.recovering
    ensures var r, q := states[i].rate, states[j].rate;
            && q.target == r.target
            && q.bitrate == Min(r.target, Doubled(r.bitrate, Moves(states, i, j)))
            && (q.recovering <==> Doubled(r.bitrate, Moves(states, i, j)) < r.target)
  {
    RunInv(states, events, i);
    var n := RunRebounds(states, events, i, j);
    ReboundsDouble(states[i].rate, n);
    DoublingGrows(states[i].rate.bitrate, n);
    DoublingGrows(states[i].rate.bitrate, Moves(states, i, j));
  }

  // --- When recovery ends ---------------------------------------------------------------

  // The caller configures a floor.
  ghost predicate FloorsConfigured(events: seq<Event>) {
    forall k :: 0 <= k < |events| && events[k].Configure? ==> events[k].conf.floor > 0
  }

  ghost predicate FloorHolds(s: State) {
    && s.switches.conf.floor > 0
    && (s.rate.ceiling != 0 ==> s.rate.floor > 0)
  }

  lemma StepKeepsFloor(s: State, e: Event)
    requires Inv(s) && FloorHolds(s) && (e.Configure? ==> e.conf.floor > 0)
    ensures FloorHolds(Step(s, e))
  {
    match e
    case OnFrameBytes(index, stream, bytes, now) => BytesCollect(s, index, stream, bytes, now);
    case OnFeedback(report, period, streaming, now) =>
      if Controlling(s) && !TooOld(s, report.frame) {
        ReportCollects(s, report, period, now);
        EvaluationDecides(Collected(s, report, period, now), now);
      }
    case OnWifiState(rssi, link, now) => RadioDecides(s, rssi, link, now);
    case _ =>
  }

  lemma {:induction false} RunKeepsFloor(states: seq<State>, events: seq<Event>, n: nat)
    requires IsRun(states, events) && n <= |events| && FloorsConfigured(events)
    ensures FloorHolds(states[n])
  {
    if n > 0 {
      RunKeepsFloor(states, events, n - 1);
      RunInv(states, events, n - 1);
      assert Takes(states, events, n - 1);
      StepKeepsFloor(states[n - 1], events[n - 1]);
    }
  }

  // With a floor configured above zero, a recovering controller never sits at zero, so
  // every recovery of every run has an end.
  lemma RecoveryEndsInEveryRun(states: seq<State>, events: seq<Event>, n: nat)
    requires IsRun(states, events) && n <= |events| && FloorsConfigured(events) && states[n].rate.recovering
    ensures states[n].rate.bitrate > 0
    ensures exists k: nat ::
              var r := Rebounds(states[n].rate, k); !r.recovering && r.bitrate == states[n].rate.target
  {
    RunInv(states, events, n);
    RunKeepsFloor(states, events, n);
    var r := states[n].rate;
    RecoveryEndsExactly(r);
    var k: nat :| !Rebounds(r, k).recovering;
    ReboundsDouble(r, k);
  }

  // --- A run that reaches zero --------------------------------------------------------------

  // The controller configured with a floor of zero, and reports of frames that never
  // arrived, all at one time.
  const CONFIGURE := Configure(Config(true, 0, Aimd), 2, true, true, None)
  const REPORTED := COOLDOWN

  function LostReport(i: nat, now: int): Event {
    OnFeedback(Report(i, 0, false, 0, 0, false, false, 0), 1, true, now)
  }

  ghost predicate SlotPiled(f: Frame, k: nat, n: nat) {
    if k >= n then f == NO_FRAME
    else f.index.Some? && f.index.value % RING == k && n - RING <= f.index.value < n && f.lost && !f.late
  }

  // The first n frames have been reported lost: the last sixteen are in the ring, the
  // ones before them are samples.
  ghost predicate Piled(s: State, n: nat) {
    && Shaped(s)
    && s.switches == Switches(Config(true, 0, Aimd), true, None, true, 0.0)
    && s.radio == NO_RADIO
    && s.rate == Rate(2, 0, 2, 2, false, true, None, if n == 0 then 0 else REPORTED, 0)
    && s.frames.staleBefore == 0 && s.frames.any == (n > 0) && (n > 0 ==> s.frames.newest == n - 1)
    && (forall k :: 0 <= k < RING ==> SlotPiled(s.frames.ring[k], k, n))
    && |s.frames.window| == (if n <= RING then 0 else n - RING)
    && (forall i :: 0 <= i < |s.frames.window| ==> s.frames.window[i].lost && s.frames.window[i].when == REPORTED)
  }

  // What collecting one more lost frame leaves: the ring and the window of n + 1 frames.
  ghost predicate PiledFrames(s: State, f: Frames, n: nat, now: int) {
    && |f.ring| == RING && f.staleBefore == 0 && f.any && f.newest == n
    && (forall k :: 0 <= k < RING ==> SlotPiled(f.ring[k], k, n + 1))
    && |f.window| == (if n < RING then 0 else n + 1 - RING)
    && s.frames.window <= f.window
    && (n >= RING ==> f.window[|f.window| - 1].lost && f.window[|f.window| - 1].when == now)
  }

  lemma SlotOfNext(i: nat, n: nat)
    requires i % RING == n % RING && n - RING <= i < n
    ensures i == n - RING
  {
    assert i == RING * (i / RING) + i % RING && n == RING * (n / RING) + n % RING;
  }

  lemma PileCollects(s: State, n: nat, now: int)
    requires Piled(s, n)
    ensures var c := Collected(s, LostReport(n, now).report, 1, now);
            && Shaped(c) && PiledFrames(s, c.frames, n, now)
            && c == s.(frames := c.frames, est := c.est)
  {
    assert SlotPiled(s.frames.ring[n % RING], n % RING, n);
    if n >= RING { SlotOfNext(s.frames.ring[n % RING].index.value, n); }
    assert n >= RING ==> (n - RING) % RING == n % RING;
    var c := Collected(s, LostReport(n, now).report, 1, now);
    forall k | 0 <= k < RING ensures SlotPiled(c.frames.ring[k], k, n + 1) {
      assert SlotPiled(s.frames.ring[k], k, n);
    }
  }

  lemma PileGrows(s: State, n: nat)
    requires Piled(s, n)
    ensures Piled(Step(s, LostReport(n, REPORTED)), n + 1)
  {
    PileCollects(s, n, REPORTED);
    var c := Collected(s, LostReport(n, REPORTED).report, 1, REPORTED);
    if n == 0 { assert Recent(c.frames.window, REPORTED) == [] && Statistics([]).count == 0; }
    forall i | 0 <= i < |c.frames.window| ensures c.frames.window[i].lost && c.frames.window[i].when == REPORTED {
      if i < |s.frames.window| { assert c.frames.window[i] == s.frames.window[i]; }
    }
  }

  lemma {:induction false} AllLost(w: seq<Sample>)
    requires forall i :: 0 <= i < |w| ==> w[i].lost
    ensures Lost(w) == |w|
  {
    if w != [] { AllLost(w[..|w| - 1]); }
  }

  lemma LostWindowIsSevere(w: seq<Sample>, now: int)
    requires |w| >= MIN_SAMPLES && forall i :: 0 <= i < |w| ==> w[i].lost && now - w[i].when <= WINDOW
    ensures Recent(w, now) == w
    ensures Severe(Statistics(w))
    ensures Statistics(w).count == |w|
  {
    AllLost(w);
  }

  lemma DeepDropFromTwo(s: State, t: Stats, now: int)
    requires s.rate == Rate(2, 0, 2, 2, false, true, None, now, 0) && Severe(t) && now >= COOLDOWN
    ensures var r := EvaluatedAimd(s, t, now).rate; r.bitrate == 0 && Recovering(r)
  {
  }

  // An evaluation on a full window of lost frames is the first law's deep drop.
  lemma EvaluationDrops(c: State, now: int)
    requires Shaped(c) && c.radio == NO_RADIO && ModeOf(c.switches) == Aimd && now >= REPORTED + EVALUATION_INTERVAL
    requires c.rate == Rate(2, 0, 2, 2, false, true, None, REPORTED, 0) && |c.frames.window| >= MIN_SAMPLES
    requires forall i :: 0 <= i < |c.frames.window| ==>
               c.frames.window[i].lost && now - c.frames.window[i].when <= WINDOW
    ensures var r := Evaluated(c, now).rate; r.bitrate == 0 && Recovering(r)
  {
    LostWindowIsSevere(c.frames.window, now);
    var e := c.(rate := c.rate.(lastEvaluation := now));
    DeepDropFromTwo(e, Statistics(c.frames.window), now);
    assert e == e.(radio := e.radio.(hold := false), frames := e.frames.(window := Recent(c.frames.window, now)));
  }

  // The thirty-sixth report completes twenty lost frames: the deep drop goes to zero.
  lemma PileDrops(s: State)
    requires Piled(s, 35)
    ensures var r := Step(s, LostReport(35, REPORTED + EVALUATION_INTERVAL)).rate; r.bitrate == 0 && Recovering(r)
  {
    var now := REPORTED + EVALUATION_INTERVAL;
    PileCollects(s, 35, now);
    var c := Collected(s, LostReport(35, now).report, 1, now);
    PileWindow(s, c.frames, now);
    EvaluationDrops(c, now);
    assert Feedback(s, LostReport(35, now).report, 1, true, now) == Evaluated(c, now);
  }

  lemma PileWindow(s: State, f: Frames, now: int)
    requires Piled(s, 35) && PiledFrames(s, f, 35, now) && now == REPORTED + EVALUATION_INTERVAL
    ensures |f.window| == 20 && forall i :: 0 <= i < |f.window| ==> f.window[i].lost && now - f.window[i].when <= WINDOW
  {
    forall i | 0 <= i < |s.frames.window| ensures f.window[i] == s.frames.window[i] {}
  }

  // Some run with a configure of a zero floor ends in this state.
  ghost predicate Reached(s: State) {
    exists states, events :: IsRun(states, events) && states[|events|] == s && CONFIGURE in events
  }

  lemma NextIsReached(s: State, e: Event)
    requires Reached(s) && Shaped(s)
    ensures Reached(Step(s, e))
  {
    var states, events :| IsRun(states, events) && states[|events|] == s && CONFIGURE in events;
    var more, after := states + [Step(s, e)], events + [e];
    forall k | 0 <= k < |after| ensures Takes(more, after, k) {
      if k < |events| { assert Takes(states, events, k); }
    }
    assert IsRun(more, after) && CONFIGURE in after;
  }

  lemma ConfiguredIsPiled()
    ensures Shaped(Initial()) && Piled(Step(Initial(), CONFIGURE), 0)
  {
  }

  lemma ConfiguredIsReached()
    ensures Reached(Step(Initial(), CONFIGURE))
  {
    ConfiguredIsPiled();
    var states := [Initial(), Step(Initial(), CONFIGURE)];
    assert Takes(states, [CONFIGURE], 0);
    assert IsRun(states, [CONFIGURE]) && CONFIGURE in [CONFIGURE];
  }

  lemma LargerPileIsReached(s: State, n: nat)
    requires Reached(s) && Piled(s, n)
    ensures exists t :: Reached(t) && Piled(t, n + 1)
  {
    PileGrows(s, n);
    NextIsReached(s, LostReport(n, REPORTED));
  }

  lemma {:induction false} PileIsReached(n: nat)
    ensures exists s :: Reached(s) && Piled(s, n)
  {
    if n == 0 {
      ConfiguredIsPiled();
      ConfiguredIsReached();
    } else {
      PileIsReached(n - 1);
      var s :| Reached(s) && Piled(s, n - 1);
      LargerPileIsReached(s, n - 1);
    }
  }

  ghost predicate NeverRecovers(r: Rate) {
    Recovering(r) && r.bitrate == 0 && forall n: nat :: Rebounds(r, n).recovering
  }

  // A floor of zero lets a run come to a recovery at zero, which has no end.
  lemma DropCanReachZero()
    ensures exists states: seq<State>, events: seq<Event> ::
              IsRun(states, events) && !FloorsConfigured(events) && NeverRecovers(states[|events|].rate)
  {
    PileIsReached(35);
    var s :| Reached(s) && Piled(s, 35);
    PileDrops(s);
    var t := Step(s, LostReport(35, REPORTED + EVALUATION_INTERVAL));
    NextIsReached(s, LostReport(35, REPORTED + EVALUATION_INTERVAL));
    RecoveryEndsExactly(t.rate);
    var states: seq<State>, events :| IsRun(states, events) && states[|events|] == t && CONFIGURE in events;
    assert !FloorsConfigured(events) && NeverRecovers(states[|events|].rate);
  }
}
