/**
  What every run of the adaptive bitrate controller keeps: the bounds on the bitrate
  and its recovery target, one sample per frame, a decision window that never holds a
  frame from before the last change, and the spacing of measured decreases.
 */
module BitrateSafety {
  import opened Prelude
  import opened BitrateLaw

  // --- Invariants -----------------------------------------------------------------

  ghost predicate RateOk(w: Switches, r: Rate) {
    && (r.ceiling == 0 ==> r.bitrate == 0 && r.target == 0)
    && (r.ceiling != 0 ==> r.floor <= r.bitrate <= r.ceiling && r.floor <= r.target <= r.ceiling)
    && (r.recovering ==> r.bitrate < r.target && ModeOf(w) == Aimd)
  }

  // Slot k holds a frame whose index is k modulo the size of the ring, and none newer
  // than the newest known.
  ghost predicate SlotOk(f: Frames, k: nat)
    requires |f.ring| == RING && k < RING
  {
    f.ring[k].index.Some? ==> f.any && f.ring[k].index.value % RING == k && f.ring[k].index.value <= f.newest
  }

  // The window holds samples of distinct frames, none stale, each older than what its
  // slot holds now.
  ghost predicate WindowOk(f: Frames)
    requires |f.ring| == RING
  {
    && (forall i :: 0 <= i < |f.window| ==> f.window[i].frame >= f.staleBefore && Replaced(f, f.window[i].frame))
    && (forall i, j :: 0 <= i < j < |f.window| ==> f.window[i].frame != f.window[j].frame)
  }

  ghost predicate Replaced(f: Frames, index: nat)
    requires |f.ring| == RING
  {
    && f.ring[index % RING].index.Some?
    && f.ring[index % RING].index.value > index
  }

  ghost predicate FramesOk(f: Frames) {
    && |f.ring| == RING
    && (forall k :: 0 <= k < RING ==> SlotOk(f, k))
    && WindowOk(f)
    && f.staleBefore <= (if f.any then f.newest + 1 else 0)
  }

  ghost predicate Inv(s: State) {
    && Shaped(s)
    && RateOk(s.switches, s.rate)
    && FramesOk(s.frames)
  }

  // --- Decisions ------------------------------------------------------------------

  // The window either lost its oldest samples or was emptied with every known frame
  // declared stale; a decision that moves the bitrate does the latter.
  ghost predicate Trimmed(f: Frames, g: Frames) {
    exists n :: 0 <= n <= |f.window| && g == f.(window := f.window[n..])
  }

  ghost predicate Emptied(f: Frames, g: Frames) {
    g == f.(window := [], staleBefore := if f.any then f.newest + 1 else f.staleBefore)
  }

  // Everything one decision of either law, or of the radio, may do.
  ghost predicate Decision(s: State, t: State, now: int) {
    && Shaped(t) && t.switches == s.switches && RateOk(t.switches, t.rate)
    && t.rate.ceiling == s.rate.ceiling && t.rate.floor == s.rate.floor
    && (Trimmed(s.frames, t.frames) || Emptied(s.frames, t.frames))
    && (t.rate.bitrate != s.rate.bitrate ==> Emptied(s.frames, t.frames))
    && (t.rate.lastDecrease != s.rate.lastDecrease ==>
          t.rate.lastDecrease == now && now - s.rate.lastDecrease >= COOLDOWN)
    && (t.rate.bitrate < s.rate.bitrate && ModeOf(s.switches) == Aimd ==>
          t.rate.lastDecrease == now && now - s.rate.lastDecrease >= COOLDOWN)
  }

  lemma Untouched(f: Frames)
    ensures Trimmed(f, f)
  {
    assert f.window[0..] == f.window;
  }

  // The three moves of the first law, on the rate alone.
  lemma RateMoves(w: Switches, r: Rate, severe: bool, now: int)
    requires RateOk(w, r) && r.ceiling != 0 && ModeOf(w) == Aimd
    ensures RateOk(w, Lowered(r, severe, now)) && Lowered(r, severe, now).bitrate <= r.bitrate
    ensures r.recovering ==> RateOk(w, Rebounded(r)) && Rebounded(r).bitrate >= r.bitrate
    ensures !r.recovering ==> RateOk(w, Increased(r)) && Increased(r).bitrate >= r.bitrate
  {
  }

  lemma HoldDecides(s: State, since: Option<int>, now: int)
    requires Shaped(s) && RateOk(s.switches, s.rate)
    ensures Decision(s, s.(rate := s.rate.(healthySince := since)), now)
  {
    Untouched(s.frames);
  }

  lemma MoveDecides(s: State, r: Rate, hold: bool, now: int)
    requires Shaped(s) && RateOk(s.switches, r) && r.ceiling == s.rate.ceiling && r.floor == s.rate.floor
    requires r.lastDecrease != s.rate.lastDecrease ==> r.lastDecrease == now && now - s.rate.lastDecrease >= COOLDOWN
    requires r.bitrate < s.rate.bitrate ==> r.lastDecrease == now && now - s.rate.lastDecrease >= COOLDOWN
    ensures Decision(s, Flushed(s.(rate := r, radio := s.radio.(hold := hold))), now)
  {
  }

  lemma AimdDecides(s: State, t: Stats, now: int)
    requires Shaped(s) && RateOk(s.switches, s.rate) && s.rate.ceiling != 0 && ModeOf(s.switches) == Aimd
    ensures Decision(s, EvaluatedAimd(s, t, now), now)
  {
    var held := s.rate.(healthySince := Some(Since(s.rate, now)));
    RateMoves(s.switches, s.rate, Severe(t), now);
    RateMoves(s.switches, held, Severe(t), now);
    if Degraded(t) {
      if now - s.rate.lastDecrease < COOLDOWN { HoldDecides(s, None, now); }
      else { MoveDecides(s, Lowered(s.rate, Severe(t), now), s.radio.hold && !Severe(t), now); }
    } else if Healthy(t) {
      HoldDecides(s, Some(Since(s.rate, now)), now);
      if s.rate.recovering { MoveDecides(s, Rebounded(held), s.radio.hold, now); }
      else { MoveDecides(s, Increased(held), s.radio.hold, now); }
    } else {
      HoldDecides(s, None, now);
    }
  }

  lemma WalkDecides(s: State, t: Stats, now: int)
    requires Shaped(s) && RateOk(s.switches, s.rate) && s.rate.ceiling != 0 && ModeOf(s.switches) == Bbr
    ensures Decision(s, WalkedUp(s, t, now), now)
  {
    Untouched(s.frames);
  }

  lemma BackoffDecides(s: State, t: Stats, now: int)
    requires Shaped(s) && RateOk(s.switches, s.rate) && s.rate.ceiling != 0 && ModeOf(s.switches) == Bbr
    ensures Decision(s, BackedOff(s, t, now), now)
  {
    Untouched(s.frames);
  }

  lemma FollowDecides(s: State, forced: bool, now: int)
    requires Shaped(s) && RateOk(s.switches, s.rate) && s.rate.ceiling != 0 && ModeOf(s.switches) == Bbr
    ensures Decision(s, Followed(s, forced, now), now)
  {
    Untouched(s.frames);
  }

  // Emptying the window a second time changes nothing more.
  lemma CruiseDecides(s: State, now: int)
    requires Shaped(s) && RateOk(s.switches, s.rate) && s.rate.ceiling != 0 && ModeOf(s.switches) == Bbr
    ensures Decision(s, Cruised(s, now), now)
  {
    var p := s.(est := Paused(s.est, s.radio.hold, now));
    match p.est.phase
    case Startup => FollowDecides(p.(est := Ramped(p.est, now)), false, now);
    case Probe =>
      if now >= p.est.probeUntil {
        var q := Flushed(p.(est := p.est.(phase := Steady, lastProbe := now)));
        FollowDecides(q, true, now);
        assert Emptied(s.frames, q.frames);
        assert Emptied(s.frames, Followed(q, true, now).frames);
      } else {
        FollowDecides(p, false, now);
      }
    case Steady =>
      FollowDecides(p, false, now);
      FollowDecides(p.(est := p.est.(phase := Probe, probeUntil := now + PROBE_DURATION)), false, now);
  }

  lemma BbrDecides(s: State, t: Stats, now: int)
    requires Shaped(s) && RateOk(s.switches, s.rate) && s.rate.ceiling != 0 && ModeOf(s.switches) == Bbr
    ensures Decision(s, EvaluatedBbr(s, t, now), now)
  {
    Untouched(s.frames);
    var a := s.(est := Aged(s.est, now));
    var e := if a.est.samples < ESTIMATOR_MIN_SAMPLES then a.(est := Seeded(a, now)) else a;
    WalkDecides(a, t, now);
    BackoffDecides(e, t, now);
    CruiseDecides(e, now);
  }

  lemma {:induction false} RecentIsSuffix(w: seq<Sample>, now: int) returns (n: nat)
    ensures n <= |w|
    ensures Recent(w, now) == w[n..]
    decreases |w|
  {
    if w != [] && now - w[0].when > WINDOW {
      n := RecentIsSuffix(w[1..], now);
      n := n + 1;
    } else {
      n := 0;
    }
  }

  lemma TrimmedTwice(f: Frames, n: nat, g: Frames)
    requires n <= |f.window| && Trimmed(f.(window := f.window[n..]), g)
    ensures Trimmed(f, g)
  {
    var m :| 0 <= m <= |f.window[n..]| && g == f.(window := f.window[n..][m..]);
    assert f.window[n..][m..] == f.window[n + m..];
  }

  // A decision taken on a trimmed window is a decision on the whole one.
  lemma DecisionAfterTrim(s: State, e: State, d: State, n: nat, now: int)
    requires n <= |s.frames.window| && e.frames == s.frames.(window := s.frames.window[n..])
    requires e.switches == s.switches && e.rate == s.rate.(lastEvaluation := now) && Decision(e, d, now)
    ensures Decision(s, d, now)
  {
    if Trimmed(e.frames, d.frames) { TrimmedTwice(s.frames, n, d.frames); }
  }

  lemma LawDecides(s: State, t: Stats, now: int)
    requires Shaped(s) && RateOk(s.switches, s.rate) && s.rate.ceiling != 0
    ensures Decision(s, Decided(s, t, now), now)
  {
    Untouched(s.frames);
    if t.count >= MIN_SAMPLES {
      if ModeOf(s.switches) == Bbr { BbrDecides(s, t, now); } else { AimdDecides(s, t, now); }
    }
  }

  lemma EvaluationDecides(s: State, now: int)
    requires Shaped(s) && RateOk(s.switches, s.rate) && s.rate.ceiling != 0
    ensures Decision(s, Evaluated(s, now), now)
  {
    Untouched(s.frames);
    if now - s.rate.lastEvaluation >= EVALUATION_INTERVAL {
      var n := RecentIsSuffix(s.frames.window, now);
      var w := Recent(s.frames.window, now);
      var e := s.(rate := s.rate.(lastEvaluation := now),
                  radio := s.radio.(hold := s.radio.hold && now - s.radio.lastSample <= RADIO_MAX_AGE),
                  frames := s.frames.(window := w));
      var t := Statistics(w);
      LawDecides(e, t, now);
      DecisionAfterTrim(s, e, Decided(e, t, now), n, now);
    }
  }

  lemma StepDownDecides(s: State, when: int)
    requires Shaped(s) && RateOk(s.switches, s.rate) && s.rate.ceiling != 0 && !s.rate.recovering
    requires when - s.rate.lastDecrease >= COOLDOWN
    ensures var t := SteppedDown(s, when);
            && Decision(s, t, when)
            && t.rate.bitrate <= s.rate.bitrate
            && t.rate.lastDecrease == when
  {
    Untouched(s.frames);
  }

  // A radio report never raises the bitrate, and whenever it lowers it the cooldown of
  // every other decrease is respected and started again.
  lemma RadioDecides(s: State, rssi: int, link: int, when: int)
    requires Shaped(s) && RateOk(s.switches, s.rate)
    ensures var t := Wifi(s, rssi, link, when);
            && Decision(s, t, when)
            && t.rate.bitrate <= s.rate.bitrate
            && (t.rate.bitrate < s.rate.bitrate ==>
                  t.rate.lastDecrease == when && when - s.rate.lastDecrease >= COOLDOWN)
  {
    Untouched(s.frames);
    var h := s.(radio := Heard(s.radio, rssi, link, when));
    var t := TrendOf(h.radio.window);
    if Controlling(s) && !s.rate.recovering && t.Some? && when - s.rate.lastDecrease >= COOLDOWN {
      StepDownDecides(h.(radio := Released(h.radio, t.value, s.rate.bitrate, when)), when);
    }
  }

  // --- The ring -----------------------------------------------------------------------

  // Collecting into a frame that is not too old: its slot moves to a larger index or
  // stays, and the frame that was there may have become one more sample.
  ghost predicate Collects(s: State, t: State, x: nat)
    requires Shaped(s)
  {
    && Shaped(t) && t.switches == s.switches && t.rate == s.rate && t.radio == s.radio
    && t.frames.any && t.frames.newest == (if s.frames.any then Max(s.frames.newest, x) else x)
    && t.frames.staleBefore == s.frames.staleBefore
    && t.frames.ring[x % RING].index == Some(x)
    && (forall k :: 0 <= k < RING && k != x % RING ==> t.frames.ring[k] == s.frames.ring[k])
    && (t.frames.window == s.frames.window
        || (s.frames.ring[x % RING].index.Some? && s.frames.ring[x % RING].index.value != x
            && |t.frames.window| == |s.frames.window| + 1 && t.frames.window[..|s.frames.window|] == s.frames.window
            && t.frames.window[|s.frames.window|].frame == s.frames.ring[x % RING].index.value
            && s.frames.ring[x % RING].index.value >= s.frames.staleBefore))
  }

  lemma BytesCollect(s: State, x: nat, stream: nat, bytes: nat, now: int)
    requires Shaped(s)
    ensures FrameBytes(s, x, stream, bytes, now) == s || Collects(s, FrameBytes(s, x, stream, bytes, now), x)
  {
  }

  lemma ReportCollects(s: State, r: Report, period: int, now: int)
    requires Shaped(s)
    ensures Collects(s, Collected(s, r, period, now), r.frame)
  {
  }

  // Two indices that share a slot and are both within the ring of the newest: the one
  // that displaces the other is the larger.
  lemma DisplacedIsOlder(s: State, x: nat)
    requires Inv(s) && !TooOld(s, x) && s.frames.ring[x % RING].index.Some?
    ensures s.frames.ring[x % RING].index.value <= x
  {
    assert SlotOk(s.frames, x % RING);
    SameSlotIsOlder(s.frames.ring[x % RING].index.value, x, s.frames.newest);
  }

  lemma SameSlotIsOlder(held: nat, x: nat, newest: nat)
    requires held % RING == x % RING && held <= newest < x + RING
    ensures held <= x
  {
    assert held == RING * (held / RING) + held % RING && x == RING * (x / RING) + x % RING;
  }

  lemma CollectingKeepsFrames(s: State, t: State, x: nat)
    requires Inv(s) && !TooOld(s, x) && Collects(s, t, x)
    ensures FramesOk(t.frames)
  {
    var f, g := s.frames, t.frames;
    forall k | 0 <= k < RING ensures SlotOk(g, k) { assert SlotOk(f, k); }
    if f.ring[x % RING].index.Some? { DisplacedIsOlder(s, x); assert SlotOk(f, x % RING); }
    forall i | 0 <= i < |g.window| ensures g.window[i].frame >= g.staleBefore && Replaced(g, g.window[i].frame) {
      if i < |f.window| {
        assert g.window[i] == f.window[i];
        assert Replaced(f, f.window[i].frame);
      }
    }
    forall i, j | 0 <= i < j < |g.window| ensures g.window[i].frame != g.window[j].frame {
      assert g.window[i] == f.window[i];
      if j < |f.window| { assert g.window[j] == f.window[j]; } else { assert Replaced(f, f.window[i].frame); }
    }
  }

  lemma TrimmingKeepsFrames(f: Frames, g: Frames, n: nat)
    requires FramesOk(f) && n <= |f.window| && g == f.(window := f.window[n..])
    ensures FramesOk(g)
    ensures forall i :: 0 <= i < |g.window| ==> g.window[i] in f.window
  {
    forall k | 0 <= k < RING ensures SlotOk(g, k) { assert SlotOk(f, k); }
    forall i | 0 <= i < |g.window| ensures g.window[i].frame >= g.staleBefore && Replaced(g, g.window[i].frame) {
      assert g.window[i] == f.window[n + i];
      assert Replaced(f, f.window[n + i].frame);
    }
  }

  lemma DecisionKeepsFrames(f: Frames, g: Frames)
    requires FramesOk(f) && (Trimmed(f, g) || Emptied(f, g))
    ensures FramesOk(g)
    ensures g.ring == f.ring
    ensures g.newest == f.newest
    ensures g.any == f.any
    ensures g.staleBefore >= f.staleBefore
  {
    if Emptied(f, g) {
      forall k | 0 <= k < RING ensures SlotOk(g, k) { assert SlotOk(f, k); }
    } else {
      var n :| 0 <= n <= |f.window| && g == f.(window := f.window[n..]);
      TrimmingKeepsFrames(f, g, n);
    }
  }

  // --- One step of any entry point -------------------------------------------------------

  // Short of a restart, slots only move to larger indices, the newest frame and the
  // stale mark only rise, a bitrate change makes every known frame stale, and a frame
  // that leaves the ring is replaced by a newer one.
  ghost predicate Advances(s: State, t: State) {
    && Inv(s) && Inv(t)
    && (forall k :: 0 <= k < RING && s.frames.ring[k].index.Some? ==>
          t.frames.ring[k].index.Some? && t.frames.ring[k].index.value >= s.frames.ring[k].index.value)
    && (s.frames.any ==> t.frames.any && t.frames.newest >= s.frames.newest)
    && t.frames.staleBefore >= s.frames.staleBefore
    && (t.rate.bitrate != s.rate.bitrate ==>
          t.frames.window == [] && (t.frames.any ==> t.frames.staleBefore == t.frames.newest + 1))
  }

  lemma CollectingAdvances(s: State, t: State, x: nat)
    requires Inv(s) && !TooOld(s, x) && Collects(s, t, x)
    ensures Advances(s, t)
  {
    CollectingKeepsFrames(s, t, x);
    if s.frames.ring[x % RING].index.Some? { DisplacedIsOlder(s, x); }
  }

  lemma DecisionAdvances(s: State, t: State, now: int)
    requires Inv(s) && Decision(s, t, now)
    ensures Advances(s, t)
    ensures t.frames.ring == s.frames.ring
  {
    DecisionKeepsFrames(s.frames, t.frames);
  }

  lemma FeedbackAdvances(s: State, r: Report, period: int, streaming: bool, now: int)
    requires Inv(s)
    ensures Advances(s, Feedback(s, r, period, streaming, now))
  {
    if TooOld(s, r.frame) {
      forall k | 0 <= k < RING ensures SlotOk(s.frames.(period := period), k) { assert SlotOk(s.frames, k); }
      PeriodIsIrrelevant(s.frames, period);
    } else if Controlling(s) {
      var c := Collected(s, r, period, now);
      ReportCollects(s, r, period, now);
      CollectingAdvances(s, c, r.frame);
      EvaluationDecides(c, now);
      DecisionAdvances(c, Evaluated(c, now), now);
    }
  }

  lemma PeriodIsIrrelevant(f: Frames, period: int)
    requires FramesOk(f)
    ensures FramesOk(f.(period := period))
  {
    var g := f.(period := period);
    forall k | 0 <= k < RING ensures SlotOk(g, k) { assert SlotOk(f, k); }
    forall i | 0 <= i < |g.window| ensures g.window[i].frame >= g.staleBefore && Replaced(g, g.window[i].frame) {
      assert Replaced(f, f.window[i].frame);
    }
  }

  lemma SwitchAdvances(s: State, t: State)
    requires Inv(s) && Shaped(t) && RateOk(t.switches, t.rate) && t.frames == s.frames && t.rate == s.rate
    ensures Advances(s, t)
  {
  }

  lemma BytesAdvance(s: State, x: nat, stream: nat, bytes: nat, now: int)
    requires Inv(s)
    ensures Advances(s, FrameBytes(s, x, stream, bytes, now))
  {
    BytesCollect(s, x, stream, bytes, now);
    var t := FrameBytes(s, x, stream, bytes, now);
    if t != s { CollectingAdvances(s, t, x); }
  }

  lemma RadioAdvances(s: State, rssi: int, link: int, now: int)
    requires Inv(s)
    ensures Advances(s, Wifi(s, rssi, link, now))
  {
    RadioDecides(s, rssi, link, now);
    DecisionAdvances(s, Wifi(s, rssi, link, now), now);
  }

  lemma SettingAdvances(s: State, e: Event)
    requires Inv(s) && !Restarts(s, e) && !e.OnFrameBytes? && !e.OnFeedback? && !e.OnWifiState?
    ensures Advances(s, Step(s, e))
  {
    var t := Step(s, e);
    assert t.frames == s.frames && t.rate == s.rate && t.est == s.est;
    SwitchAdvances(s, t);
  }

  lemma StepAdvances(s: State, e: Event)
    requires Inv(s) && !Restarts(s, e)
    ensures Advances(s, Step(s, e))
  {
    match e
    case OnFrameBytes(index, stream, bytes, now) => BytesAdvance(s, index, stream, bytes, now);
    case OnFeedback(report, period, streaming, now) => FeedbackAdvances(s, report, period, streaming, now);
    case OnWifiState(rssi, link, now) => RadioAdvances(s, rssi, link, now);
    case _ => SettingAdvances(s, e);
  }

  lemma RestartKeepsInv(s: State, e: Event)
    requires Inv(s) && Restarts(s, e)
    ensures Inv(Step(s, e))
  {
    var t := Step(s, e);
    forall k | 0 <= k < RING ensures SlotOk(t.frames, k) { assert t.frames.ring[k] == NO_FRAME; }
  }

  lemma StepKeepsInv(s: State, e: Event)
    requires Inv(s)
    ensures Inv(Step(s, e))
  {
    if Restarts(s, e) { RestartKeepsInv(s, e); } else { StepAdvances(s, e); }
  }
}
