/**
  Whole runs of the adaptive bitrate controller: any sequence of calls of its entry
  points, in any order and at any times, from the freshly constructed controller.
 */
module BitrateRuns {
  import opened Prelude
  import opened BitrateLaw
  import opened BitrateSafety

  ghost predicate Takes(states: seq<State>, events: seq<Event>, k: nat)
    requires k < |events| && |states| == |events| + 1
  {
    Shaped(states[k]) && states[k + 1] == Step(states[k], events[k])
  }

  // states[k] is the controller after the first k events.
  ghost predicate IsRun(states: seq<State>, events: seq<Event>) {
    && |states| == |events| + 1
    && states[0] == Initial()
    && forall k :: 0 <= k < |events| ==> Takes(states, events, k)
  }

  // No event from position i up to j restarted the controller.
  ghost predicate Unbroken(states: seq<State>, events: seq<Event>, i: nat, j: nat)
    requires |states| == |events| + 1 && i <= j <= |events|
  {
    forall k :: i <= k < j ==> !Restarts(states[k], events[k])
  }

  // The frame that left the ring between two states, if one did.
  ghost function ClosedBy(s: State, e: Event, t: State): Option<nat> {
    if (!e.OnFrameBytes? && !e.OnFeedback?) || !Shaped(s) || !Shaped(t) then None
    else
      var k := (if e.OnFrameBytes? then e.index else e.report.frame) % RING;
      if t.frames.ring[k].index != s.frames.ring[k].index then s.frames.ring[k].index else None
  }

  // A decrease drawn from a measurement: by the first law from frame timings, or by
  // either law from the radio.
  ghost predicate MeasuredDecrease(s: State, e: Event, t: State) {
    t.rate.bitrate < s.rate.bitrate && (e.OnWifiState? || (e.OnFeedback? && ModeOf(s.switches) == Aimd))
  }

  // --- One step ------------------------------------------------------------------------

  // The time of the last decrease moves only to a time at least a cooldown later, and
  // every measured decrease moves it.
  ghost predicate KeepsCooldown(s: State, e: Event, t: State) {
    && (t.rate.lastDecrease == s.rate.lastDecrease
        || ((e.OnFeedback? || e.OnWifiState?) && t.rate.lastDecrease == e.now >= s.rate.lastDecrease + COOLDOWN))
    && (MeasuredDecrease(s, e, t) ==> t.rate.lastDecrease == e.now >= s.rate.lastDecrease + COOLDOWN)
    && (e.OnWifiState? ==> t.rate.bitrate <= s.rate.bitrate)
  }

  // A sample that was not in the window is of the frame that left the ring.
  ghost predicate SamplesClosed(s: State, e: Event, t: State) {
    forall p :: p in t.frames.window && p !in s.frames.window ==>
      ClosedBy(s, e, t) == Some(p.frame) && p.frame >= s.frames.staleBefore
  }

  // The reports the controller acts on.
  ghost predicate ActsOn(s: State, e: Event) {
    e.OnFeedback? && Controlling(s) && e.streaming && e.period > 0 && e.report.stream < STREAMS
  }

  ghost predicate Facts(s: State, e: Event, t: State) {
    && Inv(s)
    && Inv(t)
    && (!Restarts(s, e) ==> Advances(s, t))
    && KeepsCooldown(s, e, t)
    && SamplesClosed(s, e, t)
    && (ActsOn(s, e) ==> t.frames.any && t.frames.newest >= e.report.frame)
  }

  lemma DecisionSamples(s: State, t: State, now: int)
    requires Decision(s, t, now)
    ensures t.frames.ring == s.frames.ring && t.frames.any == s.frames.any && t.frames.newest == s.frames.newest
    ensures forall p :: p in t.frames.window ==> p in s.frames.window
  {
  }

  lemma CollectingSamples(s: State, t: State, x: nat, p: Sample)
    requires Shaped(s) && Collects(s, t, x) && p in t.frames.window && p !in s.frames.window
    ensures s.frames.ring[x % RING].index == Some(p.frame) && p.frame != x && p.frame >= s.frames.staleBefore
  {
    var n := |s.frames.window|;
    assert t.frames.window[..n] == s.frames.window;
    assert forall i :: 0 <= i < n ==> t.frames.window[i] == s.frames.window[i];
    var i :| 0 <= i < |t.frames.window| && t.frames.window[i] == p;
  }

  // A report is collected, then a decision is taken.
  lemma CollectThenDecide(s: State, c: State, t: State, e: Event)
    requires Shaped(s) && Shaped(t) && e.OnFeedback? && Collects(s, c, e.report.frame) && Decision(c, t, e.now)
    ensures KeepsCooldown(s, e, t) && SamplesClosed(s, e, t) && t.frames.any && t.frames.newest >= e.report.frame
  {
    DecisionSamples(c, t, e.now);
    forall p | p in t.frames.window && p !in s.frames.window
      ensures ClosedBy(s, e, t) == Some(p.frame) && p.frame >= s.frames.staleBefore
    {
      CollectingSamples(s, c, e.report.frame, p);
    }
  }

  lemma FeedbackFacts(s: State, e: Event)
    requires Inv(s) && e.OnFeedback?
    ensures var t := Feedback(s, e.report, e.period, e.streaming, e.now);
            Inv(t) && KeepsCooldown(s, e, t) && SamplesClosed(s, e, t)
            && (ActsOn(s, e) ==> t.frames.any && t.frames.newest >= e.report.frame)
  {
    FeedbackAdvances(s, e.report, e.period, e.streaming, e.now);
    if ActsOn(s, e) && !TooOld(s, e.report.frame) {
      var c := Collected(s, e.report, e.period, e.now);
      ReportCollects(s, e.report, e.period, e.now);
      EvaluationDecides(c, e.now);
      CollectThenDecide(s, c, Evaluated(c, e.now), e);
    }
  }

  lemma BytesFacts(s: State, e: Event)
    requires Inv(s) && e.OnFrameBytes?
    ensures var t := FrameBytes(s, e.index, e.stream, e.bytes, e.now);
            Shaped(t) && KeepsCooldown(s, e, t) && SamplesClosed(s, e, t)
  {
    var t := FrameBytes(s, e.index, e.stream, e.bytes, e.now);
    BytesCollect(s, e.index, e.stream, e.bytes, e.now);
    forall p | p in t.frames.window && p !in s.frames.window
      ensures ClosedBy(s, e, t) == Some(p.frame) && p.frame >= s.frames.staleBefore
    {
      CollectingSamples(s, t, e.index, p);
    }
  }

  lemma WifiFacts(s: State, e: Event)
    requires Inv(s) && e.OnWifiState?
    ensures var t := Wifi(s, e.rssi, e.link, e.now);
            Shaped(t) && KeepsCooldown(s, e, t) && SamplesClosed(s, e, t)
  {
    RadioDecides(s, e.rssi, e.link, e.now);
    DecisionSamples(s, Wifi(s, e.rssi, e.link, e.now), e.now);
  }

  lemma StepFacts(s: State, e: Event)
    requires Inv(s)
    ensures Facts(s, e, Step(s, e))
  {
    StepKeepsInv(s, e);
    if !Restarts(s, e) { StepAdvances(s, e); }
    if e.OnFeedback? { FeedbackFacts(s, e); }
    else if e.OnFrameBytes? { BytesFacts(s, e); }
    else if e.OnWifiState? { WifiFacts(s, e); }
  }

  lemma InitialInv()
    ensures Inv(Initial())
  {
    forall k | 0 <= k < RING ensures SlotOk(Initial().frames, k) { assert Initial().frames.ring[k] == NO_FRAME; }
  }

  lemma TakingKeepsInv(states: seq<State>, events: seq<Event>, k: nat)
    requires k < |events| && |states| == |events| + 1 && Inv(states[k]) && Takes(states, events, k)
    ensures Inv(states[k + 1])
  {
    StepKeepsInv(states[k], events[k]);
  }

  lemma {:induction false} RunInv(states: seq<State>, events: seq<Event>, n: nat)
    requires IsRun(states, events) && n <= |events|
    ensures forall k :: 0 <= k <= n ==> Inv(states[k])
  {
    if n == 0 {
      InitialInv();
    } else {
      RunInv(states, events, n - 1);
      TakingKeepsInv(states, events, n - 1);
    }
  }

  lemma RunFacts(states: seq<State>, events: seq<Event>, k: nat)
    requires IsRun(states, events) && k < |events|
    ensures forall m :: 0 <= m <= k ==> Facts(states[m], events[m], states[m + 1])
  {
    RunInv(states, events, k);
    forall m | 0 <= m <= k ensures Facts(states[m], events[m], states[m + 1]) {
      assert Takes(states, events, m);
      StepFacts(states[m], events[m]);
    }
  }

  // --- Bounds -----------------------------------------------------------------------

  // Once a ceiling is set, the bitrate and the recovery target stay between floor and
  // ceiling through every run; a recovering controller is below its target.
  lemma EveryRunStaysInBounds(states: seq<State>, events: seq<Event>, n: nat)
    requires IsRun(states, events) && n <= |events|
    ensures var r := states[n].rate;
            && (r.ceiling != 0 ==> r.floor <= r.bitrate <= r.ceiling && r.floor <= r.target <= r.ceiling)
            && (r.ceiling == 0 ==> r.bitrate == 0 && r.target == 0 && !r.recovering)
            && (r.recovering ==> r.bitrate < r.target)
            && (r.floor <= r.bitrate <= r.ceiling <==> r.ceiling != 0 || r.floor == 0)
  {
    RunInv(states, events, n);
  }

  // With no ceiling there is nothing to control: the bitrate is zero, under the floor.
  lemma FloorNeedsACeiling()
    ensures var r := Step(Initial(), Configure(Config(true, 10_000_000, Aimd), 0, true, true, None)).rate;
            r.bitrate < r.floor
  {
  }

  lemma RadioNeverRaises(states: seq<State>, events: seq<Event>, i: nat)
    requires IsRun(states, events) && i < |events| && events[i].OnWifiState?
    ensures states[i + 1].rate.bitrate <= states[i].rate.bitrate
  {
    RunFacts(states, events, i);
  }

  // --- The frame ring -------------------------------------------------------------------

  // Slots and marks only grow between two states.
  ghost predicate Grown(f: Frames, g: Frames) {
    && |f.ring| == RING == |g.ring|
    && (forall k :: 0 <= k < RING && f.ring[k].index.Some? ==>
          g.ring[k].index.Some? && g.ring[k].index.value >= f.ring[k].index.value)
    && (f.any ==> g.any && g.newest >= f.newest)
    && g.staleBefore >= f.staleBefore
  }

  lemma {:induction false} RunGrows(states: seq<State>, events: seq<Event>, i: nat, j: nat)
    requires IsRun(states, events) && i <= j <= |events| && Unbroken(states, events, i, j)
    ensures forall m :: i <= m <= j ==> Grown(states[i].frames, states[m].frames)
    decreases j - i
  {
    if i == j {
      RunInv(states, events, i);
    } else {
      RunGrows(states, events, i, j - 1);
      RunFacts(states, events, j - 1);
      assert !Restarts(states[j - 1], events[j - 1]);
    }
  }

  // Slots hold indices congruent to their position and only ever move to larger ones.
  lemma SlotsOnlyGrow(states: seq<State>, events: seq<Event>, i: nat, j: nat, k: nat)
    requires IsRun(states, events) && i <= j <= |events| && Unbroken(states, events, i, j)
    requires k < RING && |states[i].frames.ring| == RING && states[i].frames.ring[k].index.Some?
    ensures |states[j].frames.ring| == RING
            && var before, after := states[i].frames.ring[k].index, states[j].frames.ring[k].index;
            && after.Some?
            && after.value >= before.value
            && after.value % RING == k == before.value % RING
  {
    RunGrows(states, events, i, j);
    RunInv(states, events, i);
    RunInv(states, events, j);
    assert SlotOk(states[i].frames, k) && SlotOk(states[j].frames, k);
  }

  lemma ClosedIsReplaced(s: State, e: Event, t: State)
    requires Inv(s) && Inv(t) && Grown(s.frames, t.frames) && ClosedBy(s, e, t).Some?
    ensures var c := ClosedBy(s, e, t).value;
            && s.frames.ring[c % RING].index == Some(c)
            && Replaced(t.frames, c)
  {
    var k := (if e.OnFrameBytes? then e.index else e.report.frame) % RING;
    assert SlotOk(s.frames, k);
  }

  // Between restarts a frame leaves the ring, and so becomes a sample, at most once.
  lemma OneSamplePerFrame(states: seq<State>, events: seq<Event>, i: nat, j: nat)
    requires IsRun(states, events) && i < j < |events| && Unbroken(states, events, i, j + 1)
    requires ClosedBy(states[i], events[i], states[i + 1]).Some?
    ensures ClosedBy(states[j], events[j], states[j + 1]) != ClosedBy(states[i], events[i], states[i + 1])
  {
    var c := ClosedBy(states[i], events[i], states[i + 1]).value;
    RunFacts(states, events, i);
    RunFacts(states, events, j);
    RunGrows(states, events, i, i + 1);
    ClosedIsReplaced(states[i], events[i], states[i + 1]);
    assert Replaced(states[i + 1].frames, c);
    RunGrows(states, events, i + 1, j);
    RunGrows(states, events, j, j + 1);
    if ClosedBy(states[j], events[j], states[j + 1]).Some? { ClosedIsReplaced(states[j], events[j], states[j + 1]); }
  }

  // Nothing enters the decision window but the frame that left the ring, if it is fresh.
  lemma OnlyClosedFramesAreSampled(states: seq<State>, events: seq<Event>, i: nat, p: Sample)
    requires IsRun(states, events) && i < |events| && p in states[i + 1].frames.window && p !in states[i].frames.window
    ensures ClosedBy(states[i], events[i], states[i + 1]) == Some(p.frame)
    ensures p.frame >= states[i].frames.staleBefore
  {
    RunFacts(states, events, i);
  }

  // The window never holds two samples of one frame.
  lemma WindowHasDistinctFrames(states: seq<State>, events: seq<Event>, n: nat, a: nat, b: nat)
    requires IsRun(states, events) && n <= |events| && a < b < |states[n].frames.window|
    ensures states[n].frames.window[a].frame != states[n].frames.window[b].frame
  {
    RunInv(states, events, n);
  }

  // Every sample in the decision window is of a frame newer than all frames known when
  // the bitrate last changed.
  lemma WindowFollowsLastChange(states: seq<State>, events: seq<Event>, i: nat, j: nat)
    requires IsRun(states, events) && i < j <= |events| && Unbroken(states, events, i, j)
    requires states[i + 1].rate.bitrate != states[i].rate.bitrate && states[i + 1].frames.any
    ensures forall p :: p in states[j].frames.window ==> p.frame > states[i + 1].frames.newest
  {
    assert !Restarts(states[i], events[i]);
    RunFacts(states, events, i);
    RunGrows(states, events, i + 1, j);
    RunInv(states, events, j);
  }

  // In terms of the reports themselves: no sample is of a frame that had been reported,
  // or of one older than such a frame, when the bitrate changed.
  lemma NoSampleFromBeforeTheChange(states: seq<State>, events: seq<Event>, h: nat, i: nat, j: nat)
    requires IsRun(states, events) && h <= i < j <= |events| && Unbroken(states, events, h, j)
    requires ActsOn(states[h], events[h]) && states[i + 1].rate.bitrate != states[i].rate.bitrate
    ensures forall p :: p in states[j].frames.window ==> p.frame > events[h].report.frame
  {
    RunFacts(states, events, h);
    RunGrows(states, events, h + 1, i + 1);
    WindowFollowsLastChange(states, events, i, j);
  }

  // --- The cooldown -------------------------------------------------------------------------

  lemma {:induction false} LastDecreaseOnlyRises(states: seq<State>, events: seq<Event>, i: nat, j: nat)
    requires IsRun(states, events) && i <= j <= |events|
    ensures states[i].rate.lastDecrease <= states[j].rate.lastDecrease
    decreases j - i
  {
    if i < j {
      LastDecreaseOnlyRises(states, events, i, j - 1);
      RunFacts(states, events, j - 1);
    }
  }

  // Step k lowers the bitrate on a measurement, or is a backoff of the second law, which
  // restarts the cooldown. The second law following its estimate down is neither.
  ghost predicate Eases(states: seq<State>, events: seq<Event>, k: nat)
    requires |states| == |events| + 1 && k < |events|
  {
    || MeasuredDecrease(states[k], events[k], states[k + 1])
    || states[k + 1].rate.lastDecrease != states[k].rate.lastDecrease
  }

  // Any two such steps of a run are a cooldown apart, restarts in between or not.
  lemma DecreasesAreSpaced(states: seq<State>, events: seq<Event>, i: nat, j: nat)
    requires IsRun(states, events) && i < j < |events| && Eases(states, events, i) && Eases(states, events, j)
    ensures (events[i].OnFeedback? || events[i].OnWifiState?) && (events[j].OnFeedback? || events[j].OnWifiState?)
    ensures events[j].now - events[i].now >= COOLDOWN
  {
    RunFacts(states, events, i);
    RunFacts(states, events, j);
    LastDecreaseOnlyRises(states, events, i + 1, j);
  }

  // --- Recovery ------------------------------------------------------------------------------

  // b doubled n times.
  function Doubled(b: nat, n: nat): nat { if n == 0 then b else 2 * Doubled(b, n - 1) }

  // The rate after n uninterrupted rebound steps.
  function Rebounds(r: Rate, n: nat): Rate { if n == 0 then r else Rebounded(Rebounds(r, n - 1)) }

  ghost predicate Recovering(r: Rate) { r.recovering && r.floor <= r.bitrate < r.target <= r.ceiling }

  lemma {:induction false} DoublingGrows(b: nat, n: nat)
    ensures b == 0 ==> Doubled(b, n) == 0
    ensures b > 0 ==> Doubled(b, n) >= n + 1
    ensures Doubled(b, n) >= b
  {
    if n > 0 { DoublingGrows(b, n - 1); }
  }

  // n rebound steps double the bitrate n times, up to the target and no further.
  lemma {:induction false} ReboundsDouble(r: Rate, n: nat)
    requires Recovering(r)
    ensures Rebounds(r, n).bitrate == Min(r.target, Doubled(r.bitrate, n))
    ensures Rebounds(r, n).target == r.target
    ensures Rebounds(r, n).ceiling == r.ceiling
    ensures Rebounds(r, n).floor == r.floor
    ensures Rebounds(r, n).recovering <==> Doubled(r.bitrate, n) < r.target
  {
    if n > 0 {
      ReboundsDouble(r, n - 1);
      DoublingGrows(r.bitrate, n - 1);
    }
  }

  // Recovery ends after as many doublings as separate the bitrate from its target, and
  // not before; it ends at all exactly when the bitrate is not zero.
  lemma RecoveryEndsExactly(r: Rate)
    requires Recovering(r)
    ensures forall n: nat :: !Rebounds(r, n).recovering <==> Doubled(r.bitrate, n) >= r.target
    ensures (exists n: nat :: !Rebounds(r, n).recovering) <==> r.bitrate > 0
  {
    forall n: nat ensures !Rebounds(r, n).recovering <==> Doubled(r.bitrate, n) >= r.target {
      ReboundsDouble(r, n);
    }
    forall n: nat ensures r.bitrate == 0 ==> Doubled(r.bitrate, n) == 0 { DoublingGrows(r.bitrate, n); }
    if r.bitrate > 0 {
      DoublingGrows(r.bitrate, r.target);
      assert !Rebounds(r, r.target).recovering;
    }
  }
}
