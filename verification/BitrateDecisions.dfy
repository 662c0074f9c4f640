/**
  When the bitrate controller moves the bitrate on a report
  (helper/src/wivrn/bitrate_controller.cpp): over every run, exactly when the first law
  lowers and raises it, and where a backoff of the second law leaves it.
 */
module BitrateDecisions {
  import opened Prelude
  import opened BitrateLaw
  import opened BitrateSafety
  import opened BitrateRuns

  // What the window says when a report has been joined in.
  ghost function Judgement(s: State, e: Event): Stats {
    if Shaped(s) && e.OnFeedback?
    then Statistics(Recent(Collected(s, e.report, e.period, e.now).frames.window, e.now))
    else Statistics([])
  }

  // A report on which the controller decides: it is acted on, an evaluation is due, and the
  // window holds enough samples.
  ghost predicate Judged(s: State, e: Event) {
    && ActsOn(s, e) && !TooOld(s, e.report.frame)
    && e.now - s.rate.lastEvaluation >= EVALUATION_INTERVAL
    && Judgement(s, e).count >= MIN_SAMPLES
  }

  // The radio's hold, unless it is too old to count.
  ghost predicate StillHeld(s: State, now: int) { s.radio.hold && now - s.radio.lastSample <= RADIO_MAX_AGE }

  // The bandwidth a state estimates.
  ghost function EstimateOf(s: State): real { if Shaped(s) then Bandwidth(s.est) else 0.0 }

  // The state the decision is made on.
  ghost function Before(s: State, e: Event): State
    requires Shaped(s) && e.OnFeedback?
  {
    var c := Collected(s, e.report, e.period, e.now);
    c.(rate := s.rate.(lastEvaluation := e.now), radio := s.radio.(hold := StillHeld(s, e.now)),
       frames := c.frames.(window := Recent(c.frames.window, e.now)))
  }

  lemma CollectingLeavesTheRest(s: State, r: Report, period: int, now: int)
    requires Shaped(s)
    ensures var c := Collected(s, r, period, now);
            Shaped(c) && (c.rate, c.radio, c.switches) == (s.rate, s.radio, s.switches)
  {
  }

  // A report moves the bitrate by a decision on that state, or not at all.
  lemma ReportDecides(s: State, e: Event)
    requires Shaped(s) && e.OnFeedback?
    ensures Shaped(Before(s, e)) && ModeOf(Before(s, e).switches) == ModeOf(s.switches)
    ensures Judged(s, e) ==> Step(s, e) == Decided(Before(s, e), Judgement(s, e), e.now)
    ensures !Judged(s, e) ==> var r := Step(s, e).rate; r.(lastEvaluation := s.rate.lastEvaluation) == s.rate
  {
    CollectingLeavesTheRest(s, e.report, e.period, e.now);
  }

  // --- The first law --------------------------------------------------------------------

  // Degraded, the cooldown over, and room above the floor.
  ghost predicate ShouldLower(s: State, t: Stats, now: int) {
    Degraded(t) && now - s.rate.lastDecrease >= COOLDOWN && s.rate.bitrate > s.rate.floor
  }

  // Healthy for long enough: for the next rebound while recovering, otherwise for an
  // increase that neither the radio nor the ceiling stands against.
  ghost predicate ShouldRaise(s: State, t: Stats, now: int) {
    var held := now - Since(s.rate, now);
    && Healthy(t)
    && if s.rate.recovering
       then held >= (if s.rate.firstStep then RECOVERY_CONFIRM else RECOVERY_STEP_INTERVAL) && s.rate.bitrate > 0
       else held >= INCREASE_HOLD && !StillHeld(s, now) && s.rate.bitrate < s.rate.ceiling
  }

  lemma DecisionMoves(s: State, b: State, t: Stats, now: int)
    requires Inv(s) && s.rate.ceiling != 0 && b.rate == s.rate.(lastEvaluation := now)
    requires b.radio.hold == StillHeld(s, now)
    ensures var r := EvaluatedAimd(b, t, now).rate;
            && (r.bitrate < s.rate.bitrate <==> ShouldLower(s, t, now))
            && (r.bitrate > s.rate.bitrate <==> ShouldRaise(s, t, now))
  {
  }

  // In every run, at every report under the first law: the bitrate goes down exactly when
  // the decision is due on a degraded window, cooled down and above the floor, and up
  // exactly when it is due on a window healthy for long enough.
  lemma FirstLawMovesExactly(states: seq<State>, events: seq<Event>, k: nat)
    requires IsRun(states, events) && k < |events| && events[k].OnFeedback? && ModeOf(states[k].switches) == Aimd
    ensures states[k + 1].rate.bitrate < states[k].rate.bitrate <==>
              Judged(states[k], events[k]) && ShouldLower(states[k], Judgement(states[k], events[k]), events[k].now)
    ensures states[k + 1].rate.bitrate > states[k].rate.bitrate <==>
              Judged(states[k], events[k]) && ShouldRaise(states[k], Judgement(states[k], events[k]), events[k].now)
  {
    RunInv(states, events, k);
    assert Takes(states, events, k);
    var s, e := states[k], events[k];
    ReportDecides(s, e);
    if Judged(s, e) { DecisionMoves(s, Before(s, e), Judgement(s, e), e.now); }
  }

  lemma LoweringDecides(b: State, t: Stats, now: int)
    requires EvaluatedAimd(b, t, now).rate.bitrate < b.rate.bitrate && Degraded(t)
    ensures var r := EvaluatedAimd(b, t, now).rate;
            r == Lowered(b.rate, Severe(t), now).(healthySince := None, lastEvaluation := 0)
  {
  }

  lemma LoweringRecovers(r: Rate, severe: bool, now: int)
    requires r.floor <= r.bitrate <= r.ceiling && Lowered(r, severe, now).bitrate < r.bitrate
    requires r.recovering ==> r.floor <= r.target <= r.ceiling
    ensures var q := Lowered(r, severe, now);
            if r.recovering then q.target <= r.target
            else (q.recovering <==> severe) && (q.recovering ==> q.target == r.bitrate)
  {
  }

  // A severe window above the floor starts a recovery towards where the bitrate was; a
  // further decrease while recovering brings the target down too.
  lemma SevereStartsRecovery(states: seq<State>, events: seq<Event>, k: nat)
    requires IsRun(states, events) && k < |events| && events[k].OnFeedback? && ModeOf(states[k].switches) == Aimd
    requires states[k + 1].rate.bitrate < states[k].rate.bitrate
    ensures var s, r := states[k].rate, states[k + 1].rate;
            if s.recovering then r.target <= s.target
            else (r.recovering <==> Severe(Judgement(states[k], events[k]))) && (r.recovering ==> r.target == s.bitrate)
  {
    FirstLawMovesExactly(states, events, k);
    RunInv(states, events, k);
    assert Takes(states, events, k);
    var s, e := states[k], events[k];
    ReportDecides(s, e);
    LoweringDecides(Before(s, e), Judgement(s, e), e.now);
    LoweringRecovers(Before(s, e).rate, Severe(Judgement(s, e)), e.now);
  }

  // --- The second law -------------------------------------------------------------------

  lemma BackoffCaps(s: State, t: Stats, now: int)
    requires Shaped(s) && s.rate.ceiling != 0 && t.rate > 0.0 && s.rate.floor <= s.rate.ceiling
    requires now - s.rate.lastDecrease >= COOLDOWN
    ensures var b := BackedOff(s, t, now);
            && EstimateOf(b) <= t.rate
            && (b.rate.bitrate == s.rate.floor || b.rate.bitrate as real <= 0.70 * t.rate)
  {
    var b := BackedOff(s, t, now);
    assert Bandwidth(b.est) <= t.rate;
    assert 0.70 * Bandwidth(b.est) <= 0.70 * t.rate;
  }

  lemma BbrBacksOff(s: State, t: Stats, now: int)
    requires Shaped(s) && s.rate.ceiling != 0 && s.rate.floor <= s.rate.ceiling && t.rate > 0.0
    requires EvaluatedBbr(s, t, now).rate.lastDecrease != s.rate.lastDecrease
    ensures var b := EvaluatedBbr(s, t, now);
            && EstimateOf(b) <= t.rate
            && (b.rate.bitrate == s.rate.floor || b.rate.bitrate as real <= 0.70 * t.rate)
  {
    var a := s.(est := Aged(s.est, now));
    var e := if a.est.samples < ESTIMATOR_MIN_SAMPLES then a.(est := Seeded(a, now)) else a;
    assert EvaluatedBbr(s, t, now) == BackedOff(e, t, now);
    BackoffCaps(e, t, now);
  }

  // A decision of the second law that moves the time of the last decrease is a backoff.
  lemma JudgedBacksOff(b: State, t: Stats, now: int)
    requires Shaped(b) && ModeOf(b.switches) == Bbr && b.rate.ceiling != 0 && b.rate.floor <= b.rate.ceiling
    requires t.count >= MIN_SAMPLES && t.rate > 0.0
    requires Decided(b, t, now).rate.lastDecrease != b.rate.lastDecrease
    ensures var d := Decided(b, t, now);
            && d.rate.floor == b.rate.floor && EstimateOf(d) <= t.rate
            && (d.rate.bitrate == b.rate.floor || d.rate.bitrate as real <= 0.70 * t.rate)
  {
    BbrBacksOff(b, t, now);
  }

  // In every run: a report on which the second law backs off leaves the estimate at most
  // the rate the window measured, and the bitrate at most seven tenths of it, short of
  // the floor.
  lemma BackoffFollowsTheLink(states: seq<State>, events: seq<Event>, k: nat)
    requires IsRun(states, events) && k < |events| && events[k].OnFeedback? && ModeOf(states[k].switches) == Bbr
    requires states[k + 1].rate.lastDecrease != states[k].rate.lastDecrease
    ensures var t, r := Judgement(states[k], events[k]), states[k + 1].rate;
            t.rate > 0.0 ==>
              EstimateOf(states[k + 1]) <= t.rate && (r.bitrate == r.floor || r.bitrate as real <= 0.70 * t.rate)
  {
    RunInv(states, events, k + 1);
    assert Takes(states, events, k);
    var s, e := states[k], events[k];
    ReportDecides(s, e);
    assert Judged(s, e);
    if Judgement(s, e).rate > 0.0 { JudgedBacksOff(Before(s, e), Judgement(s, e), e.now); }
  }
}
