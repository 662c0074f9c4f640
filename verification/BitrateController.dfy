/**
  The adaptive bitrate controller as the object the session drives
  (helper/src/wivrn/bitrate_controller.cpp): its state, grouped into records, its frame
  ring as an array, and its methods proved to take exactly the steps whose runs are
  studied in BitrateRuns.
 */
module BitrateController {
  import opened Prelude
  import opened BitrateLaw
  import Filters = MaxFilter

  // What a measuring call returns: the bitrate to apply, when it moved.
  function Change(before: nat, after: nat): Option<nat> { if after == before then None else Some(after) }

  class Controller {
    var switches: Switches
    var rate: Rate
    const ring: array<Frame>
    var newest: nat
    var any: bool
    var staleBefore: nat
    var period: int
    var window: seq<Sample>
    var est: Estimator
    var radio: Radio

    ghost predicate Valid()
      reads this
    {
      ring.Length == RING && Filters.Shaped(est.bandwidth)
    }

    ghost function View(): (s: State)
      requires Valid()
      reads this, ring
      ensures Shaped(s)
    {
      State(switches, rate, Frames(ring[..], newest, any, staleBefore, period, window), est, radio)
    }

    constructor ()
      ensures Valid() && fresh(ring) && View() == Initial()
    {
      switches := Switches(Config(true, 10_000_000, Aimd), true, None, true, 0.0);
      rate := Rate(0, 0, 0, 0, false, true, None, 0, 0);
      ring := new Frame[RING](_ => NO_FRAME);
      newest, any, staleBefore, period, window := 0, false, 0, 0, [];
      est := NO_ESTIMATE;
      radio := NO_RADIO;
      new;
      assert ring[..] == EmptyRing();
    }

    // --- Starting over ---------------------------------------------------------------

    method Flush()
      requires Valid()
      modifies `rate, `window, `staleBefore
      ensures Valid() && View() == Flushed(old(View()))
    {
      window := [];
      rate := rate.(healthySince := None);
      rate := rate.(lastEvaluation := 0);
      if any { staleBefore := newest + 1; }
    }

    // Forget every frame of the ring.
    method ClearFrames()
      requires Valid()
      modifies ring, `any, `staleBefore
      ensures Valid() && ring[..] == EmptyRing() && !any && staleBefore == 0
    {
      for k := 0 to RING
        invariant forall i :: 0 <= i < k ==> ring[i] == NO_FRAME
      {
        ring[k] := NO_FRAME;
      }
      any := false;
      staleBefore := 0;
      assert ring[..] == EmptyRing();
    }

    method Configure(c: Config, ceiling: nat, clientOn: bool, radioOn: bool, clientMode: Option<Mode>)
      requires Valid()
      modifies this, ring
      ensures Valid() && View() == Step(old(View()), Event.Configure(c, ceiling, clientOn, radioOn, clientMode))
    {
      switches := Switches(c, clientOn, clientMode, radioOn, switches.pacing);
      rate := rate.(ceiling := ceiling, floor := Min(c.floor, if ceiling != 0 then ceiling else c.floor));
      rate := rate.(bitrate := ceiling, target := ceiling, recovering := false, firstStep := true);
      ClearFrames();
      Flush();
      radio := NO_RADIO;
      est := NO_ESTIMATE;
    }

    method ResetLocked() returns (r: Option<nat>)
      requires Valid()
      modifies this, ring
      ensures Valid() && View() == StartedOver(old(View()))
      ensures r == if rate.ceiling == 0 then None else Some(rate.ceiling)
    {
      if rate.ceiling == 0 { return None; }
      rate := rate.(bitrate := rate.ceiling);
      rate := rate.(target := rate.bitrate, recovering := false, firstStep := true);
      ClearFrames();
      Flush();
      est := NO_ESTIMATE;
      radio := radio.(hold := false, stableSince := None, lastStep := 0);
      r := Some(rate.bitrate);
    }

    method Reset() returns (r: Option<nat>)
      requires Valid()
      modifies this, ring
      ensures Valid() && View() == Step(old(View()), Event.Reset)
      ensures r == if rate.ceiling == 0 then None else Some(rate.ceiling)
    {
      r := ResetLocked();
    }

    method SetClientMode(m: Option<Mode>) returns (r: Option<nat>)
      requires Valid()
      modifies this, ring
      ensures Valid() && View() == Step(old(View()), Event.SetClientMode(m))
      ensures r == if Restarts(old(View()), Event.SetClientMode(m)) then Some(rate.ceiling) else None
    {
      if m == switches.clientMode { return None; }
      var before := ModeOf(switches);
      switches := switches.(clientMode := m);
      if before == ModeOf(switches) { return None; }
      r := ResetLocked();
    }

    method SetPacingWindow(fraction: real)
      requires Valid()
      modifies `switches
      ensures Valid() && View() == Step(old(View()), Event.SetPacingWindow(fraction))
    {
      switches := switches.(pacing := if fraction < 0.0 then 0.0 else if fraction > 1.0 then 1.0 else fraction);
    }

    method SetClientEnabled(on: bool) returns (r: Option<nat>)
      requires Valid()
      modifies this, ring
      ensures Valid() && View() == Step(old(View()), Event.SetClientEnabled(on))
      ensures r == if Restarts(old(View()), Event.SetClientEnabled(on)) then Some(rate.ceiling) else None
    {
      if on == switches.clientEnabled { return None; }
      switches := switches.(clientEnabled := on);
      r := ResetLocked();
    }

    method SetRadioAware(on: bool)
      requires Valid()
      modifies `switches, `radio
      ensures Valid() && View() == Step(old(View()), Event.SetRadioAware(on))
    {
      if on == switches.radioAware { return; }
      switches := switches.(radioAware := on);
      radio := NO_RADIO;
    }

    method SetCeiling(bps: nat) returns (r: Option<nat>)
      requires Valid()
      modifies this, ring
      ensures Valid() && View() == Step(old(View()), Event.SetCeiling(bps))
      ensures r == if Restarts(old(View()), Event.SetCeiling(bps)) then Some(bps) else None
    {
      if bps == 0 || bps == rate.ceiling { return None; }
      rate := rate.(ceiling := bps, floor := Min(switches.conf.floor, bps));
      r := ResetLocked();
    }

    // --- The frame ring ------------------------------------------------------------------

    // Turns the frame in slot k into a sample, if it is one, and empties the slot.
    method CloseFrame(k: nat, now: int)
      requires Valid() && k < RING
      modifies `window, `est, ring
      ensures Valid() && ring[..] == old(ring[..])[k := NO_FRAME]
      ensures var c := Closed(old(View()), old(ring[k]), now); window == c.frames.window && est == c.est
    {
      var frame := ring[k];
      if frame.index.Some? {
        var recent := frame.index.value >= staleBefore;
        if frame.lost {
          if recent { window := window + [Sample(frame.index.value, now, 0.0, true, frame.late, 0.0)]; }
        } else if frame.valid && frame.first != 0 && frame.last >= frame.first && period > 0 {
          var wire := frame.last - frame.first;
          var measured := 0.0;
          var fraction := if switches.pacing > 0.0 then 0.30 * switches.pacing else 0.10;
          if ModeOf(switches) == Bbr && wire > 0 && frame.bytes != 0 && wire >= (fraction * period as real).Floor {
            measured := 8.0 * 1_000_000_000.0 * frame.bytes as real / wire as real;
            est := est.(bandwidth := Filters.Updated(est.bandwidth, measured, now, ESTIMATOR_WINDOW),
                        samples := est.samples + 1, lastSample := now);
          }
          if recent {
            window := window + [Sample(frame.index.value, now, wire as real / period as real, false, frame.late,
                                       measured)];
          }
        }
      }
      ring[k] := NO_FRAME;
    }

    // The slot of a frame, holding that frame and no other.
    method OpenFrame(index: nat, now: int)
      requires Valid()
      modifies `newest, `any, `window, `est, ring
      ensures Valid() && View() == Opened(Noticed(old(View()), index), index, now)
    {
      if !any || index > newest {
        newest := index;
        any := true;
      }
      var k := index % RING;
      if ring[k].index != Some(index) {
        ghost var before := ring[..];
        CloseFrame(k, now);
        ring[k] := ring[k].(index := Some(index));
        assert ring[..] == before[k := NO_FRAME.(index := Some(index))];
      }
    }

    method OnFrameBytes(index: nat, stream: nat, bytes: nat, now: int)
      requires Valid()
      modifies this, ring
      ensures Valid() && View() == Step(old(View()), Event.OnFrameBytes(index, stream, bytes, now))
    {
      if ModeOf(switches) != Bbr || !switches.conf.enabled || !switches.clientEnabled || rate.ceiling == 0 { return; }
      if stream >= STREAMS || bytes == 0 { return; }
      if any && index <= newest && index + RING <= newest { return; }
      OpenFrame(index, now);
      ghost var o := ring[..];
      var k := index % RING;
      ring[k] := ring[k].(bytes := ring[k].bytes + bytes);
      assert ring[..] == o[k := o[k].(bytes := o[k].bytes + bytes)];
    }

    method OnFeedback(report: Report, period': int, streaming: bool, now: int) returns (r: Option<nat>)
      requires Valid()
      modifies this, ring
      ensures Valid() && View() == Step(old(View()), Event.OnFeedback(report, period', streaming, now))
      ensures r == Change(old(rate.bitrate), rate.bitrate)
    {
      if !switches.conf.enabled || !switches.clientEnabled || !streaming || rate.ceiling == 0
         || period' <= 0 {
        return None;
      }
      if report.stream >= STREAMS { return None; }
      period := period';
      if any && report.frame <= newest && report.frame + RING <= newest { return None; }
      OpenFrame(report.frame, now);
      MergeReport(report);
      r := Evaluate(now);
    }

    // Joins one stream's report into the frame its slot is collecting.
    method MergeReport(report: Report)
      requires Valid()
      modifies ring
      ensures Valid() && View() == Put(old(View()), report.frame, Merged(old(ring[report.frame % RING]), report))
    {
      ghost var o := ring[..];
      var k := report.frame % RING;
      if !report.sentToDecoder {
        ring[k] := ring[k].(lost := true);
      } else {
        if report.first != 0 {
          ring[k] := ring[k].(first := if ring[k].first != 0 then Min(ring[k].first, report.first) else report.first);
        }
        if report.last != 0 {
          ring[k] := ring[k].(last := Max(ring[k].last, report.last));
        }
        ring[k] := ring[k].(valid := true);
      }
      if report.fromDecoder && !report.blitted && report.timesDisplayed == 0 {
        ring[k] := ring[k].(late := true);
      }
      assert ring[..] == o[k := Merged(o[k], report)];
    }

    // --- Decisions --------------------------------------------------------------------------

    method Evaluate(now: int) returns (r: Option<nat>)
      requires Valid()
      modifies `rate, `window, `staleBefore, `est, `radio
      ensures Valid() && View() == Evaluated(old(View()), now)
      ensures r == Change(old(rate.bitrate), rate.bitrate)
    {
      if now - rate.lastEvaluation < EVALUATION_INTERVAL { return None; }
      rate := rate.(lastEvaluation := now);
      if radio.hold && now - radio.lastSample > RADIO_MAX_AGE { radio := radio.(hold := false); }
      var t := Analyse(now);
      ghost var e := View();
      if t.count < MIN_SAMPLES { return None; }
      if ModeOf(switches) == Bbr { r := EvaluateBbr(t, now); } else { r := EvaluateAimd(t, now); }
      assert View() == Decided(e, t, now);
    }

    method Analyse(now: int) returns (t: Stats)
      requires Valid()
      modifies `window
      ensures Valid() && window == Recent(old(window), now) && t == Statistics(window)
    {
      while window != [] && now - window[0].when > WINDOW
        invariant Recent(window, now) == Recent(old(window), now)
        decreases |window|
      {
        window := window[1..];
      }
      var utilisations, rates: seq<real> := [], [];
      var lost, late := 0, 0;
      for i := 0 to |window|
        invariant utilisations == Utilisations(window[..i]) && rates == Rates(window[..i])
        invariant lost == Lost(window[..i]) && late == Late(window[..i])
      {
        assert window[..i + 1][..i] == window[..i];
        if window[i].lost { lost := lost + 1; } else { utilisations := utilisations + [window[i].utilisation]; }
        if window[i].late { late := late + 1; }
        if window[i].rate > 0.0 { rates := rates + [window[i].rate]; }
      }
      assert window[..|window|] == window;
      var u := Percentile(utilisations);
      t := Stats(if lost != 0 then MaxReal(u, UTILISATION_SEVERE) else u, lost, late, |window|, Percentile(rates));
    }

    method EvaluateAimd(t: Stats, now: int) returns (r: Option<nat>)
      requires Valid()
      modifies `rate, `window, `staleBefore, `radio
      ensures Valid() && View() == EvaluatedAimd(old(View()), t, now)
      ensures r == Change(old(rate.bitrate), rate.bitrate)
    {
      var previous := rate.bitrate;
      if Degraded(t) {
        rate := rate.(healthySince := None);
        if now - rate.lastDecrease < COOLDOWN { return None; }
        LowerRate(Severe(t), now);
        if Severe(t) { radio := radio.(hold := false); }
      } else if Healthy(t) {
        if rate.healthySince.None? { rate := rate.(healthySince := Some(now)); }
        var held := now - rate.healthySince.value;
        if rate.recovering {
          if held < (if rate.firstStep then RECOVERY_CONFIRM else RECOVERY_STEP_INTERVAL) { return None; }
        } else {
          if radio.hold || held < INCREASE_HOLD || rate.bitrate >= rate.ceiling { return None; }
        }
        RaiseRate();
      } else {
        rate := rate.(healthySince := None);
        return None;
      }
      Flush();
      r := Change(previous, rate.bitrate);
    }

    method LowerRate(severe: bool, now: int)
      requires Valid()
      modifies `rate
      ensures Valid() && rate == Lowered(old(rate), severe, now)
    {
      var r := rate.(lastDecrease := now);
      if r.recovering { r := r.(target := Clamp(r, r.target * 3 / 4)); }
      if severe {
        if !r.recovering { r := r.(target := r.bitrate); }
        r := r.(bitrate := Clamp(r, r.bitrate * 4 / 10), recovering := true, firstStep := true);
      } else {
        r := r.(bitrate := Clamp(r, r.bitrate * 7 / 10));
      }
      if r.recovering && r.target <= r.bitrate { r := r.(recovering := false); }
      rate := r;
    }

    method RaiseRate()
      requires Valid()
      modifies `rate
      ensures Valid() && rate == if old(rate.recovering) then Rebounded(old(rate)) else Increased(old(rate))
    {
      if rate.recovering {
        rate := rate.(bitrate := Min(rate.target, Clamp(rate, rate.bitrate * 2)), firstStep := false);
        if rate.bitrate >= rate.target { rate := rate.(recovering := false); }
      } else {
        rate := rate.(bitrate := Clamp(rate, rate.bitrate + IncreaseStep(rate)));
        rate := rate.(target := rate.bitrate);
      }
    }

    method EvaluateBbr(t: Stats, now: int) returns (r: Option<nat>)
      requires Valid()
      modifies `rate, `window, `staleBefore, `est
      ensures Valid() && View() == EvaluatedBbr(old(View()), t, now)
      ensures r == Change(old(rate.bitrate), rate.bitrate)
    {
      if est.lastChange != 0 && now - est.lastChange < SETTLE { return None; }
      var slowdown := if est.bandwidth.count != 0 && t.rate > 0.0 then Bandwidth(est) / t.rate else 1.0;
      var overshooting := est.phase == Probe;
      var acute := t.lost >= LOST_DECREASE || t.late >= LATE_DECREASE
                   || (!overshooting && (t.utilisation > UTILISATION_SEVERE
                                         || (est.phase != Startup && slowdown > 1.60)));
      if est.samples != 0 && now - est.lastSample > ESTIMATOR_WINDOW {
        est := est.(bandwidth := Filters.EMPTY, samples := 0);
      }
      if est.samples < ESTIMATOR_MIN_SAMPLES {
        if !acute {
          r := WalkUp(t, now);
          return;
        }
        est := est.(bandwidth := Filters.Updated(Filters.EMPTY, rate.bitrate as real, now, ESTIMATOR_WINDOW),
                    samples := ESTIMATOR_MIN_SAMPLES, lastSample := now);
      }
      if acute { r := BackOff(t, now); } else { r := Cruise(now); }
    }

    // No bottleneck measured: the additive probe of the first law.
    method WalkUp(t: Stats, now: int) returns (r: Option<nat>)
      requires Valid()
      modifies `rate, `window, `staleBefore
      ensures Valid() && View() == WalkedUp(old(View()), t, now)
      ensures r == Change(old(rate.bitrate), rate.bitrate)
    {
      if !Healthy(t) || radio.hold {
        rate := rate.(healthySince := None);
        return None;
      }
      if rate.healthySince.None? { rate := rate.(healthySince := Some(now)); }
      if now - rate.healthySince.value < INCREASE_HOLD || rate.bitrate >= rate.ceiling { return None; }
      var before := rate.bitrate;
      rate := rate.(bitrate := Clamp(rate, rate.bitrate + IncreaseStep(rate)));
      Flush();
      r := Change(before, rate.bitrate);
    }

    method BackOff(t: Stats, now: int) returns (r: Option<nat>)
      requires Valid()
      modifies `rate, `window, `staleBefore, `est
      ensures Valid() && View() == BackedOff(old(View()), t, now)
      ensures r == Change(old(rate.bitrate), rate.bitrate)
    {
      var previous := rate.bitrate;
      if now - rate.lastDecrease < COOLDOWN { return None; }
      rate := rate.(lastDecrease := now);
      est := est.(bandwidth := Filters.Capped(est.bandwidth, if t.rate > 0.0 then t.rate else 0.70 * Bandwidth(est)));
      est := est.(phase := Steady, stalled := STALL_ROUNDS, lastProbe := now, lastChange := now, probeUntil := 0);
      rate := rate.(bitrate := Clamp(rate, (0.70 * Bandwidth(est)).Floor));
      Flush();
      r := Change(previous, rate.bitrate);
    }

    method Cruise(now: int) returns (r: Option<nat>)
      requires Valid()
      modifies `rate, `window, `staleBefore, `est
      ensures Valid() && View() == Cruised(old(View()), now)
      ensures r == Change(old(rate.bitrate), rate.bitrate)
    {
      var forced := false;
      if radio.hold && est.phase != Steady {
        est := est.(phase := Steady, probeUntil := 0, lastProbe := now);
      }
      match est.phase {
        case Startup =>
          if est.roundStarted == 0 {
            est := est.(roundStarted := now, mark := Bandwidth(est));
          } else if now - est.roundStarted >= ROUND {
            est := est.(stalled := if Bandwidth(est) > 1.25 * est.mark then 0 else est.stalled + 1,
                        mark := Bandwidth(est), roundStarted := now);
          }
          if est.stalled >= STALL_ROUNDS { est := est.(phase := Steady, lastProbe := now); }
        case Probe =>
          if now >= est.probeUntil {
            est := est.(phase := Steady, lastProbe := now);
            Flush();
            forced := true;
          }
        case Steady =>
          if !radio.hold && now - est.lastProbe >= PROBE_INTERVAL && rate.bitrate < rate.ceiling {
            est := est.(phase := Probe, probeUntil := now + PROBE_DURATION);
          }
      }
      r := Follow(forced, now);
    }

    method Follow(forced: bool, now: int) returns (r: Option<nat>)
      requires Valid()
      modifies `rate, `window, `staleBefore, `est
      ensures Valid() && View() == Followed(old(View()), forced, now)
      ensures r == Change(old(rate.bitrate), rate.bitrate)
    {
      var previous := rate.bitrate;
      var target := FollowTarget(rate, est, radio.hold);
      if est.phase != Startup && !forced {
        if now - est.lastChange < STEADY_INTERVAL { return None; }
        if !WorthMoving(rate.bitrate, target) { return None; }
      }
      rate := rate.(bitrate := target);
      est := est.(lastChange := now);
      if rate.bitrate != previous { Flush(); }
      r := Change(previous, rate.bitrate);
    }

    // --- The radio trend ----------------------------------------------------------------------

    method AnalyseRadio(now: int) returns (t: Option<Trend>)
      requires Valid()
      modifies `radio
      ensures Valid() && radio == old(radio).(window := RecentRadio(old(radio.window), now))
              && t == TrendOf(radio.window)
    {
      while radio.window != [] && now - radio.window[0].when > RADIO_WINDOW
        invariant radio == old(radio).(window := radio.window)
                  && RecentRadio(radio.window, now) == RecentRadio(old(radio.window), now)
        decreases |radio.window|
      {
        radio := radio.(window := radio.window[1..]);
      }
      var w := radio.window;
      if |w| < RADIO_MIN_SAMPLES { return None; }
      var t0, newestSample := w[0].when, w[|w| - 1];
      var span := Seconds(newestSample.when - t0);
      if span <= 0.0 { return None; }
      var meanT, meanY := Means(w, t0);
      var cov, variance, peak := Spread(w, t0, meanT, meanY);
      if variance <= 0.0 { return None; }
      t := Some(Line(newestSample, cov, variance, span, peak));
    }

    static method Means(w: seq<RadioSample>, t0: int) returns (meanT: real, meanY: real)
      requires w != []
      ensures meanT == SumT(w, t0) / |w| as real && meanY == SumY(w) / |w| as real
    {
      meanT, meanY := 0.0, 0.0;
      for i := 0 to |w|
        invariant meanT == SumT(w[..i], t0) && meanY == SumY(w[..i])
      {
        assert w[..i + 1][..i] == w[..i];
        meanT := meanT + Seconds(w[i].when - t0);
        meanY := meanY + w[i].rssi;
      }
      assert w[..|w|] == w;
      meanT := meanT / |w| as real;
      meanY := meanY / |w| as real;
    }

    static method Spread(w: seq<RadioSample>, t0: int, meanT: real, meanY: real)
      returns (cov: real, variance: real, peak: int)
      ensures cov == Covariance(w, t0, meanT, meanY) && variance == Variance(w, t0, meanT) && peak == Peak(w)
    {
      cov, variance, peak := 0.0, 0.0, 0;
      for i := 0 to |w|
        invariant cov == Covariance(w[..i], t0, meanT, meanY) && variance == Variance(w[..i], t0, meanT)
                  && peak == Peak(w[..i])
      {
        assert w[..i + 1][..i] == w[..i];
        var dt := Seconds(w[i].when - t0) - meanT;
        cov := cov + dt * (w[i].rssi - meanY);
        variance := variance + dt * dt;
        peak := Max(peak, w[i].link);
      }
      assert w[..|w|] == w;
    }

    method HearReport(rssi: int, link: int, when: int) returns (t: Option<Trend>)
      requires Valid()
      modifies `radio
      ensures Valid() && radio == Heard(old(radio), rssi, link, when) && t == TrendOf(radio.window)
    {
      if radio.window != [] && when - radio.lastSample > RADIO_MAX_AGE {
        radio := radio.(window := [], ema := None, hold := false, stableSince := None);
      }
      radio := radio.(lastSample := when);
      radio := radio.(ema := Some(if radio.ema.Some? then 0.4 * rssi as real + (1.0 - 0.4) * radio.ema.value
                                  else rssi as real));
      radio := radio.(window := radio.window + [RadioSample(when, radio.ema.value, Max(0, link))]);
      t := AnalyseRadio(when);
    }

    method ReleaseHold(t: Trend, when: int)
      requires Valid()
      modifies `radio
      ensures Valid() && radio == Released(old(radio), t, rate.bitrate, when)
    {
      if radio.hold && t.delta > RADIO_RISE_DB && t.rssi > RADIO_LOW_DBM { radio := radio.(hold := false); }
      if radio.hold && !Falling(t) && !Starved(t, rate.bitrate) && AbsReal(t.slope) < RADIO_STABLE_SLOPE {
        if radio.stableSince.None? {
          radio := radio.(stableSince := Some(when));
        } else if when - radio.stableSince.value >= RADIO_STABLE_HOLD {
          radio := radio.(hold := false, stableSince := None);
        }
      } else {
        radio := radio.(stableSince := None);
      }
    }

    method OnWifiState(rssi: int, link: int, when: int) returns (r: Option<nat>)
      requires Valid()
      modifies `rate, `window, `staleBefore, `est, `radio
      ensures Valid() && View() == Step(old(View()), Event.OnWifiState(rssi, link, when))
      ensures r == Change(old(rate.bitrate), rate.bitrate)
    {
      if !switches.conf.enabled || !switches.clientEnabled || !switches.radioAware || rate.ceiling == 0 { return None; }
      if rssi >= 0 || rssi <= -110 { return None; }
      var t := HearReport(rssi, link, when);
      if t.None? { return None; }
      if ModeOf(switches) == Aimd && rate.recovering { return None; }
      ReleaseHold(t.value, when);
      if !Falling(t.value) && !Starved(t.value, rate.bitrate) { return None; }
      if when - rate.lastDecrease < COOLDOWN || when - radio.lastStep < RADIO_STEP_INTERVAL { return None; }
      r := StepDown(when);
    }

    method StepDown(when: int) returns (r: Option<nat>)
      requires Valid()
      modifies `rate, `window, `staleBefore, `est, `radio
      ensures Valid() && View() == SteppedDown(old(View()), when)
      ensures r == Change(old(rate.bitrate), rate.bitrate)
    {
      var previous := rate.bitrate;
      if ModeOf(switches) == Bbr && est.bandwidth.count != 0 {
        est := est.(phase := Steady);
        var target := Clamp(rate, (0.75 * Bandwidth(est)).Floor);
        if target < rate.bitrate {
          rate := rate.(bitrate := target);
          est := est.(lastChange := when);
        }
      } else {
        rate := rate.(bitrate := Clamp(rate, rate.bitrate * 7 / 10));
      }
      radio := radio.(hold := true);
      rate := rate.(lastDecrease := when);
      radio := radio.(lastStep := when);
      if rate.bitrate == previous { return None; }
      Flush();
      r := Some(rate.bitrate);
    }
  }
}
