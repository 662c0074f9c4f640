/**
  The adaptive bitrate controller as a value and its steps
  (helper/src/wivrn/bitrate_controller.cpp, helper/src/wivrn/bitrate_controller.h):
  two control laws over one window of frame samples, a sixteen-entry ring that joins
  the feedback of one frame, and a radio trend. Times are nanoseconds; the factors
  applied to integers are floors of exact products.
 */
module BitrateLaw {
  import opened Prelude
  import Filters = MaxFilter

  // --- Constants ---------------------------------------------------------------

  const MS := 1_000_000
  const WINDOW := 2000 * MS
  const MIN_SAMPLES := 20
  const EVALUATION_INTERVAL := 250 * MS
  const RING := 16
  const STREAMS := 3
  const UTILISATION_DECREASE := 0.85
  const UTILISATION_INCREASE := 0.60
  const UTILISATION_SEVERE := 1.0
  const LOST_DECREASE := 1
  const LOST_SEVERE := 3
  const LATE_DECREASE := 4
  const LATE_SEVERE := 10
  const COOLDOWN := 2000 * MS
  const INCREASE_STEP_MIN := 2_000_000
  const INCREASE_HOLD := 5000 * MS
  const RECOVERY_CONFIRM := 2500 * MS
  const RECOVERY_STEP_INTERVAL := 1000 * MS
  const RADIO_WINDOW := 4000 * MS
  const RADIO_MAX_AGE := 5000 * MS
  const RADIO_MIN_SAMPLES := 4
  const RADIO_FALL_DB := 6.0
  const RADIO_LOW_DBM := -65.0
  const RADIO_RISE_DB := 3.0
  const RADIO_STABLE_SLOPE := 0.75
  const RADIO_STABLE_HOLD := 3000 * MS
  const RADIO_STEP_INTERVAL := 4000 * MS
  const ESTIMATOR_WINDOW := 10000 * MS
  const ESTIMATOR_MIN_SAMPLES := 12
  const ROUND := 500 * MS
  const STALL_ROUNDS := 3
  const PROBE_INTERVAL := 8000 * MS
  const PROBE_DURATION := 500 * MS
  const STEADY_INTERVAL := 1000 * MS
  const SETTLE := 250 * MS

  // --- State -------------------------------------------------------------------

  datatype Mode = Aimd | Bbr

  datatype Phase = Startup | Steady | Probe

  datatype Config = Config(enabled: bool, floor: nat, mode: Mode)

  datatype Switches = Switches(conf: Config, clientEnabled: bool, clientMode: Option<Mode>, radioAware: bool,
                               pacing: real)

  // One frame while the feedback of its streams is being collected; index None is the
  // empty slot.
  datatype Frame = Frame(index: Option<nat>, first: int, last: int, valid: bool, lost: bool, late: bool, bytes: nat)

  const NO_FRAME := Frame(None, 0, 0, false, false, false, 0)

  // `frame` names the frame a sample was made of; the program does not store it.
  datatype Sample = Sample(frame: nat, when: int, utilisation: real, lost: bool, late: bool, rate: real)

  datatype Frames = Frames(ring: seq<Frame>, newest: nat, any: bool, staleBefore: nat, period: int, window: seq<Sample>)

  datatype Rate = Rate(ceiling: nat, floor: nat, bitrate: nat, target: nat, recovering: bool, firstStep: bool,
                       healthySince: Option<int>, lastEvaluation: int, lastDecrease: int)

  datatype Estimator = Estimator(phase: Phase, bandwidth: Filters.Filter, samples: nat, lastSample: int, mark: real,
                                 stalled: nat, roundStarted: int, lastProbe: int, probeUntil: int, lastChange: int)

  datatype RadioSample = RadioSample(when: int, rssi: real, link: int)

  datatype Radio = Radio(window: seq<RadioSample>, ema: Option<real>, lastSample: int, lastStep: int, hold: bool,
                         stableSince: Option<int>)

  datatype State = State(switches: Switches, rate: Rate, frames: Frames, est: Estimator, radio: Radio)

  function EmptyRing(): seq<Frame> { seq(RING, _ => NO_FRAME) }

  const NO_ESTIMATE := Estimator(Startup, Filters.EMPTY, 0, 0, 0.0, 0, 0, 0, 0, 0)
  const NO_RADIO := Radio([], None, 0, 0, false, None)
  // The freshly constructed controller.
  function Initial(): State {
    State(Switches(Config(true, 10_000_000, Aimd), true, None, true, 0.0), Rate(0, 0, 0, 0, false, true, None, 0, 0),
          Frames(EmptyRing(), 0, false, 0, 0, []), NO_ESTIMATE, NO_RADIO)
  }

  ghost predicate Shaped(s: State) {
    && |s.frames.ring| == RING
    && Filters.Shaped(s.est.bandwidth)
  }

  function ModeOf(w: Switches): Mode { if w.clientMode.Some? then w.clientMode.value else w.conf.mode }

  predicate Controlling(s: State) { s.switches.conf.enabled && s.switches.clientEnabled && s.rate.ceiling != 0 }

  function Between(floor: nat, ceiling: nat, v: int): nat {
    if v < floor then floor else if v > ceiling then ceiling else v
  }

  function Clamp(r: Rate, v: int): nat { Between(r.floor, r.ceiling, v) }

  // --- Starting over ----------------------------------------------------------------

  // Forget the decision window; frames already known may no longer become samples of it.
  function Flushed(s: State): State {
    s.(rate := s.rate.(healthySince := None, lastEvaluation := 0),
       frames := s.frames.(window := [],
                           staleBefore := if s.frames.any then s.frames.newest + 1 else s.frames.staleBefore))
  }

  function AtCeiling(r: Rate): Rate {
    r.(bitrate := r.ceiling, target := r.ceiling, recovering := false, firstStep := true, healthySince := None,
       lastEvaluation := 0)
  }

  function NoFrames(f: Frames): Frames {
    f.(ring := EmptyRing(), any := false, staleBefore := 0, window := [])
  }

  function Configured(s: State, c: Config, ceiling: nat, clientEnabled: bool, radioAware: bool,
                      clientMode: Option<Mode>): State {
    var floor := if ceiling != 0 then Min(c.floor, ceiling) else c.floor;
    State(Switches(c, clientEnabled, clientMode, radioAware, s.switches.pacing),
          AtCeiling(s.rate.(ceiling := ceiling, floor := floor)), NoFrames(s.frames), NO_ESTIMATE, NO_RADIO)
  }

  function StartedOver(s: State): State {
    if s.rate.ceiling == 0 then s
    else s.(rate := AtCeiling(s.rate), frames := NoFrames(s.frames), est := NO_ESTIMATE,
            radio := s.radio.(hold := false, stableSince := None, lastStep := 0))
  }

  // --- The frame ring ------------------------------------------------------------------

  function MinLoadedWire(s: State): int {
    if s.frames.period <= 0 then 0
    else ((if s.switches.pacing > 0.0 then 0.30 * s.switches.pacing else 0.10) * s.frames.period as real).Floor
  }

  // A delivered frame measures a rate when it kept the link busy long enough.
  predicate Loads(s: State, f: Frame) {
    ModeOf(s.switches) == Bbr && f.last - f.first > 0 && f.bytes != 0 && f.last - f.first >= MinLoadedWire(s)
  }

  predicate Delivered(s: State, f: Frame) {
    !f.lost && f.valid && f.first != 0 && f.last >= f.first && s.frames.period > 0
  }

  function RateOf(s: State, f: Frame): real {
    if Loads(s, f) then 8.0 * 1_000_000_000.0 * f.bytes as real / (f.last - f.first) as real else 0.0
  }

  // A frame leaves the ring: it becomes a sample of the decision window when it is fresh,
  // and of the bandwidth filter when it measured a rate.
  function Closed(s: State, f: Frame, now: int): State
    requires Shaped(s)
  {
    if f.index.None? then s
    else if f.lost then
      if f.index.value >= s.frames.staleBefore
      then s.(frames := s.frames.(window := s.frames.window + [Sample(f.index.value, now, 0.0, true, f.late, 0.0)]))
      else s
    else if Delivered(s, f) then
      var est := if Loads(s, f)
                 then s.est.(bandwidth := Filters.Updated(s.est.bandwidth, RateOf(s, f), now, ESTIMATOR_WINDOW),
                             samples := s.est.samples + 1, lastSample := now)
                 else s.est;
      var u := (f.last - f.first) as real / s.frames.period as real;
      var w := if f.index.value >= s.frames.staleBefore
               then s.frames.window + [Sample(f.index.value, now, u, false, f.late, RateOf(s, f))] else s.frames.window;
      s.(est := est, frames := s.frames.(window := w))
    else s
  }

  // The slot a frame is collected in, closing whatever older frame sits there.
  function Opened(s: State, index: nat, now: int): State
    requires Shaped(s)
  {
    var slot := s.frames.ring[index % RING];
    if slot.index == Some(index) then s
    else
      var c := Closed(s, slot, now);
      c.(frames := c.frames.(ring := c.frames.ring[index % RING := NO_FRAME.(index := Some(index))]))
  }

  function Noticed(s: State, index: nat): State {
    if !s.frames.any || index > s.frames.newest then s.(frames := s.frames.(newest := index, any := true)) else s
  }

  predicate TooOld(s: State, index: nat) { s.frames.any && index + RING <= s.frames.newest }

  function Put(s: State, index: nat, f: Frame): State
    requires Shaped(s)
  {
    s.(frames := s.frames.(ring := s.frames.ring[index % RING := f]))
  }

  function FrameBytes(s: State, index: nat, stream: nat, bytes: nat, now: int): State
    requires Shaped(s)
  {
    if ModeOf(s.switches) != Bbr || !Controlling(s) || stream >= STREAMS || bytes == 0 || TooOld(s, index) then s
    else
      var o := Opened(Noticed(s, index), index, now);
      var f := o.frames.ring[index % RING];
      Put(o, index, f.(bytes := f.bytes + bytes))
  }

  datatype Report = Report(frame: nat, stream: nat, sentToDecoder: bool, first: int, last: int,
                           fromDecoder: bool, blitted: bool, timesDisplayed: nat)

  function Merged(f: Frame, r: Report): Frame {
    var g := if !r.sentToDecoder then f.(lost := true)
             else f.(first := if r.first == 0 then f.first else if f.first != 0 then Min(f.first, r.first) else r.first,
                     last := if r.last != 0 then Max(f.last, r.last) else f.last,
                     valid := true);
    if r.fromDecoder && !r.blitted && r.timesDisplayed == 0 then g.(late := true) else g
  }

  function Collected(s: State, r: Report, period: int, now: int): State
    requires Shaped(s)
  {
    var o := Opened(Noticed(s.(frames := s.frames.(period := period)), r.frame), r.frame, now);
    Put(o, r.frame, Merged(o.frames.ring[r.frame % RING], r))
  }

  // --- Statistics over the window -----------------------------------------------------------

  datatype Stats = Stats(utilisation: real, lost: nat, late: nat, count: nat, rate: real)

  function Recent(w: seq<Sample>, now: int): seq<Sample> {
    if w != [] && now - w[0].when > WINDOW then Recent(w[1..], now) else w
  }

  function Insert(x: real, s: seq<real>): seq<real> {
    if s == [] || x <= s[0] then [x] + s else [s[0]] + Insert(x, s[1..])
  }

  function Sorted(s: seq<real>): seq<real> { if s == [] then [] else Insert(s[0], Sorted(s[1..])) }

  function PercentileIndex(n: nat): nat
    requires n > 0
  {
    Min(n - 1, n * 9 / 10)
  }

  ghost predicate Ascends(s: seq<real>) {
    forall i, j :: 0 <= i <= j < |s| ==> s[i] <= s[j]
  }

  lemma AscendsFrom(x: real, s: seq<real>)
    requires Ascends(s) && forall y :: y in multiset(s) ==> x <= y
    ensures Ascends([x] + s)
  {
    forall k | 0 <= k < |s| ensures x <= s[k] { assert s[k] in multiset(s); }
  }

  lemma HeadAndTail(s: seq<real>)
    requires s != []
    ensures multiset(s) == multiset{s[0]} + multiset(s[1..])
    ensures Ascends(s) ==> Ascends(s[1..])
    ensures Ascends(s) ==> forall y :: y in multiset(s[1..]) ==> s[0] <= y
  {
    assert s == [s[0]] + s[1..];
    if Ascends(s) {
      forall y | y in multiset(s[1..]) ensures s[0] <= y {
        assert y in s[1..];
        var k :| 0 <= k < |s| - 1 && s[1..][k] == y;
      }
    }
  }

  lemma {:induction false} InsertSorts(x: real, s: seq<real>)
    requires Ascends(s)
    ensures |Insert(x, s)| == |s| + 1
    ensures multiset(Insert(x, s)) == multiset(s) + multiset{x}
    ensures Ascends(Insert(x, s))
  {
    if s == [] || x <= s[0] {
      assert multiset([x] + s) == multiset{x} + multiset(s);
      if s != [] { HeadAndTail(s); AscendsFrom(x, s); }
    } else {
      HeadAndTail(s);
      InsertSorts(x, s[1..]);
      var t := Insert(x, s[1..]);
      assert multiset([s[0]] + t) == multiset{s[0]} + multiset(t);
      AscendsFrom(s[0], t);
    }
  }

  lemma {:induction false} SortedSorts(s: seq<real>)
    ensures |Sorted(s)| == |s|
    ensures multiset(Sorted(s)) == multiset(s)
    ensures Ascends(Sorted(s))
  {
    if s != [] {
      SortedSorts(s[1..]);
      InsertSorts(s[0], Sorted(s[1..]));
      HeadAndTail(s);
    }
  }

  function Percentile(s: seq<real>): real {
    if s == [] then 0.0 else
      SortedSorts(s);
      Sorted(s)[PercentileIndex(|s|)]
  }

  function Utilisations(w: seq<Sample>): seq<real> {
    if w == [] then []
    else Utilisations(w[..|w| - 1]) + if w[|w| - 1].lost then [] else [w[|w| - 1].utilisation]
  }

  function Rates(w: seq<Sample>): seq<real> {
    if w == [] then []
    else Rates(w[..|w| - 1]) + if w[|w| - 1].rate > 0.0 then [w[|w| - 1].rate] else []
  }

  function Lost(w: seq<Sample>): nat {
    if w == [] then 0 else Lost(w[..|w| - 1]) + if w[|w| - 1].lost then 1 else 0
  }

  function Late(w: seq<Sample>): nat {
    if w == [] then 0 else Late(w[..|w| - 1]) + if w[|w| - 1].late then 1 else 0
  }

  function MaxReal(a: real, b: real): real { if a >= b then a else b }

  function Statistics(w: seq<Sample>): Stats {
    var u := Percentile(Utilisations(w));
    Stats(if Lost(w) != 0 then MaxReal(u, UTILISATION_SEVERE) else u, Lost(w), Late(w), |w|, Percentile(Rates(w)))
  }

  // --- Control law v1 ------------------------------------------------------------------

  predicate Severe(t: Stats) {
    t.utilisation > UTILISATION_SEVERE || t.lost >= LOST_SEVERE || t.late >= LATE_SEVERE
  }

  predicate Degraded(t: Stats) {
    Severe(t) || t.utilisation > UTILISATION_DECREASE || t.lost >= LOST_DECREASE || t.late >= LATE_DECREASE
  }

  predicate Healthy(t: Stats) { t.utilisation < UTILISATION_INCREASE && t.lost == 0 && t.late == 0 }

  function Lowered(r: Rate, severe: bool, now: int): Rate {
    var target := if r.recovering then Clamp(r, r.target * 3 / 4) else if severe then r.bitrate else r.target;
    var bitrate := Clamp(r, if severe then r.bitrate * 4 / 10 else r.bitrate * 7 / 10);
    r.(target := target, bitrate := bitrate, recovering := (r.recovering || severe) && target > bitrate,
       firstStep := r.firstStep || severe, lastDecrease := now)
  }

  function Rebounded(r: Rate): Rate {
    var bitrate := Min(r.target, Clamp(r, r.bitrate * 2));
    r.(bitrate := bitrate, firstStep := false, recovering := bitrate < r.target)
  }

  function IncreaseStep(r: Rate): nat { Max(INCREASE_STEP_MIN, r.ceiling * 5 / 100) }

  function Increased(r: Rate): Rate {
    var bitrate := Clamp(r, r.bitrate + IncreaseStep(r));
    r.(bitrate := bitrate, target := bitrate)
  }

  function Since(r: Rate, now: int): int { if r.healthySince.Some? then r.healthySince.value else now }

  function EvaluatedAimd(s: State, t: Stats, now: int): State {
    if Degraded(t) then
      if now - s.rate.lastDecrease < COOLDOWN then s.(rate := s.rate.(healthySince := None))
      else Flushed(s.(rate := Lowered(s.rate, Severe(t), now), radio := s.radio.(hold := s.radio.hold && !Severe(t))))
    else if Healthy(t) then
      var r := s.rate.(healthySince := Some(Since(s.rate, now)));
      var held := now - Since(s.rate, now);
      if r.recovering then
        if held < (if r.firstStep then RECOVERY_CONFIRM else RECOVERY_STEP_INTERVAL) then s.(rate := r)
        else Flushed(s.(rate := Rebounded(r)))
      else if s.radio.hold || held < INCREASE_HOLD || r.bitrate >= r.ceiling then s.(rate := r)
      else Flushed(s.(rate := Increased(r)))
    else s.(rate := s.rate.(healthySince := None))
  }

  // --- Control law v2 ----------------------------------------------------------------------

  function Bandwidth(e: Estimator): real
    requires Filters.Shaped(e.bandwidth)
  {
    e.bandwidth.s[0].value
  }

  predicate Acute(s: State, t: Stats)
    requires Shaped(s)
  {
    var slowdown := if s.est.bandwidth.count != 0 && t.rate > 0.0 then Bandwidth(s.est) / t.rate else 1.0;
    t.lost >= LOST_DECREASE || t.late >= LATE_DECREASE
    || (s.est.phase != Probe && (t.utilisation > UTILISATION_SEVERE || (s.est.phase != Startup && slowdown > 1.60)))
  }

  // An estimate no loaded frame has refreshed for a whole window is dropped.
  function Aged(e: Estimator, now: int): Estimator {
    if e.samples != 0 && now - e.lastSample > ESTIMATOR_WINDOW then e.(bandwidth := Filters.EMPTY, samples := 0) else e
  }

  // Without an estimate: v1's additive probe while the link measures healthy.
  function WalkedUp(s: State, t: Stats, now: int): State {
    if !Healthy(t) || s.radio.hold then s.(rate := s.rate.(healthySince := None))
    else
      var r := s.rate.(healthySince := Some(Since(s.rate, now)));
      if now - Since(s.rate, now) < INCREASE_HOLD || r.bitrate >= r.ceiling then s.(rate := r)
      else Flushed(s.(rate := r.(bitrate := Clamp(r, r.bitrate + IncreaseStep(r)))))
  }

  // A link that failed without an estimate seeds it with what is being sent.
  function Seeded(s: State, now: int): Estimator {
    s.est.(bandwidth := Filters.Updated(Filters.EMPTY, s.rate.bitrate as real, now, ESTIMATOR_WINDOW),
           samples := ESTIMATOR_MIN_SAMPLES, lastSample := now)
  }

  function BackedOff(s: State, t: Stats, now: int): State
    requires Shaped(s)
  {
    if now - s.rate.lastDecrease < COOLDOWN then s
    else
      var b := Filters.Capped(s.est.bandwidth, if t.rate > 0.0 then t.rate else 0.70 * Bandwidth(s.est));
      var est := s.est.(bandwidth := b, phase := Steady, stalled := STALL_ROUNDS, lastProbe := now, lastChange := now,
                        probeUntil := 0);
      Flushed(s.(est := est,
                 rate := s.rate.(bitrate := Clamp(s.rate, (0.70 * b.s[0].value).Floor), lastDecrease := now)))
  }

  // The phase the estimator moves to, and whether the bitrate must follow at once.
  function Paused(e: Estimator, hold: bool, now: int): Estimator {
    if hold && e.phase != Steady then e.(phase := Steady, probeUntil := 0, lastProbe := now) else e
  }

  function Ramped(e: Estimator, now: int): Estimator
    requires Filters.Shaped(e.bandwidth)
  {
    var bw := Bandwidth(e);
    var r := if e.roundStarted == 0 then e.(roundStarted := now, mark := bw)
             else if now - e.roundStarted >= ROUND
             then e.(stalled := if bw > 1.25 * e.mark then 0 else e.stalled + 1, mark := bw, roundStarted := now)
             else e;
    if r.stalled >= STALL_ROUNDS then r.(phase := Steady, lastProbe := now) else r
  }

  function Gain(p: Phase, hold: bool): real {
    match p
    case Startup => 1.25
    case Probe => 1.10
    case Steady => if hold then 0.75 else 0.85
  }

  function AbsReal(x: real): real { if x < 0.0 then -x else x }

  function FollowTarget(r: Rate, e: Estimator, hold: bool): nat
    requires Filters.Shaped(e.bandwidth)
  {
    Clamp(r, (Gain(e.phase, hold) * Bandwidth(e)).Floor)
  }

  // The bitrate moved by at least a twentieth, or there was none.
  predicate WorthMoving(bitrate: nat, target: nat) {
    bitrate == 0 || AbsReal(target as real - bitrate as real) >= 0.05 * bitrate as real
  }

  // The bitrate follows the estimate: at once while ramping up or when a probe ends,
  // otherwise at most once a second and only for a change worth making.
  function Followed(s: State, forced: bool, now: int): State
    requires Shaped(s)
  {
    var target := FollowTarget(s.rate, s.est, s.radio.hold);
    if s.est.phase != Startup && !forced
       && (now - s.est.lastChange < STEADY_INTERVAL || !WorthMoving(s.rate.bitrate, target)) then s
    else
      var f := s.(rate := s.rate.(bitrate := target), est := s.est.(lastChange := now));
      if target != s.rate.bitrate then Flushed(f) else f
  }

  function Cruised(s: State, now: int): State
    requires Shaped(s)
  {
    var p := s.(est := Paused(s.est, s.radio.hold, now));
    match p.est.phase
    case Startup => Followed(p.(est := Ramped(p.est, now)), false, now)
    case Probe =>
      if now >= p.est.probeUntil then Followed(Flushed(p.(est := p.est.(phase := Steady, lastProbe := now))), true, now)
      else Followed(p, false, now)
    case Steady =>
      if !p.radio.hold && now - p.est.lastProbe >= PROBE_INTERVAL && p.rate.bitrate < p.rate.ceiling
      then Followed(p.(est := p.est.(phase := Probe, probeUntil := now + PROBE_DURATION)), false, now)
      else Followed(p, false, now)
  }

  function EvaluatedBbr(s: State, t: Stats, now: int): State
    requires Shaped(s)
  {
    if s.est.lastChange != 0 && now - s.est.lastChange < SETTLE then s
    else
      var acute := Acute(s, t);
      var a := s.(est := Aged(s.est, now));
      if a.est.samples < ESTIMATOR_MIN_SAMPLES && !acute then WalkedUp(a, t, now)
      else
        var e := if a.est.samples < ESTIMATOR_MIN_SAMPLES then a.(est := Seeded(a, now)) else a;
        if acute then BackedOff(e, t, now) else Cruised(e, now)
  }

  // A decision on the statistics of the window, by the law in force.
  function Decided(s: State, t: Stats, now: int): State
    requires Shaped(s)
  {
    if t.count < MIN_SAMPLES then s
    else if ModeOf(s.switches) == Bbr then EvaluatedBbr(s, t, now) else EvaluatedAimd(s, t, now)
  }

  function Evaluated(s: State, now: int): State
    requires Shaped(s)
  {
    if now - s.rate.lastEvaluation < EVALUATION_INTERVAL then s
    else
      var h := s.radio.hold && now - s.radio.lastSample <= RADIO_MAX_AGE;
      var w := Recent(s.frames.window, now);
      var e := s.(rate := s.rate.(lastEvaluation := now), radio := s.radio.(hold := h),
                  frames := s.frames.(window := w));
      Decided(e, Statistics(w), now)
  }

  function Feedback(s: State, r: Report, period: int, streaming: bool, now: int): State
    requires Shaped(s)
  {
    if !Controlling(s) || !streaming || period <= 0 || r.stream >= STREAMS then s
    else if TooOld(s, r.frame) then s.(frames := s.frames.(period := period))
    else Evaluated(Collected(s, r, period, now), now)
  }

  // --- The radio trend ----------------------------------------------------------------------

  datatype Trend = Trend(rssi: real, slope: real, delta: real, link: int, peak: int)

  function RecentRadio(w: seq<RadioSample>, now: int): seq<RadioSample> {
    if w != [] && now - w[0].when > RADIO_WINDOW then RecentRadio(w[1..], now) else w
  }

  function Seconds(t: int): real { t as real / 1_000_000_000.0 }

  function SumT(w: seq<RadioSample>, t0: int): real {
    if w == [] then 0.0 else SumT(w[..|w| - 1], t0) + Seconds(w[|w| - 1].when - t0)
  }

  function SumY(w: seq<RadioSample>): real {
    if w == [] then 0.0 else SumY(w[..|w| - 1]) + w[|w| - 1].rssi
  }

  function Covariance(w: seq<RadioSample>, t0: int, mt: real, my: real): real {
    if w == [] then 0.0
    else Covariance(w[..|w| - 1], t0, mt, my) + (Seconds(w[|w| - 1].when - t0) - mt) * (w[|w| - 1].rssi - my)
  }

  function Variance(w: seq<RadioSample>, t0: int, mt: real): real {
    if w == [] then 0.0
    else Variance(w[..|w| - 1], t0, mt) + (Seconds(w[|w| - 1].when - t0) - mt) * (Seconds(w[|w| - 1].when - t0) - mt)
  }

  function Peak(w: seq<RadioSample>): int {
    if w == [] then 0 else Max(Peak(w[..|w| - 1]), w[|w| - 1].link)
  }

  function Line(newest: RadioSample, cov: real, variance: real, span: real, peak: int): Trend
    requires variance > 0.0
  {
    Trend(newest.rssi, cov / variance, cov / variance * span, newest.link, peak)
  }

  // Least squares slope of the smoothed level against time; None when unusable.
  function TrendOf(w: seq<RadioSample>): Option<Trend> {
    if |w| < RADIO_MIN_SAMPLES then None
    else
      var t0, newest := w[0].when, w[|w| - 1];
      var span := Seconds(newest.when - t0);
      var mt, my := SumT(w, t0) / |w| as real, SumY(w) / |w| as real;
      var v := Variance(w, t0, mt);
      if span <= 0.0 || v <= 0.0 then None
      else Some(Line(newest, Covariance(w, t0, mt, my), v, span, Peak(w)))
  }

  function Heard(r: Radio, rssi: int, link: int, when: int): Radio {
    var g := if r.window != [] && when - r.lastSample > RADIO_MAX_AGE
             then r.(window := [], ema := None, hold := false, stableSince := None) else r;
    var ema := if g.ema.Some? then 0.4 * rssi as real + 0.6 * g.ema.value else rssi as real;
    g.(lastSample := when, ema := Some(ema),
       window := RecentRadio(g.window + [RadioSample(when, ema, Max(0, link))], when))
  }

  predicate Falling(t: Trend) { t.delta < -RADIO_FALL_DB && t.rssi < RADIO_LOW_DBM }

  predicate Starved(t: Trend, bitrate: nat) {
    t.link > 0 && t.peak > 0 && t.link as real <= 0.5 * t.peak as real
    && t.link as real * 1_000_000.0 < 2.0 * bitrate as real
  }

  // A hold is released by a rising signal, or by one that has been flat for a while.
  function Released(r: Radio, t: Trend, bitrate: nat, when: int): Radio {
    var up := if r.hold && t.delta > RADIO_RISE_DB && t.rssi > RADIO_LOW_DBM then r.(hold := false) else r;
    if up.hold && !Falling(t) && !Starved(t, bitrate) && AbsReal(t.slope) < RADIO_STABLE_SLOPE then
      if up.stableSince.None? then up.(stableSince := Some(when))
      else if when - up.stableSince.value >= RADIO_STABLE_HOLD then up.(hold := false, stableSince := None)
      else up
    else up.(stableSince := None)
  }

  function SteppedDown(s: State, when: int): State
    requires Shaped(s)
  {
    var held := s.(radio := s.radio.(hold := true, lastStep := when), rate := s.rate.(lastDecrease := when));
    if ModeOf(s.switches) == Bbr && s.est.bandwidth.count != 0 then
      var target := Clamp(s.rate, (0.75 * Bandwidth(s.est)).Floor);
      var b := held.(est := s.est.(phase := Steady));
      if target < s.rate.bitrate
      then Flushed(b.(rate := b.rate.(bitrate := target), est := b.est.(lastChange := when)))
      else b
    else
      var target := Clamp(s.rate, s.rate.bitrate * 7 / 10);
      if target == s.rate.bitrate then held else Flushed(held.(rate := held.rate.(bitrate := target)))
  }

  function Wifi(s: State, rssi: int, link: int, when: int): State
    requires Shaped(s)
  {
    if !Controlling(s) || !s.switches.radioAware || rssi >= 0 || rssi <= -110 then s
    else
      var h := s.(radio := Heard(s.radio, rssi, link, when));
      var t := TrendOf(h.radio.window);
      if t.None? || (ModeOf(s.switches) == Aimd && s.rate.recovering) then h
      else
        var q := h.(radio := Released(h.radio, t.value, s.rate.bitrate, when));
        if (!Falling(t.value) && !Starved(t.value, s.rate.bitrate))
           || when - s.rate.lastDecrease < COOLDOWN || when - s.radio.lastStep < RADIO_STEP_INTERVAL then q
        else SteppedDown(q, when)
  }

  // --- Every entry point ------------------------------------------------------------------

  datatype Event =
    | Configure(conf: Config, ceiling: nat, clientOn: bool, radioOn: bool, clientMode: Option<Mode>)
    | SetClientMode(mode: Option<Mode>)
    | SetPacingWindow(fraction: real)
    | SetClientEnabled(on: bool)
    | SetRadioAware(on: bool)
    | SetCeiling(bps: nat)
    | Reset
    | OnFrameBytes(index: nat, stream: nat, bytes: nat, now: int)
    | OnFeedback(report: Report, period: int, streaming: bool, now: int)
    | OnWifiState(rssi: int, link: int, now: int)

  function Step(s: State, e: Event): State
    requires Shaped(s)
  {
    match e
    case Configure(c, ceiling, on, radio, mode) => Configured(s, c, ceiling, on, radio, mode)
    case SetClientMode(m) =>
      var w := s.(switches := s.switches.(clientMode := m));
      if ModeOf(w.switches) == ModeOf(s.switches) then w else StartedOver(w)
    case SetPacingWindow(f) =>
      s.(switches := s.switches.(pacing := if f < 0.0 then 0.0 else if f > 1.0 then 1.0 else f))
    case SetClientEnabled(on) =>
      if on == s.switches.clientEnabled then s else StartedOver(s.(switches := s.switches.(clientEnabled := on)))
    case SetRadioAware(on) =>
      if on == s.switches.radioAware then s else s.(switches := s.switches.(radioAware := on), radio := NO_RADIO)
    case SetCeiling(bps) =>
      if bps == 0 || bps == s.rate.ceiling then s
      else StartedOver(s.(rate := s.rate.(ceiling := bps, floor := Min(s.switches.conf.floor, bps))))
    case Reset => StartedOver(s)
    case OnFrameBytes(index, stream, bytes, now) => FrameBytes(s, index, stream, bytes, now)
    case OnFeedback(report, period, streaming, now) => Feedback(s, report, period, streaming, now)
    case OnWifiState(rssi, link, now) => Wifi(s, rssi, link, now)
  }

  // The events that forget every frame.
  predicate Restarts(s: State, e: Event) {
    match e
    case Configure(_, _, _, _, _) => true
    case SetClientMode(m) => s.rate.ceiling != 0 && ModeOf(s.switches.(clientMode := m)) != ModeOf(s.switches)
    case SetClientEnabled(on) => s.rate.ceiling != 0 && on != s.switches.clientEnabled
    case SetCeiling(bps) => bps != 0 && bps != s.rate.ceiling
    case Reset => s.rate.ceiling != 0
    case _ => false
  }
}
