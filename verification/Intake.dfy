/**
  The helper's frame intake (helper/src/video_intake.cpp) together with the two
  threads that work on it: the pipe loop (helper/src/pipe_server.cpp), which sends
  every queued answer before it reads one message, and the encoder thread, which
  takes the pending frame and answers it. A ledger records every frame received
  and every answer sent, so that "answered exactly once" can be stated.
 */
module Intake {
  import opened Prelude

  datatype Config = Config(generation: nat, count: nat)
  datatype Ready = Ready(id: nat, generation: nat, slot: nat)
  datatype Done = Done(id: nat, slot: nat, flags: nat)

  const ENCODED: nat := 0
  const DROPPED: nat := 1
  const MAX_DONE: nat := 8

  datatype State = State(staging: Option<Config>, stagingChanged: bool, pending: Option<Ready>, done: seq<Done>)

  const INITIAL := State(None, false, None, [])

  // The queue of answers is bounded; a full one loses its oldest entry.
  function PushDone(done: seq<Done>, f: Ready, flags: nat): seq<Done> {
    (if |done| >= MAX_DONE then done[1..] else done) + [Done(f.id, f.slot, flags)]
  }

  function OnStagingConfig(s: State, c: Config): State {
    if s.pending.Some? && s.pending.value.generation != c.generation
    then State(Some(c), true, None, PushDone(s.done, s.pending.value, DROPPED))
    else s.(staging := Some(c), stagingChanged := true)
  }

  // The frame names a slot of the ring the intake knows about.
  predicate Refers(s: State, f: Ready) {
    s.staging.Some? && f.generation == s.staging.value.generation && f.slot < s.staging.value.count
  }

  function OnFrameReady(s: State, f: Ready, wanted: bool): State {
    if !Refers(s, f) || !wanted then s.(done := PushDone(s.done, f, DROPPED))
    else if s.pending.Some? then s.(pending := Some(f), done := PushDone(s.done, s.pending.value, DROPPED))
    else s.(pending := Some(f))
  }

  function OnShimGone(s: State): State { State(None, true, None, []) }

  // --- The two threads ---------------------------------------------------

  // Where the pipe thread is: no client; sending answers; blocked on one message
  // after having found the answer queue empty; the client just lost.
  datatype Phase = Idle | Draining | Polling | Leaving

  // A frame and its answer are matched on the id and the slot both carry.
  type Key = (nat, nat)

  datatype World = World(intake: State, encoding: Option<Ready>, phase: Phase,
                         received: multiset<Key>, sent: multiset<Key>, discarded: multiset<Key>)

  const START := World(INITIAL, None, Idle, multiset{}, multiset{}, multiset{})

  datatype Step =
    | Accept
    | SendDone
    | SendFails
    | Drained
    | PollTimeout
    | ReadReady(f: Ready, wanted: bool)
    | ReadConfig(c: Config)
    | ReadOther
    | Leave
    | ShimGone
    | EncoderWakes
    | EncoderTakes
    | EncoderAnswers(flags: nat)

  function KeyOf(f: Ready): Key { (f.id, f.slot) }

  function AnswerKey(d: Done): Key { (d.id, d.slot) }

  function AnswerKeys(done: seq<Done>): multiset<Key> {
    if done == [] then multiset{} else multiset{AnswerKey(done[0])} + AnswerKeys(done[1..])
  }

  function FrameKeys(f: Option<Ready>): multiset<Key> {
    if f.Some? then multiset{KeyOf(f.value)} else multiset{}
  }

  // How often a key occurs among queued answers, and in an optional frame.
  function InDone(done: seq<Done>, key: Key): nat {
    if done == [] then 0 else (if AnswerKey(done[0]) == key then 1 else 0) + InDone(done[1..], key)
  }

  function InFrame(f: Option<Ready>, key: Key): nat {
    if f.Some? && KeyOf(f.value) == key then 1 else 0
  }

  predicate Enabled(w: World, step: Step) {
    match step
    case Accept => w.phase.Idle?
    case SendDone => w.phase.Draining? && w.intake.done != []
    case SendFails => w.phase.Draining? && w.intake.done != []
    case Drained => w.phase.Draining? && w.intake.done == []
    case PollTimeout => w.phase.Polling?
    case ReadReady(_, _) => w.phase.Polling?
    case ReadConfig(_) => w.phase.Polling?
    case ReadOther => w.phase.Polling?
    case Leave => w.phase.Draining? || w.phase.Polling?
    case ShimGone => w.phase.Leaving?
    case EncoderWakes => w.encoding.None? && w.intake.stagingChanged
    case EncoderTakes => w.encoding.None? && w.intake.pending.Some?
    case EncoderAnswers(_) => w.encoding.Some?
  }

  function Popped(s: State): State
    requires s.done != []
  {
    s.(done := s.done[1..])
  }

  function Apply(w: World, step: Step): World
    requires Enabled(w, step)
  {
    match step
    case Accept => w.(phase := Draining)
    case SendDone =>
      w.(intake := Popped(w.intake), sent := w.sent + multiset{AnswerKey(w.intake.done[0])})
    case SendFails =>
      w.(intake := Popped(w.intake), discarded := w.discarded + multiset{AnswerKey(w.intake.done[0])}, phase := Leaving)
    case Drained => w.(phase := Polling)
    case PollTimeout => w.(phase := Draining)
    case ReadReady(f, wanted) =>
      w.(intake := OnFrameReady(w.intake, f, wanted), received := w.received + multiset{KeyOf(f)}, phase := Draining)
    case ReadConfig(c) => w.(intake := OnStagingConfig(w.intake, c), phase := Draining)
    case ReadOther => w.(phase := Draining)
    case Leave => w.(phase := Leaving)
    case ShimGone =>
      w.(intake := OnShimGone(w.intake), phase := Idle,
         discarded := w.discarded + AnswerKeys(w.intake.done) + FrameKeys(w.intake.pending))
    case EncoderWakes => w.(intake := w.intake.(stagingChanged := false))
    case EncoderTakes => w.(intake := w.intake.(pending := None), encoding := w.intake.pending)
    case EncoderAnswers(flags) =>
      w.(intake := w.intake.(done := PushDone(w.intake.done, w.encoding.value, flags)), encoding := None)
  }

  function Outstanding(w: World): nat {
    |w.intake.done| + (if w.intake.pending.Some? then 1 else 0) + (if w.encoding.Some? then 1 else 0)
  }

  // Every frame received is accounted for, once: answered, waiting to be answered,
  // waiting to be encoded, being encoded, or thrown away with a lost client.
  ghost predicate Balanced(w: World) {
    forall key: Key :: BalancedAt(w, key)
  }

  predicate BalancedAt(w: World, key: Key) {
    w.received[key] ==
      w.sent[key] + w.discarded[key]
      + InDone(w.intake.done, key) + InFrame(w.intake.pending, key) + InFrame(w.encoding, key)
  }

  predicate Bounded(w: World) {
    Outstanding(w) <= if w.phase.Polling? then 2 else 3
  }

  ghost predicate Inv(w: World) {
    && Balanced(w)
    && Bounded(w)
  }

  lemma {:induction false} InDoneAppend(a: seq<Done>, d: Done, key: Key)
    ensures InDone(a + [d], key) == InDone(a, key) + if AnswerKey(d) == key then 1 else 0
    decreases |a|
  {
    if a == [] {
      assert a + [d] == [d];
    } else {
      assert (a + [d])[1..] == a[1..] + [d];
      InDoneAppend(a[1..], d, key);
    }
  }

  lemma {:induction false} AnswerKeysCount(done: seq<Done>, key: Key)
    ensures AnswerKeys(done)[key] == InDone(done, key)
    ensures |AnswerKeys(done)| == |done|
    decreases |done|
  {
    if done != [] { AnswerKeysCount(done[1..], key); }
  }

  lemma PushCounts(done: seq<Done>, f: Ready, flags: nat, key: Key)
    requires |done| < MAX_DONE
    ensures InDone(PushDone(done, f, flags), key) == InDone(done, key) + InFrame(Some(f), key)
  {
    InDoneAppend(done, Done(f.id, f.slot, flags), key);
  }

  lemma ReadKeepsBalance(w: World, step: Step, key: Key)
    requires BalancedAt(w, key) && Bounded(w) && Enabled(w, step) && (step.ReadReady? || step.ReadConfig?)
    ensures BalancedAt(Apply(w, step), key)
  {
    var done, pending := w.intake.done, w.intake.pending;
    if step.ReadReady? { PushCounts(done, step.f, DROPPED, key); }
    if pending.Some? { PushCounts(done, pending.value, DROPPED, key); }
  }

  lemma SendKeepsBalance(w: World, step: Step, key: Key)
    requires BalancedAt(w, key) && Enabled(w, step) && (step.SendDone? || step.SendFails?)
    ensures BalancedAt(Apply(w, step), key)
  {
  }

  lemma StepKeepsBalance(w: World, step: Step, key: Key)
    requires BalancedAt(w, key) && Bounded(w) && Enabled(w, step)
    ensures BalancedAt(Apply(w, step), key)
  {
    match step
    case SendDone => SendKeepsBalance(w, step, key);
    case SendFails => SendKeepsBalance(w, step, key);
    case ShimGone => AnswerKeysCount(w.intake.done, key);
    case ReadReady(_, _) => ReadKeepsBalance(w, step, key);
    case ReadConfig(_) => ReadKeepsBalance(w, step, key);
    case EncoderAnswers(flags) => PushCounts(w.intake.done, w.encoding.value, flags, key);
    case _ =>
  }

  lemma StepKeepsBound(w: World, step: Step)
    requires Bounded(w) && Enabled(w, step)
    ensures Bounded(Apply(w, step))
  {
  }

  lemma StepKeepsInv(w: World, step: Step)
    requires Inv(w) && Enabled(w, step)
    ensures Inv(Apply(w, step))
  {
    StepKeepsBound(w, step);
    forall key: Key ensures BalancedAt(Apply(w, step), key) { StepKeepsBalance(w, step, key); }
  }

  lemma StepAppendsAnswers(w: World, step: Step)
    requires Bounded(w) && Enabled(w, step) && !step.SendDone? && !step.SendFails? && !step.ShimGone?
    ensures w.intake.done <= Apply(w, step).intake.done
  {
  }

  ghost predicate IsRun(ws: seq<World>, steps: seq<Step>) {
    |ws| == |steps| + 1 && ws[0] == START
    && forall k :: 0 <= k < |steps| ==> Enabled(ws[k], steps[k]) && ws[k + 1] == Apply(ws[k], steps[k])
  }

  // Over every interleaving of the two threads, at most three frames are ever
  // outstanding and the ledger balances.
  lemma {:induction false} EveryRunBalances(ws: seq<World>, steps: seq<Step>, k: nat)
    requires IsRun(ws, steps) && k < |ws|
    ensures forall i :: 0 <= i <= k ==> Inv(ws[i])
    decreases k
  {
    if k > 0 {
      EveryRunBalances(ws, steps, k - 1);
      StepKeepsInv(ws[k - 1], steps[k - 1]);
    }
  }

  // The eight-entry queue of answers never has to evict one: whichever step comes
  // next, what it pushes is appended to everything that was queued.
  lemma NoAnswerIsEvicted(ws: seq<World>, steps: seq<Step>, k: nat)
    requires IsRun(ws, steps) && k < |steps|
    ensures |ws[k].intake.done| <= 3
    ensures !steps[k].SendDone? && !steps[k].SendFails? && !steps[k].ShimGone? ==>
              ws[k].intake.done <= ws[k + 1].intake.done
  {
    EveryRunBalances(ws, steps, k);
    if !steps[k].SendDone? && !steps[k].SendFails? && !steps[k].ShimGone? {
      StepAppendsAnswers(ws[k], steps[k]);
    }
  }

  // As long as no client is lost, every frame received has been answered exactly
  // once as soon as nothing is outstanding, and before that never more than once
  // and at most three are still owed.
  lemma AnsweredExactlyOnce(ws: seq<World>, steps: seq<Step>)
    requires IsRun(ws, steps)
    requires forall step :: step in steps ==> !step.SendFails? && !step.ShimGone?
    ensures var w := ws[|steps|];
            && w.sent <= w.received
            && |w.received| == |w.sent| + Outstanding(w)
            && Outstanding(w) <= 3
            && (Outstanding(w) == 0 ==> w.sent == w.received)
  {
    NothingDiscarded(ws, steps, |steps|);
    EveryRunBalances(ws, steps, |steps|);
    var w := ws[|steps|];
    forall key: Key ensures w.received[key] == w.sent[key] + Owed(w)[key] {
      assert BalancedAt(w, key);
      OwedCounts(w, key);
    }
    OwedCounts(w, (0, 0));
    SumOf(w.received, w.sent, Owed(w));
  }

  // What the helper does of itself: send answers, poll, encode.
  predicate OwnStep(step: Step) {
    step.SendDone? || step.PollTimeout? || step.EncoderTakes? || step.EncoderAnswers?
  }

  // At most n steps of the helper's own leave nothing outstanding.
  ghost predicate Discharges(w: World, n: nat)
    decreases n
  {
    || Outstanding(w) == 0
    || (n > 0 && exists step :: OwnStep(step) && Enabled(w, step) && Discharges(Apply(w, step), n - 1))
  }

  // How many steps that takes: a pending frame has to be taken, answered and sent.
  function StepsOwed(w: World): nat {
    |w.intake.done| + (if w.encoding.Some? then 2 else 0) + (if w.intake.pending.Some? then 3 else 0)
    + if w.phase.Polling? then 1 else 0
  }

  function NextOwn(w: World): Step {
    if w.phase.Polling? then PollTimeout
    else if w.intake.done != [] then SendDone
    else if w.encoding.Some? then EncoderAnswers(DROPPED)
    else EncoderTakes
  }

  lemma NextOwnHelps(w: World)
    requires (w.phase.Draining? || w.phase.Polling?) && Outstanding(w) != 0
    ensures OwnStep(NextOwn(w)) && Enabled(w, NextOwn(w))
    ensures var t := Apply(w, NextOwn(w)); t.phase.Draining? && StepsOwed(t) + 1 == StepsOwed(w)
  {
  }

  lemma {:induction false} AnswersCanBeSent(w: World)
    requires w.phase.Draining? || w.phase.Polling?
    ensures Discharges(w, StepsOwed(w))
    decreases StepsOwed(w)
  {
    if Outstanding(w) != 0 {
      NextOwnHelps(w);
      AnswersCanBeSent(Apply(w, NextOwn(w)));
    }
  }

  // In every run, while a client is connected: the helper can send every answer it owes by
  // steps of its own, three for each and one to get to sending.
  lemma OwedAnswersCanBeSent(ws: seq<World>, steps: seq<Step>, k: nat)
    requires IsRun(ws, steps) && k < |ws| && (ws[k].phase.Draining? || ws[k].phase.Polling?)
    ensures Discharges(ws[k], StepsOwed(ws[k])) && StepsOwed(ws[k]) <= 3 * Outstanding(ws[k]) + 1
  {
    EveryRunBalances(ws, steps, k);
    AnswersCanBeSent(ws[k]);
  }

  // The keys of everything outstanding.
  function Owed(w: World): multiset<Key> {
    AnswerKeys(w.intake.done) + FrameKeys(w.intake.pending) + FrameKeys(w.encoding)
  }

  lemma OwedCounts(w: World, key: Key)
    ensures Owed(w)[key] == InDone(w.intake.done, key) + InFrame(w.intake.pending, key) + InFrame(w.encoding, key)
    ensures |Owed(w)| == Outstanding(w)
  {
    AnswerKeysCount(w.intake.done, key);
  }

  lemma SumOf(all: multiset<Key>, a: multiset<Key>, b: multiset<Key>)
    requires forall key: Key :: all[key] == a[key] + b[key]
    ensures a <= all
    ensures |all| == |a| + |b|
    ensures |b| == 0 ==> a == all
  {
    assert all == a + b;
  }

  lemma {:induction false} NothingDiscarded(ws: seq<World>, steps: seq<Step>, k: nat)
    requires IsRun(ws, steps) && k < |ws|
    requires forall step :: step in steps ==> !step.SendFails? && !step.ShimGone?
    ensures ws[k].discarded == multiset{}
    decreases k
  {
    if k > 0 {
      NothingDiscarded(ws, steps, k - 1);
      assert steps[k - 1] in steps;
    }
  }
}
