/**
  Which changes of the bitrate cut off the frames reported before them
  (helper/src/wivrn/bitrate_controller.cpp): a change the controller decides on does, a
  restart that moves the bitrate does not, because it forgets which frames it knew before
  it flushes the window.
 */
module BitrateRestarts {
  import opened Prelude
  import opened BitrateLaw
  import opened BitrateSafety
  import opened BitrateRuns

  // Step i moves the bitrate.
  ghost predicate Changes(states: seq<State>, i: nat)
    requires i + 1 < |states|
  {
    states[i + 1].rate.bitrate != states[i].rate.bitrate
  }

  lemma RestartForgets(s: State, e: Event)
    ensures Inv(s) && Restarts(s, e) ==> Step(s, e).frames.staleBefore == 0
  {
  }

  // In every run: a change marks every frame known before it as stale exactly when it is
  // not a restart.
  lemma ChangeMarksExactly(states: seq<State>, events: seq<Event>, i: nat)
    requires IsRun(states, events) && i < |events| && Changes(states, i) && states[i].frames.any
    ensures states[i + 1].frames.staleBefore > states[i].frames.newest <==> !Restarts(states[i], events[i])
  {
    RunFacts(states, events, i);
    assert Takes(states, events, i);
    if Restarts(states[i], events[i]) { RestartForgets(states[i], events[i]); }
  }

  // A frame is reported at step h, the bitrate changes at step i, and no restart but that
  // change, if it is one, comes between the report and position j.
  ghost predicate ReportedThenChanged(states: seq<State>, events: seq<Event>, h: nat, i: nat, j: nat) {
    && IsRun(states, events) && h <= i < j <= |events|
    && Unbroken(states, events, h, i) && Unbroken(states, events, i + 1, j)
    && ActsOn(states[h], events[h]) && Changes(states, i)
  }

  ghost predicate CutsOff(states: seq<State>, events: seq<Event>, h: nat, j: nat)
    requires h < |events| && j < |states| && events[h].OnFeedback?
  {
    forall p :: p in states[j].frames.window ==> p.frame > events[h].report.frame
  }

  // Changes of one kind, restarts or not, cut off every frame reported before them.
  ghost predicate KindCutsOff(restart: bool) {
    forall states, events, h, i, j ::
      ReportedThenChanged(states, events, h, i, j) && Restarts(states[i], events[i]) == restart ==>
        CutsOff(states, events, h, j)
  }

  lemma UnbrokenThrough(states: seq<State>, events: seq<Event>, h: nat, i: nat, j: nat)
    requires |states| == |events| + 1 && h <= i < j <= |events| && !Restarts(states[i], events[i])
    requires Unbroken(states, events, h, i) && Unbroken(states, events, i + 1, j)
    ensures Unbroken(states, events, h, j)
  {
  }

  // --- A run in which a restart lets an older frame through ----------------------------------

  function Lost(i: nat): Event { OnFeedback(Report(i, 0, false, 0, 0, false, false, 0), 1, true, 0) }

  function RestartRun(): seq<Event> {
    [Configure(Config(true, 0, Aimd), 10, true, true, None), Lost(100), SetCeiling(20), Lost(5), Lost(21)]
  }

  // A lost report at time zero of a frame whose slot is empty: it is put there.
  function Taken(s: State, i: nat): State
    requires Shaped(s)
  {
    s.(frames := s.frames.(ring := s.frames.ring[i % RING := NO_FRAME.(index := Some(i), lost := true)],
                           newest := i, any := true, period := 1))
  }

  lemma LostIsTaken(s: State, i: nat)
    requires Shaped(s) && Controlling(s) && s.rate.lastEvaluation == 0
    requires s.frames.ring[i % RING] == NO_FRAME && (s.frames.any ==> i > s.frames.newest)
    ensures Step(s, Lost(i)) == Taken(s, i)
  {
  }

  // A lost report that displaces another lost frame from its slot makes it a sample.
  lemma LostDisplaces(s: State, i: nat, x: nat)
    requires Shaped(s) && Controlling(s) && s.rate.lastEvaluation == 0 && x != i && s.frames.staleBefore <= x
    requires s.frames.ring[i % RING] == NO_FRAME.(index := Some(x), lost := true) && !TooOld(s, i)
    ensures Step(s, Lost(i)).frames.window == s.frames.window + [Sample(x, 0, 0.0, true, false, 0.0)]
  {
  }

  lemma RestartLetsOldFramesThrough()
    ensures exists states :: ReportedThenChanged(states, RestartRun(), 1, 2, 5)
              && Restarts(states[2], RestartRun()[2]) && !CutsOff(states, RestartRun(), 1, 5)
  {
    var events := RestartRun();
    var configured := Step(Initial(), events[0]);
    LostIsTaken(configured, 100);
    var known := Taken(configured, 100);
    var restarted := Step(known, events[2]);
    assert restarted.frames.ring == EmptyRing();
    LostIsTaken(restarted, 5);
    var again := Taken(restarted, 5);
    LostDisplaces(again, 21, 5);
    var last := Step(again, events[4]);
    var states := [Initial(), configured, known, restarted, again, last];
    assert Takes(states, events, 0) && Takes(states, events, 1) && Takes(states, events, 2);
    assert Takes(states, events, 3) && Takes(states, events, 4);
    assert last.frames.window[0] == Sample(5, 0, 0.0, true, false, 0.0);
    assert ReportedThenChanged(states, events, 1, 2, 5);
  }

  // A change cuts off the frames reported before it, in every run, exactly when it is not
  // a restart.
  lemma ChangeCutsOffExactly(restart: bool)
    ensures KindCutsOff(restart) <==> !restart
  {
    if restart {
      RestartLetsOldFramesThrough();
    } else {
      forall states, events, h, i, j |
        ReportedThenChanged(states, events, h, i, j) && Restarts(states[i], events[i]) == restart
        ensures CutsOff(states, events, h, j)
      {
        UnbrokenThrough(states, events, h, i, j);
        NoSampleFromBeforeTheChange(states, events, h, i, j);
      }
    }
  }
}
