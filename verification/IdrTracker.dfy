/**
  When the stream needs a key frame (helper/src/wivrn/idr_tracker.h): four states, and
  a floor on how often a recovery key frame may be asked for. Times are nanoseconds.
 */
module IdrTracker {

  datatype Phase = NeedIdr | WaitFeedback | IdrReceived | Running

  datatype Tracker = Tracker(phase: Phase, idrId: nat, firstP: nat, pending: bool, lastRequest: int, damped: nat)

  const MIN_INTERVAL := 500_000_000

  const INITIAL := Tracker(NeedIdr, 0, 0, false, 0, 0)

  datatype Event =
    | Reset
    | Sent(frame: nat, idr: bool)
    | Feedback(frame: nat, arrived: bool, now: int)
    | Poll(now: int)

  function AfterSent(t: Tracker, frame: nat, idr: bool): Tracker {
    if idr then t.(phase := WaitFeedback, idrId := frame, pending := false)
    else if t.phase == IdrReceived then t.(phase := Running, firstP := frame)
    else t
  }

  // The feedback says a frame the decoder depends on is lost.
  predicate Loses(t: Tracker, frame: nat, arrived: bool) {
    !arrived && ((t.phase == WaitFeedback && frame == t.idrId) || (t.phase == Running && frame >= t.firstP))
  }

  // A time of zero stands for "never asked".
  predicate Floored(t: Tracker, now: int) { t.lastRequest != 0 && now - t.lastRequest < MIN_INTERVAL }

  function Requested(t: Tracker, now: int): Tracker {
    if Floored(t, now) then t.(pending := true, damped := if t.pending then t.damped else t.damped + 1)
    else t.(pending := false, lastRequest := now)
  }

  function AfterFeedback(t: Tracker, frame: nat, arrived: bool, now: int): Tracker {
    if Loses(t, frame, arrived) then Requested(t.(phase := NeedIdr), now)
    else if t.phase == WaitFeedback && frame == t.idrId then t.(phase := IdrReceived)
    else t
  }

  predicate PollGrants(t: Tracker, now: int) { t.pending && now - t.lastRequest >= MIN_INTERVAL }

  function AfterPoll(t: Tracker, now: int): Tracker {
    if PollGrants(t, now) then t.(pending := false, lastRequest := now) else t
  }

  function Next(t: Tracker, e: Event): Tracker {
    match e
    case Reset => INITIAL
    case Sent(frame, idr) => AfterSent(t, frame, idr)
    case Feedback(frame, arrived, now) => AfterFeedback(t, frame, arrived, now)
    case Poll(now) => AfterPoll(t, now)
  }

  // The event makes the session ask the encoder for a recovery key frame.
  predicate Grants(t: Tracker, e: Event) {
    match e
    case Feedback(frame, arrived, now) => Loses(t, frame, arrived) && !Floored(t, now)
    case Poll(now) => PollGrants(t, now)
    case _ => false
  }

  // --- Runs -----------------------------------------------------------------------

  ghost predicate IsRun(ts: seq<Tracker>, events: seq<Event>) {
    |ts| == |events| + 1 && ts[0] == INITIAL && forall k :: 0 <= k < |events| ==> ts[k + 1] == Next(ts[k], events[k])
  }

  // A held request means a key frame is needed, and the floor it waits for is real.
  ghost predicate Inv(t: Tracker) {
    t.pending ==> t.phase == NeedIdr && t.lastRequest != 0
  }

  lemma {:induction false} RunKeepsInv(ts: seq<Tracker>, events: seq<Event>, n: nat)
    requires IsRun(ts, events) && n <= |events|
    ensures Inv(ts[n])
  {
    if n > 0 { RunKeepsInv(ts, events, n - 1); }
  }

  lemma HeldRequestNeedsIdr(ts: seq<Tracker>, events: seq<Event>, n: nat)
    requires IsRun(ts, events) && n <= |events|
    ensures ts[n].pending ==> ts[n].phase == NeedIdr
  {
    RunKeepsInv(ts, events, n);
  }

  // Without a key frame going out, a tracker that needs one and holds no request asks
  // for none.
  lemma {:induction false} QuietUntilSent(ts: seq<Tracker>, events: seq<Event>, i: nat, j: nat)
    requires IsRun(ts, events) && i <= j <= |events| && ts[i].phase == NeedIdr && !ts[i].pending
    requires forall k :: i <= k < j ==> !(events[k].Sent? && events[k].idr)
    ensures ts[j].phase == NeedIdr
    ensures !ts[j].pending
    decreases j - i
  {
    if i < j {
      QuietUntilSent(ts, events, i, j - 1);
      assert !(events[j - 1].Sent? && events[j - 1].idr);
    }
  }

  // Between any two grants a key frame is sent.
  lemma KeyFrameBetweenGrants(ts: seq<Tracker>, events: seq<Event>, i: nat, j: nat)
    requires IsRun(ts, events) && i < j < |events| && Grants(ts[i], events[i]) && Grants(ts[j], events[j])
    ensures exists k :: i < k < j && events[k].Sent? && events[k].idr
  {
    RunKeepsInv(ts, events, i);
    assert ts[i + 1] == Next(ts[i], events[i]);
    if forall k :: i < k < j ==> !(events[k].Sent? && events[k].idr) {
      QuietUntilSent(ts, events, i + 1, j);
    }
  }

  // --- The floor -----------------------------------------------------------------------

  ghost predicate NoReset(events: seq<Event>, i: nat, j: nat)
    requires i <= j <= |events|
  {
    forall k :: i <= k < j ==> !events[k].Reset?
  }

  ghost predicate NoGrant(ts: seq<Tracker>, events: seq<Event>, i: nat, j: nat)
    requires |ts| == |events| + 1 && i <= j <= |events|
  {
    forall k :: i <= k < j ==> !Grants(ts[k], events[k])
  }

  lemma {:induction false} LastRequestStays(ts: seq<Tracker>, events: seq<Event>, i: nat, j: nat)
    requires IsRun(ts, events) && i <= j <= |events| && NoReset(events, i, j) && NoGrant(ts, events, i, j)
    ensures ts[j].lastRequest == ts[i].lastRequest
    decreases j - i
  {
    if i < j {
      LastRequestStays(ts, events, i, j - 1);
      assert !events[j - 1].Reset? && !Grants(ts[j - 1], events[j - 1]);
    }
  }

  // Two successive grants: at least the floor apart, unless the first came at the time
  // that stands for "never".
  lemma SuccessiveGrantsAreSpaced(ts: seq<Tracker>, events: seq<Event>, i: nat, j: nat)
    requires IsRun(ts, events) && i < j < |events| && Grants(ts[i], events[i]) && Grants(ts[j], events[j])
    requires NoReset(events, i, j) && NoGrant(ts, events, i + 1, j) && events[i].now != 0
    ensures events[j].now - events[i].now >= MIN_INTERVAL
  {
    assert ts[i + 1] == Next(ts[i], events[i]);
    LastRequestStays(ts, events, i + 1, j);
  }

  // Any two grants between resets, none of them at time zero.
  lemma {:induction false} GrantsAreSpaced(ts: seq<Tracker>, events: seq<Event>, i: nat, j: nat)
    requires IsRun(ts, events) && i < j < |events| && Grants(ts[i], events[i]) && Grants(ts[j], events[j])
    requires NoReset(events, i, j) && forall k :: i <= k < j && Grants(ts[k], events[k]) ==> events[k].now != 0
    ensures events[j].now - events[i].now >= MIN_INTERVAL
    decreases j - i
  {
    if NoGrant(ts, events, i + 1, j) {
      SuccessiveGrantsAreSpaced(ts, events, i, j);
    } else {
      var k :| i + 1 <= k < j && Grants(ts[k], events[k]);
      GrantsAreSpaced(ts, events, i, k);
      GrantsAreSpaced(ts, events, k, j);
    }
  }

  // Two successive grants of a run, the first at time t.
  ghost predicate Successive(ts: seq<Tracker>, events: seq<Event>, i: nat, j: nat, t: int) {
    && IsRun(ts, events) && i < j < |events| && Grants(ts[i], events[i]) && Grants(ts[j], events[j])
    && NoReset(events, i, j) && NoGrant(ts, events, i + 1, j) && events[i].now == t
  }

  // Whether a grant at time t keeps its distance from the next one in every run.
  ghost predicate KeepsDistance(t: int) {
    forall ts: seq<Tracker>, events: seq<Event>, i: nat, j: nat ::
      Successive(ts, events, i, j, t) ==> events[j].now - t >= MIN_INTERVAL
  }

  lemma DistanceKeptExactly(t: int)
    ensures KeepsDistance(t) <==> t != 0
  {
    if t == 0 {
      var events := [Sent(1, true), Feedback(1, false, 0), Sent(2, true), Feedback(2, false, 1)];
      var t1 := Next(INITIAL, events[0]);
      var t2 := Next(t1, events[1]);
      var t3 := Next(t2, events[2]);
      var t4 := Next(t3, events[3]);
      assert Successive([INITIAL, t1, t2, t3, t4], events, 1, 3, 0);
    } else {
      forall ts: seq<Tracker>, events: seq<Event>, i: nat, j: nat | Successive(ts, events, i, j, t)
        ensures events[j].now - t >= MIN_INTERVAL
      {
        SuccessiveGrantsAreSpaced(ts, events, i, j);
      }
    }
  }

  // --- A held request is not forgotten --------------------------------------------------

  // Once held, a request stays held through anything but a key frame going out, a reset
  // or its own grant, and the first poll past the floor grants it.
  lemma {:induction false} HeldUntilPolled(ts: seq<Tracker>, events: seq<Event>, i: nat, j: nat)
    requires IsRun(ts, events) && i <= j < |events| && ts[i].pending && events[j].Poll?
    requires forall k :: i <= k < j ==> !events[k].Reset? && !(events[k].Sent? && events[k].idr)
    requires forall k :: i <= k < j && events[k].Poll? ==> events[k].now - ts[i].lastRequest < MIN_INTERVAL
    ensures ts[j].pending
    ensures Grants(ts[j], events[j]) <==> events[j].now - ts[i].lastRequest >= MIN_INTERVAL
  {
    HeldStays(ts, events, i, j);
  }

  lemma {:induction false} HeldStays(ts: seq<Tracker>, events: seq<Event>, i: nat, j: nat)
    requires IsRun(ts, events) && i <= j <= |events| && ts[i].pending
    requires forall k :: i <= k < j ==> !events[k].Reset? && !(events[k].Sent? && events[k].idr)
    requires forall k :: i <= k < j && events[k].Poll? ==> events[k].now - ts[i].lastRequest < MIN_INTERVAL
    ensures ts[j].pending
    ensures ts[j].lastRequest == ts[i].lastRequest
    decreases j - i
  {
    if i < j {
      HeldStays(ts, events, i, j - 1);
      RunKeepsInv(ts, events, j - 1);
      assert ts[j] == Next(ts[j - 1], events[j - 1]);
    }
  }

  // A loss is never ignored: it is granted at once or held.
  lemma LossIsGrantedOrHeld(ts: seq<Tracker>, events: seq<Event>, i: nat)
    requires IsRun(ts, events) && i < |events| && events[i].Feedback?
             && Loses(ts[i], events[i].frame, events[i].arrived)
    ensures ts[i + 1].phase == NeedIdr && (Grants(ts[i], events[i]) <==> !ts[i + 1].pending)
    ensures ts[i + 1].damped == ts[i].damped + if ts[i + 1].pending then 1 else 0
  {
    RunKeepsInv(ts, events, i);
    assert ts[i + 1] == Next(ts[i], events[i]);
  }

  // --- The class ---------------------------------------------------------------------------

  class KeyFrameTracker {
    var phase: Phase
    var idrId: nat
    var firstP: nat
    var pending: bool
    var lastRequest: int
    var damped: nat

    ghost function View(): Tracker
      reads this
    {
      Tracker(phase, idrId, firstP, pending, lastRequest, damped)
    }

    constructor ()
      ensures View() == INITIAL
    {
      phase, idrId, firstP, pending, lastRequest, damped := NeedIdr, 0, 0, false, 0, 0;
    }

    method Restart()
      modifies this
      ensures View() == Next(old(View()), Event.Reset)
    {
      phase, idrId, firstP, pending, lastRequest, damped := NeedIdr, 0, 0, false, 0, 0;
    }

    method OnFrameSent(frame: nat, idr: bool)
      modifies this
      ensures View() == Next(old(View()), Sent(frame, idr))
    {
      if idr {
        phase := WaitFeedback;
        idrId := frame;
        pending := false;
      } else if phase == IdrReceived {
        phase := Running;
        firstP := frame;
      }
    }

    method OnFeedback(frame: nat, arrived: bool, now: int) returns (granted: bool)
      modifies this
      ensures View() == Next(old(View()), Feedback(frame, arrived, now))
      ensures granted == Grants(old(View()), Feedback(frame, arrived, now))
    {
      match phase {
        case NeedIdr => return false;
        case IdrReceived => return false;
        case WaitFeedback =>
          if frame != idrId { return false; }
          if arrived {
            phase := IdrReceived;
            return false;
          }
          phase := NeedIdr;
          granted := Request(now);
        case Running =>
          if arrived || frame < firstP { return false; }
          phase := NeedIdr;
          granted := Request(now);
      }
    }

    method PollHeld(now: int) returns (granted: bool)
      modifies this
      ensures View() == Next(old(View()), Poll(now)) && granted == Grants(old(View()), Poll(now))
    {
      if !pending { return false; }
      if now - lastRequest < MIN_INTERVAL { return false; }
      pending := false;
      lastRequest := now;
      granted := true;
    }

    method Request(now: int) returns (granted: bool)
      modifies this
      ensures View() == Requested(old(View()), now) && granted == !Floored(old(View()), now)
    {
      if lastRequest != 0 && now - lastRequest < MIN_INTERVAL {
        if !pending { damped := damped + 1; }
        pending := true;
        return false;
      }
      pending := false;
      lastRequest := now;
      granted := true;
    }
  }
}
