/**
  The seam between the session and the encoder thread (helper/src/video_bridge.cpp):
  what the session asks for, with its generation counters, and the short queue of
  encoded frames between the two.
 */
module VideoRequests {

  datatype Request = Request(active: bool, refresh: real, bitrate: nat, bitrateGen: nat,
                             allow265: bool, allow264: bool, idrGen: nat, configGen: nat)

  datatype Prefs = Prefs(bitrate: nat, codec: nat)

  const FORCE_H264 := 1
  const FORCE_H265 := 2

  // Before any client connects.
  function Fresh(p: Prefs): Request { Request(false, 90.0, p.bitrate, 0, true, true, 0, 0) }

  function WithClient(q: Request, p: Prefs, refresh: real, h265: bool, h264: bool): Request {
    var a265, a264 := h265 && p.codec != FORCE_H264, h264 && p.codec != FORCE_H265;
    var changed := !q.active || q.refresh != refresh || q.allow265 != a265 || q.allow264 != a264;
    var bumped := if q.bitrate != p.bitrate then 1 else 0;
    var moved := if changed then 1 else 0;
    Request(true, refresh, p.bitrate, q.bitrateGen + bumped, a265, a264, q.idrGen + moved, q.configGen + moved)
  }

  function WithBitrate(q: Request, bps: nat): Request {
    if !q.active || bps == 0 || bps == q.bitrate then q else q.(bitrate := bps, bitrateGen := q.bitrateGen + 1)
  }

  function WithIdr(q: Request): Request { q.(idrGen := q.idrGen + 1) }

  function WithoutClient(q: Request): Request { q.(active := false) }
}

module VideoBridge {
  import opened Prelude
  import opened VideoRequests

  datatype Encoded = Encoded(frame: nat, stream: nat)

  const MAX_QUEUED := 4

  // How an encoded frame left the queue.
  datatype Fate = Taken | Dropped | Discarded

  datatype Exit = Exit(frame: Encoded, fate: Fate)

  // The queue with its whole past: everything accepted into it, and everything that left.
  datatype Line = Line(active: bool, frames: seq<Encoded>, accepted: seq<Encoded>, gone: seq<Exit>)

  const IDLE := Line(false, [], [], [])

  function Leave(fs: seq<Encoded>, fate: Fate): seq<Exit> { seq(|fs|, i requires 0 <= i < |fs| => Exit(fs[i], fate)) }

  function Left(xs: seq<Exit>): seq<Encoded> { seq(|xs|, i requires 0 <= i < |xs| => xs[i].frame) }

  // --- Overflow --------------------------------------------------------------------

  // How many entries at the front belong to one frame.
  function Run(q: seq<Encoded>, victim: nat): (n: nat)
    ensures n <= |q|
  {
    if q != [] && q[0].frame == victim then 1 + Run(q[1..], victim) else 0
  }

  // How many entries overflow removes: whole frames, oldest first, until four are left.
  function Overflow(q: seq<Encoded>): (n: nat)
    ensures n <= |q| && |q| - n <= MAX_QUEUED
    decreases |q|
  {
    if |q| <= MAX_QUEUED then 0
    else
      var n := 1 + Run(q[1..], q[0].frame);
      n + Overflow(q[n..])
  }

  function Pushed(l: Line, fs: seq<Encoded>): Line {
    if fs == [] || !l.active then l
    else
      var q := l.frames + fs;
      var n := Overflow(q);
      l.(frames := q[n..], accepted := l.accepted + fs, gone := l.gone + Leave(q[..n], Dropped))
  }

  function TookAll(l: Line): Line { l.(frames := [], gone := l.gone + Leave(l.frames, Taken)) }

  function Cleared(l: Line): Line {
    if !l.active then l else l.(active := false, frames := [], gone := l.gone + Leave(l.frames, Discarded))
  }

  // --- Whole pairs --------------------------------------------------------------------

  function Pair(id: nat): seq<Encoded> { [Encoded(id, 0), Encoded(id, 1)] }

  // Both eyes of each frame, left eye first.
  function Pairs(ids: seq<nat>): (q: seq<Encoded>)
    ensures |q| == 2 * |ids|
  {
    if ids == [] then [] else Pairs(ids[..|ids| - 1]) + Pair(ids[|ids| - 1])
  }

  ghost predicate Ascending(ids: seq<nat>) {
    forall i, j :: 0 <= i < j < |ids| ==> ids[i] < ids[j]
  }

  // Whole eye pairs of frames of increasing identity.
  ghost predicate WholePairs(q: seq<Encoded>) {
    exists ids :: Ascending(ids) && q == Pairs(ids)
  }

  lemma {:induction false} PairsJoin(a: seq<nat>, b: seq<nat>)
    ensures Pairs(a + b) == Pairs(a) + Pairs(b)
    decreases |b|
  {
    if b == [] {
      assert a + b == a;
    } else {
      var c := b[..|b| - 1];
      PairsJoin(a, c);
      assert (a + b)[..|a + b| - 1] == a + c;
      Regroup(Pairs(a), Pairs(c), Pair(b[|b| - 1]));
    }
  }

  lemma PairsUnjoin(ids: seq<nat>, a: seq<nat>, b: seq<nat>)
    requires ids == a + b
    ensures Pairs(ids)[..2 * |a|] == Pairs(a)
    ensures Pairs(ids)[2 * |a|..] == Pairs(b)
  {
    PairsJoin(a, b);
    Unjoin(Pairs(ids), Pairs(a), Pairs(b), 2 * |a|);
  }

  lemma PairsSplit(ids: seq<nat>, n: nat)
    requires n <= |ids|
    ensures Pairs(ids)[..2 * n] == Pairs(ids[..n])
    ensures Pairs(ids)[2 * n..] == Pairs(ids[n..])
  {
    assert ids == ids[..n] + ids[n..];
    PairsUnjoin(ids, ids[..n], ids[n..]);
  }

  lemma PairsHead(ids: seq<nat>)
    requires ids != []
    ensures Pairs(ids)[..2] == Pair(ids[0])
    ensures Pairs(ids)[2..] == Pairs(ids[1..])
  {
    PairsSplit(ids, 1);
    assert ids[..1] == [ids[0]];
    assert Pairs([ids[0]]) == Pairs([]) + Pair(ids[0]);
  }

  // A queue of whole pairs overflows by whole pairs, and by no more than needed.
  lemma {:induction false} OverflowByPairs(ids: seq<nat>)
    requires Ascending(ids)
    ensures Overflow(Pairs(ids)) == Max(0, 2 * |ids| - MAX_QUEUED)
    decreases |ids|
  {
    if 2 * |ids| > MAX_QUEUED {
      var q, f := Pairs(ids), ids[0];
      PairsHead(ids);
      PairsHead(ids[1..]);
      assert q[0] == q[..2][0] && q[1] == q[..2][1] && q[2] == q[2..][0] && q[2..][0] == q[2..][..2][0];
      assert q[1..][1..] == q[2..];
      assert Run(q[2..], f) == 0;
      assert Run(q[1..], f) == 1;
      OverflowByPairs(ids[1..]);
    }
  }

  // --- Every run ------------------------------------------------------------------------

  // The events of the queue: the encoder pushes the two eyes of a frame, the session
  // drains, and clients come and go.
  datatype Event = Connect | Disconnect | PushPair(id: nat) | Take

  function Next(l: Line, e: Event): Line {
    match e
    case Connect => l.(active := true)
    case Disconnect => Cleared(l)
    case PushPair(id) => Pushed(l, Pair(id))
    case Take => TookAll(l)
  }

  function After(events: seq<Event>): Line {
    if events == [] then IDLE else Next(After(events[..|events| - 1]), events[|events| - 1])
  }

  ghost predicate IdsRise(events: seq<Event>) {
    forall i, j :: 0 <= i < j < |events| && events[i].PushPair? && events[j].PushPair? ==> events[i].id < events[j].id
  }

  function Count(xs: seq<Exit>, fate: Fate): nat {
    if xs == [] then 0 else Count(xs[..|xs| - 1], fate) + if xs[|xs| - 1].fate == fate then 1 else 0
  }

  function OfFate(xs: seq<Exit>, fate: Fate): seq<Encoded> {
    if xs == [] then []
    else OfFate(xs[..|xs| - 1], fate) + if xs[|xs| - 1].fate == fate then [xs[|xs| - 1].frame] else []
  }

  lemma LeftJoins(xs: seq<Exit>, fs: seq<Encoded>, fate: Fate)
    ensures Left(xs + Leave(fs, fate)) == Left(xs) + fs
  {
  }

  lemma OfFateGrows(xs: seq<Exit>, x: Exit, fate: Fate)
    ensures OfFate(xs + [x], fate) == OfFate(xs, fate) + if x.fate == fate then [x.frame] else []
  {
    assert (xs + [x])[..|xs|] == xs;
  }

  lemma {:induction false} OfFateJoins(xs: seq<Exit>, fs: seq<Encoded>, fate: Fate, other: Fate)
    ensures OfFate(xs + Leave(fs, fate), other) == OfFate(xs, other) + if fate == other then fs else []
    decreases |fs|
  {
    if fs == [] {
      assert xs + Leave(fs, fate) == xs;
    } else {
      var front, last := fs[..|fs| - 1], fs[|fs| - 1];
      OfFateJoins(xs, front, fate, other);
      assert Leave(fs, fate) == Leave(front, fate) + [Exit(last, fate)];
      Regroup(xs, Leave(front, fate), [Exit(last, fate)]);
      OfFateGrows(xs + Leave(front, fate), Exit(last, fate), other);
      Regroup(OfFate(xs, other), front, [last]);
      assert front + [last] == fs;
    }
  }

  lemma {:induction false} CountsAddUp(xs: seq<Exit>)
    ensures Count(xs, Taken) + Count(xs, Dropped) + Count(xs, Discarded) == |xs|
    ensures forall fate :: Count(xs, fate) == |OfFate(xs, fate)|
  {
    if xs != [] { CountsAddUp(xs[..|xs| - 1]); }
  }

  // What every run keeps, in frame ids: of all accepted, the first `cut` have left, in
  // order, and the rest are queued, at most two of them and none without a client.
  ghost predicate Ledger(l: Line, all: seq<nat>, cut: nat) {
    && cut <= |all| <= cut + 2
    && Ascending(all)
    && (!l.active ==> cut == |all|)
    && Left(l.gone) == Pairs(all[..cut])
    && l.frames == Pairs(all[cut..])
    && l.accepted == Pairs(all)
  }

  // The frames handed to the session are among those that left.
  ghost predicate Handed(l: Line, all: seq<nat>, cut: nat, taken: seq<nat>) {
    && cut <= |all|
    && OfFate(l.gone, Taken) == Pairs(taken)
    && Ascending(taken)
    && (taken != [] ==> cut > 0 && taken[|taken| - 1] <= all[cut - 1])
  }

  lemma LeftGrows(gone: seq<Exit>, all: seq<nat>, cut: nat, n: nat, fate: Fate)
    requires cut + n <= |all| && Left(gone) == Pairs(all[..cut])
    ensures Left(gone + Leave(Pairs(all[cut..cut + n]), fate)) == Pairs(all[..cut + n])
  {
    LeftJoins(gone, Pairs(all[cut..cut + n]), fate);
    PairsJoin(all[..cut], all[cut..cut + n]);
    assert all[..cut] + all[cut..cut + n] == all[..cut + n];
  }

  lemma QueueShrinks(all: seq<nat>, cut: nat, n: nat)
    requires cut + n <= |all|
    ensures Pairs(all[cut..])[..2 * n] == Pairs(all[cut..cut + n])
            && Pairs(all[cut..])[2 * n..] == Pairs(all[cut + n..])
  {
    PairsSplit(all[cut..], n);
    assert all[cut..][..n] == all[cut..cut + n] && all[cut..][n..] == all[cut + n..];
  }

  lemma TakenGrows(taken: seq<nat>, all: seq<nat>, cut: nat)
    requires cut <= |all| && Ascending(taken) && Ascending(all)
    requires taken != [] ==> cut > 0 && taken[|taken| - 1] <= all[cut - 1]
    ensures Ascending(taken + all[cut..])
  {
    forall i, j | 0 <= i < |taken| && cut <= j < |all| ensures taken[i] < all[j] {
      assert taken[i] <= taken[|taken| - 1] <= all[cut - 1] < all[j];
    }
  }

  lemma DrainEmpties(l: Line, all: seq<nat>, cut: nat, fate: Fate, active: bool)
    requires Ledger(l, all, cut)
    ensures Ledger(l.(active := active, frames := [], gone := l.gone + Leave(l.frames, fate)), all, |all|)
  {
    assert all[cut..cut + (|all| - cut)] == all[cut..] && all[..|all|] == all && all[|all|..] == [];
    LeftGrows(l.gone, all, cut, |all| - cut, fate);
  }

  lemma DrainHands(l: Line, m: Line, all: seq<nat>, cut: nat, taken: seq<nat>, fate: Fate)
    requires Ledger(l, all, cut) && Handed(l, all, cut, taken) && m.gone == l.gone + Leave(l.frames, fate)
    ensures exists taken' :: Handed(m, all, |all|, taken')
  {
    OfFateJoins(l.gone, l.frames, fate, Taken);
    if fate == Taken {
      TakenGrows(taken, all, cut);
      PairsJoin(taken, all[cut..]);
      assert Handed(m, all, |all|, taken + all[cut..]);
    } else {
      assert Handed(m, all, |all|, taken);
    }
  }

  lemma PairsGrow(ids: seq<nat>, id: nat)
    ensures Pairs(ids + [id]) == Pairs(ids) + Pair(id)
  {
    assert (ids + [id])[..|ids|] == ids;
  }

  lemma TailAscends(ids: seq<nat>, n: nat)
    ensures n <= |ids| && Ascending(ids) ==> Ascending(ids[n..])
  {
  }

  // A push by a connected encoder: the queue before it overflows is longer by one pair,
  // and at most the oldest pair goes.
  lemma PushOverflow(l: Line, all: seq<nat>, more: seq<nat>, cut: nat, id: nat)
    requires Ledger(l, all, cut) && more == all + [id] && Ascending(more)
    ensures l.frames + Pair(id) == Pairs(more[cut..])
    ensures l.accepted + Pair(id) == Pairs(more)
    ensures Overflow(Pairs(more[cut..])) == if |all| == cut + 2 then 2 else 0
  {
    PairsGrow(all[cut..], id);
    PairsGrow(all, id);
    TailGrows(all, cut, id);
    TailAscends(more, cut);
    OverflowByPairs(more[cut..]);
  }

  lemma TailGrows(all: seq<nat>, cut: nat, id: nat)
    ensures cut <= |all| ==> (all + [id])[cut..] == all[cut..] + [id]
  {
  }

  lemma AscendingGrows(all: seq<nat>, id: nat)
    ensures Ascending(all) && (forall i :: 0 <= i < |all| ==> all[i] < id) ==> Ascending(all + [id])
  {
  }

  // What a push makes of the queue, in terms of the frames pushed.
  lemma PushedPairs(l: Line, all: seq<nat>, more: seq<nat>, cut: nat, id: nat, n: nat)
    requires Ledger(l, all, cut) && l.active && more == all + [id] && Ascending(more)
    requires n == if |all| == cut + 2 then 1 else 0
    ensures Pushed(l, Pair(id)) == Line(true, Pairs(more[cut + n..]), Pairs(more),
                                        l.gone + Leave(Pairs(more[cut..cut + n]), Dropped))
  {
    PushOverflow(l, all, more, cut, id);
    QueueShrinks(more, cut, n);
  }

  lemma PushLeaves(l: Line, m: Line, all: seq<nat>, more: seq<nat>, cut: nat, n: nat)
    requires Ledger(l, all, cut) && all <= more && cut + n <= |more|
    requires m.gone == l.gone + Leave(Pairs(more[cut..cut + n]), Dropped)
    ensures Left(m.gone) == Pairs(more[..cut + n]) && OfFate(m.gone, Taken) == OfFate(l.gone, Taken)
  {
    assert more[..cut] == all[..cut];
    LeftGrows(l.gone, more, cut, n, Dropped);
    OfFateJoins(l.gone, Pairs(more[cut..cut + n]), Dropped, Taken);
  }

  lemma PushKeepsLedger(l: Line, all: seq<nat>, cut: nat, taken: seq<nat>, id: nat)
    requires Ledger(l, all, cut) && Handed(l, all, cut, taken) && l.active && Ascending(all + [id])
    ensures exists cut' :: Ledger(Pushed(l, Pair(id)), all + [id], cut')
                           && Handed(Pushed(l, Pair(id)), all + [id], cut', taken)
  {
    var more, n, m := all + [id], if |all| == cut + 2 then 1 else 0, Pushed(l, Pair(id));
    PushedPairs(l, all, more, cut, id, n);
    PushLeaves(l, m, all, more, cut, n);
    PushEnds(l, m, all, more, cut, n, taken);
  }

  lemma PushEnds(l: Line, m: Line, all: seq<nat>, more: seq<nat>, cut: nat, n: nat, taken: seq<nat>)
    requires Ledger(l, all, cut) && Handed(l, all, cut, taken) && all <= more && |more| == |all| + 1
    requires Ascending(more) && n == if |all| == cut + 2 then 1 else 0
    requires m.active && m.frames == Pairs(more[cut + n..]) && m.accepted == Pairs(more)
    requires Left(m.gone) == Pairs(more[..cut + n]) && OfFate(m.gone, Taken) == OfFate(l.gone, Taken)
    ensures Ledger(m, more, cut + n) && Handed(m, more, cut + n, taken)
  {
    if taken != [] { assert all[cut - 1] == more[cut - 1] <= more[cut + n - 1]; }
  }

  lemma NextKeepsLedger(l: Line, all: seq<nat>, cut: nat, taken: seq<nat>, e: Event)
    returns (all': seq<nat>, cut': nat, taken': seq<nat>)
    requires Ledger(l, all, cut) && Handed(l, all, cut, taken) && (e.PushPair? ==> Ascending(all + [e.id]))
    ensures Ledger(Next(l, e), all', cut')
    ensures Handed(Next(l, e), all', cut', taken')
    ensures all' == all || (e.PushPair? && all' == all + [e.id])
  {
    all', cut', taken' := all, cut, taken;
    match e
    case Connect =>
    case Disconnect => if l.active {
      DrainEmpties(l, all, cut, Discarded, false);
      DrainHands(l, Next(l, e), all, cut, taken, Discarded);
      cut' := |all|;
      taken' :| Handed(Next(l, e), all, cut', taken');
    }
    case PushPair(id) => if l.active {
      PushKeepsLedger(l, all, cut, taken, id);
      all' := all + [id];
      cut' :| Ledger(Next(l, e), all', cut') && Handed(Next(l, e), all', cut', taken);
    }
    case Take =>
      DrainEmpties(l, all, cut, Taken, l.active);
      DrainHands(l, Next(l, e), all, cut, taken, Taken);
      cut' := |all|;
      taken' :| Handed(Next(l, e), all, cut', taken');
  }

  // An id above every one pushed.
  function Above(events: seq<Event>): nat {
    if events == [] then 0
    else
      var n, last := Above(events[..|events| - 1]), events[|events| - 1];
      if last.PushPair? then Max(n, last.id + 1) else n
  }

  lemma {:induction false} AboveAll(events: seq<Event>, bound: nat)
    requires IdsRise(events) && forall i :: 0 <= i < |events| && events[i].PushPair? ==> events[i].id < bound
    ensures Above(events) <= bound
    decreases |events|
  {
    if events != [] { AboveAll(events[..|events| - 1], bound); }
  }

  lemma {:induction false} EveryRunKeepsLedger(events: seq<Event>) returns (all: seq<nat>, cut: nat, taken: seq<nat>)
    requires IdsRise(events)
    ensures Ledger(After(events), all, cut)
    ensures Handed(After(events), all, cut, taken)
    ensures forall i :: 0 <= i < |all| ==> all[i] < Above(events)
    decreases |events|
  {
    if events == [] {
      all, cut, taken := [], 0, [];
    } else {
      var front, last := events[..|events| - 1], events[|events| - 1];
      all, cut, taken := EveryRunKeepsLedger(front);
      if last.PushPair? {
        AboveAll(front, last.id);
        AscendingGrows(all, last.id);
      }
      all, cut, taken := NextKeepsLedger(After(front), all, cut, taken, last);
    }
  }

  // Frames queued = taken + dropped on overflow + discarded with their client + still
  // queued, in order and eye for eye.
  lemma NothingIsLost(events: seq<Event>)
    requires IdsRise(events)
    ensures var l := After(events);
            && l.accepted == Left(l.gone) + l.frames
            && |l.accepted| == Count(l.gone, Taken) + Count(l.gone, Dropped) + Count(l.gone, Discarded) + |l.frames|
  {
    var all, cut, taken := EveryRunKeepsLedger(events);
    PairsJoin(all[..cut], all[cut..]);
    assert all[..cut] + all[cut..] == all;
    CountsAddUp(After(events).gone);
  }

  // The queue is whole pairs, at most two, and empty without a client; what a drain
  // hands over is therefore whole, and so is everything handed over by all drains.
  lemma QueueAndTakesAreWhole(events: seq<Event>)
    requires IdsRise(events)
    ensures var l := After(events);
            && WholePairs(l.frames)
            && |l.frames| <= MAX_QUEUED
            && (!l.active ==> l.frames == [])
            && WholePairs(l.accepted)
            && WholePairs(OfFate(l.gone, Taken))
  {
    var all, cut, taken := EveryRunKeepsLedger(events);
    TailAscends(all, cut);
  }

  // --- The class ----------------------------------------------------------------------------

  class Bridge {
    var request: Request
    var prefs: Prefs
    var frames: seq<Encoded>
    var framesQueued: nat
    var framesDropped: nat
    ghost var accepted: seq<Encoded>
    ghost var gone: seq<Exit>

    ghost predicate Valid()
      reads this
    {
      framesQueued == |accepted| && framesDropped == Count(gone, Dropped)
    }

    ghost function View(): Line
      reads this
    {
      Line(request.active, frames, accepted, gone)
    }

    // Preferences are set once, before any client connects.
    constructor (p: Prefs)
      ensures Valid() && request == Fresh(p) && prefs == p && View() == IDLE
    {
      request, prefs := Fresh(p), p;
      frames, framesQueued, framesDropped := [], 0, 0;
      accepted, gone := [], [];
    }

    method SetBitrate(bps: nat)
      requires Valid()
      modifies `request
      ensures Valid() && request == WithBitrate(old(request), bps) && View() == old(View())
    {
      if !request.active || bps == 0 || bps == request.bitrate { return; }
      request := request.(bitrate := bps);
      request := request.(bitrateGen := request.bitrateGen + 1);
    }

    method SetClient(refresh: real, h265: bool, h264: bool)
      requires Valid()
      modifies `request
      ensures Valid() && request == WithClient(old(request), prefs, refresh, h265, h264)
              && View() == Next(old(View()), Connect)
    {
      var a265, a264 := h265, h264;
      if prefs.codec == FORCE_H264 { a265 := false; } else if prefs.codec == FORCE_H265 { a264 := false; }
      var q := request;
      var changed := !q.active || q.refresh != refresh || q.allow265 != a265 || q.allow264 != a264;
      q := q.(active := true, refresh := refresh);
      if q.bitrate != prefs.bitrate {
        q := q.(bitrate := prefs.bitrate, bitrateGen := q.bitrateGen + 1);
      }
      q := q.(allow265 := a265, allow264 := a264);
      if changed {
        q := q.(configGen := q.configGen + 1, idrGen := q.idrGen + 1);
      }
      request := q;
    }

    method ClearClient()
      requires Valid()
      modifies `request, `frames, `gone
      ensures Valid() && request == WithoutClient(old(request)) && View() == Next(old(View()), Disconnect)
    {
      if !request.active { return; }
      request := request.(active := false);
      CountLeave(gone, frames, Discarded, Dropped);
      gone := gone + Leave(frames, Discarded);
      frames := [];
    }

    method RequestIdr()
      requires Valid()
      modifies `request
      ensures Valid() && request == WithIdr(old(request)) && View() == old(View())
    {
      request := request.(idrGen := request.idrGen + 1);
    }

    method TakeFrames() returns (out: seq<Encoded>)
      requires Valid()
      modifies `frames, `gone
      ensures Valid() && out == old(frames) && View() == Next(old(View()), Take)
    {
      out := frames;
      CountLeave(gone, frames, Taken, Dropped);
      gone := gone + Leave(frames, Taken);
      frames := [];
    }

    method PushFrames(fs: seq<Encoded>)
      requires Valid()
      modifies `frames, `framesQueued, `framesDropped, `accepted, `gone
      ensures Valid() && View() == Pushed(old(View()), fs)
    {
      if fs == [] || !request.active { return; }
      for i := 0 to |fs|
        invariant frames == old(frames) + fs[..i] && framesQueued == old(framesQueued) + i
        invariant framesDropped == old(framesDropped) && accepted == old(accepted) && gone == old(gone)
      {
        frames := frames + [fs[i]];
        framesQueued := framesQueued + 1;
      }
      accepted := accepted + fs;
      assert fs[..|fs|] == fs;
      ghost var q := frames;
      ghost var n := DropOldest();
      CountLeave(gone, q[..n], Dropped, Dropped);
      gone := gone + Leave(q[..n], Dropped);
    }

    // The nested drop: whole frames from the front until four entries are left.
    method DropOldest() returns (ghost n: nat)
      modifies `frames, `framesDropped
      ensures n == Overflow(old(frames)) && frames == old(frames)[n..] && framesDropped == old(framesDropped) + n
    {
      n := 0;
      while |frames| > MAX_QUEUED
        invariant n <= |old(frames)| && frames == old(frames)[n..] && n + Overflow(frames) == Overflow(old(frames))
        invariant framesDropped == old(framesDropped) + n
        decreases |frames|
      {
        ghost var m := DropFrame(frames[0].frame);
        DropTwice(old(frames), n, m);
        n := n + m;
      }
    }

    // Both eyes of the oldest frame go together.
    method DropFrame(victim: nat) returns (ghost m: nat)
      requires frames != [] && frames[0].frame == victim
      modifies `frames, `framesDropped
      ensures m == Run(old(frames), victim) == 1 + Run(old(frames)[1..], victim)
      ensures frames == old(frames)[m..] && framesDropped == old(framesDropped) + m
    {
      m := 0;
      while frames != [] && frames[0].frame == victim
        invariant m <= |old(frames)| && frames == old(frames)[m..]
        invariant m + Run(frames, victim) == Run(old(frames), victim)
        invariant framesDropped == old(framesDropped) + m
        decreases |frames|
      {
        frames := frames[1..];
        framesDropped := framesDropped + 1;
        m := m + 1;
      }
    }
  }

  lemma CountLeave(xs: seq<Exit>, fs: seq<Encoded>, fate: Fate, other: Fate)
    ensures Count(xs + Leave(fs, fate), other) == Count(xs, other) + if fate == other then |fs| else 0
  {
    OfFateJoins(xs, fs, fate, other);
    CountsAddUp(xs + Leave(fs, fate));
    CountsAddUp(xs);
  }
}
