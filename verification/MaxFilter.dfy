/**
  The windowed maximum of a scalar kept in three entries
  (helper/src/wivrn/bitrate_controller.h): the filter as a value, the class that
  rewrites its three-entry array in place, and what the three entries mean in terms
  of every sample the filter has been given since it was reset.
 */
module MaxFilter {

  datatype Entry = Entry(when: int, value: real)

  datatype Filter = Filter(s: seq<Entry>, count: nat)

  const EMPTY := Filter([Entry(0, 0.0), Entry(0, 0.0), Entry(0, 0.0)], 0)

  predicate Shaped(f: Filter) {
    |f.s| == 3
  }

  predicate Better(a: real, b: real) { a >= b }

  // An update in two stages: the new sample displaces entries it beats, then entries
  // that are too old or too close together in time are renewed.
  function Displaced(s: seq<Entry>, e: Entry): seq<Entry>
    requires |s| == 3
  {
    if Better(e.value, s[1].value) then [s[0], e, e]
    else if Better(e.value, s[2].value) then [s[0], s[1], e]
    else s
  }

  function Renewed(s: seq<Entry>, e: Entry, window: int): seq<Entry>
    requires |s| == 3
  {
    if e.when - s[0].when > window then
      if e.when - s[1].when > window then [s[2], e, e] else [s[1], s[2], e]
    else if s[1].when == s[0].when && e.when - s[1].when > window / 4 then [s[0], e, e]
    else if s[2].when == s[1].when && e.when - s[2].when > window / 2 then [s[0], s[1], e]
    else s
  }

  function Updated(f: Filter, value: real, now: int, window: int): Filter
    requires Shaped(f)
  {
    var e := Entry(now, value);
    if f.count == 0 || Better(value, f.s[0].value) || now - f.s[2].when > window
    then Filter([e, e, e], f.count + 1)
    else Filter(Renewed(Displaced(f.s, e), e, window), f.count + 1)
  }

  function CapEntry(e: Entry, c: real): Entry { if Better(e.value, c) then e.(value := c) else e }

  function CapAll(h: seq<Entry>, c: real): seq<Entry> {
    seq(|h|, i requires 0 <= i < |h| => CapEntry(h[i], c))
  }

  function Capped(f: Filter, c: real): Filter
    requires Shaped(f)
  {
    f.(s := CapAll(f.s, c))
  }

  // --- What the entries mean -----------------------------------------------

  ghost predicate InOrder(h: seq<Entry>) {
    forall i, j :: 0 <= i <= j < |h| ==> h[i].when <= h[j].when
  }

  // Entry `e` is sample `i` of the history and no later sample exceeds it.
  ghost predicate Tops(h: seq<Entry>, i: nat, e: Entry) {
    i < |h| && h[i] == e && forall k :: i <= k < |h| ==> h[k].value <= e.value
  }

  // The three entries are samples of the history, in the order they were taken, each
  // the maximum of everything from itself on.
  ghost predicate Sit(s: seq<Entry>, h: seq<Entry>, at: seq<nat>) {
    && |s| == 3 && |at| == 3 && at[0] <= at[1] <= at[2]
    && Tops(h, at[0], s[0]) && Tops(h, at[1], s[1]) && Tops(h, at[2], s[2])
  }

  ghost predicate Tracks(f: Filter, h: seq<Entry>, at: seq<nat>) {
    Shaped(f) && f.count == |h| && InOrder(h) && (h != [] ==> Sit(f.s, h, at))
  }

  // Where the entries of the updated filter sit in the extended history.
  ghost function DisplacedAt(s: seq<Entry>, at: seq<nat>, e: Entry, n: nat): seq<nat>
    requires |s| == 3 && |at| == 3
  {
    if Better(e.value, s[1].value) then [at[0], n, n]
    else if Better(e.value, s[2].value) then [at[0], at[1], n]
    else at
  }

  ghost function RenewedAt(s: seq<Entry>, at: seq<nat>, e: Entry, window: int, n: nat): seq<nat>
    requires |s| == 3 && |at| == 3
  {
    if e.when - s[0].when > window then
      if e.when - s[1].when > window then [at[2], n, n] else [at[1], at[2], n]
    else if s[1].when == s[0].when && e.when - s[1].when > window / 4 then [at[0], n, n]
    else if s[2].when == s[1].when && e.when - s[2].when > window / 2 then [at[0], at[1], n]
    else at
  }

  ghost function Moved(f: Filter, h: seq<Entry>, at: seq<nat>, e: Entry, window: int): seq<nat>
    requires Tracks(f, h, at)
  {
    var n := |h|;
    if f.count == 0 || Better(e.value, f.s[0].value) || e.when - f.s[2].when > window then [n, n, n]
    else RenewedAt(Displaced(f.s, e), DisplacedAt(f.s, at, e, n), e, window, n)
  }

  lemma DisplacedSit(s: seq<Entry>, h: seq<Entry>, at: seq<nat>, e: Entry)
    requires Sit(s, h, at) && !Better(e.value, s[0].value)
    ensures Sit(Displaced(s, e), h + [e], DisplacedAt(s, at, e, |h|))
  {
    TopsNewest(h, e);
    TopsExtended(h, at[0], s[0], e);
    if !Better(e.value, s[1].value) { TopsExtended(h, at[1], s[1], e); }
    if !Better(e.value, s[2].value) { TopsExtended(h, at[2], s[2], e); }
  }

  lemma RenewedSit(s: seq<Entry>, h: seq<Entry>, at: seq<nat>, e: Entry, window: int)
    requires h != [] && h[|h| - 1] == e && Sit(s, h, at) && e.when - s[2].when <= window
    ensures Sit(Renewed(s, e, window), h, RenewedAt(s, at, e, window, |h| - 1))
    ensures e.when - Renewed(s, e, window)[0].when <= window
  {
    assert Tops(h, |h| - 1, e);
  }

  lemma TopsExtended(h: seq<Entry>, i: nat, e: Entry, next: Entry)
    ensures Tops(h, i, e) && next.value <= e.value ==> Tops(h + [next], i, e)
  {
  }

  lemma TopsNewest(h: seq<Entry>, e: Entry)
    ensures Tops(h + [e], |h|, e)
  {
  }

  lemma NewestSits(h: seq<Entry>, e: Entry)
    ensures Sit([e, e, e], h + [e], [|h|, |h|, |h|])
  {
    TopsNewest(h, e);
  }

  lemma MovedSit(s: seq<Entry>, h: seq<Entry>, at: seq<nat>, e: Entry, window: int)
    requires Sit(s, h, at) && !Better(e.value, s[0].value) && e.when - s[2].when <= window && window >= 0
    ensures var d, n := Displaced(s, e), |h|;
            && Sit(Renewed(d, e, window), h + [e], RenewedAt(d, DisplacedAt(s, at, e, n), e, window, n))
            && e.when - Renewed(d, e, window)[0].when <= window
  {
    DisplacedSit(s, h, at, e);
    RenewedSit(Displaced(s, e), h + [e], DisplacedAt(s, at, e, |h|), e, window);
  }

  lemma InOrderGrows(h: seq<Entry>, e: Entry)
    ensures InOrder(h) && (h != [] ==> h[|h| - 1].when <= e.when) ==> InOrder(h + [e])
  {
  }

  // An update at a time no earlier than the last keeps the meaning of the entries, and
  // leaves the first of them no older than one window.
  lemma UpdateTracks(f: Filter, h: seq<Entry>, at: seq<nat>, e: Entry, window: int)
    requires Tracks(f, h, at) && window >= 0 && (h != [] ==> h[|h| - 1].when <= e.when)
    ensures var f' := Updated(f, e.value, e.when, window);
            Tracks(f', h + [e], Moved(f, h, at, e, window)) && e.when - f'.s[0].when <= window
  {
    InOrderGrows(h, e);
    if f.count == 0 || Better(e.value, f.s[0].value) || e.when - f.s[2].when > window {
      NewestSits(h, e);
    } else {
      MovedSit(f.s, h, at, e, window);
    }
  }

  // Capping the filter is as if every past sample had been capped when it arrived.
  lemma CapTracks(f: Filter, h: seq<Entry>, at: seq<nat>, c: real)
    requires Tracks(f, h, at)
    ensures Tracks(Capped(f, c), CapAll(h, c), at)
  {
  }

  // --- Every history of updates and caps --------------------------------------

  datatype Event = Sample(value: real, now: int) | Cap(limit: real)

  // The filter after a history of events, and the samples as the caps have left them.
  function After(events: seq<Event>, window: int): (f: Filter)
    ensures Shaped(f)
  {
    if events == [] then EMPTY
    else
      var f, last := After(events[..|events| - 1], window), events[|events| - 1];
      if last.Sample? then Updated(f, last.value, last.now, window) else Capped(f, last.limit)
  }

  function Samples(events: seq<Event>): seq<Entry> {
    if events == [] then []
    else
      var h, last := Samples(events[..|events| - 1]), events[|events| - 1];
      if last.Sample? then h + [Entry(last.now, last.value)] else CapAll(h, last.limit)
  }

  ghost predicate TimesInOrder(events: seq<Event>) {
    forall i, j :: 0 <= i <= j < |events| && events[i].Sample? && events[j].Sample? ==> events[i].now <= events[j].now
  }

  lemma {:induction false} SampleTimes(events: seq<Event>, i: nat)
    requires i < |Samples(events)|
    ensures exists k :: 0 <= k < |events| && events[k].Sample? && events[k].now == Samples(events)[i].when
    decreases |events|
  {
    var front, last := events[..|events| - 1], events[|events| - 1];
    if last.Sample? && i == |Samples(front)| {
    } else {
      SampleTimes(front, i);
      var k :| 0 <= k < |front| && front[k].Sample? && front[k].now == Samples(front)[i].when;
      assert events[k] == front[k];
    }
  }

  lemma {:induction false} EveryHistoryIsTracked(events: seq<Event>, window: int)
    requires window >= 0 && TimesInOrder(events)
    ensures exists at :: Tracks(After(events, window), Samples(events), at)
    decreases |events|
  {
    if events == [] {
      assert Tracks(After(events, window), Samples(events), []);
    } else {
      var front, last := events[..|events| - 1], events[|events| - 1];
      EveryHistoryIsTracked(front, window);
      var f, h := After(front, window), Samples(front);
      var at :| Tracks(f, h, at);
      if last.Sample? {
        if h != [] { SampleTimes(front, |h| - 1); }
        var e := Entry(last.now, last.value);
        UpdateTracks(f, h, at, e, window);
        assert Tracks(After(events, window), Samples(events), Moved(f, h, at, e, window));
      } else {
        CapTracks(f, h, at, last.limit);
        assert Tracks(After(events, window), Samples(events), at);
      }
    }
  }

  // After any samples and caps, right after a sample is taken, the filter's value is
  // the exact maximum of the samples from some sample on that is at most one window
  // old. It lies between the newest sample and the true maximum over the window.
  lemma ValueIsRecentMaximum(events: seq<Event>, window: int) returns (start: nat)
    requires window >= 0 && TimesInOrder(events) && events != [] && events[|events| - 1].Sample?
    ensures var h, value := Samples(events), After(events, window).s[0].value;
            && start < |h|
            && h[start].value == value
            && h[|h| - 1].when - h[start].when <= window
            && forall k :: start <= k < |h| ==> h[k].value <= value
    ensures var h, value := Samples(events), After(events, window).s[0].value;
            h[|h| - 1].value <= value
            && exists k :: 0 <= k < |h| && h[|h| - 1].when - h[k].when <= window && h[k].value == value
  {
    var front, last := events[..|events| - 1], events[|events| - 1];
    assert TimesInOrder(front);
    EveryHistoryIsTracked(front, window);
    var at :| Tracks(After(front, window), Samples(front), at);
    var h, e := Samples(front), Entry(last.now, last.value);
    if h != [] { SampleTimes(front, |h| - 1); }
    UpdateTracks(After(front, window), h, at, e, window);
    start := Moved(After(front, window), h, at, e, window)[0];
    assert Samples(events) == h + [e];
  }

  // --- When it is the maximum over the whole window --------------------------------

  // No sample taken in the window before `now` exceeds the filter's value.
  ghost predicate Exact(f: Filter, h: seq<Entry>, now: int, window: int)
    requires Shaped(f)
  {
    forall k :: 0 <= k < |h| && now - h[k].when <= window ==> h[k].value <= f.s[0].value
  }

  // Exactness is lost only by the branch that lets the running maximum age out, and only
  // when the new sample does not reach it.
  lemma ExactnessIsLostOnlyByAgeing(f: Filter, h: seq<Entry>, at: seq<nat>, e: Entry, window: int)
    requires Tracks(f, h, at) && window >= 0 && (h != [] ==> h[|h| - 1].when <= e.when)
    requires h != [] ==> Exact(f, h, h[|h| - 1].when, window)
    requires h != [] ==> e.when - f.s[0].when <= window || e.value >= f.s[0].value
    ensures Exact(Updated(f, e.value, e.when, window), h + [e], e.when, window)
  {
    var g := Updated(f, e.value, e.when, window);
    forall k | 0 <= k < |h| && e.when - h[k].when <= window ensures h[k].value <= g.s[0].value {
      assert h[|h| - 1].when - h[k].when <= window;
      assert h[k].value <= f.s[0].value;
    }
  }

  lemma CapKeepsExact(f: Filter, h: seq<Entry>, c: real, now: int, window: int)
    requires Shaped(f) && Exact(f, h, now, window)
    ensures Exact(Capped(f, c), CapAll(h, c), now, window)
  {
  }

  // How long the history is.
  ghost predicate SpansAtMost(events: seq<Event>, d: int) {
    var h := Samples(events);
    h != [] ==> h[|h| - 1].when - h[0].when <= d
  }

  // Samples and caps that a filter may be given, up to and including one more sample.
  ghost predicate Asked(events: seq<Event>, d: int) {
    && TimesInOrder(events)
    && SpansAtMost(events, d)
    && events != []
    && events[|events| - 1].Sample?
  }

  // The value is at least every sample no older than the window, and one of them.
  ghost predicate IsWindowMaximum(events: seq<Event>, window: int) {
    var h, value := Samples(events), After(events, window).s[0].value;
    h != [] && Exact(After(events, window), h, h[|h| - 1].when, window)
    && exists k :: 0 <= k < |h| && h[|h| - 1].when - h[k].when <= window && h[k].value == value
  }

  // A shorter history is no longer in time.
  lemma SpanOfFront(events: seq<Event>, d: int)
    requires events != [] && TimesInOrder(events) && SpansAtMost(events, d)
    ensures TimesInOrder(events[..|events| - 1])
    ensures SpansAtMost(events[..|events| - 1], d)
  {
    var front, last := events[..|events| - 1], events[|events| - 1];
    var h := Samples(front);
    if h != [] && last.Sample? {
      SampleTimes(front, |h| - 1);
      assert Samples(events) == h + [Entry(last.now, last.value)];
    }
  }

  lemma ShortStaysExact(f: Filter, h: seq<Entry>, at: seq<nat>, e: Entry, window: int)
    requires Tracks(f, h, at) && window >= 0 && (h != [] ==> h[|h| - 1].when <= e.when <= h[0].when + window)
    requires h != [] ==> Exact(f, h, h[|h| - 1].when, window)
    ensures Exact(Updated(f, e.value, e.when, window), h + [e], e.when, window)
  {
    assert h != [] ==> h[0].when <= f.s[0].when;
    ExactnessIsLostOnlyByAgeing(f, h, at, e, window);
  }

  // A history no longer than the window: nothing is ever missed.
  ghost predicate ExactAfter(events: seq<Event>, window: int) {
    var h := Samples(events);
    h != [] ==> Exact(After(events, window), h, h[|h| - 1].when, window)
  }

  lemma ShortSampleStaysExact(events: seq<Event>, window: int, front: seq<Event>, e: Entry)
    requires events == front + [Sample(e.value, e.when)] && ExactAfter(front, window)
    requires window >= 0 && TimesInOrder(events) && SpansAtMost(events, window)
    ensures ExactAfter(events, window)
  {
    assert events[..|events| - 1] == front;
    var f, h := After(front, window), Samples(front);
    assert Samples(events) == h + [e] && After(events, window) == Updated(f, e.value, e.when, window);
    EveryHistoryIsTracked(front, window);
    var at :| Tracks(f, h, at);
    if h != [] { SampleTimes(front, |h| - 1); }
    ShortStaysExact(f, h, at, e, window);
  }

  lemma {:induction false} ShortHistoriesAreExact(events: seq<Event>, window: int)
    requires window >= 0 && TimesInOrder(events) && SpansAtMost(events, window)
    ensures ExactAfter(events, window)
    decreases |events|
  {
    if events != [] {
      var front, last := events[..|events| - 1], events[|events| - 1];
      SpanOfFront(events, window);
      ShortHistoriesAreExact(front, window);
      if last.Cap? {
        var h := Samples(front);
        if h != [] { CapKeepsExact(After(front, window), h, last.limit, h[|h| - 1].when, window); }
      } else {
        ShortSampleStaysExact(events, window, front, Entry(last.now, last.value));
      }
    }
  }

  // It can be less: a sample taken soon after a larger one leaves no entry behind, and
  // is gone when the larger one ages out.
  function MissedHistory(window: int): seq<Event> { [Sample(10.0, 0), Sample(9.0, 1), Sample(1.0, window + 1)] }

  lemma WindowMaximumCanBeMissed(window: int)
    requires window >= 4
    ensures var events := MissedHistory(window);
            && Asked(events, window + 1)
            && Samples(events) == [Entry(0, 10.0), Entry(1, 9.0), Entry(window + 1, 1.0)]
            && After(events, window).s[0].value == 1.0
            && !IsWindowMaximum(events, window)
  {
    var e1, e2, e3 := Sample(10.0, 0), Sample(9.0, 1), Sample(1.0, window + 1);
    assert [e1][..0] == [] && [e1, e2][..1] == [e1] && [e1, e2, e3][..2] == [e1, e2];
    assert After([e1], window).s == [Entry(0, 10.0), Entry(0, 10.0), Entry(0, 10.0)];
    assert After([e1, e2], window).s == [Entry(0, 10.0), Entry(0, 10.0), Entry(0, 10.0)];
    assert Samples([e1]) == [Entry(0, 10.0)];
    assert Samples([e1, e2]) == [Entry(0, 10.0), Entry(1, 9.0)];
    var h := Samples([e1, e2, e3]);
    assert h == [Entry(0, 10.0), Entry(1, 9.0), Entry(window + 1, 1.0)];
    assert h[2].when - h[1].when <= window && h[1].value == 9.0;
  }

  // The value is the maximum over the window for every history of a length exactly when
  // that length does not exceed the window. A quarter of the window must be a time of at
  // least one tick for a sample to be skipped at all.
  lemma WindowMaximumExactly(window: int, d: int)
    requires window >= 4
    ensures (forall events :: Asked(events, d) ==> IsWindowMaximum(events, window)) <==> d <= window
  {
    if d <= window {
      forall events | Asked(events, d) ensures IsWindowMaximum(events, window) {
        assert SpansAtMost(events, window);
        ShortHistoriesAreExact(events, window);
        var start := ValueIsRecentMaximum(events, window);
      }
    } else {
      WindowMaximumCanBeMissed(window);
      assert Asked(MissedHistory(window), d);
    }
  }

  // The entries keep their order: older entries are no later and no smaller.
  lemma EntriesAreOrdered(events: seq<Event>, window: int)
    requires window >= 0 && TimesInOrder(events) && Samples(events) != []
    ensures var s := After(events, window).s;
            && s[0].when <= s[1].when <= s[2].when
            && s[0].value >= s[1].value >= s[2].value
  {
    EveryHistoryIsTracked(events, window);
  }

  // --- The class ------------------------------------------------------------

  class WindowedMax {
    const s: array<Entry>
    var count: nat

    ghost predicate Valid()
      reads this
    {
      s.Length == 3
    }

    ghost function View(): (f: Filter)
      requires Valid()
      reads this, s
      ensures Shaped(f)
    {
      Filter(s[..], count)
    }

    constructor ()
      ensures Valid() && fresh(s) && View() == EMPTY
    {
      s := new Entry[3](_ => Entry(0, 0.0));
      count := 0;
      new;
      assert s[..] == EMPTY.s;
    }

    method Reset()
      requires Valid()
      modifies this, s
      ensures Valid() && View() == EMPTY
    {
      count := 0;
      s[0], s[1], s[2] := Entry(0, 0.0), Entry(0, 0.0), Entry(0, 0.0);
      assert s[..] == EMPTY.s;
    }

    method Update(value: real, now: int, window: int)
      requires Valid()
      modifies this, s
      ensures Valid() && View() == Updated(old(View()), value, now, window)
    {
      count := count + 1;
      var e := Entry(now, value);
      if count == 1 || Better(value, s[0].value) || now - s[2].when > window {
        s[0], s[1], s[2] := e, e, e;
        assert s[..] == [e, e, e];
        return;
      }
      if Better(value, s[1].value) {
        s[1], s[2] := e, e;
      } else if Better(value, s[2].value) {
        s[2] := e;
      }
      assert s[..] == Displaced(old(s[..]), e);
      ghost var mid := s[..];
      if now - s[0].when > window {
        s[0] := s[1];
        s[1] := s[2];
        s[2] := e;
        if now - s[0].when > window {
          s[0] := s[1];
          s[1] := s[2];
        }
      } else if s[1].when == s[0].when && now - s[1].when > window / 4 {
        s[1], s[2] := e, e;
      } else if s[2].when == s[1].when && now - s[2].when > window / 2 {
        s[2] := e;
      }
      assert s[..] == Renewed(mid, e, window);
    }

    method Cap(limit: real)
      requires Valid()
      modifies s
      ensures Valid() && View() == Capped(old(View()), limit)
    {
      for i := 0 to 3
        invariant forall j :: 0 <= j < 3 ==> s[j] == if j < i then CapEntry(old(s[j]), limit) else old(s[j])
      {
        if Better(s[i].value, limit) {
          s[i] := s[i].(value := limit);
        }
      }
      assert s[..] == CapAll(old(s[..]), limit);
    }
  }
}
