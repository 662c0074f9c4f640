/**
  The leaky-bucket schedule of one frame and the window that the frames of one slot
  share (helper/src/wivrn/shard_pacer.h). Byte counts and nanoseconds are unbounded
  here; the source's 64-bit product budget * offset has to fit, which a budget of at
  most half a frame period and a frame of at most gigabytes guarantees.
 */
module Pacing {
  import opened Prelude

  const GROUP_BYTES: nat := 12 * 1024
  const MIN_SLEEP_NS: int := 150_000
  const MAX_WINDOW: real := 0.5

  datatype Pacer = Pacer(start: int, budget: int, total: nat, nextGroup: nat)

  // A default-constructed pacer never pauses.
  const UNPACED := Pacer(0, 0, 0, GROUP_BYTES)

  function NewPacer(start: int, budget: int, total: nat): Pacer {
    Pacer(start, Max(budget, 0), total, GROUP_BYTES)
  }

  predicate Active(p: Pacer) { p.budget > 0 && p.total > GROUP_BYTES }

  // When the byte at `offset` may go out.
  function Deadline(p: Pacer, offset: nat): int {
    if !Active(p) then p.start
    else if offset >= p.total then p.start + p.budget
    else p.start + p.budget * offset / p.total
  }

  function GroupCount(p: Pacer): nat {
    if !Active(p) then 1 else (p.total + GROUP_BYTES - 1) / GROUP_BYTES
  }

  predicate AtBoundary(p: Pacer, sent: nat) { Active(p) && p.nextGroup <= sent < p.total }

  // The pacer after a shard, and the time to pause until, if any.
  function Advanced(p: Pacer, sent: nat): Pacer {
    if AtBoundary(p, sent) then p.(nextGroup := (sent / GROUP_BYTES + 1) * GROUP_BYTES) else p
  }

  function PauseUntil(p: Pacer, sent: nat, now: int): Option<int> {
    if AtBoundary(p, sent) && Deadline(p, sent) - now >= MIN_SLEEP_NS then Some(Deadline(p, sent)) else None
  }

  // --- Deadlines -------------------------------------------------------------

  lemma DivMonotone(a: int, b: int, d: int)
    requires a <= b && d > 0
    ensures a / d <= b / d
  {
    assert a == d * (a / d) + a % d && b == d * (b / d) + b % d;
    if a / d > b / d { MulStrict(d, b / d, a / d); }
  }

  lemma MulStrict(k: int, a: int, b: int)
    requires k > 0 && a < b
    ensures k * a + k <= k * b
  {
    MulMonotone(k, a + 1, b);
    assert k * (a + 1) == k * a + k;
  }

  lemma MulMonotone(k: int, a: int, b: int)
    requires k >= 0 && a <= b
    ensures k * a <= k * b
  {
  }

  // Deadlines start at the frame's start, never go back, and never pass its budget.
  lemma DeadlinesAreMonotone(p: Pacer, i: nat, j: nat)
    requires i <= j
    ensures Deadline(p, i) <= Deadline(p, j)
    ensures Deadline(p, 0) == p.start
    ensures p.start <= Deadline(p, i) && Deadline(p, i) <= p.start + Max(p.budget, 0)
  {
    if Active(p) {
      DeadlineInBudget(p, i);
      if j < p.total {
        MulMonotone(p.budget, i, j);
        DivMonotone(p.budget * i, p.budget * j, p.total);
      }
    }
  }

  lemma DeadlineInBudget(p: Pacer, i: nat)
    requires Active(p)
    ensures p.start <= Deadline(p, i) <= p.start + p.budget
  {
    if i < p.total {
      MulMonotone(p.budget, 0, i);
      MulMonotone(p.budget, i, p.total);
      DivMonotone(0, p.budget * i, p.total);
      DivMonotone(p.budget * i, p.budget * p.total, p.total);
      assert p.budget * p.total / p.total == p.budget by { DivExact(p.budget, p.total); }
    }
  }

  lemma DivExact(q: int, d: int)
    requires d > 0
    ensures q * d / d == q
  {
    DivModUnique(q * d, d, q, 0);
  }

  // --- The pacing slot ---------------------------------------------------------

  datatype Slot = Slot(start: int, open: bool)

  function Clamped(window: real): real {
    if window < 0.0 then 0.0 else if window > MAX_WINDOW then MAX_WINDOW else window
  }

  // The window in nanoseconds that a slot owns.
  function Full(period: int, window: real): int { (period as real * Clamped(window)).Floor }

  function Opened(s: Slot, now: int, period: int): Slot {
    if !s.open || now - s.start >= period then Slot(now, true) else s
  }

  function BeginSlot(s: Slot, now: int, period: int, window: real): Slot {
    if period <= 0 || window <= 0.0 then s else Opened(s, now, period)
  }

  // The budget of a frame that starts now with `queued` more waiting behind it.
  function FrameBudget(s: Slot, now: int, period: int, window: real, queued: nat): int {
    if period <= 0 || window <= 0.0 then 0
    else
      var left := Opened(s, now, period).start + Full(period, window) - now;
      if left <= 0 then 0 else left / (queued + 1)
  }

  lemma HalfOfPeriod(period: int, window: real)
    requires period >= 0
    ensures 0 <= Full(period, window) && 2 * Full(period, window) <= period
  {
    ScaledBetween(period as real, Clamped(window));
    FloorOfHalf(period as real * Clamped(window), period);
  }

  lemma FloorOfHalf(x: real, period: int)
    requires 0.0 <= x <= period as real * 0.5
    ensures 0 <= x.Floor && 2 * x.Floor <= period
  {
    assert 2.0 * x <= period as real;
  }

  lemma ScaledBetween(p: real, w: real)
    requires p >= 0.0 && 0.0 <= w <= 0.5
    ensures 0.0 <= p * w <= p * 0.5
  {
    assert p * (0.5 - w) >= 0.0;
  }

  // When the last byte of a frame is due, and by when it should be.
  function DueBy(s: Slot, now: int, period: int, window: real): int {
    BeginSlot(s, now, period, window).start + Full(period, window)
  }

  function BegunFrame(s: Slot, now: int, period: int, window: real, queued: nat, total: nat): Pacer {
    NewPacer(now, FrameBudget(s, now, period, window, queued), total)
  }

  // Every byte of a frame begun in a slot is due by the end of the slot's window, which is
  // at most half a frame period after the slot opened, exactly when the frame is begun by
  // then: one begun after the window is spent is due at once, and too late.
  lemma DeadlinesWithinWindowExactly(s: Slot, now: int, period: int, window: real, queued: nat, total: nat)
    ensures var p := BegunFrame(s, now, period, window, queued, total);
            (forall offset: nat :: Deadline(p, offset) <= DueBy(s, now, period, window))
            <==> now <= DueBy(s, now, period, window)
    ensures period >= 0 ==> 0 <= 2 * Full(period, window) <= period
  {
    var p, due := BegunFrame(s, now, period, window, queued, total), DueBy(s, now, period, window);
    if period >= 0 { HalfOfPeriod(period, window); }
    if now < due { ShareAtMostAll(due - now, queued + 1); }
    forall offset: nat ensures p.start <= Deadline(p, offset) <= p.start + p.budget {
      DeadlinesAreMonotone(p, offset, offset);
    }
    assert p.start == now && Deadline(p, 0) == now;
  }

  // The second frame of a slot whose window of 40 is spent by the time it starts.
  lemma SpentWindowIsOverrun()
    ensures Full(100, 0.4) == 40
    ensures Deadline(BegunFrame(Slot(0, true), 50, 100, 0.4, 0, 20_000), 0) > DueBy(Slot(0, true), 50, 100, 0.4)
  {
  }

  lemma ShareAtMostAll(left: nat, n: nat)
    requires n > 0
    ensures 0 <= left / n <= left
  {
    assert left == n * (left / n) + left % n;
    if n > 1 { MulMonotone(left / n, 1, n); }
  }

  // The shares of `k` frames served back to back from a slot with `left` of its
  // window to go: each frame starts when the one before it has used up its share.
  function Shares(s: Slot, now: int, period: int, window: real, k: nat): (shares: seq<int>)
    ensures |shares| == k
    decreases k
  {
    if k == 0 then []
    else
      var share := FrameBudget(s, now, period, window, k - 1);
      [share] + Shares(BeginSlot(s, now, period, window), now + share, period, window, k - 1)
  }

  function Sum(xs: seq<int>): int { if xs == [] then 0 else xs[0] + Sum(xs[1..]) }

  // What is left of an open slot's window is used up exactly, in shares that differ
  // by at most one nanosecond, the longer ones last.
  lemma {:induction false} SharesUseTheWindow(s: Slot, now: int, period: int, window: real, k: nat)
    requires period > 0 && window > 0.0 && k > 0
    requires s.open && s.start <= now <= s.start + Full(period, window)
    ensures var left, shares := s.start + Full(period, window) - now, Shares(s, now, period, window, k);
            Sum(shares) == left
            && (forall i :: 0 <= i < k ==> left / k <= shares[i] <= left / k + (if left % k == 0 then 0 else 1))
            && (forall i, j :: 0 <= i <= j < k ==> shares[i] <= shares[j])
    decreases k
  {
    HalfOfPeriod(period, window);
    var left := s.start + Full(period, window) - now;
    var share := FrameBudget(s, now, period, window, k - 1);
    assert Opened(s, now, period) == s;
    ShareAtMostAll(left, k);
    assert share == left / k;
    var rest := Shares(s, now + share, period, window, k - 1);
    assert Shares(s, now, period, window, k) == [share] + rest;
    if k == 1 {
      assert left / 1 == left;
      assert Sum(rest) == 0;
    } else {
      SharesUseTheWindow(s, now + share, period, window, k - 1);
      DivideRest(left, k);
    }
  }

  // Taking one k-th, rounded down, off the top leaves k - 1 shares that are as even.
  lemma DivideRest(left: nat, k: nat)
    requires k > 1
    ensures var q := left / k;
            q <= (left - q) / (k - 1)
            && (left - q) / (k - 1) + (if (left - q) % (k - 1) == 0 then 0 else 1)
               <= q + (if left % k == 0 then 0 else 1)
  {
    var q, r := left / k, left % k;
    Distribute(k - 1, q);
    assert left - q == (k - 1) * q + r;
    if r == k - 1 {
      DivModUnique(left - q, k - 1, q + 1, 0);
    } else {
      DivModUnique(left - q, k - 1, q, r);
    }
  }

  lemma Distribute(a: int, q: int)
    ensures (a + 1) * q == a * q + q && a * (q + 1) == a * q + a
  {
  }

  lemma DivModUnique(m: int, d: int, q: int, r: int)
    requires d > 0 && m == d * q + r && 0 <= r < d
    ensures m / d == q && m % d == r
  {
    var x := m / d - q;
    assert m == d * (m / d) + m % d;
    assert d * x == r - m % d;
    if x > 0 { MulMonotone(d, 1, x); } else if x < 0 { MulMonotone(d, x, -1); }
  }

  // A slot that has just been opened for `k` frames spends its whole window on them.
  lemma FreshSlotIsSharedOut(s: Slot, now: int, period: int, window: real, k: nat)
    requires period > 0 && window > 0.0 && k > 0 && !s.open
    ensures var shares := Shares(s, now, period, window, k);
            Sum(shares) == Full(period, window)
            && forall i, j :: 0 <= i <= j < k ==> shares[i] <= shares[j] <= shares[i] + 1
  {
    HalfOfPeriod(period, window);
    var s' := Slot(now, true);
    assert BeginSlot(s, now, period, window) == s' == BeginSlot(s', now, period, window);
    assert Shares(s, now, period, window, k) == Shares(s', now, period, window, k);
    SharesUseTheWindow(s', now, period, window, k);
  }

  // --- The classes -------------------------------------------------------------

  class ShardPacer {
    const start: int
    const budget: int
    const total: nat
    var nextGroup: nat

    ghost function View(): Pacer
      reads this
    {
      Pacer(start, budget, total, nextGroup)
    }

    constructor (startNs: int, budgetNs: int, totalBytes: nat)
      ensures View() == NewPacer(startNs, budgetNs, totalBytes)
    {
      start, budget, total, nextGroup := startNs, Max(budgetNs, 0), totalBytes, GROUP_BYTES;
    }

    method WaitUntil(sent: nat, now: int) returns (at: Option<int>)
      modifies this
      ensures at == PauseUntil(old(View()), sent, now)
      ensures View() == Advanced(old(View()), sent)
    {
      if !(budget > 0 && total > GROUP_BYTES) || sent < nextGroup || sent >= total {
        return None;
      }
      nextGroup := (sent / GROUP_BYTES + 1) * GROUP_BYTES;
      var due := start + budget * sent / total;
      if due - now < MIN_SLEEP_NS {
        return None;
      }
      return Some(due);
    }
  }

  class PacingSlot {
    var slotStart: int
    var slotOpen: bool

    ghost function View(): Slot
      reads this
    {
      Slot(slotStart, slotOpen)
    }

    constructor ()
      ensures View() == Slot(0, false)
    {
      slotStart, slotOpen := 0, false;
    }

    method BeginFrame(now: int, period: int, window: real, queued: nat) returns (budget: int)
      modifies this
      ensures budget == FrameBudget(old(View()), now, period, window, queued)
      ensures View() == BeginSlot(old(View()), now, period, window)
    {
      if period <= 0 || window <= 0.0 {
        return 0;
      }
      var full := (period as real * Clamped(window)).Floor;
      if !slotOpen || now - slotStart >= period {
        slotStart, slotOpen := now, true;
      }
      var left := slotStart + full - now;
      if left <= 0 {
        return 0;
      }
      return left / (queued + 1);
    }

    method Reset()
      modifies this
      ensures View() == old(View()).(open := false)
    {
      slotOpen := false;
    }
  }
}
