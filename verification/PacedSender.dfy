/**
  Cutting an encoded frame into shards and handing them out a micro-burst at a time
  (helper/src/wivrn/video_out.cpp). `Cut` says what packets a frame consists of, with
  no clock anywhere; the class is the resumable sender, proved to emit exactly those
  packets whatever the times it is pumped at. The parity builder, which is not part of
  this repository, is a list that is full at its group size and emptied by take().
 */
module PacedSenders {
  import opened Prelude
  import opened Pacing

  type byte = bv8

  // The numbers the packet library supplies: the serialised size of a view info that
  // is present and of one that is absent, the payload budget of a shard without and
  // with parity, and how many shards one parity shard covers.
  datatype Sizes = Sizes(withView: nat, withoutView: nat, plain: nat, protected: nat, group: nat)

  datatype Frame = Frame(stream: nat, index: nat, idr: bool, hasStreamSocket: bool, fragmentOnControl: bool,
                         fec: bool, view: nat, timing: nat)

  datatype Shard = Shard(stream: nat, frame: nat, idx: nat, view: Option<nat>, timing: Option<nat>, payload: seq<byte>)

  datatype Packet = Data(shard: Shard, control: bool) | Parity(covers: seq<Shard>)

  predicate FecActive(f: Frame) { f.fec && f.hasStreamSocket && !f.idr }

  // No budget at all means a shard may be the whole frame.
  function PayloadBudget(f: Frame, z: Sizes): Option<nat> {
    if f.idr || (!f.hasStreamSocket && !f.fragmentOnControl) then None
    else Some(if FecActive(f) then z.protected else z.plain)
  }

  function Take(f: Frame, z: Sizes, first: bool, remaining: nat): (n: nat)
    requires remaining > 0
    ensures 0 < n <= remaining
  {
    match PayloadBudget(f, z)
    case None => remaining
    case Some(budget) =>
      var overhead := if first then z.withView else z.withoutView;
      Min(if budget > overhead then budget - overhead else 1, remaining)
  }

  function NextShard(f: Frame, z: Sizes, data: seq<byte>, offset: nat, idx: nat): Shard
    requires offset < |data|
  {
    var n := Take(f, z, idx == 0, |data| - offset);
    Shard(f.stream, f.index, idx, if idx == 0 then Some(f.view) else None,
          if n == |data| - offset then Some(f.timing) else None, data[offset..offset + n])
  }

  function Closing(group: seq<Shard>, sink: bool): seq<Packet> {
    if group != [] && sink then [Parity(group)] else []
  }

  // What sending shard number `idx` does: the group it leaves complete or open, and the
  // packets that go out, the parity of a completed group right behind its last shard.
  function Grown(f: Frame, z: Sizes, data: seq<byte>, offset: nat, idx: nat, group: seq<Shard>): seq<Shard>
    requires offset < |data|
  {
    if FecActive(f) then group + [NextShard(f, z, data, offset, idx)] else group
  }

  predicate Complete(f: Frame, z: Sizes, group: seq<Shard>) { FecActive(f) && |group| >= z.group }

  function Emitted(f: Frame, z: Sizes, sink: bool, data: seq<byte>, offset: nat, idx: nat,
                   group: seq<Shard>): seq<Packet>
    requires offset < |data|
  {
    var open := Grown(f, z, data, offset, idx, group);
    [Data(NextShard(f, z, data, offset, idx), f.idr)] + if Complete(f, z, open) then Closing(open, sink) else []
  }

  function LeftOpen(f: Frame, z: Sizes, data: seq<byte>, offset: nat, idx: nat, group: seq<Shard>): seq<Shard>
    requires offset < |data|
  {
    var open := Grown(f, z, data, offset, idx, group);
    if Complete(f, z, open) then [] else open
  }

  function NextOffset(f: Frame, z: Sizes, data: seq<byte>, offset: nat, idx: nat): (next: nat)
    requires offset < |data|
    ensures offset < next <= |data|
  {
    offset + Take(f, z, idx == 0, |data| - offset)
  }

  // The packets of a frame from byte `offset`, shard `idx` on, with `group` open.
  function Cut(f: Frame, z: Sizes, sink: bool, data: seq<byte>, offset: nat, idx: nat, group: seq<Shard>): seq<Packet>
    requires offset <= |data|
    decreases |data| - offset
  {
    if offset == |data| then Closing(group, sink)
    else
      Emitted(f, z, sink, data, offset, idx, group)
      + Cut(f, z, sink, data, NextOffset(f, z, data, offset, idx), idx + 1, LeftOpen(f, z, data, offset, idx, group))
  }

  // A frame with no bytes is skipped rather than sent.
  function Whole(f: Frame, z: Sizes, sink: bool, data: seq<byte>): seq<Packet> {
    Cut(f, z, sink, data, 0, 0, [])
  }

  // --- What a frame's packets are ----------------------------------------------

  function Shards(ps: seq<Packet>): seq<Shard> {
    if ps == [] then [] else (if ps[0].Data? then [ps[0].shard] else []) + Shards(ps[1..])
  }

  function Covered(ps: seq<Packet>): seq<Shard> {
    if ps == [] then [] else (if ps[0].Parity? then ps[0].covers else []) + Covered(ps[1..])
  }

  function Payloads(ss: seq<Shard>): seq<byte> {
    if ss == [] then [] else ss[0].payload + Payloads(ss[1..])
  }

  lemma {:induction false} ShardsConcat(a: seq<Packet>, b: seq<Packet>)
    ensures Shards(a + b) == Shards(a) + Shards(b)
    ensures Covered(a + b) == Covered(a) + Covered(b)
    decreases |a|
  {
    if a == [] {
      assert a + b == b;
    } else {
      assert (a + b)[0] == a[0] && (a + b)[1..] == a[1..] + b;
      ShardsConcat(a[1..], b);
      Regroup(if a[0].Data? then [a[0].shard] else [], Shards(a[1..]), Shards(b));
      Regroup(if a[0].Parity? then a[0].covers else [], Covered(a[1..]), Covered(b));
    }
  }

  lemma ClosingCounts(group: seq<Shard>, sink: bool)
    ensures Shards(Closing(group, sink)) == [] && Covered(Closing(group, sink)) == if sink then group else []
  {
  }

  // One step of the cut, as far as shards and cover are concerned.
  lemma CutStep(f: Frame, z: Sizes, sink: bool, data: seq<byte>, offset: nat, idx: nat, group: seq<Shard>)
    requires offset < |data|
    ensures var open := Grown(f, z, data, offset, idx, group);
            var out := Emitted(f, z, sink, data, offset, idx, group);
            Shards(out) == [NextShard(f, z, data, offset, idx)]
            && Covered(out) == if Complete(f, z, open) && sink then open else []
  {
    var open := Grown(f, z, data, offset, idx, group);
    var d := [Data(NextShard(f, z, data, offset, idx), f.idr)];
    ShardsConcat(d, if Complete(f, z, open) then Closing(open, sink) else []);
    ClosingCounts(open, sink);
    assert Shards(d) == [d[0].shard] && Covered(d) == [];
  }

  // The data shards of a frame, with the parity left out.
  function ShardList(f: Frame, z: Sizes, data: seq<byte>, offset: nat, idx: nat): seq<Shard>
    requires offset <= |data|
    decreases |data| - offset
  {
    if offset == |data| then []
    else
      var shard := NextShard(f, z, data, offset, idx);
      [shard] + ShardList(f, z, data, NextOffset(f, z, data, offset, idx), idx + 1)
  }

  lemma {:induction false} CutHasShardList(f: Frame, z: Sizes, sink: bool, data: seq<byte>, offset: nat, idx: nat,
                                           group: seq<Shard>)
    requires offset <= |data|
    ensures Shards(Cut(f, z, sink, data, offset, idx, group)) == ShardList(f, z, data, offset, idx)
    decreases |data| - offset
  {
    if offset == |data| {
      ClosingCounts(group, sink);
    } else {
      CutStep(f, z, sink, data, offset, idx, group);
      var next, left := NextOffset(f, z, data, offset, idx), LeftOpen(f, z, data, offset, idx, group);
      ShardsConcat(Emitted(f, z, sink, data, offset, idx, group), Cut(f, z, sink, data, next, idx + 1, left));
      CutHasShardList(f, z, sink, data, next, idx + 1, left);
    }
  }

  // Shard `s` is number `idx` of the frame; it is the frame's last one or it is not.
  predicate WellMarked(f: Frame, s: Shard, idx: nat, last: bool) {
    s.stream == f.stream && s.frame == f.index && s.idx == idx && s.payload != []
    && s.view == (if idx == 0 then Some(f.view) else None) && s.timing == (if last then Some(f.timing) else None)
  }

  lemma {:induction false} ShardListIsMarked(f: Frame, z: Sizes, data: seq<byte>, offset: nat, idx: nat)
    requires offset <= |data|
    ensures var ss := ShardList(f, z, data, offset, idx);
            && (offset < |data| ==> ss != [])
            && forall i :: 0 <= i < |ss| ==> WellMarked(f, ss[i], idx + i, i == |ss| - 1)
    decreases |data| - offset
  {
    if offset < |data| {
      var next := NextOffset(f, z, data, offset, idx);
      ShardListIsMarked(f, z, data, next, idx + 1);
      var ss, rest := ShardList(f, z, data, offset, idx), ShardList(f, z, data, next, idx + 1);
      forall i | 0 <= i < |ss| ensures WellMarked(f, ss[i], idx + i, i == |ss| - 1) {
        if i > 0 { assert ss[i] == rest[i - 1]; }
      }
    }
  }

  lemma {:induction false} ShardListCarriesData(f: Frame, z: Sizes, data: seq<byte>, offset: nat, idx: nat)
    requires offset <= |data|
    ensures Payloads(ShardList(f, z, data, offset, idx)) == data[offset..]
    decreases |data| - offset
  {
    if offset < |data| {
      var next := NextOffset(f, z, data, offset, idx);
      ShardListCarriesData(f, z, data, next, idx + 1);
      assert ShardList(f, z, data, offset, idx)[1..] == ShardList(f, z, data, next, idx + 1);
      assert data[offset..] == data[offset..next] + data[next..];
    }
  }

  // The data shards of a frame carry its bytes in order, are numbered from zero, and
  // only the first has a view info and only the last a timing info.
  lemma WholeShards(f: Frame, z: Sizes, sink: bool, data: seq<byte>)
    ensures var ss := Shards(Whole(f, z, sink, data));
            && Payloads(ss) == data
            && (data == [] <==> ss == [])
            && forall i :: 0 <= i < |ss| ==> WellMarked(f, ss[i], i, i == |ss| - 1)
  {
    CutHasShardList(f, z, sink, data, 0, 0, []);
    ShardListIsMarked(f, z, data, 0, 0);
    ShardListCarriesData(f, z, data, 0, 0);
    assert data[0..] == data;
  }

  // With parity on, the parity shards cover every data shard exactly once, in order;
  // without it there are none.
  lemma {:induction false} CutCover(f: Frame, z: Sizes, sink: bool, data: seq<byte>, offset: nat, idx: nat,
                                    group: seq<Shard>)
    requires offset <= |data| && (!FecActive(f) ==> group == [])
    ensures var ps := Cut(f, z, sink, data, offset, idx, group);
            Covered(ps) == if FecActive(f) && sink then group + Shards(ps) else []
    decreases |data| - offset
  {
    if offset == |data| {
      ClosingCounts(group, sink);
    } else {
      CutStep(f, z, sink, data, offset, idx, group);
      var next, left := NextOffset(f, z, data, offset, idx), LeftOpen(f, z, data, offset, idx, group);
      var rest := Cut(f, z, sink, data, next, idx + 1, left);
      ShardsConcat(Emitted(f, z, sink, data, offset, idx, group), rest);
      CutCover(f, z, sink, data, next, idx + 1, left);
      ReassociateCover(group, NextShard(f, z, data, offset, idx), Shards(rest));
    }
  }

  lemma ReassociateCover(group: seq<Shard>, shard: Shard, rest: seq<Shard>)
    ensures group + [shard] + rest == group + ([shard] + rest)
    ensures [] + (group + [shard] + rest) == group + ([shard] + rest)
    ensures (group + [shard]) + ([] + rest) == group + ([shard] + rest)
  {
  }

  lemma ParityCoversEveryShard(f: Frame, z: Sizes, sink: bool, data: seq<byte>)
    ensures Covered(Whole(f, z, sink, data)) == if FecActive(f) && sink then Shards(Whole(f, z, sink, data)) else []
  {
    CutCover(f, z, sink, data, 0, 0, []);
    assert [] + Shards(Whole(f, z, sink, data)) == Shards(Whole(f, z, sink, data));
  }

  // --- With and without parity ------------------------------------------------------------

  lemma BeginningsAgree(a: seq<Packet>, b: seq<Packet>)
    requires a <= b
    ensures Shards(a) <= Shards(b) && Covered(a) <= Covered(b)
  {
    assert b == a + b[|a|..];
    ShardsConcat(a, b[|a|..]);
  }

  lemma {:induction false} CutWithoutParity(f: Frame, z: Sizes, sink: bool, data: seq<byte>, offset: nat, idx: nat)
    requires offset <= |data| && !FecActive(f)
    ensures Cut(f, z, sink, data, offset, idx, []) == Cut(f, z, false, data, offset, idx, [])
    decreases |data| - offset
  {
    if offset < |data| { CutWithoutParity(f, z, sink, data, NextOffset(f, z, data, offset, idx), idx + 1); }
  }

  // With or without parity the data shards are those of the unpaced sender.
  lemma SameShards(f: Frame, z: Sizes, sink: bool, data: seq<byte>)
    ensures Shards(Whole(f, z, sink, data)) == Shards(Whole(f, z, false, data))
  {
    CutHasShardList(f, z, sink, data, 0, 0, []);
    CutHasShardList(f, z, false, data, 0, 0, []);
  }

  lemma BeginningOfShards(f: Frame, z: Sizes, sink: bool, data: seq<byte>, ps: seq<Packet>)
    requires ps <= Whole(f, z, sink, data)
    ensures Shards(ps) <= Shards(Whole(f, z, false, data))
    ensures ps == Whole(f, z, sink, data) ==> Shards(ps) == Shards(Whole(f, z, false, data))
  {
    SameShards(f, z, sink, data);
    BeginningsAgree(ps, Whole(f, z, sink, data));
  }

  // The packets themselves are the unpaced sender's exactly when no parity goes out.
  lemma SamePacketsExactly(f: Frame, z: Sizes, sink: bool, data: seq<byte>)
    ensures Whole(f, z, sink, data) <= Whole(f, z, false, data) <==> !sink || !FecActive(f) || data == []
    ensures Whole(f, z, sink, data) == Whole(f, z, false, data) <==> !sink || !FecActive(f) || data == []
  {
    if !FecActive(f) { CutWithoutParity(f, z, sink, data, 0, 0); }
    if Whole(f, z, sink, data) <= Whole(f, z, false, data) {
      BeginningsAgree(Whole(f, z, sink, data), Whole(f, z, false, data));
    }
    WholeShards(f, z, sink, data);
    ParityCoversEveryShard(f, z, sink, data);
    ParityCoversEveryShard(f, z, false, data);
  }

  // --- The sender ---------------------------------------------------------------

  // A pause is only taken on crossing into a new group, so there are fewer pauses
  // than groups.
  predicate PausesFit(p: Pacer, pauses: nat) {
    && p.nextGroup % GROUP_BYTES == 0
    && p.nextGroup >= GROUP_BYTES
    && pauses <= p.nextGroup / GROUP_BYTES - 1
    && (p.nextGroup > GROUP_BYTES ==> Active(p) && p.nextGroup - GROUP_BYTES < p.total)
  }

  lemma PausesBelowGroups(p: Pacer, pauses: nat)
    requires PausesFit(p, pauses)
    ensures pauses < GroupCount(p)
  {
    if p.nextGroup > GROUP_BYTES {
      var k := p.nextGroup / GROUP_BYTES - 1;
      assert p.nextGroup == GROUP_BYTES * (k + 1);
      assert GROUP_BYTES * k < p.total;
    }
  }

  lemma CrossingFits(p: Pacer, pauses: nat, sent: nat, now: int)
    requires PausesFit(p, pauses)
    ensures PausesFit(Advanced(p, sent), if PauseUntil(p, sent, now).Some? then pauses + 1 else pauses)
  {
    if AtBoundary(p, sent) {
      var g := sent / GROUP_BYTES;
      assert GROUP_BYTES * g <= sent;
      assert (g + 1) * GROUP_BYTES / GROUP_BYTES == g + 1;
      assert g >= p.nextGroup / GROUP_BYTES by { DivMonotone(p.nextGroup, sent, GROUP_BYTES); }
    }
  }

  // A pacer after it was asked about these numbers of bytes sent.
  function Asked(p: Pacer, sents: seq<nat>): Pacer {
    if sents == [] then p else Advanced(Asked(p, sents[..|sents| - 1]), sents[|sents| - 1])
  }

  // Every pacer there is, new or used, may pace a frame.
  lemma {:induction false} EveryPacerFits(start: int, budget: int, total: nat, sents: seq<nat>, m: nat)
    requires m <= |sents|
    ensures forall n :: 0 <= n <= m ==> PausesFit(Asked(NewPacer(start, budget, total), sents[..n]), 0)
    decreases m
  {
    if m > 0 {
      EveryPacerFits(start, budget, total, sents, m - 1);
      assert sents[..m][..m - 1] == sents[..m - 1];
      CrossingFits(Asked(NewPacer(start, budget, total), sents[..m - 1]), 0, sents[m - 1], 0);
    }
  }

  class PacedSender {
    var frame: Frame
    var sizes: Sizes
    var sink: bool         // whether parity has somewhere to go
    var data: seq<byte>
    var pacer: Pacer
    var active: bool
    var offset: nat
    var idx: nat
    var group: seq<Shard>
    var parityShards: nat
    ghost var sent: seq<Packet>   // everything handed out for this frame
    ghost var pauses: nat         // pumps of this frame that ended in a pause

    // What has been handed out and what is still to come are together the frame.
    ghost predicate Valid()
      reads this
    {
      PausesFit(pacer, pauses) && (FecActive(frame) || group == [])
      && (active ==> offset < |data| && OnTrack(Whole(frame, sizes, sink, data)))
    }

    ghost predicate OnTrack(whole: seq<Packet>)
      reads this
    {
      offset <= |data| && sent + Cut(frame, sizes, sink, data, offset, idx, group) == whole
    }

    constructor ()
      ensures Valid() && !active
    {
      frame := Frame(0, 0, false, true, false, false, 0, 0);
      sizes := Sizes(0, 0, 0, 0, 0);
      sink, data, pacer, active, offset, idx, group, parityShards := false, [], UNPACED, false, 0, 0, [], 0;
      sent, pauses := [], 0;
    }

    method Begin(f: Frame, z: Sizes, paritySink: bool, bytes: seq<byte>, schedule: Pacer)
      requires PausesFit(schedule, 0)
      modifies this
      ensures Valid() && frame == f && sizes == z && sink == paritySink && data == bytes && pacer == schedule
      ensures active == (bytes != []) && sent == [] && pauses == 0
      ensures offset == 0 && idx == 0 && group == [] && parityShards == 0
      ensures !active ==> Whole(f, z, paritySink, bytes) == []
    {
      frame, sizes, sink, data, pacer := f, z, paritySink, bytes, schedule;
      offset, idx, group, parityShards := 0, 0, [], 0;
      sent, pauses := [], 0;
      active := bytes != [];
    }

    method SendParity() returns (burst: seq<Packet>)
      modifies `group, `parityShards
      ensures burst == Closing(old(group), sink) && group == []
      ensures parityShards == old(parityShards) + |burst|
    {
      var taken := group;
      group := [];
      if taken == [] || !sink {
        return [];
      }
      parityShards := parityShards + 1;
      burst := [Parity(taken)];
    }

    // One shard, and the parity of its group if it completes one.
    method SendShard() returns (out: seq<Packet>)
      requires offset < |data|
      modifies `offset, `idx, `group, `parityShards
      ensures out == Emitted(frame, sizes, sink, data, old(offset), old(idx), old(group))
      ensures offset == NextOffset(frame, sizes, data, old(offset), old(idx)) && idx == old(idx) + 1
      ensures group == LeftOpen(frame, sizes, data, old(offset), old(idx), old(group))
    {
      var take := Take(frame, sizes, idx == 0, |data| - offset);
      var last := take == |data| - offset;
      var shard := Shard(frame.stream, frame.index, idx, if idx == 0 then Some(frame.view) else None,
                         if last then Some(frame.timing) else None, data[offset..offset + take]);
      out := [Data(shard, frame.idr)];
      if FecActive(frame) {
        group := group + [shard];
      }
      idx := idx + 1;
      offset := offset + take;
      if FecActive(frame) && |group| >= sizes.group {
        var parity := SendParity();
        out := out + parity;
      }
    }

    method SendNext(ghost whole: seq<Packet>) returns (out: seq<Packet>)
      requires OnTrack(whole) && offset < |data| && (FecActive(frame) || group == [])
      modifies `offset, `idx, `group, `parityShards, `sent
      ensures OnTrack(whole) && offset > old(offset) && (FecActive(frame) || group == [])
      ensures sent == old(sent) + out && out != []
    {
      out := SendShard();
      Regroup(sent, out, Cut(frame, sizes, sink, data, offset, idx, group));
      sent := sent + out;
      assert |out| > 0;
    }

    // After a shard: keep going, or pause until the time returned.
    method Pause(now: int) returns (at: Option<int>)
      requires PausesFit(pacer, pauses)
      modifies `pacer, `pauses
      ensures at == PauseUntil(old(pacer), offset, now) && pacer == Advanced(old(pacer), offset)
      ensures PausesFit(pacer, pauses) && pauses == old(pauses) + if at.Some? then 1 else 0
      ensures pacer == old(pacer).(nextGroup := pacer.nextGroup) && pauses < GroupCount(pacer)
      ensures at.Some? ==> now + MIN_SLEEP_NS <= at.value <= pacer.start + Max(pacer.budget, 0)
    {
      at := PauseUntil(pacer, offset, now);
      CrossingFits(pacer, pauses, offset, now);
      DeadlinesAreMonotone(pacer, offset, offset);
      pacer := Advanced(pacer, offset);
      pauses := pauses + if at.Some? then 1 else 0;
      PausesBelowGroups(pacer, pauses);
    }

    // One shard out, and the pause after it unless it was the last.
    method SendOne(ghost whole: seq<Packet>, now: int) returns (out: seq<Packet>, due: Option<int>)
      requires OnTrack(whole) && offset < |data| && (FecActive(frame) || group == []) && PausesFit(pacer, pauses)
      modifies `offset, `idx, `group, `parityShards, `sent, `pacer, `pauses
      ensures OnTrack(whole) && offset > old(offset) && (FecActive(frame) || group == [])
      ensures sent == old(sent) + out && out != [] && (due.Some? ==> offset < |data|)
      ensures PausesFit(pacer, pauses) && pauses == old(pauses) + if due.Some? then 1 else 0
      ensures pacer == old(pacer).(nextGroup := pacer.nextGroup) && pauses < GroupCount(pacer)
      ensures due.Some? ==> now + MIN_SLEEP_NS <= due.value <= pacer.start + Max(pacer.budget, 0)
    {
      out := SendNext(whole);
      due := None;
      PausesBelowGroups(pacer, pauses);
      if offset < |data| {
        due := Pause(now);
      }
    }

    method Finish(ghost whole: seq<Packet>) returns (parity: seq<Packet>)
      requires OnTrack(whole) && offset == |data| && (FecActive(frame) || group == [])
      modifies `group, `parityShards, `sent, `active
      ensures sent == whole && sent == old(sent) + parity && !active && group == []
    {
      parity := [];
      if FecActive(frame) {
        parity := SendParity();
      }
      sent := sent + parity;
      active := false;
    }

    // Hands out what is due. With any pacer and at any time: what comes out is the next
    // stretch of the frame's packets and at least one of them; the sender goes idle
    // exactly when the last one is out; a pump past the end of the schedule finishes.
    method Pump(now: int) returns (due: Option<int>, burst: seq<Packet>)
      requires Valid()
      modifies `offset, `idx, `group, `parityShards, `sent, `active, `pacer, `pauses
      ensures Valid() && sent == old(sent) + burst
      ensures !old(active) ==> due == None && burst == [] && !active
      ensures old(active) ==> burst != [] && (active <==> due.Some?)
      ensures old(active) && !active ==> sent == Whole(frame, sizes, sink, data)
      ensures pauses == old(pauses) + (if due.Some? then 1 else 0) && pauses < GroupCount(pacer)
      ensures pacer == old(pacer).(nextGroup := pacer.nextGroup)
      ensures due.Some? ==> now + MIN_SLEEP_NS <= due.value <= pacer.start + Max(pacer.budget, 0)
    {
      due, burst := None, [];
      PausesBelowGroups(pacer, pauses);
      if !active {
        return;
      }
      ghost var whole := Whole(frame, sizes, sink, data);
      while offset < |data|
        invariant OnTrack(whole) && active && due == None && (FecActive(frame) || group == [])
        invariant pacer == old(pacer).(nextGroup := pacer.nextGroup) && pauses == old(pauses)
        invariant PausesFit(pacer, pauses) && pauses < GroupCount(pacer)
        invariant sent == old(sent) + burst && (offset == |data| ==> burst != [])
        decreases |data| - offset
      {
        var out;
        out, due := SendOne(whole, now);
        Regroup(old(sent), burst, out);
        burst := burst + out;
        if due.Some? {
          return;
        }
      }
      var parity := Finish(whole);
      Regroup(old(sent), burst, parity);
      burst := burst + parity;
    }

    method Abort()
      requires Valid()
      modifies `active
      ensures Valid() && !active
    {
      active := false;
    }
  }

  // VideoPacketizer::send: a whole frame at once. One pump of an unpaced sender is
  // enough, and what goes out is the frame.
  method SendWhole(f: Frame, z: Sizes, data: seq<byte>) returns (packets: seq<Packet>)
    ensures packets == Whole(f, z, false, data)
  {
    var sender := new PacedSender();
    sender.Begin(f, z, false, data, UNPACED);
    ghost var started := sender.active;
    var due, burst := sender.Pump(0);
    packets := burst;
  }

  // One pump at each of the given times.
  method PumpAt(f: Frame, z: Sizes, paritySink: bool, data: seq<byte>, schedule: Pacer, times: seq<int>)
    returns (packets: seq<Packet>, finished: bool)
    requires PausesFit(schedule, 0)
    ensures packets <= Whole(f, z, paritySink, data)
    ensures finished ==> packets == Whole(f, z, paritySink, data)
    ensures |times| >= GroupCount(schedule) ==> finished
    ensures (exists i :: 0 <= i < |times| && times[i] >= schedule.start + Max(schedule.budget, 0)) ==> finished
  {
    var sender := new PacedSender();
    sender.Begin(f, z, paritySink, data, schedule);
    ghost var whole := Whole(f, z, paritySink, data);
    packets := [];
    for k := 0 to |times|
      invariant sender.Valid() && sender.frame == f && sender.sizes == z && sender.sink == paritySink
                && sender.data == data
      invariant sender.pacer == schedule.(nextGroup := sender.pacer.nextGroup)
      invariant packets == sender.sent && (if sender.active then sender.pauses == k else packets == whole)
      invariant forall i :: 0 <= i < k && times[i] >= schedule.start + Max(schedule.budget, 0) ==> !sender.active
    {
      var due, burst := sender.Pump(times[k]);
      packets := packets + burst;
    }
    finished := !sender.active;
    if sender.active {
      PausesBelowGroups(sender.pacer, sender.pauses);
      assert GroupCount(sender.pacer) == GroupCount(schedule);
    }
  }

  // A frame pumped at any times whatever: what comes out is always the beginning of the
  // same packets, and all of them after as many pumps as there are groups, or after one
  // at or past the end of the schedule. Its data shards are those of the unpaced sender.
  method SendPaced(f: Frame, z: Sizes, paritySink: bool, data: seq<byte>, schedule: Pacer, times: seq<int>)
    returns (packets: seq<Packet>, finished: bool)
    requires PausesFit(schedule, 0)
    ensures packets <= Whole(f, z, paritySink, data)
    ensures finished ==> packets == Whole(f, z, paritySink, data)
    ensures Shards(packets) <= Shards(Whole(f, z, false, data))
    ensures finished ==> Shards(packets) == Shards(Whole(f, z, false, data))
    ensures |times| >= GroupCount(schedule) ==> finished
    ensures (exists i :: 0 <= i < |times| && times[i] >= schedule.start + Max(schedule.budget, 0)) ==> finished
  {
    packets, finished := PumpAt(f, z, paritySink, data, schedule, times);
    BeginningOfShards(f, z, paritySink, data, packets);
  }
}
