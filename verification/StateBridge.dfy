/**
  The seam between the session and the shim's pipe (helper/src/bridge.cpp): the latest
  value of everything, one generation counter per value, and a cursor per connection
  that says which generations its reader has been sent. The reader is the shim, which
  ignores device messages until it has a display configuration
  (shim/src/ipc_client.cpp).
 */
module StateBridge {
  import opened Prelude

  const DEVICES := 3

  // The contents of a configuration, pose or input beyond what the bridge looks at are
  // carried as an opaque value.
  datatype Pose = Pose(device: nat, connected: bool, sample: int)
  datatype Input = Input(device: nat, sample: int)

  datatype Device = Device(pose: Pose, poseGen: nat, input: Input, inputGen: nat, present: bool, presenceGen: nat)

  datatype State = State(config: int, configGen: nat, devices: seq<Device>)

  datatype Seen = Seen(pose: nat, input: nat, presence: nat)
  datatype Cursor = Cursor(config: nat, seen: seq<Seen>)

  const FRESH := Cursor(0, [Seen(0, 0, 0), Seen(0, 0, 0), Seen(0, 0, 0)])

  function Blank(i: nat): Device { Device(Pose(i, false, 0), 0, Input(i, 0), 0, false, 0) }

  function Initial(config: int): State { State(config, 1, [Blank(0), Blank(1), Blank(2)]) }

  datatype Message =
    | HmdConfig(config: int)
    | DeviceAdd(device: nat)
    | DeviceRemove(device: nat)
    | PoseUpdate(pose: Pose)
    | InputUpdate(input: Input)

  ghost predicate Shaped(b: State) {
    |b.devices| == DEVICES
  }

  ghost predicate CursorShaped(c: Cursor) {
    |c.seen| == DEVICES
  }

  // --- Producers -------------------------------------------------------------------

  datatype Write =
    | SetConfig(config: int)
    | SetPose(pose: Pose)
    | SetInput(input: Input)
    | SetPresent(device: nat, on: bool)
    | ClientGone

  function Departed(d: Device): Device {
    var p := if d.present then d.(present := false, presenceGen := d.presenceGen + 1) else d;
    if p.pose.connected then p.(pose := p.pose.(connected := false), poseGen := p.poseGen + 1) else p
  }

  function Written(b: State, w: Write): State
    requires Shaped(b)
  {
    match w
    case SetConfig(c) => if c == b.config then b else b.(config := c, configGen := b.configGen + 1)
    case SetPose(p) =>
      if p.device >= DEVICES then b
      else var d := b.devices[p.device]; b.(devices := b.devices[p.device := d.(pose := p, poseGen := d.poseGen + 1)])
    case SetInput(i) =>
      if i.device >= DEVICES then b
      else
        var d := b.devices[i.device];
        b.(devices := b.devices[i.device := d.(input := i, inputGen := d.inputGen + 1)])
    case SetPresent(k, on) =>
      if k >= DEVICES || b.devices[k].present == on then b
      else var d := b.devices[k]; b.(devices := b.devices[k := d.(present := on, presenceGen := d.presenceGen + 1)])
    case ClientGone => b.(devices := [Departed(b.devices[0]), Departed(b.devices[1]), Departed(b.devices[2])])
  }

  // --- Collecting --------------------------------------------------------------------

  function ConfigNews(b: State, c: Cursor): seq<Message> {
    if c.config != b.configGen then [HmdConfig(b.config)] else []
  }

  // News of the first n devices.
  function PresenceNews(b: State, c: Cursor, n: nat): seq<Message>
    requires Shaped(b) && CursorShaped(c) && n <= DEVICES
  {
    if n <= 1 then []
    else
      PresenceNews(b, c, n - 1)
      + if c.seen[n - 1].presence == b.devices[n - 1].presenceGen then []
        else if b.devices[n - 1].present then [DeviceAdd(n - 1)] else [DeviceRemove(n - 1)]
  }

  function PoseNews(b: State, c: Cursor, n: nat): seq<Message>
    requires Shaped(b) && CursorShaped(c) && n <= DEVICES
  {
    if n == 0 then []
    else
      PoseNews(b, c, n - 1)
      + if c.seen[n - 1].pose == b.devices[n - 1].poseGen then [] else [PoseUpdate(b.devices[n - 1].pose)]
  }

  function InputNews(b: State, c: Cursor, n: nat): seq<Message>
    requires Shaped(b) && CursorShaped(c) && n <= DEVICES
  {
    if n == 0 then []
    else
      InputNews(b, c, n - 1)
      + if c.seen[n - 1].input == b.devices[n - 1].inputGen then [] else [InputUpdate(b.devices[n - 1].input)]
  }

  function News(b: State, c: Cursor): seq<Message>
    requires Shaped(b) && CursorShaped(c)
  {
    ConfigNews(b, c) + PresenceNews(b, c, DEVICES) + PoseNews(b, c, DEVICES) + InputNews(b, c, DEVICES)
  }

  // What a cursor has seen after a collect. The headset itself is never announced, so
  // its presence counter is left alone.
  function SeenAll(b: State, c: Cursor): Cursor
    requires Shaped(b) && CursorShaped(c)
  {
    Cursor(b.configGen,
           [Seen(b.devices[0].poseGen, b.devices[0].inputGen, c.seen[0].presence),
            Seen(b.devices[1].poseGen, b.devices[1].inputGen, b.devices[1].presenceGen),
            Seen(b.devices[2].poseGen, b.devices[2].inputGen, b.devices[2].presenceGen)])
  }

  // --- The reader -----------------------------------------------------------------------

  datatype Copy = Copy(pose: Pose, input: Input, present: bool)
  datatype Mirror = Mirror(ready: bool, config: Option<int>, devices: seq<Copy>)

  function Unknown(i: nat): Copy { Copy(Pose(i, false, 0), Input(i, 0), false) }

  const BLANK_MIRROR := Mirror(false, None, [Unknown(0), Unknown(1), Unknown(2)])

  function WithCopy(m: Mirror, k: nat, c: Copy): Mirror {
    if k < |m.devices| then m.(devices := m.devices[k := c]) else m
  }

  function CopyOf(m: Mirror, k: nat): Copy { if k < |m.devices| then m.devices[k] else Unknown(k) }

  function Heard(m: Mirror, msg: Message): Mirror {
    match msg
    case HmdConfig(c) => m.(ready := true, config := Some(c))
    case DeviceAdd(k) => if m.ready then WithCopy(m, k, CopyOf(m, k).(present := true)) else m
    case DeviceRemove(k) => if m.ready then WithCopy(m, k, CopyOf(m, k).(present := false)) else m
    case PoseUpdate(p) => if m.ready then WithCopy(m, p.device, CopyOf(m, p.device).(pose := p)) else m
    case InputUpdate(i) => if m.ready then WithCopy(m, i.device, CopyOf(m, i.device).(input := i)) else m
  }

  function HeardAll(m: Mirror, msgs: seq<Message>): Mirror {
    if msgs == [] then m else Heard(HeardAll(m, msgs[..|msgs| - 1]), msgs[|msgs| - 1])
  }

  lemma {:induction false} HeardAppend(m: Mirror, a: seq<Message>, b: seq<Message>)
    ensures HeardAll(m, a + b) == HeardAll(HeardAll(m, a), b)
    decreases |b|
  {
    if b == [] {
      assert a + b == a;
    } else {
      HeardAppend(m, a, b[..|b| - 1]);
      assert (a + b)[..|a + b| - 1] == a + b[..|b| - 1];
    }
  }

  // The reader has exactly what the bridge has: the configuration, the controllers'
  // presence, and every pose and input.
  ghost predicate Agrees(b: State, m: Mirror)
    requires Shaped(b)
  {
    && m.ready
    && m.config == Some(b.config)
    && |m.devices| == DEVICES
    && (forall i :: 0 <= i < DEVICES ==>
          m.devices[i].pose == b.devices[i].pose && m.devices[i].input == b.devices[i].input)
    && (forall i :: 1 <= i < DEVICES ==> m.devices[i].present == b.devices[i].present)
  }

  // --- What a connection keeps ----------------------------------------------------------

  // A generation the cursor has seen means the reader has the value; a generation of
  // zero means the value was never set, and the reader cannot have another.
  ghost predicate DeviceOk(d: Device, i: nat, s: Seen, c: Copy) {
    && d.pose.device == i && d.input.device == i
    && (s.pose == d.poseGen ==> c.pose == d.pose) && (d.poseGen == 0 ==> c.pose == d.pose)
    && (s.input == d.inputGen ==> c.input == d.input) && (d.inputGen == 0 ==> c.input == d.input)
    && (i > 0 ==>
          && (s.presence == d.presenceGen ==> c.present == d.present)
          && (d.presenceGen == 0 ==> c.present == d.present))
    && s.pose <= d.poseGen && s.input <= d.inputGen && s.presence <= d.presenceGen
  }

  ghost predicate Inv(b: State, c: Cursor, m: Mirror) {
    && Shaped(b)
    && CursorShaped(c)
    && |m.devices| == DEVICES
    && b.configGen > 0
    && c.config <= b.configGen
    && (c.config == b.configGen ==> m.config == Some(b.config))
    && (c.config != 0 ==> m.ready)
    && (forall i :: 0 <= i < DEVICES ==> DeviceOk(b.devices[i], i, c.seen[i], m.devices[i]))
  }

  lemma WriteKeepsInv(b: State, c: Cursor, m: Mirror, w: Write)
    requires Inv(b, c, m)
    ensures Inv(Written(b, w), c, m)
  {
    forall i | 0 <= i < DEVICES ensures DeviceOk(Written(b, w).devices[i], i, c.seen[i], m.devices[i]) {
      assert DeviceOk(b.devices[i], i, c.seen[i], m.devices[i]);
    }
  }

  // The copy of device i after hearing the pose news of the first n devices.
  function WithPose(b: State, c: Cursor, m: Mirror, n: nat, i: nat): Copy
    requires Shaped(b) && CursorShaped(c) && |m.devices| == DEVICES && i < DEVICES
  {
    if i < n && c.seen[i].pose != b.devices[i].poseGen then m.devices[i].(pose := b.devices[i].pose) else m.devices[i]
  }

  lemma PoseHeard(b: State, c: Cursor, m: Mirror, h: Mirror, n: nat)
    requires Shaped(b) && CursorShaped(c) && |m.devices| == DEVICES == |h.devices| && h.ready && 0 < n <= DEVICES
    requires b.devices[n - 1].pose.device == n - 1 && c.seen[n - 1].pose != b.devices[n - 1].poseGen
    requires forall i :: 0 <= i < DEVICES ==> h.devices[i] == WithPose(b, c, m, n - 1, i)
    ensures var x := Heard(h, PoseUpdate(b.devices[n - 1].pose));
            x.ready && x.config == h.config && |x.devices| == DEVICES
            && forall i :: 0 <= i < DEVICES ==> x.devices[i] == WithPose(b, c, m, n, i)
  {
  }

  lemma {:induction false} PoseNewsHeard(b: State, c: Cursor, m: Mirror, n: nat)
    requires Shaped(b) && CursorShaped(c) && |m.devices| == DEVICES && m.ready && n <= DEVICES
    requires forall i :: 0 <= i < DEVICES ==> b.devices[i].pose.device == i
    ensures var h := HeardAll(m, PoseNews(b, c, n));
            && h.ready
            && h.config == m.config
            && |h.devices| == DEVICES
            && forall i :: 0 <= i < DEVICES ==> h.devices[i] == WithPose(b, c, m, n, i)
  {
    if n > 0 {
      PoseNewsHeard(b, c, m, n - 1);
      var before := PoseNews(b, c, n - 1);
      if c.seen[n - 1].pose == b.devices[n - 1].poseGen {
        assert PoseNews(b, c, n) == before;
      } else {
        var msg := PoseUpdate(b.devices[n - 1].pose);
        assert PoseNews(b, c, n) == before + [msg];
        HeardAppend(m, before, [msg]);
        Once(HeardAll(m, before), msg);
        PoseHeard(b, c, m, HeardAll(m, before), n);
      }
    }
  }

  // The copy of device i after hearing the input news of the first n devices.
  function WithInput(b: State, c: Cursor, m: Mirror, n: nat, i: nat): Copy
    requires Shaped(b) && CursorShaped(c) && |m.devices| == DEVICES && i < DEVICES
  {
    if i < n && c.seen[i].input != b.devices[i].inputGen
    then m.devices[i].(input := b.devices[i].input)
    else m.devices[i]
  }

  lemma InputHeard(b: State, c: Cursor, m: Mirror, h: Mirror, n: nat)
    requires Shaped(b) && CursorShaped(c) && |m.devices| == DEVICES == |h.devices| && h.ready && 0 < n <= DEVICES
    requires b.devices[n - 1].input.device == n - 1 && c.seen[n - 1].input != b.devices[n - 1].inputGen
    requires forall i :: 0 <= i < DEVICES ==> h.devices[i] == WithInput(b, c, m, n - 1, i)
    ensures var x := Heard(h, InputUpdate(b.devices[n - 1].input));
            x.ready && x.config == h.config && |x.devices| == DEVICES
            && forall i :: 0 <= i < DEVICES ==> x.devices[i] == WithInput(b, c, m, n, i)
  {
  }

  lemma {:induction false} InputNewsHeard(b: State, c: Cursor, m: Mirror, n: nat)
    requires Shaped(b) && CursorShaped(c) && |m.devices| == DEVICES && m.ready && n <= DEVICES
    requires forall i :: 0 <= i < DEVICES ==> b.devices[i].input.device == i
    ensures var h := HeardAll(m, InputNews(b, c, n));
            && h.ready
            && h.config == m.config
            && |h.devices| == DEVICES
            && forall i :: 0 <= i < DEVICES ==> h.devices[i] == WithInput(b, c, m, n, i)
  {
    if n > 0 {
      InputNewsHeard(b, c, m, n - 1);
      var before := InputNews(b, c, n - 1);
      if c.seen[n - 1].input == b.devices[n - 1].inputGen {
        assert InputNews(b, c, n) == before;
      } else {
        var msg := InputUpdate(b.devices[n - 1].input);
        assert InputNews(b, c, n) == before + [msg];
        HeardAppend(m, before, [msg]);
        Once(HeardAll(m, before), msg);
        InputHeard(b, c, m, HeardAll(m, before), n);
      }
    }
  }

  // The copy of device i after hearing the presence news of the first n devices.
  function WithPresence(b: State, c: Cursor, m: Mirror, n: nat, i: nat): Copy
    requires Shaped(b) && CursorShaped(c) && |m.devices| == DEVICES && i < DEVICES
  {
    if 1 <= i < n && c.seen[i].presence != b.devices[i].presenceGen
    then m.devices[i].(present := b.devices[i].present)
    else m.devices[i]
  }

  lemma PresenceHeard(b: State, c: Cursor, m: Mirror, h: Mirror, n: nat, msg: Message)
    requires Shaped(b) && CursorShaped(c) && |m.devices| == DEVICES == |h.devices| && h.ready && 1 < n <= DEVICES
    requires msg == (if b.devices[n - 1].present then DeviceAdd(n - 1) else DeviceRemove(n - 1))
    requires c.seen[n - 1].presence != b.devices[n - 1].presenceGen
    requires forall i :: 0 <= i < DEVICES ==> h.devices[i] == WithPresence(b, c, m, n - 1, i)
    ensures var x := Heard(h, msg);
            x.ready && x.config == h.config && |x.devices| == DEVICES
            && forall i :: 0 <= i < DEVICES ==> x.devices[i] == WithPresence(b, c, m, n, i)
  {
  }

  lemma {:induction false} PresenceNewsHeard(b: State, c: Cursor, m: Mirror, n: nat)
    requires Shaped(b) && CursorShaped(c) && |m.devices| == DEVICES && m.ready && n <= DEVICES
    ensures var h := HeardAll(m, PresenceNews(b, c, n));
            && h.ready
            && h.config == m.config
            && |h.devices| == DEVICES
            && forall i :: 0 <= i < DEVICES ==> h.devices[i] == WithPresence(b, c, m, n, i)
  {
    if n > 1 {
      PresenceNewsHeard(b, c, m, n - 1);
      var before := PresenceNews(b, c, n - 1);
      if c.seen[n - 1].presence == b.devices[n - 1].presenceGen {
        assert PresenceNews(b, c, n) == before;
      } else {
        var msg := if b.devices[n - 1].present then DeviceAdd(n - 1) else DeviceRemove(n - 1);
        assert PresenceNews(b, c, n) == before + [msg];
        HeardAppend(m, before, [msg]);
        Once(HeardAll(m, before), msg);
        PresenceHeard(b, c, m, HeardAll(m, before), n, msg);
      }
    }
  }

  lemma Once(m: Mirror, msg: Message)
    ensures HeardAll(m, [msg]) == Heard(m, msg)
  {
    assert [msg][..0] == [];
  }

  // Hearing the configuration, if there is news of it.
  lemma ConfigNewsHeard(b: State, c: Cursor, m: Mirror)
    requires Inv(b, c, m)
    ensures HeardAll(m, ConfigNews(b, c)) == m.(ready := true, config := Some(b.config))
  {
    if c.config != b.configGen { Once(m, HmdConfig(b.config)); }
  }

  lemma NewsAgrees(b: State, c: Cursor, m: Mirror)
    requires Inv(b, c, m)
    ensures Agrees(b, HeardAll(m, News(b, c)))
  {
    var m1 := HeardAll(m, ConfigNews(b, c));
    var m2 := HeardAll(m1, PresenceNews(b, c, DEVICES));
    var m3 := HeardAll(m2, PoseNews(b, c, DEVICES));
    InvNamesDevices(b, c, m);
    ConfigNewsHeard(b, c, m);
    PresenceNewsHeard(b, c, m1, DEVICES);
    PoseNewsHeard(b, c, m2, DEVICES);
    InputNewsHeard(b, c, m3, DEVICES);
    NewsInParts(b, c, m);
    var m4 := HeardAll(m3, InputNews(b, c, DEVICES));
    forall i | 0 <= i < DEVICES ensures SameDevice(b.devices[i], i, m4.devices[i]) {
      DeviceAgrees(b, c, m, m1, m2, m3, m4.devices[i], i);
    }
  }

  ghost predicate SameDevice(d: Device, i: nat, x: Copy) {
    x.pose == d.pose && x.input == d.input && (i > 0 ==> x.present == d.present)
  }

  lemma DeviceAgrees(b: State, c: Cursor, m: Mirror, m1: Mirror, m2: Mirror, m3: Mirror, x: Copy, i: nat)
    requires Inv(b, c, m) && i < DEVICES && m1.devices == m.devices && |m2.devices| == DEVICES
             && |m3.devices| == DEVICES
    requires m2.devices[i] == WithPresence(b, c, m1, DEVICES, i) && m3.devices[i] == WithPose(b, c, m2, DEVICES, i)
    requires x == WithInput(b, c, m3, DEVICES, i)
    ensures SameDevice(b.devices[i], i, x)
  {
    assert DeviceOk(b.devices[i], i, c.seen[i], m.devices[i]);
  }

  lemma AgreementIsInv(b: State, c: Cursor, m: Mirror, h: Mirror)
    requires Inv(b, c, m) && Agrees(b, h)
    ensures Inv(b, SeenAll(b, c), h)
  {
    forall i | 0 <= i < DEVICES ensures DeviceOk(b.devices[i], i, SeenAll(b, c).seen[i], h.devices[i]) {
      assert DeviceOk(b.devices[i], i, c.seen[i], m.devices[i]);
    }
  }

  lemma InvNamesDevices(b: State, c: Cursor, m: Mirror)
    requires Inv(b, c, m)
    ensures forall i :: 0 <= i < DEVICES ==> b.devices[i].pose.device == i && b.devices[i].input.device == i
  {
    forall i | 0 <= i < DEVICES ensures b.devices[i].pose.device == i && b.devices[i].input.device == i {
      assert DeviceOk(b.devices[i], i, c.seen[i], m.devices[i]);
    }
  }

  // A reader that hears a whole collect, in order, ends it in agreement with the bridge.
  lemma CollectAgrees(b: State, c: Cursor, m: Mirror)
    requires Inv(b, c, m)
    ensures Agrees(b, HeardAll(m, News(b, c)))
    ensures Inv(b, SeenAll(b, c), HeardAll(m, News(b, c)))
  {
    NewsAgrees(b, c, m);
    AgreementIsInv(b, c, m, HeardAll(m, News(b, c)));
  }

  lemma NewsInParts(b: State, c: Cursor, m: Mirror)
    requires Shaped(b) && CursorShaped(c)
    ensures HeardAll(m, News(b, c)) ==
              HeardAll(HeardAll(HeardAll(HeardAll(m, ConfigNews(b, c)), PresenceNews(b, c, DEVICES)),
                                PoseNews(b, c, DEVICES)), InputNews(b, c, DEVICES))
  {
    var n1, n2 := ConfigNews(b, c), PresenceNews(b, c, DEVICES);
    var n3, n4 := PoseNews(b, c, DEVICES), InputNews(b, c, DEVICES);
    HeardAppend(m, n1 + n2 + n3, n4);
    HeardAppend(m, n1 + n2, n3);
    HeardAppend(m, n1, n2);
  }

  // --- Every run -----------------------------------------------------------------------------

  datatype Step =
    | Produce(write: Write)
    // The pipe takes the news and the reader hears all of it.
    | Collect
    // The connection is lost after the reader heard n messages of a collect; the next
    // connection starts with a fresh cursor and a reader waiting for a configuration.
    | Reconnect(n: nat)
    // A reader that knows nothing connects.
    | NewReader

  datatype World = World(bridge: State, cursor: Cursor, mirror: Mirror)

  function Start(config: int): World { World(Initial(config), FRESH, BLANK_MIRROR) }

  ghost predicate WorldOk(w: World) {
    && Inv(w.bridge, w.cursor, w.mirror)
    && Untouched(w.bridge)
  }

  // A generation of zero means the value of a new bridge.
  ghost predicate Untouched(b: State)
    requires Shaped(b)
  {
    forall i :: 0 <= i < DEVICES ==>
      && (b.devices[i].poseGen == 0 ==> b.devices[i].pose == Unknown(i).pose)
      && (b.devices[i].inputGen == 0 ==> b.devices[i].input == Unknown(i).input)
      && (b.devices[i].presenceGen == 0 ==> b.devices[i].present == Unknown(i).present)
  }

  lemma WriteKeepsUntouched(b: State, x: Write)
    requires Shaped(b) && Untouched(b)
    ensures Shaped(Written(b, x)) && Untouched(Written(b, x))
  {
  }

  function Taken(w: World, n: nat): seq<Message>
    requires Shaped(w.bridge) && CursorShaped(w.cursor)
  {
    var news := News(w.bridge, w.cursor);
    news[..Min(n, |news|)]
  }

  function Apply(w: World, s: Step): World
    requires Shaped(w.bridge) && CursorShaped(w.cursor)
  {
    match s
    case Produce(x) => w.(bridge := Written(w.bridge, x))
    case Collect => World(w.bridge, SeenAll(w.bridge, w.cursor), HeardAll(w.mirror, News(w.bridge, w.cursor)))
    case Reconnect(n) => World(w.bridge, FRESH, HeardAll(w.mirror, Taken(w, n)).(ready := false))
    case NewReader => World(w.bridge, FRESH, BLANK_MIRROR)
  }

  // Values never set have not been sent: whatever a reader hears leaves them alone.
  ghost predicate Virgin(b: State, m: Mirror) {
    && Shaped(b)
    && |m.devices| == DEVICES
    && forall i :: 0 <= i < DEVICES ==>
      && (b.devices[i].poseGen == 0 ==> m.devices[i].pose == b.devices[i].pose)
      && (b.devices[i].inputGen == 0 ==> m.devices[i].input == b.devices[i].input)
      && (i > 0 && b.devices[i].presenceGen == 0 ==> m.devices[i].present == b.devices[i].present)
  }

  // A message of the news is about a value that was set.
  ghost predicate About(b: State, msg: Message)
    requires Shaped(b)
  {
    match msg
    case HmdConfig(_) => true
    case DeviceAdd(k) => k < DEVICES && b.devices[k].presenceGen > 0
    case DeviceRemove(k) => k < DEVICES && b.devices[k].presenceGen > 0
    case PoseUpdate(p) => p.device < DEVICES && b.devices[p.device].poseGen > 0
    case InputUpdate(i) => i.device < DEVICES && b.devices[i.device].inputGen > 0
  }

  lemma {:induction false} NewsIsAbout(b: State, c: Cursor, m: Mirror, n: nat)
    requires Inv(b, c, m) && n <= DEVICES
    ensures forall k :: 0 <= k < |PresenceNews(b, c, n)| ==> About(b, PresenceNews(b, c, n)[k])
    ensures forall k :: 0 <= k < |PoseNews(b, c, n)| ==> About(b, PoseNews(b, c, n)[k])
    ensures forall k :: 0 <= k < |InputNews(b, c, n)| ==> About(b, InputNews(b, c, n)[k])
  {
    if n > 0 {
      NewsIsAbout(b, c, m, n - 1);
      assert DeviceOk(b.devices[n - 1], n - 1, c.seen[n - 1], m.devices[n - 1]);
    }
  }

  lemma {:induction false} HearingKeepsVirgin(b: State, m: Mirror, msgs: seq<Message>)
    requires Virgin(b, m) && forall k :: 0 <= k < |msgs| ==> About(b, msgs[k])
    ensures Virgin(b, HeardAll(m, msgs))
    decreases |msgs|
  {
    if msgs != [] {
      HearingKeepsVirgin(b, m, msgs[..|msgs| - 1]);
      assert About(b, msgs[|msgs| - 1]);
    }
  }

  // A fresh cursor suits any reader that has nothing it was not sent.
  lemma FreshKeepsInv(b: State, m: Mirror)
    requires Virgin(b, m) && b.configGen > 0
    requires forall i :: 0 <= i < DEVICES ==>
               b.devices[i].pose.device == i && b.devices[i].input.device == i
    ensures Inv(b, FRESH, m)
  {
    forall i | 0 <= i < DEVICES ensures DeviceOk(b.devices[i], i, FRESH.seen[i], m.devices[i]) {}
  }

  lemma InvIsVirgin(b: State, c: Cursor, m: Mirror)
    requires Inv(b, c, m)
    ensures Virgin(b, m)
    ensures forall i :: 0 <= i < DEVICES ==>
              b.devices[i].pose.device == i && b.devices[i].input.device == i
  {
    forall i | 0 <= i < DEVICES ensures DeviceOk(b.devices[i], i, c.seen[i], m.devices[i]) {}
  }

  lemma ReconnectKeepsInv(w: World)
    requires WorldOk(w)
    ensures forall n: nat :: WorldOk(Apply(w, Reconnect(n)))
  {
    var b, c, m := w.bridge, w.cursor, w.mirror;
    InvIsVirgin(b, c, m);
    NewsIsAbout(b, c, m, DEVICES);
    forall k | 0 <= k < |News(b, c)| ensures About(b, News(b, c)[k]) {}
    forall n: nat ensures WorldOk(Apply(w, Reconnect(n))) {
      HearingKeepsVirgin(b, m, Taken(w, n));
      FreshKeepsInv(b, HeardAll(m, Taken(w, n)).(ready := false));
    }
  }

  lemma StepKeepsInv(w: World)
    requires WorldOk(w)
    ensures forall s :: WorldOk(Apply(w, s))
  {
    forall s ensures WorldOk(Apply(w, s)) {
      match s
      case Produce(x) =>
        WriteKeepsInv(w.bridge, w.cursor, w.mirror, x);
        WriteKeepsUntouched(w.bridge, x);
      case Collect => CollectAgrees(w.bridge, w.cursor, w.mirror);
      case Reconnect(n) => ReconnectKeepsInv(w);
      case NewReader =>
        InvIsVirgin(w.bridge, w.cursor, w.mirror);
        FreshKeepsInv(w.bridge, BLANK_MIRROR);
    }
  }

  ghost predicate Takes(worlds: seq<World>, steps: seq<Step>, k: nat)
    requires k < |steps| && |worlds| == |steps| + 1
  {
    Shaped(worlds[k].bridge) && CursorShaped(worlds[k].cursor) && worlds[k + 1] == Apply(worlds[k], steps[k])
  }

  ghost predicate IsRun(config: int, worlds: seq<World>, steps: seq<Step>) {
    |worlds| == |steps| + 1 && worlds[0] == Start(config) && forall k :: 0 <= k < |steps| ==> Takes(worlds, steps, k)
  }

  lemma {:induction false} RunKeepsInv(config: int, worlds: seq<World>, steps: seq<Step>, n: nat)
    requires IsRun(config, worlds, steps) && n <= |steps|
    ensures forall k :: 0 <= k <= n ==> WorldOk(worlds[k])
  {
    if n == 0 {
      FreshKeepsInv(Initial(config), BLANK_MIRROR);
    } else {
      RunKeepsInv(config, worlds, steps, n - 1);
      assert Takes(worlds, steps, n - 1);
      StepKeepsInv(worlds[n - 1]);
    }
  }

  // Whatever was written, collected, lost half way or reconnected before: after a
  // collect the reader has exactly the bridge's state.
  lemma EveryCollectAgrees(config: int, worlds: seq<World>, steps: seq<Step>, k: nat)
    requires IsRun(config, worlds, steps) && k < |steps| && steps[k].Collect?
    ensures Shaped(worlds[k + 1].bridge)
    ensures Agrees(worlds[k + 1].bridge, worlds[k + 1].mirror)
  {
    RunKeepsInv(config, worlds, steps, k);
    assert Takes(worlds, steps, k);
    CollectAgrees(worlds[k].bridge, worlds[k].cursor, worlds[k].mirror);
  }

  // What a collect of this moment sends.
  ghost function Sent(w: World): seq<Message> {
    if Shaped(w.bridge) && CursorShaped(w.cursor) then News(w.bridge, w.cursor) else []
  }

  // On a new connection the configuration comes first.
  lemma ConfigComesFirst(config: int, worlds: seq<World>, steps: seq<Step>, n: nat)
    requires IsRun(config, worlds, steps) && n <= |steps| && worlds[n].cursor.config == 0
    ensures var news := Sent(worlds[n]); news != [] && news[0] == HmdConfig(worlds[n].bridge.config)
  {
    RunKeepsInv(config, worlds, steps, n);
  }

  // --- What is sent, in terms of what was written -------------------------------------------

  // The values the bridge keeps.
  datatype Value = OfConfig | OfPresence(k: nat) | OfPose(k: nat) | OfInput(k: nat)

  // The values that are ever sent: the headset itself is not announced.
  predicate Known(v: Value) {
    match v
    case OfConfig => true
    case OfPresence(k) => 1 <= k < DEVICES
    case OfPose(k) => k < DEVICES
    case OfInput(k) => k < DEVICES
  }

  // The message that carries the present value.
  ghost function Latest(b: State, v: Value): Message
    requires Shaped(b) && Known(v)
  {
    match v
    case OfConfig => HmdConfig(b.config)
    case OfPresence(k) => if b.devices[k].present then DeviceAdd(k) else DeviceRemove(k)
    case OfPose(k) => PoseUpdate(b.devices[k].pose)
    case OfInput(k) => InputUpdate(b.devices[k].input)
  }

  ghost function Generation(b: State, v: Value): nat {
    if !Shaped(b) || !Known(v) then 0
    else
      match v
      case OfConfig => b.configGen
      case OfPresence(k) => b.devices[k].presenceGen
      case OfPose(k) => b.devices[k].poseGen
      case OfInput(k) => b.devices[k].inputGen
  }

  ghost function SeenOf(c: Cursor, v: Value): nat
    requires CursorShaped(c) && Known(v)
  {
    match v
    case OfConfig => c.config
    case OfPresence(k) => c.seen[k].presence
    case OfPose(k) => c.seen[k].pose
    case OfInput(k) => c.seen[k].input
  }

  ghost predicate Due(b: State, c: Cursor, v: Value)
    requires Shaped(b) && CursorShaped(c)
  {
    Known(v) && SeenOf(c, v) != Generation(b, v)
  }

  lemma {:induction false} PresenceNewsIs(b: State, c: Cursor, n: nat, msg: Message)
    requires Shaped(b) && CursorShaped(c) && n <= DEVICES
    ensures msg in PresenceNews(b, c, n) <==>
              exists k :: 1 <= k < n && Due(b, c, OfPresence(k)) && msg == Latest(b, OfPresence(k))
  {
    if n > 1 {
      PresenceNewsIs(b, c, n - 1, msg);
      assert Known(OfPresence(n - 1));
    }
  }

  lemma {:induction false} PoseNewsIs(b: State, c: Cursor, n: nat, msg: Message)
    requires Shaped(b) && CursorShaped(c) && n <= DEVICES
    ensures msg in PoseNews(b, c, n) <==>
              exists k :: 0 <= k < n && Due(b, c, OfPose(k)) && msg == Latest(b, OfPose(k))
  {
    if n > 0 {
      PoseNewsIs(b, c, n - 1, msg);
      assert Known(OfPose(n - 1));
    }
  }

  lemma {:induction false} InputNewsIs(b: State, c: Cursor, n: nat, msg: Message)
    requires Shaped(b) && CursorShaped(c) && n <= DEVICES
    ensures msg in InputNews(b, c, n) <==>
              exists k :: 0 <= k < n && Due(b, c, OfInput(k)) && msg == Latest(b, OfInput(k))
  {
    if n > 0 {
      InputNewsIs(b, c, n - 1, msg);
      assert Known(OfInput(n - 1));
    }
  }

  // The news is the latest values of everything due, and nothing else.
  lemma NewsIs(b: State, c: Cursor, msg: Message)
    requires Shaped(b) && CursorShaped(c)
    ensures msg in News(b, c) <==> exists v :: Due(b, c, v) && msg == Latest(b, v)
  {
    PresenceNewsIs(b, c, DEVICES, msg);
    PoseNewsIs(b, c, DEVICES, msg);
    InputNewsIs(b, c, DEVICES, msg);
    assert msg in ConfigNews(b, c) <==> Due(b, c, OfConfig) && msg == Latest(b, OfConfig);
    forall v | Due(b, c, v) && msg == Latest(b, v) ensures msg in News(b, c) {
      match v
      case OfConfig =>
      case OfPresence(k) => assert 1 <= k < DEVICES;
      case OfPose(k) => assert 0 <= k < DEVICES;
      case OfInput(k) => assert 0 <= k < DEVICES;
    }
  }

  // A second collect with no write in between is empty.
  lemma NothingUnchangedIsResent(b: State, c: Cursor)
    requires Shaped(b) && CursorShaped(c)
    ensures News(b, SeenAll(b, c)) == []
  {
    var news := News(b, SeenAll(b, c));
    if news != [] {
      NewsIs(b, SeenAll(b, c), news[0]);
    }
  }

  // Poses and inputs carry the number of their device.
  ghost predicate Labelled(b: State)
    requires Shaped(b)
  {
    forall i :: 0 <= i < DEVICES ==> b.devices[i].pose.device == i && b.devices[i].input.device == i
  }

  lemma SentExactlyWhenDue(b: State, c: Cursor, v: Value)
    requires Shaped(b) && CursorShaped(c) && Labelled(b) && Known(v)
    ensures Latest(b, v) in News(b, c) <==> Due(b, c, v)
  {
    NewsIs(b, c, Latest(b, v));
    forall u | Known(u) && Latest(b, u) == Latest(b, v) ensures u == v {
    }
  }

  // A write sets this value: any pose or input for the device, and of the rest only what
  // differs from what is there.
  ghost predicate Sets(b: State, w: Write, v: Value)
    requires Shaped(b) && Known(v)
  {
    match v
    case OfConfig => w.SetConfig? && w.config != b.config
    case OfPresence(k) =>
      || (w.SetPresent? && w.device == k && w.on != b.devices[k].present)
      || (w.ClientGone? && b.devices[k].present)
    case OfPose(k) => (w.SetPose? && w.pose.device == k) || (w.ClientGone? && b.devices[k].pose.connected)
    case OfInput(k) => w.SetInput? && w.input.device == k
  }

  lemma WriteCounts(b: State, w: Write, v: Value)
    requires Shaped(b) && Known(v)
    ensures Generation(Written(b, w), v) == Generation(b, v) + if Sets(b, w, v) then 1 else 0
  {
  }

  // Step m of a run sets this value.
  ghost predicate SetsAt(worlds: seq<World>, steps: seq<Step>, m: nat, v: Value)
    requires m < |steps| && |worlds| == |steps| + 1 && Known(v)
  {
    steps[m].Produce? && Shaped(worlds[m].bridge) && Sets(worlds[m].bridge, steps[m].write, v)
  }

  lemma StepCounts(worlds: seq<World>, steps: seq<Step>, m: nat, v: Value)
    requires m < |steps| && |worlds| == |steps| + 1 && Known(v) && Takes(worlds, steps, m)
    ensures Generation(worlds[m + 1].bridge, v)
            == Generation(worlds[m].bridge, v) + if SetsAt(worlds, steps, m, v) then 1 else 0
  {
    if steps[m].Produce? { WriteCounts(worlds[m].bridge, steps[m].write, v); }
  }

  // A generation stays the same exactly as long as its value is not set.
  lemma {:induction false} GenerationCountsSets(worlds: seq<World>, steps: seq<Step>, i: nat, j: nat, v: Value)
    requires |worlds| == |steps| + 1 && forall k :: 0 <= k < |steps| ==> Takes(worlds, steps, k)
    requires i <= j < |steps| && Known(v)
    ensures Generation(worlds[i].bridge, v) <= Generation(worlds[j].bridge, v)
    ensures Generation(worlds[i].bridge, v) < Generation(worlds[j].bridge, v) <==>
              exists m :: i <= m < j && SetsAt(worlds, steps, m, v)
    decreases j - i
  {
    assert Takes(worlds, steps, i) && Takes(worlds, steps, j);
    if i < j {
      GenerationCountsSets(worlds, steps, i, j - 1, v);
      StepCounts(worlds, steps, j - 1, v);
    }
  }

  // A collect of this moment carries the latest value.
  ghost predicate Carries(w: World, v: Value) {
    Shaped(w.bridge) && Known(v) && Latest(w.bridge, v) in Sent(w)
  }

  // Between two steps the connection stays up and nothing is collected.
  ghost predicate OnlyWrites(steps: seq<Step>, i: nat, j: nat)
    requires j <= |steps|
  {
    forall m :: i < m < j ==> steps[m].Produce?
  }

  lemma {:induction false} WritesLeaveTheCursor(config: int, worlds: seq<World>, steps: seq<Step>, i: nat, j: nat)
    requires IsRun(config, worlds, steps) && i < j <= |steps| && OnlyWrites(steps, i, j)
    ensures worlds[j].cursor == worlds[i + 1].cursor
    decreases j
  {
    if i + 1 < j {
      assert Takes(worlds, steps, j - 1);
      WritesLeaveTheCursor(config, worlds, steps, i, j - 1);
    }
  }

  // In every run a collect carries exactly the values the cursor is behind on.
  lemma CarriesExactlyWhenBehind(config: int, worlds: seq<World>, steps: seq<Step>, j: nat, v: Value)
    requires IsRun(config, worlds, steps) && j < |steps| && Known(v)
    ensures Carries(worlds[j], v) <==> SeenBy(worlds[j].cursor, v) != Generation(worlds[j].bridge, v)
  {
    assert Takes(worlds, steps, j);
    RunKeepsInv(config, worlds, steps, j);
    InvIsVirgin(worlds[j].bridge, worlds[j].cursor, worlds[j].mirror);
    SentExactlyWhenDue(worlds[j].bridge, worlds[j].cursor, v);
  }

  ghost function SeenBy(c: Cursor, v: Value): nat { if CursorShaped(c) && Known(v) then SeenOf(c, v) else 0 }

  lemma CollectSees(b: State, c: Cursor, v: Value)
    ensures Shaped(b) && CursorShaped(c) && Known(v) ==> SeenBy(SeenAll(b, c), v) == Generation(b, v)
  {
  }

  lemma FreshSeesNothing(v: Value)
    ensures SeenBy(FRESH, v) == 0
  {
  }

  // In every run, for two collects in a row on one connection: the second carries a
  // value, its latest, exactly when some step between them set it.
  lemma SentExactlyWhenSet(config: int, worlds: seq<World>, steps: seq<Step>, i: nat, j: nat, v: Value)
    requires IsRun(config, worlds, steps) && i < j < |steps| && steps[i].Collect? && steps[j].Collect?
    requires OnlyWrites(steps, i, j) && Known(v)
    ensures Carries(worlds[j], v) <==> exists m :: i < m < j && SetsAt(worlds, steps, m, v)
  {
    CarriesExactlyWhenBehind(config, worlds, steps, j, v);
    WritesLeaveTheCursor(config, worlds, steps, i, j);
    assert Takes(worlds, steps, i);
    CollectSees(worlds[i].bridge, worlds[i].cursor, v);
    GenerationCountsSets(worlds, steps, i + 1, j, v);
  }

  // The first collect of a connection carries the configuration and every value that was
  // ever set.
  lemma FirstCollectSendsWhatWasSet(config: int, worlds: seq<World>, steps: seq<Step>, i: nat, j: nat, v: Value)
    requires IsRun(config, worlds, steps) && i < j < |steps| && (steps[i].Reconnect? || steps[i].NewReader?)
    requires OnlyWrites(steps, i, j) && Known(v)
    ensures Carries(worlds[j], v) <==> v == OfConfig || exists m :: 0 <= m < j && SetsAt(worlds, steps, m, v)
  {
    CarriesExactlyWhenBehind(config, worlds, steps, j, v);
    WritesLeaveTheCursor(config, worlds, steps, i, j);
    assert Takes(worlds, steps, i);
    FreshSeesNothing(v);
    GenerationCountsSets(worlds, steps, 0, j, v);
  }

  // Nothing but latest values is sent.
  lemma OnlyLatestIsSent(config: int, worlds: seq<World>, steps: seq<Step>, j: nat, msg: Message)
    requires IsRun(config, worlds, steps) && j <= |steps|
    ensures msg in Sent(worlds[j]) ==>
              exists v :: Shaped(worlds[j].bridge) && Known(v) && msg == Latest(worlds[j].bridge, v)
  {
    RunKeepsInv(config, worlds, steps, j);
    NewsIs(worlds[j].bridge, worlds[j].cursor, msg);
  }

  function PoseTwice(p: Pose): seq<Step> { [Produce(SetPose(p)), Collect, Produce(SetPose(p)), Collect] }

  // A pose written again although it is the same: it is sent again.
  // The pose is the same at both collects.
  ghost predicate SamePose(a: State, b: State, k: nat) {
    Shaped(a) && Shaped(b) && k < DEVICES && a.devices[k].pose == b.devices[k].pose
  }

  lemma PoseTwiceIsRun(config: int, p: Pose)
    ensures exists worlds :: IsRun(config, worlds, PoseTwice(p))
  {
    var steps := PoseTwice(p);
    var w1 := Apply(Start(config), steps[0]);
    var w2 := Apply(w1, steps[1]);
    var w3 := Apply(w2, steps[2]);
    var worlds := [Start(config), w1, w2, w3, Apply(w3, steps[3])];
    assert Takes(worlds, steps, 0) && Takes(worlds, steps, 1) && Takes(worlds, steps, 2) && Takes(worlds, steps, 3);
    assert IsRun(config, worlds, steps);
  }

  lemma PoseIsWritten(b: State, p: Pose)
    ensures Shaped(b) && p.device < DEVICES ==> Written(b, SetPose(p)).devices[p.device].pose == p
  {
  }

  lemma EqualPoseIsResent(config: int, p: Pose)
    requires p.device < DEVICES
    ensures exists worlds: seq<World> ::
              && IsRun(config, worlds, PoseTwice(p)) && SamePose(worlds[1].bridge, worlds[3].bridge, p.device)
              && PoseUpdate(p) in Sent(worlds[3])
  {
    PoseTwiceIsRun(config, p);
    var steps := PoseTwice(p);
    var worlds: seq<World> :| IsRun(config, worlds, steps);
    assert Takes(worlds, steps, 0) && Takes(worlds, steps, 1) && Takes(worlds, steps, 2) && Takes(worlds, steps, 3);
    PoseIsWritten(worlds[0].bridge, p);
    PoseIsWritten(worlds[2].bridge, p);
    assert SetsAt(worlds, steps, 2, OfPose(p.device));
    SentExactlyWhenSet(config, worlds, steps, 1, 3, OfPose(p.device));
  }

  // --- The class -----------------------------------------------------------------------------

  class Bridge {
    var config: int
    var configGen: nat
    const devices: array<Device>

    ghost predicate Valid()
      reads this
    {
      devices.Length == DEVICES
    }

    ghost function View(): (b: State)
      requires Valid()
      reads this, devices
      ensures Shaped(b)
    {
      State(config, configGen, devices[..])
    }

    constructor (initial: int)
      ensures Valid() && fresh(devices) && View() == Initial(initial)
    {
      config, configGen := initial, 1;
      devices := new Device[DEVICES](Blank);
      new;
      assert devices[..] == [Blank(0), Blank(1), Blank(2)];
    }

    method SetConfig(c: int)
      requires Valid()
      modifies `config, `configGen
      ensures Valid() && View() == Written(old(View()), Write.SetConfig(c))
    {
      if config == c { return; }
      config := c;
      configGen := configGen + 1;
    }

    method SetPose(p: Pose)
      requires Valid()
      modifies devices
      ensures Valid() && View() == Written(old(View()), Write.SetPose(p))
    {
      var i := p.device;
      if i >= DEVICES { return; }
      devices[i] := devices[i].(pose := p, poseGen := devices[i].poseGen + 1);
      assert devices[..] == old(devices[..])[i := old(devices[i]).(pose := p, poseGen := old(devices[i]).poseGen + 1)];
    }

    method SetInput(x: Input)
      requires Valid()
      modifies devices
      ensures Valid() && View() == Written(old(View()), Write.SetInput(x))
    {
      var i := x.device;
      if i >= DEVICES { return; }
      devices[i] := devices[i].(input := x, inputGen := devices[i].inputGen + 1);
      ghost var d := old(devices[i]);
      assert devices[..] == old(devices[..])[i := d.(input := x, inputGen := d.inputGen + 1)];
    }

    method SetPresent(i: nat, on: bool)
      requires Valid()
      modifies devices
      ensures Valid() && View() == Written(old(View()), Write.SetPresent(i, on))
    {
      if i >= DEVICES || devices[i].present == on { return; }
      devices[i] := devices[i].(present := on, presenceGen := devices[i].presenceGen + 1);
      ghost var d := old(devices[i]);
      assert devices[..] == old(devices[..])[i := d.(present := on, presenceGen := d.presenceGen + 1)];
    }

    method OnClientGone()
      requires Valid()
      modifies devices
      ensures Valid() && View() == Written(old(View()), Write.ClientGone)
    {
      for i := 0 to DEVICES
        invariant forall k :: 0 <= k < DEVICES ==>
                    devices[k] == if k < i then Departed(old(devices[k])) else old(devices[k])
      {
        if devices[i].present {
          devices[i] := devices[i].(present := false, presenceGen := devices[i].presenceGen + 1);
        }
        if devices[i].pose.connected {
          devices[i] := devices[i].(pose := devices[i].pose.(connected := false), poseGen := devices[i].poseGen + 1);
        }
      }
      assert devices[..] == [Departed(old(devices[0])), Departed(old(devices[1])), Departed(old(devices[2]))];
    }

    // Appends what the cursor has not seen, and returns the cursor advanced.
    method Collect(cursor: Cursor) returns (out: seq<Message>, after: Cursor)
      requires Valid() && |cursor.seen| == DEVICES
      ensures out == News(View(), cursor) && after == SeenAll(View(), cursor)
    {
      ghost var b := View();
      out, after := [], cursor;
      if after.config != configGen {
        after := after.(config := configGen);
        out := out + [HmdConfig(config)];
      }
      var presence := CollectPresence(cursor);
      var poses := CollectPoses(cursor);
      var inputs := CollectInputs(cursor);
      out := out + presence + poses + inputs;
      for i := 0 to DEVICES
        invariant after.config == configGen && |after.seen| == DEVICES
        invariant forall k :: 0 <= k < DEVICES ==>
                    after.seen[k] == if k < i then SeenAll(b, cursor).seen[k] else cursor.seen[k]
      {
        var seen := Seen(devices[i].poseGen, devices[i].inputGen,
                         if i == 0 then cursor.seen[0].presence else devices[i].presenceGen);
        after := after.(seen := after.seen[i := seen]);
      }
      assert after.seen == SeenAll(b, cursor).seen;
    }

    method CollectPresence(cursor: Cursor) returns (out: seq<Message>)
      requires Valid() && |cursor.seen| == DEVICES
      ensures out == PresenceNews(View(), cursor, DEVICES)
    {
      out := [];
      for i := 1 to DEVICES
        invariant out == PresenceNews(View(), cursor, i)
      {
        if cursor.seen[i].presence != devices[i].presenceGen {
          out := out + [if devices[i].present then DeviceAdd(i) else DeviceRemove(i)];
        }
      }
    }

    method CollectPoses(cursor: Cursor) returns (out: seq<Message>)
      requires Valid() && |cursor.seen| == DEVICES
      ensures out == PoseNews(View(), cursor, DEVICES)
    {
      out := [];
      for i := 0 to DEVICES
        invariant out == PoseNews(View(), cursor, i)
      {
        if cursor.seen[i].pose != devices[i].poseGen { out := out + [PoseUpdate(devices[i].pose)]; }
      }
    }

    method CollectInputs(cursor: Cursor) returns (out: seq<Message>)
      requires Valid() && |cursor.seen| == DEVICES
      ensures out == InputNews(View(), cursor, DEVICES)
    {
      out := [];
      for i := 0 to DEVICES
        invariant out == InputNews(View(), cursor, i)
      {
        if cursor.seen[i].input != devices[i].inputGen { out := out + [InputUpdate(devices[i].input)]; }
      }
    }
  }
}
