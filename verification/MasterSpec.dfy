/** The master of main.c as functions of its state: connections, reconnect timers, focus, input
    grab, clipboard.  Each function does what the source function of the same name does, in the
    same order.  `Focus.dfy` proves what they keep, and `Master.dfy` executes them in place. */
module MasterSpec {
  import opened Base
  import opened Proto
  import opened Timers
  import Backoff

  /** A remote is named by its position in the configured list. */
  datatype Node = Master | Remote(id: nat)

  datatype ConnState = New | SettingUp | Failed | PermFailed | Connected

  /** What a scheduled call does when it fires. */
  datatype Task = Reconnect(rmt: nat) | Brightness(node: Node, level: Word)

  /** A brightness transition: the level set at once, and the later (delay, level) steps. */
  datatype Fade = Fade(first: Word, steps: seq<(nat, Word)>)

  datatype Hint = NoHint | DimInactive(dim: Fade, lift: Fade) | FlashActive(flash: Fade)

  datatype NullSwitch = Never | Always | HotkeyOnly

  datatype Config = Config(
    maxTries: int, maxInterval: nat, hint: Hint, nullSwitch: NullSwitch, modifiers: set<Word>)

  /** One remote as the master sees it.  `sent` is everything enqueued in the current session and
      `taken` how much of it has left the send queue, so `sent[taken..]` is the queue; `recvd`
      counts the messages received.  `session` counts connection attempts. */
  datatype Conn = Conn(
    enabled: bool, params: seq<KvPair>, scrollmult: int, state: ConnState, failcount: int, timer: Option<nat>,
    open: bool, session: nat, sent: seq<Message>, taken: nat, recvd: nat)

  /** `held` is the set of modifier keys physically held at the master's keyboard. */
  datatype Core = Core(
    cfg: Config, loglevel: Word, conns: seq<Conn>, calls: seq<Call<Task>>, nextId: nat, now: nat,
    focused: Node, last: Node, grabbed: bool, clip: Text, held: set<Word>)

  function Queued(c: Conn): int {
    |c.sent| - c.taken
  }

  /** How many more messages the send queue takes without failing the remote. */
  function Room(c: Conn): int {
    MAX_SEND_BACKLOG - Queued(c)
  }

  predicate InRange(m: Core, n: Node) {
    n.Remote? ==> n.id < |m.conns|
  }

  predicate TaskInRange(m: Core, t: Task) {
    match t
    case Reconnect(r) => r < |m.conns|
    case Brightness(n, _) => InRange(m, n)
  }

  /** Every node mentioned exists. */
  predicate Wf(m: Core)
    ensures Wf(m) ==> InRange(m, m.focused) && InRange(m, m.last)
  {
    && InRange(m, m.focused) && InRange(m, m.last)
    && forall i :: 0 <= i < |m.calls| ==> TaskInRange(m, m.calls[i].what)
  }

  /** What no operation below disturbs. */
  predicate Shape(m: Core, r: Core) {
    && Wf(r) && |r.conns| == |m.conns| && r.cfg == m.cfg && r.held == m.held && r.now == m.now
    && r.clip == m.clip
  }

  function Put(m: Core, r: nat, c: Conn): (m': Core)
    requires Wf(m) && r < |m.conns|
    ensures Shape(m, m')
  {
    m.(conns := m.conns[r := c])
  }

  function ScheduleTask(m: Core, what: Task, delay: nat): (m': Core)
    requires Wf(m) && TaskInRange(m, what)
    ensures Shape(m, m')
  {
    var calls := Insert(m.calls, Call(m.nextId, m.now + delay, what));
    assert forall i :: 0 <= i < |calls| ==> calls[i] in calls;
    m.(calls := calls, nextId := m.nextId + 1)
  }

  function CancelTask(m: Core, id: nat): (m': Core)
    requires Wf(m)
    ensures Shape(m, m')
  {
    var calls := Remove(m.calls, id);
    assert forall i :: 0 <= i < |calls| ==> calls[i] in calls;
    m.(calls := calls)
  }

  function ScheduleFade(m: Core, node: Node, steps: seq<(nat, Word)>): (m': Core)
    requires Wf(m) && InRange(m, node)
    ensures Shape(m, m')
    decreases |steps|
  {
    if steps == [] then m
    else ScheduleFade(ScheduleTask(m, Brightness(node, steps[0].1), steps[0].0), node, steps[1..])
  }

  /** Focus reverts to the master when the focused remote fails. */
  function FocusMaster(m: Core): (m': Core)
    requires Wf(m)
    ensures Shape(m, m')
  {
    var m1 := m.(grabbed := false, last := m.focused, focused := Master);
    match m.cfg.hint
    case NoHint => m1
    case DimInactive(_, lift) => ScheduleFade(m1, Master, lift.steps)
    case FlashActive(flash) => ScheduleFade(m1, Master, flash.steps)
  }

  /** A connection whose channel has been closed: nothing is queued and no session is left. */
  function Closed(c: Conn): Conn {
    c.(open := false, sent := [], taken := 0, recvd := 0)
  }

  function Disconnect(m: Core, r: nat): (m': Core)
    requires Wf(m) && r < |m.conns|
    ensures Shape(m, m')
  {
    var m1 := Put(m, r, Closed(m.conns[r]));
    if m1.focused == Remote(r) then FocusMaster(m1) else m1
  }

  function Fail(m: Core, r: nat): (m': Core)
    requires Wf(m) && r < |m.conns|
    ensures Shape(m, m')
  {
    var m1 := Disconnect(m, r);
    var c := m1.conns[r].(failcount := m1.conns[r].failcount + 1);
    if c.failcount > m.cfg.maxTries then Put(m1, r, c.(state := PermFailed))
    else
      var m2 := ScheduleTask(m1, Reconnect(r), Backoff.Delay(c.failcount, m.cfg.maxInterval));
      Put(m2, r, c.(state := Failed, timer := Some(m1.nextId)))
  }

  function Enqueue(m: Core, r: nat, msg: Message): (m': Core)
    requires Wf(m) && r < |m.conns|
    ensures Shape(m, m')
  {
    var m1 := Put(m, r, m.conns[r].(sent := m.conns[r].sent + [msg]));
    if Room(m1.conns[r]) < 0 then Fail(m1, r) else m1
  }

  function SetupRemote(m: Core, r: nat): (m': Core)
    requires Wf(m) && r < |m.conns|
    ensures Shape(m, m')
  {
    var c := m.conns[r];
    var m1 := Put(m, r, Closed(c).(state := SettingUp, open := true, session := c.session + 1));
    Enqueue(m1, r, Setup(PROT_VERSION, m.loglevel, c.params))
  }

  /** The timer callback. */
  function ReconnectCb(m: Core, r: nat): (m': Core)
    requires Wf(m) && r < |m.conns|
    ensures Shape(m, m')
  {
    SetupRemote(Put(m, r, m.conns[r].(timer := None)), r)
  }

  /** A user's request to reconnect.  The stale timer is cancelled but not forgotten. */
  function ReconnectRemote(m: Core, r: nat): (m': Core)
    requires Wf(m) && r < |m.conns|
    ensures Shape(m, m')
  {
    var c := m.conns[r];
    if c.state.Connected? then m
    else
      var m1 := if c.timer.Some? then CancelTask(m, c.timer.value) else m;
      var m2 := if c.state.SettingUp? then Disconnect(m1, r) else m1;
      SetupRemote(Put(m2, r, m2.conns[r].(failcount := 0)), r)
  }

  function HaltRemote(m: Core, r: nat): (m': Core)
    requires Wf(m) && r < |m.conns|
    ensures Shape(m, m')
  {
    var c := m.conns[r];
    if !c.state.SettingUp? && !c.state.Failed? then m
    else
      var m1 := if c.state.SettingUp? then Disconnect(m, r) else m;
      var m2 := if c.state.Failed? && c.timer.Some? then CancelTask(m1, c.timer.value) else m1;
      Put(m2, r, m2.conns[r].(state := PermFailed))
  }

  function Transition(m: Core, node: Node, fade: Fade): (m': Core)
    requires Wf(m) && InRange(m, node)
    ensures Shape(m, m')
  {
    var m1 := if node.Remote? then Enqueue(m, node.id, SetBrightness(fade.first)) else m;
    ScheduleFade(m1, node, fade.steps)
  }

  function IndicateSwitch(m: Core, from: Node, to: Node): (m': Core)
    requires Wf(m) && InRange(m, from) && InRange(m, to)
    ensures Shape(m, m')
  {
    match m.cfg.hint
    case NoHint => m
    case DimInactive(dim, lift) => Transition(if from != to then Transition(m, from, dim) else m, to, lift)
    case FlashActive(flash) => Transition(m, to, flash)
  }

  function TransferClipboard(m: Core, from: Node, to: Node): (m': Core)
    requires Wf(m) && InRange(m, from) && InRange(m, to)
    ensures Shape(m, m')
  {
    if from.Remote? then Enqueue(m, from.id, GetClipboard)
    else if to.Remote? then Enqueue(m, to.id, SetClipboard(m.clip))
    else m
  }

  /** A loop that sends one message after the other, without a look at whether one of them has failed
      the remote. */
  function SendAll(m: Core, r: nat, ms: seq<Message>): (m': Core)
    requires Wf(m) && r < |m.conns|
    ensures Shape(m, m')
    decreases |ms|
  {
    if ms == [] then m else SendAll(Enqueue(m, r, ms[0]), r, ms[1..])
  }

  function KeyMsgs(keys: seq<Word>, pr: Word): seq<Message> {
    seq(|keys|, i requires 0 <= i < |keys| => KeyEvent(keys[i], pr))
  }

  function TransferModifiers(m: Core, from: Node, to: Node, keys: seq<Word>): (m': Core)
    requires Wf(m) && InRange(m, from) && InRange(m, to)
    ensures Shape(m, m')
  {
    var m1 := if from.Remote? then SendAll(m, from.id, KeyMsgs(keys, RELEASE)) else m;
    if to.Remote? then SendAll(m1, to.id, KeyMsgs(keys, PRESS)) else m1
  }

  /** The switch proper, once the destination is known to differ from the focused node. */
  function Switch(m: Core, to: Node, keys: seq<Word>): (m': Core)
    requires Wf(m) && InRange(m, to)
    ensures Shape(m, m')
  {
    var from := m.focused;
    var m1 := IndicateSwitch(m, from, to);
    var m2 := if from.Remote? && to.Master? then m1.(grabbed := false)
              else if from.Master? && to.Remote? then m1.(grabbed := true)
              else m1;
    var m3 := TransferClipboard(m2, from, to);
    var m4 := TransferModifiers(m3, from, to, keys);
    m4.(last := m4.focused, focused := to)
  }

  /** An attempt to focus a remote that is not connected asks for a reconnection instead. */
  function FocusNode(m: Core, target: Option<Node>, keys: seq<Word>, viaHotkey: bool): (m': Core)
    requires Wf(m) && (target.Some? ==> InRange(m, target.value))
    ensures Shape(m, m')
  {
    var away := target.Some? && target.value.Remote? && !m.conns[target.value.id].state.Connected?;
    var m1 := if away then ReconnectRemote(m, target.value.id) else m;
    var to := if target.None? || away then m1.focused else target.value;
    if to != m1.focused then Switch(m1, to, keys)
    else if m.cfg.nullSwitch.Always? || (m.cfg.nullSwitch.HotkeyOnly? && viaHotkey) then
      IndicateSwitch(m1, to, to)
    else m1
  }

  function HandleMessage(m: Core, r: nat, msg: Message): (m': Core)
    requires Wf(m) && r < |m.conns|
    ensures Shape(m.(clip := if msg.SetClipboard? then msg.text else m.clip), m')
  {
    match msg
    case Ready(_) =>
      if !m.conns[r].state.SettingUp? then Fail(m, r)
      else
        var m1 := Put(m, r, m.conns[r].(state := Connected, failcount := 0));
        if m.cfg.hint.DimInactive? then Transition(m1, Remote(r), m.cfg.hint.dim) else m1
    case SetClipboard(text) =>
      var m1 := m.(clip := text);
      if m1.focused.Remote? then Enqueue(m1, m1.focused.id, SetClipboard(m1.clip)) else m1
    case LogMsg(_) => m
    case MousePos(_) => m
    case _ => Fail(m, r)
  }

  /** Calls the head of the timer list. */
  function FireHead(m: Core): (m': Core)
    requires Wf(m) && m.calls != []
    ensures Shape(m, m')
  {
    var m1 := m.(calls := m.calls[1..]);
    match m.calls[0].what
    case Reconnect(r) => ReconnectCb(m1, r)
    case Brightness(Master, _) => m1
    case Brightness(Remote(r), level) =>
      if m1.conns[r].state.Connected? then Enqueue(m1, r, SetBrightness(level)) else m1
  }

  /** Input events go to the focused remote, if there is one. */
  function ToFocused(m: Core, msg: Message): (m': Core)
    requires Wf(m)
    ensures Shape(m, m')
  {
    if m.focused.Remote? then Enqueue(m, m.focused.id, msg) else m
  }

  const SCROLLUP: Word := 3
  const SCROLLDOWN: Word := 4

  /** A click on a scroll button is repeated as often as configured for the remote, and turned round
      if the multiplier is negative. */
  function ClickMsgs(scrollmult: int, button: Word, pr: Word): seq<Message> {
    if button != SCROLLUP && button != SCROLLDOWN then [ClickEvent(button, pr)]
    else if scrollmult >= 0 then seq(scrollmult, _ => ClickEvent(button, pr))
    else seq(-scrollmult, _ => ClickEvent(SCROLLUP + SCROLLDOWN - button, pr))
  }

  function SendClick(m: Core, button: Word, pr: Word): (m': Core)
    requires Wf(m)
    ensures Shape(m, m')
  {
    if m.focused.Remote? then
      SendAll(m, m.focused.id, ClickMsgs(m.conns[m.focused.id].scrollmult, button, pr))
    else m
  }

  // ---------------------------------------------------------------- actions over all remotes

  datatype ForAll = ReconnectAll | HaltAll | ClearClipboards | StepLogLevel(level: Word)

  function OnRemote(m: Core, a: ForAll, r: nat): (m': Core)
    requires Wf(m) && r < |m.conns|
    ensures Shape(m, m')
  {
    if !m.conns[r].enabled then m
    else
      match a
      case ReconnectAll => ReconnectRemote(m, r)
      case HaltAll => HaltRemote(m, r)
      case ClearClipboards => if m.conns[r].state.Connected? then Enqueue(m, r, SetClipboard([])) else m
      case StepLogLevel(level) => Enqueue(m, r, SetLogLevel(level))
  }

  /** The action on the first `n` remotes of the list. */
  function OnFirst(m: Core, a: ForAll, n: nat): (m': Core)
    requires Wf(m) && n <= |m.conns|
    ensures Shape(m.(clip := if a.ClearClipboards? then [] else m.clip), m')
  {
    if n == 0 then
      match a
      case ClearClipboards => m.(clip := [])
      case StepLogLevel(level) => m.(loglevel := level)
      case _ => m
    else OnRemote(OnFirst(m, a, n - 1), a, n - 1)
  }

  /** The master at start-up, before any connection attempt. */
  predicate Startup(m: Core) {
    && m.calls == [] && m.nextId == 0 && m.focused == Master && m.last == Master && !m.grabbed
    && forall r :: 0 <= r < |m.conns| ==> Pristine(m.conns[r])
  }

  predicate Pristine(c: Conn) {
    c.state.New? && c.failcount == 0 && c.timer.None? && c == Closed(c)
  }

  /** Connects every enabled remote. */
  function SetupAll(m: Core, n: nat): (m': Core)
    requires Wf(m) && n <= |m.conns|
    ensures Shape(m, m')
  {
    if n == 0 then m
    else
      var m1 := SetupAll(m, n - 1);
      if m1.conns[n - 1].enabled then SetupRemote(m1, n - 1) else m1
  }
}
