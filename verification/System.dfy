/** The whole system: one master, any number of remotes, each session a pair of FIFO channels, and
    every interleaving of deliveries, timers, user actions and failures.

    A channel here is an ordered queue of messages: `taken` and `flushed` count what has left the two
    send queues, `got` and `recvd` what has been handled at the other end; everything in between is
    in flight.  `Stream.StepIsFifo` proves that this is all that the bytes underneath do. */
module System {
  import opened Base
  import opened Proto
  import opened Timers
  import opened MasterSpec
  import opened MasterInv
  import opened Focus
  import opened Sessions

  /** The remote's process in the current session.  `pressed` is the state of the modifier keys that
      its platform has been told about. */
  datatype Proc = Proc(
    alive: bool, initialized: bool, got: nat, pressed: set<Word>, replies: seq<Message>, flushed: nat)

  const FRESH_PROC := Proc(true, false, 0, {}, [], 0)

  datatype Sys = Sys(m: Core, procs: seq<Proc>, clips: seq<Text>)

  /** What handling a message meets on the remote's side: log lines it emits, the pointer position
      and screen it reads, whether platform initialisation succeeds. */
  datatype Env = Env(logs: seq<Text>, pos: Point, screen: Rectangle, initOk: bool)

  datatype Event =
    | Transmit(r: nat)
    | TransmitReply(r: nat)
    | RemoteReceives(r: nat, env: Env)
    | MasterReceives(r: nat)
    | RemoteLogs(r: nat, line: Text)
    | RemoteExits(r: nat)
    | ChannelFails(r: nat)
    | TimerFires
    | ClockTicks(now: nat)
    | Key(key: Word, pr: Word)
    | Move(msg: Message)
    | Click(button: Word, pr: Word)
    | FocusRequest(target: Option<Node>, keys: seq<Word>, viaHotkey: bool)
    | Action(a: ForAll)
    | ClipboardChanges(node: Node, text: Text)

  // ---------------------------------------------------------------- the remote

  function LogMsgs(logs: seq<Text>): seq<Message> {
    seq(|logs|, i requires 0 <= i < |logs| => LogMsg(logs[i]))
  }

  /** Log lines are queued without a look at the backlog; a reply that exceeds it ends the remote. */
  function Reply(p: Proc, logs: seq<Text>, ms: seq<Message>): Proc {
    var p1 := p.(replies := p.replies + LogMsgs(logs) + ms);
    if ms != [] && |p1.replies| - p1.flushed > MAX_SEND_BACKLOG then p1.(alive := false) else p1
  }

  /** The remote's handler: SETUP first, then the messages it knows; anything else ends it. */
  function RemoteHandles(p: Proc, clip: Text, msg: Message, env: Env, modifiers: set<Word>): (Proc, Text) {
    var p0 := p.(got := p.got + 1);
    if !p.initialized then
      if msg.Setup? && msg.version == PROT_VERSION && env.initOk then
        (Reply(p0.(initialized := true), env.logs, [Ready(env.screen)]), clip)
      else (Reply(p0, env.logs, []).(alive := false), clip)
    else
      var p1 := p0.(pressed := PressedAfter(p.pressed, msg, modifiers));
      match msg
      case MoveRel(_, _) => (Reply(p1, env.logs, [MousePos(env.pos)]), clip)
      case GetClipboard => (Reply(p1, env.logs, [SetClipboard(clip)]), clip)
      case SetClipboard(text) => (Reply(p1, env.logs, []), text)
      case MoveAbs(_) => (Reply(p1, env.logs, []), clip)
      case ClickEvent(_, _) => (Reply(p1, env.logs, []), clip)
      case KeyEvent(_, _) => (Reply(p1, env.logs, []), clip)
      case SetBrightness(_) => (Reply(p1, env.logs, []), clip)
      case SetLogLevel(_) => (Reply(p1, env.logs, []), clip)
      case _ => (Reply(p1, env.logs, []).(alive := false), clip)
  }

  // ---------------------------------------------------------------- steps

  predicate Sized(s: Sys) {
    Wf(s.m) && |s.procs| == |s.clips| == |s.m.conns|
  }

  /** What can happen next.  A focus request names the modifiers really held. */
  predicate Possible(s: Sys, e: Event)
    requires Sized(s)
  {
    var m := s.m;
    match e
    case Transmit(r) => r < |m.conns| && m.conns[r].open && m.conns[r].taken < |m.conns[r].sent|
    case TransmitReply(r) => r < |m.conns| && s.procs[r].alive && s.procs[r].flushed < |s.procs[r].replies|
    case RemoteReceives(r, _) =>
      && r < |m.conns| && m.conns[r].open && s.procs[r].alive
      && s.procs[r].got < m.conns[r].taken <= |m.conns[r].sent|
    case MasterReceives(r) =>
      && r < |m.conns| && m.conns[r].open
      && m.conns[r].recvd < s.procs[r].flushed <= |s.procs[r].replies|
    case RemoteLogs(r, _) => r < |m.conns| && s.procs[r].alive
    case RemoteExits(r) => r < |m.conns|
    case ChannelFails(r) => r < |m.conns| && m.conns[r].open
    case TimerFires => m.calls != [] && m.calls[0].time <= m.now
    case ClockTicks(now) => m.now <= now
    case Key(_, _) => true
    case Move(msg) => msg.MoveRel? || msg.MoveAbs?
    case Click(_, _) => true
    case FocusRequest(target, keys, _) => (target.Some? ==> InRange(m, target.value)) && KeySet(keys) == m.held
    case Action(_) => true
    case ClipboardChanges(node, _) => InRange(m, node)
  }

  /** What the source relies on without checking it: in the three places where it goes on sending
      after a message that may have failed the remote, or to a remote that may be down, no message
      follows on the closed channel, and the focus goes to no remote that has failed meanwhile. */
  predicate Fits(m: Core, e: Event)
    requires Wf(m)
  {
    match e
    case Click(button, pr) => ClickFits(m, button, pr)
    case FocusRequest(target, keys, _) => FocusFits(m, target, keys)
    case Action(a) => ActionFits(m, a)
    case _ => true
  }

  predicate CanHappen(s: Sys, e: Event)
    requires Sized(s)
    ensures CanHappen(s, e) ==> Possible(s, e)
  {
    Possible(s, e) && Fits(s.m, e)
  }

  /** A new connection attempt starts a new process at the other end. */
  function Sync(s: Sys, m': Core): Sys
    requires Sized(s) && Wf(m') && |m'.conns| == |s.m.conns|
  {
    s.(m := m', procs := seq(|s.procs|, r requires 0 <= r < |s.procs| =>
      if m'.conns[r].session != s.m.conns[r].session then FRESH_PROC else s.procs[r]))
  }

  /** The master's part of a step. */
  function MasterStep(s: Sys, e: Event): (m': Core)
    requires Sized(s) && Possible(s, e)
    ensures Wf(m') && |m'.conns| == |s.m.conns|
  {
    var m := s.m;
    match e
    case Transmit(r) => Put(m, r, m.conns[r].(taken := m.conns[r].taken + 1))
    case MasterReceives(r) =>
      HandleMessage(Put(m, r, m.conns[r].(recvd := m.conns[r].recvd + 1)), r, s.procs[r].replies[m.conns[r].recvd])
    case ChannelFails(r) => Fail(m, r)
    case TimerFires => FireHead(m)
    case ClockTicks(now) => m.(now := now)
    case Key(key, pr) => KeyStep(m, key, pr)
    case Move(msg) => ToFocused(m, msg)
    case Click(button, pr) => SendClick(m, button, pr)
    case FocusRequest(target, keys, viaHotkey) => FocusNode(m, target, keys, viaHotkey)
    case Action(a) => OnFirst(m, a, |m.conns|)
    case ClipboardChanges(node, text) => if node.Master? then m.(clip := text) else m
    case _ => m
  }

  /** The remote processes' part of a step. */
  function RemoteStep(s: Sys, e: Event): (s': Sys)
    requires Sized(s) && Possible(s, e)
    ensures Sized(s') && s'.m == s.m
  {
    match e
    case TransmitReply(r) => s.(procs := s.procs[r := s.procs[r].(flushed := s.procs[r].flushed + 1)])
    case RemoteReceives(r, env) =>
      var (p, clip) := RemoteHandles(s.procs[r], s.clips[r], s.m.conns[r].sent[s.procs[r].got], env, s.m.cfg.modifiers);
      s.(procs := s.procs[r := p], clips := s.clips[r := clip])
    case RemoteLogs(r, line) => s.(procs := s.procs[r := Reply(s.procs[r], [line], [])])
    case RemoteExits(r) => s.(procs := s.procs[r := s.procs[r].(alive := false)])
    case ClipboardChanges(node, text) => if node.Remote? then s.(clips := s.clips[node.id := text]) else s
    case _ => s
  }

  function Next(s: Sys, e: Event): (s': Sys)
    requires Sized(s) && Possible(s, e)
    ensures Sized(s')
  {
    Sync(RemoteStep(s, e), MasterStep(s, e))
  }

  // ---------------------------------------------------------------- the invariant

  predicate FromRemote(msg: Message) {
    msg.Ready? || msg.MousePos? || msg.SetClipboard? || msg.LogMsg?
  }

  /** How many messages of one type a sequence holds. */
  function Count(ms: seq<Message>, tag: Word): nat {
    if ms == [] then 0 else Count(ms[..|ms| - 1], tag) + if Tag(ms[|ms| - 1]) == tag then 1 else 0
  }

  const READY: Word := 2
  const MOVEREL: Word := 3
  const MOUSEPOS: Word := 5
  const GETCLIPBOARD: Word := 8
  const SETCLIPBOARD: Word := 9

  /** How the two ends of an open session agree. */
  predicate Agree(c: Conn, p: Proc, modifiers: set<Word>) {
    && p.got <= c.taken <= |c.sent|
    && (p.initialized ==> p.got >= 1)
    && (p.alive && p.got >= 1 ==> p.initialized)
    && p.pressed == Pressed(c.sent[..p.got], modifiers)
    && c.recvd <= p.flushed <= |p.replies|
    && (forall i :: 0 <= i < |p.replies| ==> FromRemote(p.replies[i]))
    && Count(p.replies, READY) == (if p.initialized then 1 else 0)
    && Count(p.replies[..c.recvd], READY) == (if c.state.Connected? then 1 else 0)
    && Count(p.replies, MOUSEPOS) == Count(c.sent[..p.got], MOVEREL)
    && Count(p.replies, SETCLIPBOARD) == Count(c.sent[..p.got], GETCLIPBOARD)
  }

  ghost predicate SysInv(s: Sys)
    ensures SysInv(s) ==> Sized(s) && Inv(s.m)
  {
    && Sized(s) && Inv(s.m)
    && forall r :: 0 <= r < |s.m.conns| && s.m.conns[r].open ==> Agree(s.m.conns[r], s.procs[r], s.m.cfg.modifiers)
  }

  // ---------------------------------------------------------------- the two ends stay in agreement

  lemma CountSnoc(ms: seq<Message>, msg: Message, tag: Word)
    ensures Count(ms + [msg], tag) == Count(ms, tag) + if Tag(msg) == tag then 1 else 0
  {
    assert (ms + [msg])[..|ms|] == ms;
  }

  lemma {:induction false} CountPrefix(ms: seq<Message>, n: nat, tag: Word)
    requires n <= |ms|
    ensures Count(ms[..n], tag) <= Count(ms, tag)
    decreases |ms|
  {
    if n < |ms| {
      CountPrefix(ms[..|ms| - 1], n, tag);
      assert ms[..|ms| - 1][..n] == ms[..n];
    } else {
      assert ms[..n] == ms;
    }
  }

  lemma {:induction false} CountLogs(ms: seq<Message>, logs: seq<Text>, tag: Word)
    requires tag != 10
    ensures Count(ms + LogMsgs(logs), tag) == Count(ms, tag)
    decreases |logs|
  {
    if logs == [] {
      assert ms + LogMsgs(logs) == ms;
    } else {
      var n := |logs| - 1;
      CountLogs(ms, logs[..n], tag);
      assert ms + LogMsgs(logs) == (ms + LogMsgs(logs[..n])) + [LogMsg(logs[n])];
      CountSnoc(ms + LogMsgs(logs[..n]), LogMsg(logs[n]), tag);
    }
  }

  lemma StaysAgree(cfg: Config, c: Conn, c': Conn, p: Proc)
    requires Agree(c, p, cfg.modifiers) && Stays(cfg, c, c', false) && c'.open
    ensures Agree(c', p, cfg.modifiers)
  {
    hide Pressed, Count, Budget, Clips;
    assert c'.sent[..p.got] == c.sent[..p.got];
  }

  lemma FreshAgree(c: Conn, modifiers: set<Word>)
    requires c.taken <= |c.sent| && c.taken == 0 && c.recvd == 0 && c.state.SettingUp?
    ensures Agree(c, FRESH_PROC, modifiers)
  {
  }

  /** A master operation that only appends to, closes or replaces sessions. */
  predicate Faithful(cfg: Config, c: Conn, c': Conn) {
    || Stays(cfg, c, c', false)
    || (c'.session != c.session && (c'.open ==> c'.taken == 0 && c'.recvd == 0 && c'.state.SettingUp?))
  }

  lemma FaithfulStep(s: Sys, m': Core)
    requires SysInv(s) && Inv(m') && |m'.conns| == |s.m.conns| && m'.cfg == s.m.cfg
    requires forall r :: 0 <= r < |s.m.conns| ==> Faithful(s.m.cfg, s.m.conns[r], m'.conns[r])
    ensures SysInv(Sync(s, m'))
  {
    hide Inv, Agree, Budget;
    var s' := Sync(s, m');
    forall r | 0 <= r < |m'.conns| && m'.conns[r].open
      ensures Agree(m'.conns[r], s'.procs[r], m'.cfg.modifiers)
    {
      assert Faithful(s.m.cfg, s.m.conns[r], m'.conns[r]);
      if m'.conns[r].session == s.m.conns[r].session {
        StaysAgree(s.m.cfg, s.m.conns[r], m'.conns[r], s.procs[r]);
      } else {
        TakenBound(m', r);
        FreshAgree(m'.conns[r], m'.cfg.modifiers);
      }
    }
  }

  lemma TakenBound(m: Core, r: nat)
    requires Inv(m) && r < |m.conns|
    ensures m.conns[r].taken <= |m.conns[r].sent| && (m.conns[r].open ==> SessionOk(m.conns[r].sent))
  {
    hide Pressed, ReconIds, OwnTimer, ListOk, SessionOk;
    Split(m, r);
  }

  lemma AllStayFaithful(s: Sys, m': Core)
    requires SysInv(s) && Inv(m') && AllStay(s.m, m', false) && m'.cfg == s.m.cfg
    ensures SysInv(Sync(s, m'))
  {
    hide Inv, Agree, Stays, SysInv;
    FaithfulStep(s, m');
  }

  // ---------------------------------------------------------------- each event

  lemma TransmitKeeps(s: Sys, r: nat)
    requires SysInv(s) && CanHappen(s, Transmit(r))
    ensures SysInv(Next(s, Transmit(r)))
  {
    hide Pressed, Count, Inv;
    CountTaken(s.m, r);
    assert Next(s, Transmit(r)).procs == s.procs;
  }

  /** The remote's next message is the one it expects, so neither of its error exits is taken. */
  predicate RemoteExpects(c: Conn, p: Proc) {
    p.alive && c.open && p.got < |c.sent| ==>
      var msg := c.sent[p.got];
      if p.initialized then ToRemote(msg) else msg.Setup? && msg.version == PROT_VERSION
  }

  lemma ExpectedByRemote(s: Sys, r: nat)
    requires SysInv(s) && r < |s.m.conns|
    ensures RemoteExpects(s.m.conns[r], s.procs[r])
  {
    hide Inv, Pressed, Count;
    TakenBound(s.m, r);
  }

  lemma ReplyCounts(replies: seq<Message>, logs: seq<Text>, ms: seq<Message>, tag: Word)
    requires |ms| <= 1 && tag != 10
    ensures Count(replies + LogMsgs(logs) + ms, tag) == Count(replies, tag) + Count(ms, tag)
  {
    hide Count;
    CountLogs(replies, logs, tag);
    CountNone(tag);
    if ms == [] {
      assert replies + LogMsgs(logs) + ms == replies + LogMsgs(logs);
    } else {
      assert ms == [ms[0]];
      CountOne(ms[0], tag);
      CountSnoc(replies + LogMsgs(logs), ms[0], tag);
    }
  }

  lemma CountNone(tag: Word)
    ensures Count([], tag) == 0
  {
  }

  lemma CountOne(msg: Message, tag: Word)
    ensures Count([msg], tag) == if Tag(msg) == tag then 1 else 0
  {
    assert [msg][..0] == [];
  }

  lemma ReplyAgrees(c: Conn, p: Proc, logs: seq<Text>, ms: seq<Message>, modifiers: set<Word>)
    requires |ms| <= 1 && (ms != [] ==> FromRemote(ms[0]))
    requires && p.got <= c.taken <= |c.sent|
             && (p.initialized ==> p.got >= 1) && (p.alive && p.got >= 1 ==> p.initialized)
             && p.pressed == Pressed(c.sent[..p.got], modifiers) && c.recvd <= p.flushed <= |p.replies|
             && (forall i :: 0 <= i < |p.replies| ==> FromRemote(p.replies[i]))
             && Count(p.replies[..c.recvd], READY) == (if c.state.Connected? then 1 else 0)
    requires Count(p.replies, READY) + Count(ms, READY) == (if p.initialized then 1 else 0)
    requires Count(p.replies, MOUSEPOS) + Count(ms, MOUSEPOS) == Count(c.sent[..p.got], MOVEREL)
    requires Count(p.replies, SETCLIPBOARD) + Count(ms, SETCLIPBOARD) == Count(c.sent[..p.got], GETCLIPBOARD)
    ensures Agree(c, Reply(p, logs, ms), modifiers) && Agree(c, Reply(p, logs, ms).(alive := false), modifiers)
  {
    hide Pressed, Count;
    ReplyCounts(p.replies, logs, ms, READY);
    ReplyCounts(p.replies, logs, ms, MOUSEPOS);
    ReplyCounts(p.replies, logs, ms, SETCLIPBOARD);
    assert (p.replies + LogMsgs(logs) + ms)[..c.recvd] == p.replies[..c.recvd];
  }

  /** Whatever the remote's surroundings do, handling the expected message keeps the agreement. */
  lemma HandlingAgrees(c: Conn, p: Proc, clip: Text, env: Env, modifiers: set<Word>)
    requires Agree(c, p, modifiers) && RemoteExpects(c, p) && p.alive && c.open && p.got < c.taken
    ensures Agree(c, RemoteHandles(p, clip, c.sent[p.got], env, modifiers).0, modifiers)
  {
    hide Pressed, Count, Reply;
    var msg := c.sent[p.got];
    assert c.sent[..p.got + 1] == c.sent[..p.got] + [msg];
    PressedSnoc(c.sent[..p.got], msg, modifiers);
    CountSnoc(c.sent[..p.got], msg, MOVEREL);
    CountSnoc(c.sent[..p.got], msg, GETCLIPBOARD);
    SingleCounts(env, clip);
    var p0 := p.(got := p.got + 1);
    if !p.initialized {
      ReplyAgrees(c, p0.(initialized := true), env.logs, [Ready(env.screen)], modifiers);
      ReplyAgrees(c, p0.(alive := false), env.logs, [], modifiers);
      AliveLast(p0, env.logs, []);
    } else {
      var p1 := p0.(pressed := PressedAfter(p.pressed, msg, modifiers));
      if msg.MoveRel? {
        ReplyAgrees(c, p1, env.logs, [MousePos(env.pos)], modifiers);
      } else if msg.GetClipboard? {
        ReplyAgrees(c, p1, env.logs, [SetClipboard(clip)], modifiers);
      } else {
        ReplyAgrees(c, p1, env.logs, [], modifiers);
      }
    }
  }

  /** What a set-up remote does with a message: it answers motion with the pointer's position and a
      request with its clipboard, and nothing else; only a clipboard sent to it changes its clipboard,
      only a modifier key event its modifiers; and only a reply too many ends it. */
  lemma HandlingExact(p: Proc, clip: Text, msg: Message, env: Env, modifiers: set<Word>)
    requires p.initialized && ToRemote(msg)
    ensures var (p', clip') := RemoteHandles(p, clip, msg, env, modifiers);
      var answer :=
        if msg.MoveRel? then [MousePos(env.pos)] else if msg.GetClipboard? then [SetClipboard(clip)] else [];
      && p'.replies == p.replies + LogMsgs(env.logs) + answer && p'.got == p.got + 1
      && p'.initialized && p'.flushed == p.flushed
      && (p'.alive <==> p.alive && (answer != [] ==> |p'.replies| - p'.flushed <= MAX_SEND_BACKLOG))
      && clip' == (if msg.SetClipboard? then msg.text else clip)
      && forall k :: k in p'.pressed <==>
           if msg.KeyEvent? && k == msg.keycode && k in modifiers then msg.keyPr == PRESS else k in p.pressed
  {
  }

  /** Before that, SETUP of this version is answered with READY and the screen, and anything else ends
      the remote. */
  lemma SetupExact(p: Proc, clip: Text, msg: Message, env: Env, modifiers: set<Word>)
    requires !p.initialized
    ensures var (p', clip') := RemoteHandles(p, clip, msg, env, modifiers);
      && clip' == clip && p'.got == p.got + 1 && p'.pressed == p.pressed
      && if msg.Setup? && msg.version == PROT_VERSION && env.initOk then
           && p'.initialized && p'.replies == p.replies + LogMsgs(env.logs) + [Ready(env.screen)]
           && (p'.alive <==> p.alive && |p'.replies| - p'.flushed <= MAX_SEND_BACKLOG)
         else !p'.initialized && !p'.alive && p'.replies == p.replies + LogMsgs(env.logs)
  {
  }

  lemma LogLines(logs: seq<Text>)
    ensures |LogMsgs(logs)| == |logs| && forall i :: 0 <= i < |logs| ==> LogMsgs(logs)[i] == LogMsg(logs[i])
  {
  }

  lemma SingleCounts(env: Env, clip: Text)
    ensures forall tag :: Count([], tag) == 0
    ensures Count([Ready(env.screen)], READY) == 1
    ensures Count([Ready(env.screen)], MOUSEPOS) == Count([Ready(env.screen)], SETCLIPBOARD) == 0
    ensures Count([MousePos(env.pos)], MOUSEPOS) == 1
    ensures Count([MousePos(env.pos)], READY) == Count([MousePos(env.pos)], SETCLIPBOARD) == 0
    ensures Count([SetClipboard(clip)], SETCLIPBOARD) == 1
    ensures Count([SetClipboard(clip)], READY) == Count([SetClipboard(clip)], MOUSEPOS) == 0
  {
    forall tag
      ensures Count([Ready(env.screen)], tag) == (if tag == READY then 1 else 0)
      ensures Count([MousePos(env.pos)], tag) == (if tag == MOUSEPOS then 1 else 0)
      ensures Count([SetClipboard(clip)], tag) == (if tag == SETCLIPBOARD then 1 else 0)
    {
      CountOne(Ready(env.screen), tag);
      CountOne(MousePos(env.pos), tag);
      CountOne(SetClipboard(clip), tag);
    }
  }

  lemma AliveLast(p: Proc, logs: seq<Text>, ms: seq<Message>)
    ensures Reply(p, logs, ms).(alive := false) == Reply(p.(alive := false), logs, ms)
  {
  }

  /** A step of one remote's process that keeps its own agreement keeps the system's. */
  lemma ProcStep(s: Sys, s': Sys, r: nat, p: Proc)
    requires SysInv(s) && Sized(s') && r < |s.procs| && s'.m == s.m && s'.procs == s.procs[r := p]
    requires s.m.conns[r].open ==> Agree(s.m.conns[r], p, s.m.cfg.modifiers)
    ensures SysInv(Sync(s', s.m))
  {
    hide Inv, Agree;
    assert Sync(s', s.m).procs == s'.procs;
  }

  lemma RemoteEventKeeps(s: Sys, e: Event)
    requires SysInv(s) && CanHappen(s, e)
    requires e.TransmitReply? || e.RemoteReceives? || e.RemoteLogs? || e.RemoteExits?
    ensures SysInv(Next(s, e))
  {
    hide Inv, Pressed, Count, Reply, RemoteHandles;
    var c, p := s.m.conns[e.r], s.procs[e.r];
    match e
    case TransmitReply(r) => ProcStep(s, RemoteStep(s, e), r, p.(flushed := p.flushed + 1));
    case RemoteReceives(r, env) =>
      ExpectedByRemote(s, r);
      HandlingAgrees(c, p, s.clips[r], env, s.m.cfg.modifiers);
      ProcStep(s, RemoteStep(s, e), r, RemoteHandles(p, s.clips[r], c.sent[p.got], env, s.m.cfg.modifiers).0);
    case RemoteLogs(r, line) =>
      if c.open {
        forall tag ensures Count([], tag) == 0 { CountNone(tag); }
        ReplyAgrees(c, p, [line], [], s.m.cfg.modifiers);
      }
      ProcStep(s, RemoteStep(s, e), r, Reply(p, [line], []));
    case RemoteExits(r) => ProcStep(s, RemoteStep(s, e), r, p.(alive := false));
  }

  /** The master's next message is one it expects: READY only while setting up, and otherwise only
      the three kinds it handles. */
  predicate MasterExpects(c: Conn, p: Proc) {
    c.open && c.recvd < |p.replies| ==>
      var msg := p.replies[c.recvd];
      FromRemote(msg) && (msg.Ready? ==> c.state.SettingUp?)
  }

  lemma ExpectedByMaster(s: Sys, r: nat)
    requires SysInv(s) && r < |s.m.conns|
    ensures MasterExpects(s.m.conns[r], s.procs[r])
  {
    hide Inv, Pressed, Count;
    var c, p := s.m.conns[r], s.procs[r];
    if c.open && c.recvd < |p.replies| {
      OpenIsLive(s.m, r);
      NextReady(p.replies, c.recvd);
      CountPrefix(p.replies, c.recvd + 1, READY);
    }
  }

  lemma NextReady(ms: seq<Message>, n: nat)
    requires n < |ms|
    ensures Count(ms[..n + 1], READY) == Count(ms[..n], READY) + if ms[n].Ready? then 1 else 0
  {
    assert ms[..n + 1] == ms[..n] + [ms[n]];
    CountSnoc(ms[..n], ms[n], READY);
  }

  lemma ReceiveKeeps(s: Sys, r: nat)
    requires SysInv(s) && CanHappen(s, MasterReceives(r))
    ensures SysInv(Next(s, MasterReceives(r)))
  {
    hide Inv, Pressed, Count, Stays, HandleMessage;
    var c, p := s.m.conns[r], s.procs[r];
    var msg := p.replies[c.recvd];
    ExpectedByMaster(s, r);
    CountReceived(s.m, r);
    NextReady(p.replies, c.recvd);
    var m1 := Put(s.m, r, c.(recvd := c.recvd + 1));
    HandleKeeps(m1, r, msg);
    var m0 := if msg.Ready? then Put(m1, r, m1.conns[r].(state := Connected, failcount := 0)) else m1;
    if msg.Ready? {
      BecomesReady(m1, r);
    }
    var s0 := s.(m := m0);
    assert SysInv(s0) by {
      forall q | 0 <= q < |m0.conns| && m0.conns[q].open
        ensures Agree(m0.conns[q], s0.procs[q], m0.cfg.modifiers)
      {
        assert s.m.conns[q].open;
      }
    }
    ReceivedStays(m1, r, msg);
    Louder(m0, HandleMessage(m1, r, msg), !msg.SetClipboard?);
    AllStayFaithful(s0, HandleMessage(m1, r, msg));
    SyncSame(s, s0, HandleMessage(m1, r, msg));
  }

  /** After the state change that READY brings, handling a reply leaves every session. */
  lemma ReceivedStays(m: Core, r: nat, msg: Message)
    requires Inv(m) && r < |m.conns| && m.conns[r].open && FromRemote(msg)
    requires msg.Ready? ==> m.conns[r].state.SettingUp?
    ensures var m0 := if msg.Ready? then Put(m, r, m.conns[r].(state := Connected, failcount := 0)) else m;
      AllStay(m0, HandleMessage(m, r, msg), !msg.SetClipboard?) && HandleMessage(m, r, msg).cfg == m0.cfg
  {
    hide Inv, AllStay, Transition, Enqueue, Fail;
    AllStaySame(m, m);
    match msg
    case Ready(_) =>
      var m0 := Put(m, r, m.conns[r].(state := Connected, failcount := 0));
      AllStaySame(m0, m0);
      if m.cfg.hint.DimInactive? {
        TransitionStays(m0, Remote(r), m.cfg.hint.dim);
      }
    case SetClipboard(text) =>
      var m1 := m.(clip := text);
      AllStaySame(m, m1);
      if m1.focused.Remote? {
        EnqueueStays(m1, m1.focused.id, SetClipboard(text));
        AllStayTrans(m, m1, HandleMessage(m, r, msg), false);
      }
    case _ =>
  }

  lemma SyncSame(s: Sys, s0: Sys, m': Core)
    requires Sized(s) && Sized(s0) && s0.procs == s.procs && s0.clips == s.clips && Wf(m')
    requires |m'.conns| == |s.m.conns| == |s0.m.conns|
    requires forall q :: 0 <= q < |s.m.conns| ==> s0.m.conns[q].session == s.m.conns[q].session
    ensures Sync(s0, m') == Sync(s, m')
  {
  }

  lemma ClickStays(m: Core, button: Word, pr: Word)
    requires Inv(m) && ClickFits(m, button, pr)
    ensures AllStay(m, SendClick(m, button, pr), true)
  {
    hide Inv, SendAll, AllStay;
    AllStaySame(m, m);
    if m.focused.Remote? {
      SendAllStays(m, m.focused.id, ClickMsgs(m.conns[m.focused.id].scrollmult, button, pr));
    }
  }

  lemma InputStays(m: Core, msg: Message)
    requires Inv(m)
    ensures AllStay(m, ToFocused(m, msg), !IsClip(msg))
  {
    hide Inv, Enqueue, AllStay;
    AllStaySame(m, m);
    if m.focused.Remote? {
      EnqueueStays(m, m.focused.id, msg);
    }
  }

  lemma KeyStays(m: Core, key: Word, pr: Word)
    requires Inv(m)
    ensures AllStay(m, KeyStep(m, key, pr), true) && KeyStep(m, key, pr).cfg == m.cfg
  {
    hide Inv, Enqueue, AllStay;
    var m1 := m.(held := PressedAfter(m.held, KeyEvent(key, pr), m.cfg.modifiers));
    AllStaySame(m, m1);
    if m.focused.Remote? {
      EnqueueStays(m1, m.focused.id, KeyEvent(key, pr));
      AllStayTrans(m, m1, KeyStep(m, key, pr), true);
    }
  }

  /** The events in which only the master acts. */
  predicate OfMaster(e: Event) {
    || e.ChannelFails? || e.TimerFires? || e.ClockTicks? || e.Key? || e.Move? || e.Click?
    || e.FocusRequest? || e.Action?
  }

  /** Every event in which only the master acts keeps its invariant, and leaves or replaces each
      session. */
  lemma MasterEventKeeps(s: Sys, e: Event)
    requires SysInv(s) && CanHappen(s, e)
    requires OfMaster(e)
    ensures Inv(MasterStep(s, e)) && MasterStep(s, e).cfg == s.m.cfg
    ensures forall r :: 0 <= r < |s.m.conns| ==> Faithful(s.m.cfg, s.m.conns[r], MasterStep(s, e).conns[r])
  {
    hide Inv, Stays, FireHead, KeyStep, ToFocused, SendClick, ClickFits, FocusNode, OnFirst, Fail;
    var m := s.m;
    match e
    case ChannelFails(r) =>
      OpenIsLive(m, r);
      FailLiveKeeps(m, r);
      FailStays(m, r);
    case TimerFires =>
      FireKeeps(m);
      FireSessions(m);
      if !m.calls[0].what.Reconnect? {
        Louder(m, FireHead(m), true);
      }
      forall q | 0 <= q < |m.conns|
        ensures Faithful(m.cfg, m.conns[q], FireHead(m).conns[q])
      {
        StayRefl(m.cfg, m.conns[q]);
      }
    case ClockTicks(now) =>
      TickKeeps(m, now);
      AllStaySame(m, m.(now := now));
    case Key(key, pr) =>
      KeyKeeps(m, key, pr);
      KeyStays(m, key, pr);
      Louder(m, KeyStep(m, key, pr), true);
    case Move(msg) =>
      InputKeeps(m, msg);
      InputStays(m, msg);
      Louder(m, ToFocused(m, msg), !IsClip(msg));
    case Click(button, pr) =>
      ClickKeepsExactly(m, button, pr);
      ClickStays(m, button, pr);
      Louder(m, SendClick(m, button, pr), true);
    case FocusRequest(target, keys, viaHotkey) =>
      FocusKeepsExactly(m, target, keys, viaHotkey);
      FocusFaithful(m, target, keys, viaHotkey);
    case Action(a) =>
      OnFirstKeeps(m, a, |m.conns|);
      if a.ReconnectAll? {
        ReconnectAllRenews(m, |m.conns|);
        forall q | 0 <= q < |m.conns|
          ensures Faithful(m.cfg, m.conns[q], OnFirst(m, a, |m.conns|).conns[q])
        {
          StayRefl(m.cfg, m.conns[q]);
        }
      } else {
        OnFirstStays(m, a, |m.conns|);
        Louder(m, OnFirst(m, a, |m.conns|), !a.ClearClipboards?);
      }
  }

  lemma FocusFaithful(m: Core, target: Option<Node>, keys: seq<Word>, viaHotkey: bool)
    requires Inv(m) && (target.Some? ==> InRange(m, target.value)) && FocusFits(m, target, keys)
    ensures forall q :: 0 <= q < |m.conns| ==>
      Faithful(m.cfg, m.conns[q], FocusNode(m, target, keys, viaHotkey).conns[q])
  {
    hide Inv, FocusNode, FocusFits, Budget, Clips;
    FocusSessions(m, target, keys, viaHotkey);
  }

  lemma ClipboardKeeps(s: Sys, node: Node, text: Text)
    requires SysInv(s) && InRange(s.m, node)
    ensures SysInv(Next(s, ClipboardChanges(node, text)))
  {
    hide Inv, Agree;
    var s' := Next(s, ClipboardChanges(node, text));
    assert s'.procs == s.procs;
    if node.Master? {
      ClipKeeps(s.m, text);
    }
  }

  /** Every step that fits keeps the invariant. */
  lemma StepKeeps(s: Sys, e: Event)
    requires SysInv(s) && CanHappen(s, e)
    ensures SysInv(Next(s, e))
  {
    hide SysInv, Inv, CanHappen, RemoteStep, MasterStep;
    match e
    case Transmit(r) => TransmitKeeps(s, r);
    case TransmitReply(_) => RemoteEventKeeps(s, e);
    case RemoteReceives(_, _) => RemoteEventKeeps(s, e);
    case RemoteLogs(_, _) => RemoteEventKeeps(s, e);
    case RemoteExits(_) => RemoteEventKeeps(s, e);
    case MasterReceives(r) => ReceiveKeeps(s, r);
    case ClipboardChanges(node, text) => ClipboardStepKeeps(s, e);
    case _ =>
      MasterEventKeeps(s, e);
      FaithfulStep(s, MasterStep(s, e));
      OnlyMaster(s, e);
  }

  /** The exact condition: whatever happens, the invariant is kept if and only if the step fits. */
  lemma StepKeepsExactly(s: Sys, e: Event)
    requires SysInv(s) && Possible(s, e)
    ensures SysInv(Next(s, e)) <==> Fits(s.m, e)
  {
    hide SysInv, Inv, FocusFits, ClickFits, SendClick, FocusNode, OnFirst;
    if Fits(s.m, e) {
      StepKeeps(s, e);
    } else if e.Click? {
      ClickKeepsExactly(s.m, e.button, e.pr);
    } else if e.FocusRequest? {
      FocusKeepsExactly(s.m, e.target, e.keys, e.viaHotkey);
    } else {
      LogLevelSafeExactly(s.m, e.a.level);
    }
  }

  lemma ClipboardStepKeeps(s: Sys, e: Event)
    requires SysInv(s) && CanHappen(s, e) && e.ClipboardChanges?
    ensures SysInv(Next(s, e))
  {
    ClipboardKeeps(s, e.node, e.text);
  }

  lemma OnlyMaster(s: Sys, e: Event)
    requires Sized(s) && CanHappen(s, e)
    requires OfMaster(e)
    ensures RemoteStep(s, e) == s
  {
  }
}
