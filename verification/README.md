# enthrall, verified

enthrall lets one keyboard and mouse (at the *master*) drive several other machines (the *remotes*).
It is a single-threaded event-driven program: non-blocking byte streams to each remote, a timer list,
a list of watched file descriptors, reconnects with backoff, and a focus that moves between nodes and
takes the held modifier keys and the clipboard with it.

This project models that program in Dafny and proves what it keeps over whole runs. The layers stack:

| file | what it is |
|---|---|
| `Base.dfy` | what several files share |
| `Proto.dfy` | the messages and their XDR encoding (RFC 4506, sections 4.1 to 4.3, 4.6, 4.11, 4.13 to 4.16) |
| `Wire.dfy` | the encoding held against the standard from outside: values of bytes, and one message of each type |
| `Stream.dfy` | one direction of a session as a whole, under every fragmentation of reads and writes |
| `Framing.dfy`, `MsgChan.dfy` | the partial buffers, the linked send queue and the readiness callbacks, in place |
| `Link.dfy` | two channels and the kernel between them: the in-place callbacks make that stream |
| `Timers.dfy` | the scheduled-call list, over whole runs and as the methods of x11.c; the list is a sequence, its links are not modelled |
| `FdMonitor.dfy` | the doubly linked, reference-counted descriptor list, walked while callbacks change it |
| `Backoff.dfy` | the reconnect delay |
| `MasterSpec.dfy` | the master's operations as functions of its state |
| `MasterInv.dfy`, `Focus.dfy`, `Sessions.dfy` | what those operations keep: lifecycle, timers, focus and grab, modifiers, sessions |
| `Effects.dfy` | what each of those operations sends, schedules and leaves alone, for every state |
| `Peers.dfy`, `Master.dfy` | the master as objects, a channel for each remote and a timer list, proved to do what the functions do |
| `System.dfy`, `Runs.dfy` | master, any number of remotes and FIFO channels; the theorems about every run |
| `Remote.dfy` | the remote's handler on its message channel |
| `Limits.dfy` | runs that end where the source goes wrong next |
| `Handoff.dfy` | the clipboard follows the focus |
| `Edges.dfy`, `Topology.dfy`, `KvMap.dfy` | multi-tap gestures, reachability, the parameter map |

## Main results

* Bytes to messages: in every run and under every fragmentation, what a session delivers is an
  in-order, exactly-once prefix of what was enqueued (`Stream.InOrderExactlyOnce`). The in-place
  callbacks of two channels over a pipe make that stream (`Link.Connection`), and seen without its
  bytes it is the ordered queue of the system model (`Stream.StepIsFifo`).
* Handshake: in every interleaving neither side meets a message it does not expect, and a connected
  remote has processed SETUP (`Runs.HandshakeSafe`).
* Lifecycle and retries: `Runs.LifecycleSafe`, `Runs.BoundedRetries`, `Runs.BoundedAfterReset`.
* Focus: `Runs.FocusSafe`.
* Exactness: for every event of the system, the whole invariant survives if and only if a condition
  holds that can be checked beforehand (`System.StepKeepsExactly`).
* Modifiers and clipboard: `Runs.NoStuckModifiers`, `Handoff.ClipboardFollowsFocus`.
* Event core: `FdMonitor.Monitor.Dispatch`, `Timers.AlwaysOk`, `Timers.TimerQueue.Turn`; and what the
  timer loop means for each remote, `Effects.FireDueExact`.
* Refinement: `MasterProgram.Program` and `RemoteProgram.Process` do on linked queues, partial
  buffers, 64-bit delays and the timer list what the functions do; the former keeps the invariant at
  every entry point, and its timer loop ends.

## Assumptions

The run theorems assume `System.Fits` of each event. It excludes exactly the events after which the
invariant would be broken (`System.StepKeepsExactly`), all of them in places where the source goes on
sending without a look at whether the remote is still up:

* Room for a switch. `focus_node` keeps using its local `from` and `to` after sends that may fail a
  remote. To a remote, both send queues must take all that the switch sends; to the master, the
  departing remote's queue must take all but the last message (`Focus.SwitchKeepsExactly`).
* Room for a click. A scroll multiplier turns one click into many messages; the queue must take all
  but the last (`Focus.ClickKeepsExactly`).
* Open channels. Stepping the log level sends to every enabled remote whatever its state; all of
  them must have an open channel (`Focus.LogLevelSafeExactly`).

Of the user's side they assume that a focus request names the modifiers really held.

Elsewhere: scheduled calls have identities that are never reused (the source remembers a pointer that
it does not clear after cancelling); callbacks use the handle of a descriptor entry only while it is
registered; platform calls are atomic and a grab succeeds; the clock is monotonic and deadlines fit
in 64 bits; both ends speak the same protocol version; a clipboard text and the SETUP parameters fit
in one message; allocation succeeds.

## Where the source does less than it seems to promise

Each of these has its exact condition above and a run from start-up that leads to it in `Limits.dfy`:

* A switch to a remote whose queue, or whose predecessor's queue, is nearly full ends with the focus
  on a failed remote or with inputs not grabbed (`Limits.SwitchOntoFailed`).
* A switch home from a remote whose queue is full sends on the channel that its first message closed
  (`Limits.HomeOnClosed`).
* So does a turn of the mouse wheel with a scroll multiplier (`Limits.BurstOnClosed`).
* Stepping the log level while an enabled remote is down queues a message on a closed channel
  (`Limits.LogLevelOnFailed`).
* A multi-tap gesture is taken as complete with fewer arrivals than configured while the clock shows
  less than the window, because empty history slots read as time zero: `Edges.EarlyTap` is an example
  and `Edges.IntendedExactly` the exact condition.

## Model

| member | source | states |
|---|---|---|
| Proto.BodyRoundTrip | proto.x:189-214 | decoding an encoded message of any type, whatever follows it, returns that message and what follows |
| Proto.BodyAppends | proto.x:189-214 | an encoding does not depend on what follows, is never empty and is a whole number of 4-byte words |
| Proto.PrefixFree | message.c:68-83 | no encoding is a prefix of another message's encoding |
| Proto.PairsRoundTrip | proto.x:55-73 | the variable-length parameter array survives encoding |
| Proto.AcceptedIsSendable | message.c:223-240 | any bytes the decoder accepts yield a sendable message and consume exactly its encoded length |
| Wire.WordIsBigEndian | proto.x:189-214 | a word is four bytes, the most significant first |
| Wire.IntIsTwosComplement | proto.x:39-42 | a signed integer is in two's complement |
| Wire.TextOnTheWire | proto.x:55-58 | a string is its length, its bytes and the fewest zero bytes that make a multiple of four |
| Wire.SetupBytes | proto.x:189-214 | a SETUP message byte by byte: type 1, version, log level, number of pairs, pairs |
| Wire.ReadyBytes | proto.x:189-214 | a READY message byte by byte |
| Wire.MotionBytes | proto.x:189-214 | MOVEREL, MOVEABS and MOUSEPOS byte by byte |
| Wire.InputBytes | proto.x:189-214 | CLICKEVENT and KEYEVENT byte by byte |
| Wire.ClipboardBytes | proto.x:189-214 | GETCLIPBOARD, SETCLIPBOARD and LOGMSG byte by byte |
| Wire.SettingBytes | proto.x:189-214 | SETBRIGHTNESS and SETLOGLEVEL byte by byte |
| Stream.StepConserves | msgchan.c:54-111 | every enqueue, write callback, read callback and restart conserves: enqueued = delivered, then frames under way, then queued |
| Stream.AlwaysConserved | msgchan.c:54-111 | conservation holds in every state of every run |
| Stream.InOrderExactlyOnce | message.c:121-217 | under every fragmentation delivery is an in-order exactly-once prefix, and is complete once nothing is queued, partly sent or in the kernel |
| Stream.NeverMalformed | message.c:223-240 | a receiver fed by this sender never completes a frame it cannot parse, nor one with bytes left over |
| Stream.FirstFrame | message.c:172-175 | a complete frame at the front of a stream of frames is exactly the first message's frame |
| Stream.ReadDelivers | message.c:223-240 | a frame that becomes complete decodes to the next message that was sent |
| Stream.StepIsFifo | msgchan.c:54-111 | without the bytes, every step is none, an append, a message leaving the send queue, or the arrival of the next one sent |
| Link.Connection.Send | msgchan.c:54-67 | enqueueing on the sending channel is an enqueue step of the stream |
| Link.Connection.Write | msgchan.c:156-177 | the write callback is a write step of the stream, or a write call failed |
| Link.Connection.Read | msgchan.c:98-142 | the read callback is a read step of the stream and delivers the next message sent; it fails only if a read call did, never on a malformed frame |
| Framing.PartSend.Unparse | message.c:86-114 | the buffer holds the true body length and the body, whether or not the size estimate was exact |
| Framing.PartSend.Drain | message.c:121-143 | the bytes that left the buffer are those that entered the kernel; 1 exactly if the buffer is emptied, -1 exactly at a failed write, 0 only if a write would block; every write that moves anything counts |
| Framing.PartRecv.FillFrom | message.c:158-170 | the read loop moves bytes in order and none twice, until filled, or a call fails, would block or finds nothing |
| Framing.PartRecv.Fill | message.c:152-217 | no byte is skipped, none beyond the frame is read; 1 exactly on a complete frame, -1 exactly at a failed read or the end of the stream, 0 only if a read would block |
| Framing.PartRecv.ParseFrame | message.c:223-240 | a complete frame is decoded and the buffer emptied, or left alone if it does not decode |
| MsgChan.SendQueue.Append | msgchan.c:56-62 | head, tail, links and count stay consistent and the message is last |
| MsgChan.SendQueue.Dequeue | msgchan.c:10-24 | the oldest message comes off, or nothing if the queue is empty |
| MsgChan.Channel.Clear | msgchan.c:27-42 | queue and both partial buffers end up empty |
| MsgChan.Channel.Enqueue | msgchan.c:54-67 | the message is queued, the channel is watched for writing, and the backlog limit is reported exactly |
| MsgChan.Channel.SendMessage | msgchan.c:74-91 | sends as the stream specification says; zero exactly when there is nothing to send, negative exactly at a failed write |
| MsgChan.Channel.WriteCb | msgchan.c:156-177 | sends as the stream specification says; no lost wakeup; progress or failure only while watched; a failed write, and nothing else, closes the channel |
| MsgChan.Channel.ReadCb | msgchan.c:98-142 | at most one message, and what the bytes of one frame say; a failed read, the end of the stream or a frame that does not decode, and nothing else, closes the channel |
| MsgChan.Channel.Init | msgchan.c:180-199 | a new session starts empty, on a frame boundary and watched for input, whatever was left behind |
| MsgChan.Channel.Close | msgchan.c:202-212 | a closed channel holds nothing and watches nothing |
| Timers.StepOk | x11.c:1257-1298 | scheduling, cancelling, firing and time keep the list sorted with ties in order and every call accounted for |
| Timers.AlwaysOk | x11.c:1399-1409 | over whole runs each call is exactly one of pending, fired once and cancelled, none fires early, and deadlines fire in order |
| Timers.DueAreCalled | x11.c:1399-1409 | every call due is unlinked to be called unless a callback cancels it first, none that is not due, and the others stay unless cancelled |
| Timers.ActedMakes | x11.c:1257-1279 | each schedule act of a callback makes one call of its own, with what it asks for and that far from the clock of the moment, and nothing else is added |
| Timers.ActedCancels | x11.c:1281-1298 | each cancel act cancels a call that was pending, or that the same callback scheduled before |
| Timers.TimerQueue.ScheduleCall | x11.c:1257-1279 | adds exactly one call, with that delay and a fresh identity, in front of the first later deadline and behind equal ones |
| Timers.TimerQueue.CancelCall | x11.c:1281-1298 | removes the call and reports it exactly if it was pending |
| Timers.TimerQueue.RunScheduledCalls | x11.c:1399-1409 | by a log that only running a callback writes: one callback ran for each call that fired, in order, each doing its part; what they scheduled and cancelled is in the list and the histories, and nothing else; nothing due is left |
| Timers.TimerQueue.GetSelectTimeout | x11.c:1411-1423 | the 64-bit wait is the exact gap to the next deadline if that has not passed |
| Timers.TimerQueue.Turn | x11.c:1425-1452 | every due call's callback has run and done its part, after which the wait cannot wrap and ends exactly at the next deadline |
| FdMonitor.Monitor.Register | x11.c:1319-1342 | the new entry is first and the list stays linked both ways |
| FdMonitor.Monitor.Ref | x11.c:1367-1371 | the visit in progress is counted |
| FdMonitor.Monitor.Unref | x11.c:1344-1365 | the last reference, and only it, unlinks the entry; the list stays linked both ways |
| FdMonitor.Monitor.Unregister | x11.c:1373-1377 | the registration is dropped and both watches are cleared; an entry being visited stays in the list until its visit ends |
| FdMonitor.Monitor.Watch | x11.c:1379-1387 | adds to the watched conditions |
| FdMonitor.Monitor.Unwatch | x11.c:1389-1397 | removes from the watched conditions |
| FdMonitor.Monitor.Perform | x11.c:1319-1397 | what a callback does to the list: the entry it names, by position, is registered, dropped, or has its watches changed, and no other |
| FdMonitor.Monitor.VisitOne | x11.c:1463-1472 | by the log: the read callback is called exactly if watched for and ready, then the write callback by the flag that what the read callback did has left; each at most once; the successor is the next entry still listed |
| FdMonitor.Monitor.Dispatch | x11.c:1458-1473 | by the log, under any callbacks: each entry present at the start is visited exactly once unless unregistered during the visit of an entry before it, none registered meanwhile; each visited entry's callbacks are called exactly if ready and, by all that callbacks have done so far, watched for; each does its part of the script; none runs after its entry is unregistered; the pass ends |
| Backoff.NextReconnectDelay | main.c:248-256 | the clamped 64-bit computation never overflows and equals half a second times min(2^(failcount-1), cap) |
| Backoff.DelayMono | main.c:248-256 | the delay never shrinks as failures accumulate |
| Backoff.DelayDoubles | main.c:248-256 | half a second at first, doubled by each failure up to the cap rounded down to half seconds |
| MasterInv.EnqueueKeeps | main.c:262-266 | enqueueing on an open channel keeps the invariant, overflow included |
| MasterInv.DisconnectConn | main.c:186-215 | closing a channel empties one connection, takes focus and grab away only from that one, and schedules nothing but fades |
| MasterInv.DisconnectKeeps | main.c:850-856 | when the focused remote goes down, focus and grab revert to the master and every other remote is as before |
| MasterInv.FailFrame | main.c:231-260 | a failure closes and counts, and schedules exactly one reconnect call unless it gives up |
| MasterInv.FailKeeps | main.c:231-260 | after a failure: FAILED with exactly one reconnect call, or PERMFAILED with none, by the count; not focused; the invariant holds |
| MasterInv.BackoffScheduled | main.c:248-259 | the reconnect call of a failed remote is due exactly one backoff delay after the failure |
| MasterInv.SetupKeeps | main.c:478-547 | a fresh attempt keeps the invariant and leaves the focus |
| MasterInv.CancelKeeps | x11.c:1281-1298 | cancelling a remembered timer, live or stale, never touches a call of another remote |
| MasterInv.ReconnectFires | main.c:223-229 | a reconnect call that fires finds its remote in FAILED holding this very timer |
| MasterInv.ReconnectKeeps | main.c:825-844 | a requested reconnection keeps the invariant from any state |
| MasterInv.HaltKeeps | main.c:999-1025 | halting keeps the invariant, and a FAILED remote always has its timer set |
| MasterInv.HandleKeeps | main.c:1260-1311 | handling any message keeps the invariant; a connected remote has no failure counted |
| Focus.SwitchEffect | main.c:884-903 | with room, a switch sends exactly the hand-over messages, moves focus and grab, and changes nothing else but brightness timers |
| Focus.PressedKeys | main.c:730-738 | replaying the hand-over key events adds, or removes, exactly the held modifiers |
| Focus.SwitchKeeps | main.c:863-906 | a switch with room keeps focus, grab, lifecycle and modifiers |
| Focus.SwitchSafeExactly | main.c:884-903 | a switch ends on a live node with the right grab if and only if it goes to the master or both queues have room |
| Focus.SwitchKeepsExactly | main.c:884-903 | a switch keeps the whole invariant if and only if both queues have room, or, going home, the departing one has room for all but the last message |
| Focus.HomeOver | main.c:889-903 | going home with room for all but the last message ends in that one failure |
| Focus.SendAllExactly | main.c:312-319 | a burst keeps the invariant if and only if at most its last message is one too many |
| Focus.ClickKeepsExactly | main.c:298-320 | a click, multiplied or not, keeps the invariant if and only if the queue has room for all but its last message |
| Focus.FocusKeepsExactly | main.c:863-906 | a focus request, switching or not, keeps the invariant if and only if a switch it leads to has the room it needs |
| Focus.KeyKeeps | x11.c:943-964 | a key event forwarded to the focused remote keeps its modifiers equal to those held |
| Focus.OnFirstKeeps | main.c:988-1025 | the actions over all remotes keep the invariant |
| Focus.HaltLeavesNothing | main.c:999-1025 | halting closes and gives up every enabled remote that was connecting or waiting, keeps its other fields, and touches no other |
| Focus.BroadcastReaches | main.c:1068-1086 | clearing the clipboard reaches every enabled connected remote with room, the log level every enabled one |
| Focus.LogLevelSafeExactly | main.c:1077-1086 | stepping the log level keeps the invariant if and only if every enabled remote has an open channel |
| Sessions.SetupRenews | main.c:533-546 | a new attempt replaces one session by a fresh one that holds exactly SETUP with the current log level and parameters |
| Sessions.FireSessions | main.c:223-229 | a reconnect call replaces one session and spends one attempt; a brightness call leaves every session |
| Sessions.FocusSessions | main.c:868-887 | a focus request leaves every session, except that of an absent target, which it replaces |
| Sessions.ReconnectAllRenews | main.c:988-997 | replaces exactly the enabled sessions that are not connected, each by a fresh one with no failure counted |
| Effects.FadesScheduled | main.c:785-791 | a fade schedules exactly one call per later step, with its level and delay |
| Effects.TransitionExact | main.c:777-792 | the first level now and the later ones scheduled, to this node only |
| Effects.IndicationExact | main.c:794-819 | the node left is dimmed and the one gained lit up, or flashed: these messages and these calls |
| Effects.NullIndicationExact | main.c:876-882 | if the focus stays, only the lighting up |
| Effects.LosingFocusExact | main.c:850-856 | a focused remote that goes down gives focus and grab to the master, is remembered as the last, and the master lights up |
| Effects.SwitchFades | main.c:884-903 | a switch with room schedules exactly the fades of its indication |
| Effects.StayingExact | main.c:863-886 | a request that does not switch calls an absent target again from a failure count of zero, shows itself exactly if so configured, and changes no other connection |
| Effects.CalledAgain | main.c:825-844 | a requested reconnection begins a session with SETUP and no failure counted |
| Effects.ToFocusedExact | main.c:283-296 | pointer motion goes to the focused remote and nobody else |
| Effects.KeyExact | main.c:268-281 | every key, modifier or not, goes to the focused remote and nobody else; only a modifier changes the keys held |
| Effects.ClickContents | main.c:298-320 | one click, or as many as the multiplier says, of the opposite button if it is negative |
| Effects.ClickExact | main.c:298-320 | with room the focused remote is sent exactly these and nothing else changes |
| Effects.ReadyExact | main.c:1266-1283 | READY connects and sets the failure count to zero; the dimming it brings is one message and one fade, or fails the remote once from zero |
| Effects.OthersExact | main.c:1285-1310 | a clipboard is taken and passed on to the focused remote, log lines and positions change nothing, anything else fails the sender |
| Effects.FireExact | main.c:223-229 | a reconnect call begins a session with SETUP and forgets its timer; a brightness call tells its remote that level if it is connected |
| Effects.StartExact | main.c:1627-1628 | every enabled remote is called with SETUP, the others are left alone |
| Effects.ActionSettings | main.c:1059-1086 | clearing empties the master's clipboard, stepping sets the log level, and no action changes either otherwise |
| Effects.FireDueExact | x11.c:1399-1409 | after the timer loop a connected remote has been told the due levels in order, a failed one called again exactly if its call was due, the others left alone; no call not yet due is lost |
| Sessions.FireEnds | x11.c:1399-1409 | each call that fires takes one off the list or loses a connected remote, so the timer loop ends although callbacks schedule calls due at once |
| MasterProgram.Program.SendAll | main.c:731-737 | the sending loops on the real queue, with room for all but the last: no message goes to a closed channel |
| MasterProgram.Program.FocusNode | main.c:863-906 | on the master's objects, a request that fits keeps the invariant and reports exactly whether the focus moved |
| MasterProgram.Program.HandleMessage | main.c:1260-1311 | every message type, including the two failing branches, keeps the invariant of the objects |
| MasterProgram.Program.RunScheduledCalls | x11.c:1399-1409 | everything due is called, the loop ends, and the invariant is kept |
| MasterProgram.Program.Turn | x11.c:1425-1452 | the same, and the wait that follows ends exactly at the next deadline |
| MasterProgram.Program.SendClick | main.c:298-320 | a click that fits keeps the invariant and never sends on a closed channel |
| MasterProgram.Program.SendKey | main.c:268-281 | a key, modifier or not, is queued for the focused remote, and the invariant is kept |
| MasterProgram.Program.SendMove | main.c:283-296 | pointer motion is queued for the focused remote, and the invariant is kept |
| MasterProgram.Program.WriteReady | msgchan.c:156-177 | a writable descriptor: the bytes of the frame in progress, or of the next message, go to the kernel until they are out, a write would block or one fails; exactly if none was in progress a message leaves the queue; exactly a failed write fails the remote |
| MasterProgram.Program.ReadReady | msgchan.c:118-142 | a readable descriptor: bytes are taken in order and kept, and lead to the handling of what one frame says, to failing the remote, or to nothing |
| MasterProgram.Program.Act | main.c:988-1086 | the loops over all remotes keep the invariant and report exactly how many attempts they started or halted |
| MasterProgram.CountsExactly | main.c:988-1025 | counted are exactly the remotes for which the action begins a session or gives one up |
| MasterProgram.Program.Start | main.c:1627-1628 | a connection attempt to every enabled remote establishes the invariant |
| RemoteProgram.Process.Log | main.c:167-184 | log lines are queued in order without a look at the backlog |
| RemoteProgram.Process.Answer | remote.c:22-29 | a reply that exceeds the backlog ends the remote |
| RemoteProgram.Process.Handle | remote.c:118-130 | on the remote's channel: before SETUP anything else ends the remote, afterwards exactly the types it handles keep it alive, and it queues the replies of the system model |
| System.HandlingAgrees | remote.c:31-130 | a remote that handles the expected message keeps agreeing with the master about the session |
| System.HandlingExact | remote.c:31-80 | a set-up remote answers motion with the pointer's position and a request with its clipboard, and changes nothing that the message does not ask for |
| System.SetupExact | remote.c:82-116 | SETUP of this version is answered with READY and the screen; anything else ends the remote |
| System.ExpectedByRemote | remote.c:82-130 | a live remote's next message is SETUP until initialised and one it handles afterwards |
| System.ExpectedByMaster | main.c:1266-1310 | the master's next message is one it handles, and READY only while setting up |
| System.StepKeeps | main.c:1260-1311 | every event that fits keeps the whole invariant |
| System.StepKeepsExactly | main.c:863-906 | whatever happens, the whole invariant is kept if and only if the event fits |
| Runs.AlwaysInv | main.c:1624-1632 | the invariant holds in every state of every run from start-up |
| Runs.HandshakeSafe | remote.c:31-130 | in every interleaving no side meets an unexpected message, and CONNECTED implies that SETUP was processed |
| Runs.RepliesMatch | remote.c:36-60 | each MOVEREL handled has been answered by one MOUSEPOS, each GETCLIPBOARD by one SETCLIPBOARD, SETUP by one READY |
| Runs.FocusSafe | main.c:186-215 | the focused node is always the master or a connected remote, and inputs are grabbed exactly for a remote |
| Runs.LifecycleSafe | main.c:223-260 | channel open exactly in SETTINGUP and CONNECTED; exactly one reconnect call in FAILED and none otherwise; bounded counts; sorted timers |
| Runs.NoStuckModifiers | main.c:725-739 | the focused remote has been told of exactly the held modifiers, every other one of none; likewise for keys down once it has caught up |
| Runs.AttemptSpends | main.c:231-246 | short of a reset, an attempt spends one of the attempts left and nothing adds to them |
| Runs.BoundedRetries | main.c:231-246 | from a reset at most max_tries automatic attempts follow; PERMFAILED is left only on the user's wish |
| Runs.ReadyResets | main.c:1267-1273 | a step that receives READY leaves a connected remote with no failure counted, or one failed by its own brightness message with one |
| Runs.WishResets | main.c:825-844 | a wish to call an absent remote begins a session with no failure counted |
| Runs.BoundedAfterReset | main.c:231-246 | after either at most max_tries automatic attempts follow until the next, and that many are left |
| Limits.SwitchOntoFailed | main.c:892-903 | a run after which a switch ends on a remote that is down |
| Limits.HomeOnClosed | main.c:892-903 | a run after which a switch home queues GETCLIPBOARD on a closed channel |
| Limits.BurstOnClosed | main.c:312-319 | a run after which one turn of the wheel queues a click on a closed channel |
| Limits.LogLevelOnFailed | main.c:1077-1086 | a run after which stepping the log level queues a message on a closed channel |
| Handoff.SwitchStarts | main.c:712-723 | a switch from a quiet state puts exactly one clipboard message under way |
| Handoff.StepMoves | main.c:1286-1290 | every event of the system keeps that message where it is or moves it to the next leg |
| Handoff.ClipboardFollowsFocus | remote.c:56-64 | once no clipboard message is under way, the node that gained the focus has the other's clipboard; master to remote, remote to master, remote to remote |
| Edges.EdgeState.Record | main.c:1108-1117 | the ring holds the last eight of an alternating history; an event that would break the alternation is refused |
| Edges.EdgeState.HistoryEntry | main.c:1119-1127 | the k-th entry back in the ring is the k-th event back in the history |
| Edges.InSync | main.c:1237-1252 | over every sequence of pointer positions an edge's history alternates and ends with an arrival exactly while its bit is set |
| Edges.BackToArrivals | main.c:1189-1197 | counting back two at a time from an arrival meets exactly the arrivals |
| Edges.EdgeState.Trigger | main.c:1176-1209 | a switch is attempted exactly when the gesture is complete by the whole history |
| Edges.IntendedExactly | main.c:1197-1200 | the decision is the intended one if and only if enough arrivals exist or the clock is past the window |
| Edges.EarlyTap | main.c:1197-1200 | an input for which it is not |
| Edges.EdgeNode.CheckEdgeEvents | main.c:1227-1253 | mask and histories stay in agreement, no event is out of sync, each edge records exactly the changes of its bit, and the attempts are the completed gestures in order |
| Topology.Graph.ApplyLink | main.c:603-617 | writes the two sides a link names and nothing else |
| Topology.Graph.ApplyTopology | main.c:625-637 | each side gets the last enabled link that names it |
| Topology.LastLinkWins | main.c:603-637 | the last enabled link that names a side leads it to the link's other end; a side that none names leads nowhere |
| Topology.NeighboursEnabled | main.c:633-635 | only enabled nodes are neighbours or have any |
| Topology.Graph.MarkReachable | main.c:668-683 | marks only what the node leads to, closes what it marks under links, and terminates |
| Topology.MarkedExactly | main.c:685-692 | marks that are closed and justified are exactly what paths from the master lead to |
| Topology.Graph.CheckRemotes | main.c:685-692 | a remote is marked if and only if a path of links leads to it from the master; every marked remote is enabled |
| KvMap.Map.Get | kvmap.c:50-60 | the lookup of the mathematical map |
| KvMap.Map.Put | kvmap.c:66-84 | one map update, keys staying unique |
| KvMap.Map.Flatten | misc.c:94-117 | all pairs in list order |
| KvMap.Unflatten | misc.c:120-129 | later pairs win; unique pairs come out reversed |
| KvMap.RoundTrip | misc.c:94-129 | a map sent through SETUP answers every lookup as before |

## Left out

- The X11 and macOS platform code: clipboard, grab and pointer are cells of the model; the macOS event loop delegates to a system library.
- Spawning ssh, ssh-agent handling, argument building, signals, logging and file-permission checks.
- Lexing and parsing the configuration, and resolving node names; only the ranges the parser enforces are used.
- Keycode tables, gamma interpolation and pointer repositioning arithmetic; brightness levels and delays are given as tables, since only float rounding decides them.
- Wiping and freeing memory, and failing allocations; a length descriptor of zero is taken to allocate successfully.
- Shutdown on the quit action and on signals.
- What sending on a closed channel does to freed memory: the model records the message on the closed channel and stops claiming anything.
- The pointers that link the timer list: the list is a sequence of calls.
- A remote process of an ended session, which may still handle what it had received before it notices.
- The clamping of a stepped log level: the action names the level that is reached.
- What a remote's platform does with motion, clicks, keys and brightness, beyond the modifier keys it has been told.
- Mouse-driven switches follow the delivery of a MOUSEPOS message as separate events instead of within it.
- Edges.EdgeNode.CheckEdgeEvents: the edge mask is a set of directions instead of a bit mask.
- Runs.FocusSafe: assumes of each event what System.StepKeepsExactly shows to be necessary.
