/**
 What the handlers of a TCP connection do, as functions on the connection's abstract state: the
 bytes waiting in the output buffer and the length of its memory, the bytes on the wire, the
 interest in events, and a log of what its handler and socket were asked to do. What the kernel
 answers, whether memory is granted, and what happens during a callback are inputs.
 */
module ConnectionSpec {
  import opened Base
  import opened Growth

  datatype TcpState = Connecting | Connected | Disconnecting | Disconnected

  function Rank(s: TcpState): nat {
    match s
    case Connecting => 0
    case Connected => 1
    case Disconnecting => 2
    case Disconnected => 3
  }

  /** Closing has begun; from here on there is no way back to open. */
  predicate Closing(s: TcpState) {
    s == Disconnecting || s == Disconnected
  }

  /** The event bits a selector can report for a socket. */
  datatype Ready = Ready(input: bool, prior: bool, readHangUp: bool, output: bool, error: bool, hangUp: bool)

  /** What is submitted to the loop; a foreign task is another owner's, whose code may call the connection. */
  datatype Task =
    | StartTask
    | SendTask(sender: Tid, msg: Bytes)
    | EventTask(ready: Ready)
    | CloseTask
    | ShutdownTask(closeRead: bool)
    | ForceShutdownTask
    | RemoveTask
    | ForeignTask

  /**
   What is called on the connection, by code on the loop or by another thread at that time. The two
   forced calls first check the state and later store a new one, and calls of other threads may fall
   in between, so each is two entries here. Inputs say whether memory is granted, and whether the
   kernel still knows the peer's address, which is looked up whenever the connection is printed.
   */
  datatype Call =
    | CallSend(msg: Bytes, granted: bool, named: bool)
    | CallClose
    | CallShutdown(closeRead: bool)
    | CheckForceShutdown
    | StoreForceShutdown
    | CheckForceClose(named: bool)
    | StoreForceClose

  /** How many forced calls are past their check and before their store. */
  datatype Checked = Checked(shuts: nat, closes: nat)

  /**
   What happened to the state: the values it had, whether one was stored over the last of them, and
   how many closing tasks found bytes waiting and told nobody. No handler looks at it.
   */
  datatype Past = Past(trail: seq<TcpState>, overtaken: bool, unheard: nat)

  datatype Effect =
    | OnConnect
    | OnRead(bytes: Bytes)
    | OnWriteComplete
    | OnError
    | OnClose
    | SocketShutdown(closeRead: bool)
    | ContextCleared

  /** An accepted message and the thread it was sent from; none for sends made on the loop itself. */
  datatype Accepted = Accepted(sender: Option<Tid>, msg: Bytes)

  datatype Conn = Conn(
    state: TcpState,
    output: Bytes,
    capacity: nat,
    wire: Bytes,
    accepted: seq<Accepted>,
    registered: bool,
    readable: bool,
    writable: bool,
    shut: bool,
    log: seq<Effect>,
    submitted: seq<Task>,
    exited: bool,
    checked: Checked,
    past: Past)

  const FRESH := Conn(Connecting, [], 16384, [], [], false, false, false, false, [], [], false,
                      Checked(0, 0), Past([Connecting], false, 0))

  /** What a read from the socket came to; no bytes means the peer has closed. */
  datatype ReadOutcome = WouldBlock | ReadFailed | Received(bytes: Bytes)

  /** What a write to the socket came to: it never takes more than it was given; `SIGPIPE` may end the process. */
  datatype WriteOutcome = WriteFailed | WriteKilled | Wrote(n: nat)

  /**
   What the kernel does while one task runs, what is called during its callbacks, and what other
   threads call between the check and the store of `handleClose`, on end of file and on a hang-up.
   */
  datatype Env = Env(
    granted: bool,
    named: bool,
    shutOk: bool,
    read: ReadOutcome,
    write: WriteOutcome,
    onConnect: seq<Call>,
    onRead: seq<Call>,
    onReadError: seq<Call>,
    onWriteError: seq<Call>,
    onWriteComplete: seq<Call>,
    onError: seq<Call>,
    onClose: seq<Call>,
    onForeign: seq<Call>,
    gapRead: seq<Call>,
    gapHangUp: seq<Call>)

  function Log(c: Conn, e: Effect): Conn {
    c.(log := c.log + [e])
  }

  function Submit(c: Conn, t: Task): Conn {
    c.(submitted := c.submitted + [t])
  }

  /** Every change of the state; one that falls on the last state comes too late. */
  function Moved(c: Conn, s: TcpState): Conn {
    var past := c.past.(trail := c.past.trail + [s], overtaken := c.past.overtaken || c.state == Disconnected);
    c.(state := s, past := past)
  }

  /** Printing the connection ends the process when the peer's address is no longer known. */
  function Printed(c: Conn, named: bool): Conn {
    if named then c else c.(exited := true)
  }

  // ---------- calls that any thread may make ----------

  /** Queue a message for writing; it is dropped unless connected. Running out of memory is fatal. */
  function HandleSend(c: Conn, sender: Option<Tid>, msg: Bytes, granted: bool, named: bool): Conn {
    if c.exited then c
    else if c.state != Connected then Printed(c, named)
    else if msg == [] then c
    else if (|c.output| + |msg| > c.capacity && !granted) || !c.registered then c.(exited := true)
    else c.(output := c.output + msg, capacity := LengthAfter(c.capacity, |c.output|, |msg|),
            accepted := c.accepted + [Accepted(sender, msg)], writable := true)
  }

  function Close(c: Conn): Conn {
    if c.exited || c.state != Connected then c else Submit(Moved(c, Disconnected), CloseTask)
  }

  function Shutdown(c: Conn, closeRead: bool): Conn {
    if c.exited || c.state != Connected then c else Submit(Moved(c, Disconnecting), ShutdownTask(closeRead))
  }

  function OneShutLess(c: Conn): Conn
    requires c.checked.shuts > 0
  {
    c.(checked := c.checked.(shuts := c.checked.shuts - 1))
  }

  function OneCloseLess(c: Conn): Conn
    requires c.checked.closes > 0
  {
    c.(checked := c.checked.(closes := c.checked.closes - 1))
  }

  function CheckShut(c: Conn): Conn {
    if c.exited || c.state == Disconnected then c else c.(checked := c.checked.(shuts := c.checked.shuts + 1))
  }

  function StoreShut(c: Conn): Conn {
    if c.exited || c.checked.shuts == 0 then c
    else Submit(Moved(OneShutLess(c), Disconnecting), ForceShutdownTask)
  }

  function CheckClose(c: Conn, named: bool): Conn {
    if c.exited then c
    else if !named then c.(exited := true)
    else if c.state == Disconnected then c
    else c.(checked := c.checked.(closes := c.checked.closes + 1))
  }

  function StoreClose(c: Conn): Conn {
    if c.exited || c.checked.closes == 0 then c
    else Submit(Moved(OneCloseLess(c), Disconnected), RemoveTask)
  }

  function RunCall(c: Conn, call: Call): Conn {
    match call
    case CallSend(msg, granted, named) => HandleSend(c, None, msg, granted, named)
    case CallClose => Close(c)
    case CallShutdown(closeRead) => Shutdown(c, closeRead)
    case CheckForceShutdown => CheckShut(c)
    case StoreForceShutdown => StoreShut(c)
    case CheckForceClose(named) => CheckClose(c, named)
    case StoreForceClose => StoreClose(c)
  }

  function RunCalls(c: Conn, calls: seq<Call>): Conn
    decreases |calls|
  {
    if calls == [] then c else RunCalls(RunCall(c, calls[0]), calls[1..])
  }

  /** A callback: logged, then whatever is called meanwhile. */
  function Callback(c: Conn, e: Effect, calls: seq<Call>): Conn {
    if c.exited then c else RunCalls(Log(c, e), calls)
  }

  // ---------- handlers on the loop ----------

  /** Changing the interest of a channel that was never added exits the process. */
  function SetWritable(c: Conn, on: bool): Conn {
    if c.exited then c
    else if c.writable != on && !c.registered then c.(exited := true)
    else c.(writable := on)
  }

  /** `shutdown(2)` on the socket; being refused is fatal. */
  function SocketShut(c: Conn, closeRead: bool, ok: bool): Conn {
    if c.exited then c
    else if !ok then c.(exited := true)
    else Log(c.(shut := true), SocketShutdown(closeRead))
  }

  /** `gap` is what other threads call between the check and the store. */
  function HandleClose(c: Conn, named: bool, gap: seq<Call>): Conn {
    if c.exited || c.state == Disconnected then c
    else if !named then c.(exited := true)
    else DisconnectNow(RunCalls(c, gap))
  }

  function DisconnectNow(c: Conn): Conn {
    if c.exited then c else Submit(Moved(c, Disconnected), RemoveTask)
  }

  function HandleRead(c: Conn, env: Env): Conn {
    if c.exited then c
    else match env.read
      case WouldBlock => c
      case ReadFailed => Callback(c, OnError, env.onReadError)
      case Received(bytes) =>
        if bytes == [] then HandleClose(c, env.named, env.gapRead) else Callback(c, OnRead(bytes), env.onRead)
  }

  /** All written: drop the interest, tell the handler, and finish a graceful shutdown. */
  function FinishWrite(c: Conn, env: Env): Conn {
    var c1 := Callback(SetWritable(c, false), OnWriteComplete, env.onWriteComplete);
    if c1.state == Disconnecting then SocketShut(c1, false, env.shutOk) else c1
  }

  /** A socket that has been shut down takes nothing any more. */
  function WriteAnswer(shut: bool, write: WriteOutcome): WriteOutcome {
    if shut && write.Wrote? then WriteFailed else write
  }

  /** The first `k` waiting bytes, or all of them, go onto the wire. */
  function Written(c: Conn, k: nat): Conn {
    var n := if k < |c.output| then k else |c.output|;
    c.(wire := c.wire + c.output[..n], output := c.output[n..])
  }

  function HandleWrite(c: Conn, env: Env): Conn {
    if c.exited then c
    else if !c.writable then c.(exited := true)
    else if c.output == [] then FinishWrite(c, env)
    else match WriteAnswer(c.shut, env.write)
      case WriteFailed => Callback(c, OnError, env.onWriteError)
      case WriteKilled => c.(exited := true)
      case Wrote(k) =>
        var c1 := Written(c, k);
        if c1.output == [] then FinishWrite(c1, env) else c1
  }

  function HandleRemove(c: Conn, env: Env): Conn {
    if c.exited then c
    else if c.state != Disconnected then c.(exited := true)
    else
      var c1 := Callback(c, OnClose, env.onClose);
      if c1.exited then c1 else Log(c1, ContextCleared)
  }

  function ReadPart(c: Conn, ready: Ready, env: Env): Conn {
    if ready.input || ready.prior || ready.readHangUp then HandleRead(c, env) else c
  }

  function WritePart(c: Conn, ready: Ready, env: Env): Conn {
    if ready.output then HandleWrite(c, env) else c
  }

  function ErrorPart(c: Conn, ready: Ready, env: Env): Conn {
    if ready.error then Callback(c, OnError, env.onError) else c
  }

  function HangUpPart(c: Conn, ready: Ready, env: Env): Conn {
    if ready.hangUp && !ready.input then HandleClose(c, env.named, env.gapHangUp) else c
  }

  /** A readiness report: read, then write, then errors, then a hang-up with nothing to read. */
  function HandleEvents(c: Conn, ready: Ready, env: Env): Conn {
    HangUpPart(ErrorPart(WritePart(ReadPart(c, ready, env), ready, env), ready, env), ready, env)
  }

  function HandleStart(c: Conn, env: Env): Conn {
    if c.exited then c
    else
      var c1 := Printed(c.(registered := true), env.named);
      if c1.exited || c1.state != Connecting then c1
      else
        var c2 := Callback(Moved(c1, Connected), OnConnect, env.onConnect);
        if c2.exited then c2 else c2.(readable := true)
  }

  /** What `Shutdown` and `ForceShutdown` submit, once they get to it. */
  function ShutNow(c: Conn, closeRead: bool, env: Env): Conn {
    if c.exited then c else SocketShut(SetWritable(Printed(c, env.named), false), closeRead, env.shutOk)
  }

  /** The close task finds bytes waiting and does nothing. */
  function Unheard(c: Conn): Conn {
    c.(past := c.past.(unheard := c.past.unheard + 1))
  }

  function RunTask(c: Conn, task: Task, env: Env): Conn {
    if c.exited then c
    else match task
      case StartTask => HandleStart(c, env)
      case SendTask(sender, msg) => HandleSend(c, Some(sender), msg, env.granted, env.named)
      case EventTask(ready) => HandleEvents(c, ready, env)
      case CloseTask => if c.output == [] then HandleRemove(c, env) else Unheard(c)
      case ShutdownTask(closeRead) => if c.output == [] then ShutNow(c, closeRead, env) else c
      case ForceShutdownTask => ShutNow(c, false, env)
      case RemoveTask => HandleRemove(c, env)
      case ForeignTask => RunCalls(c, env.onForeign)
  }
}
