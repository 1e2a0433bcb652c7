/**
 `TcpConnection` over its buffers, channel and selector. Every method does to the real fields what
 the function of the same name in `ConnectionSpec` does to the abstract state.
 */
module TcpConnectionModel {
  import opened Base
  import opened Growth
  import opened BufferModel
  import opened FileRead
  import opened Interest
  import opened ConnectionSpec
  import Spec = ConnectionSpec
  import CR = ConnectionRuns

  const RW_UNIT: nat := 16384

  /** Bytes a callback asks to send. */
  function Volume(calls: seq<Call>): nat
    decreases |calls|
  {
    if calls == [] then 0
    else (if calls[0].CallSend? then |calls[0].msg| else 0) + Volume(calls[1..])
  }

  /** Bytes all the callbacks of one task ask to send. */
  function VolumeOf(env: Env): nat {
    Volume(env.onConnect) + Volume(env.onRead) + Volume(env.onReadError) + Volume(env.onWriteError)
    + Volume(env.onWriteComplete) + Volume(env.onError) + Volume(env.onClose) + Volume(env.onForeign)
    + Volume(env.gapRead) + Volume(env.gapHangUp)
  }

  lemma {:induction false} CallsVolume(c: Conn, calls: seq<Call>)
    ensures |Spec.RunCalls(c, calls).output| <= |c.output| + Volume(calls)
    decreases |calls|
  {
    if calls != [] { CallsVolume(Spec.RunCall(c, calls[0]), calls[1..]); }
  }

  lemma CallbackVolume(c: Conn, e: Effect, calls: seq<Call>)
    ensures |Spec.Callback(c, e, calls).output| <= |c.output| + Volume(calls)
  {
    CallsVolume(Log(c, e), calls);
  }

  lemma ReadVolume(c: Conn, env: Env)
    ensures |Spec.HandleRead(c, env).output| <=
            |c.output| + Volume(env.onRead) + Volume(env.onReadError) + Volume(env.gapRead)
  {
    CallsVolume(c, env.gapRead);
    if env.read.Received? { CallbackVolume(c, OnRead(env.read.bytes), env.onRead); }
    CallbackVolume(c, OnError, env.onReadError);
  }

  lemma WriteVolume(c: Conn, env: Env)
    ensures |Spec.HandleWrite(c, env).output| <= |c.output| + Volume(env.onWriteError) + Volume(env.onWriteComplete)
  {
    CallbackVolume(c, OnError, env.onWriteError);
    if env.write.Wrote? {
      CallbackVolume(Spec.SetWritable(Written(c, env.write.n), false), OnWriteComplete, env.onWriteComplete);
    }
    CallbackVolume(Spec.SetWritable(c, false), OnWriteComplete, env.onWriteComplete);
  }

  class TcpConnection {
    var state: TcpState
    const output: Buffer
    const input: Buffer
    const channel: SocketChannel
    /** Where the input buffer's memory lies, and the page size as a power of two. */
    const inputAddress: nat
    const pageBits: nat
    /** What has been handed to the loop's queue. */
    var submitted: seq<Task>
    /** The process has ended; nothing runs any more. */
    var exited: bool
    /** Forced calls of any thread between their check and their store. */
    var checked: Checked
    ghost var past: Past
    /** The kernel's side: the socket has been shut down. */
    var shut: bool
    /** The handler's context still points here. */
    var inContext: bool
    ghost var wire: Bytes
    ghost var accepted: seq<Accepted>
    ghost var log: seq<Effect>

    ghost function Repr(): set<object>
      reads this, output, input
    {
      {this, output, output.data, input, input.data, channel, channel.selector}
    }

    ghost predicate Apart()
      reads this, output, input
    {
      && output != input && output.data != input.data
      && pageBits <= 63 && inputAddress + input.data.Length + Pow2(pageBits) < WORD
    }

    /** The output buffer never keeps read bytes, so it may always grow; the input buffer is empty between events. */
    ghost predicate Valid()
      reads Repr()
    {
      && Apart()
      && output.Valid() && output.r == 0
      && input.Valid() && input.r == input.w == 0 && input.data.Length >= RW_UNIT
      && channel.InSync() && channel.attached
      && (inContext <==> ContextCleared !in log)
      && (channel.fd !in channel.selector.registerMap ==> channel.events == NONE_EVENT && state != Connected)
    }

    ghost function View(): Conn
      reads Repr()
      requires Valid()
    {
      Conn(state, output.Contents(), output.data.Length, wire, accepted, channel.fd in channel.selector.registerMap,
           channel.Readable(), channel.Writable(), shut, log, submitted, exited, checked, past)
    }

    /**
     A report may come exactly for the bits that the kernel's mask for the socket has: 1 and 2 for data,
     4 for room to write; the bit of a read hang-up, 0x2000, is never asked for.
     */
    lemma ReportedByKernel(ready: Ready)
      requires Valid()
      ensures CR.Reported(View(), ready) <==>
              && channel.fd in channel.selector.kernel
              && var mask := channel.selector.kernel[channel.fd];
                 && (ready.input ==> mask & 0x1 != 0) && (ready.prior ==> mask & 0x2 != 0)
                 && (ready.readHangUp ==> mask & 0x2000 != 0) && (ready.output ==> mask & 0x4 != 0)
    {
      BitsOfShape(channel.events);
    }

    constructor (fd: Fd, selector: EpollSelector, inputAddress: nat, pageBits: nat)
      requires selector.Valid() && fd !in selector.registerMap
      requires pageBits <= 63 && inputAddress + RW_UNIT + Pow2(pageBits) < WORD
      ensures Valid() && fresh(Repr() - {selector}) && channel.selector == selector && channel.fd == fd
      ensures View() == FRESH
    {
      state := Connecting;
      var o := new Buffer.Sized(RW_UNIT);
      var i := new Buffer.Sized(RW_UNIT);
      var ch := new SocketChannel(fd, selector);
      output, input, channel := o, i, ch;
      this.inputAddress, this.pageBits := inputAddress, pageBits;
      submitted, exited, shut, inContext := [], false, false, true;
      wire, accepted, log, checked, past := [], [], [], Checked(0, 0), Past([Connecting], false, 0);
      ch.SetSelector();
    }

    // ---------- calls from any thread ----------

    /** Writing the connection into the log looks up the peer's address. */
    method Print(named: bool)
      requires Valid()
      modifies this`exited
      ensures Valid() && View() == Printed(old(View()), named)
    {
      if !named {
        exited := true;
      }
    }

    /** Queue the bytes in the output buffer. */
    method Store(ghost sender: Option<Tid>, msg: Bytes, granted: bool) returns (ok: bool)
      requires Valid() && |output.Contents()| + |msg| <= HALF_WORD
      modifies output, output.data, this`accepted
      ensures Valid() && fresh(Repr() - old(Repr()))
      ensures ok <==> |old(output.Contents())| + |msg| <= old(output.data.Length) || granted
      ensures var c := old(View());
              var c' := c.(output := c.output + msg, accepted := c.accepted + [Accepted(sender, msg)],
                           capacity := LengthAfter(c.capacity, |c.output|, |msg|));
              View() == if ok then c' else c
    {
      var left := output.AppendUnread(msg, granted);
      ok := left == |msg|;
      if ok {
        accepted := accepted + [Accepted(sender, msg)];
      }
    }

    method WantWrites()
      requires Valid() && !exited && channel.fd in channel.selector.registerMap
      modifies Repr()
      ensures Valid() && Repr() == old(Repr())
      ensures View() == old(View()).(writable := true)
      ensures channel.selector.registerMap.Keys == old(channel.selector.registerMap.Keys)
    {
      exited := channel.SetWritable(true);
    }

    method Accept(ghost sender: Option<Tid>, msg: Bytes, granted: bool)
      requires Valid() && |output.Contents()| + |msg| <= HALF_WORD && !exited && state == Connected && |msg| > 0
      modifies Repr()
      ensures Valid() && fresh(Repr() - old(Repr()))
      ensures View() == Spec.HandleSend(old(View()), sender, msg, granted, true)
      ensures channel.selector.registerMap.Keys == old(channel.selector.registerMap.Keys)
    {
      var ok := Store(sender, msg, granted);
      if !ok {
        exited := true;
        return;
      }
      WantWrites();
    }

    method HandleSend(ghost sender: Option<Tid>, msg: Bytes, granted: bool, named: bool)
      requires Valid() && |output.Contents()| + |msg| <= HALF_WORD
      modifies Repr()
      ensures Valid() && fresh(Repr() - old(Repr()))
      ensures View() == Spec.HandleSend(old(View()), sender, msg, granted, named)
      ensures channel.selector.registerMap.Keys == old(channel.selector.registerMap.Keys)
    {
      if exited {
        return;
      }
      if state != Connected {
        Print(named);
        return;
      }
      if |msg| > 0 {
        Accept(sender, msg, granted);
      }
    }

    method Move(s: TcpState)
      requires Valid() && (s == Connected ==> channel.fd in channel.selector.registerMap)
      modifies this`state, this`past
      ensures Valid() && View() == Moved(old(View()), s)
    {
      past := past.(trail := past.trail + [s], overtaken := past.overtaken || state == Disconnected);
      state := s;
    }

    method Close()
      requires Valid()
      modifies this`state, this`past, this`submitted
      ensures Valid() && View() == Spec.Close(old(View()))
    {
      if exited || state != Connected {
        return;
      }
      Move(Disconnected);
      submitted := submitted + [CloseTask];
    }

    method Shutdown(closeRead: bool)
      requires Valid()
      modifies this`state, this`past, this`submitted
      ensures Valid() && View() == Spec.Shutdown(old(View()), closeRead)
    {
      if exited || state != Connected {
        return;
      }
      Move(Disconnecting);
      submitted := submitted + [ShutdownTask(closeRead)];
    }

    /** `ForceShutdown` up to its check. */
    method CheckShut()
      requires Valid()
      modifies this`checked
      ensures Valid() && View() == Spec.CheckShut(old(View()))
    {
      if exited || state == Disconnected {
        return;
      }
      checked := checked.(shuts := checked.shuts + 1);
    }

    /** The rest of a `ForceShutdown` whose check has passed. */
    method StoreShut()
      requires Valid()
      modifies this`state, this`past, this`submitted, this`checked
      ensures Valid() && View() == Spec.StoreShut(old(View()))
    {
      if exited || checked.shuts == 0 {
        return;
      }
      checked := checked.(shuts := checked.shuts - 1);
      Move(Disconnecting);
      submitted := submitted + [ForceShutdownTask];
    }

    /** `ForceClose` up to its check. */
    method CheckClose(named: bool)
      requires Valid()
      modifies this`checked, this`exited
      ensures Valid() && View() == Spec.CheckClose(old(View()), named)
    {
      exited := exited || !named;
      if exited || state == Disconnected {
        return;
      }
      checked := checked.(closes := checked.closes + 1);
    }

    /** The rest of a `ForceClose` whose check has passed. */
    method StoreClose()
      requires Valid()
      modifies this`state, this`past, this`submitted, this`checked
      ensures Valid() && View() == Spec.StoreClose(old(View()))
    {
      if exited || checked.closes == 0 {
        return;
      }
      checked := checked.(closes := checked.closes - 1);
      Move(Disconnected);
      submitted := submitted + [RemoveTask];
    }

    method RunCall(call: Call)
      requires Valid() && |output.Contents()| + Volume([call]) <= HALF_WORD
      modifies Repr()
      ensures Valid() && fresh(Repr() - old(Repr()))
      ensures View() == Spec.RunCall(old(View()), call)
      ensures channel.selector.registerMap.Keys == old(channel.selector.registerMap.Keys)
      ensures |output.Contents()| <= |old(output.Contents())| + Volume([call])
    {
      match call
      case CallSend(msg, granted, named) => HandleSend(None, msg, granted, named);
      case CallClose => Close();
      case CallShutdown(closeRead) => Shutdown(closeRead);
      case CheckForceShutdown => CheckShut();
      case StoreForceShutdown => StoreShut();
      case CheckForceClose(named) => CheckClose(named);
      case StoreForceClose => StoreClose();
    }

    /** What the handler and other threads call while a callback runs. */
    method RunCalls(calls: seq<Call>)
      requires Valid() && |output.Contents()| + Volume(calls) <= HALF_WORD
      modifies Repr()
      ensures Valid() && fresh(Repr() - old(Repr()))
      ensures View() == Spec.RunCalls(old(View()), calls)
      ensures channel.selector.registerMap.Keys == old(channel.selector.registerMap.Keys)
    {
      var i := 0;
      while i < |calls|
        invariant 0 <= i <= |calls|
        invariant Valid() && fresh(Repr() - old(Repr()))
        invariant channel.selector.registerMap.Keys == old(channel.selector.registerMap.Keys)
        invariant |output.Contents()| + Volume(calls[i..]) <= HALF_WORD
        invariant Spec.RunCalls(View(), calls[i..]) == Spec.RunCalls(old(View()), calls)
      {
        assert calls[i..][0] == calls[i] && calls[i..][1..] == calls[i + 1..];
        RunCall(calls[i]);
        i := i + 1;
      }
    }

    method Callback(ghost e: Effect, calls: seq<Call>)
      requires Valid() && e != ContextCleared && |output.Contents()| + Volume(calls) <= HALF_WORD
      modifies Repr()
      ensures Valid() && fresh(Repr() - old(Repr()))
      ensures View() == Spec.Callback(old(View()), e, calls)
      ensures channel.selector.registerMap.Keys == old(channel.selector.registerMap.Keys)
    {
      if exited {
        return;
      }
      log := log + [e];
      RunCalls(calls);
    }

    // ---------- handlers on the loop ----------

    method DropWriteInterest()
      requires Valid()
      modifies Repr()
      ensures Valid() && Repr() == old(Repr())
      ensures View() == Spec.SetWritable(old(View()), false)
    {
      if exited {
        return;
      }
      exited := channel.SetWritable(false);
    }

    method SocketShut(ghost closeRead: bool, ok: bool)
      requires Valid()
      modifies this`log, this`shut, this`exited
      ensures Valid() && View() == Spec.SocketShut(old(View()), closeRead, ok)
    {
      if exited {
        return;
      }
      if !ok {
        exited := true;
        return;
      }
      shut := true;
      log := log + [SocketShutdown(closeRead)];
    }

    /** `gap` is what other threads call between the check and the store. */
    method HandleClose(named: bool, gap: seq<Call>)
      requires Valid() && |output.Contents()| + Volume(gap) <= HALF_WORD
      modifies Repr()
      ensures Valid() && fresh(Repr() - old(Repr()))
      ensures View() == Spec.HandleClose(old(View()), named, gap)
    {
      if exited || state == Disconnected {
        return;
      }
      if !named {
        exited := true;
        return;
      }
      RunCalls(gap);
      DisconnectNow();
    }

    method DisconnectNow()
      requires Valid()
      modifies this`state, this`past, this`submitted
      ensures Valid() && View() == Spec.DisconnectNow(old(View()))
    {
      if exited {
        return;
      }
      Move(Disconnected);
      submitted := submitted + [RemoveTask];
    }

    method HandleRemove(env: Env)
      requires Valid() && |output.Contents()| + Volume(env.onClose) <= HALF_WORD
      modifies Repr()
      ensures Valid() && fresh(Repr() - old(Repr()))
      ensures View() == Spec.HandleRemove(old(View()), env)
    {
      if exited {
        return;
      }
      if state != Disconnected {
        exited := true;
        return;
      }
      Callback(OnClose, env.onClose);
      if !exited {
        ClearContext();
      }
    }

    method ClearContext()
      requires Valid()
      modifies this`inContext, this`log
      ensures Valid() && View() == Spec.Log(old(View()), ContextCleared)
    {
      inContext := false;
      log := log + [ContextCleared];
    }

    /** Read what the socket has, up to the unit, into the empty input buffer; answer what `Append` answers. */
    method Receive(read: ReadOutcome) returns (n: int)
      requires Valid() && (read.Received? ==> |read.bytes| <= RW_UNIT)
      modifies input, input.data
      ensures Apart() && input.Valid() && input.r == 0 && input.data == old(input.data)
      ensures n == (if read.Received? then |read.bytes| else -1)
      ensures input.Contents() == (if read.Received? then read.bytes else [])
    {
      var bytes, got := [], -1;
      if read.Received? {
        bytes, got := read.bytes, |read.bytes|;
      }
      n := AppendFile(input, bytes, -1, RW_UNIT, got, inputAddress, pageBits, false, false, true);
    }

    method HandleRead(env: Env)
      requires Valid() && (env.read.Received? ==> |env.read.bytes| <= RW_UNIT)
      requires |output.Contents()| + Volume(env.onRead) + Volume(env.onReadError) + Volume(env.gapRead) <= HALF_WORD
      modifies Repr()
      ensures Valid() && fresh(Repr() - old(Repr()))
      ensures View() == Spec.HandleRead(old(View()), env)
    {
      if exited {
        return;
      }
      var n := Receive(env.read);
      ghost var got := input.Contents();
      // the handler gets the input buffer; whatever it leaves there is dropped
      input.Reset();
      Dispatch(n, got, env);
    }

    /** What follows from the answer `n` of the read; `got` are the bytes read. */
    method Dispatch(n: int, ghost got: Bytes, env: Env)
      requires Valid() && !exited
      requires |output.Contents()| + Volume(env.onRead) + Volume(env.onReadError) + Volume(env.gapRead) <= HALF_WORD
      requires n == (if env.read.Received? then |env.read.bytes| else -1)
      requires env.read.Received? ==> got == env.read.bytes
      modifies Repr()
      ensures Valid() && fresh(Repr() - old(Repr()))
      ensures View() == Spec.HandleRead(old(View()), env)
    {
      if n < 0 {
        if env.read.ReadFailed? {
          Callback(OnError, env.onReadError);
        }
      } else if n == 0 {
        HandleClose(env.named, env.gapRead);
      } else {
        Callback(OnRead(got), env.onRead);
      }
    }

    method FinishWrite(env: Env)
      requires Valid() && |output.Contents()| + Volume(env.onWriteComplete) <= HALF_WORD
      modifies Repr()
      ensures Valid() && fresh(Repr() - old(Repr()))
      ensures View() == Spec.FinishWrite(old(View()), env)
    {
      DropWriteInterest();
      Callback(OnWriteComplete, env.onWriteComplete);
      if state == Disconnecting {
        SocketShut(false, env.shutOk);
      }
    }

    /** Hand the readable bytes to the socket and retrieve what it took. */
    method WriteOut(k: nat)
      requires Valid() && |output.Contents()| < HALF_WORD
      modifies output, output.data, this`wire
      ensures Valid() && Repr() == old(Repr())
      ensures View() == Written(old(View()), k)
    {
      var n := if k < output.w - output.r then k else output.w - output.r;
      wire := wire + output.Contents()[..n];
      output.Retrieve(n, true);
    }

    method HandleWrite(env: Env)
      requires Valid()
      requires |output.Contents()| + Volume(env.onWriteComplete) + Volume(env.onWriteError) < HALF_WORD
      modifies Repr()
      ensures Valid() && fresh(Repr() - old(Repr()))
      ensures View() == Spec.HandleWrite(old(View()), env)
    {
      if exited {
        return;
      }
      if !channel.Writable() {
        exited := true;
        return;
      }
      if output.w - output.r > 0 {
        match WriteAnswer(shut, env.write) {
          case WriteFailed =>
            Callback(OnError, env.onWriteError);
            return;
          case WriteKilled =>
            exited := true;
            return;
          case Wrote(k) => WriteOut(k);
        }
      }
      if output.w - output.r == 0 {
        FinishWrite(env);
      }
    }

    method Register()
      requires Valid()
      modifies channel.selector
      ensures Valid() && View() == old(View()).(registered := true)
    {
      var failed := channel.selector.Add(channel.fd, NONE_EVENT);
    }

    method Open(env: Env)
      requires Valid() && |output.Contents()| + Volume(env.onConnect) <= HALF_WORD
      requires !exited && channel.fd in channel.selector.registerMap
      modifies Repr()
      ensures Valid() && fresh(Repr() - old(Repr()))
      ensures var c := Spec.Callback(Moved(old(View()), Connected), OnConnect, env.onConnect);
              View() == if c.exited then c else c.(readable := true)
    {
      Move(Connected);
      Callback(OnConnect, env.onConnect);
      if !exited {
        WantReads();
      }
    }

    method WantReads()
      requires Valid() && !exited && channel.fd in channel.selector.registerMap
      modifies channel`events, channel.selector, this`exited
      ensures Valid() && View() == old(View()).(readable := true)
    {
      exited := channel.SetReadable(true);
    }

    /** What `Start` submits: register, open, tell the handler, then accept reads. */
    method HandleStart(env: Env)
      requires Valid() && |output.Contents()| + Volume(env.onConnect) <= HALF_WORD
      modifies Repr()
      ensures Valid() && fresh(Repr() - old(Repr()))
      ensures View() == Spec.HandleStart(old(View()), env)
    {
      if exited {
        return;
      }
      Register();
      Print(env.named);
      if !exited && state == Connecting {
        Open(env);
      }
    }

    method ReadPart(ready: Ready, env: Env)
      requires Valid() && (env.read.Received? ==> |env.read.bytes| <= RW_UNIT)
      requires |output.Contents()| + Volume(env.onRead) + Volume(env.onReadError) + Volume(env.gapRead) <= HALF_WORD
      modifies Repr()
      ensures Valid() && fresh(Repr() - old(Repr()))
      ensures View() == Spec.ReadPart(old(View()), ready, env)
      ensures |output.Contents()| <=
              |old(output.Contents())| + Volume(env.onRead) + Volume(env.onReadError) + Volume(env.gapRead)
    {
      ReadVolume(View(), env);
      if ready.input || ready.prior || ready.readHangUp {
        HandleRead(env);
      }
    }

    method WritePart(ready: Ready, env: Env)
      requires Valid()
      requires |output.Contents()| + Volume(env.onWriteComplete) + Volume(env.onWriteError) < HALF_WORD
      modifies Repr()
      ensures Valid() && fresh(Repr() - old(Repr()))
      ensures View() == Spec.WritePart(old(View()), ready, env)
      ensures |output.Contents()| <= |old(output.Contents())| + Volume(env.onWriteComplete) + Volume(env.onWriteError)
    {
      WriteVolume(View(), env);
      if ready.output {
        HandleWrite(env);
      }
    }

    method ReadAndWrite(ready: Ready, env: Env)
      requires Valid() && (env.read.Received? ==> |env.read.bytes| <= RW_UNIT)
      requires |output.Contents()| + VolumeOf(env) < HALF_WORD
      modifies Repr()
      ensures Valid() && fresh(Repr() - old(Repr()))
      ensures View() == Spec.WritePart(Spec.ReadPart(old(View()), ready, env), ready, env)
      ensures |output.Contents()| + Volume(env.onError) + Volume(env.gapHangUp) < HALF_WORD
    {
      ReadPart(ready, env);
      WritePart(ready, env);
    }

    method ErrorPart(ready: Ready, env: Env)
      requires Valid() && |output.Contents()| + Volume(env.onError) <= HALF_WORD
      modifies Repr()
      ensures Valid() && fresh(Repr() - old(Repr()))
      ensures View() == Spec.ErrorPart(old(View()), ready, env)
      ensures |output.Contents()| <= |old(output.Contents())| + Volume(env.onError)
    {
      CallbackVolume(View(), OnError, env.onError);
      if ready.error {
        Callback(OnError, env.onError);
      }
    }

    method HangUpPart(ready: Ready, env: Env)
      requires Valid() && |output.Contents()| + Volume(env.gapHangUp) <= HALF_WORD
      modifies Repr()
      ensures Valid() && fresh(Repr() - old(Repr()))
      ensures View() == Spec.HangUpPart(old(View()), ready, env)
    {
      if ready.hangUp && !ready.input {
        HandleClose(env.named, env.gapHangUp);
      }
    }

    method ErrorAndHangUp(ready: Ready, env: Env)
      requires Valid() && |output.Contents()| + Volume(env.onError) + Volume(env.gapHangUp) <= HALF_WORD
      modifies Repr()
      ensures Valid() && fresh(Repr() - old(Repr()))
      ensures View() == Spec.HangUpPart(Spec.ErrorPart(old(View()), ready, env), ready, env)
    {
      ErrorPart(ready, env);
      HangUpPart(ready, env);
    }

    /** What the channel calls for the bits of a readiness report, in this order. */
    method HandleEvents(ready: Ready, env: Env)
      requires Valid() && (env.read.Received? ==> |env.read.bytes| <= RW_UNIT)
      requires |output.Contents()| + VolumeOf(env) < HALF_WORD
      modifies Repr()
      ensures Valid() && fresh(Repr() - old(Repr()))
      ensures View() == Spec.HandleEvents(old(View()), ready, env)
    {
      ReadAndWrite(ready, env);
      ErrorAndHangUp(ready, env);
    }

    /** What `Close` submits. */
    method CloseUnlessPending(env: Env)
      requires Valid() && |output.Contents()| + Volume(env.onClose) <= HALF_WORD
      modifies Repr()
      ensures Valid() && fresh(Repr() - old(Repr()))
      ensures View() == Spec.RunTask(old(View()), CloseTask, env)
    {
      if exited {
        return;
      }
      if output.w - output.r == 0 {
        HandleRemove(env);
      } else {
        past := past.(unheard := past.unheard + 1);
      }
    }

    method ShutNow(closeRead: bool, env: Env)
      requires Valid() && !exited
      modifies Repr()
      ensures Valid() && Repr() == old(Repr())
      ensures View() == Spec.ShutNow(old(View()), closeRead, env)
    {
      Print(env.named);
      DropWriteInterest();
      SocketShut(closeRead, env.shutOk);
    }

    /** What `Shutdown` and `ForceShutdown` submit. */
    method ShutWriting(closeRead: bool, force: bool, env: Env)
      requires Valid() && (force ==> !closeRead)
      modifies Repr()
      ensures Valid() && fresh(Repr() - old(Repr()))
      ensures View() == Spec.RunTask(old(View()), if force then ForceShutdownTask else ShutdownTask(closeRead), env)
    {
      if exited || (!force && output.w - output.r > 0) {
        return;
      }
      ShutNow(closeRead, env);
    }

    /** One task of the loop. */
    method RunTask(task: Task, env: Env)
      requires Valid() && (env.read.Received? ==> |env.read.bytes| <= RW_UNIT)
      requires |output.Contents()| + VolumeOf(env) + (if task.SendTask? then |task.msg| else 0) < HALF_WORD
      modifies Repr()
      ensures Valid() && fresh(Repr() - old(Repr()))
      ensures View() == Spec.RunTask(old(View()), task, env)
    {
      if exited {
        return;
      }
      match task
      case StartTask => HandleStart(env);
      case SendTask(sender, msg) => HandleSend(Some(sender), msg, env.granted, env.named);
      case EventTask(ready) => HandleEvents(ready, env);
      case CloseTask => CloseUnlessPending(env);
      case ShutdownTask(closeRead) => ShutWriting(closeRead, false, env);
      case ForceShutdownTask => ShutWriting(false, true, env);
      case RemoveTask => HandleRemove(env);
      case ForeignTask => RunCalls(env.onForeign);
    }
  }
}
