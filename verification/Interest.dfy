/**
 Which events a socket waits for: the 32-bit mask kept by the channel, the selector's record of it,
 and the mask the kernel holds.
 */
module Interest {

  const NONE_EVENT: bv32 := 0
  const EPOLLIN: bv32 := 0x1
  const EPOLLPRI: bv32 := 0x2
  const EPOLLOUT: bv32 := 0x4
  const EPOLLET: bv32 := 0x8000_0000

  const READ_EVENT: bv32 := EPOLLIN | EPOLLPRI
  const WRITE_EVENT: bv32 := EPOLLOUT

  function Add(events: bv32, other: bv32): bv32 {
    events | other
  }

  function Remove(events: bv32, other: bv32): bv32 {
    events & !other
  }

  predicate Contains(events: bv32, other: bv32) {
    events & other != 0
  }

  function EdgeTrigger(events: bv32): bv32 {
    events | EPOLLET
  }

  // ---------- the mask under a history of calls ----------

  datatype SetCall = SetRead(on: bool) | SetWrite(on: bool)

  function EventsOf(call: SetCall): bv32 {
    EdgeTrigger(if call.SetRead? then READ_EVENT else WRITE_EVENT)
  }

  function After(events: bv32, call: SetCall): bv32 {
    if call.on then Add(events, EventsOf(call)) else Remove(events, EventsOf(call))
  }

  function AfterAll(events: bv32, calls: seq<SetCall>): bv32 {
    if calls == [] then events else After(AfterAll(events, calls[..|calls| - 1]), calls[|calls| - 1])
  }

  /** The argument of the last call that sets this direction, or what held before. */
  function LastSet(calls: seq<SetCall>, read: bool, before: bool): bool {
    if calls == [] then before
    else
      var call := calls[|calls| - 1];
      if call.SetRead? == read then call.on else LastSet(calls[..|calls| - 1], read, before)
  }

  lemma OneCall(events: bv32, call: SetCall)
    ensures Contains(After(events, call), READ_EVENT) ==
            if call.SetRead? then call.on else Contains(events, READ_EVENT)
    ensures Contains(After(events, call), WRITE_EVENT) ==
            if call.SetWrite? then call.on else Contains(events, WRITE_EVENT)
    ensures Contains(After(events, call), EPOLLET) == call.on
  {
  }

  /** A call in the kernel's own bits: reading is 1 and 2, writing 4, and both carry the top bit. */
  lemma BitsOfCall(events: bv32, call: SetCall)
    ensures var e := After(events, call);
            && (e & 0x8000_0000 != 0) == call.on
            && (call.SetRead? ==> (e & 0x1 != 0) == (e & 0x2 != 0) == call.on && e & 0x4 == events & 0x4)
            && (call.SetWrite? ==> (e & 0x4 != 0) == call.on && e & 0x1 == events & 0x1 && e & 0x2 == events & 0x2)
  {
  }

  /** The two bits of reading go together, and beyond these four no bit is ever asked for. */
  predicate Shaped(events: bv32) {
    (events & 0x3 == 0 || events & 0x3 == 0x3) && events & 0x7FFF_FFF8 == 0
  }

  lemma StaysShaped(events: bv32, call: SetCall)
    requires Shaped(events)
    ensures Shaped(After(events, call))
  {
  }

  lemma BitsOfShape(events: bv32)
    requires Shaped(events)
    ensures Contains(events, READ_EVENT) <==> events & 0x1 != 0
    ensures Contains(events, READ_EVENT) <==> events & 0x2 != 0
    ensures Contains(events, WRITE_EVENT) <==> events & 0x4 != 0
    ensures events & 0x2000 == 0
  {
  }

  /** The two directions never disturb each other, though both calls carry the edge-trigger bit. */
  lemma {:induction false} DirectionsAreIndependent(events: bv32, calls: seq<SetCall>)
    ensures Contains(AfterAll(events, calls), READ_EVENT) == LastSet(calls, true, Contains(events, READ_EVENT))
    ensures Contains(AfterAll(events, calls), WRITE_EVENT) == LastSet(calls, false, Contains(events, WRITE_EVENT))
  {
    if calls != [] {
      var before := calls[..|calls| - 1];
      DirectionsAreIndependent(events, before);
      OneCall(AfterAll(events, before), calls[|calls| - 1]);
    }
  }

  /** They do share that bit: it always follows the very last call, of either direction. */
  lemma EdgeFollowsLastCall(events: bv32, calls: seq<SetCall>)
    requires calls != []
    ensures Contains(AfterAll(events, calls), EPOLLET) == calls[|calls| - 1].on
  {
  }

  /** For instance: readable and writable, then writable no more; reading is no longer edge-triggered. */
  lemma EdgeLost()
    ensures var events := AfterAll(NONE_EVENT, [SetRead(true), SetWrite(true), SetWrite(false)]);
            Contains(events, READ_EVENT) && !Contains(events, EPOLLET)
  {
    var calls := [SetRead(true), SetWrite(true), SetWrite(false)];
    DirectionsAreIndependent(NONE_EVENT, calls);
    EdgeFollowsLastCall(NONE_EVENT, calls);
    assert calls[..2] == [SetRead(true), SetWrite(true)] && calls[..2][..1] == [SetRead(true)];
  }

  // ---------- selector and channel ----------

  /** Channels are named by the file descriptor they own. */
  type Fd = nat

  datatype Ctl = CtlAdd | CtlMod | CtlDel

  class EpollSelector {
    var registerMap: map<Fd, bv32>
    /** The kernel's interest set, changed only by `epoll_ctl`. */
    var kernel: map<Fd, bv32>

    ghost predicate Valid()
      reads this
    {
      kernel == registerMap
    }

    constructor ()
      ensures Valid() && registerMap == map[]
    {
      registerMap, kernel := map[], map[];
    }

    /** `epoll_ctl`, refusing to add twice or to change or drop what is not there. */
    method InternalUpdate(fd: Fd, op: Ctl, events: bv32) returns (ok: bool)
      modifies this`kernel
      ensures ok <==> (op == CtlAdd <==> fd !in old(kernel))
      ensures kernel ==
              if !ok then old(kernel) else if op == CtlDel then old(kernel) - {fd} else old(kernel)[fd := events]
    {
      ok := (op == CtlAdd) == (fd !in kernel);
      if ok {
        kernel := if op == CtlDel then kernel - {fd} else kernel[fd := events];
      }
    }

    method Add(fd: Fd, events: bv32) returns (exited: bool)
      requires Valid()
      modifies this
      ensures Valid() && !exited
      ensures registerMap == if fd in old(registerMap) then old(registerMap) else old(registerMap)[fd := events]
    {
      if fd in registerMap {
        return false;
      }
      registerMap := registerMap[fd := events];
      var ok := InternalUpdate(fd, CtlAdd, events);
      exited := !ok;
    }

    method Remove(fd: Fd) returns (exited: bool)
      requires Valid()
      modifies this
      ensures Valid() && !exited
      ensures registerMap == old(registerMap) - {fd}
    {
      if fd !in registerMap {
        return false;
      }
      registerMap := registerMap - {fd};
      var ok := InternalUpdate(fd, CtlDel, NONE_EVENT);
      exited := !ok;
    }

    /** Exits the process when the channel was never added; otherwise `epoll_ctl` cannot fail. */
    method Update(fd: Fd, events: bv32) returns (exited: bool)
      requires Valid()
      modifies this
      ensures Valid() && (exited <==> fd !in old(registerMap))
      ensures registerMap == if exited then old(registerMap) else old(registerMap)[fd := events]
    {
      if fd !in registerMap {
        return true;
      }
      registerMap := registerMap[fd := events];
      var ok := InternalUpdate(fd, CtlMod, events);
      exited := !ok;
    }
  }

  /** The map after a channel of this descriptor has recorded its mask; nothing if it is not there. */
  function Recorded(registered: map<Fd, bv32>, fd: Fd, events: bv32): map<Fd, bv32> {
    if fd in registered then registered[fd := events] else registered
  }

  class SocketChannel {
    const fd: Fd
    const selector: EpollSelector
    /** Whether `SetSelector` has been called; until then changing interest is fatal. */
    var attached: bool
    var events: bv32

    /** What the channel believes, the selector recorded and the kernel holds are one mask. */
    ghost predicate InSync()
      reads this, selector
    {
      selector.Valid() && Shaped(events) && (fd in selector.registerMap ==> selector.registerMap[fd] == events)
    }

    constructor (fd: Fd, selector: EpollSelector)
      requires selector.Valid() && fd !in selector.registerMap
      ensures InSync() && events == NONE_EVENT && !attached && this.fd == fd && this.selector == selector
    {
      this.fd, this.selector, attached, events := fd, selector, false, NONE_EVENT;
    }

    method SetSelector()
      modifies this`attached
      ensures attached
    {
      attached := true;
    }

    function Readable(): bool
      reads this
    {
      Contains(events, READ_EVENT)
    }

    function Writable(): bool
      reads this
    {
      Contains(events, WRITE_EVENT)
    }

    /**
     The common body of `SetReadable` and `SetWritable`. The selector is told only of changes, and
     that never leaves it stale. The process exits just when there is no selector yet, or when an
     unregistered channel changes.
     */
    method Set(call: SetCall) returns (exited: bool)
      requires InSync()
      modifies this`events, selector
      ensures InSync() && events == if attached then After(old(events), call) else old(events)
      ensures exited <==> !attached || (events != old(events) && fd !in old(selector.registerMap))
      ensures selector.registerMap ==
              if attached then Recorded(old(selector.registerMap), fd, events) else old(selector.registerMap)
    {
      if !attached {
        return true;
      }
      var prev := events;
      StaysShaped(events, call);
      events := After(events, call);
      exited := false;
      if prev != events {
        exited := selector.Update(fd, events);
      } else {
        assert Recorded(selector.registerMap, fd, events) == selector.registerMap;
      }
    }

    method SetReadable(on: bool) returns (exited: bool)
      requires InSync() && attached
      modifies this`events, selector
      ensures InSync() && Readable() == on && Writable() == old(Writable())
      ensures fd in old(selector.kernel) ==>
                && !exited && fd in selector.kernel
                && (selector.kernel[fd] & 0x1 != 0) == (selector.kernel[fd] & 0x2 != 0) == on
                && selector.kernel[fd] & 0x4 == old(selector.kernel[fd]) & 0x4
      ensures selector.registerMap == Recorded(old(selector.registerMap), fd, events)
    {
      OneCall(events, SetRead(on));
      BitsOfCall(events, SetRead(on));
      exited := Set(SetRead(on));
    }

    method SetWritable(on: bool) returns (exited: bool)
      requires InSync() && attached
      modifies this`events, selector
      ensures InSync() && Writable() == on && Readable() == old(Readable())
      ensures fd in old(selector.kernel) ==>
                && !exited && fd in selector.kernel
                && (selector.kernel[fd] & 0x4 != 0) == on
                && selector.kernel[fd] & 0x1 == old(selector.kernel[fd]) & 0x1
                && selector.kernel[fd] & 0x2 == old(selector.kernel[fd]) & 0x2
      ensures selector.registerMap == Recorded(old(selector.registerMap), fd, events)
      ensures events == old(events) ==> !exited
      ensures !on && old(events) == NONE_EVENT ==> events == NONE_EVENT
    {
      OneCall(events, SetWrite(on));
      BitsOfCall(events, SetWrite(on));
      exited := Set(SetWrite(on));
    }
  }
}
