/**
 * The edge dial handler with its variables and listeners
 * (brainrouter-desktop/electron/egressDialHandler.ts:89-249). Each listener updates the fields in
 * place and takes exactly the step `EgressDial` describes.
 */
module EdgeDialHandler {
  import opened Common
  import opened EgressDial
  import opened EdgeDialGuard

  /** The frames still to be sent. */
  function Rest(chunk: seq<Byte>, offset: nat): seq<Frame> {
    if offset < |chunk| then Frames(chunk[offset..]) else []
  }

  lemma RestStep(chunk: seq<Byte>, offset: nat)
    requires offset < |chunk|
    ensures var end := if offset + EGRESS_MAX_FRAME_BYTES < |chunk| then offset + EGRESS_MAX_FRAME_BYTES else |chunk|;
      Rest(chunk, offset) == [Data(chunk[offset..end])] + Rest(chunk, offset + EGRESS_MAX_FRAME_BYTES)
  {
    if offset + EGRESS_MAX_FRAME_BYTES < |chunk| {
      assert chunk[offset..][EGRESS_MAX_FRAME_BYTES..] == chunk[offset + EGRESS_MAX_FRAME_BYTES..];
      assert chunk[offset..][..EGRESS_MAX_FRAME_BYTES] == chunk[offset..offset + EGRESS_MAX_FRAME_BYTES];
    } else {
      assert chunk[offset..|chunk|] == chunk[offset..] && chunk[offset..] != [];
    }
  }

  lemma AllIsLeft(chunk: seq<Byte>)
    ensures Rest(chunk, 0) == Frames(chunk)
  {
    assert chunk[0..] == chunk;
  }

  lemma NothingIsLeft(chunk: seq<Byte>, offset: nat)
    requires offset >= |chunk|
    ensures Rest(chunk, offset) == []
  {}

  class DialSession {
    const instruction: Instruction
    var state: Phase
    var vetting: Option<Target>
    var tcp: Option<Socket>
    var connectTimer: bool
    var settled: bool
    var relayClosed: bool
    var sent: seq<Frame>
    ghost var attempts: nat

    ghost function State(): Dial
      reads this
    {
      Dial(instruction, state, vetting, tcp, connectTimer, settled, relayClosed, sent, attempts)
    }

    ghost predicate Valid()
      reads this
    {
      Inv(State())
    }

    constructor (instruction: Instruction)
      ensures Valid() && State() == NewDial(instruction)
    {
      this.instruction := instruction;
      state, vetting, tcp, connectTimer, settled, relayClosed := Attaching, None, None, false, false, false;
      sent, attempts := [], 0;
    }

    method TeardownBoth()
      modifies this
      ensures State() == Teardown(old(State()))
    {
      if state == Closed { return; }
      state := Closed;
      if connectTimer { connectTimer := false; }
      relayClosed := true;
      if tcp.Some? { tcp := Some(tcp.value.(destroyed := true)); }
    }

    method SendToRelay(f: Frame)
      modifies `sent
      ensures State() == Send(old(State()), f)
    {
      if state != Closed { sent := sent + [f]; }
    }

    method RefuseDial()
      modifies this
      ensures State() == Refuse(old(State()))
    {
      SendToRelay(Dialed(false));
      TeardownBoth();
    }

    method OnRelayOpen(deviceId: Option<string>)
      requires Valid()
      modifies this
      ensures Valid() && State() == Step(old(State()), RelayOpened(deviceId))
    {
      hide Inv;
      StepKeeps(State(), RelayOpened(deviceId));
      if deviceId.None? || deviceId.value == "" {
        TeardownBoth();
      } else {
        SendToRelay(Attach(instruction.ticket, deviceId.value));
      }
    }

    /** `decoded` is the frame read as a dial instruction; `writable` is false when the TCP write throws. */
    method OnRelayMessage(binary: bool, frame: seq<Byte>, decoded: Option<Target>, writable: bool)
      requires Valid()
      modifies this
      ensures Valid() && State() == Step(old(State()), RelayMessage(binary, frame, decoded, writable))
    {
      StepKeeps(State(), RelayMessage(binary, frame, decoded, writable));
      hide Inv;
      if !binary { return; }
      if state == Splicing {
        if tcp.Some? {
          if writable {
            tcp := Some(tcp.value.(written := tcp.value.written + [frame]));
          } else {
            TeardownBoth();
          }
        }
        return;
      }
      if state != Attaching { return; }
      state := Dialing;
      if decoded.None? || decoded.value != instruction.target {
        RefuseDial();
      } else {
        vetting := decoded;
      }
    }

    method OnRelayEnd()
      requires Valid()
      modifies this
      ensures Valid() && State() == Step(old(State()), RelayEnded)
    {
      hide Inv;
      StepKeeps(State(), RelayEnded);
      TeardownBoth();
    }

    /** `vetDialTarget` runs on what it is told, and settles; `connects` is false when `tcpConnect` throws. */
    method OnVetted(allowed: bool, literalFamily: int, answer: Option<seq<Address>>, connects: bool)
      requires Valid() && vetting.Some?
      modifies this
      ensures Valid() && State() == Step(old(State()), VetReturned(allowed, literalFamily, answer, connects))
    {
      StepKeeps(State(), VetReturned(allowed, literalFamily, answer, connects));
      hide Inv, Admissible, Dialable, BlockedIp, PinnedAddress;
      var verdict := VetDialTarget(vetting.value.host, vetting.value.port, allowed, literalFamily, answer);
      vetting := None;
      if verdict.Refused? { RefuseDial(); return; }
      if state == Closed { return; }
      attempts := attempts + 1;
      if connects {
        tcp := Some(Socket(verdict.target, false, []));
        connectTimer := true;
      }
    }

    method OnTimeout()
      requires Valid() && connectTimer
      modifies this
      ensures Valid() && State() == Step(old(State()), TimerFired)
    {
      hide Inv;
      StepKeeps(State(), TimerFired);
      connectTimer := false;
      if settled { return; }
      settled := true;
      RefuseDial();
    }

    method OnSocketConnect()
      requires Valid() && tcp.Some?
      modifies this
      ensures Valid() && State() == Step(old(State()), Connected)
    {
      hide Inv;
      StepKeeps(State(), Connected);
      if settled { return; }
      settled := true;
      connectTimer := false;
      if state == Closed {
        tcp := Some(tcp.value.(destroyed := true));
        return;
      }
      state := Splicing;
      SendToRelay(Dialed(true));
    }

    /** The offset loop: one frame per 131072 bytes, the last one possibly shorter. */
    method OnSocketData(chunk: seq<Byte>)
      requires Valid() && tcp.Some?
      modifies this
      ensures Valid() && State() == Step(old(State()), Received(chunk))
    {
      hide Inv, Frames, Rest;
      StepKeeps(State(), Received(chunk));
      if state != Splicing { return; }
      var offset := 0;
      AllIsLeft(chunk);
      while offset < |chunk|
        invariant state == Splicing && State() == old(State()).(sent := sent)
        invariant old(sent) + Frames(chunk) == sent + Rest(chunk, offset)
      {
        RestStep(chunk, offset);
        var end := if offset + EGRESS_MAX_FRAME_BYTES < |chunk| then offset + EGRESS_MAX_FRAME_BYTES else |chunk|;
        SendToRelay(Data(chunk[offset..end]));
        offset := offset + EGRESS_MAX_FRAME_BYTES;
      }
      NothingIsLeft(chunk, offset);
      assert sent + [] == sent;
    }

    method OnSocketClose()
      requires Valid() && tcp.Some?
      modifies this
      ensures Valid() && State() == Step(old(State()), SocketClosed)
    {
      hide Inv;
      StepKeeps(State(), SocketClosed);
      TeardownBoth();
    }

    method OnSocketFailure()
      requires Valid() && tcp.Some?
      modifies this
      ensures Valid() && State() == Step(old(State()), SocketFailed)
    {
      hide Inv;
      StepKeeps(State(), SocketFailed);
      if settled { TeardownBoth(); return; }
      settled := true;
      RefuseDial();
    }
    /** The event reaches its listener, if what raises it exists. */
    method Fire(e: Event)
      requires Valid()
      modifies this
      ensures Valid() && State() == Step(old(State()), e)
    {
      hide Inv;
      match e
      case RelayOpened(deviceId) => OnRelayOpen(deviceId);
      case RelayMessage(binary, frame, decoded, writable) => OnRelayMessage(binary, frame, decoded, writable);
      case RelayEnded => OnRelayEnd();
      case VetReturned(allowed, literalFamily, answer, connects) =>
        if vetting.Some? { OnVetted(allowed, literalFamily, answer, connects); }
      case TimerFired => if connectTimer { OnTimeout(); }
      case Connected => if tcp.Some? { OnSocketConnect(); }
      case Received(chunk) => if tcp.Some? { OnSocketData(chunk); }
      case SocketClosed => if tcp.Some? { OnSocketClose(); }
      case SocketFailed => if tcp.Some? { OnSocketFailure(); }
    }

    method FireAll(es: seq<Event>)
      requires Valid()
      modifies this
      ensures Valid() && State() == Run(old(State()), es)
    {
      hide Inv, Step;
      var i := 0;
      while i < |es|
        invariant 0 <= i <= |es| && Valid()
        invariant Run(old(State()), es) == Run(State(), es[i..])
      {
        assert es[i..][0] == es[i] && es[i..][1..] == es[i + 1..];
        Fire(es[i]);
        i := i + 1;
      }
    }
  }

  /** `handle`: an expired or unreadable ticket opens nothing at all. */
  method Handle(instruction: Instruction, now: int, expiry: Option<int>) returns (d: DialSession?)
    ensures d == null <==> expiry.None? || expiry.value <= now
    ensures d != null ==> fresh(d) && d.Valid() && d.State() == NewDial(instruction)
  {
    if expiry.None? || expiry.value <= now { return null; }
    d := new DialSession(instruction);
  }
}
