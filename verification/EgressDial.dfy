/**
 * One dial of the edge handler (brainrouter-desktop/electron/egressDialHandler.ts): a four-state
 * protocol driven by socket, timer and vetting events that may arrive in any order.
 */
module EgressDial {
  import opened Common
  import opened EdgeDialGuard

  /** The relay's frame ceiling. */
  const EGRESS_MAX_FRAME_BYTES := 131_072

  type Byte = x: int | 0 <= x < 256

  datatype Target = Target(host: string, port: int)

  datatype Instruction = Instruction(target: Target, ticket: string)

  datatype Phase = Attaching | Dialing | Splicing | Closed

  /** What is handed to `relay.send`. */
  datatype Frame = Attach(ticket: string, deviceId: string) | Dialed(ok: bool) | Data(bytes: seq<Byte>)

  /** A TCP socket, what was written to it, and whether it was destroyed. */
  datatype Socket = Socket(target: Vetted, destroyed: bool, written: seq<seq<Byte>>)

  /**
   * `vetting` holds the target while its vetting is awaited, and `attempts` counts calls of
   * `tcpConnect`.
   */
  datatype Dial = Dial(
    instruction: Instruction,
    phase: Phase,
    vetting: Option<Target>,
    tcp: Option<Socket>,
    timer: bool,
    settled: bool,
    relayClosed: bool,
    sent: seq<Frame>,
    attempts: nat
  )

  /**
   * `VetReturned` carries what `vetDialTarget` was told: the allowlist's word, the family of a literal
   * host (0 when it is none) and the lookup's answer; `connects` is false when `tcpConnect` throws.
   */
  datatype Event =
    | RelayOpened(deviceId: Option<string>)
    | RelayMessage(binary: bool, frame: seq<Byte>, decoded: Option<Target>, writable: bool)
    | RelayEnded
    | VetReturned(allowed: bool, literalFamily: int, answer: Option<seq<Address>>, connects: bool)
    | TimerFired
    | Connected
    | Received(chunk: seq<Byte>)
    | SocketClosed
    | SocketFailed

  function NewDial(instruction: Instruction): Dial {
    Dial(instruction, Attaching, None, None, false, false, false, [], 0)
  }

  function Send(d: Dial, f: Frame): Dial {
    if d.phase.Closed? then d else d.(sent := d.sent + [f])
  }

  function Destroyed(tcp: Option<Socket>): Option<Socket> {
    if tcp.None? then None else Some(tcp.value.(destroyed := true))
  }

  function Teardown(d: Dial): Dial {
    if d.phase.Closed? then d
    else d.(phase := Closed, timer := false, relayClosed := true, tcp := Destroyed(d.tcp))
  }

  function Refuse(d: Dial): Dial {
    Teardown(Send(d, Dialed(false)))
  }

  /** A chunk cut at the frame ceiling. */
  function Frames(chunk: seq<Byte>): seq<Frame> {
    if chunk == [] then []
    else if |chunk| <= EGRESS_MAX_FRAME_BYTES then [Data(chunk)]
    else [Data(chunk[..EGRESS_MAX_FRAME_BYTES])] + Frames(chunk[EGRESS_MAX_FRAME_BYTES..])
  }

  /** `startDial` up to the vetting. */
  function StartDial(d: Dial, decoded: Option<Target>): Dial {
    if decoded.None? || decoded.value != d.instruction.target then Refuse(d)
    else d.(vetting := decoded)
  }

  /** The vetting pins the target. */
  predicate Vets(t: Target, allowed: bool, literalFamily: int, answer: Option<seq<Address>>) {
    Admissible(t.host, t.port, allowed) && Dialable(t.host, literalFamily, answer)
  }

  function PinnedTo(t: Target, literalFamily: int, answer: Option<seq<Address>>): Vetted
    requires Dialable(t.host, literalFamily, answer)
  {
    var a := PinnedAddress(t.host, literalFamily, answer);
    Vetted(a.address, a.family, t.port)
  }

  /** `startDial` after the vetting. */
  function FinishVetting(d: Dial, allowed: bool, literalFamily: int, answer: Option<seq<Address>>, connects: bool): Dial
    requires d.vetting.Some?
  {
    var d1 := d.(vetting := None);
    if !Vets(d.vetting.value, allowed, literalFamily, answer) then Refuse(d1)
    else if d.phase.Closed? then d1
    else if !connects then d1.(attempts := d.attempts + 1)
    else
      var target := PinnedTo(d.vetting.value, literalFamily, answer);
      d1.(attempts := d.attempts + 1, tcp := Some(Socket(target, false, [])), timer := true)
  }

  function OnMessage(d: Dial, frame: seq<Byte>, decoded: Option<Target>, writable: bool): Dial {
    match d.phase
    case Splicing =>
      if d.tcp.None? then d
      else if !writable then Teardown(d)
      else d.(tcp := Some(d.tcp.value.(written := d.tcp.value.written + [frame])))
    case Attaching => StartDial(d.(phase := Dialing), decoded)
    case _ => d
  }

  function OnConnect(d: Dial): Dial {
    if d.settled then d
    else if d.phase.Closed? then d.(settled := true, timer := false, tcp := Destroyed(d.tcp))
    else Send(d.(settled := true, timer := false, phase := Splicing), Dialed(true))
  }

  function OnData(d: Dial, chunk: seq<Byte>): Dial {
    if d.phase != Splicing then d
    else d.(sent := d.sent + Frames(chunk))
  }

  function OnSocketError(d: Dial): Dial {
    if d.settled then Teardown(d) else Refuse(d.(settled := true))
  }

  predicate Enrolled(deviceId: Option<string>) {
    deviceId.Some? && deviceId.value != ""
  }

  /** Vetting, timer and socket events need what raises them; relay events may come at any time. */
  predicate Enabled(d: Dial, e: Event) {
    match e
    case VetReturned(_, _, _, _) => d.vetting.Some?
    case TimerFired => d.timer
    case Connected => d.tcp.Some?
    case Received(_) => d.tcp.Some?
    case SocketClosed => d.tcp.Some?
    case SocketFailed => d.tcp.Some?
    case _ => true
  }

  function Step(d: Dial, e: Event): Dial {
    if !Enabled(d, e) then d
    else match e
      case RelayOpened(id) => if Enrolled(id) then Send(d, Attach(d.instruction.ticket, id.value)) else Teardown(d)
      case RelayMessage(binary, frame, decoded, writable) =>
        if binary then OnMessage(d, frame, decoded, writable) else d
      case RelayEnded => Teardown(d)
      case VetReturned(allowed, literalFamily, answer, connects) =>
        FinishVetting(d, allowed, literalFamily, answer, connects)
      case TimerFired => if d.settled then d.(timer := false) else Refuse(d.(settled := true, timer := false))
      case Connected => OnConnect(d)
      case Received(chunk) => OnData(d, chunk)
      case SocketClosed => Teardown(d)
      case SocketFailed => OnSocketError(d)
  }

  function Run(d: Dial, es: seq<Event>): Dial
    decreases es
  {
    if es == [] then d else Run(Step(d, es[0]), es[1..])
  }

  // ---------------------------------------------------------------------------------------
  // The byte stream
  // ---------------------------------------------------------------------------------------

  /** The data frames of a log, put back together. */
  function Payload(frames: seq<Frame>): seq<Byte> {
    if frames == [] then []
    else (if frames[0].Data? then frames[0].bytes else []) + Payload(frames[1..])
  }

  lemma {:induction false} PayloadAppend(a: seq<Frame>, b: seq<Frame>)
    ensures Payload(a + b) == Payload(a) + Payload(b)
  {
    if a == [] {
      assert a + b == b;
    } else {
      assert (a + b)[1..] == a[1..] + b;
      PayloadAppend(a[1..], b);
    }
  }

  predicate Sized(f: Frame) {
    f.Data? ==> 0 < |f.bytes| <= EGRESS_MAX_FRAME_BYTES
  }

  /** Cutting a chunk loses, adds and reorders nothing, and every frame is a non-empty data frame within the ceiling. */
  lemma {:induction false} FramesAreFaithful(chunk: seq<Byte>)
    ensures Payload(Frames(chunk)) == chunk
    ensures forall i :: 0 <= i < |Frames(chunk)| ==> Frames(chunk)[i].Data? && Sized(Frames(chunk)[i])
    decreases |chunk|
  {
    if |chunk| > EGRESS_MAX_FRAME_BYTES {
      FramesAreFaithful(chunk[EGRESS_MAX_FRAME_BYTES..]);
      assert Frames(chunk)[1..] == Frames(chunk[EGRESS_MAX_FRAME_BYTES..]);
    } else if chunk != [] {
      assert Payload([Data(chunk)][1..]) == [];
    }
  }

  // ---------------------------------------------------------------------------------------
  // Safety
  // ---------------------------------------------------------------------------------------

  predicate Acked(sent: seq<Frame>) {
    exists i :: 0 <= i < |sent| && sent[i] == Dialed(true)
  }

  /** At most one `dialed` frame, and every data frame after a positive one. */
  predicate WellOrdered(sent: seq<Frame>) {
    && (forall i, j :: 0 <= i < j < |sent| ==> !(sent[i].Dialed? && sent[j].Dialed?))
    && (forall i :: 0 <= i < |sent| && sent[i].Data? ==> Acked(sent[..i]))
  }

  predicate NoReply(sent: seq<Frame>) {
    forall i :: 0 <= i < |sent| ==> sent[i].Attach?
  }

  /** What holds in each phase. */
  predicate Inv(d: Dial) {
    && WellOrdered(d.sent)
    && (forall i :: 0 <= i < |d.sent| ==> Sized(d.sent[i]))
    && d.attempts <= 1
    && (d.vetting.Some? ==> d.vetting.value == d.instruction.target && d.attempts == 0)
    && (d.tcp.Some? ==>
          && d.attempts == 1 && d.tcp.value.target.port == d.instruction.target.port
          && !BlockedIp(Address(d.tcp.value.target.address, d.tcp.value.target.family)))
    && match d.phase
       case Attaching =>
         NoReply(d.sent) && d.vetting.None? && d.attempts == 0 && !d.timer && !d.settled && !d.relayClosed
       case Dialing => NoReply(d.sent) && !d.settled && !d.relayClosed && d.timer == d.tcp.Some?
         && (d.tcp.Some? ==> !d.tcp.value.destroyed)
       case Splicing => Acked(d.sent) && d.tcp.Some? && d.settled && !d.timer && !d.relayClosed
         && !d.tcp.value.destroyed && d.vetting.None?
       case Closed => d.relayClosed && !d.timer && (d.tcp.Some? ==> d.tcp.value.destroyed)
  }

  lemma SendReply(sent: seq<Frame>, ok: bool)
    requires NoReply(sent)
    ensures WellOrdered(sent + [Dialed(ok)]) && (ok ==> Acked(sent + [Dialed(ok)]))
    ensures Payload(sent + [Dialed(ok)]) == Payload(sent)
  {
    PayloadAppend(sent, [Dialed(ok)]);
    assert Payload([Dialed(ok)]) == [];
    assert (sent + [Dialed(ok)])[|sent|] == Dialed(ok);
  }

  lemma SendOther(sent: seq<Frame>, more: seq<Frame>)
    requires WellOrdered(sent) && forall i :: 0 <= i < |more| ==> !more[i].Dialed?
    requires Acked(sent) || forall i :: 0 <= i < |more| ==> more[i].Attach?
    ensures WellOrdered(sent + more) && (Acked(sent) ==> Acked(sent + more))
    ensures Payload(sent + more) == Payload(sent) + Payload(more)
  {
    PayloadAppend(sent, more);
    var all := sent + more;
    forall i | 0 <= i < |all| && all[i].Data? ensures Acked(all[..i]) {
      if i < |sent| {
        assert all[..i] == sent[..i];
      } else {
        var k :| 0 <= k < |sent| && sent[k] == Dialed(true);
        assert all[..i][k] == Dialed(true);
      }
    }
    if Acked(sent) {
      var k :| 0 <= k < |sent| && sent[k] == Dialed(true);
      assert all[k] == Dialed(true);
    }
  }

  lemma TeardownKeeps(d: Dial)
    requires Inv(d)
    ensures Inv(Teardown(d))
  {}

  /** A refusal in a phase that has not replied yet. */
  lemma RefuseKeeps(d: Dial)
    requires Inv(d) && (d.phase.Dialing? || d.phase.Closed?)
    ensures Inv(Refuse(d)) && Inv(Refuse(d.(settled := true))) && Inv(Refuse(d.(settled := true, timer := false)))
  {
    if d.phase.Dialing? { SendReply(d.sent, false); }
    hide WellOrdered, Acked, Payload;
  }

  function Rank(p: Phase): nat {
    match p case Attaching => 0 case Dialing => 1 case Splicing => 2 case Closed => 3
  }

  /** Phases only advance, a closed dial sends nothing, and a socket once opened keeps its target. */
  predicate Advances(d: Dial, d': Dial) {
    && Rank(d.phase) <= Rank(d'.phase)
    && d.sent <= d'.sent
    && (d.phase.Closed? ==> d'.sent == d.sent && d'.tcp.Some? == d.tcp.Some?)
    && (d.tcp.Some? ==> d'.tcp.Some? && d'.tcp.value.target == d.tcp.value.target)
    && d'.instruction == d.instruction
  }

  lemma StepKeeps(d: Dial, e: Event)
    requires Inv(d)
    ensures Inv(Step(d, e)) && Advances(d, Step(d, e))
  {
    hide WellOrdered, Acked, Payload, Frames, NoReply;
    TeardownKeeps(d);
    if Enabled(d, e) {
      match e
      case RelayOpened(id) => if Enrolled(id) { SendAttach(d, id.value); }
      case RelayMessage(binary, frame, decoded, writable) => MessageKeeps(d, frame, decoded, writable);
      case VetReturned(allowed, literalFamily, answer, connects) =>
        VettingKeeps(d, allowed, literalFamily, answer, connects);
      case TimerFired => if !d.settled { RefuseKeeps(d); }
      case Connected => ConnectKeeps(d);
      case Received(chunk) => DataKeeps(d, chunk);
      case SocketFailed => if !d.settled { RefuseKeeps(d); }
      case _ =>
    }
  }

  lemma SendAttach(d: Dial, deviceId: string)
    requires Inv(d)
    ensures var d' := Send(d, Attach(d.instruction.ticket, deviceId)); Inv(d') && Advances(d, d')
  {
    var f := Attach(d.instruction.ticket, deviceId);
    SendOther(d.sent, [f]);
    assert Payload([f]) == [];
  }

  lemma MessageKeeps(d: Dial, frame: seq<Byte>, decoded: Option<Target>, writable: bool)
    requires Inv(d)
    ensures var d' := OnMessage(d, frame, decoded, writable); Inv(d') && Advances(d, d')
  {
    hide WellOrdered, Acked, Payload;
    if d.phase.Attaching? {
      RefuseKeeps(d.(phase := Dialing));
    }
    TeardownKeeps(d);
  }

  lemma VettingKeeps(d: Dial, allowed: bool, literalFamily: int, answer: Option<seq<Address>>, connects: bool)
    requires Inv(d) && d.vetting.Some?
    ensures var d' := FinishVetting(d, allowed, literalFamily, answer, connects); Inv(d') && Advances(d, d')
  {
    hide WellOrdered, Acked, Payload, Dialable, BlockedIp, PinnedAddress;
    RefuseKeeps(d.(vetting := None));
    if Vets(d.vetting.value, allowed, literalFamily, answer) {
      PinnedNeverBlocked(d.vetting.value.host, literalFamily, answer);
    }
  }

  lemma ConnectKeeps(d: Dial)
    requires Inv(d) && d.tcp.Some?
    ensures var d' := OnConnect(d); Inv(d') && Advances(d, d')
  {
    if d.phase.Dialing? { SendReply(d.sent, true); }
    hide WellOrdered, Acked, Payload;
  }

  lemma DataKeeps(d: Dial, chunk: seq<Byte>)
    requires Inv(d)
    ensures var d' := OnData(d, chunk); Inv(d') && Advances(d, d')
  {
    FramesAreFaithful(chunk);
    if d.phase.Splicing? { SendOther(d.sent, Frames(chunk)); }
    hide WellOrdered, Acked, Payload, Frames;
  }

  // ---------------------------------------------------------------------------------------
  // Whole runs
  // ---------------------------------------------------------------------------------------

  lemma {:induction false} RunKeeps(d: Dial, es: seq<Event>)
    requires Inv(d)
    ensures Inv(Run(d, es)) && Advances(d, Run(d, es))
    decreases es
  {
    if es != [] {
      StepKeeps(d, es[0]);
      RunKeeps(Step(d, es[0]), es[1..]);
      hide Inv, Step;
    }
  }

  /** The bytes the provider's events deliver while the dial is splicing. */
  function Provided(d: Dial, es: seq<Event>): seq<Byte>
    decreases es
  {
    if es == [] then []
    else (if d.phase.Splicing? && es[0].Received? then es[0].chunk else []) + Provided(Step(d, es[0]), es[1..])
  }

  /** The binary frames the relay's events deliver while the dial is splicing and its socket takes them. */
  function Relayed(d: Dial, es: seq<Event>): seq<seq<Byte>>
    decreases es
  {
    if es == [] then []
    else
      (if d.phase.Splicing? && es[0].RelayMessage? && es[0].binary && es[0].writable then [es[0].frame] else [])
      + Relayed(Step(d, es[0]), es[1..])
  }

  function Written(d: Dial): seq<seq<Byte>> {
    if d.tcp.Some? then d.tcp.value.written else []
  }

  lemma StepBytes(d: Dial, e: Event)
    requires Inv(d)
    ensures Payload(Step(d, e).sent) == Payload(d.sent) + (if d.phase.Splicing? && e.Received? then e.chunk else [])
    ensures Written(Step(d, e)) ==
      Written(d) + (if d.phase.Splicing? && e.RelayMessage? && e.binary && e.writable then [e.frame] else [])
  {
    hide Vets, WellOrdered, BlockedIp, Payload, Frames;
    SendsExactly(d, e);
    PayloadAppend(d.sent, Sends(d, e));
    if e.Received? { FramesAreFaithful(e.chunk); }
    ControlHasNoBytes(Sends(d, e));
  }

  lemma ControlHasNoBytes(frames: seq<Frame>)
    ensures |frames| <= 1 && (forall i :: 0 <= i < |frames| ==> !frames[i].Data?) ==> Payload(frames) == []
  {
    if |frames| == 1 { assert Payload(frames[1..]) == []; }
  }

  /** Over every run from a sound state no byte is lost, added or reordered in either direction. */
  lemma {:induction false} BytesPassUnchanged(d: Dial, es: seq<Event>)
    requires Inv(d)
    ensures Payload(Run(d, es).sent) == Payload(d.sent) + Provided(d, es)
    ensures Written(Run(d, es)) == Written(d) + Relayed(d, es)
    decreases es
  {
    hide Inv, Step, Payload, Written;
    if es != [] {
      StepKeeps(d, es[0]);
      StepBytes(d, es[0]);
      BytesPassUnchanged(Step(d, es[0]), es[1..]);
    }
  }

  /**
   * The event refuses the dial: an instruction that does not match, a rejected target, a deadline or a failed
   * connect.
   */
  predicate Refuses(d: Dial, e: Event) {
    match e
    case RelayMessage(binary, _, decoded, _) => d.phase.Attaching? && binary && decoded != Some(d.instruction.target)
    case VetReturned(allowed, literalFamily, answer, _) =>
      d.phase.Dialing? && d.vetting.Some? && !Vets(d.instruction.target, allowed, literalFamily, answer)
    case TimerFired => d.timer
    case SocketFailed => d.phase.Dialing? && d.tcp.Some?
    case _ => false
  }

  /** The event connects the socket of a dial that has not replied. */
  predicate Connects(d: Dial, e: Event) {
    e.Connected? && d.phase.Dialing? && d.tcp.Some?
  }

  /** What the event sends to the relay. */
  function Sends(d: Dial, e: Event): seq<Frame> {
    if Refuses(d, e) then [Dialed(false)]
    else if Connects(d, e) then [Dialed(true)]
    else if e.RelayOpened? && Enrolled(e.deviceId) && !d.phase.Closed? then
      [Attach(d.instruction.ticket, e.deviceId.value)]
    else if e.Received? && d.phase.Splicing? then Frames(e.chunk)
    else []
  }

  /**
   * A reply is sent by exactly the refusing and the connecting events, a ticket by an enrolled open, data
   * while splicing.
   */
  lemma SendsExactly(d: Dial, e: Event)
    requires Inv(d)
    ensures Step(d, e).sent == d.sent + Sends(d, e)
  {
    hide Vets, Frames, WellOrdered, Acked, Payload, BlockedIp;
  }

  /** The events that end a dial which has not ended. */
  predicate Closes(d: Dial, e: Event) {
    || Refuses(d, e) || Ends(e)
    || (d.tcp.Some? && (e.SocketClosed? || e.SocketFailed?))
    || (d.phase.Splicing? && e.RelayMessage? && e.binary && !e.writable)
  }

  /** When a dial closes, splices, awaits its vetting and has a socket, as its history says. */
  lemma AdvancesExactly(d: Dial, e: Event)
    requires Inv(d)
    ensures var d' := Step(d, e);
      && (d'.phase.Closed? <==> d.phase.Closed? || Closes(d, e))
      && (d'.phase.Splicing? <==> (d.phase.Splicing? && !Closes(d, e)) || Connects(d, e))
      && (d.vetting.None? ==>
            (d'.vetting.Some? <==>
              d.phase.Attaching? && e.RelayMessage? && e.binary && e.decoded == Some(d.instruction.target)))
      && (d.vetting.Some? ==> (d'.vetting.None? <==> e.VetReturned?))
      && (d.tcp.None? ==> (d'.tcp.Some? <==> d.phase.Dialing? && d.vetting.Some? && OpenedBy(d', e)))
  {
    hide Vets, Frames, WellOrdered, Acked, Payload, BlockedIp, Dialable;
  }

  /** The socket of this dial was opened by this event: the vetting of the instruction's own target pinned it. */
  predicate OpenedBy(d: Dial, e: Event) {
    && d.tcp.Some? && e.VetReturned? && e.connects
    && Vets(d.instruction.target, e.allowed, e.literalFamily, e.answer)
    && d.tcp.value.target == PinnedTo(d.instruction.target, e.literalFamily, e.answer)
  }

  /** A socket that appears over a run was opened by one of its events. */
  lemma {:induction false} SocketOrigin(d: Dial, es: seq<Event>)
    requires Inv(d) && d.tcp.None? && Run(d, es).tcp.Some?
    ensures exists i :: 0 <= i < |es| && OpenedBy(Run(d, es), es[i])
    decreases es
  {
    hide WellOrdered, Acked, Payload, Dialable, BlockedIp, PinnedAddress, Admissible, Frames, NoReply;
    var d1 := Step(d, es[0]);
    StepKeeps(d, es[0]);
    RunKeeps(d1, es[1..]);
    if d1.tcp.Some? {
      assert OpenedBy(Run(d, es), es[0]);
    } else {
      SocketOrigin(d1, es[1..]);
      var i :| 0 <= i < |es[1..]| && OpenedBy(Run(d, es), es[1..][i]);
      assert OpenedBy(Run(d, es), es[i + 1]);
    }
  }

  /**
   * In every order of events: at most one reply, no data before a positive one; at most one socket,
   * and that to the host literal or to the first address of a lookup of the run in which no address
   * is blocked; a closed dial has closed the relay, destroyed its socket and has no timer; and the
   * bytes handed on in either direction are those of the events that came while splicing, in order.
   */
  lemma DialIsSafe(instruction: Instruction, es: seq<Event>)
    ensures var r := Run(NewDial(instruction), es);
      && (forall i, j :: 0 <= i < j < |r.sent| ==> !(r.sent[i].Dialed? && r.sent[j].Dialed?))
      && (forall i :: 0 <= i < |r.sent| && r.sent[i].Data? ==> Dialed(true) in r.sent[..i])
      && r.attempts <= 1
      && (r.tcp.Some? ==>
            && (exists e <- es :: e.VetReturned? && Vets(instruction.target, e.allowed, e.literalFamily, e.answer)
                  && r.tcp.value.target == PinnedTo(instruction.target, e.literalFamily, e.answer))
            && !BlockedIp(Address(r.tcp.value.target.address, r.tcp.value.target.family)))
      && (r.phase.Closed? ==> r.relayClosed && !r.timer && (r.tcp.Some? ==> r.tcp.value.destroyed))
      && Payload(r.sent) == Provided(NewDial(instruction), es)
      && Written(r) == Relayed(NewDial(instruction), es)
      && (forall i :: 0 <= i < |r.sent| && r.sent[i].Data? ==> 0 < |r.sent[i].bytes| <= EGRESS_MAX_FRAME_BYTES)
  {
    var d := NewDial(instruction);
    RunKeeps(d, es);
    BytesPassUnchanged(d, es);
    var r := Run(d, es);
    hide Run, Vets, PinnedTo, BlockedIp, Provided, Relayed;
    forall i | 0 <= i < |r.sent| && r.sent[i].Data? ensures Dialed(true) in r.sent[..i] {
      assert Acked(r.sent[..i]);
    }
    assert forall i :: 0 <= i < |r.sent| ==> Sized(r.sent[i]);
    if r.tcp.Some? {
      SocketOrigin(d, es);
      var i :| 0 <= i < |es| && OpenedBy(r, es[i]);
      assert es[i] in es && r.instruction == instruction;
    }
  }

  /** Once closed, nothing more is sent and no socket is opened, whatever still happens. */
  lemma ClosedIsFinal(d: Dial, es: seq<Event>)
    requires Inv(d) && d.phase.Closed?
    ensures var r := Run(d, es); r.phase.Closed? && r.sent == d.sent && r.tcp.Some? == d.tcp.Some?
  {
    RunKeeps(d, es);
  }

  /**
   * A dial that closes before it replied, whatever happened before, did so silently exactly when a
   * socket merely closed, the relay ended, or the device turned out not to be enrolled; every other
   * way out replies.
   */
  lemma SilentCloseExactly(instruction: Instruction, es: seq<Event>, e: Event)
    requires var r := Run(NewDial(instruction), es);
      && (forall i :: 0 <= i < |r.sent| ==> !r.sent[i].Dialed?)
      && !r.phase.Closed? && Step(r, e).phase.Closed?
    ensures var r, r' := Run(NewDial(instruction), es), Step(Run(NewDial(instruction), es), e);
      && (r'.sent == r.sent <==> e.RelayEnded? || e.SocketClosed? || (e.RelayOpened? && !Enrolled(e.deviceId)))
      && (r'.sent != r.sent ==> r'.sent == r.sent + [Dialed(false)])
  {
    var r := Run(NewDial(instruction), es);
    RunKeeps(NewDial(instruction), es);
    assert |r.sent + [Dialed(false)]| == |r.sent| + 1;
    hide Run, Vets, Frames, WellOrdered, Payload, BlockedIp;
  }

  /** The events that end a dial which waits for nothing else. */
  predicate Ends(e: Event) {
    e.RelayEnded? || (e.RelayOpened? && !Enrolled(e.deviceId))
  }

  /** Dialing, with no vetting, socket or timer to wait for. */
  predicate Stranded(d: Dial) {
    d.phase.Dialing? && d.vetting.None? && d.tcp.None? && !d.timer && NoReply(d.sent)
  }

  lemma {:induction false} StrandedUntilEnd(d: Dial, es: seq<Event>)
    requires Inv(d) && Stranded(d)
    ensures Stranded(Run(d, es)) <==> forall i :: 0 <= i < |es| ==> !Ends(es[i])
    decreases es
  {
    hide Vets, WellOrdered, Payload, Frames, BlockedIp;
    if es != [] {
      var d1 := Step(d, es[0]);
      StepKeeps(d, es[0]);
      if Ends(es[0]) {
        RunKeeps(d1, es[1..]);
      } else {
        StrandedUntilEnd(d1, es[1..]);
        assert forall i :: 0 < i < |es| ==> es[i] == es[1..][i - 1];
        assert forall i :: 0 <= i < |es[1..]| ==> es[1..][i] == es[i + 1];
      }
    }
  }

  /**
   * When `tcpConnect` itself throws, the dial is left without a socket, a timer or a reply, and stays
   * so, whatever follows, exactly until the relay ends or opens for a device that is not enrolled.
   */
  lemma ThrowingConnectStrands(instruction: Instruction, before: seq<Event>, thrown: Event, after: seq<Event>)
    requires thrown.VetReturned? && !thrown.connects
    requires Vets(instruction.target, thrown.allowed, thrown.literalFamily, thrown.answer)
    requires var r := Run(NewDial(instruction), before); r.vetting.Some? && !r.phase.Closed?
    ensures var d := Step(Run(NewDial(instruction), before), thrown);
      && Stranded(d) && d.attempts == 1
      && (Stranded(Run(d, after)) <==> forall i :: 0 <= i < |after| ==> !Ends(after[i]))
  {
    var r := Run(NewDial(instruction), before);
    RunKeeps(NewDial(instruction), before);
    StepKeeps(r, thrown);
    StrandedUntilEnd(Step(r, thrown), after);
    hide Run, Vets, WellOrdered, Payload, BlockedIp;
  }
}
