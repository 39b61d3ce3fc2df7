/**
 The AVDTP signalling of up to four Bluetooth links (Bluetooth AVDTP 1.3, sections 8.9 to 8.16).
 Two streams share one signalling channel per link, and this device is acceptor and initiator at
 once. The remote devices are arbitrary: any command, response, hang-up or silence may come at any
 time. What sockets, codecs and clocks say while an event is handled comes with the event. A
 Bluetooth address is its packed number, which is never zero.
 */
module AvdtpLink {
  import opened Basics

  const MAX_LINKS: nat := 4
  const SINK_SEID: nat := 1
  const SOURCE_SEID: nat := 2

  datatype Signal =
    | Discover | GetCapabilities | SetConfiguration | GetConfiguration | Reconfigure | Open | Start
    | Close | Suspend | Abort | GetAllCapabilities | DelayReport | Unknown

  /** The one command that waits for its response, and on behalf of which stream it was sent. */
  datatype Command = Command(signal: Signal, input: bool)

  datatype Error = BadPayload | BadSeid | InUse | BadState | Unsupported

  datatype Answer = Accept | Reject(error: Error) | GeneralReject | NoAnswer

  /** What a write or a call leads to. */
  datatype Write = Whole | Blocked | Broken

  datatype Dial = Connected | InProgress | Refused

  /** What the clock and the sockets say while one event is handled, in which at most one command is written. */
  datatype World = World(discoverDue: bool, initiateDue: bool, write: Write, calling: Dial, media: Dial, mtuRead: bool)

  datatype Input = Input(
    want: bool,
    remoteSource: nat,
    configured: bool,
    isOpen: bool,
    streaming: bool,
    remoteActive: bool,
    media: bool,
    mediaConnecting: bool)

  datatype Output = Output(
    want: bool,
    remoteSink: nat,
    starting: bool,
    configured: bool,
    isOpen: bool,
    up: bool,
    streaming: bool,
    media: bool,
    mediaConnecting: bool,
    suspendRequested: bool,
    suspendSupported: bool,
    startRequested: bool)

  datatype Link = Link(
    used: bool,
    address: nat,
    signaling: bool,
    signalingConnecting: bool,
    connecting: bool,
    discovered: bool,
    pending: Option<Command>,
    writePending: bool,
    input: Input,
    output: Output)

  /** A closed input and a closed output; the remote endpoints stay known. */
  function ClosedInput(remoteSource: nat): Input {
    Input(false, remoteSource, false, false, false, false, false, false)
  }

  function ClosedOutput(remoteSink: nat, suspendSupported: bool): Output {
    Output(false, remoteSink, false, false, false, false, false, false, false, false, suspendSupported, false)
  }

  /** A link after it has been reset. */
  const UNUSED: Link := Link(false, 0, false, false, false, false, None, false, ClosedInput(0), ClosedOutput(0, true))

  datatype OutputSlot = OutputSlot(peer: nat, active: bool)

  const CLOSED_SLOT: OutputSlot := OutputSlot(0, false)

  // ------------------------------------------------------------------------------------------
  // What holds of every link at all times.

  predicate InputOk(input: Input, address: nat, peer: nat) {
    && (input.streaming ==> input.isOpen) && (input.isOpen ==> input.configured)
    && (input.media ==> input.isOpen) && (input.mediaConnecting ==> input.media)
    && peer == (if input.streaming then address else 0)
  }

  /** What plays has an active slot; a slot is active otherwise only while its output is up. */
  predicate OutputOk(output: Output, address: nat, slot: OutputSlot) {
    && (output.streaming ==> output.isOpen) && (output.isOpen ==> output.configured)
    && (output.media ==> output.isOpen) && (output.mediaConnecting ==> output.media) && (output.up ==> output.isOpen)
    && slot.peer == (if output.up then address else 0)
    && (output.streaming ==> slot.active) && (slot.active ==> output.up || output.streaming)
  }

  /** A command is outstanding only in a state that its response may change. */
  predicate PendingOk(l: Link) {
    && (l.writePending ==> l.pending.Some?)
    && (l.pending.Some? ==> Sendable(l, l.pending.value.signal, l.pending.value.input))
  }

  /** What has to be set up before a command may be sent. */
  predicate Sendable(l: Link, signal: Signal, input: bool) {
    && l.used && l.signaling && !l.signalingConnecting
    && (signal.Open? ==> if input then l.input.configured else l.output.configured)
    && (signal.Start? ==> !input && l.output.isOpen)
  }

  predicate LinkOk(l: Link, inPeer: nat, slot: OutputSlot) {
    && (if l.used then l.address > 0 && l.signaling else l == UNUSED)
    && InputOk(l.input, l.address, inPeer) && OutputOk(l.output, l.address, slot) && PendingOk(l)
  }

  predicate DistinctAddresses(links: seq<Link>) {
    forall i, j :: 0 <= i < j < |links| && links[i].used && links[j].used ==> links[i].address != links[j].address
  }

  // ------------------------------------------------------------------------------------------
  // Which remote commands are accepted.

  predicate Ready(l: Link, seid: nat) {
    (seid == SOURCE_SEID && l.output.configured && l.output.isOpen) || (seid == SINK_SEID && l.input.isOpen)
  }

  predicate AllReady(l: Link, seids: seq<nat>) {
    seids != [] && forall seid :: seid in seids ==> Ready(l, seid)
  }

  /** The acceptor's state table; `codecOk` says that the command carries a configuration it can decode. */
  predicate Acceptable(l: Link, signal: Signal, seids: seq<nat>, codecOk: bool) {
    var sink, source := seids != [] && seids[0] == SINK_SEID, seids != [] && seids[0] == SOURCE_SEID && l.output.configured;
    match signal
    case Discover => true
    case GetCapabilities => sink
    case GetAllCapabilities => sink
    case SetConfiguration => sink && |seids| >= 2 && !l.input.configured && codecOk
    case Reconfigure => sink && l.input.isOpen && !l.input.streaming && codecOk
    case GetConfiguration => sink && l.input.configured
    case Open => sink && l.input.configured && !l.input.isOpen
    case Start => AllReady(l, seids)
    case Suspend => AllReady(l, seids)
    case Close => source || (sink && l.input.configured)
    case Abort => true
    case DelayReport => source || sink
    case Unknown => false
  }

  // ------------------------------------------------------------------------------------------
  // What happens to a link.

  /** A stream that ends takes its own outstanding command with it. */
  function Cleared(l: Link, input: bool): Link {
    if l.pending.Some? && l.pending.value.input == input then l.(pending := None, writePending := false) else l
  }

  function WithoutInput(l: Link): Link {
    Cleared(l, true).(input := ClosedInput(l.input.remoteSource))
  }

  /** Without an input to keep it, the link goes with its output. */
  function WithoutOutput(l: Link): Link {
    if !l.input.want && !l.input.configured then UNUSED
    else Cleared(l, false).(output := ClosedOutput(l.output.remoteSink, l.output.suspendSupported), connecting := false)
  }

  /** The input has failed; a link that serves nothing else is closed. */
  function InputFailed(l: Link): Link {
    if !l.output.want && !l.output.up then UNUSED else WithoutInput(l)
  }

  /** A command is written unless one is outstanding; it then waits for its response, and a failed write closes the link. */
  predicate Sent(before: Link, after: Link, signal: Signal, input: bool, w: World) {
    if !before.used || before.signalingConnecting || before.pending.Some? then after == before
    else if w.write.Broken? then after == UNUSED
    else after == before.(pending := Some(Command(signal, input)), writePending := w.write.Blocked?)
  }

  /** What an accepted command does to the link, whatever state it was in. */
  predicate Obeyed(before: Link, after: Link, signal: Signal, seids: seq<nat>) {
    match signal
    case SetConfiguration => after == Configured(before)
    case Reconfigure => after == Configured(before)
    case Open => after == before.(input := before.input.(isOpen := true))
    case Start => after == Played(before, seids, true)
    case Suspend => after == Played(before, seids, false)
    case Close => after == Released(before, seids)
    case Abort => after == Released(before, seids)
    case _ => after == before
  }

  /** The remote device has set up the input, and from now on it drives it. */
  function Configured(l: Link): Link {
    l.(input := l.input.(configured := true, remoteActive := true, want := true), connecting := l.connecting && l.output.want)
  }

  /** The streams that are named play or pause, and no other. */
  function Played(l: Link, seids: seq<nat>, starting: bool): Link {
    var input := if SINK_SEID in seids then l.input.(streaming := starting) else l.input;
    var output := if SOURCE_SEID !in seids then l.output
                  else l.output.(streaming := starting, startRequested := false, suspendRequested := l.output.suspendRequested && starting);
    l.(input := input, output := output)
  }

  /** The output's audio slot plays or pauses with it. */
  function SlotPlayed(slot: OutputSlot, seids: seq<nat>, starting: bool): OutputSlot {
    if SOURCE_SEID in seids then slot.(active := starting) else slot
  }

  /** The named stream is released, and the other one is kept as long as the link is. */
  function Released(l: Link, seids: seq<nat>): Link {
    if seids != [] && seids[0] == SOURCE_SEID && l.output.configured then WithoutOutput(l)
    else if seids != [] && seids[0] == SINK_SEID then WithoutInput(l)
    else l
  }

  /** The media channel is there: an output is started, if it can tell how large its packets may be. */
  predicate MediaReady(before: Link, after: Link, input: bool, w: World) {
    if input then after == before.(input := before.input.(media := true, mediaConnecting := false))
    else
      var l := before.(output := before.output.(media := true, mediaConnecting := false));
      if w.mtuRead then Sent(l, after, Start, false, w) else after == WithoutOutput(l)
  }

  lemma ReadyAgain(before: Link, middle: Link, after: Link, input: bool, w: World)
    requires middle == if input then before.(input := before.input.(media := true, mediaConnecting := false))
                       else before.(output := before.output.(media := true, mediaConnecting := false))
    requires MediaReady(middle, after, input, w)
    ensures MediaReady(before, after, input, w)
  {
    hide Sent, WithoutOutput;
    if input {
      assert after == before.(input := before.input.(media := true, mediaConnecting := false));
    } else {
      assert middle.(output := middle.output.(media := true, mediaConnecting := false)) ==
             before.(output := before.output.(media := true, mediaConnecting := false));
    }
  }

  /** The media channel is called for unless it is there; a stream that cannot get one is closed. */
  predicate MediaBegun(before: Link, after: Link, input: bool, w: World) {
    if if input then before.input.media else before.output.media then after == before
    else
      match w.media
      case Connected => MediaReady(before, after, input, w)
      case InProgress =>
        after == if input then before.(input := before.input.(media := true, mediaConnecting := true))
                 else before.(output := before.output.(media := true, mediaConnecting := true))
      case Refused => after == if input then InputFailed(before) else WithoutOutput(before)
  }

  lemma NoMedia(l: Link, input: bool, w: World)
    requires w.media.Refused? && !(if input then l.input.media else l.output.media)
    ensures MediaBegun(l, if input then InputFailed(l) else WithoutOutput(l), input, w)
  {
  }

  /** The remote device has answered the output's command. */
  predicate OutputAnswered(before: Link, after: Link, accepted: bool, signal: Signal, codecOk: bool, w: World) {
    var output := before.output;
    if !accepted then
      after == if signal.Suspend? then before.(output := output.(suspendSupported := false, suspendRequested := false)) else WithoutOutput(before)
    else
      match signal
      case GetCapabilities => if codecOk then Sent(before, after, SetConfiguration, false, w) else after == WithoutOutput(before)
      case SetConfiguration => Sent(before.(output := output.(configured := true)), after, Open, false, w)
      case Open => MediaBegun(before.(output := output.(isOpen := true)), after, false, w)
      case Start =>
        after == before.(output := output.(streaming := true, startRequested := false, suspendRequested := false, up := true),
                         connecting := before.connecting && output.up)
      case Suspend =>
        after == before.(output := output.(streaming := false, suspendRequested := false, suspendSupported := true, startRequested := false))
      case _ => after == before
  }

  /** The remote device has answered the input's command; what it does itself takes precedence. */
  predicate InputAnswered(before: Link, after: Link, accepted: bool, signal: Signal, codecOk: bool, w: World) {
    if !accepted then after == if before.input.remoteActive then before else InputFailed(before)
    else
      match signal
      case GetCapabilities =>
        if before.input.remoteActive || before.input.configured then after == before
        else if codecOk then Sent(before, after, SetConfiguration, true, w)
        else after == InputFailed(before)
      case SetConfiguration =>
        if before.input.remoteActive then after == before
        else Sent(before.(input := before.input.(configured := true)), after, Open, true, w)
      case Open => MediaBegun(before.(input := before.input.(isOpen := true)), after, true, w)
      case _ => after == before
  }

  /** The remote device has listed its endpoints; with none to use, the link is of no use. */
  function Discovered(l: Link, sinkSeid: nat, sourceSeid: nat): Link {
    var input := l.input.(remoteSource := sourceSeid, want := sourceSeid != 0 || l.input.configured);
    var output := l.output.(remoteSink := sinkSeid, want := sinkSeid != 0);
    if !output.want && !input.want then UNUSED
    else l.(discovered := true, input := input, output := output,
            connecting := output.want && (l.connecting || !output.up))
  }

  /** Whichever command was outstanding has been answered. */
  predicate Answered(before: Link, after: Link, accepted: bool, sinkSeid: nat, sourceSeid: nat, codecOk: bool, w: World)
    requires before.pending.Some?
  {
    var command, l := before.pending.value, before.(pending := None, writePending := false);
    if command.signal.Discover? then after == if accepted then Discovered(l, sinkSeid, sourceSeid) else UNUSED
    else if command.input then InputAnswered(l, after, accepted, command.signal, codecOk, w)
    else OutputAnswered(l, after, accepted, command.signal, codecOk, w)
  }

  /** The pump asks the remote device to suspend or start the output, and remembers that. */
  predicate Requested(before: Link, after: Link, signal: Signal, w: World) {
    var output := if signal.Suspend? then before.output.(suspendRequested := true) else before.output.(startRequested := true);
    if before.signalingConnecting then after == before
    else if w.write.Broken? then after == UNUSED
    else after == before.(pending := Some(Command(signal, false)), writePending := w.write.Blocked?, output := output)
  }

  /** The pump has to ask for the output's suspension: it has been silent for long. */
  predicate SuspendDue(l: Link, silent: bool) {
    l.used && l.output.up && l.output.streaming && silent && l.output.suspendSupported && !l.output.suspendRequested && l.pending.None?
  }

  /** A paused output that has something to play and is not being changed already. */
  predicate Resuming(l: Link, signalActive: bool) {
    l.output.up && !l.output.streaming && signalActive && !l.output.startRequested && (l.pending.None? || l.pending.value.input)
  }

  /** The pump could send a packet, if it is sent as much as one. */
  predicate Sendworthy(l: Link, ready: bool) {
    ready && l.output.media && !l.output.suspendRequested && (l.pending.None? || l.pending.value.input)
  }

  /**
   The audio pump. It works on an output that is up and plays or has something to play: it asks for a
   suspension or a start when that is due, gives up an output whose queue overruns or whose packets
   cannot be made or sent, and leaves every other link as it is.
   */
  predicate Pumped(before: Link, after: Link, pump: Round, w: World) {
    if !before.used || !before.output.up then after == before
    else if SuspendDue(before, pump.silent) then Requested(before, after, Suspend, w)
    else if !before.output.streaming && !Resuming(before, pump.active) then after == before
    else if pump.overrun || (Sendworthy(before, pump.ready) && pump.unfit) then after == WithoutOutput(before)
    else if !before.output.streaming && Sendworthy(before, pump.ready) && before.pending.None? && pump.enough
    then Requested(before, after, Start, w)
    else after == before
  }

  /** The signalling channel is up, or cannot be had. */
  predicate SignalingUp(before: Link, after: Link, w: World) {
    if before.signalingConnecting && w.calling.Refused? then after == UNUSED
    else Driven(before.(signalingConnecting := false, connecting := before.connecting && before.output.want), after, w)
  }

  /** A link on which this device can send something. */
  predicate Free(l: Link) {
    l.used && !l.signalingConnecting && l.pending.None?
  }

  /** It is time to ask for the endpoints; a source that has set up its own stream is not asked. */
  predicate DiscoverNext(l: Link, w: World) {
    Free(l) && !l.discovered && w.discoverDue && (l.output.want || !(l.input.remoteActive || l.input.configured))
  }

  /** The output has to be set up. */
  predicate OutputNext(l: Link) {
    Free(l) && l.discovered && l.output.want && !l.output.up && !l.output.starting && l.output.remoteSink != 0
  }

  /** The input has to be set up, which waits for the output and for the remote device to do it itself. */
  predicate InputNext(l: Link, w: World) {
    && Free(l) && l.discovered && (l.output.want ==> l.output.up) && w.initiateDue
    && l.input.want && l.input.remoteSource != 0 && !l.input.configured && !l.input.remoteActive
  }

  /** This device goes on setting up its streams: with the one command that is next, or not at all. */
  predicate Driven(before: Link, after: Link, w: World) {
    && (DiscoverNext(before, w) ==> Sent(before, after, Discover, false, w))
    && (OutputNext(before) ==> Sent(before.(output := before.output.(starting := true)), after, GetCapabilities, false, w))
    && (InputNext(before, w) ==> Sent(before, after, GetCapabilities, true, w))
    && (!DiscoverNext(before, w) && !OutputNext(before) && !InputNext(before, w) ==> after == before)
  }

  lemma StandingStill(l: Link, w: World)
    requires !Free(l) || (l.discovered && l.output.want && !l.output.up && l.output.starting)
    ensures Driven(l, l, w)
  {
  }

  /**
   The link stands still exactly if no command is due, or one is outstanding; otherwise the command
   that is due is outstanding afterwards, or the link has broken over it. It is never more than one.
   */
  lemma DrivenIff(before: Link, after: Link, w: World)
    requires Driven(before, after, w)
    ensures after == before <==> !DiscoverNext(before, w) && !OutputNext(before) && !InputNext(before, w)
    ensures DiscoverNext(before, w) && after != UNUSED ==> after.pending == Some(Command(Discover, false)) && after.output == before.output
    ensures OutputNext(before) && after != UNUSED ==> after.pending == Some(Command(GetCapabilities, false)) && after.output.starting
    ensures InputNext(before, w) && after != UNUSED ==> after.pending == Some(Command(GetCapabilities, true)) && after.output == before.output
    ensures after == UNUSED <==> before == UNUSED || (after != before && w.write.Broken?)
    ensures !(DiscoverNext(before, w) && OutputNext(before)) && !(DiscoverNext(before, w) && InputNext(before, w)) && !(OutputNext(before) && InputNext(before, w))
  {
  }

  /** What a round of the audio pump finds: long silence, something to play, a queue that overruns, no packet waiting, packets that cannot be made or sent, enough for one. */
  datatype Round = Round(silent: bool, active: bool, overrun: bool, ready: bool, unfit: bool, enough: bool)

  datatype What =
    | SignalingConnected
    | Received(signal: Signal, seids: seq<nat>, codecOk: bool)
    | Responded(accepted: bool, sinkSeid: nat, sourceSeid: nat, codecOk: bool)
    | HungUp
    | Writable
    | InputMedia(error: bool)
    | OutputMedia(error: bool)
    | Pump(round: Round)
    | Timers(connectLate: bool, responseLate: bool)
    | UserDisconnect

  datatype Event =
    | Accepted(address: nat, source: bool, sink: bool, world: World)
    | Connect(address: nat, source: bool, sink: bool, world: World)
    | OnLink(index: nat, what: What, world: World)

  /** The remote device has accepted this command, which was outstanding. */
  predicate Agreed(before: Link, what: What, signal: Signal, input: bool) {
    what.Responded? && what.accepted && before.pending == Some(Command(signal, input))
  }

  /** The output plays although this device does not take it for started. */
  predicate PlaysEarly(l: Link) {
    l.output.streaming && !l.output.up
  }

  /** Nothing is configured, opened or put up unless the remote device has asked for it or accepted it. */
  predicate ByConsent(before: Link, after: Link, what: What) {
    && (after.output.configured && !before.output.configured ==> Agreed(before, what, SetConfiguration, false))
    && (after.output.isOpen && !before.output.isOpen ==> Agreed(before, what, Open, false))
    && (after.output.up && !before.output.up ==> Agreed(before, what, Start, false))
    && (after.output.streaming && !before.output.streaming ==> Agreed(before, what, Start, false) || (what.Received? && what.signal.Start?))
    && (after.input.configured && !before.input.configured ==>
          Agreed(before, what, SetConfiguration, true) || (what.Received? && (what.signal.SetConfiguration? || what.signal.Reconfigure?) && what.codecOk))
    && (after.input.isOpen && !before.input.isOpen ==> Agreed(before, what, Open, true) || (what.Received? && what.signal.Open?))
    && (after.input.streaming && !before.input.streaming ==> what.InputMedia? || (what.Received? && what.signal.Start?))
    && (PlaysEarly(after) && !PlaysEarly(before) ==>
          what.Received? && what.signal.Start? && SOURCE_SEID in what.seids && !before.output.up)
  }

  predicate QuietOutput(before: Output, after: Output) {
    && (after.configured ==> before.configured) && (after.isOpen ==> before.isOpen)
    && (after.up ==> before.up) && (after.streaming ==> before.streaming)
    && (after.streaming && before.up ==> after.up)
  }

  predicate QuietInput(before: Input, after: Input) {
    (after.configured ==> before.configured) && (after.isOpen ==> before.isOpen) && (after.streaming ==> before.streaming)
  }

  /** Nothing is up that was not up before, and what goes on playing stays up. */
  predicate Quiet(before: Link, after: Link) {
    QuietOutput(before.output, after.output) && QuietInput(before.input, after.input)
  }

  lemma ClosingIsQuiet(l: Link)
    ensures Quiet(l, UNUSED) && Quiet(l, WithoutInput(l)) && Quiet(l, WithoutOutput(l)) && Quiet(l, InputFailed(l))
  {
    assert Quiet(l, UNUSED);
    assert Quiet(l, WithoutInput(l));
  }

  lemma SendingIsQuiet(before: Link, after: Link, signal: Signal, input: bool, w: World)
    requires Sent(before, after, signal, input, w)
    ensures Quiet(before, after)
  {
  }

  lemma QuietChain(a: Link, b: Link, c: Link)
    requires Quiet(a, b) && Quiet(b, c)
    ensures Quiet(a, c)
  {
  }

  lemma SameInput(input: Input)
    ensures QuietInput(input, input)
  {
  }

  lemma SameOutput(output: Output)
    ensures QuietOutput(output, output)
  {
  }

  lemma MediaFlagsAreQuiet(l: Link, connecting: bool)
    ensures Quiet(l, l.(input := l.input.(media := true, mediaConnecting := connecting)))
    ensures Quiet(l, l.(output := l.output.(media := true, mediaConnecting := connecting)))
  {
    SameInput(l.input);
    SameOutput(l.output);
    InputMediaIsQuiet(l, connecting);
    assert Quiet(l, l.(output := l.output.(media := true, mediaConnecting := connecting))) by {
      hide QuietInput;
    }
  }

  lemma InputMediaIsQuiet(l: Link, connecting: bool)
    ensures Quiet(l, l.(input := l.input.(media := true, mediaConnecting := connecting)))
  {
    SameOutput(l.output);
    hide QuietOutput;
  }

  lemma ReadyIsQuiet(before: Link, after: Link, input: bool, w: World)
    requires MediaReady(before, after, input, w)
    ensures Quiet(before, after)
  {
    hide Sent, WithoutOutput, WithoutInput, InputFailed, Quiet;
    MediaFlagsAreQuiet(before, false);
    if !input {
      var l := before.(output := before.output.(media := true, mediaConnecting := false));
      ClosingIsQuiet(l);
      if Sent(l, after, Start, false, w) {
        SendingIsQuiet(l, after, Start, false, w);
      }
      QuietChain(before, l, after);
    }
  }

  lemma MediaIsQuiet(before: Link, after: Link, input: bool, w: World)
    requires MediaBegun(before, after, input, w)
    ensures Quiet(before, after)
  {
    hide MediaReady, Quiet, InputFailed, WithoutOutput;
    MediaFlagsAreQuiet(before, true);
    SameIsQuiet(before);
    ClosingIsQuiet(before);
    if MediaReady(before, after, input, w) {
      ReadyIsQuiet(before, after, input, w);
    }
  }

  lemma SameIsQuiet(l: Link)
    ensures Quiet(l, l)
  {
  }

  lemma DrivingIsQuiet(before: Link, after: Link, w: World)
    requires Driven(before, after, w)
    ensures Quiet(before, after)
  {
    hide Sent;
    var starting := before.(output := before.output.(starting := true));
    if Sent(before, after, Discover, false, w) {
      SendingIsQuiet(before, after, Discover, false, w);
    }
    if Sent(before, after, GetCapabilities, true, w) {
      SendingIsQuiet(before, after, GetCapabilities, true, w);
    }
    if Sent(starting, after, GetCapabilities, false, w) {
      SendingIsQuiet(starting, after, GetCapabilities, false, w);
    }
  }

  lemma PumpingIsQuiet(before: Link, after: Link, pump: Round, w: World)
    requires Pumped(before, after, pump, w)
    ensures Quiet(before, after)
  {
    hide WithoutOutput;
    ClosingIsQuiet(before);
  }

  /** One flag goes up, by consent, and whatever follows is quiet. */
  lemma ThenQuiet(before: Link, middle: Link, after: Link, what: What)
    requires ByConsent(before, middle, what) && Quiet(middle, after)
    ensures ByConsent(before, after, what)
  {
  }

  /** What an answer to the output's command puts up by itself. */
  lemma OutputFlags(l: Link, signal: Signal, what: What, before: Link)
    requires Agreed(before, what, signal, false) && l == before.(pending := None, writePending := false)
    ensures signal.SetConfiguration? ==> ByConsent(before, l.(output := l.output.(configured := true)), what)
    ensures signal.Open? ==> ByConsent(before, l.(output := l.output.(isOpen := true)), what)
  {
  }

  lemma StartedByConsent(l: Link, what: What, before: Link)
    requires Agreed(before, what, Start, false) && l == before.(pending := None, writePending := false)
    ensures ByConsent(before, l.(output := l.output.(streaming := true, startRequested := false, suspendRequested := false, up := true),
                                 connecting := l.connecting && l.output.up), what)
  {
  }

  lemma InputFlags(l: Link, signal: Signal, what: What, before: Link)
    requires Agreed(before, what, signal, true) && l == before.(pending := None, writePending := false)
    ensures signal.SetConfiguration? ==> ByConsent(before, l.(input := l.input.(configured := true)), what)
    ensures signal.Open? ==> ByConsent(before, l.(input := l.input.(isOpen := true)), what)
  {
  }

  lemma SuspendingIsQuiet(l: Link)
    ensures Quiet(l, l.(output := l.output.(suspendSupported := false, suspendRequested := false)))
    ensures Quiet(l, l.(output := l.output.(streaming := false, suspendRequested := false, suspendSupported := true, startRequested := false)))
  {
    SameInput(l.input);
    hide QuietInput;
  }

  lemma TakenIsQuiet(before: Link)
    ensures Quiet(before, before.(pending := None, writePending := false))
  {
  }

  lemma OpenedByConsent(before: Link, l: Link, after: Link, input: bool, what: What, w: World)
    requires ByConsent(before, l, what) && MediaBegun(l, after, input, w)
    ensures ByConsent(before, after, what)
  {
    hide MediaBegun, ByConsent, Quiet;
    MediaIsQuiet(l, after, input, w);
    ThenQuiet(before, l, after, what);
  }

  /** A rejected command, or an accepted suspension, puts nothing up. */
  lemma OutputStopsByConsent(before: Link, l: Link, after: Link, signal: Signal, what: What, w: World)
    requires l == before.(pending := None, writePending := false) && what.Responded? && (!what.accepted || signal.Suspend?)
    requires OutputAnswered(l, after, what.accepted, signal, what.codecOk, w)
    ensures ByConsent(before, after, what)
  {
    hide WithoutOutput, InputFailed, WithoutInput, ByConsent, Quiet;
    TakenIsQuiet(before);
    ClosingIsQuiet(l);
    SuspendingIsQuiet(l);
    QuietChain(before, l, after);
    QuietIsByConsent(before, after, what);
  }

  lemma CapabilitiesByConsent(before: Link, l: Link, after: Link, what: What, w: World)
    requires l == before.(pending := None, writePending := false) && what.Responded? && what.accepted
    requires OutputAnswered(l, after, true, GetCapabilities, what.codecOk, w)
    ensures ByConsent(before, after, what)
  {
    hide Sent, WithoutOutput, InputFailed, WithoutInput, ByConsent, Quiet;
    TakenIsQuiet(before);
    ClosingIsQuiet(l);
    if what.codecOk {
      SendingIsQuiet(l, after, SetConfiguration, false, w);
    }
    QuietChain(before, l, after);
    QuietIsByConsent(before, after, what);
  }

  lemma ConfiguredByConsent(before: Link, l: Link, after: Link, what: What, w: World)
    requires l == before.(pending := None, writePending := false) && Agreed(before, what, SetConfiguration, false)
    requires OutputAnswered(l, after, true, SetConfiguration, what.codecOk, w)
    ensures ByConsent(before, after, what)
  {
    hide Sent, ByConsent, Quiet;
    OutputFlags(l, SetConfiguration, what, before);
    var m := l.(output := l.output.(configured := true));
    SendingIsQuiet(m, after, Open, false, w);
    ThenQuiet(before, m, after, what);
  }

  lemma OutputByConsent(before: Link, l: Link, after: Link, signal: Signal, what: What, w: World)
    requires l == before.(pending := None, writePending := false) && what.Responded? && before.pending == Some(Command(signal, false))
    requires OutputAnswered(l, after, what.accepted, signal, what.codecOk, w)
    ensures ByConsent(before, after, what)
  {
    hide Sent, WithoutOutput, MediaBegun, ByConsent;
    if !what.accepted || signal.Suspend? {
      OutputStopsByConsent(before, l, after, signal, what, w);
    } else if signal.GetCapabilities? {
      CapabilitiesByConsent(before, l, after, what, w);
    } else if signal.SetConfiguration? {
      ConfiguredByConsent(before, l, after, what, w);
    } else {
      OutputFlags(l, signal, what, before);
      if signal.Start? {
        StartedByConsent(l, what, before);
      } else if signal.Open? {
        OpenedByConsent(before, l.(output := l.output.(isOpen := true)), after, false, what, w);
      } else {
        TakenIsQuiet(before);
        QuietIsByConsent(before, after, what);
      }
    }
  }

  lemma InputByConsent(before: Link, l: Link, after: Link, signal: Signal, what: What, w: World)
    requires l == before.(pending := None, writePending := false) && what.Responded? && before.pending == Some(Command(signal, true))
    requires InputAnswered(l, after, what.accepted, signal, what.codecOk, w)
    ensures ByConsent(before, after, what)
  {
    hide Sent, WithoutOutput, InputFailed, WithoutInput, MediaBegun, ByConsent, Quiet;
    TakenIsQuiet(before);
    ClosingIsQuiet(l);
    SameIsQuiet(l);
    if what.accepted && signal.GetCapabilities? && !(l.input.remoteActive || l.input.configured) && what.codecOk {
      SendingIsQuiet(l, after, SetConfiguration, true, w);
    }
    if what.accepted && signal.SetConfiguration? && !l.input.remoteActive {
      InputFlags(l, signal, what, before);
      var m := l.(input := l.input.(configured := true));
      SendingIsQuiet(m, after, Open, true, w);
      ThenQuiet(before, m, after, what);
    } else if what.accepted && signal.Open? {
      InputFlags(l, signal, what, before);
      OpenedByConsent(before, l.(input := l.input.(isOpen := true)), after, true, what, w);
    } else {
      QuietChain(before, l, after);
      QuietIsByConsent(before, after, what);
    }
  }

  /** An answer puts up only what was asked for. */
  lemma AnswersByConsent(before: Link, middle: Link, after: Link, accepted: bool, sinkSeid: nat, sourceSeid: nat, codecOk: bool, w: World)
    requires before.pending.Some? && Answered(before, middle, accepted, sinkSeid, sourceSeid, codecOk, w) && Driven(middle, after, w)
    ensures ByConsent(before, after, Responded(accepted, sinkSeid, sourceSeid, codecOk))
  {
    hide InputAnswered, OutputAnswered, Driven, ByConsent, Quiet, Discovered;
    var what := Responded(accepted, sinkSeid, sourceSeid, codecOk);
    var command, l := before.pending.value, before.(pending := None, writePending := false);
    if command.signal.Discover? {
      TakenIsQuiet(before);
      DiscoveryIsQuiet(l, sinkSeid, sourceSeid);
      QuietChain(before, l, middle);
      QuietIsByConsent(before, middle, what);
    } else if command.input {
      InputByConsent(before, l, middle, command.signal, what, w);
    } else {
      OutputByConsent(before, l, middle, command.signal, what, w);
    }
    DrivingIsQuiet(middle, after, w);
    ThenQuiet(before, middle, after, what);
  }

  lemma DiscoveryIsQuiet(l: Link, sinkSeid: nat, sourceSeid: nat)
    ensures Quiet(l, Discovered(l, sinkSeid, sourceSeid)) && Quiet(l, UNUSED)
  {
  }

  lemma CommandsByConsent(before: Link, after: Link, signal: Signal, seids: seq<nat>, codecOk: bool)
    requires if Acceptable(before, signal, seids, codecOk) then Obeyed(before, after, signal, seids) else after == before
    ensures ByConsent(before, after, Received(signal, seids, codecOk))
  {
    hide WithoutInput, WithoutOutput;
    ClosingIsQuiet(before);
  }

  lemma QuietIsByConsent(before: Link, after: Link, what: What)
    requires Quiet(before, after)
    ensures ByConsent(before, after, what)
  {
  }

  lemma SignalingIsQuiet(before: Link, after: Link, w: World)
    requires SignalingUp(before, after, w)
    ensures Quiet(before, after)
  {
    hide Driven;
    var l := before.(signalingConnecting := false, connecting := before.connecting && before.output.want);
    if Driven(l, after, w) {
      DrivingIsQuiet(l, after, w);
    }
  }

  /** What an event on a link does to it. */
  ghost predicate Happened(before: Link, after: Link, what: What, w: World) {
    match what
    case SignalingConnected => if before.signalingConnecting then SignalingUp(before, after, w) else after == before
    case Received(signal, seids, codecOk) =>
      if !before.signalingConnecting && Acceptable(before, signal, seids, codecOk) then Obeyed(before, after, signal, seids)
      else after == before
    case Responded(accepted, sinkSeid, sourceSeid, codecOk) =>
      if before.pending.None? then after == before
      else exists middle: Link :: Answered(before, middle, accepted, sinkSeid, sourceSeid, codecOk, w) && Driven(middle, after, w)
    case HungUp => after == UNUSED
    case Writable =>
      after == if !before.writePending || w.write.Blocked? then before else if w.write.Broken? then UNUSED else before.(writePending := false)
    case InputMedia(error) =>
      after == if !before.input.media then before
               else if error then InputFailed(before)
               else if before.input.mediaConnecting then before.(input := before.input.(mediaConnecting := false))
               else before.(input := before.input.(streaming := true))
    case OutputMedia(error) =>
      if before.output.media && error then after == WithoutOutput(before)
      else if before.output.media && before.output.mediaConnecting then MediaReady(before, after, false, w)
      else after == before
    case Pump(pump) => Pumped(before, after, pump, w)
    case Timers(connectLate, responseLate) =>
      if (before.connecting && connectLate) || (before.pending.Some? && !before.signalingConnecting && responseLate) then after == UNUSED
      else Driven(before, after, w)
    case UserDisconnect => after == UNUSED
  }

  /** What the event makes of the output's audio slot, as long as the output goes on. */
  function SlotMoved(before: Link, slot: OutputSlot, what: What): OutputSlot {
    match what
    case Received(signal, seids, codecOk) =>
      if !before.signalingConnecting && Acceptable(before, signal, seids, codecOk) && (signal.Start? || signal.Suspend?)
      then SlotPlayed(slot, seids, signal.Start?) else slot
    case Responded(accepted, _, _, _) =>
      if accepted && before.pending == Some(Command(Start, false)) then OutputSlot(before.address, true)
      else if accepted && before.pending == Some(Command(Suspend, false)) then slot.(active := false)
      else slot
    case Pump(pump) =>
      var waiting := (before.pending.Some? && !before.pending.value.input) || before.output.startRequested;
      if before.used && before.output.up && !before.output.streaming then slot.(active := pump.active && (!waiting || slot.active)) else slot
    case _ => slot
  }

  lemma SlotStays(before: Link, slot: OutputSlot, what: What)
    requires !(what.Received? || what.Responded? || what.Pump?)
    ensures SlotMoved(before, slot, what) == slot
  {
  }

  /** An output that is neither up nor playing has a closed slot. */
  function SlotFor(after: Link, slot: OutputSlot): OutputSlot {
    if !after.output.up && !after.output.streaming then CLOSED_SLOT else slot
  }

  /** What an event on a link does to it and to its slot. */
  ghost predicate Effect(before: Link, slot: OutputSlot, after: Link, moved: OutputSlot, what: What, w: World) {
    Happened(before, after, what, w) && moved == SlotFor(after, SlotMoved(before, slot, what))
  }

  lemma SlotSettles(l: Link, inPeer: nat, slot: OutputSlot, moved: OutputSlot)
    requires LinkOk(l, inPeer, slot) && slot in {moved, CLOSED_SLOT}
    ensures slot == SlotFor(l, moved)
  {
  }

  /** Whatever the event: no stream is set up or plays that the remote device has not asked for or agreed to. */
  lemma EventsByConsent(before: Link, after: Link, what: What, w: World)
    requires Happened(before, after, what, w)
    ensures ByConsent(before, after, what)
  {
    hide Quiet, ByConsent, Answered, Driven, Acceptable, Obeyed, Pumped, MediaReady, WithoutOutput, InputFailed, SignalingUp;
    ClosingIsQuiet(before);
    SmallChangesByConsent(before, what);
    match what {
      case SignalingConnected =>
        if before.signalingConnecting {
          SignalingIsQuiet(before, after, w);
          QuietIsByConsent(before, after, what);
        }
      case Received(signal, seids, codecOk) =>
        if !before.signalingConnecting && Acceptable(before, signal, seids, codecOk) {
          CommandsByConsent(before, after, signal, seids, codecOk);
        }
      case Responded(accepted, sinkSeid, sourceSeid, codecOk) =>
        if before.pending.Some? {
          var middle: Link :| Answered(before, middle, accepted, sinkSeid, sourceSeid, codecOk, w) && Driven(middle, after, w);
          AnswersByConsent(before, middle, after, accepted, sinkSeid, sourceSeid, codecOk, w);
        }
      case HungUp => QuietIsByConsent(before, after, what);
      case Writable =>
        if after == UNUSED {
          QuietIsByConsent(before, after, what);
        }
      case InputMedia(error) =>
        if before.input.media && error {
          QuietIsByConsent(before, after, what);
        }
      case OutputMedia(error) =>
        if before.output.media && error {
          QuietIsByConsent(before, after, what);
        } else if before.output.media && before.output.mediaConnecting {
          ReadyIsQuiet(before, after, false, w);
          QuietIsByConsent(before, after, what);
        }
      case Pump(pump) =>
        PumpingIsQuiet(before, after, pump, w);
        QuietIsByConsent(before, after, what);
      case Timers(connectLate, responseLate) =>
        if Driven(before, after, w) {
          DrivingIsQuiet(before, after, w);
        }
        QuietIsByConsent(before, after, what);
      case UserDisconnect => QuietIsByConsent(before, after, what);
    }
  }

  lemma SmallChangesByConsent(before: Link, what: What)
    ensures ByConsent(before, before, what)
    ensures ByConsent(before, before.(writePending := false), what)
    ensures what.InputMedia? ==> ByConsent(before, before.(input := before.input.(mediaConnecting := false)), what)
    ensures what.InputMedia? ==> ByConsent(before, before.(input := before.input.(streaming := true)), what)
  {
  }

  ghost predicate AllOk(links: seq<Link>, inputPeers: seq<nat>, outputs: seq<OutputSlot>) {
    && |links| == |inputPeers| == |outputs| == MAX_LINKS
    && (forall i :: 0 <= i < MAX_LINKS ==> LinkOk(links[i], inputPeers[i], outputs[i]))
    && DistinctAddresses(links)
  }

  lemma AllSettle(links: seq<Link>, inputPeers: seq<nat>, outputs: seq<OutputSlot>, was: seq<OutputSlot>)
    requires AllOk(links, inputPeers, outputs) && |was| == MAX_LINKS
    requires forall j :: 0 <= j < MAX_LINKS ==> outputs[j] in {was[j], CLOSED_SLOT}
    ensures forall j :: 0 <= j < MAX_LINKS ==> outputs[j] == SlotFor(links[j], was[j])
  {
    forall j | 0 <= j < MAX_LINKS
      ensures outputs[j] == SlotFor(links[j], was[j])
    {
      SlotSettles(links[j], inputPeers[j], outputs[j], was[j]);
    }
  }

  /** A link may change as long as it stays consistent and keeps its device. */
  lemma PutOk(links: seq<Link>, inputPeers: seq<nat>, outputs: seq<OutputSlot>, i: nat, l: Link, inPeer: nat, slot: OutputSlot)
    requires AllOk(links, inputPeers, outputs) && i < MAX_LINKS
    requires LinkOk(l, inPeer, slot) && (l.used ==> links[i].used && l.address == links[i].address)
    ensures AllOk(links[i := l], inputPeers[i := inPeer], outputs[i := slot])
  {
  }

  // ------------------------------------------------------------------------------------------
  // All links together.

  datatype Snapshot = Snapshot(links: seq<Link>, inputPeers: seq<nat>, outputs: seq<OutputSlot>)

  predicate Known(links: seq<Link>, address: nat) {
    exists j :: 0 <= j < |links| && links[j].used && links[j].address == address
  }

  /** An incoming channel on a link that is there: its signalling if this device has been calling, or the input's media. */
  predicate ChannelTaken(before: Link, after: Link, w: World) {
    if before.signalingConnecting
    then Driven(before.(signalingConnecting := false, connecting := before.connecting && before.output.want), after, w)
    else if before.input.isOpen && !before.input.media && !before.input.mediaConnecting
    then after == before.(input := before.input.(media := true))
    else after == before
  }

  /** A link as it is taken for a device. */
  function Taken(address: nat, calling: bool, connecting: bool, input: bool, output: bool): Link {
    UNUSED.(used := true, address := address, signaling := true, signalingConnecting := calling, connecting := connecting,
            input := UNUSED.input.(want := input), output := UNUSED.output.(want := output))
  }

  predicate OthersSame(before: seq<Link>, after: seq<Link>, i: nat) {
    |before| == |after| && forall j :: 0 <= j < |before| && j != i ==> after[j] == before[j]
  }

  /** A remote device has opened a channel. */
  ghost predicate Opened(before: seq<Link>, after: seq<Link>, address: nat, source: bool, sink: bool, w: World) {
    if address == 0 then after == before
    else if Known(before, address)
    then exists i :: 0 <= i < |before| && before[i].used && before[i].address == address && OthersSame(before, after, i) &&
                     ChannelTaken(before[i], after[i], w)
    else if forall i :: 0 <= i < |before| ==> before[i].used then after == before
    else exists i :: 0 <= i < |before| && !before[i].used && OthersSame(before, after, i) &&
                     Driven(Taken(address, false, sink, !(sink && !source), sink), after[i], w)
  }

  /** This device has called one, or could not. */
  ghost predicate Called(before: seq<Link>, after: seq<Link>, address: nat, source: bool, sink: bool, w: World) {
    if address == 0 || Known(before, address) || w.calling.Refused? || forall i :: 0 <= i < |before| ==> before[i].used then after == before
    else exists i :: 0 <= i < |before| && !before[i].used && OthersSame(before, after, i) &&
                     if w.calling.InProgress? then after[i] == Taken(address, true, true, source, !(source && !sink))
                     else SignalingUp(Taken(address, false, true, source, !(source && !sink)), after[i], w)
  }

  /** What an event does to all links and their slots. */
  ghost predicate StepEffect(a: Snapshot, b: Snapshot, event: Event) {
    && AllOk(a.links, a.inputPeers, a.outputs) && AllOk(b.links, b.inputPeers, b.outputs)
    && (event.OnLink? || forall j :: 0 <= j < MAX_LINKS ==> b.outputs[j] == SlotFor(b.links[j], a.outputs[j]))
    && match event
       case Accepted(address, source, sink, w) => Opened(a.links, b.links, address, source, sink, w)
       case Connect(address, source, sink, w) => Called(a.links, b.links, address, source, sink, w)
       case OnLink(i, what, w) =>
         if i < MAX_LINKS && a.links[i].used
         then OthersSame(a.links, b.links, i) && (forall j :: 0 <= j < MAX_LINKS && j != i ==> b.outputs[j] == a.outputs[j]) &&
              Effect(a.links[i], a.outputs[i], b.links[i], b.outputs[i], what, w)
         else a == b
  }

  /** Every step of the trace is the effect of its event. */
  ghost predicate Follows(trace: seq<Snapshot>, events: seq<Event>) {
    |trace| == |events| + 1 && forall k :: 0 <= k < |events| ==> StepEffect(trace[k], trace[k + 1], events[k])
  }

  /** Without an address there is no event. */
  lemma NobodyCalls(links: seq<Link>)
    ensures forall source, sink, w :: Opened(links, links, 0, source, sink, w) && Called(links, links, 0, source, sink, w)
  {
  }

  lemma ChannelIsQuiet(before: Link, after: Link, w: World)
    requires ChannelTaken(before, after, w)
    ensures Quiet(before, after)
  {
    hide Driven;
    var l := before.(signalingConnecting := false, connecting := before.connecting && before.output.want);
    if Driven(l, after, w) {
      DrivingIsQuiet(l, after, w);
    }
  }

  lemma NewIsQuiet(l: Link, after: Link, w: World)
    requires Quiet(UNUSED, l) && (after == l || Driven(l, after, w) || SignalingUp(l, after, w))
    ensures Quiet(UNUSED, after)
  {
    hide Driven, SignalingUp, Quiet;
    if Driven(l, after, w) {
      DrivingIsQuiet(l, after, w);
      QuietChain(UNUSED, l, after);
    } else if SignalingUp(l, after, w) {
      SignalingIsQuiet(l, after, w);
      QuietChain(UNUSED, l, after);
    }
  }

  lemma OpenedIsQuiet(before: seq<Link>, after: seq<Link>, address: nat, source: bool, sink: bool, k: nat, w: World)
    requires Opened(before, after, address, source, sink, w) && k < |before|
    requires forall i :: 0 <= i < |before| && !before[i].used ==> before[i] == UNUSED
    ensures k < |after| && Quiet(before[k], after[k])
  {
    hide Driven, ChannelTaken;
    SameIsQuiet(before[k]);
    if Known(before, address) && address > 0 {
      var i :| 0 <= i < |before| && before[i].used && before[i].address == address && OthersSame(before, after, i) && ChannelTaken(before[i], after[i], w);
      ChannelIsQuiet(before[i], after[i], w);
    } else if address > 0 && !(forall i :: 0 <= i < |before| ==> before[i].used) {
      var i :| 0 <= i < |before| && !before[i].used && OthersSame(before, after, i) &&
               Driven(Taken(address, false, sink, !(sink && !source), sink), after[i], w);
      NewIsQuiet(Taken(address, false, sink, !(sink && !source), sink), after[i], w);
    }
  }

  lemma CalledIsQuiet(before: seq<Link>, after: seq<Link>, address: nat, source: bool, sink: bool, k: nat, w: World)
    requires Called(before, after, address, source, sink, w) && k < |before|
    requires forall i :: 0 <= i < |before| && !before[i].used ==> before[i] == UNUSED
    ensures k < |after| && Quiet(before[k], after[k])
  {
    hide SignalingUp, Driven;
    SameIsQuiet(before[k]);
    if after != before {
      var i :| 0 <= i < |before| && !before[i].used && OthersSame(before, after, i) &&
               if w.calling.InProgress? then after[i] == Taken(address, true, true, source, !(source && !sink))
               else SignalingUp(Taken(address, false, true, source, !(source && !sink)), after[i], w);
      NewIsQuiet(Taken(address, w.calling.InProgress?, true, source, !(source && !sink)), after[i], w);
    }
  }

  class Bluetooth {
    var links: seq<Link>
    var inputPeers: seq<nat>
    var outputs: seq<OutputSlot>

    ghost predicate Valid()
      reads this
    {
      AllOk(links, inputPeers, outputs)
    }

    ghost function Now(): Snapshot
      reads this
    {
      Snapshot(links, inputPeers, outputs)
    }

    /** No link with another device has changed, and a new link is one with this device. */
    twostate predicate OnlyDevice(address: nat)
      reads this
    {
      && |links| == |old(links)|
      && forall j :: 0 <= j < |links| ==>
           || links[j] == old(links)[j]
           || ((old(links)[j].used ==> old(links)[j].address == address) && (links[j].used ==> links[j].address == address))
    }

    /** Only link i and its slots have changed, and the link still serves the same device if any. */
    twostate predicate OnlyLink(i: nat)
      reads this
    {
      && |links| == |old(links)| && |inputPeers| == |old(inputPeers)| && |outputs| == |old(outputs)|
      && (forall j :: 0 <= j < |links| && j != i ==> links[j] == old(links)[j])
      && (forall j :: 0 <= j < |inputPeers| && j != i ==> inputPeers[j] == old(inputPeers)[j])
      && (forall j :: 0 <= j < |outputs| && j != i ==> outputs[j] == old(outputs)[j])
      && (i < |links| && links[i].used ==> old(links)[i].used && links[i].address == old(links)[i].address)
    }

    /** The output slot has been closed if anything. */
    twostate predicate SlotKept(i: nat)
      reads this
    {
      |outputs| == |old(outputs)| && (i < |outputs| ==> outputs[i] == old(outputs)[i] || outputs[i] == CLOSED_SLOT)
    }

    twostate predicate SlotsKept()
      reads this
    {
      |outputs| == |old(outputs)| && forall j :: 0 <= j < |outputs| ==> outputs[j] in {old(outputs)[j], CLOSED_SLOT}
    }

    constructor ()
      ensures Valid() && forall i :: 0 <= i < MAX_LINKS ==> !links[i].used
    {
      links, inputPeers := seq(MAX_LINKS, _ => UNUSED), seq(MAX_LINKS, _ => 0);
      outputs := seq(MAX_LINKS, _ => OutputSlot(0, false));
    }

    /** Writes back link i and its two audio slots. */
    method Put(i: nat, l: Link, inPeer: nat, slot: OutputSlot)
      requires Valid() && i < MAX_LINKS
      requires LinkOk(l, inPeer, slot) && (l.used ==> links[i].used && l.address == links[i].address)
      modifies this
      ensures Valid() && OnlyLink(i) && links[i] == l && inputPeers[i] == inPeer && outputs[i] == slot
    {
      PutOk(links, inputPeers, outputs, i, l, inPeer, slot);
      links, inputPeers, outputs := links[i := l], inputPeers[i := inPeer], outputs[i := slot];
    }

    // ----------------------------------------------------------------------------------------
    // Closing.

    method CloseLink(i: nat)
      requires Valid() && i < MAX_LINKS
      modifies this
      ensures Valid() && OnlyLink(i) && SlotKept(i) && links[i] == UNUSED
      ensures !links[i].used && links[i].address == 0 && links[i].pending == None && !links[i].discovered && !links[i].connecting
      ensures !links[i].input.want && links[i].input.remoteSource == 0 && !links[i].input.remoteActive && !links[i].input.media
      ensures !links[i].output.want && links[i].output.remoteSink == 0 && !links[i].output.starting && links[i].output.suspendSupported
      ensures if old(links)[i].used then outputs[i] == CLOSED_SLOT else outputs == old(outputs) && inputPeers == old(inputPeers)
    {
      if links[i].used {
        Put(i, UNUSED, 0, CLOSED_SLOT);
      }
    }

    method CloseInputStream(i: nat)
      requires Valid() && i < MAX_LINKS
      modifies this
      ensures Valid() && OnlyLink(i) && SlotKept(i) && links[i] == WithoutInput(old(links)[i]) && outputs == old(outputs)
      ensures var input := links[i].input;
              && !input.want && !input.remoteActive && !input.configured && !input.isOpen && !input.streaming && !input.media
              && input.remoteSource == old(links)[i].input.remoteSource && links[i].output == old(links)[i].output
    {
      var l := links[i];
      if l.pending.Some? && l.pending.value.input {
        l := l.(pending := None, writePending := false);
      }
      Put(i, l.(input := ClosedInput(l.input.remoteSource)), 0, outputs[i]);
      assert outputs == old(outputs);
    }

    method CloseOutputStream(i: nat)
      requires Valid() && i < MAX_LINKS
      modifies this
      ensures Valid() && OnlyLink(i) && SlotKept(i) && links[i] == WithoutOutput(old(links)[i])
      ensures var output := links[i].output;
              && !output.want && !output.starting && !output.configured && !output.isOpen && !output.up && !output.streaming
              && !output.media && !output.suspendRequested && !output.startRequested
      ensures old(links)[i].input.want || old(links)[i].input.configured ==>
                links[i].input == old(links)[i].input && links[i].output.remoteSink == old(links)[i].output.remoteSink
      ensures old(links)[i].used ==> outputs[i] == CLOSED_SLOT
    {
      var l := links[i];
      if !l.input.want && !l.input.configured {
        CloseLink(i);
        return;
      }
      if l.pending.Some? && !l.pending.value.input {
        l := l.(pending := None, writePending := false);
      }
      Put(i, l.(output := ClosedOutput(l.output.remoteSink, l.output.suspendSupported), connecting := false),
          inputPeers[i], CLOSED_SLOT);
    }

    method FailInput(i: nat)
      requires Valid() && i < MAX_LINKS
      modifies this
      ensures Valid() && OnlyLink(i) && SlotKept(i) && links[i] == InputFailed(old(links)[i])
    {
      CloseInputStream(i);
      var l := links[i];
      if !l.output.want && !l.output.up && !l.input.want && !l.input.configured {
        CloseLink(i);
      }
    }

    // ----------------------------------------------------------------------------------------
    // Sending commands.

    /** Sends a command unless one is outstanding; a failed write closes the link. */
    method SendCommand(i: nat, signal: Signal, input: bool, w: World) returns (sent: bool)
      requires Valid() && i < MAX_LINKS
      requires links[i].used && !links[i].signalingConnecting ==> Sendable(links[i], signal, input)
      modifies this
      ensures Valid() && OnlyLink(i) && SlotKept(i) && Sent(old(links)[i], links[i], signal, input, w)
      ensures sent <==> old(links)[i].used && old(links)[i].pending.None? && links[i].pending == Some(Command(signal, input))
      ensures links[i] != UNUSED || old(links)[i] == UNUSED ==> inputPeers == old(inputPeers) && outputs == old(outputs)
    {
      var l := links[i];
      if !l.used || !l.signaling || l.signalingConnecting || l.pending.Some? || l.writePending {
        return false;
      }
      if !w.write.Broken? {
        Put(i, l.(pending := Some(Command(signal, input)), writePending := w.write.Blocked?), inputPeers[i], outputs[i]);
        assert inputPeers == old(inputPeers) && outputs == old(outputs);
        return true;
      }
      CloseLink(i);
      return false;
    }

    /** Goes on writing a command that was only partly taken. */
    method FlushCommand(i: nat, w: World)
      requires Valid() && i < MAX_LINKS
      modifies this
      ensures Valid() && OnlyLink(i) && SlotKept(i)
      ensures links[i] == if !old(links)[i].writePending || w.write.Blocked? then old(links)[i]
                          else if w.write.Broken? then UNUSED else old(links)[i].(writePending := false)
    {
      if !links[i].writePending {
        return;
      }
      if w.write.Whole? {
        Put(i, links[i].(writePending := false), inputPeers[i], outputs[i]);
      } else if w.write.Broken? {
        CloseLink(i);
      }
    }

    method SetStarting(i: nat)
      requires Valid() && i < MAX_LINKS && links[i].used
      modifies this
      ensures Valid() && OnlyLink(i) && SlotKept(i) && links[i] == old(links)[i].(output := old(links)[i].output.(starting := true))
    {
      hide DistinctAddresses;
      Put(i, links[i].(output := links[i].output.(starting := true)), inputPeers[i], outputs[i]);
    }

    /** Sends the next command this device has to set up, once its time has come. */
    method DriveLink(i: nat, w: World)
      requires Valid() && i < MAX_LINKS
      modifies this
      ensures Valid() && OnlyLink(i) && SlotKept(i) && Driven(old(links)[i], links[i], w)
      ensures old(links)[i].pending.Some? ==> links == old(links) && inputPeers == old(inputPeers) && outputs == old(outputs)
    {
      hide LinkOk, DistinctAddresses, Sent;
      LinkFacts(i);
      var l := links[i];
      if !l.used || !l.signaling || l.signalingConnecting || l.pending.Some? || l.writePending {
        return;
      }
      var sent;
      if !l.discovered {
        if (!l.output.want && (l.input.remoteActive || l.input.configured)) || !w.discoverDue {
          return;
        }
        sent := SendCommand(i, Discover, false, w);
        return;
      }
      if l.output.want && !l.output.up {
        if !l.output.starting && l.output.remoteSink != 0 {
          SetStarting(i);
          sent := SendCommand(i, GetCapabilities, false, w);
        }
        return;
      }
      if l.input.want && l.input.remoteSource != 0 && !l.input.configured && !l.input.remoteActive && w.initiateDue {
        sent := SendCommand(i, GetCapabilities, true, w);
      }
    }

    // ----------------------------------------------------------------------------------------
    // Commands from the remote device.

    /** Marks the input as playing and starts its audio slot. */
    method StartInputAudio(i: nat)
      requires Valid() && i < MAX_LINKS && links[i].used && links[i].input.isOpen
      modifies this
      ensures Valid() && OnlyLink(i) && SlotKept(i)
      ensures links[i] == old(links)[i].(input := old(links)[i].input.(streaming := true)) && outputs == old(outputs)
    {
      var l := links[i];
      Put(i, l.(input := l.input.(streaming := true)), l.address, outputs[i]);
    }

    method StopInputAudio(i: nat)
      requires Valid() && i < MAX_LINKS && links[i].used
      modifies this
      ensures Valid() && OnlyLink(i) && SlotKept(i)
      ensures links[i] == old(links)[i].(input := old(links)[i].input.(streaming := false)) && outputs == old(outputs)
    {
      var l := links[i];
      Put(i, l.(input := l.input.(streaming := false)), 0, outputs[i]);
    }

    /** START and SUSPEND name several endpoints; all are checked before anything is done. */
    method CheckSeids(l: Link, seids: seq<nat>) returns (error: Option<Error>, source: bool, sink: bool)
      ensures error.None? <==> AllReady(l, seids)
      ensures error.None? ==> (source <==> SOURCE_SEID in seids) && (sink <==> SINK_SEID in seids)
    {
      if seids == [] {
        return Some(BadPayload), false, false;
      }
      source, sink := false, false;
      for k := 0 to |seids|
        invariant forall seid :: seid in seids[..k] ==> Ready(l, seid)
        invariant (source <==> SOURCE_SEID in seids[..k]) && (sink <==> SINK_SEID in seids[..k])
      {
        var seid := seids[k];
        assert seid in seids && seids[..k + 1] == seids[..k] + [seid];
        if seid == SOURCE_SEID && l.output.configured {
          if !l.output.isOpen {
            return Some(BadState), false, false;
          }
          source := true;
        } else if seid == SINK_SEID {
          if !l.input.isOpen {
            return Some(BadState), false, false;
          }
          sink := true;
        } else {
          return Some(BadSeid), false, false;
        }
      }
      assert seids[..|seids|] == seids;
      return None, source, sink;
    }

    /** START and SUSPEND: every named endpoint changes, or none does. */
    method StartOrSuspend(i: nat, starting: bool, seids: seq<nat>) returns (answer: Answer)
      requires Valid() && i < MAX_LINKS && links[i].used
      modifies this
      ensures Valid() && OnlyLink(i)
      ensures answer == Accept <==> AllReady(old(links)[i], seids)
      ensures answer == Accept ==> links[i] == Played(old(links)[i], seids, starting)
      ensures answer == Accept ==> outputs[i] == SlotPlayed(old(outputs)[i], seids, starting)
      ensures answer != Accept ==> answer.Reject? && links == old(links) && inputPeers == old(inputPeers) && outputs == old(outputs)
    {
      var error, source, sink := CheckSeids(links[i], seids);
      if error.Some? {
        return Reject(error.value);
      }
      assert sink ==> Ready(links[i], SINK_SEID);
      assert source ==> Ready(links[i], SOURCE_SEID);
      if source {
        PlayOutput(i, starting);
      }
      if sink {
        PlayInput(i, starting);
      }
      return Accept;
    }

    method PlayOutput(i: nat, starting: bool)
      requires Valid() && i < MAX_LINKS && links[i].used && (starting ==> links[i].output.isOpen)
      modifies this
      ensures Valid() && OnlyLink(i)
      ensures links[i] == Played(old(links)[i], [SOURCE_SEID], starting)
      ensures outputs[i] == old(outputs)[i].(active := starting)
    {
      var l := links[i];
      var output := l.output.(startRequested := false, streaming := starting, suspendRequested := l.output.suspendRequested && starting);
      Put(i, l.(output := output), inputPeers[i], outputs[i].(active := starting));
    }

    method PlayInput(i: nat, starting: bool)
      requires Valid() && i < MAX_LINKS && links[i].used && (starting ==> links[i].input.isOpen)
      modifies this
      ensures Valid() && OnlyLink(i) && SlotKept(i)
      ensures links[i] == Played(old(links)[i], [SINK_SEID], starting) && outputs == old(outputs)
    {
      if starting && !links[i].input.streaming {
        StartInputAudio(i);
      } else if !starting && links[i].input.streaming {
        StopInputAudio(i);
      }
    }

    method Configure(i: nat, signal: Signal, seids: seq<nat>, codecOk: bool) returns (answer: Answer)
      requires Valid() && i < MAX_LINKS && links[i].used && (signal.SetConfiguration? || signal.Reconfigure?)
      modifies this
      ensures Valid() && OnlyLink(i) && SlotKept(i)
      ensures answer == Accept <==> Acceptable(old(links)[i], signal, seids, codecOk)
      ensures answer == Accept ==> Obeyed(old(links)[i], links[i], signal, seids)
      ensures answer != Accept ==> answer.Reject? && links == old(links) && inputPeers == old(inputPeers) && outputs == old(outputs)
    {
      var l := links[i];
      if |seids| < (if signal.Reconfigure? then 1 else 2) {
        return Reject(BadPayload);
      }
      if seids[0] != SINK_SEID {
        return Reject(BadSeid);
      }
      if signal.SetConfiguration? && l.input.configured {
        return Reject(InUse);
      }
      if signal.Reconfigure? && (!l.input.isOpen || l.input.streaming) {
        return Reject(BadState);
      }
      if !codecOk {
        return Reject(Unsupported);
      }
      Put(i, l.(input := l.input.(configured := true, remoteActive := true, want := true),
                connecting := l.connecting && l.output.want),
          inputPeers[i], outputs[i]);
      return Accept;
    }

    method Release(i: nat, signal: Signal, seids: seq<nat>) returns (answer: Answer)
      requires Valid() && i < MAX_LINKS && links[i].used && (signal.Close? || signal.Abort?)
      modifies this
      ensures Valid() && OnlyLink(i) && SlotKept(i)
      ensures answer == Accept <==> Acceptable(old(links)[i], signal, seids, true)
      ensures answer == Accept ==> links[i] == Released(old(links)[i], seids)
      ensures answer != Accept ==> answer.Reject? && links == old(links) && inputPeers == old(inputPeers) && outputs == old(outputs)
    {
      var l := links[i];
      if seids != [] && seids[0] == SOURCE_SEID && l.output.configured {
        CloseOutputStream(i);
      } else if seids != [] && seids[0] == SINK_SEID {
        if signal.Close? && !l.input.configured {
          return Reject(BadState);
        }
        CloseInputStream(i);
      } else if signal.Close? {
        return Reject(BadSeid);
      }
      return Accept;
    }

    method OpenInput(i: nat, seids: seq<nat>) returns (answer: Answer)
      requires Valid() && i < MAX_LINKS && links[i].used
      modifies this
      ensures Valid() && OnlyLink(i) && SlotKept(i)
      ensures answer == Accept <==> Acceptable(old(links)[i], Open, seids, true)
      ensures answer == Accept ==> Obeyed(old(links)[i], links[i], Open, seids)
      ensures answer != Accept ==> answer.Reject? && links == old(links) && inputPeers == old(inputPeers) && outputs == old(outputs)
    {
      var l := links[i];
      if seids == [] || seids[0] != SINK_SEID {
        return Reject(BadSeid);
      }
      if !l.input.configured || l.input.isOpen {
        return Reject(BadState);
      }
      Put(i, l.(input := l.input.(isOpen := true)), inputPeers[i], outputs[i]);
      return Accept;
    }

    /**
     Answers a command. It is accepted exactly in the states the table allows, an accepted command
     is obeyed, and a rejected one changes nothing at all.
     */
    method HandleCommand(i: nat, signal: Signal, seids: seq<nat>, codecOk: bool) returns (answer: Answer)
      requires Valid() && i < MAX_LINKS && links[i].used
      modifies this
      ensures Valid() && OnlyLink(i)
      ensures answer == Accept <==> Acceptable(old(links)[i], signal, seids, codecOk)
      ensures answer == Accept ==> Obeyed(old(links)[i], links[i], signal, seids)
      ensures if answer == Accept && (signal.Start? || signal.Suspend?)
              then outputs[i] == SlotPlayed(old(outputs)[i], seids, signal.Start?) else SlotKept(i)
      ensures answer != Accept ==> links == old(links) && inputPeers == old(inputPeers) && outputs == old(outputs)
      ensures signal.Unknown? <==> answer == GeneralReject
    {
      var l := links[i];
      var sink := seids != [] && seids[0] == SINK_SEID;
      var source := seids != [] && seids[0] == SOURCE_SEID && l.output.configured;
      match signal {
        case Discover => answer := Accept;
        case GetCapabilities =>
          answer := if seids == [] then Reject(BadPayload) else if sink then Accept else Reject(BadSeid);
        case GetAllCapabilities =>
          answer := if seids == [] then Reject(BadPayload) else if sink then Accept else Reject(BadSeid);
        case SetConfiguration => answer := Configure(i, signal, seids, codecOk);
        case Reconfigure => answer := Configure(i, signal, seids, codecOk);
        case GetConfiguration =>
          answer := if !sink then Reject(BadSeid) else if l.input.configured then Accept else Reject(BadState);
        case Open => answer := OpenInput(i, seids);
        case Start => answer := StartOrSuspend(i, true, seids);
        case Suspend => answer := StartOrSuspend(i, false, seids);
        case Close => answer := Release(i, signal, seids);
        case Abort => answer := Release(i, signal, seids);
        case DelayReport => answer := if source || sink then Accept else Reject(BadSeid);
        case Unknown => answer := GeneralReject;
      }
    }

    // ----------------------------------------------------------------------------------------
    // Responses from the remote device.

    /** The outstanding command has been answered; what the answer carries is in the parameters. */
    method HandleResponse(i: nat, accepted: bool, sinkSeid: nat, sourceSeid: nat, codecOk: bool, w: World)
      requires Valid() && i < MAX_LINKS && links[i].pending.Some?
      modifies this
      ensures Valid() && OnlyLink(i)
      ensures exists middle: Link :: Answered(old(links)[i], middle, accepted, sinkSeid, sourceSeid, codecOk, w) && Driven(middle, links[i], w)
      ensures outputs[i] in {SlotMoved(old(links)[i], old(outputs)[i], Responded(accepted, sinkSeid, sourceSeid, codecOk)), CLOSED_SLOT}
    {
      hide LinkOk, DistinctAddresses, InputAnswered, OutputAnswered, Discovered, Driven;
      var l := links[i];
      var command := TakePending(i);
      if command.signal.Discover? {
        if !accepted {
          CloseLink(i);
          StandingStill(links[i], w);
          assert Answered(l, links[i], accepted, sinkSeid, sourceSeid, codecOk, w) && Driven(links[i], links[i], w);
          return;
        }
        HandleDiscoverResponse(i, sinkSeid, sourceSeid);
      } else if command.input {
        HandleInputResponse(i, accepted, command.signal, codecOk, w);
      } else {
        HandleOutputResponse(i, accepted, command.signal, codecOk, w);
      }
      assert Answered(l, links[i], accepted, sinkSeid, sourceSeid, codecOk, w);
      DriveLink(i, w);
    }

    method TakePending(i: nat) returns (command: Command)
      requires Valid() && i < MAX_LINKS && links[i].pending.Some?
      modifies this
      ensures Valid() && OnlyLink(i) && links[i] == old(links)[i].(pending := None, writePending := false) && outputs == old(outputs)
      ensures command == old(links)[i].pending.value && Sendable(links[i], command.signal, command.input)
    {
      hide DistinctAddresses;
      var l := links[i];
      command := l.pending.value;
      Put(i, l.(pending := None, writePending := false), inputPeers[i], outputs[i]);
      assert outputs == old(outputs);
    }

    method HandleDiscoverResponse(i: nat, sinkSeid: nat, sourceSeid: nat)
      requires Valid() && i < MAX_LINKS && links[i].used && links[i].pending.None?
      modifies this
      ensures Valid() && OnlyLink(i) && SlotKept(i) && links[i] == Discovered(old(links)[i], sinkSeid, sourceSeid)
    {
      hide DistinctAddresses;
      var l := links[i];
      var input := l.input.(remoteSource := sourceSeid, want := sourceSeid != 0 || l.input.configured);
      var output := l.output.(remoteSink := sinkSeid, want := sinkSeid != 0);
      if !output.want && !input.want {
        CloseLink(i);
        return;
      }
      var connecting := if output.want && !l.connecting && !output.up then true else l.connecting && output.want;
      Put(i, l.(discovered := true, input := input, output := output, connecting := connecting), inputPeers[i], outputs[i]);
    }

    method HandleOutputResponse(i: nat, accepted: bool, signal: Signal, codecOk: bool, w: World)
      requires Valid() && i < MAX_LINKS && links[i].used && !links[i].signalingConnecting && links[i].pending.None?
      requires Sendable(links[i], signal, false)
      modifies this
      ensures Valid() && OnlyLink(i) && OutputAnswered(old(links)[i], links[i], accepted, signal, codecOk, w)
      ensures signal.Start? && accepted ==> outputs[i] == OutputSlot(old(links)[i].address, true)
      ensures signal.Suspend? && accepted ==> outputs[i] == old(outputs)[i].(active := false)
      ensures !(accepted && (signal.Start? || signal.Suspend?)) ==> SlotKept(i)
    {
      hide LinkOk, DistinctAddresses, Sent, MediaBegun, WithoutOutput;
      var sent;
      if !accepted {
        RejectedOutput(i, signal, w);
        return;
      }
      match signal {
        case GetCapabilities =>
          if codecOk {
            sent := SendCommand(i, SetConfiguration, false, w);
          } else {
            CloseOutputStream(i);
          }
        case SetConfiguration => OutputConfigured(i, w);
        case Open => OutputOpened(i, w);
        case Start => OutputStarted(i, w);
        case Suspend => OutputSuspended(i, w);
        case _ =>
      }
    }

    method RejectedOutput(i: nat, signal: Signal, w: World)
      requires Valid() && i < MAX_LINKS && links[i].used
      modifies this
      ensures Valid() && OnlyLink(i) && SlotKept(i) && OutputAnswered(old(links)[i], links[i], false, signal, false, w)
    {
      var l := links[i];
      if signal.Suspend? {
        Put(i, l.(output := l.output.(suspendSupported := false, suspendRequested := false)), inputPeers[i], outputs[i]);
      } else {
        CloseOutputStream(i);
      }
    }

    method OutputConfigured(i: nat, w: World)
      requires Valid() && i < MAX_LINKS && links[i].used && !links[i].signalingConnecting && links[i].pending.None?
      modifies this
      ensures Valid() && OnlyLink(i) && SlotKept(i) && OutputAnswered(old(links)[i], links[i], true, SetConfiguration, false, w)
    {
      hide LinkOk, DistinctAddresses, Sent, MediaBegun, WithoutOutput;
      SetConfigured(i);
      var sent := SendCommand(i, Open, false, w);
    }

    method SetConfigured(i: nat)
      requires Valid() && i < MAX_LINKS && links[i].used
      modifies this
      ensures Valid() && OnlyLink(i) && links[i] == old(links)[i].(output := old(links)[i].output.(configured := true)) && outputs == old(outputs)
      ensures links[i].signaling
    {
      hide DistinctAddresses;
      Put(i, links[i].(output := links[i].output.(configured := true)), inputPeers[i], outputs[i]);
      assert outputs == old(outputs);
    }

    method SetOpened(i: nat)
      requires Valid() && i < MAX_LINKS && links[i].used && links[i].output.configured
      modifies this
      ensures Valid() && OnlyLink(i) && links[i] == old(links)[i].(output := old(links)[i].output.(isOpen := true)) && outputs == old(outputs)
    {
      hide DistinctAddresses;
      Put(i, links[i].(output := links[i].output.(isOpen := true)), inputPeers[i], outputs[i]);
      assert outputs == old(outputs);
    }

    method OutputOpened(i: nat, w: World)
      requires Valid() && i < MAX_LINKS && links[i].used && !links[i].signalingConnecting && links[i].pending.None?
      requires links[i].output.configured
      modifies this
      ensures Valid() && OnlyLink(i) && SlotKept(i) && OutputAnswered(old(links)[i], links[i], true, Open, false, w)
    {
      hide LinkOk, DistinctAddresses, Sent, MediaBegun, WithoutOutput;
      SetOpened(i);
      var ok := ConnectMedia(i, false, w);
      if !ok {
        NoMedia(links[i], false, w);
        CloseOutputStream(i);
      }
    }

    method OutputStarted(i: nat, w: World)
      requires Valid() && i < MAX_LINKS && links[i].used && links[i].output.isOpen
      modifies this
      ensures Valid() && OnlyLink(i) && OutputAnswered(old(links)[i], links[i], true, Start, false, w)
      ensures outputs[i] == OutputSlot(old(links)[i].address, true)
    {
      var l := links[i];
      var output := l.output.(streaming := true, startRequested := false, suspendRequested := false, up := true);
      Put(i, l.(output := output, connecting := l.connecting && l.output.up), inputPeers[i], OutputSlot(l.address, true));
    }

    method OutputSuspended(i: nat, w: World)
      requires Valid() && i < MAX_LINKS && links[i].used
      modifies this
      ensures Valid() && OnlyLink(i) && OutputAnswered(old(links)[i], links[i], true, Suspend, false, w)
      ensures outputs[i] == old(outputs)[i].(active := false)
    {
      var l := links[i];
      var output := l.output.(streaming := false, suspendRequested := false, suspendSupported := true, startRequested := false);
      Put(i, l.(output := output), inputPeers[i], outputs[i].(active := false));
    }

    method HandleInputResponse(i: nat, accepted: bool, signal: Signal, codecOk: bool, w: World)
      requires Valid() && i < MAX_LINKS && links[i].used && !links[i].signalingConnecting && links[i].pending.None?
      requires Sendable(links[i], signal, true)
      modifies this
      ensures Valid() && OnlyLink(i) && SlotKept(i) && InputAnswered(old(links)[i], links[i], accepted, signal, codecOk, w)
    {
      hide LinkOk, DistinctAddresses, Sent, MediaBegun, InputFailed;
      var l := links[i];
      var sent;
      if !accepted {
        if !l.input.remoteActive {
          FailInput(i);
        }
        return;
      }
      match signal {
        case GetCapabilities =>
          if l.input.remoteActive || l.input.configured {
            return;
          }
          if codecOk {
            sent := SendCommand(i, SetConfiguration, true, w);
          } else {
            FailInput(i);
          }
        case SetConfiguration =>
          if l.input.remoteActive {
            return;
          }
          InputConfigured(i, w);
        case Open => InputOpened(i, w);
        case _ =>
      }
    }

    method InputConfigured(i: nat, w: World)
      requires Valid() && i < MAX_LINKS && links[i].used && !links[i].signalingConnecting && links[i].pending.None?
      modifies this
      ensures Valid() && OnlyLink(i) && SlotKept(i)
      ensures Sent(old(links)[i].(input := old(links)[i].input.(configured := true)), links[i], Open, true, w)
    {
      hide DistinctAddresses, Sent;
      Put(i, links[i].(input := links[i].input.(configured := true)), inputPeers[i], outputs[i]);
      var sent := SendCommand(i, Open, true, w);
    }

    method InputOpened(i: nat, w: World)
      requires Valid() && i < MAX_LINKS && links[i].used && links[i].input.configured && links[i].pending.None?
      modifies this
      ensures Valid() && OnlyLink(i) && SlotKept(i)
      ensures var l := old(links)[i].(input := old(links)[i].input.(isOpen := true));
              MediaBegun(l, links[i], true, w)
    {
      hide DistinctAddresses, MediaBegun, InputFailed;
      Put(i, links[i].(input := links[i].input.(isOpen := true)), inputPeers[i], outputs[i]);
      var ok := ConnectMedia(i, true, w);
      if !ok {
        NoMedia(links[i], true, w);
        FailInput(i);
      }
    }

    // ----------------------------------------------------------------------------------------
    // Media channels.

    /** Opens the media channel of an open stream unless it has one. */
    method ConnectMedia(i: nat, input: bool, w: World) returns (ok: bool)
      requires Valid() && i < MAX_LINKS && links[i].used && (if input then links[i].input.isOpen else links[i].output.isOpen)
      modifies this
      ensures Valid() && OnlyLink(i) && SlotKept(i)
      ensures ok <==> (if input then old(links)[i].input.media else old(links)[i].output.media) || !w.media.Refused?
      ensures ok ==> MediaBegun(old(links)[i], links[i], input, w)
      ensures !ok ==> links == old(links) && inputPeers == old(inputPeers) && outputs == old(outputs)
    {
      hide LinkOk, DistinctAddresses, MediaReady;
      var l := links[i];
      if if input then l.input.media else l.output.media {
        return true;
      }
      if w.media.Connected? {
        ConnectedAtOnce(i, input, w);
        return true;
      }
      if w.media.Refused? {
        return false;
      }
      SetMedia(i, input, true);
      return true;
    }

    method ConnectedAtOnce(i: nat, input: bool, w: World)
      requires Valid() && i < MAX_LINKS && links[i].used && (if input then links[i].input.isOpen else links[i].output.isOpen)
      modifies this
      ensures Valid() && OnlyLink(i) && SlotKept(i) && MediaReady(old(links)[i], links[i], input, w)
    {
      hide LinkOk, DistinctAddresses, MediaReady;
      ghost var before := links[i];
      SetMedia(i, input, false);
      assert (if input then links[i].input.media else links[i].output.media);
      ghost var middle := links[i];
      HandleMediaConnected(i, input, w);
      ReadyAgain(before, middle, links[i], input, w);
    }

    method SetMedia(i: nat, input: bool, connecting: bool)
      requires Valid() && i < MAX_LINKS && links[i].used && (if input then links[i].input.isOpen else links[i].output.isOpen)
      modifies this
      ensures Valid() && OnlyLink(i) && SlotKept(i) && outputs == old(outputs)
      ensures links[i] == if input then old(links)[i].(input := old(links)[i].input.(media := true, mediaConnecting := connecting))
                          else old(links)[i].(output := old(links)[i].output.(media := true, mediaConnecting := connecting))
    {
      var l := links[i];
      if input {
        Put(i, l.(input := l.input.(media := true, mediaConnecting := connecting)), inputPeers[i], outputs[i]);
      } else {
        Put(i, l.(output := l.output.(media := true, mediaConnecting := connecting)), inputPeers[i], outputs[i]);
      }
    }

    method HandleMediaConnected(i: nat, input: bool, w: World)
      requires Valid() && i < MAX_LINKS && links[i].used && (if input then links[i].input.media else links[i].output.media)
      modifies this
      ensures Valid() && OnlyLink(i) && SlotKept(i) && MediaReady(old(links)[i], links[i], input, w)
    {
      var l := links[i];
      if input {
        Put(i, l.(input := l.input.(mediaConnecting := false)), inputPeers[i], outputs[i]);
        return;
      }
      Put(i, l.(output := l.output.(mediaConnecting := false)), inputPeers[i], outputs[i]);
      if !w.mtuRead {
        CloseOutputStream(i);
        return;
      }
      var sent := SendCommand(i, Start, false, w);
    }

    /** The input's media socket: connected, failed, hung up, or a packet that may start the audio. */
    method InputMediaEvent(i: nat, error: bool, w: World)
      requires Valid() && i < MAX_LINKS && links[i].used && links[i].input.media
      modifies this
      ensures Valid() && OnlyLink(i) && SlotKept(i)
      ensures links[i] == if error then InputFailed(old(links)[i])
                          else if old(links)[i].input.mediaConnecting then old(links)[i].(input := old(links)[i].input.(mediaConnecting := false))
                          else old(links)[i].(input := old(links)[i].input.(streaming := true))
    {
      if error {
        FailInput(i);
      } else if links[i].input.mediaConnecting {
        HandleMediaConnected(i, true, w);
      } else if !links[i].input.streaming {
        StartInputAudio(i);
      }
    }

    method OutputMediaEvent(i: nat, error: bool, w: World)
      requires Valid() && i < MAX_LINKS && links[i].used && links[i].output.media
      modifies this
      ensures Valid() && OnlyLink(i) && SlotKept(i)
      ensures if error then links[i] == WithoutOutput(old(links)[i])
              else if old(links)[i].output.mediaConnecting then MediaReady(old(links)[i], links[i], false, w)
              else links == old(links)
    {
      if error {
        CloseOutputStream(i);
      } else if links[i].output.mediaConnecting {
        HandleMediaConnected(i, false, w);
      }
    }

    method SetSuspendRequested(i: nat, requested: bool)
      requires Valid() && i < MAX_LINKS && links[i].used
      modifies this
      ensures Valid() && OnlyLink(i) && SlotKept(i) && outputs == old(outputs)
      ensures links[i] == old(links)[i].(output := old(links)[i].output.(suspendRequested := requested))
    {
      Put(i, links[i].(output := links[i].output.(suspendRequested := requested)), inputPeers[i], outputs[i]);
    }

    /** A stream that has been silent for long is suspended. */
    method RequestSuspend(i: nat, w: World)
      requires Valid() && i < MAX_LINKS && links[i].used && links[i].pending.None? && !links[i].output.suspendRequested
      modifies this
      ensures Valid() && OnlyLink(i) && SlotKept(i) && Requested(old(links)[i], links[i], Suspend, w)
    {
      SetSuspendRequested(i, true);
      var sent := SendCommand(i, Suspend, false, w);
      if !sent && links[i].used {
        SetSuspendRequested(i, false);
      }
    }

    method RequestStart(i: nat, w: World)
      requires Valid() && i < MAX_LINKS && links[i].used && links[i].output.isOpen && links[i].pending.None?
      modifies this
      ensures Valid() && OnlyLink(i) && SlotKept(i) && Requested(old(links)[i], links[i], Start, w)
    {
      var sent := SendCommand(i, Start, false, w);
      if sent {
        var l := links[i];
        Put(i, l.(output := l.output.(startRequested := true)), inputPeers[i], outputs[i]);
      }
    }

    lemma LinkFacts(i: nat)
      requires Valid() && i < MAX_LINKS
      ensures links[i].used ==> links[i].signaling
      ensures (links[i].writePending ==> links[i].pending.Some?) && (links[i].output.up ==> links[i].output.isOpen)
    {
    }

    method MoveSlot(i: nat, active: bool)
      requires Valid() && i < MAX_LINKS && links[i].used && links[i].output.up && !links[i].output.streaming
      modifies this
      ensures Valid() && OnlyLink(i) && links == old(links) && inputPeers == old(inputPeers) && outputs[i] == old(outputs)[i].(active := active)
    {
      hide DistinctAddresses;
      Put(i, links[i], inputPeers[i], outputs[i].(active := active));
      assert links == old(links) && inputPeers == old(inputPeers);
    }

    /** The audio pump suspends a silent stream, restarts a suspended one, and gives up a bad one. */
    method PumpOutputAudio(i: nat, pump: Round, w: World)
      requires Valid() && i < MAX_LINKS
      modifies this
      ensures Valid() && OnlyLink(i) && Pumped(old(links)[i], links[i], pump, w)
      ensures outputs[i] in {SlotMoved(old(links)[i], old(outputs)[i], Pump(pump)), CLOSED_SLOT}
    {
      hide LinkOk, DistinctAddresses, Requested, WithoutOutput;
      var l := links[i];
      LinkFacts(i);
      if !l.used || !l.output.up {
        return;
      }
      var commandPending := l.pending.Some? && !l.pending.value.input;
      var busy := l.pending.Some? || l.writePending;
      if l.output.streaming {
        if pump.silent && l.output.suspendSupported && !l.output.suspendRequested && !busy {
          RequestSuspend(i, w);
          return;
        }
      } else {
        var waiting := !pump.active || commandPending || l.output.startRequested;
        MoveSlot(i, pump.active && (!waiting || outputs[i].active));
        if waiting {
          return;
        }
      }
      if pump.overrun {
        CloseOutputStream(i);
        return;
      }
      if !pump.ready || !l.output.media || l.output.suspendRequested || commandPending {
        return;
      }
      if pump.unfit {
        CloseOutputStream(i);
      } else if !l.output.streaming && !busy && pump.enough {
        RequestStart(i, w);
      }
    }

    // ----------------------------------------------------------------------------------------
    // Connecting.

    method FindLink(address: nat) returns (found: Option<nat>)
      requires |links| == MAX_LINKS
      ensures found.Some? ==> found.value < MAX_LINKS && links[found.value].used && links[found.value].address == address
      ensures found.None? ==> forall i :: 0 <= i < MAX_LINKS && links[i].used ==> links[i].address != address
    {
      for i := 0 to MAX_LINKS
        invariant forall k :: 0 <= k < i && links[k].used ==> links[k].address != address
      {
        if links[i].used && links[i].address == address {
          return Some(i);
        }
      }
      return None;
    }

    /** Takes the first unused link for a device that has none yet. */
    method AllocateLink(address: nat, connecting: bool) returns (index: Option<nat>)
      requires Valid() && address > 0 && forall i :: 0 <= i < MAX_LINKS && links[i].used ==> links[i].address != address
      modifies this
      ensures Valid()
      ensures index.Some? ==> index.value < MAX_LINKS && !old(links)[index.value].used &&
                              links == old(links)[index.value := UNUSED.(used := true, address := address, signaling := true, signalingConnecting := connecting)]
      ensures index.None? ==> links == old(links) && forall i :: 0 <= i < MAX_LINKS ==> links[i].used
      ensures inputPeers == old(inputPeers) && outputs == old(outputs)
    {
      for i := 0 to MAX_LINKS
        invariant forall k :: 0 <= k < i ==> links[k].used
      {
        if !links[i].used {
          links := links[i := UNUSED.(used := true, address := address, signaling := true, signalingConnecting := connecting)];
          return Some(i);
        }
      }
      return None;
    }

    method HandleSignalingConnected(i: nat, w: World)
      requires Valid() && i < MAX_LINKS && links[i].used
      modifies this
      ensures Valid() && OnlyLink(i) && SlotKept(i) && SignalingUp(old(links)[i], links[i], w)
    {
      if links[i].signalingConnecting {
        if w.calling.Refused? {
          CloseLink(i);
          return;
        }
        Put(i, links[i].(signalingConnecting := false), inputPeers[i], outputs[i]);
      }
      var l := links[i];
      Put(i, l.(connecting := l.connecting && l.output.want), inputPeers[i], outputs[i]);
      DriveLink(i, w);
    }

    /** A remote device opens a channel: signalling, or the media channel of an open input. */
    method AcceptChannel(address: nat, knownSource: bool, knownSink: bool, w: World)
      requires Valid() && address > 0
      modifies this
      ensures Valid() && OnlyDevice(address) && Opened(old(links), links, address, knownSource, knownSink, w) && SlotsKept()
    {
      hide LinkOk, DistinctAddresses, Driven, ChannelTaken;
      var existing := FindLink(address);
      if existing.Some? {
        TakeChannel(existing.value, w);
        return;
      }
      var index := AllocateLink(address, false);
      if index.None? {
        return;
      }
      Want(index.value, !(knownSink && !knownSource), knownSink, knownSink);
      DriveLink(index.value, w);
    }

    method TakeChannel(i: nat, w: World)
      requires Valid() && i < MAX_LINKS && links[i].used
      modifies this
      ensures Valid() && OnlyLink(i) && SlotKept(i) && ChannelTaken(old(links)[i], links[i], w)
    {
      hide DistinctAddresses, Driven;
      var l := links[i];
      if l.signalingConnecting {
        Put(i, l.(signalingConnecting := false), inputPeers[i], outputs[i]);
        HandleSignalingConnected(i, w);
      } else if l.input.isOpen && !l.input.media && !l.input.mediaConnecting {
        Put(i, l.(input := l.input.(media := true)), inputPeers[i], outputs[i]);
      }
    }

    /** What this device wants of a new link. */
    method Want(i: nat, input: bool, output: bool, connecting: bool)
      requires Valid() && i < MAX_LINKS && links[i].used
      modifies this
      ensures Valid() && OnlyLink(i) && SlotKept(i) && outputs == old(outputs)
      ensures var l := old(links)[i];
              links[i] == l.(input := l.input.(want := input), output := l.output.(want := output), connecting := connecting)
    {
      hide DistinctAddresses;
      var l := links[i];
      Put(i, l.(input := l.input.(want := input), output := l.output.(want := output), connecting := connecting), inputPeers[i], outputs[i]);
      assert outputs == old(outputs);
    }

    /** This device calls a paired one, unless it has a link already. */
    method BeginConnect(address: nat, source: bool, sink: bool, w: World) returns (ok: bool)
      requires Valid() && address > 0
      modifies this
      ensures Valid() && OnlyDevice(address) && Called(old(links), links, address, source, sink, w) && SlotsKept()
      ensures (exists j :: 0 <= j < MAX_LINKS && old(links)[j].used && old(links)[j].address == address) ==> ok && links == old(links)
      ensures ok <==> Known(old(links), address) || (!w.calling.Refused? && exists j :: 0 <= j < MAX_LINKS && !old(links)[j].used)
      ensures !ok ==> links == old(links) && inputPeers == old(inputPeers) && outputs == old(outputs)
    {
      hide LinkOk, DistinctAddresses, SignalingUp;
      var existing := FindLink(address);
      if existing.Some? {
        return true;
      }
      if w.calling.Refused? {
        return false;
      }
      var index := AllocateLink(address, !w.calling.Connected?);
      if index.None? {
        return false;
      }
      Want(index.value, source, !(source && !sink), true);
      if w.calling.Connected? {
        HandleSignalingConnected(index.value, w);
      }
      return true;
    }

    /** Deadlines: the whole connection's, the outstanding command's, and the next step's. */
    method ServiceTimers(i: nat, connectLate: bool, responseLate: bool, w: World)
      requires Valid() && i < MAX_LINKS
      modifies this
      ensures Valid() && OnlyLink(i) && SlotKept(i)
      ensures if (old(links)[i].connecting && connectLate) || (old(links)[i].pending.Some? && !old(links)[i].signalingConnecting && responseLate)
              then links[i] == UNUSED else Driven(old(links)[i], links[i], w)
    {
      var l := links[i];
      if !l.used {
        return;
      }
      if (l.connecting && connectLate) || (l.pending.Some? && !l.signalingConnecting && responseLate) {
        CloseLink(i);
        return;
      }
      DriveLink(i, w);
    }

    // ----------------------------------------------------------------------------------------
    // Every run.

    /**
     One event, or none when it cannot occur: the event says what the remote device sends and what
     the sockets report.
     */
    method Step(event: Event)
      requires Valid()
      modifies this
      ensures Valid() && StepEffect(old(Now()), Now(), event)
    {
      hide LinkOk, DistinctAddresses, Effect, Opened, Called, SlotFor;
      NobodyCalls(links);
      match event {
        case Accepted(address, source, sink, w) =>
          if address > 0 { AcceptChannel(address, source, sink, w); }
        case Connect(address, source, sink, w) =>
          if address > 0 { var ok := BeginConnect(address, source, sink, w); }
        case OnLink(i, what, w) =>
          if i < MAX_LINKS && links[i].used { LinkEvent(i, what, w); }
      }
      if !event.OnLink? {
        AllSettle(links, inputPeers, outputs, old(outputs));
      }
    }

    method LinkEvent(i: nat, what: What, w: World)
      requires Valid() && i < MAX_LINKS && links[i].used
      modifies this
      ensures Valid() && OnlyLink(i) && Effect(old(links)[i], old(outputs)[i], links[i], outputs[i], what, w)
    {
      hide LinkOk, DistinctAddresses, Happened, SlotFor, SlotMoved;
      if what.Received? || what.Responded? || what.Pump? {
        StreamEvent(i, what, w);
      } else {
        SocketEvent(i, what, w);
        SlotStays(old(links)[i], old(outputs)[i], what);
      }
      SlotSettles(links[i], inputPeers[i], outputs[i], SlotMoved(old(links)[i], old(outputs)[i], what));
    }

    /** A command, an answer, or a round of the audio pump. */
    method StreamEvent(i: nat, what: What, w: World)
      requires Valid() && i < MAX_LINKS && links[i].used && (what.Received? || what.Responded? || what.Pump?)
      modifies this
      ensures Valid() && OnlyLink(i) && Happened(old(links)[i], links[i], what, w)
      ensures outputs[i] in {SlotMoved(old(links)[i], old(outputs)[i], what), CLOSED_SLOT}
    {
      hide LinkOk, DistinctAddresses, Answered, Driven, Acceptable, Obeyed, Pumped;
      var l := links[i];
      match what {
        case Received(signal, seids, codecOk) =>
          if !l.signalingConnecting { var answer := HandleCommand(i, signal, seids, codecOk); }
        case Responded(accepted, sinkSeid, sourceSeid, codecOk) =>
          if l.pending.Some? { HandleResponse(i, accepted, sinkSeid, sourceSeid, codecOk, w); }
        case Pump(pump) => PumpOutputAudio(i, pump, w);
        case _ =>
      }
    }

    /** What the sockets, the clock or the user report. */
    method SocketEvent(i: nat, what: What, w: World)
      requires Valid() && i < MAX_LINKS && links[i].used && !(what.Received? || what.Responded? || what.Pump?)
      modifies this
      ensures Valid() && OnlyLink(i) && SlotKept(i) && Happened(old(links)[i], links[i], what, w)
    {
      hide LinkOk, DistinctAddresses, Driven, MediaReady, WithoutOutput, InputFailed, SignalingUp;
      var l := links[i];
      match what {
        case SignalingConnected => if l.signalingConnecting { HandleSignalingConnected(i, w); }
        case HungUp => CloseLink(i);
        case Writable => FlushCommand(i, w);
        case InputMedia(error) => if l.input.media { InputMediaEvent(i, error, w); }
        case OutputMedia(error) => if l.output.media { OutputMediaEvent(i, error, w); }
        case Timers(connectLate, responseLate) => ServiceTimers(i, connectLate, responseLate, w);
        case UserDisconnect => CloseLink(i);
        case _ =>
      }
    }

    /**
     Whatever happens on whichever link in whatever order, every link stays consistent, and each event
     does what it is meant to do.
     */
    method Run(events: seq<Event>) returns (ghost trace: seq<Snapshot>)
      requires Valid()
      modifies this
      ensures Valid() && |trace| == |events| + 1 && trace[0] == old(Now()) && trace[|events|] == Now()
      ensures Follows(trace, events)
    {
      hide StepEffect, AllOk;
      trace := [Now()];
      for k := 0 to |events|
        invariant Valid() && |trace| == k + 1 && trace[0] == old(Now()) && trace[k] == Now()
        invariant Follows(trace, events[..k])
      {
        Step(events[k]);
        assert events[..k + 1][..k] == events[..k];
        trace := trace + [Now()];
      }
      assert events[..|events|] == events;
    }
  }

  // ------------------------------------------------------------------------------------------
  // What follows for every run.

  /** Nothing comes up on link i unless an event on that very link says so, by consent. */
  ghost predicate StepConsents(a: Snapshot, b: Snapshot, event: Event, i: nat) {
    && i < |a.links| && i < |b.links|
    && if event.OnLink? && event.index == i then ByConsent(a.links[i], b.links[i], event.what) else Quiet(a.links[i], b.links[i])
  }

  ghost predicate AllConsent(a: Snapshot, b: Snapshot, event: Event) {
    forall i :: 0 <= i < MAX_LINKS ==> StepConsents(a, b, event, i)
  }

  lemma StepByConsent(a: Snapshot, b: Snapshot, event: Event, i: nat)
    requires StepEffect(a, b, event) && i < MAX_LINKS
    ensures StepConsents(a, b, event, i)
  {
    hide Happened, Opened, Called, ByConsent, Quiet, SlotFor, SlotMoved;
    var before, after := a.links[i], b.links[i];
    SameIsQuiet(before);
    match event {
      case Accepted(address, source, sink, w) => OpenedIsQuiet(a.links, b.links, address, source, sink, i, w);
      case Connect(address, source, sink, w) => CalledIsQuiet(a.links, b.links, address, source, sink, i, w);
      case OnLink(index, what, w) =>
        if index == i {
          if before.used {
            EventsByConsent(before, after, what, w);
          } else {
            QuietIsByConsent(before, after, what);
          }
        }
    }
  }

  lemma StepsByConsent(a: Snapshot, b: Snapshot, event: Event)
    requires StepEffect(a, b, event)
    ensures AllConsent(a, b, event)
  {
    hide StepEffect, StepConsents;
    forall i | 0 <= i < MAX_LINKS
      ensures StepConsents(a, b, event, i)
    {
      StepByConsent(a, b, event, i);
    }
  }

  /** In every run no stream comes up that the remote device has not asked for or agreed to. */
  lemma RunByConsent(trace: seq<Snapshot>, events: seq<Event>)
    requires Follows(trace, events)
    ensures forall k :: 0 <= k < |events| ==> AllConsent(trace[k], trace[k + 1], events[k])
  {
    hide StepEffect, AllConsent;
    forall k | 0 <= k < |events|
      ensures AllConsent(trace[k], trace[k + 1], events[k])
    {
      StepsByConsent(trace[k], trace[k + 1], events[k]);
    }
  }

  /**
   Exactly when a START from the remote device leaves that state: the output is not up, and the START
   names it or it was in that state already.
   */
  lemma StartLeavesActive(before: Link, inPeer: nat, slot: OutputSlot, after: Link, moved: OutputSlot, seids: seq<nat>, codecOk: bool, w: World)
    requires LinkOk(before, inPeer, slot) && !before.signalingConnecting && Acceptable(before, Start, seids, codecOk)
    requires Effect(before, slot, after, moved, Received(Start, seids, codecOk), w)
    ensures moved.active && !after.output.up <==> !before.output.up && (SOURCE_SEID in seids || slot.active)
  {
  }

  /** In every run nothing else leads into it: only a START that names the output before the output is up. */
  lemma OnlyStartPlaysEarly(trace: seq<Snapshot>, events: seq<Event>, k: nat)
    requires Follows(trace, events) && k < |events|
    ensures |trace[k].links| == |trace[k].outputs| == |trace[k + 1].links| == |trace[k + 1].outputs| == MAX_LINKS
    ensures forall i :: 0 <= i < MAX_LINKS ==>
              && (trace[k + 1].outputs[i].active && !trace[k + 1].links[i].output.up <==> PlaysEarly(trace[k + 1].links[i]))
              && (PlaysEarly(trace[k + 1].links[i]) && !PlaysEarly(trace[k].links[i]) ==>
                    && events[k].OnLink? && events[k].index == i && events[k].what.Received? && events[k].what.signal.Start?
                    && SOURCE_SEID in events[k].what.seids && !trace[k].links[i].output.up)
  {
    hide Effect, Opened, Called, SlotFor;
    var a, b := trace[k], trace[k + 1];
    assert StepEffect(a, b, events[k]);
    forall i | 0 <= i < MAX_LINKS
      ensures b.outputs[i].active && !b.links[i].output.up <==> PlaysEarly(b.links[i])
      ensures PlaysEarly(b.links[i]) && !PlaysEarly(a.links[i]) ==>
                && events[k].OnLink? && events[k].index == i && events[k].what.Received? && events[k].what.signal.Start?
                && SOURCE_SEID in events[k].what.seids && !a.links[i].output.up
    {
      StepByConsent(a, b, events[k], i);
      assert LinkOk(b.links[i], b.inputPeers[i], b.outputs[i]);
    }
  }

  // ------------------------------------------------------------------------------------------
  // Setting up a stream: with a remote device that agrees, every answer leads to the next command.

  /** The output is being set up and this command is outstanding. */
  predicate SettingUp(l: Link, signal: Signal) {
    && l.used && !l.signalingConnecting && l.pending == Some(Command(signal, false))
    && l.discovered && l.output.want && !l.output.up && l.output.starting
  }

  lemma AfterListing(a: Link, b: Link, sink: nat, source: nat, w: World)
    requires a.used && !a.signalingConnecting && a.pending == Some(Command(Discover, false)) && !a.output.up && !a.output.starting
    requires sink != 0 && !w.write.Broken? && Happened(a, b, Responded(true, sink, source, true), w)
    ensures SettingUp(b, GetCapabilities) && b.output == a.output.(remoteSink := sink, want := true, starting := true)
  {
    var middle: Link :| Answered(a, middle, true, sink, source, true, w) && Driven(middle, b, w);
    assert OutputNext(middle);
  }

  lemma AfterCapabilities(a: Link, b: Link, sink: nat, source: nat, w: World)
    requires SettingUp(a, GetCapabilities) && !w.write.Broken? && Happened(a, b, Responded(true, sink, source, true), w)
    ensures SettingUp(b, SetConfiguration) && b.output == a.output
  {
    hide Driven;
    var middle: Link :| Answered(a, middle, true, sink, source, true, w) && Driven(middle, b, w);
    NothingDue(middle, b, w);
  }

  lemma AfterConfiguration(a: Link, b: Link, sink: nat, source: nat, w: World)
    requires SettingUp(a, SetConfiguration) && !w.write.Broken? && Happened(a, b, Responded(true, sink, source, true), w)
    ensures SettingUp(b, Open) && b.output == a.output.(configured := true)
  {
    hide Driven;
    var middle: Link :| Answered(a, middle, true, sink, source, true, w) && Driven(middle, b, w);
    NothingDue(middle, b, w);
  }

  lemma AfterOpen(a: Link, b: Link, sink: nat, source: nat, w: World)
    requires SettingUp(a, Open) && !a.output.media && !w.write.Broken? && !w.media.Refused? && w.mtuRead
    requires Happened(a, b, Responded(true, sink, source, true), w)
    ensures b.output == a.output.(isOpen := true, media := true, mediaConnecting := w.media.InProgress?)
    ensures if w.media.Connected? then SettingUp(b, Start) else b.pending == None && SettingUp(b.(pending := Some(Command(Open, false))), Open)
  {
    hide Driven;
    var middle: Link :| Answered(a, middle, true, sink, source, true, w) && Driven(middle, b, w);
    NothingDue(middle, b, w);
  }

  lemma AfterMedia(a: Link, b: Link, w: World)
    requires a.pending == None && SettingUp(a.(pending := Some(Command(Open, false))), Open) && a.output.media && a.output.mediaConnecting
    requires !w.write.Broken? && w.mtuRead && Happened(a, b, OutputMedia(false), w)
    ensures SettingUp(b, Start) && b.output == a.output.(mediaConnecting := false)
  {
  }

  lemma AfterStart(a: Link, b: Link, sink: nat, source: nat, w: World)
    requires SettingUp(a, Start) && !w.write.Broken? && Happened(a, b, Responded(true, sink, source, true), w)
    ensures b.output == a.output.(streaming := true, startRequested := false, suspendRequested := false, up := true)
  {
    hide Sent;
    var middle: Link :| Answered(a, middle, true, sink, source, true, w) && Driven(middle, b, w);
    if InputNext(middle, w) {
      assert Sent(middle, b, GetCapabilities, true, w);
      SentKeepsOutput(middle, b, GetCapabilities, true, w);
    }
  }

  lemma SentKeepsOutput(a: Link, b: Link, signal: Signal, input: bool, w: World)
    requires Sent(a, b, signal, input, w) && !w.write.Broken?
    ensures b.output == a.output
  {
  }

  lemma NothingDue(l: Link, after: Link, w: World)
    requires Driven(l, after, w) && (!Free(l) || (l.discovered && l.output.want && !l.output.up && l.output.starting))
    ensures after == l
  {
  }

  /**
   An output comes up: from an outstanding DISCOVER, if the remote device lists a sink and accepts what
   it is asked, no write breaks and the media channel can be had at once or a little later, the five
   answers lead to an output that is open, up and plays.
   */
  lemma OutputComesUp(l: seq<Link>, w: seq<World>, sink: nat, source: nat)
    requires |l| == 7 && |w| == 6 && sink != 0 && forall k :: 0 <= k < 6 ==> !w[k].write.Broken? && !w[k].media.Refused? && w[k].mtuRead
    requires l[0].used && !l[0].signalingConnecting && l[0].pending == Some(Command(Discover, false))
    requires !l[0].output.up && !l[0].output.starting && !l[0].output.media
    requires forall k :: 0 <= k < 6 && k != 4 ==> Happened(l[k], l[k + 1], Responded(true, sink, source, true), w[k])
    requires if w[3].media.Connected? then l[5] == l[4] else Happened(l[4], l[5], OutputMedia(false), w[4])
    ensures l[6].output.configured && l[6].output.isOpen && l[6].output.media && !l[6].output.mediaConnecting
    ensures l[6].output.up && l[6].output.streaming && l[6].output.remoteSink == sink
  {
    hide Happened, SettingUp;
    AfterListing(l[0], l[0 + 1], sink, source, w[0]);
    AfterCapabilities(l[1], l[1 + 1], sink, source, w[1]);
    AfterConfiguration(l[2], l[2 + 1], sink, source, w[2]);
    AfterOpen(l[3], l[3 + 1], sink, source, w[3]);
    if !w[3].media.Connected? {
      AfterMedia(l[4], l[5], w[4]);
    }
    AfterStart(l[5], l[5 + 1], sink, source, w[5]);
  }

  /** The input is being set up by this device, and this command is outstanding. */
  predicate SettingUpInput(l: Link, signal: Signal) {
    l.used && !l.signalingConnecting && l.pending == Some(Command(signal, true)) && !l.input.remoteActive
  }

  lemma InputAsked(a: Link, b: Link, w: World)
    requires InputNext(a, w) && !w.write.Broken? && Happened(a, b, Timers(false, false), w)
    ensures SettingUpInput(b, GetCapabilities) && b.input == a.input && !b.input.configured
  {
  }

  lemma AfterInputCapabilities(a: Link, b: Link, w: World)
    requires SettingUpInput(a, GetCapabilities) && !a.input.configured && !w.write.Broken? && Happened(a, b, Responded(true, 0, 0, true), w)
    ensures SettingUpInput(b, SetConfiguration) && b.input == a.input
  {
    hide Driven;
    var middle: Link :| Answered(a, middle, true, 0, 0, true, w) && Driven(middle, b, w);
    NothingDue(middle, b, w);
  }

  lemma AfterInputConfiguration(a: Link, b: Link, w: World)
    requires SettingUpInput(a, SetConfiguration) && !w.write.Broken? && Happened(a, b, Responded(true, 0, 0, true), w)
    ensures SettingUpInput(b, Open) && b.input == a.input.(configured := true)
  {
    hide Driven;
    var middle: Link :| Answered(a, middle, true, 0, 0, true, w) && Driven(middle, b, w);
    NothingDue(middle, b, w);
  }

  lemma AfterInputOpen(a: Link, b: Link, w: World)
    requires SettingUpInput(a, Open) && !a.input.media && a.input.configured && !w.write.Broken? && !w.media.Refused?
    requires Happened(a, b, Responded(true, 0, 0, true), w)
    ensures b.input == a.input.(isOpen := true, media := true, mediaConnecting := w.media.InProgress?)
  {
    hide Driven;
    var middle: Link :| Answered(a, middle, true, 0, 0, true, w) && Driven(middle, b, w);
    DrivingKeepsInput(middle, b, w);
  }

  lemma DrivingKeepsInput(a: Link, b: Link, w: World)
    requires Driven(a, b, w) && !w.write.Broken?
    ensures b.input == a.input
  {
  }

  /** So does an input that this device sets up, with its first packet. */
  lemma InputComesUp(l: seq<Link>, w: seq<World>)
    requires |l| == 7 && |w| == 6 && InputNext(l[0], w[0]) && !l[0].input.media
    requires forall k :: 0 <= k < 6 ==> !w[k].write.Broken? && !w[k].media.Refused?
    requires Happened(l[0], l[1], Timers(false, false), w[0])
    requires forall k :: 1 <= k < 4 ==> Happened(l[k], l[k + 1], Responded(true, 0, 0, true), w[k])
    requires if w[3].media.Connected? then l[5] == l[4] else Happened(l[4], l[5], InputMedia(false), w[4])
    requires Happened(l[5], l[6], InputMedia(false), w[5])
    ensures l[6].input.configured && l[6].input.isOpen && l[6].input.media && !l[6].input.mediaConnecting && l[6].input.streaming
  {
    InputSetUp(l, w);
  }

  lemma InputSetUp(l: seq<Link>, w: seq<World>)
    requires |l| == 7 && |w| == 6 && InputNext(l[0], w[0]) && !l[0].input.media
    requires forall k :: 0 <= k < 6 ==> !w[k].write.Broken? && !w[k].media.Refused?
    requires Happened(l[0], l[1], Timers(false, false), w[0])
    requires forall k :: 1 <= k < 4 ==> Happened(l[k], l[k + 1], Responded(true, 0, 0, true), w[k])
    ensures l[4].input == l[0].input.(configured := true, isOpen := true, media := true, mediaConnecting := w[3].media.InProgress?)
  {
    assert !l[0].input.configured;
    hide Happened, SettingUpInput, InputNext;
    InputAsked(l[0], l[1], w[0]);
    AfterInputCapabilities(l[1], l[1 + 1], w[1]);
    AfterInputConfiguration(l[2], l[2 + 1], w[2]);
    AfterInputOpen(l[3], l[3 + 1], w[3]);
  }

  // ------------------------------------------------------------------------------------------
  // A run into that state.

  /** Only the first link is in use. */
  function OneLink(l: Link, slot: OutputSlot): Snapshot {
    Snapshot([l, UNUSED, UNUSED, UNUSED], [0, 0, 0, 0], [slot, CLOSED_SLOT, CLOSED_SLOT, CLOSED_SLOT])
  }

  /** The signalling channel connects at once and the media channel takes its time. */
  const CALLED: World := World(true, true, Whole, Connected, InProgress, true)

  /** A speaker is called, lists its endpoint, and accepts everything up to OPEN; then it sends START itself. */
  function EarlyStart(address: nat): seq<Event> {
    var yes := OnLink(0, Responded(true, 5, 0, true), CALLED);
    [Connect(address, false, true, CALLED), yes, yes, yes, yes, OnLink(0, Received(Start, [SOURCE_SEID], true), CALLED)]
  }

  lemma OneLinkStep(l: Link, slot: OutputSlot, after: Link, moved: OutputSlot, what: What, w: World)
    requires LinkOk(l, 0, slot) && LinkOk(after, 0, moved) && l.used && Effect(l, slot, after, moved, what, w)
    ensures StepEffect(OneLink(l, slot), OneLink(after, moved), OnLink(0, what, w))
  {
    hide Effect, LinkOk;
    OneAddress(l, slot);
    OneAddress(after, moved);
    UnusedIsOk();
  }

  lemma UnusedIsOk()
    ensures LinkOk(UNUSED, 0, CLOSED_SLOT)
  {
  }

  lemma FirstCall(address: nat, after: Link)
    requires address > 0 && after == Taken(address, false, true, false, true).(pending := Some(Command(Discover, false)))
    ensures StepEffect(OneLink(UNUSED, CLOSED_SLOT), OneLink(after, CLOSED_SLOT), Connect(address, false, true, CALLED))
  {
    hide DistinctAddresses;
    var l := Taken(address, false, true, false, true);
    FirstCommand(address, l, after);
    hide SignalingUp;
    var links := OneLink(UNUSED, CLOSED_SLOT).links;
    assert !links[0].used && OthersSame(links, OneLink(after, CLOSED_SLOT).links, 0);
    assert Called(links, OneLink(after, CLOSED_SLOT).links, address, false, true, CALLED) by {
      hide LinkOk;
    }
    OneAddress(UNUSED, CLOSED_SLOT);
    OneAddress(after, CLOSED_SLOT);
  }

  lemma FirstCommand(address: nat, l: Link, after: Link)
    requires address > 0 && l == Taken(address, false, true, false, true) && after == l.(pending := Some(Command(Discover, false)))
    ensures SignalingUp(l, after, CALLED)
  {
    assert Sent(l, after, Discover, false, CALLED);
  }

  lemma OneAddress(l: Link, slot: OutputSlot)
    ensures DistinctAddresses(OneLink(l, slot).links)
  {
  }

  /** One answer, and what this device sends next. */
  lemma AnswerStep(l: Link, middle: Link, after: Link, w: World)
    requires l.used && l.pending.Some? && !l.output.up && !l.output.streaming && !after.output.up && !after.output.streaming
    requires Answered(l, middle, true, 5, 0, true, w) && Driven(middle, after, w)
    ensures Effect(l, CLOSED_SLOT, after, CLOSED_SLOT, Responded(true, 5, 0, true), w)
  {
  }

  /**
   The output's slot is active, its audio queues up, and nothing sends it, as the output is not up: the
   media channel is still connecting when the START comes.
   */
  lemma PlaysBeforeUp(address: nat) returns (trace: seq<Snapshot>)
    requires address > 0
    ensures Follows(trace, EarlyStart(address)) && trace[0] == OneLink(UNUSED, CLOSED_SLOT)
    ensures |trace[6].links| == |trace[6].outputs| == MAX_LINKS
    ensures trace[6].outputs[0].active && PlaysEarly(trace[6].links[0])
  {
    hide StepEffect, Effect, Answered, Driven;
    var yes := Responded(true, 5, 0, true);
    var l1 := Taken(address, false, true, false, true).(pending := Some(Command(Discover, false)));
    FirstCall(address, l1);
    var l2 := Listed(l1);
    var l3 := l2.(pending := Some(Command(SetConfiguration, false)));
    var l4 := l2.(pending := Some(Command(Open, false)), output := l2.output.(configured := true));
    var l5 := l4.(pending := None, output := l4.output.(isOpen := true, media := true, mediaConnecting := true));
    ListedStep(address, l1);
    ConfigureStep(l2, l3);
    OpenStep(l3, l4);
    MediaStep(l4, l5);
    var l6 := Played(l5, [SOURCE_SEID], true);
    var playing := OutputSlot(0, true);
    assert Effect(l5, CLOSED_SLOT, l6, playing, Received(Start, [SOURCE_SEID], true), CALLED) by {
      StartStep(l5);
    }
    OneLinkStep(l5, CLOSED_SLOT, l6, playing, Received(Start, [SOURCE_SEID], true), CALLED);
    trace := [OneLink(UNUSED, CLOSED_SLOT), OneLink(l1, CLOSED_SLOT), OneLink(l2, CLOSED_SLOT), OneLink(l3, CLOSED_SLOT),
              OneLink(l4, CLOSED_SLOT), OneLink(l5, CLOSED_SLOT), OneLink(l6, playing)];
  }

  function Listed(l: Link): Link {
    Discovered(l, 5, 0).(pending := Some(Command(GetCapabilities, false)), output := Discovered(l, 5, 0).output.(starting := true))
  }

  lemma ListedStep(address: nat, l: Link)
    requires address > 0 && l == Taken(address, false, true, false, true).(pending := Some(Command(Discover, false)))
    ensures StepEffect(OneLink(l, CLOSED_SLOT), OneLink(Listed(l), CLOSED_SLOT), OnLink(0, Responded(true, 5, 0, true), CALLED))
  {
    hide StepEffect, Effect;
    var middle := Discovered(l.(pending := None), 5, 0);
    assert Sent(middle.(output := middle.output.(starting := true)), Listed(l), GetCapabilities, false, CALLED);
    AnswerStep(l, middle, Listed(l), CALLED);
    OneLinkStep(l, CLOSED_SLOT, Listed(l), CLOSED_SLOT, Responded(true, 5, 0, true), CALLED);
  }

  lemma ConfigureStep(l: Link, after: Link)
    requires LinkOk(l, 0, CLOSED_SLOT) && l.used && l.pending == Some(Command(GetCapabilities, false)) && !l.writePending
    requires after == l.(pending := Some(Command(SetConfiguration, false)))
    ensures LinkOk(after, 0, CLOSED_SLOT)
    ensures StepEffect(OneLink(l, CLOSED_SLOT), OneLink(after, CLOSED_SLOT), OnLink(0, Responded(true, 5, 0, true), CALLED))
  {
    hide StepEffect, Effect, Driven;
    StandingStill(after, CALLED);
    assert Sent(l.(pending := None, writePending := false), after, SetConfiguration, false, CALLED);
    AnswerStep(l, after, after, CALLED);
    OneLinkStep(l, CLOSED_SLOT, after, CLOSED_SLOT, Responded(true, 5, 0, true), CALLED);
  }

  lemma OpenStep(l: Link, after: Link)
    requires LinkOk(l, 0, CLOSED_SLOT) && l.used && l.pending == Some(Command(SetConfiguration, false)) && !l.writePending
    requires after == l.(pending := Some(Command(Open, false)), output := l.output.(configured := true))
    ensures LinkOk(after, 0, CLOSED_SLOT)
    ensures StepEffect(OneLink(l, CLOSED_SLOT), OneLink(after, CLOSED_SLOT), OnLink(0, Responded(true, 5, 0, true), CALLED))
  {
    hide StepEffect, Effect, Driven;
    StandingStill(after, CALLED);
    var ready := l.(pending := None, writePending := false, output := l.output.(configured := true));
    assert Sent(ready, after, Open, false, CALLED);
    AnswerStep(l, after, after, CALLED);
    OneLinkStep(l, CLOSED_SLOT, after, CLOSED_SLOT, Responded(true, 5, 0, true), CALLED);
  }

  lemma MediaStep(l: Link, after: Link)
    requires LinkOk(l, 0, CLOSED_SLOT) && l.used && l.pending == Some(Command(Open, false)) && !l.writePending && !l.output.media
    requires l.discovered && l.output.want && !l.output.up && l.output.starting
    requires after == l.(pending := None, output := l.output.(isOpen := true, media := true, mediaConnecting := true))
    ensures LinkOk(after, 0, CLOSED_SLOT)
    ensures StepEffect(OneLink(l, CLOSED_SLOT), OneLink(after, CLOSED_SLOT), OnLink(0, Responded(true, 5, 0, true), CALLED))
  {
    hide StepEffect, Effect, Driven;
    StandingStill(after, CALLED);
    var open := l.(pending := None, writePending := false, output := l.output.(isOpen := true));
    assert MediaBegun(open, after, false, CALLED) by {
      assert after == open.(output := open.output.(media := true, mediaConnecting := true));
    }
    AnswerStep(l, after, after, CALLED);
    OneLinkStep(l, CLOSED_SLOT, after, CLOSED_SLOT, Responded(true, 5, 0, true), CALLED);
  }

  lemma StartStep(l: Link)
    requires !l.signalingConnecting && l.output.configured && l.output.isOpen && !l.output.up
    ensures Effect(l, CLOSED_SLOT, Played(l, [SOURCE_SEID], true), OutputSlot(0, true), Received(Start, [SOURCE_SEID], true), CALLED)
  {
  }
}
