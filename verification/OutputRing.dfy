/**
 The PCM ring towards a Bluetooth headphone. The audio thread pushes blocks, the Bluetooth worker
 resamples packets out of it and activates or drains it; single loads, slot accesses and stores of
 the two threads interleave in any way.
 */
module OutputRing {
  import opened Basics
  import opened PcmRing

  datatype Worker =
    | Idle
    | Loading(frames: nat)
    | Resampling(frames: nat, limit: nat, fraction: real, made: nat, first: Option<Frame>)
    | Switching(enable: bool)
    | Dropping(enable: bool, index: nat, at: nat)
    | Enabling(enable: bool)

  /** What one output frame is blended from, and where in the pushed stream that was taken. */
  datatype Output = Output(position: real, first: Frame, second: Frame, mix: real)

  /**
   `written` and `taken` count frames without wrapping, `pushed` and `outputs` record what went in
   and came out; no step looks at any of them.
   */
  datatype State = State(
    write: nat,
    read: nat,
    active: bool,
    ring: nat -> Frame,
    readFraction: real,
    rateRatio: real,
    producer: Producer,
    worker: Worker,
    written: nat,
    taken: nat,
    pushed: seq<Frame>,
    outputs: seq<Output>)

  datatype Action =
    | Push(frames: seq<Frame>) | LoadRead | CopyFrame | StoreWrite
    | Resample(count: nat) | LoadWrite | ReadFirst | ReadSecond | StoreRead
    | SetActive(enable: bool) | LoadForDrop | StoreDrop | Enable
    | UpdateRate(ratio: real)

  function Initial(frame: Frame): State {
    State(0, 0, false, _ => frame, 0.0, 1.0, Resting, Idle, 0, 0, [], [])
  }

  function Clamp(value: real, low: real, high: real): real {
    if value > high then high else if value < low then low else value
  }

  function Truncate(value: real): int {
    if value >= 0.0 then value.Floor else -(-value).Floor
  }

  function Channel(a: int, b: int, mix: real): int {
    Truncate(Clamp(a as real + (b - a) as real * mix, -32768.0, 32767.0))
  }

  function Blend(a: Frame, b: Frame, mix: real): Frame {
    Frame(Channel(a.left, b.left, mix), Channel(a.right, b.right, mix))
  }

  /** The frame that is handed to the encoder. */
  function Encoded(o: Output): Frame {
    Blend(o.first, o.second, o.mix)
  }

  function Advanced(from: real, ratio: real, frames: nat): real {
    if frames == 0 then from else Advanced(from, ratio, frames - 1) + ratio
  }

  /** The sum the loop accumulates is the product that the fill check computes. */
  lemma {:induction false} AdvancedIsProduct(from: real, ratio: real, frames: nat)
    ensures Advanced(from, ratio, frames) == from + frames as real * ratio
  {
    if frames > 0 {
      AdvancedIsProduct(from, ratio, frames - 1);
      assert frames as real * ratio == (frames - 1) as real * ratio + ratio;
    }
  }

  lemma AdvancedNext(from: real, ratio: real, frames: nat)
    ensures Advanced(from, ratio, 0) == from && Advanced(from, ratio, frames + 1) == Advanced(from, ratio, frames) + ratio
  {
  }

  predicate Enabled(s: State, a: Action) {
    match a
    case Push(frames) => s.producer.Resting? && frames != [] && s.active
    case LoadRead => s.producer.Pushing?
    case CopyFrame => s.producer.Copying? && s.producer.done < s.producer.accepted <= |s.producer.frames|
    case StoreWrite => s.producer.Copying? && s.producer.done == s.producer.accepted
    case Resample(count) => s.worker.Idle? && count > 0
    case LoadWrite => s.worker.Loading?
    case ReadFirst => s.worker.Resampling? && s.worker.made < s.worker.frames && s.worker.first.None? && s.worker.fraction >= 0.0
    case ReadSecond => s.worker.Resampling? && s.worker.first.Some? && s.worker.fraction >= 0.0
    case StoreRead => s.worker.Resampling? && s.worker.made == s.worker.frames && s.worker.fraction >= 0.0
    case SetActive(_) => s.worker.Idle?
    case LoadForDrop => s.worker.Switching?
    case StoreDrop => s.worker.Dropping?
    case Enable => s.worker.Enabling?
    case UpdateRate(_) => s.worker.Idle? && s.active
  }

  function Pushed(s: State, a: Action): State
    requires Enabled(s, a) && (a.Push? || a.LoadRead? || a.CopyFrame? || a.StoreWrite?)
  {
    match a
    case Push(frames) => s.(producer := Pushing(frames))
    case LoadRead =>
      s.(producer := Copying(s.producer.frames, Accepted(s.write, s.read, |s.producer.frames|), 0))
    case CopyFrame =>
      var k := s.producer.done;
      s.(ring := Store(s.ring, Slot(s.write, k), s.producer.frames[k]), producer := s.producer.(done := k + 1),
         pushed := s.pushed + [s.producer.frames[k]])
    case StoreWrite =>
      s.(write := (s.write + s.producer.accepted) % U32, written := s.written + s.producer.accepted, producer := Resting)
  }

  function Resampled(s: State, a: Action): State
    requires Enabled(s, a) && (a.Resample? || a.LoadWrite? || a.ReadFirst? || a.ReadSecond? || a.StoreRead?)
    requires s.readFraction >= 0.0 && s.rateRatio >= 0.0
  {
    match a
    case Resample(count) => s.(worker := Loading(count))
    case LoadWrite =>
      var needed := Advanced(s.readFraction, s.rateRatio, s.worker.frames).Floor + 2;
      if Sub(s.write, s.read) < needed then s.(worker := Idle)
      else s.(worker := Resampling(s.worker.frames, s.written, s.readFraction, 0, None))
    case ReadFirst => s.(worker := s.worker.(first := Some(s.ring(Slot(s.read, s.worker.fraction.Floor)))))
    case ReadSecond =>
      var advance := s.worker.fraction.Floor;
      var second := s.ring((Slot(s.read, advance) + 1) % CAP);
      s.(worker := s.worker.(first := None, made := s.worker.made + 1, fraction := s.worker.fraction + s.rateRatio),
         outputs := s.outputs + [Output(s.taken as real + s.worker.fraction, s.worker.first.value, second, s.worker.fraction - advance as real)])
    case StoreRead =>
      var consumed := s.worker.fraction.Floor;
      s.(read := (s.read + consumed) % U32, taken := s.taken + consumed,
         readFraction := s.worker.fraction - consumed as real, worker := Idle)
  }

  function Switched(s: State, a: Action): State
    requires Enabled(s, a) && (a.SetActive? || a.LoadForDrop? || a.StoreDrop? || a.Enable? || a.UpdateRate?)
  {
    match a
    case SetActive(enable) => s.(active := false, worker := Switching(enable))
    case LoadForDrop => s.(worker := Dropping(s.worker.enable, s.write, s.written))
    case StoreDrop => s.(read := s.worker.index, taken := s.worker.at, readFraction := 0.0, rateRatio := 1.0, worker := Enabling(s.worker.enable))
    case Enable => s.(active := s.active || s.worker.enable, worker := Idle)
    case UpdateRate(ratio) => s.(rateRatio := Clamp(ratio, 0.995, 1.005))
  }

  /** One atomic step; an action that is not due changes nothing. */
  function Next(s: State, a: Action): State
    requires s.readFraction >= 0.0 && s.rateRatio >= 0.0
  {
    if !Enabled(s, a) then s
    else if a.Push? || a.LoadRead? || a.CopyFrame? || a.StoreWrite? then Pushed(s, a)
    else if a.SetActive? || a.LoadForDrop? || a.StoreDrop? || a.Enable? || a.UpdateRate? then Switched(s, a)
    else Resampled(s, a)
  }

  // ------------------------------------------------------------------------------------------
  // The invariant.

  ghost predicate Producing(s: State) {
    && |s.pushed| == s.written + Copied(s.producer)
    && s.written + InFlight(s.producer) <= s.taken + CAP
    && (s.producer.Copying? ==> s.producer.done <= s.producer.accepted <= |s.producer.frames|)
  }

  ghost predicate Working(s: State) {
    && (s.worker.Resampling? ==>
          && s.worker.made <= s.worker.frames && s.worker.limit <= s.written
          && s.worker.fraction == Advanced(s.readFraction, s.rateRatio, s.worker.made)
          && s.taken + Advanced(s.readFraction, s.rateRatio, s.worker.frames).Floor + 2 <= s.worker.limit
          && (s.worker.first.Some? ==>
                && s.worker.made < s.worker.frames
                && s.worker.fraction >= 0.0
                && s.taken + s.worker.fraction.Floor < |s.pushed|
                && s.worker.first.value == s.pushed[s.taken + s.worker.fraction.Floor]))
    && (s.worker.Dropping? ==>
          s.worker.index == s.worker.at % U32 && s.worker.at <= s.written &&
          s.taken as real + s.readFraction <= s.worker.at as real)
  }

  ghost predicate Inv(s: State) {
    && s.write == s.written % U32 && s.read == s.taken % U32
    && s.taken <= s.written && s.taken as real + s.readFraction <= s.written as real
    && 0.0 <= s.readFraction < 1.0 && 0.995 <= s.rateRatio <= 1.005
    && Producing(s) && Working(s) && Content(s.ring, s.pushed)
  }

  /** Where in the pushed stream the next output frame will be taken. */
  function Position(s: State): real {
    s.taken as real + if s.worker.Resampling? then s.worker.fraction else s.readFraction
  }

  /** The output frame blends the two pushed frames around its position. */
  ghost predicate Faithful(pushed: seq<Frame>, o: Output) {
    && 0.0 <= o.position && o.position.Floor + 1 < |pushed|
    && o.first == pushed[o.position.Floor] && o.second == pushed[o.position.Floor + 1]
    && o.mix == o.position - o.position.Floor as real
  }

  ghost predicate Delivered(s: State) {
    && (forall i :: 0 <= i < |s.outputs| ==> Faithful(s.pushed, s.outputs[i]) && s.outputs[i].position < Position(s))
    && (forall i, j :: 0 <= i < j < |s.outputs| ==> s.outputs[i].position < s.outputs[j].position)
  }

  lemma LoadReadKeepsInv(s: State)
    requires Inv(s) && Enabled(s, LoadRead)
    ensures Inv(Pushed(s, LoadRead))
  {
    AcceptedFits(s.written, s.taken, |s.producer.frames|);
  }

  lemma CopyFrameKeepsInv(s: State)
    requires Inv(s) && Enabled(s, CopyFrame)
    ensures Inv(Pushed(s, CopyFrame))
  {
    var t := Pushed(s, CopyFrame);
    SlotOf(s.written, s.producer.done);
    StoreKeepsContent(s.ring, s.pushed, s.producer.frames[s.producer.done]);
    assert Content(t.ring, t.pushed);
    assert Working(t);
  }

  lemma StoreWriteKeepsInv(s: State)
    requires Inv(s) && Enabled(s, StoreWrite)
    ensures Inv(Pushed(s, StoreWrite))
  {
    WordOfSum(s.written, s.producer.accepted);
  }

  lemma PushedKeepsInv(s: State, a: Action)
    requires Inv(s) && Enabled(s, a) && (a.Push? || a.LoadRead? || a.CopyFrame? || a.StoreWrite?)
    ensures Inv(Pushed(s, a)) && s.pushed <= Pushed(s, a).pushed && Position(Pushed(s, a)) == Position(s)
  {
    match a
    case Push(_) =>
    case LoadRead => LoadReadKeepsInv(s);
    case CopyFrame => CopyFrameKeepsInv(s);
    case StoreWrite => StoreWriteKeepsInv(s);
  }

  lemma {:induction false} AdvancedMonotone(from: real, ratio: real, a: nat, b: nat)
    requires a <= b && ratio >= 0.0
    ensures Advanced(from, ratio, a) <= Advanced(from, ratio, b)
  {
    if a < b {
      AdvancedMonotone(from, ratio, a, b - 1);
    }
  }

  /** Both slots read for one frame lie between the read index and the loaded write index. */
  lemma WithinFill(s: State)
    requires Inv(s) && s.worker.Resampling? && s.worker.made < s.worker.frames
    ensures var at := s.taken + s.worker.fraction.Floor;
            && s.worker.fraction >= 0.0 && at + 1 < s.worker.limit <= |s.pushed|
            && s.ring(Slot(s.read, s.worker.fraction.Floor)) == s.pushed[at]
            && s.ring((Slot(s.read, s.worker.fraction.Floor) + 1) % CAP) == s.pushed[at + 1]
  {
    AdvancedMonotone(s.readFraction, s.rateRatio, 0, s.worker.made);
    AdvancedMonotone(s.readFraction, s.rateRatio, s.worker.made, s.worker.frames);
    SlotsHold(s.ring, s.pushed, s.taken, s.worker.fraction.Floor);
  }

  lemma LoadWriteKeepsInv(s: State)
    requires Inv(s) && Enabled(s, LoadWrite)
    ensures Inv(Resampled(s, LoadWrite))
  {
    SubOf(s.written, s.taken);
    AdvancedMonotone(s.readFraction, s.rateRatio, 0, s.worker.frames);
  }

  lemma ReadSecondKeepsInv(s: State)
    requires Inv(s) && Enabled(s, ReadSecond)
    ensures Inv(Resampled(s, ReadSecond))
  {
    WithinFill(s);
  }

  lemma StoreReadKeepsInv(s: State)
    requires Inv(s) && Enabled(s, StoreRead)
    ensures Inv(Resampled(s, StoreRead))
  {
    WordOfSum(s.taken, s.worker.fraction.Floor);
  }

  lemma ResampledKeepsInv(s: State, a: Action)
    requires Inv(s) && Enabled(s, a) && (a.Resample? || a.LoadWrite? || a.ReadFirst? || a.ReadSecond? || a.StoreRead?)
    ensures Inv(Resampled(s, a)) && Resampled(s, a).pushed == s.pushed
    ensures a.ReadSecond? || Position(Resampled(s, a)) == Position(s)
  {
    match a
    case Resample(_) =>
    case LoadWrite => LoadWriteKeepsInv(s);
    case ReadFirst => WithinFill(s);
    case ReadSecond => ReadSecondKeepsInv(s);
    case StoreRead => StoreReadKeepsInv(s);
  }

  lemma SwitchedKeepsInv(s: State, a: Action)
    requires Inv(s) && Enabled(s, a) && (a.SetActive? || a.LoadForDrop? || a.StoreDrop? || a.Enable? || a.UpdateRate?)
    ensures Inv(Switched(s, a)) && Switched(s, a).pushed == s.pushed
    ensures Position(Switched(s, a)) >= Position(s)
  {
  }

  lemma NextKeepsInv(s: State, a: Action)
    requires Inv(s)
    ensures Inv(Next(s, a)) && s.pushed <= Next(s, a).pushed
  {
    if Enabled(s, a) {
      if a.Push? || a.LoadRead? || a.CopyFrame? || a.StoreWrite? {
        PushedKeepsInv(s, a);
      } else if a.SetActive? || a.LoadForDrop? || a.StoreDrop? || a.Enable? || a.UpdateRate? {
        SwitchedKeepsInv(s, a);
      } else {
        ResampledKeepsInv(s, a);
      }
    }
  }

  lemma FloorOfSum(n: int, x: real)
    ensures (n as real + x).Floor == n + x.Floor
  {
  }

  lemma ReadSecondDelivers(s: State)
    requires Inv(s) && Delivered(s) && Enabled(s, ReadSecond)
    ensures Delivered(Resampled(s, ReadSecond))
  {
    var t := Resampled(s, ReadSecond);
    WithinFill(s);
    FloorOfSum(s.taken, s.worker.fraction);
    assert Faithful(s.pushed, t.outputs[|s.outputs|]);
    assert Position(t) > Position(s);
  }

  lemma NextDelivers(s: State, a: Action)
    requires Inv(s) && Delivered(s)
    ensures Delivered(Next(s, a))
  {
    hide Content, Working, Producing, Advanced;
    if Enabled(s, a) {
      if a.Push? || a.LoadRead? || a.CopyFrame? || a.StoreWrite? {
        PushedKeepsInv(s, a);
      } else if a.SetActive? || a.LoadForDrop? || a.StoreDrop? || a.Enable? || a.UpdateRate? {
        SwitchedKeepsInv(s, a);
      } else if a.ReadSecond? {
        ReadSecondDelivers(s);
      } else {
        ResampledKeepsInv(s, a);
      }
    }
  }

  function Run(s: State, schedule: seq<Action>): (t: State)
    requires Inv(s)
    ensures Inv(t)
  {
    if schedule == [] then s
    else
      NextKeepsInv(Run(s, schedule[..|schedule| - 1]), schedule[|schedule| - 1]);
      Next(Run(s, schedule[..|schedule| - 1]), schedule[|schedule| - 1])
  }

  lemma InitialInv(s: State, frame: Frame)
    requires s == Initial(frame)
    ensures Inv(s)
  {
  }

  lemma InitialDelivers(s: State, frame: Frame)
    requires s == Initial(frame)
    ensures Delivered(s)
  {
  }

  lemma {:induction false} RunDelivers(s: State, schedule: seq<Action>)
    requires Inv(s) && Delivered(s)
    ensures Delivered(Run(s, schedule))
  {
    if schedule != [] {
      RunDelivers(s, schedule[..|schedule| - 1]);
      NextDelivers(Run(s, schedule[..|schedule| - 1]), schedule[|schedule| - 1]);
    }
  }

  /**
   In every interleaving, across any number of index wraps and re-activations: each output frame
   blends the two pushed frames around its position, and positions only move forward.
   */
  lemma EveryInterleaving(frame: Frame, schedule: seq<Action>) returns (s: State)
    ensures s == Initial(frame) && Inv(s) && Delivered(Run(s, schedule))
  {
    hide Inv, Delivered, Run;
    s := Initial(frame);
    InitialInv(s, frame);
    InitialDelivers(s, frame);
    RunDelivers(s, schedule);
  }

  /** Consecutive packets continue on one line: no frame is skipped or repeated between them. */
  lemma PacketsJoin(s: State)
    requires Inv(s) && Enabled(s, StoreRead)
    ensures Position(Next(s, StoreRead)) == s.taken as real + s.readFraction + s.worker.frames as real * s.rateRatio
  {
    hide Advanced, Content, Producing;
    AdvancedIsProduct(s.readFraction, s.rateRatio, s.worker.frames);
  }

  /** A 16-bit frame taken at a whole position comes out unmodified. */
  lemma WholePositionsUnmodified(pushed: seq<Frame>, o: Output, k: nat)
    requires Faithful(pushed, o) && o.position == k as real
    requires -32768 <= pushed[k].left < 32768 && -32768 <= pushed[k].right < 32768
    ensures Encoded(o) == pushed[k]
  {
  }

  // ------------------------------------------------------------------------------------------
  // The stream itself. Undisturbed, each operation is one run of the steps above.

  ghost predicate Sound(s: State) {
    Inv(s) && Delivered(s)
  }

  /** The 16-bit sample a value becomes: limited, and cut off towards zero. */
  predicate Rounded(value: real, sample: int) {
    if value >= 32767.0 then sample == 32767
    else if value <= -32768.0 then sample == -32768
    else if value >= 0.0 then sample as real <= value < sample as real + 1.0
    else sample as real - 1.0 < value <= sample as real
  }

  function Between(a: int, b: int, mix: real): real {
    a as real + (b - a) as real * mix
  }

  predicate Blended(a: Frame, b: Frame, mix: real, frame: Frame) {
    Rounded(Between(a.left, b.left, mix), frame.left) && Rounded(Between(a.right, b.right, mix), frame.right)
  }

  /** The frame is what was pushed at this place, blended from the frames on both sides of it. */
  ghost predicate PlayedAt(pushed: seq<Frame>, at: real, frame: Frame) {
    var n := at.Floor;
    0 <= n && n + 1 < |pushed| && Blended(pushed[n], pushed[n + 1], at - n as real, frame)
  }

  lemma ChannelRounds(a: int, b: int, mix: real)
    ensures Rounded(Between(a, b, mix), Channel(a, b, mix))
  {
    LimitedAndCut(Between(a, b, mix));
  }

  lemma LimitedAndCut(value: real)
    ensures Rounded(value, Truncate(Clamp(value, -32768.0, 32767.0)))
  {
  }

  lemma EncodedBlends(o: Output)
    ensures Blended(o.first, o.second, o.mix, Encoded(o))
  {
    hide Rounded, Channel, Between;
    ChannelRounds(o.first.left, o.second.left, o.mix);
    ChannelRounds(o.first.right, o.second.right, o.mix);
  }

  lemma FaithfulPlays(pushed: seq<Frame>, o: Output)
    requires Faithful(pushed, o)
    ensures PlayedAt(pushed, o.position, Encoded(o))
  {
    hide Blended, Encoded;
    EncodedBlends(o);
  }

  lemma MadeIsFaithful(s: State, o: Output)
    requires Sound(s) && s.outputs != [] && s.outputs[|s.outputs| - 1] == o
    ensures Faithful(s.pushed, o)
  {
    hide Inv, Faithful;
  }

  /** What is queued is what has been pushed and not been passed yet. */
  lemma Queued(s: State)
    requires Sound(s)
    ensures s.taken <= s.written <= s.taken + CAP && Sub(s.write, s.read) == s.written - s.taken
  {
    hide Delivered, Content, Working;
    SubOf(s.written, s.taken);
  }

  lemma RunSnoc(s: State, schedule: seq<Action>, a: Action)
    requires Inv(s)
    ensures Run(s, schedule + [a]) == Next(Run(s, schedule), a)
  {
    assert (schedule + [a])[..|schedule|] == schedule;
  }

  /** Frames that have to be queued for a packet. */
  function Needed(fraction: real, ratio: real, count: nat): int {
    (fraction + count as real * ratio).Floor + 2
  }

  lemma NeededIs(fraction: real, ratio: real, count: nat)
    ensures Needed(fraction, ratio, count) == (fraction + count as real * ratio).Floor + 2
  {
  }

  lemma SoundFacts(s: State)
    requires Sound(s)
    ensures Inv(s) && s.readFraction >= 0.0 && s.rateRatio >= 0.0
    ensures s.worker.Resampling? ==> s.worker.fraction >= 0.0
  {
    hide Content, Delivered;
    if s.worker.Resampling? {
      AdvancedMonotone(s.readFraction, s.rateRatio, 0, s.worker.made);
    }
  }

  lemma NextSound(s: State, a: Action)
    requires Sound(s)
    ensures Inv(s) && s.readFraction >= 0.0 && s.rateRatio >= 0.0 && Sound(Next(s, a))
  {
    hide Inv, Delivered;
    SoundFacts(s);
    NextKeepsInv(s, a);
    NextDelivers(s, a);
  }

  /** The first of the two frames of an output frame has been read. */
  lemma FetchFirst(s: State)
    requires Sound(s) && s.worker.Resampling? && s.worker.made < s.worker.frames && s.worker.first.None?
    ensures s.worker.fraction >= 0.0 && s.readFraction >= 0.0 && s.rateRatio >= 0.0
    ensures Next(s, ReadFirst) == s.(worker := s.worker.(first := Some(s.ring(Slot(s.read, s.worker.fraction.Floor)))))
    ensures Sound(Next(s, ReadFirst))
  {
    hide Sound, Inv, Slot;
    SoundFacts(s);
    NextSound(s, ReadFirst);
  }

  /** So has the second, and the output frame is made. */
  lemma FetchSecond(s: State)
    requires Sound(s) && s.worker.Resampling? && s.worker.first.Some?
    ensures s.worker.fraction >= 0.0 && s.readFraction >= 0.0 && s.rateRatio >= 0.0
    ensures var advance := s.worker.fraction.Floor;
            Next(s, ReadSecond) ==
            s.(worker := s.worker.(first := None, made := s.worker.made + 1, fraction := s.worker.fraction + s.rateRatio),
               outputs := s.outputs + [Output(s.taken as real + s.worker.fraction, s.worker.first.value,
                                              s.ring((Slot(s.read, advance) + 1) % CAP), s.worker.fraction - advance as real)])
    ensures Sound(Next(s, ReadSecond))
  {
    hide Sound, Inv, Slot;
    SoundFacts(s);
    NextSound(s, ReadSecond);
  }

  /** The packet is complete; the read index moves past what is used up. */
  lemma StoreConsumed(s: State)
    requires Sound(s) && s.worker.Resampling? && s.worker.made == s.worker.frames
    ensures s.worker.fraction >= 0.0 && s.readFraction >= 0.0 && s.rateRatio >= 0.0
    ensures var consumed := s.worker.fraction.Floor;
            Next(s, StoreRead) ==
            s.(read := (s.read + consumed) % U32, taken := s.taken + consumed,
               readFraction := s.worker.fraction - consumed as real, worker := Idle)
    ensures Sound(Next(s, StoreRead))
  {
    hide Sound, Inv;
    SoundFacts(s);
    NextSound(s, StoreRead);
  }

  /** A packet is begun if enough is queued. */
  lemma BeginPacket(s: State, count: nat)
    requires Sound(s) && s.worker.Idle? && count > 0
    ensures Inv(s) && s.readFraction >= 0.0 && s.rateRatio >= 0.0
    ensures var t := Run(s, [Resample(count), LoadWrite]);
            && Sound(t)
            && t == if Sub(s.write, s.read) < Needed(s.readFraction, s.rateRatio, count) then s
                    else s.(worker := Resampling(count, s.written, s.readFraction, 0, None))
  {
    hide Sound, Inv;
    SoundFacts(s);
    NextSound(s, Resample(count));
    SoundFacts(Next(s, Resample(count)));
    NextSound(Next(s, Resample(count)), LoadWrite);
    AdvancedIsProduct(s.readFraction, s.rateRatio, count);
    RunSnoc(s, [], Resample(count));
    RunSnoc(s, [Resample(count)], LoadWrite);
    assert [] + [Resample(count)] == [Resample(count)] && [Resample(count)] + [LoadWrite] == [Resample(count), LoadWrite];
  }

  /** Everything queued is dropped, and the slot is on or off. */
  lemma DropAll(s: State, enable: bool)
    requires Sound(s) && s.worker.Idle?
    ensures var actions := [SetActive(enable), LoadForDrop, StoreDrop, Enable];
            && Run(s, actions) == s.(active := enable, read := s.write, taken := s.written, readFraction := 0.0, rateRatio := 1.0)
            && Sound(Run(s, actions))
  {
    hide Content, Delivered;
    var a := [SetActive(enable)];
    var b, c := a + [LoadForDrop], a + [LoadForDrop] + [StoreDrop];
    RunSnoc(s, [], SetActive(enable));
    RunSnoc(s, a, LoadForDrop);
    RunSnoc(s, b, StoreDrop);
    RunSnoc(s, c, Enable);
    assert [] + [SetActive(enable)] == a && c + [Enable] == [SetActive(enable), LoadForDrop, StoreDrop, Enable];
    RunDelivers(s, [SetActive(enable), LoadForDrop, StoreDrop, Enable]);
  }

  class Stream {
    var write: nat
    var read: nat
    var active: bool
    var readFraction: real
    var rateRatio: real
    const ring: array<Frame>
    ghost var history: State

    /** The fields are those of the history, and its machine is at rest. */
    ghost predicate Follows()
      reads this, ring
    {
      && write == history.write && read == history.read && active == history.active
      && readFraction == history.readFraction && rateRatio == history.rateRatio
      && ring.Length == CAP && forall i :: 0 <= i < CAP ==> ring[i] == history.ring(i)
    }

    ghost predicate Valid()
      reads this, ring
    {
      Sound(history) && history.producer.Resting? && history.worker.Idle? && Follows()
    }

    constructor (frame: Frame)
      ensures Valid() && fresh(ring) && history == Initial(frame)
    {
      write, read, active, readFraction, rateRatio := 0, 0, false, 0.0, 1.0;
      ring := new Frame[CAP](_ => frame);
      history := Initial(frame);
      new;
      InitialInv(history, frame);
      InitialDelivers(history, frame);
    }

    /** Takes one step in the history. */
    ghost method Step(a: Action)
      requires Sound(history)
      modifies `history
      ensures history == Next(old(history), a) && Sound(history)
      ensures history.readFraction >= 0.0 && 0.0 <= history.rateRatio
    {
      NextKeepsInv(history, a);
      NextDelivers(history, a);
      history := Next(history, a);
    }

    /** Appends as many frames as there is room for. */
    method Push(frames: seq<Frame>) returns (accepted: nat)
      requires Valid()
      modifies `write, `history, ring
      ensures Valid()
      ensures var free := 16384 - (old(history.written) - history.taken);
              accepted == if !active then 0 else if |frames| < free then |frames| else free
      ensures accepted <= |frames| && history.pushed == old(history.pushed) + frames[..accepted]
      ensures history.written == old(history.written) + accepted
      ensures history.taken == old(history.taken) && history.outputs == old(history.outputs)
    {
      hide Sound, Content, Delivered;
      Queued(history);
      if frames == [] || !active {
        assert frames[..0] == [];
        return 0;
      }
      ghost var before := history;
      Step(Action.Push(frames));
      Step(LoadRead);
      var used := Sub(write, read);
      var free := if used >= CAP then 0 else CAP - used;
      accepted := if |frames| < free then |frames| else free;
      for k := 0 to accepted
        invariant Sound(history) && history.worker.Idle? && Follows()
        invariant history.producer == Copying(frames, accepted, k) && history.pushed == before.pushed + frames[..k]
        invariant history.taken == before.taken && history.written == before.written && history.outputs == before.outputs
      {
        SlotFits(write, k);
        ring[Slot(write, k)] := frames[k];
        Step(CopyFrame);
        assert frames[..k + 1] == frames[..k] + [frames[k]];
      }
      Step(StoreWrite);
      write := (write + accepted) % U32;
    }

    /** One output frame, blended from the two around its position. */
    method MakeFrame(fraction: real) returns (frame: Frame, ghost o: Output)
      requires Sound(history) && Follows() && history.worker.Resampling? && fraction == history.worker.fraction
      requires history.worker.made < history.worker.frames && history.worker.first.None?
      modifies `history
      ensures Sound(history) && Follows() && fraction >= 0.0 && history.readFraction >= 0.0 && rateRatio >= 0.0
      ensures frame == Encoded(o) && PlayedAt(history.pushed, history.taken as real + fraction, frame)
      ensures history == old(history).(outputs := old(history.outputs) + [o],
                worker := old(history.worker).(made := old(history.worker.made) + 1, fraction := fraction + rateRatio))
    {
      hide Sound, Inv, Next, Blend, PlayedAt, Faithful;
      FetchFirst(history);
      var advance := fraction.Floor;
      var slot := Slot(read, advance);
      SlotFits(read, advance);
      var first, second := ring[slot], ring[(slot + 1) % CAP];
      history := Next(history, ReadFirst);
      FetchSecond(history);
      history := Next(history, ReadSecond);
      frame := Blend(first, second, fraction - advance as real);
      o := Output(history.taken as real + fraction, first, second, fraction - advance as real);
      MadeIsFaithful(history, o);
      FaithfulPlays(history.pushed, o);
    }

    /**
     A packet of that many frames, or none when not enough is queued. It goes on where the last one
     ended, each frame is taken one ratio further than the one before, and the next will go on after it.
     */
    method Resample(count: nat) returns (packet: seq<Frame>)
      requires Valid()
      modifies `read, `readFraction, `history
      ensures Valid() && history.pushed == old(history.pushed) && history.written == old(history.written)
      ensures |packet| == if (old(readFraction) + count as real * rateRatio).Floor + 2 <= history.written - old(history.taken) then count else 0
      ensures packet == [] ==> history == old(history) && unchanged(`read, `readFraction)
      ensures packet != [] ==> forall k :: 0 <= k < count ==>
                PlayedAt(history.pushed, old(history.taken) as real + Advanced(old(readFraction), rateRatio, k), packet[k])
      ensures packet != [] ==> history.taken as real + readFraction == old(history.taken) as real + Advanced(old(readFraction), rateRatio, count)
      ensures |history.outputs| == |old(history.outputs)| + |packet| && old(history.outputs) <= history.outputs
      ensures forall k :: 0 <= k < |packet| ==> packet[k] == Encoded(history.outputs[|old(history.outputs)| + k])
    {
      hide Sound, Inv, Next, Run, Needed, Blend, PlayedAt, Advanced;
      packet := [];
      Queued(history);
      NeededIs(readFraction, rateRatio, count);
      if count == 0 {
        return;
      }
      BeginPacket(history, count);
      var needed := Needed(readFraction, rateRatio, count);
      history := Run(history, [Action.Resample(count), LoadWrite]);
      if Sub(write, read) < needed {
        return;
      }
      var fraction;
      packet, fraction := MakeFrames(count);
      StoreConsumed(history);
      history := Next(history, StoreRead);
      var consumed := fraction.Floor;
      read, readFraction := (read + consumed) % U32, fraction - consumed as real;
    }

    method MakeFrames(count: nat) returns (packet: seq<Frame>, fraction: real)
      requires Sound(history) && history.producer.Resting? && Follows()
      requires history.worker.Resampling? && history.worker == Resampling(count, history.worker.limit, readFraction, 0, None)
      modifies `history
      ensures Sound(history) && Follows() && |packet| == count && fraction == Advanced(readFraction, rateRatio, count)
      ensures history == old(history).(outputs := history.outputs, worker := old(history).worker.(made := count, fraction := fraction))
      ensures |history.outputs| == |old(history.outputs)| + count && old(history.outputs) <= history.outputs
      ensures forall k :: 0 <= k < count ==>
                && packet[k] == Encoded(history.outputs[|old(history.outputs)| + k])
                && PlayedAt(history.pushed, history.taken as real + Advanced(readFraction, rateRatio, k), packet[k])
    {
      hide Sound, Inv, Next, Blend, PlayedAt, Encoded, Advanced, Faithful, Delivered;
      packet, fraction := [], readFraction;
      AdvancedNext(readFraction, rateRatio, 0);
      for k := 0 to count
        invariant Sound(history) && Follows() && fraction == Advanced(readFraction, rateRatio, k)
        invariant history == old(history).(outputs := history.outputs, worker := old(history).worker.(made := k, fraction := fraction))
        invariant |packet| == k && |history.outputs| == |old(history.outputs)| + k && old(history.outputs) <= history.outputs
        invariant forall j :: 0 <= j < k ==>
                    && packet[j] == Encoded(history.outputs[|old(history.outputs)| + j])
                    && PlayedAt(history.pushed, history.taken as real + Advanced(readFraction, rateRatio, j), packet[j])
      {
        AdvancedNext(readFraction, rateRatio, k);
        var frame, o := MakeFrame(fraction);
        packet := packet + [frame];
        fraction := fraction + rateRatio;
      }
    }

    /** Activates or deactivates the slot and drops what is queued. */
    method SetActive(enable: bool)
      requires Valid()
      modifies `active, `read, `readFraction, `rateRatio, `history
      ensures Valid() && active == enable && read == write && readFraction == 0.0 && rateRatio == 1.0
      ensures history.pushed == old(history.pushed) && history.outputs == old(history.outputs)
    {
      hide Inv, Delivered, Run;
      DropAll(history, enable);
      history := Run(history, [Action.SetActive(enable), LoadForDrop, StoreDrop, Enable]);
      active := false;
      read := write;
      readFraction, rateRatio := 0.0, 1.0;
      if enable {
        active := true;
      }
    }
  }
}
