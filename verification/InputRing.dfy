/**
 The PCM ring from a Bluetooth source. The Bluetooth worker pushes decoded frames and begins and
 ends generations; the audio thread plays them through a jitter buffer. A new generation moves the
 read index to where the generation began, which may be backwards, while a push that still uses
 the old read index is under way.
 */
module InputRing {
  import opened Basics
  import opened PcmRing

  /** The largest push the safety margin allows for; the worker decodes at most 128 frames at a time. */
  const MAX_PUSH: nat := 2048
  const MAX_RATE: nat := 48000
  const MIN_TARGET: nat := 512

  datatype Reader =
    | Idle
    | LoadingStart(frames: nat)
    | StoringStart(frames: nat, index: nat, at: nat)
    | LoadingWrite(frames: nat)
    | Reading(frames: nat, ratio: real, base: nat, index: nat, available: nat, fraction: real, made: nat, first: Option<Frame>)

  /** Two neighbouring frames as they were read and how they are mixed, with the generation and its origin at that time. */
  datatype Fetch = Fetch(at: nat, mix: real, first: Frame, second: Frame, generation: nat, origin: nat)

  /**
   `written`, `taken` and `start` count frames without wrapping, `origin` is where the generation
   being played began, `pushed` and `fetched` record the traffic; no step looks at any of them.
   */
  datatype State = State(
    write: nat,
    read: nat,
    startIndex: nat,
    generation: nat,
    ring: nat -> Frame,
    producer: Producer,
    restarting: bool,
    reader: Reader,
    seen: nat,
    primed: bool,
    readFraction: real,
    written: nat,
    taken: nat,
    start: nat,
    origin: nat,
    pushed: seq<Frame>,
    fetched: seq<Fetch>)

  datatype Action =
    | Push(frames: seq<Frame>) | LoadRead | CopyFrame | StoreWrite | StoreStart | BumpGeneration
    | Render(count: nat) | LoadStart | AdoptStart | LoadWrite(rate: nat, ratio: real)
    | ReadFirst | ReadSecond | RunDry | Finish

  function Initial(frame: Frame): State {
    State(0, 0, 0, 0, _ => frame, Resting, false, Idle, 0, false, 0.0, 0, 0, 0, 0, [], [])
  }

  /** About 120 ms of audio, at least four blocks. */
  function TargetFill(rate: nat): (target: nat)
    requires rate <= MAX_RATE
    ensures 512 <= target && target + MAX_PUSH <= CAP - MAX_PUSH
    ensures rate != 0 ==> target as real <= rate as real * 0.12 < target as real + 1.0 || (target == 512 && rate as real * 0.12 < 512.0)
    ensures rate == 0 ==> target == 5760
  {
    var target := (if rate == 0 then 48000 else rate) * 3 / 25;
    if target < MIN_TARGET then MIN_TARGET else target
  }

  predicate ByWorker(a: Action) {
    a.Push? || a.LoadRead? || a.CopyFrame? || a.StoreWrite? || a.StoreStart? || a.BumpGeneration?
  }

  /** A frame is due and the two it needs are there. */
  predicate Due(r: Reader) {
    r.Reading? && r.made < r.frames && r.fraction >= 0.0 && r.fraction.Floor + 1 < r.available
  }

  predicate Enabled(s: State, a: Action) {
    match a
    case Push(frames) => s.producer.Resting? && !s.restarting && 0 < |frames| <= MAX_PUSH
    case LoadRead => s.producer.Pushing?
    case CopyFrame => s.producer.Copying? && s.producer.done < s.producer.accepted <= |s.producer.frames|
    case StoreWrite => s.producer.Copying? && s.producer.done == s.producer.accepted
    case StoreStart => s.producer.Resting? && !s.restarting
    case BumpGeneration => s.restarting
    case Render(_) => s.reader.Idle?
    case LoadStart => s.reader.LoadingStart?
    case AdoptStart => s.reader.StoringStart?
    case LoadWrite(rate, ratio) => s.reader.LoadingWrite? && rate <= MAX_RATE && 0.0 < ratio < 2.0
    case ReadFirst => Due(s.reader) && s.reader.first.None?
    case ReadSecond => Due(s.reader) && s.reader.first.Some?
    case RunDry => s.reader.Reading? && s.reader.made < s.reader.frames && !Due(s.reader)
    case Finish => s.reader.Reading? && s.reader.made == s.reader.frames && s.reader.fraction >= 0.0
  }

  function WorkerNext(s: State, a: Action): State
    requires Enabled(s, a) && ByWorker(a)
  {
    match a
    case Push(frames) => s.(producer := Pushing(frames))
    case LoadRead =>
      s.(producer := Copying(s.producer.frames, Accepted(s.write, s.read, |s.producer.frames|), 0))
    case CopyFrame =>
      var k := s.producer.done;
      s.(ring := Store(s.ring, Slot(s.write, k), s.producer.frames[k]), producer := s.producer.(done := k + 1),
         pushed := s.pushed + [s.producer.frames[k]])
    case StoreWrite =>
      s.(write := (s.write + s.producer.accepted) % U32, written := s.written + s.producer.accepted, producer := Resting)
    case StoreStart => s.(startIndex := s.write, start := s.written, restarting := true)
    case BumpGeneration => s.(generation := s.generation + 1, restarting := false)
  }

  function Before(count: nat, target: nat): nat {
    if count >= target then count - target else 0
  }

  /** The reader knows how much there is: it primes, and skips ahead when the sender is far ahead. */
  function Loaded(s: State, available: nat, target: nat, ratio: real): State
    requires s.reader.LoadingWrite?
  {
    if !s.primed && available < target then s.(reader := Idle)
    else if available > CAP - MAX_PUSH then
      s.(primed := true,
         reader := Reading(s.reader.frames, ratio, Before(s.written, target), Sub(s.write, target), target, 0.0, 0, None))
    else
      var fraction := if s.primed then s.readFraction else 0.0;
      s.(primed := true, reader := Reading(s.reader.frames, ratio, s.taken, s.read, available, fraction, 0, None))
  }

  function Finished(s: State, consumed: nat, fraction: real, primed: bool): State
    requires s.reader.Reading?
  {
    s.(read := (s.reader.index + consumed) % U32, taken := s.reader.base + consumed,
       readFraction := fraction, primed := primed, reader := Idle)
  }

  function ReaderNext(s: State, a: Action): State
    requires Enabled(s, a) && !ByWorker(a)
  {
    match a
    case Render(count) =>
      if s.generation != s.seen then s.(seen := s.generation, reader := LoadingStart(count))
      else s.(reader := LoadingWrite(count))
    case LoadStart => s.(reader := StoringStart(s.reader.frames, s.startIndex, s.start))
    case AdoptStart =>
      s.(read := s.reader.index, taken := s.reader.at, origin := s.reader.at, primed := false, readFraction := 0.0,
         reader := LoadingWrite(s.reader.frames))
    case LoadWrite(rate, ratio) => Loaded(s, Sub(s.write, s.read), TargetFill(rate), ratio)
    case ReadFirst =>
      s.(reader := s.reader.(first := Some(s.ring(Slot(s.reader.index, s.reader.fraction.Floor)))))
    case ReadSecond =>
      var offset := s.reader.fraction.Floor;
      var second := s.ring((Slot(s.reader.index, offset) + 1) % CAP);
      s.(reader := s.reader.(first := None, made := s.reader.made + 1, fraction := s.reader.fraction + s.reader.ratio),
         fetched := s.fetched + [Fetch(s.reader.base + offset, s.reader.fraction - offset as real, s.reader.first.value, second, s.seen, s.origin)])
    case RunDry => Finished(s, s.reader.available, 0.0, false)
    case Finish =>
      var consumed := s.reader.fraction.Floor;
      Finished(s, consumed, s.reader.fraction - consumed as real, s.primed)
  }

  /** One atomic step; an action that is not due changes nothing. */
  function Next(s: State, a: Action): State {
    if !Enabled(s, a) then s else if ByWorker(a) then WorkerNext(s, a) else ReaderNext(s, a)
  }

  // ------------------------------------------------------------------------------------------
  // The invariant.

  /** Everything up to here may be overwritten by the push that is under way. */
  function End(s: State): nat {
    s.written + InFlight(s.producer)
  }

  predicate Words(s: State) {
    && s.write == s.written % U32 && s.read == s.taken % U32 && s.startIndex == s.start % U32
    && s.start <= s.written && s.taken <= s.written && s.origin <= s.taken && s.origin <= s.start
    && s.seen <= s.generation && 0.0 <= s.readFraction < 1.0 && (!s.primed ==> s.readFraction == 0.0)
  }

  predicate Producing(s: State) {
    && |s.pushed| == s.written + Copied(s.producer)
    && (s.producer.Pushing? ==> |s.producer.frames| <= MAX_PUSH)
    && (s.producer.Copying? ==> s.producer.done <= s.producer.accepted <= |s.producer.frames| <= MAX_PUSH)
    && (s.restarting ==> s.producer.Resting? && s.start == s.written)
  }

  /** How far the writer can be ahead of the stored read index, phase by phase. */
  predicate Margins(s: State) {
    match s.reader
    case Idle => End(s) <= s.taken + CAP && (s.seen < s.generation ==> s.taken <= s.start + CAP)
    case LoadingStart(_) => End(s) <= s.taken + CAP && s.taken <= s.start + CAP
    case StoringStart(_, index, at) =>
      index == at % U32 && s.origin <= at <= s.start && s.taken <= at + CAP && End(s) <= s.taken + CAP
    case LoadingWrite(_) => End(s) <= s.taken + 2 * CAP
    case Reading(_, _, base, index, available, _, _, _) =>
      && index == base % U32 && s.taken <= base <= s.taken + 2 * CAP
      && base + available <= s.written && available <= CAP - MAX_PUSH && End(s) <= base + CAP
  }

  predicate Playing(s: State) {
    s.reader.Reading? ==>
      var r := s.reader;
      && s.primed && r.made <= r.frames && 0.0 < r.ratio < 2.0 && 0.0 <= r.fraction && r.fraction.Floor <= r.available
      && (r.first.Some? ==> Due(r) && r.base + r.fraction.Floor < |s.pushed| && r.first.value == s.pushed[r.base + r.fraction.Floor])
  }

  /** A generation that began during this render has not let the writer run far ahead of it. */
  predicate Pending(s: State) {
    s.seen < s.generation && !s.reader.Idle? ==> s.taken <= s.start && End(s) <= s.start + CAP
  }

  ghost predicate Inv(s: State) {
    Words(s) && Producing(s) && Margins(s) && Playing(s) && Pending(s) && Content(s.ring, s.pushed)
  }

  /** Nothing read was overwritten, nor from before the generation being played. */
  predicate Faithful(pushed: seq<Frame>, f: Fetch) {
    && f.origin <= f.at && f.at + 1 < |pushed| && 0.0 <= f.mix < 1.0
    && f.first == pushed[f.at] && f.second == pushed[f.at + 1]
  }

  /** Where in the pushed stream a sample was taken, between its two frames. */
  function Spot(f: Fetch): real {
    f.at as real + f.mix
  }

  /** Where the next one will be taken. */
  function Position(s: State): real {
    if s.reader.Reading? then s.reader.base as real + s.reader.fraction else s.taken as real + s.readFraction
  }

  /** No frame from here on has been looked at in this generation. */
  function Known(s: State): int {
    if s.reader.Reading? then s.reader.base + s.reader.available else s.written
  }

  predicate Behind(s: State, f: Fetch) {
    && f.generation <= s.seen
    && (f.generation == s.seen && !s.reader.LoadingStart? && !s.reader.StoringStart? ==> Spot(f) < Position(s) && f.at + 1 < Known(s))
  }

  /** Every fetch is faithful, and within a generation playback only moves forward. */
  ghost predicate Played(s: State) {
    && (forall i :: 0 <= i < |s.fetched| ==> Faithful(s.pushed, s.fetched[i]) && Behind(s, s.fetched[i]))
    && (forall i, j :: 0 <= i < j < |s.fetched| ==>
          s.fetched[i].generation < s.fetched[j].generation ||
          (s.fetched[i].generation == s.fetched[j].generation && Spot(s.fetched[i]) < Spot(s.fetched[j])))
    && (s.reader.LoadingStart? || s.reader.StoringStart? ==>
          forall i :: 0 <= i < |s.fetched| ==> s.fetched[i].generation < s.seen)
  }

  lemma LoadReadKeepsInv(s: State)
    requires Inv(s) && Enabled(s, LoadRead)
    ensures Inv(WorkerNext(s, LoadRead))
  {
    AcceptedFits(s.written, s.taken, |s.producer.frames|);
  }

  lemma CopyFrameKeepsInv(s: State)
    requires Inv(s) && Enabled(s, CopyFrame)
    ensures Inv(WorkerNext(s, CopyFrame))
  {
    SlotOf(s.written, s.producer.done);
    StoreKeepsContent(s.ring, s.pushed, s.producer.frames[s.producer.done]);
  }

  lemma StoreWriteKeepsInv(s: State)
    requires Inv(s) && Enabled(s, StoreWrite)
    ensures Inv(WorkerNext(s, StoreWrite))
  {
    WordOfSum(s.written, s.producer.accepted);
  }

  lemma WorkerKeepsInv(s: State, a: Action)
    requires Inv(s) && Enabled(s, a) && ByWorker(a)
    ensures Inv(WorkerNext(s, a)) && s.pushed <= WorkerNext(s, a).pushed
  {
    match a
    case LoadRead => LoadReadKeepsInv(s);
    case CopyFrame => CopyFrameKeepsInv(s);
    case StoreWrite => StoreWriteKeepsInv(s);
    case _ =>
  }

  lemma SkipKeepsInv(s: State, available: nat, target: nat, ratio: real)
    requires Inv(s) && s.reader.LoadingWrite? && available == s.written - s.taken > CAP - MAX_PUSH
    requires target <= CAP - 2 * MAX_PUSH && 0.0 < ratio < 2.0
    ensures Inv(Loaded(s, available, target, ratio))
  {
    SubWord(s.written, target);
  }

  lemma StayKeepsInv(s: State, available: nat, target: nat, ratio: real)
    requires Inv(s) && s.reader.LoadingWrite? && available == s.written - s.taken <= CAP - MAX_PUSH
    requires target <= CAP - 2 * MAX_PUSH && 0.0 < ratio < 2.0
    ensures Inv(Loaded(s, available, target, ratio))
  {
  }

  lemma LoadWriteKeepsInv(s: State, rate: nat, ratio: real)
    requires Inv(s) && Enabled(s, LoadWrite(rate, ratio))
    ensures Inv(ReaderNext(s, LoadWrite(rate, ratio)))
  {
    var available := Sub(s.write, s.read);
    SubOf(s.written, s.taken);
    if available > CAP - MAX_PUSH {
      SkipKeepsInv(s, available, TargetFill(rate), ratio);
    } else {
      StayKeepsInv(s, available, TargetFill(rate), ratio);
    }
  }

  lemma SubWord(count: nat, target: nat)
    requires target <= count && target < U32
    ensures Sub(count % U32, target) == (count - target) % U32
  {
  }

  /** The two slots of a frame that is due still hold what was pushed there. */
  lemma WithinAvailable(s: State)
    requires Inv(s) && Due(s.reader)
    ensures var r := s.reader;
            var at := r.base + r.fraction.Floor;
            && at + 1 < r.base + r.available <= |s.pushed|
            && s.ring(Slot(r.index, r.fraction.Floor)) == s.pushed[at]
            && s.ring((Slot(r.index, r.fraction.Floor) + 1) % CAP) == s.pushed[at + 1]
  {
    SlotsHold(s.ring, s.pushed, s.reader.base, s.reader.fraction.Floor);
  }

  lemma ReadSecondKeepsInv(s: State)
    requires Inv(s) && Enabled(s, ReadSecond)
    ensures Inv(ReaderNext(s, ReadSecond))
  {
    assert (s.reader.fraction + s.reader.ratio).Floor <= s.reader.fraction.Floor + 2;
  }

  lemma FinishedKeepsInv(s: State, consumed: nat, fraction: real, primed: bool)
    requires Inv(s) && s.reader.Reading? && consumed <= s.reader.available && 0.0 <= fraction < 1.0 && (primed || fraction == 0.0)
    ensures Inv(Finished(s, consumed, fraction, primed))
  {
    WordOfSum(s.reader.base, consumed);
  }

  lemma ReaderKeepsInv(s: State, a: Action)
    requires Inv(s) && Enabled(s, a) && !ByWorker(a)
    ensures Inv(ReaderNext(s, a)) && ReaderNext(s, a).pushed == s.pushed
  {
    hide Content, TargetFill;
    if a.Render? || a.LoadStart? || a.AdoptStart? {
      BeginKeepsInv(s, a);
    } else if a.LoadWrite? {
      LoadWriteKeepsInv(s, a.rate, a.ratio);
    } else if a.ReadFirst? {
      WithinAvailable(s);
    } else if a.ReadSecond? {
      ReadSecondKeepsInv(s);
    } else {
      EndKeepsInv(s, a);
    }
  }

  lemma BeginKeepsInv(s: State, a: Action)
    requires Inv(s) && Enabled(s, a) && (a.Render? || a.LoadStart? || a.AdoptStart?)
    ensures Inv(ReaderNext(s, a))
  {
  }

  lemma EndKeepsInv(s: State, a: Action)
    requires Inv(s) && Enabled(s, a) && (a.RunDry? || a.Finish?)
    ensures Inv(ReaderNext(s, a))
  {
    hide Inv;
    EndFacts(s, a);
    var consumed := s.reader.fraction.Floor;
    if a.RunDry? {
      FinishedKeepsInv(s, s.reader.available, 0.0, false);
    } else {
      FinishedKeepsInv(s, consumed, s.reader.fraction - consumed as real, s.primed);
    }
  }

  lemma EndFacts(s: State, a: Action)
    requires Inv(s) && Enabled(s, a) && (a.RunDry? || a.Finish?)
    ensures s.primed && 0 <= s.reader.fraction.Floor <= s.reader.available
  {
    hide Content, Margins, Pending;
  }

  lemma NextKeepsInv(s: State, a: Action)
    requires Inv(s)
    ensures Inv(Next(s, a)) && s.pushed <= Next(s, a).pushed
  {
    if Enabled(s, a) {
      if ByWorker(a) {
        WorkerKeepsInv(s, a);
      } else {
        ReaderKeepsInv(s, a);
      }
    }
  }

  lemma ReadSecondPlays(s: State)
    requires Inv(s) && Played(s) && Enabled(s, ReadSecond)
    ensures Played(ReaderNext(s, ReadSecond))
  {
    WithinAvailable(s);
    var t := ReaderNext(s, ReadSecond);
    assert Faithful(t.pushed, t.fetched[|s.fetched|]);
    assert Spot(t.fetched[|s.fetched|]) == Position(s) < Position(t);
  }

  /** No fetch is left behind by a step that fetches nothing. */
  lemma QuietStepPlays(s: State, t: State)
    requires Played(s) && t.fetched == s.fetched && t.pushed == s.pushed && s.seen <= t.seen
    requires s.seen == t.seen && !s.reader.LoadingStart? && !s.reader.StoringStart? ==> Position(s) <= Position(t) && Known(s) <= Known(t)
    requires s.seen == t.seen && (s.reader.LoadingStart? || s.reader.StoringStart?) ==> t.reader.StoringStart? || t.reader.LoadingWrite?
    requires t.reader.LoadingStart? || t.reader.StoringStart? ==> s.seen < t.seen || s.reader.LoadingStart? || s.reader.StoringStart?
    ensures Played(t)
  {
    forall i | 0 <= i < |t.fetched|
      ensures Faithful(t.pushed, t.fetched[i]) && Behind(t, t.fetched[i])
    {
      assert Behind(s, s.fetched[i]);
    }
  }

  lemma FinishPlays(s: State, a: Action)
    requires Inv(s) && Played(s) && Enabled(s, a) && (a.Finish? || a.RunDry?)
    ensures Played(ReaderNext(s, a))
  {
    var t := ReaderNext(s, a);
    forall i | 0 <= i < |t.fetched|
      ensures Faithful(t.pushed, t.fetched[i]) && Behind(t, t.fetched[i])
    {
      assert Behind(s, s.fetched[i]);
    }
  }

  lemma LoadWritePlays(s: State, a: Action)
    requires Inv(s) && Played(s) && Enabled(s, a) && a.LoadWrite?
    ensures Played(ReaderNext(s, a))
  {
    hide Faithful, Content;
    SubOf(s.written, s.taken);
    QuietStepPlays(s, ReaderNext(s, a));
  }

  /** A step of the reader that fetches nothing. */
  lemma OtherStepPlays(s: State, a: Action)
    requires Inv(s) && Played(s) && Enabled(s, a) && !ByWorker(a) && !a.ReadSecond?
    ensures Played(ReaderNext(s, a))
  {
    hide Faithful, Content;
    if a.LoadWrite? {
      LoadWritePlays(s, a);
    } else if a.Finish? || a.RunDry? {
      FinishPlays(s, a);
    } else {
      QuietStepPlays(s, ReaderNext(s, a));
    }
  }

  lemma NextPlays(s: State, a: Action)
    requires Inv(s) && Played(s)
    ensures Played(Next(s, a))
  {
    if Enabled(s, a) {
      if ByWorker(a) {
        WorkerKeepsInv(s, a);
      } else if a.ReadSecond? {
        ReadSecondPlays(s);
      } else {
        OtherStepPlays(s, a);
      }
    }
  }

  function Run(s: State, schedule: seq<Action>): (t: State)
    requires Inv(s)
    ensures Inv(t)
  {
    if schedule == [] then s
    else
      NextKeepsInv(Run(s, schedule[..|schedule| - 1]), schedule[|schedule| - 1]);
      Next(Run(s, schedule[..|schedule| - 1]), schedule[|schedule| - 1])
  }

  lemma InitialInv(s: State, frame: Frame)
    requires s == Initial(frame)
    ensures Inv(s)
  {
  }

  lemma InitialPlays(s: State, frame: Frame)
    requires s == Initial(frame)
    ensures Played(s)
  {
  }

  lemma {:induction false} RunPlays(s: State, schedule: seq<Action>)
    requires Inv(s) && Played(s)
    ensures Played(Run(s, schedule))
  {
    if schedule != [] {
      RunPlays(s, schedule[..|schedule| - 1]);
      NextPlays(Run(s, schedule[..|schedule| - 1]), schedule[|schedule| - 1]);
    }
  }

  /**
   In every interleaving of pushes of at most 2048 frames, starts, stops and renders, across index
   wraps: whatever the audio thread reads is what was pushed there, never a frame being overwritten
   and never one from before the generation it plays.
   */
  lemma EveryInterleaving(frame: Frame, schedule: seq<Action>) returns (s: State)
    ensures s == Initial(frame) && Inv(s) && Played(Run(s, schedule))
  {
    hide Inv, Played, Run;
    s := Initial(frame);
    InitialInv(s, frame);
    InitialPlays(s, frame);
    RunPlays(s, schedule);
  }

  // ------------------------------------------------------------------------------------------
  // The stream itself. Undisturbed, each operation is one run of the steps above.

  ghost predicate Sound(s: State) {
    Inv(s) && Played(s)
  }

  lemma RunSnoc(s: State, schedule: seq<Action>, a: Action)
    requires Inv(s)
    ensures Run(s, schedule + [a]) == Next(Run(s, schedule), a)
  {
    assert (schedule + [a])[..|schedule|] == schedule;
  }

  lemma NextSound(s: State, a: Action)
    requires Sound(s)
    ensures Sound(Next(s, a))
  {
    hide Inv, Played;
    NextKeepsInv(s, a);
    NextPlays(s, a);
  }

  lemma SoundFacts(s: State)
    requires Sound(s)
    ensures s.reader.Reading? ==> s.reader.fraction >= 0.0
  {
    hide Played, Content;
  }

  /** What fits is what is not taken up by frames that are still to be played. */
  lemma Room(s: State, frames: nat)
    requires Sound(s) && s.reader.Idle?
    ensures s.taken <= s.written <= s.taken + CAP && Accepted(s.write, s.read, frames) == Least(frames, CAP - (s.written - s.taken))
  {
    hide Played, Content;
    SubOf(s.written, s.taken);
  }

  lemma BeginPush(s: State, frames: seq<Frame>)
    requires Sound(s) && s.producer.Resting? && !s.restarting && 0 < |frames| <= MAX_PUSH
    ensures var t := Next(Next(s, Push(frames)), LoadRead);
            Sound(t) && t == s.(producer := Copying(frames, Accepted(s.write, s.read, |frames|), 0))
  {
    hide Sound, Accepted;
    NextSound(s, Push(frames));
    NextSound(Next(s, Push(frames)), LoadRead);
  }

  lemma EndPush(s: State)
    requires Sound(s) && s.producer.Copying? && s.producer.done == s.producer.accepted
    ensures var t := Next(s, StoreWrite);
            && Sound(t)
            && t == s.(write := (s.write + s.producer.accepted) % U32, written := s.written + s.producer.accepted, producer := Resting)
  {
    hide Sound;
    NextSound(s, StoreWrite);
  }

  /** A render begins; a new generation is adopted first. */
  lemma BeginRender(s: State, count: nat)
    requires Sound(s) && s.reader.Idle?
    ensures var t := if s.generation != s.seen then Next(Next(Next(s, Render(count)), LoadStart), AdoptStart) else Next(s, Render(count));
            && Sound(t)
            && t == if s.generation != s.seen
                    then s.(seen := s.generation, read := s.startIndex, taken := s.start, origin := s.start, primed := false,
                            readFraction := 0.0, reader := LoadingWrite(count))
                    else s.(reader := LoadingWrite(count))
  {
    hide Sound;
    NextSound(s, Render(count));
    NextSound(Next(s, Render(count)), LoadStart);
    NextSound(Next(Next(s, Render(count)), LoadStart), AdoptStart);
  }

  lemma LoadFill(s: State, rate: nat, ratio: real)
    requires Sound(s) && s.reader.LoadingWrite? && rate <= MAX_RATE && 0.0 < ratio < 2.0
    ensures Next(s, LoadWrite(rate, ratio)) == Loaded(s, Sub(s.write, s.read), TargetFill(rate), ratio)
    ensures Sound(Next(s, LoadWrite(rate, ratio)))
  {
    hide Sound, Loaded;
    NextSound(s, LoadWrite(rate, ratio));
  }

  lemma FetchFirst(s: State)
    requires Sound(s) && Due(s.reader) && s.reader.first.None?
    ensures Next(s, ReadFirst) == s.(reader := s.reader.(first := Some(s.ring(Slot(s.reader.index, s.reader.fraction.Floor)))))
    ensures Sound(Next(s, ReadFirst))
  {
    hide Sound, Slot;
    NextSound(s, ReadFirst);
  }

  lemma FetchSecond(s: State)
    requires Sound(s) && Due(s.reader) && s.reader.first.Some?
    ensures var r, offset := s.reader, s.reader.fraction.Floor;
            Next(s, ReadSecond) ==
            s.(reader := r.(first := None, made := r.made + 1, fraction := r.fraction + r.ratio),
               fetched := s.fetched + [Fetch(r.base + offset, r.fraction - offset as real, r.first.value, s.ring((Slot(r.index, offset) + 1) % CAP), s.seen, s.origin)])
    ensures Sound(Next(s, ReadSecond))
  {
    hide Sound, Slot;
    NextSound(s, ReadSecond);
  }

  /** Both frames of one sample are read, one after the other. */
  lemma FetchBoth(s: State, first: Frame, second: Frame)
    requires Sound(s) && Due(s.reader) && s.reader.first.None?
    requires first == s.ring(Slot(s.reader.index, s.reader.fraction.Floor))
    requires second == s.ring((Slot(s.reader.index, s.reader.fraction.Floor) + 1) % CAP)
    ensures var r := s.reader;
            var f := Fetch(r.base + r.fraction.Floor, r.fraction - r.fraction.Floor as real, first, second, s.seen, s.origin);
            && Sound(Next(Next(s, ReadFirst), ReadSecond))
            && Next(Next(s, ReadFirst), ReadSecond) ==
               s.(reader := r.(made := r.made + 1, fraction := r.fraction + r.ratio), fetched := s.fetched + [f])
  {
    hide Sound, Next, Slot;
    FetchFirst(s);
    FetchSecond(Next(s, ReadFirst));
  }

  lemma EndRender(s: State)
    requires Sound(s) && s.reader.Reading? && s.reader.fraction >= 0.0
    requires s.reader.made == s.reader.frames || (s.reader.made < s.reader.frames && !Due(s.reader))
    ensures var a := if s.reader.made == s.reader.frames then Finish else RunDry;
            && Sound(Next(s, a))
            && Next(s, a) == if s.reader.made == s.reader.frames
                             then Finished(s, s.reader.fraction.Floor, s.reader.fraction - s.reader.fraction.Floor as real, s.primed)
                             else Finished(s, s.reader.available, 0.0, false)
  {
    hide Sound, Finished;
    NextSound(s, Finish);
    NextSound(s, RunDry);
  }

  datatype Sample = Sample(left: real, right: real)

  /** The sample is what was pushed at this place, blended from the frames on both sides of it. */
  ghost predicate PlayedAt(pushed: seq<Frame>, at: real, sample: Sample) {
    var n := at.Floor;
    && 0 <= n && n + 1 < |pushed|
    && sample.left * 32768.0 == pushed[n].left as real + (pushed[n + 1].left - pushed[n].left) as real * (at - n as real)
    && sample.right * 32768.0 == pushed[n].right as real + (pushed[n + 1].right - pushed[n].right) as real * (at - n as real)
  }

  lemma BlendedHere(pushed: seq<Frame>, f: Fetch, sample: Sample)
    requires Faithful(pushed, f)
    requires sample.left * 32768.0 == f.first.left as real + (f.second.left - f.first.left) as real * f.mix
    requires sample.right * 32768.0 == f.first.right as real + (f.second.right - f.first.right) as real * f.mix
    ensures PlayedAt(pushed, Spot(f), sample)
  {
    assert Spot(f).Floor == f.at;
  }

  lemma FetchedIsFaithful(s: State, f: Fetch)
    requires Sound(s) && s.fetched != [] && s.fetched[|s.fetched| - 1] == f
    ensures Faithful(s.pushed, f)
  {
    hide Inv, Faithful, Behind, Spot;
  }

  /** Where sample k of a render is taken. */
  function Along(begin: real, ratio: real, k: nat): real {
    begin + k as real * ratio
  }

  /** Every sample is one ratio further than the one before. */
  lemma AlongNext(begin: real, ratio: real, k: nat)
    ensures Along(begin, ratio, 0) == begin && Along(begin, ratio, k + 1) == Along(begin, ratio, k) + ratio
    ensures Along(begin, ratio, k) == begin + k as real * ratio
  {
    assert (k + 1) as real * ratio == k as real * ratio + ratio;
  }

  /** The words of an undisturbed reader say how much there is. */
  lemma Ahead(s: State)
    requires Sound(s) && (s.reader.LoadingWrite? || s.reader.Idle?)
    ensures s.taken <= s.written && Sub(s.write, s.read) == s.written - s.taken && s.readFraction >= 0.0
    ensures !s.primed ==> s.readFraction == 0.0
  {
    hide Played, Content;
    SubOf(s.written, s.taken);
  }

  class Stream {
    var write: nat
    var read: nat
    var startIndex: nat
    var generation: nat
    var sampleRate: nat
    var seenGeneration: nat
    var primed: bool
    var readFraction: real
    const ring: array<Frame>
    ghost var history: State

    /** The fields are those of the history, but the read index only while no render is under way. */
    ghost predicate Follows()
      reads this, ring
    {
      && write == history.write && startIndex == history.startIndex && generation == history.generation
      && seenGeneration == history.seen && primed == history.primed && sampleRate <= MAX_RATE
      && ring.Length == CAP && forall i :: 0 <= i < CAP ==> ring[i] == history.ring(i)
    }

    ghost predicate Valid()
      reads this, ring
    {
      && Sound(history) && history.producer.Resting? && !history.restarting && history.reader.Idle?
      && Follows() && read == history.read && readFraction == history.readFraction
    }

    constructor (frame: Frame)
      ensures Valid() && fresh(ring) && history == Initial(frame)
    {
      write, read, startIndex, generation, sampleRate := 0, 0, 0, 0, 48000;
      seenGeneration, primed, readFraction := 0, false, 0.0;
      ring := new Frame[CAP](_ => frame);
      history := Initial(frame);
      new;
      InitialInv(history, frame);
      InitialPlays(history, frame);
    }

    /** Takes one step in the history. */
    ghost method Step(a: Action)
      requires Sound(history)
      modifies `history
      ensures history == Next(old(history), a) && Sound(history)
    {
      NextSound(history, a);
      history := Next(history, a);
    }

    /** A new generation begins at what will be pushed next. */
    method Start(rate: nat)
      requires Valid() && rate <= MAX_RATE
      modifies `sampleRate, `startIndex, `generation, `history
      ensures Valid() && generation == old(generation) + 1 && startIndex == write && history.start == history.written
      ensures history.pushed == old(history.pushed) && history.fetched == old(history.fetched)
    {
      hide Sound;
      sampleRate := if rate == 0 then 48000 else rate;
      Step(StoreStart);
      startIndex := write;
      Step(BumpGeneration);
      generation := generation + 1;
    }

    /** Appends as many frames as there is room for behind what has not been played. */
    method Push(frames: seq<Frame>) returns (accepted: nat)
      requires Valid() && |frames| <= MAX_PUSH
      modifies `write, `history, ring
      ensures Valid()
      ensures var free := 16384 - (old(history.written) - history.taken); accepted == if |frames| < free then |frames| else free
      ensures accepted <= |frames| && history.pushed == old(history.pushed) + frames[..accepted]
      ensures history.written == old(history.written) + accepted
      ensures history.taken == old(history.taken) && history.fetched == old(history.fetched)
    {
      hide Sound, Slot, Next;
      Room(history, |frames|);
      if frames == [] {
        assert frames[..0] == [];
        return 0;
      }
      ghost var before := history;
      BeginPush(history, frames);
      history := Next(Next(history, Action.Push(frames)), LoadRead);
      var used := Sub(write, read);
      var free := if used >= CAP then 0 else CAP - used;
      accepted := if |frames| < free then |frames| else free;
      for k := 0 to accepted
        invariant Sound(history) && Follows() && history.reader.Idle? && !history.restarting
        invariant history.read == read && history.readFraction == readFraction
        invariant history.producer == Copying(frames, accepted, k) && history.pushed == before.pushed + frames[..k]
        invariant history.taken == before.taken && history.fetched == before.fetched && history.written == before.written
      {
        CopyOne(k, frames[k]);
        assert frames[..k + 1] == frames[..k] + [frames[k]];
      }
      EndPush(history);
      history := Next(history, StoreWrite);
      write := (write + accepted) % U32;
    }

    method CopyOne(k: nat, frame: Frame)
      requires Sound(history) && Follows() && history.producer.Copying? && history.producer.done == k
      requires k < history.producer.accepted <= |history.producer.frames| && frame == history.producer.frames[k]
      modifies `history, ring
      ensures Sound(history) && Follows()
      ensures history == old(history).(ring := history.ring, producer := old(history).producer.(done := k + 1),
                                       pushed := old(history).pushed + [frame])
    {
      hide Sound, Slot;
      SlotFits(write, k);
      ring[Slot(write, k)] := frame;
      Step(CopyFrame);
    }

    method Stop()
      requires Valid()
      modifies `startIndex, `generation, `history
      ensures Valid() && generation == old(generation) + 1 && startIndex == write && history.start == history.written
      ensures history.pushed == old(history.pushed) && history.fetched == old(history.fetched)
    {
      hide Sound;
      Step(StoreStart);
      startIndex := write;
      Step(BumpGeneration);
      generation := generation + 1;
    }

    /** Goes back, or forward, to where a new generation begins. */
    method AdoptGeneration(count: nat)
      requires Valid()
      modifies `seenGeneration, `read, `primed, `readFraction, `history
      ensures Sound(history) && Follows() && read == history.read && readFraction == history.readFraction
      ensures seenGeneration == generation && (old(seenGeneration) != generation ==> read == startIndex)
      ensures history == if old(seenGeneration) != generation
                         then old(history).(seen := generation, read := startIndex, taken := old(history).start, origin := old(history).start,
                                            primed := false, readFraction := 0.0, reader := LoadingWrite(count))
                         else old(history).(reader := LoadingWrite(count))
    {
      hide Sound, Next;
      BeginRender(history, count);
      if generation != seenGeneration {
        seenGeneration := generation;
        read := startIndex;
        primed := false;
        readFraction := 0.0;
        history := Next(Next(Next(history, Action.Render(count)), LoadStart), AdoptStart);
      } else {
        history := Next(history, Action.Render(count));
      }
    }

    /** One sample, blended from the two frames around the position. */
    method MakeSample(index: nat, fraction: real) returns (sample: Sample, ghost f: Fetch)
      requires Sound(history) && Follows() && Due(history.reader) && history.reader.first.None?
      requires index == history.reader.index && fraction == history.reader.fraction
      modifies `history
      ensures Sound(history) && Follows() && history.reader.Reading? && Spot(f) == history.reader.base as real + fraction
      ensures PlayedAt(history.pushed, history.reader.base as real + fraction, sample)
      ensures history == old(history).(fetched := old(history).fetched + [f],
                reader := old(history.reader).(made := old(history.reader.made) + 1, fraction := fraction + old(history.reader.ratio)))
    {
      hide Sound, Next, Slot, PlayedAt, Faithful;
      var offset := fraction.Floor;
      var slot := Slot(index, offset);
      SlotFits(index, offset);
      var first, second, mix := ring[slot], ring[(slot + 1) % CAP], fraction - offset as real;
      FetchBoth(history, first, second);
      sample := Sample((first.left as real + (second.left - first.left) as real * mix) / 32768.0,
                       (first.right as real + (second.right - first.right) as real * mix) / 32768.0);
      f := Fetch(history.reader.base + offset, mix, first, second, history.seen, history.origin);
      history := Next(Next(history, ReadFirst), ReadSecond);
      FetchedIsFaithful(history, f);
      BlendedHere(history.pushed, f, sample);
    }

    /** Finds out how much there is: too little to begin, or too much to go on where it was. */
    method CheckFill(count: nat, ratio: real) returns (go: bool, index: nat, available: nat, ghost base: nat)
      requires Sound(history) && Follows() && read == history.read && readFraction == history.readFraction
      requires history.reader == LoadingWrite(count) && history.producer.Resting? && !history.restarting && 0.0 < ratio < 2.0
      modifies `primed, `readFraction, `history
      ensures Sound(history) && Follows() && readFraction >= 0.0
      ensures go <==> old(primed) || history.written - old(history.taken) >= TargetFill(sampleRate)
      ensures !go ==> Valid() && !primed && history == old(history).(reader := Idle) && readFraction == old(readFraction) == 0.0
      ensures go ==> primed && base + available == history.written
      ensures go ==> history == old(history).(primed := true, reader := Reading(count, ratio, base, index, available, readFraction, 0, None))
      ensures go && history.written - old(history.taken) > CAP - MAX_PUSH ==> available == TargetFill(sampleRate) && readFraction == 0.0
      ensures go && history.written - old(history.taken) <= CAP - MAX_PUSH ==> base == old(history.taken) && readFraction == old(readFraction)
    {
      hide Sound, Next, TargetFill;
      var target := TargetFill(sampleRate);
      go, index, available, base := true, read, Sub(write, read), history.taken;
      Ahead(history);
      LoadFill(history, sampleRate, ratio);
      history := Next(history, LoadWrite(sampleRate, ratio));
      SoundFacts(history);
      if !primed {
        if available < target {
          go := false;
          return;
        }
        primed := true;
        readFraction := 0.0;
      }
      if available > CAP - MAX_PUSH {
        index, available, readFraction, base := Sub(write, target), target, 0.0, history.written - target;
      }
    }

    /**
     Renders up to so many samples; what is missing is faded out by the caller. Playback goes on
     where the last render stopped, at the beginning of a new generation, or the target behind a
     sender that is far ahead, and moves by the ratio for every sample; it waits for the target
     before it begins, and what is left when it runs dry is skipped.
     */
    method Render(count: nat, ratio: real) returns (samples: seq<Sample>, ghost begin: real)
      requires Valid() && 0.0 < ratio < 2.0
      modifies `seenGeneration, `read, `primed, `readFraction, `history
      ensures Valid() && seenGeneration == generation
      ensures |history.fetched| == |old(history.fetched)| + |samples| && old(history.fetched) <= history.fetched
      ensures history.pushed == old(history.pushed) && history.written == old(history.written)
      ensures var renewed := old(seenGeneration) != generation;
              var from := if renewed then old(history.start) else old(history.taken);
              var ahead, target := history.written - from, TargetFill(sampleRate);
              if (renewed || !old(primed)) && ahead < target
              then samples == [] && !primed && history.taken == from && readFraction == 0.0
              else
                && begin == (if ahead > 14336 then (history.written - target) as real
                             else if renewed then from as real else from as real + old(readFraction))
                && |samples| <= count
                && (forall k :: 0 <= k < |samples| ==>
                      && PlayedAt(history.pushed, Along(begin, ratio, k), samples[k])
                      && Along(begin, ratio, k).Floor + 1 < history.written
                      && Spot(history.fetched[|old(history.fetched)| + k]) == Along(begin, ratio, k))
                && (|samples| == count ==> primed && history.taken as real + readFraction == Along(begin, ratio, count))
                && (|samples| < count ==> !primed && history.taken == history.written && readFraction == 0.0)
                && (|samples| < count ==> Along(begin, ratio, |samples|).Floor + 1 >= history.written)
    {
      hide Sound, Next, PlayedAt, Slot, TargetFill, Spot, Accepted, Loaded, Due, Finished, Along;
      AdoptGeneration(count);
      samples, begin := [], 0.0;
      Ahead(history);
      ghost var base: nat;
      var go, index, available;
      go, index, available, base := CheckFill(count, ratio);
      if !go {
        return;
      }
      begin := base as real + readFraction;
      var fraction;
      samples, fraction := MakeSamples(count, ratio, index, available, base, begin);
      FinishRender(count, |samples|, index, available, fraction, base);
    }

    /** Stores how far the render came. */
    method FinishRender(count: nat, made: nat, index: nat, available: nat, last: real, ghost base: nat)
      requires Sound(history) && Follows() && primed && last >= 0.0
      requires history.reader.Reading? && history.producer.Resting? && !history.restarting
      requires history.reader == Reading(count, history.reader.ratio, base, index, available, last, made, None)
      requires made == count || (made < count && last.Floor + 1 >= available)
      modifies `read, `readFraction, `primed, `history
      ensures Valid() && history.fetched == old(history.fetched) && history.pushed == old(history.pushed) && history.written == old(history.written)
      ensures made == count ==> primed && history.taken as real + readFraction == base as real + last
      ensures made < count ==> !primed && history.taken == base + available && readFraction == 0.0
    {
      hide Sound, Next;
      EndRender(history);
      history := Next(history, if made == count then Finish else RunDry);
      var consumed, fraction := last.Floor, last;
      if made < count {
        consumed, fraction, primed := available, 0.0, false;
      }
      readFraction := fraction - fraction.Floor as real;
      read := (index + consumed) % U32;
    }

    /** Samples as long as there are frames on both sides of the position. */
    method MakeSamples(count: nat, ratio: real, index: nat, available: nat, ghost base: nat, ghost begin: real)
      returns (samples: seq<Sample>, fraction: real)
      requires Sound(history) && Follows() && readFraction >= 0.0 && 0.0 < ratio < 2.0 && base + available == history.written
      requires history.reader == Reading(count, ratio, base, index, available, readFraction, 0, None) && begin == base as real + readFraction
      modifies `history
      ensures Sound(history) && Follows() && fraction >= 0.0
      ensures history == old(history).(fetched := history.fetched, reader := Reading(count, ratio, base, index, available, fraction, |samples|, None))
      ensures |history.fetched| == |old(history.fetched)| + |samples| && old(history.fetched) <= history.fetched
      ensures base as real + fraction == Along(begin, ratio, |samples|)
      ensures |samples| <= count && (|samples| < count ==> fraction.Floor + 1 >= available)
      ensures forall k :: 0 <= k < |samples| ==>
                var at := Along(begin, ratio, k);
                PlayedAt(history.pushed, at, samples[k]) && at.Floor + 1 < history.written && Spot(history.fetched[|old(history.fetched)| + k]) == at
    {
      hide Sound, Next, PlayedAt, Slot, Spot, Along;
      samples, fraction := [], readFraction;
      AlongNext(begin, ratio, 0);
      while |samples| < count
        invariant |samples| <= count && Sound(history) && Follows() && fraction >= 0.0
        invariant history == old(history).(fetched := history.fetched, reader := Reading(count, ratio, base, index, available, fraction, |samples|, None))
        invariant |history.fetched| == |old(history.fetched)| + |samples| && old(history.fetched) <= history.fetched
        invariant base as real + fraction == Along(begin, ratio, |samples|)
        invariant forall k :: 0 <= k < |samples| ==>
                    var at := Along(begin, ratio, k);
                    PlayedAt(history.pushed, at, samples[k]) && at.Floor + 1 < history.written && Spot(history.fetched[|old(history.fetched)| + k]) == at
        decreases count - |samples|
      {
        if fraction.Floor + 1 >= available {
          break;
        }
        AlongNext(begin, ratio, |samples|);
        var sample, f := MakeSample(index, fraction);
        samples := samples + [sample];
        fraction := fraction + ratio;
      }
    }
  }
}
