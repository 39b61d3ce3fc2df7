/**
 The audio thread's side of a plugin host. Every block plays what the worker process made of the
 previous block, or the previous block itself, and hands the current one over through shared
 memory. The worker may do anything while a request is its own, at any speed, and may fault. The
 steps are the uninterrupted parts of either side: a block is `Check`, `Play` and `Request` in turn,
 with any steps of the worker and any resets in between.
 */
module PluginHost {
  import opened Basics

  datatype Sample = Finite(x: real) | NonFinite

  type Block = seq<Sample>

  datatype Status = Starting | Ready | Fault

  datatype Phase = Idle | Checked(ready: bool, wet: bool, generation: nat) | Played(ready: bool, generation: nat)

  datatype Worker = Waiting | Working(sequence: nat)

  /** The worker's latest finished request: what it was given and what it left in the output array. */
  datatype Job = Job(sequence: nat, input: Block, output: Block)

  /** A block as it came in, cleaned, and the generation it came in; one of another size is no block to keep. */
  datatype Heard = Heard(block: Option<Block>, generation: nat)

  /** Where an output comes from: an answer to the block before position `asked`, the block before, or nothing. */
  datatype Source = Processed(asked: nat, job: Job) | Raw | Silence

  datatype Output = Output(block: Block, source: Source)

  /**
   All channels of a block are one after the other. `heard`, `askedAt`, `job` and `log` are history:
   every block so far, how many there had been when the latest request was made, the latest finished
   request, and what was played for each block.
   */
  datatype State = State(
    size: nat,
    status: Status,
    workerState: Status,
    request: nat,
    response: nat,
    requestGeneration: nat,
    responseGeneration: nat,
    input: Block,
    output: Block,
    generation: nat,
    localGeneration: nat,
    sequence: nat,
    inFlight: nat,
    missed: nat,
    eligible: bool,
    dryValid: bool,
    dry: Block,
    phase: Phase,
    worker: Worker,
    heard: seq<Heard>,
    askedAt: nat,
    job: Job,
    log: seq<Output>)

  datatype Action =
    | Check | Play(ins: Block) | Request | Odd(frames: nat, leftover: Block) | Reset
    | WorkerTake | WorkerWrite(index: nat, sample: Sample, tag: nat) | WorkerRespond | WorkerState(state: Status, noticed: bool)

  const MAX_MISSED_CYCLES: nat := 32

  function Clean(s: Sample): Sample {
    if s.Finite? then s else Finite(0.0)
  }

  function Cleaned(b: Block): (c: Block)
    ensures |c| == |b| && forall i :: 0 <= i < |b| ==> c[i] == Clean(b[i])
    ensures forall i :: 0 <= i < |b| ==> c[i] == if b[i].NonFinite? then Finite(0.0) else b[i]
  {
    seq(|b|, i requires 0 <= i < |b| => Clean(b[i]))
  }

  function Silent(size: nat): (b: Block)
    ensures |b| == size && forall i :: 0 <= i < size ==> b[i] == Finite(0.0)
  {
    seq(size, _ => Finite(0.0))
  }

  /** The next request number; zero is reserved for none. */
  function NextSequence(sequence: nat): nat {
    var next := (sequence + 1) % U32;
    if next == 0 then 1 else next
  }

  function Initial(size: nat): State {
    State(size, Starting, Starting, 0, 0, 0, 0, Silent(size), Silent(size), 1, 1, 0, 0, 0, false, false, Silent(size), Idle, Waiting,
          [], 0, Job(0, [], []), [])
  }

  predicate Enabled(s: State, a: Action) {
    match a
    case Check => s.phase.Idle?
    case Play(ins) => s.phase.Checked? && |ins| == s.size
    case Request => s.phase.Played?
    case Odd(frames, leftover) => s.phase.Idle? && frames != s.size && |leftover| == s.size
    case Reset => true
    case WorkerTake => s.worker.Waiting? && s.inFlight != 0 && s.response != s.request
    case WorkerWrite(index, _, _) => s.worker.Working? && index < |s.output|
    case WorkerRespond => s.worker.Working?
    case WorkerState(state, _) => state != Starting
  }

  /** Forgets what came before a reset. */
  function Adopted(s: State): State {
    if s.generation != s.localGeneration then s.(localGeneration := s.generation, dryValid := false, eligible := false) else s
  }

  /** Looks for the response: in time it is played, late it is dropped, too late is a fault. */
  function CheckedState(s: State): State {
    if s.status != Ready then s.(phase := Checked(false, false, s.localGeneration))
    else if s.workerState != Ready then s.(status := Fault, phase := Checked(false, false, s.localGeneration))
    else if s.inFlight == 0 then s.(phase := Checked(true, false, s.localGeneration))
    else if s.response == s.inFlight then
      s.(inFlight := 0, missed := 0,
         phase := Checked(true, s.eligible && s.responseGeneration == s.localGeneration, s.localGeneration))
    else
      var late := s.missed + 1 >= MAX_MISSED_CYCLES;
      s.(eligible := false, missed := s.missed + 1, status := if late then Fault else s.status,
         phase := Checked(!late, false, s.localGeneration))
  }

  /** What is played for the block that comes in. */
  function Answer(s: State): Output
    requires s.phase.Checked?
  {
    if s.phase.wet then Output(Cleaned(s.output), Processed(s.askedAt, s.job))
    else if s.dryValid then Output(Cleaned(s.dry), Raw)
    else Output(Silent(s.size), Silence)
  }

  /** The new block is put where the worker reads it. */
  function Filled(s: State): State
    requires s.phase.Played?
  {
    s.(input := s.dry, requestGeneration := s.phase.generation, askedAt := |s.heard|)
  }

  /** The worker is given the block under a new number. */
  function Numbered(s: State, number: nat): State {
    s.(sequence := number, inFlight := number, eligible := true, request := number)
  }

  function Next(s: State, a: Action): State {
    if !Enabled(s, a) then s
    else
      match a
      case Check => CheckedState(Adopted(s))
      case Play(ins) =>
        s.(phase := Phase.Played(s.phase.ready, s.phase.generation), dryValid := true, dry := Cleaned(ins),
           heard := s.heard + [Heard(Some(Cleaned(ins)), s.localGeneration)], log := s.log + [Answer(s)])
      case Request =>
        (if s.phase.ready && s.inFlight == 0 then Numbered(Filled(s), NextSequence(s.sequence)) else s).(phase := Idle)
      case Odd(frames, leftover) =>
        var t := Adopted(s);
        t.(dry := leftover, dryValid := false, heard := t.heard + [Heard(None, t.localGeneration)],
           log := t.log + [Output(Silent(frames), Silence)])
      case Reset => s.(generation := s.generation + 1)
      case WorkerTake => s.(worker := Working(s.request))
      case WorkerWrite(index, sample, tag) => s.(output := s.output[index := sample], responseGeneration := tag)
      case WorkerRespond =>
        s.(worker := Waiting, response := s.worker.sequence, job := Job(s.worker.sequence, s.input, s.output))
      case WorkerState(state, noticed) =>
        s.(workerState := state, status := if noticed && s.status != Fault then state else s.status)
  }

  // ------------------------------------------------------------------------------------------
  // The invariant.

  /** The block before position `asked` is this one, it belongs to the generation, and only odd ones came after it. */
  predicate Latest(heard: seq<Heard>, asked: nat, block: Block, generation: nat) {
    && 1 <= asked <= |heard| && heard[asked - 1] == Heard(Some(block), generation)
    && forall k :: asked <= k < |heard| ==> heard[k] == Heard(None, generation)
  }

  /** The request in flight, and the worker's part in it. */
  predicate Exchange(s: State) {
    && |s.input| == |s.output| == |s.dry| == s.size && s.sequence < U32
    && (s.inFlight == 0 ==> s.response == s.sequence && s.worker.Waiting?)
    && (s.inFlight != 0 ==>
          && s.inFlight == s.sequence == s.request
          && (s.response == s.inFlight ==> s.worker.Waiting? && s.job == Job(s.inFlight, s.input, s.output)))
    && (s.worker.Working? ==> s.worker.sequence == s.inFlight && s.response != s.inFlight)
    && (s.status == Starting ==> s.inFlight == 0)
  }

  /** What is kept of earlier blocks is of the generation that is being played. */
  predicate Kept(s: State) {
    && s.localGeneration <= s.generation && |s.log| == |s.heard|
    && (forall k :: 0 <= k < |s.heard| ==> s.heard[k].generation <= s.localGeneration)
    && (s.dryValid <==> s.heard != [] && s.heard[|s.heard| - 1].block.Some? && s.heard[|s.heard| - 1].generation == s.localGeneration)
    && (s.dryValid ==> s.heard[|s.heard| - 1].block == Some(s.dry) && Cleaned(s.dry) == s.dry)
    && (s.eligible && s.inFlight != 0 && s.status != Fault && !s.phase.Played? ==> Latest(s.heard, s.askedAt, s.input, s.localGeneration))
  }

  predicate Phased(s: State) {
    && (!s.phase.Idle? && s.inFlight != 0 && s.status != Fault ==> !s.eligible)
    && (s.phase.Played? ==> s.dryValid) && (!s.phase.Idle? && s.phase.ready ==> s.status != Starting)
    && (!s.phase.Idle? ==> s.phase.generation == s.localGeneration)
    && (s.phase.Checked? && s.phase.wet ==>
          s.inFlight == 0 && s.job == Job(s.sequence, s.job.input, s.output) && Latest(s.heard, s.askedAt, s.job.input, s.localGeneration))
  }

  predicate Inv(s: State) {
    Exchange(s) && Kept(s) && Phased(s)
  }

  /** An output is right for the block at its position. */
  predicate Right(heard: seq<Heard>, index: nat, o: Output) {
    && index < |heard|
    && match o.source
       case Processed(asked, job) =>
         && heard[index].block.Some? && Latest(heard[..index], asked, job.input, heard[index].generation) && o.block == Cleaned(job.output)
       case Raw => index >= 1 && heard[index].block.Some? && heard[index - 1] == Heard(Some(o.block), heard[index].generation)
       case Silence =>
         && o.block == Silent(|o.block|)
         && (heard[index].block.None? || index == 0 || heard[index - 1].block.None? || heard[index - 1].generation != heard[index].generation)
  }

  predicate AllRight(s: State) {
    |s.log| == |s.heard| && forall k :: 0 <= k < |s.log| ==> Right(s.heard, k, s.log[k])
  }

  lemma StillRight(heard: seq<Heard>, more: seq<Heard>, index: nat, o: Output)
    requires Right(heard, index, o)
    ensures Right(heard + more, index, o)
  {
    assert (heard + more)[..index] == heard[..index];
  }

  lemma NowRight(heard: seq<Heard>, now: Heard, o: Output)
    requires match o.source
             case Processed(asked, job) => now.block.Some? && Latest(heard, asked, job.input, now.generation) && o.block == Cleaned(job.output)
             case Raw => now.block.Some? && heard != [] && heard[|heard| - 1] == Heard(Some(o.block), now.generation)
             case Silence =>
               && o.block == Silent(|o.block|)
               && (now.block.None? || heard == [] || heard[|heard| - 1].block.None? || heard[|heard| - 1].generation != now.generation)
    ensures Right(heard + [now], |heard|, o)
  {
    assert (heard + [now])[..|heard|] == heard;
  }

  /** One more block has been answered. */
  lemma OneMoreRight(s: State, t: State, now: Heard, o: Output)
    requires AllRight(s) && t.heard == s.heard + [now] && t.log == s.log + [o] && Right(t.heard, |s.heard|, o)
    ensures AllRight(t)
  {
    forall k | 0 <= k < |s.log|
      ensures Right(t.heard, k, t.log[k])
    {
      StillRight(s.heard, [now], k, s.log[k]);
    }
  }

  lemma AdoptKeepsInv(s: State)
    requires Inv(s) && s.phase.Idle?
    ensures Inv(Adopted(s)) && Adopted(s).phase.Idle? && Adopted(s).localGeneration == s.generation
  {
  }

  lemma CheckedKeepsInv(s: State)
    requires Inv(s) && s.phase.Idle?
    ensures Inv(CheckedState(s))
  {
    hide Latest;
  }

  lemma CheckKeepsInv(s: State)
    requires Inv(s) && s.phase.Idle?
    ensures Inv(Next(s, Check))
  {
    hide Inv, CheckedState;
    AdoptKeepsInv(s);
    CheckedKeepsInv(Adopted(s));
  }

  lemma PlayKeepsInv(s: State, ins: Block)
    requires Inv(s) && Enabled(s, Play(ins))
    ensures Inv(Next(s, Play(ins)))
  {
  }

  lemma RequestKeepsInv(s: State)
    requires Inv(s) && s.phase.Played?
    ensures Inv(Next(s, Request))
  {
  }

  lemma OddKeepsInv(s: State, a: Action)
    requires Inv(s) && a.Odd? && Enabled(s, a)
    ensures Inv(Next(s, a))
  {
  }

  lemma WorkerKeepsInv(s: State, a: Action)
    requires Inv(s) && Enabled(s, a) && (a.Reset? || a.WorkerTake? || a.WorkerWrite? || a.WorkerRespond? || a.WorkerState?)
    ensures Inv(Next(s, a))
  {
  }

  lemma NextKeepsInv(s: State, a: Action)
    requires Inv(s)
    ensures Inv(Next(s, a))
  {
    hide Exchange, Kept, Phased;
    if Enabled(s, a) {
      match a
      case Check => CheckKeepsInv(s);
      case Play(ins) => PlayKeepsInv(s, ins);
      case Request => RequestKeepsInv(s);
      case Odd(_, _) => OddKeepsInv(s, a);
      case _ => WorkerKeepsInv(s, a);
    }
  }

  lemma NextKeepsRight(s: State, a: Action)
    requires Inv(s) && AllRight(s)
    ensures AllRight(Next(s, a))
  {
    hide Right;
    if Enabled(s, a) && a.Play? {
      var t, now := Next(s, a), Heard(Some(Cleaned(a.ins)), s.localGeneration);
      NowRight(s.heard, now, Answer(s));
      OneMoreRight(s, t, now, Answer(s));
    } else if Enabled(s, a) && a.Odd? {
      var t, now, o := Next(s, a), Heard(None, Adopted(s).localGeneration), Output(Silent(a.frames), Silence);
      NowRight(s.heard, now, o);
      OneMoreRight(s, t, now, o);
    }
  }

  // ------------------------------------------------------------------------------------------
  // Every run.

  function Run(s: State, schedule: seq<Action>): (t: State)
    requires Inv(s)
    ensures Inv(t)
  {
    if schedule == [] then s
    else
      NextKeepsInv(Run(s, schedule[..|schedule| - 1]), schedule[|schedule| - 1]);
      Next(Run(s, schedule[..|schedule| - 1]), schedule[|schedule| - 1])
  }

  lemma InitialInv(size: nat)
    ensures Inv(Initial(size)) && AllRight(Initial(size))
  {
  }

  lemma {:induction false} RunRight(s: State, schedule: seq<Action>)
    requires Inv(s) && AllRight(s)
    ensures AllRight(Run(s, schedule))
  {
    if schedule != [] {
      hide Inv, AllRight;
      RunRight(s, schedule[..|schedule| - 1]);
      NextKeepsRight(Run(s, schedule[..|schedule| - 1]), schedule[|schedule| - 1]);
    }
  }

  /**
   Against any worker and with blocks of any sizes, resets at any time: what is played for a block is
   the cleaned answer to the last block of the prepared size, of the same generation and with only odd
   blocks in between; or the block just before, cleaned, of the same generation; or silence, and that
   only for an odd block or when there is no such block just before.
   */
  lemma EveryRun(size: nat, schedule: seq<Action>)
    ensures Inv(Initial(size)) && AllRight(Run(Initial(size), schedule))
  {
    InitialInv(size);
    RunRight(Initial(size), schedule);
  }

  /** An answer that is played is the answer to the block just before exactly if that block had the prepared size. */
  lemma AnswersBlockBefore(s: State, k: nat)
    requires AllRight(s) && k < |s.log| && s.log[k].source.Processed?
    ensures k >= 1 && (s.log[k].source.asked == k <==> s.heard[k - 1].block.Some?)
    ensures s.log[k].source.asked == k ==> s.heard[k - 1].block == Some(s.log[k].source.job.input)
  {
    var o := s.log[k];
    assert Right(s.heard, k, o);
    assert s.heard[..k][o.source.asked - 1] == s.heard[o.source.asked - 1];
    if o.source.asked < k {
      assert s.heard[..k][k - 1].block.None?;
    }
  }

  /** With blocks of one size, every output is the processed or the cleaned block just before, or silence after start or reset. */
  lemma ConstantSize(s: State, k: nat)
    requires AllRight(s) && k < |s.log| && forall i :: 0 <= i < |s.heard| ==> s.heard[i].block.Some?
    ensures match s.log[k].source
            case Processed(asked, job) => k >= 1 && s.heard[k - 1].block == Some(job.input) && s.log[k].block == Cleaned(job.output)
            case Raw => k >= 1 && s.heard[k - 1].block == Some(s.log[k].block)
            case Silence => s.log[k].block == Silent(|s.log[k].block|) && (k == 0 || s.heard[k - 1].generation != s.heard[k].generation)
  {
    assert Right(s.heard, k, s.log[k]);
    if s.log[k].source.Processed? {
      AnswersBlockBefore(s, k);
    }
  }

  /** The host has faulted, and since then nothing of the worker's has been played. */
  predicate Faulted(s: State, played: nat) {
    && s.status == Fault && (s.phase.Checked? ==> !s.phase.wet)
    && forall k :: played <= k < |s.log| ==> !s.log[k].source.Processed?
  }

  lemma FaultStays(s: State, a: Action, played: nat)
    requires Faulted(s, played)
    ensures Faulted(Next(s, a), played)
  {
  }

  /** After a fault nothing of the worker's is played any more, whatever happens. */
  lemma {:induction false} FaultIsFinal(s: State, schedule: seq<Action>)
    requires Inv(s) && s.phase.Idle? && s.status == Fault
    ensures Faulted(Run(s, schedule), |s.log|)
  {
    if schedule != [] {
      hide Next, Inv, Faulted;
      FaultIsFinal(s, schedule[..|schedule| - 1]);
      FaultStays(Run(s, schedule[..|schedule| - 1]), schedule[|schedule| - 1], |s.log|);
    }
  }

  // ------------------------------------------------------------------------------------------
  // An answer to an older block.

  lemma RunSnoc(s: State, schedule: seq<Action>, a: Action)
    requires Inv(s)
    ensures Run(s, schedule + [a]) == Next(Run(s, schedule), a)
  {
    assert (schedule + [a])[..|schedule|] == schedule;
  }

  /** A first block is handed over and answered; a block of another size and then a second one follow. */
  function OddRun(first: Block, leftover: Block, second: Block, answer: Sample): seq<Action> {
    [WorkerState(Ready, true), Check, Play(first), Request, WorkerTake, WorkerWrite(0, answer, 1), WorkerRespond,
     Odd(2, leftover), Check, Play(second)]
  }

  /** A block has been handed over. */
  function HandedOver(s: State, first: Block): State {
    s.(status := Ready, workerState := Ready, input := Cleaned(first), requestGeneration := 1, sequence := 1, inFlight := 1,
       eligible := true, askedAt := 1, request := 1, dryValid := true, dry := Cleaned(first),
       heard := [Heard(Some(Cleaned(first)), 1)], log := [Output(Silent(1), Silence)])
  }

  lemma HandingOver(s: State, first: Block)
    requires s == Initial(1) && |first| == 1
    ensures Next(Next(Next(Next(s, WorkerState(Ready, true)), Check), Play(first)), Request) == HandedOver(s, first)
  {
    var t := Next(Next(s, WorkerState(Ready, true)), Check);
    assert t == s.(status := Ready, workerState := Ready, phase := Checked(true, false, 1));
  }

  /** The worker has answered it. */
  lemma Answering(s: State, first: Block, answer: Sample)
    requires s == HandedOver(Initial(1), first) && |first| == 1
    ensures Next(Next(Next(s, WorkerTake), WorkerWrite(0, answer, 1)), WorkerRespond) ==
            s.(output := [answer], responseGeneration := 1, response := 1, job := Job(1, Cleaned(first), [answer]))
  {
    assert Silent(1)[0 := answer] == [answer];
  }

  /** After a block of another size the answer is played for the second one. */
  lemma PlayingOn(s: State, first: Block, leftover: Block, second: Block, answer: Sample)
    requires |first| == |second| == |leftover| == 1
    requires s == HandedOver(Initial(1), first).(output := [answer], responseGeneration := 1, response := 1, job := Job(1, Cleaned(first), [answer]))
    ensures var t := Next(Next(Next(s, Odd(2, leftover)), Check), Play(second));
            && t.heard == s.heard + [Heard(None, 1)] + [Heard(Some(Cleaned(second)), 1)]
            && t.log == s.log + [Output(Silent(2), Silence)] + [Output([Clean(answer)], Processed(1, s.job))]
  {
    var t := Next(s, Odd(2, leftover));
    assert t == s.(dry := leftover, dryValid := false, heard := s.heard + [Heard(None, 1)], log := s.log + [Output(Silent(2), Silence)]);
    var u := Next(t, Check);
    assert u == t.(inFlight := 0, phase := Checked(true, true, 1));
    assert Cleaned([answer]) == [Clean(answer)];
  }

  /**
   The block size must not change between blocks: after one block of another size the answer to the
   block before that one is still played.
   */
  lemma OddBlockPlaysOldAnswer(first: Block, leftover: Block, second: Block, answer: Sample)
    requires |first| == |second| == |leftover| == 1
    ensures Inv(Initial(1))
    ensures var s := Run(Initial(1), OddRun(first, leftover, second, answer));
            && |s.log| == 3 && s.heard[0].block == Some(Cleaned(first)) && s.heard[1].block == None
            && s.log[2].block == [Clean(answer)] && s.log[2].source == Processed(1, Job(1, Cleaned(first), [answer]))
  {
    hide Next, Run, Inv;
    InitialInv(1);
    var s := Initial(1);
    HandingOver(s, first);
    var t := HandedOver(s, first);
    Answering(t, first, answer);
    var u := Next(Next(Next(t, WorkerTake), WorkerWrite(0, answer, 1)), WorkerRespond);
    PlayingOn(u, first, leftover, second, answer);
    TenSteps(s, OddRun(first, leftover, second, answer));
  }

  lemma TenSteps(s: State, a: seq<Action>)
    requires Inv(s) && |a| == 10
    ensures Run(s, a) == Next(Next(Next(Next(Next(Next(Next(Next(Next(Next(s, a[0]), a[1]), a[2]), a[3]), a[4]), a[5]), a[6]), a[7]), a[8]), a[9])
  {
    hide Next, Inv;
    assert a[..0] == [] && a[..10] == a;
    forall k | 0 <= k < 10
      ensures Run(s, a[..k + 1]) == Next(Run(s, a[..k]), a[k])
    {
      assert a[..k + 1] == a[..k] + [a[k]];
      RunSnoc(s, a[..k], a[k]);
    }
    assert Run(s, a[..1]) == Next(s, a[0]) && Run(s, a[..2]) == Next(Run(s, a[..1]), a[1]) && Run(s, a[..3]) == Next(Run(s, a[..2]), a[2]);
    assert Run(s, a[..4]) == Next(Run(s, a[..3]), a[3]) && Run(s, a[..5]) == Next(Run(s, a[..4]), a[4]);
    assert Run(s, a[..6]) == Next(Run(s, a[..5]), a[5]) && Run(s, a[..7]) == Next(Run(s, a[..6]), a[6]);
    assert Run(s, a[..8]) == Next(Run(s, a[..7]), a[7]) && Run(s, a[..9]) == Next(Run(s, a[..8]), a[8]);
    assert Run(s, a[..10]) == Next(Run(s, a[..9]), a[9]);
  }

  // ------------------------------------------------------------------------------------------
  // The host itself.

  /** What one undisturbed block plays, before the block is taken in. */
  function Answered(s: State): bool {
    && s.status == s.workerState == Ready && s.inFlight != 0 && s.response == s.inFlight
    && s.eligible && s.localGeneration == s.generation == s.responseGeneration
  }

  function Processing(s: State, ins: Block): State {
    Next(Next(Next(s, Check), Play(ins)), Request)
  }

  lemma CheckingFinds(s: State)
    requires Inv(s) && s.phase.Idle?
    ensures var t := Next(s, Check);
            && t.phase.Checked? && t.phase.wet == Answered(s) && t.localGeneration == t.generation == s.generation
            && t.heard == s.heard && t.log == s.log && t.output == s.output && t.job == s.job && t.askedAt == s.askedAt && t.size == s.size
            && (s.status == s.workerState == Ready && (s.inFlight == 0 || s.response == s.inFlight) ==>
                  t.status == Ready && t.inFlight == 0 && t.phase.ready)
            && (s.status == Fault ==> t.status == Fault)
            && t.dry == s.dry && t.dryValid == (s.dryValid && s.localGeneration == s.generation)
  {
    hide Kept, Latest;
  }

  lemma KeptBlock(s: State)
    requires Inv(s)
    ensures s.dryValid <==> s.heard != [] && s.heard[|s.heard| - 1].block.Some? && s.heard[|s.heard| - 1].generation == s.localGeneration
    ensures s.dryValid ==> s.heard[|s.heard| - 1].block == Some(s.dry) && Cleaned(s.dry) == s.dry
    ensures |s.dry| == |s.output| == s.size
  {
    hide Latest;
  }

  /**
   An undisturbed block plays the worker's answer exactly if it is there in time and of this generation,
   and otherwise the block before or silence; the new block is handed over if the worker is free.
   */
  lemma ProcessingPlays(s: State, ins: Block)
    requires Inv(s) && s.phase.Idle? && |ins| == s.size
    ensures var t, before := Processing(s, ins), s.heard != [] && s.heard[|s.heard| - 1].generation == s.generation;
            && t.phase.Idle? && t.generation == s.generation && t.heard == s.heard + [Heard(Some(Cleaned(ins)), s.generation)] && |t.log| == |s.log| + 1
            && t.log[|s.log|] ==
               (if Answered(s) then Output(Cleaned(s.output), Processed(s.askedAt, s.job))
                else if before && s.heard[|s.heard| - 1].block.Some? then Output(s.heard[|s.heard| - 1].block.value, Raw)
                else Output(Silent(s.size), Silence))
            && (s.status == s.workerState == Ready && (s.inFlight == 0 || s.response == s.inFlight) ==>
                  t.status == Ready && t.inFlight != 0 && t.input == Cleaned(ins) && t.eligible && t.askedAt == |t.heard|)
            && (s.status == Fault ==> t.status == Fault)
  {
    hide Inv, CheckedState, Adopted;
    var checked := Next(s, Check);
    NextKeepsInv(s, Check);
    CheckingFinds(s);
    KeptBlock(checked);
    var played := Next(checked, Play(ins));
    assert played.phase == Phase.Played(checked.phase.ready, checked.phase.generation);
  }

  /** A block is handed over under a new number and with the generation it came in, for the worker to take. */
  lemma ProcessingAsks(s: State, ins: Block)
    requires Inv(s) && s.phase.Idle? && |ins| == s.size
    requires s.status == s.workerState == Ready && (s.inFlight == 0 || s.response == s.inFlight)
    ensures var t := Processing(s, ins);
            && Inv(t) && t.phase.Idle? && t.status == t.workerState == Ready && t.size == s.size && |t.output| == t.size && |t.log| == |s.log| + 1
            && t.worker.Waiting? && t.request == t.inFlight != 0 && t.response != t.inFlight && t.eligible
            && t.requestGeneration == t.localGeneration == t.generation == s.generation
            && t.input == Cleaned(ins) && t.askedAt == |t.heard|
  {
    hide Kept, Phased, Latest, CheckedState, Adopted;
    var checked := Next(s, Check);
    NextKeepsInv(s, Check);
    CheckingFinds(s);
    NextKeepsInv(checked, Play(ins));
    NextKeepsInv(Next(checked, Play(ins)), Request);
    ProcessingPlays(s, ins);
    FreeToAsk(s);
    SizeStays(s, ins);
  }

  lemma FreeToAsk(s: State)
    requires Inv(s) && s.phase.Idle? && s.status == s.workerState == Ready && (s.inFlight == 0 || s.response == s.inFlight)
    ensures var t := Next(s, Check);
            t.worker.Waiting? && t.response == t.sequence < U32 && t.inFlight == 0 && t.phase.ready && t.phase.generation == s.generation && t.workerState == Ready
  {
    hide Kept, Latest;
  }

  lemma SizeStays(s: State, ins: Block)
    ensures Processing(s, ins).size == s.size && Processing(s, ins).output == s.output && Processing(s, ins).worker == s.worker
  {
    hide Next;
    StepStays(s, Check);
    StepStays(Next(s, Check), Play(ins));
    StepStays(Next(Next(s, Check), Play(ins)), Request);
  }

  lemma StepStays(s: State, a: Action)
    requires a.Check? || a.Play? || a.Request?
    ensures Next(s, a).size == s.size && Next(s, a).output == s.output && Next(s, a).worker == s.worker
  {
  }

  /** Undisturbed blocks, one after the other, while the worker does nothing. */
  function Waited(s: State, blocks: seq<Block>): State {
    if blocks == [] then s else Processing(Waited(s, blocks[..|blocks| - 1]), blocks[|blocks| - 1])
  }

  /** A worker that lets 32 blocks pass without an answer is given up, and not before. */
  lemma {:induction false} LateIsFault(s: State, blocks: seq<Block>)
    requires Inv(s) && s.phase.Idle? && s.status == s.workerState == Ready && s.inFlight != 0 && s.response != s.inFlight && s.missed < 32
    requires forall k :: 0 <= k < |blocks| ==> |blocks[k]| == s.size
    ensures var t := Waited(s, blocks);
            && t.phase.Idle? && t.size == s.size && t.inFlight == s.inFlight && t.response == s.response && t.workerState == Ready
            && (t.status == Fault <==> s.missed + |blocks| >= 32) && (t.status == Ready ==> t.missed == s.missed + |blocks|)
            && t.status != Starting
  {
    hide Inv;
    if blocks != [] {
      hide Processing;
      LateIsFault(s, blocks[..|blocks| - 1]);
      OneMoreLate(Waited(s, blocks[..|blocks| - 1]), blocks[|blocks| - 1]);
    }
  }

  lemma OneMoreLate(s: State, ins: Block)
    requires s.phase.Idle? && s.status != Starting && s.workerState == Ready && s.inFlight != 0 && s.response != s.inFlight && |ins| == s.size
    ensures var t := Processing(s, ins);
            && t.phase.Idle? && t.size == s.size && t.inFlight == s.inFlight && t.response == s.response && t.workerState == Ready
            && (t.status == Fault <==> s.status == Fault || s.missed + 1 >= 32) && (t.status == Ready ==> t.missed == s.missed + 1)
            && t.status != Starting
  {
  }

  /** The worker writes its answer, sample by sample, each time with the generation it was given. */
  function Written(s: State, answer: Block, n: nat): State
    requires n <= |answer|
  {
    if n == 0 then s else Next(Written(s, answer, n - 1), WorkerWrite(n - 1, answer[n - 1], s.requestGeneration))
  }

  /** A worker that answers what it was asked. */
  function Echoed(s: State, answer: Block): State {
    Next(Written(Next(s, WorkerTake), answer, |answer|), WorkerRespond)
  }

  lemma {:induction false} WrittenIs(s: State, answer: Block, n: nat)
    requires s.worker.Working? && 0 < n <= |answer| == |s.output|
    ensures Written(s, answer, n) == s.(output := answer[..n] + s.output[n..], responseGeneration := s.requestGeneration)
  {
    if n == 1 {
      assert s.output[0 := answer[0]] == answer[..1] + s.output[1..];
      assert Written(s, answer, 0) == s;
    } else {
      WrittenIs(s, answer, n - 1);
      assert (answer[..n - 1] + s.output[n - 1..])[n - 1 := answer[n - 1]] == answer[..n] + s.output[n..];
    }
  }

  /**
   However often the host has been reset, a worker that gives back the generation it was given and
   answers in time is heard: its answer is what is played for the next block.
   */
  lemma EchoedAnswerPlays(s: State, ins: Block, answer: Block, next: Block)
    requires Inv(s) && s.phase.Idle? && s.status == s.workerState == Ready && (s.inFlight == 0 || s.response == s.inFlight)
    requires |ins| == |answer| == |next| == s.size > 0
    ensures var t := Processing(s, ins);
            var u := Echoed(t, answer);
            && |Processing(u, next).log| == |s.log| + 2
            && Processing(u, next).log[|s.log| + 1] == Output(Cleaned(answer), Processed(|t.heard|, Job(t.inFlight, Cleaned(ins), answer)))
  {
    hide Inv, Processing, Written;
    ProcessingAsks(s, ins);
    var t := Processing(s, ins);
    var taken := Next(t, WorkerTake);
    NextKeepsInv(t, WorkerTake);
    WrittenIs(taken, answer, |answer|);
    assert answer[..|answer|] + t.output[|answer|..] == answer;
    WrittenKeepsInv(taken, answer, |answer|);
    var u := Echoed(t, answer);
    NextKeepsInv(Written(taken, answer, |answer|), WorkerRespond);
    assert u == t.(output := answer, responseGeneration := t.requestGeneration, response := t.request, job := Job(t.request, t.input, answer));
    ProcessingPlays(u, next);
  }

  lemma {:induction false} WrittenKeepsInv(s: State, answer: Block, n: nat)
    requires Inv(s) && n <= |answer|
    ensures Inv(Written(s, answer, n))
  {
    hide Inv, Next;
    if n > 0 {
      WrittenKeepsInv(s, answer, n - 1);
      NextKeepsInv(Written(s, answer, n - 1), WorkerWrite(n - 1, answer[n - 1], s.requestGeneration));
    }
  }

  class Host {
    const size: nat
    var status: Status
    var workerState: Status
    var request: nat
    var response: nat
    var requestGeneration: nat
    var responseGeneration: nat
    var input: Block
    var output: Block
    var generation: nat
    var localGeneration: nat
    var sequence: nat
    var inFlight: nat
    var missed: nat
    var eligible: bool
    var dryValid: bool
    var dry: Block
    var phase: Phase
    var worker: Worker
    ghost var heard: seq<Heard>
    ghost var askedAt: nat
    ghost var job: Job
    ghost var log: seq<Output>

    ghost function Value(): State
      reads this
    {
      State(size, status, workerState, request, response, requestGeneration, responseGeneration, input, output, generation,
            localGeneration, sequence, inFlight, missed, eligible, dryValid, dry, phase, worker, heard, askedAt, job, log)
    }

    ghost predicate Valid()
      reads this
    {
      Inv(Value()) && AllRight(Value())
    }

    constructor (size: nat)
      ensures Valid() && Value() == Initial(size)
    {
      this.size := size;
      status, workerState, phase, worker := Starting, Starting, Idle, Waiting;
      request, response, requestGeneration, responseGeneration, sequence, inFlight, missed := 0, 0, 0, 0, 0, 0, 0;
      generation, localGeneration, eligible, dryValid := 1, 1, false, false;
      input, output, dry := Silent(size), Silent(size), Silent(size);
      heard, askedAt, job, log := [], 0, Job(0, [], []), [];
      new;
      InitialInv(size);
    }

    method AdoptGeneration()
      modifies `localGeneration, `dryValid, `eligible
      ensures Value() == Adopted(old(Value()))
    {
      if generation != localGeneration {
        localGeneration, dryValid, eligible := generation, false, false;
      }
    }

    method TakeResponse()
      modifies `eligible, `status, `inFlight, `missed, `phase
      ensures Value() == CheckedState(old(Value()))
    {
      var ready, wet := status == Ready, false;
      if ready {
        if workerState != Ready {
          status, ready := Fault, false;
        } else if inFlight != 0 {
          if response == inFlight {
            wet := eligible && responseGeneration == localGeneration;
            inFlight, missed := 0, 0;
          } else {
            eligible := false;
            missed := missed + 1;
            if missed >= MAX_MISSED_CYCLES {
              status, ready := Fault, false;
            }
          }
        }
      }
      phase := Checked(ready, wet, localGeneration);
    }

    /** Looks for the response to the request in flight. */
    method CheckResponse()
      requires phase.Idle?
      modifies `localGeneration, `dryValid, `eligible, `status, `inFlight, `missed, `phase
      ensures Value() == Next(old(Value()), Check)
    {
      hide Adopted, CheckedState;
      AdoptGeneration();
      TakeResponse();
    }

    /** Plays sample by sample what was decided, keeping the new block in place of the old one. */
    method PlaySamples(ins: Block) returns (outs: Block)
      requires phase.Checked? && |ins| == |dry| == |output| == size
      modifies `dry
      ensures outs == Answer(old(Value())).block && dry == Cleaned(ins)
    {
      var wet, valid := phase.wet, dryValid;
      outs := [];
      for index := 0 to size
        invariant |outs| == index && |dry| == size
        invariant forall k :: 0 <= k < index ==>
                    dry[k] == Clean(ins[k]) &&
                    outs[k] == if wet then Clean(output[k]) else if valid then Clean(old(dry)[k]) else Finite(0.0)
        invariant forall k :: index <= k < size ==> dry[k] == old(dry)[k]
      {
        var sample := if wet then output[index] else if valid then dry[index] else Finite(0.0);
        outs := outs + [Clean(sample)];
        dry := dry[index := Clean(ins[index])];
      }
    }

    method PlayBlock(ins: Block) returns (outs: Block)
      requires phase.Checked? && |ins| == |dry| == |output| == size
      modifies `dry, `dryValid, `phase, `heard, `log
      ensures Value() == Next(old(Value()), Play(ins)) && outs == Answer(old(Value())).block
    {
      hide Answer;
      ghost var played := Answer(Value());
      outs := PlaySamples(ins);
      phase, dryValid := Phase.Played(phase.ready, phase.generation), true;
      heard, log := heard + [Heard(Some(dry), localGeneration)], log + [played];
    }

    /** Hands the block over unless an earlier request is still with the worker. */
    method SendRequest()
      requires phase.Played?
      modifies `input, `requestGeneration, `sequence, `inFlight, `eligible, `request, `phase, `askedAt
      ensures Value() == Next(old(Value()), Request)
    {
      hide Filled, Numbered, NextSequence;
      if phase.ready && inFlight == 0 {
        Fill();
        Number(NextSequence(sequence));
      }
      phase := Idle;
    }

    method Fill()
      requires phase.Played?
      modifies `input, `requestGeneration, `askedAt
      ensures Value() == Filled(old(Value()))
    {
      input, requestGeneration, askedAt := dry, phase.generation, |heard|;
    }

    method Number(number: nat)
      modifies `sequence, `inFlight, `eligible, `request
      ensures Value() == Numbered(old(Value()), number)
    {
      sequence, inFlight, eligible, request := number, number, true, number;
    }

    /** A block of another size is answered with silence; what it leaves behind is not used. */
    method ProcessOdd(frames: nat, leftover: Block) returns (outs: Block)
      requires phase.Idle? && frames != size && |leftover| == size
      modifies `localGeneration, `dryValid, `eligible, `dry, `heard, `log
      ensures Value() == Next(old(Value()), Odd(frames, leftover)) && outs == Silent(frames)
    {
      hide Adopted;
      AdoptGeneration();
      dry, dryValid := leftover, false;
      outs := Silent(frames);
      heard, log := heard + [Heard(None, localGeneration)], log + [Output(outs, Silence)];
    }

    method ResetHost()
      modifies `generation
      ensures Value() == Next(old(Value()), Reset)
    {
      generation := generation + 1;
    }

    /** One block of audio, undisturbed; `ProcessingPlays` says what that means. */
    method Process(ins: Block) returns (outs: Block)
      requires Valid() && phase.Idle? && |ins| == size
      modifies this
      ensures Valid() && phase.Idle? && Value() == Processing(old(Value()), ins) && generation == old(generation)
      ensures |log| == |old(log)| + 1 && outs == log[|old(log)|].block
      ensures outs == if Answered(old(Value())) then Cleaned(old(output))
                      else if old(heard) != [] && old(heard)[|old(heard)| - 1].generation == generation && old(heard)[|old(heard)| - 1].block.Some?
                      then old(heard)[|old(heard)| - 1].block.value else Silent(size)
      ensures Answered(old(Value())) ==> old(job).output == old(output) && Latest(old(heard), old(askedAt), old(job).input, generation)
    {
      hide Inv, AllRight, Next, Latest, Answer, Answered;
      ghost var s := Value();
      KeepsValid(s, ins);
      ProcessingPlays(s, ins);
      CheckResponse();
      outs := PlayBlock(ins);
      SendRequest();
    }

    /** After a fault the host delays by one block, for good. */
    method ProcessAfterFault(blocks: seq<Block>) returns (outs: seq<Block>)
      requires Valid() && phase.Idle? && status == Fault && forall k :: 0 <= k < |blocks| ==> |blocks[k]| == size
      modifies this
      ensures Valid() && status == Fault && |outs| == |blocks|
      ensures forall k :: 1 <= k < |blocks| ==> outs[k] == Cleaned(blocks[k - 1])
    {
      hide Inv, AllRight, Next, Latest;
      outs := [];
      for k := 0 to |blocks|
        invariant Valid() && phase.Idle? && status == Fault && |outs| == k
        invariant k > 0 ==> heard != [] && heard[|heard| - 1] == Heard(Some(Cleaned(blocks[k - 1])), generation)
        invariant forall j :: 1 <= j < k ==> outs[j] == Cleaned(blocks[j - 1])
      {
        ProcessingPlays(Value(), blocks[k]);
        var played := Process(blocks[k]);
        outs := outs + [played];
      }
    }
  }

  /** Three steps in a row keep everything that is known of the host. */
  lemma KeepsValid(s: State, ins: Block)
    requires Inv(s) && AllRight(s) && s.phase.Idle? && |ins| == s.size
    ensures var t, u := Next(s, Check), Next(Next(s, Check), Play(ins));
            && t.phase.Checked? && |t.dry| == |t.output| == t.size == s.size && u.phase.Played? && Answer(t) == u.log[|s.log|]
            && Inv(Processing(s, ins)) && AllRight(Processing(s, ins)) && Processing(s, ins).log == u.log
            && (Answered(s) ==> s.job.output == s.output && Latest(s.heard, s.askedAt, s.job.input, s.generation))
  {
    hide Inv, AllRight, Latest, Answer, Adopted, CheckedState;
    NextKeepsInv(s, Check);
    NextKeepsRight(s, Check);
    CheckingFinds(s);
    var t := Next(s, Check);
    KeptBlock(t);
    NextKeepsInv(t, Play(ins));
    NextKeepsRight(t, Play(ins));
    var u := Next(t, Play(ins));
    NextKeepsInv(u, Request);
    NextKeepsRight(u, Request);
    if Answered(s) {
      AnswerIsLatest(s);
    }
  }

  lemma AnswerIsLatest(s: State)
    requires Inv(s) && Answered(s) && s.phase.Idle?
    ensures s.job.output == s.output && Latest(s.heard, s.askedAt, s.job.input, s.generation)
  {
  }
}
