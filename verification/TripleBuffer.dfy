/**
 The triple buffer behind the graph mailbox and the device-health mailbox. Serialized publishers
 and one consumer trade slot ownership through a single atomic word: the low two bits name the
 middle slot, bit 2 says that it holds something new. Snapshots are written and read one word at
 a time, and any step of one side may fall between any two steps of the other.
 */
module TripleBuffer {

  type Snapshot = seq<int>

  const FRESH: nat := 4

  datatype Producer = Resting | Writing(snapshot: Snapshot, done: nat)

  datatype Consumer = Waiting | Checked | Reading(isNew: bool, got: Snapshot, taken: nat)

  /** A result, the number of its publication and how many there were when it was chosen. */
  datatype Result = Result(snapshot: Snapshot, number: nat, latest: nat, isNew: bool)

  /**
   `published` counts from the initial content; `number` says which publication a complete slot
   holds. Both, like `results`, are history: no step looks at them.
   */
  datatype State = State(
    width: nat,
    slots: seq<Snapshot>,
    middle: nat,
    back: nat,
    front: nat,
    producer: Producer,
    consumer: Consumer,
    published: seq<Snapshot>,
    number: seq<nat>,
    results: seq<Result>)

  datatype Action =
    | Publish(snapshot: Snapshot) | WriteWord | GiveBack
    | Consume(includeCurrent: bool) | TakeFront | ReadWord

  function Index(middle: nat): (i: nat) {
    middle % FRESH
  }

  predicate IsFresh(middle: nat) {
    middle / FRESH % 2 == 1
  }

  function Initial(empty: Snapshot): State {
    State(|empty|, [empty, empty, empty], 1, 2, 0, Resting, Waiting, [empty], [0, 0, 0], [])
  }

  predicate Enabled(s: State, a: Action) {
    match a
    case Publish(snapshot) => s.producer.Resting? && |snapshot| == s.width
    case WriteWord => s.producer.Writing? && s.producer.done < s.width
    case GiveBack => s.producer.Writing? && s.producer.done == s.width
    case Consume(_) => s.consumer.Waiting?
    case TakeFront => s.consumer.Checked?
    case ReadWord => s.consumer.Reading?
  }

  /** One atomic step; an action that is not due changes nothing. */
  function Next(s: State, a: Action): State
    requires Shape(s)
  {
    if !Enabled(s, a) then s
    else match a
      case Publish(snapshot) => s.(producer := Writing(snapshot, 0))
      case WriteWord =>
        var k := s.producer.done;
        s.(slots := s.slots[s.back := s.slots[s.back][k := s.producer.snapshot[k]]],
           producer := s.producer.(done := k + 1))
      case GiveBack =>
        s.(middle := s.back + FRESH, back := Index(s.middle), producer := Resting,
           published := s.published + [s.producer.snapshot], number := s.number[s.back := |s.published|])
      case Consume(includeCurrent) =>
        if IsFresh(s.middle) then s.(consumer := Checked)
        else if includeCurrent then s.(consumer := Reading(false, [], |s.published| - 1))
        else s
      case TakeFront =>
        s.(middle := s.front, front := Index(s.middle), consumer := Reading(true, [], |s.published| - 1))
      case ReadWord =>
        var k := |s.consumer.got|;
        if k < s.width then s.(consumer := s.consumer.(got := s.consumer.got + [s.slots[s.front][k]]))
        else s.(consumer := Waiting,
                results := s.results + [Result(s.consumer.got, s.number[s.front], s.consumer.taken, s.consumer.isNew)])
  }

  /** Enough structure for every step to be defined. */
  predicate Shape(s: State) {
    && |s.slots| == 3 && |s.number| == 3 && |s.published| >= 1
    && (forall i :: 0 <= i < 3 ==> |s.slots[i]| == s.width)
    && s.back < 3 && s.front < 3 && Index(s.middle) < 3 && s.middle < 2 * FRESH
    && (s.producer.Writing? ==> |s.producer.snapshot| == s.width && s.producer.done <= s.width)
  }

  /** The three roles are held by three different slots. */
  predicate Permutation(s: State) {
    s.back != s.front && s.front != Index(s.middle) && Index(s.middle) != s.back
  }

  predicate Holds(s: State, slot: nat)
    requires Shape(s) && slot < 3
  {
    s.number[slot] < |s.published| && s.slots[slot] == s.published[s.number[slot]]
  }

  predicate Inv(s: State) {
    && Shape(s) && Permutation(s)
    && Holds(s, s.front) && Holds(s, Index(s.middle))
    && (if IsFresh(s.middle) then s.number[Index(s.middle)] == |s.published| - 1 && s.number[s.front] < |s.published| - 1
        else s.number[s.front] == |s.published| - 1)
    && (s.producer.Writing? ==> s.slots[s.back][..s.producer.done] == s.producer.snapshot[..s.producer.done])
    && (s.consumer.Checked? ==> IsFresh(s.middle))
    && (s.consumer.Reading? ==>
          && |s.consumer.got| <= s.width && s.consumer.got == s.slots[s.front][..|s.consumer.got|]
          && s.consumer.taken == s.number[s.front])
  }

  /** Every result is one whole publication, the latest one when it was chosen; none goes back. */
  predicate ResultsInOrder(s: State)
    requires Shape(s)
  {
    && (forall i :: 0 <= i < |s.results| ==>
          var r := s.results[i];
          r.number == r.latest < |s.published| && r.snapshot == s.published[r.number])
    && (forall i, j :: 0 <= i < j < |s.results| ==>
          && s.results[i].number <= s.results[j].number
          && (s.results[j].isNew ==> s.results[i].number < s.results[j].number))
    && (s.results != [] ==> s.results[|s.results| - 1].number <= s.number[s.front])
    && (s.consumer.Reading? && s.consumer.isNew ==>
          forall i :: 0 <= i < |s.results| ==> s.results[i].number < s.number[s.front])
  }

  lemma InitialInv(empty: Snapshot)
    ensures Inv(Initial(empty)) && ResultsInOrder(Initial(empty))
  {
  }

  lemma WritingKeepsInv(s: State)
    requires Inv(s) && Enabled(s, WriteWord)
    ensures Inv(Next(s, WriteWord))
  {
    var t := Next(s, WriteWord);
    var k := s.producer.done;
    assert t.slots[s.back][..k + 1] == s.slots[s.back][..k] + [s.producer.snapshot[k]];
    assert s.producer.snapshot[..k + 1] == s.producer.snapshot[..k] + [s.producer.snapshot[k]];
  }

  lemma GivingBackKeepsInv(s: State)
    requires Inv(s) && Enabled(s, GiveBack)
    ensures Inv(Next(s, GiveBack))
  {
    assert s.slots[s.back] == s.slots[s.back][..s.width];
    assert s.producer.snapshot == s.producer.snapshot[..s.width];
  }

  lemma ReadingKeepsInv(s: State)
    requires Inv(s) && Enabled(s, ReadWord)
    ensures Inv(Next(s, ReadWord))
  {
    var k := |s.consumer.got|;
    if k < s.width {
      assert s.slots[s.front][..k + 1] == s.slots[s.front][..k] + [s.slots[s.front][k]];
    }
  }

  lemma NextKeepsInv(s: State, a: Action)
    requires Inv(s)
    ensures Inv(Next(s, a))
  {
    if Enabled(s, a) {
      match a
      case WriteWord => WritingKeepsInv(s);
      case GiveBack => GivingBackKeepsInv(s);
      case ReadWord => ReadingKeepsInv(s);
      case _ =>
    }
  }

  lemma NextKeepsOrder(s: State, a: Action)
    requires Inv(s) && ResultsInOrder(s)
    ensures ResultsInOrder(Next(s, a))
  {
    if Enabled(s, a) && a.ReadWord? && |s.consumer.got| == s.width {
      assert s.slots[s.front] == s.slots[s.front][..s.width];
    }
  }

  function Run(s: State, schedule: seq<Action>): (t: State)
    requires Inv(s)
    ensures Inv(t)
  {
    if schedule == [] then s
    else
      NextKeepsInv(Run(s, schedule[..|schedule| - 1]), schedule[|schedule| - 1]);
      Next(Run(s, schedule[..|schedule| - 1]), schedule[|schedule| - 1])
  }

  /** In every interleaving of the two sides, results are whole, in order and up to date. */
  lemma {:induction false} EveryInterleaving(empty: Snapshot, schedule: seq<Action>)
    ensures Inv(Initial(empty))
    ensures Permutation(Run(Initial(empty), schedule)) && ResultsInOrder(Run(Initial(empty), schedule))
  {
    InitialInv(empty);
    if schedule != [] {
      EveryInterleaving(empty, schedule[..|schedule| - 1]);
      NextKeepsOrder(Run(Initial(empty), schedule[..|schedule| - 1]), schedule[|schedule| - 1]);
    }
  }

  /** The slot the producer is filling is never the one the consumer reads. */
  lemma NoTornRead(s: State, a: Action)
    requires Inv(s) && s.consumer.Reading? && !(a.ReadWord? || a.Consume? || a.TakeFront?)
    ensures Next(s, a).front == s.front && Next(s, a).slots[s.front] == s.slots[s.front]
  {
  }

  lemma {:induction false} RunAppend(s: State, a: seq<Action>, b: seq<Action>)
    requires Inv(s)
    ensures Run(s, a + b) == Run(Run(s, a), b)
  {
    if b == [] {
      assert a + b == a;
    } else {
      assert (a + b)[..|a + b| - 1] == a + b[..|b| - 1];
      RunAppend(s, a, b[..|b| - 1]);
    }
  }

  // ------------------------------------------------------------------------------------------
  // The mailbox itself: each operation is an uninterrupted run of its steps.

  function Repeat(a: Action, n: nat): (r: seq<Action>)
    ensures |r| == n
  {
    if n == 0 then [] else Repeat(a, n - 1) + [a]
  }

  function PublishActions(snapshot: Snapshot): seq<Action> {
    [Publish(snapshot)] + Repeat(WriteWord, |snapshot|) + [GiveBack]
  }

  /** The state while a snapshot is being written into the back slot. */
  function Written(s: State, snapshot: Snapshot, k: nat): State
    requires Shape(s) && |snapshot| == s.width && k <= s.width
  {
    s.(producer := Writing(snapshot, k), slots := s.slots[s.back := snapshot[..k] + s.slots[s.back][k..]])
  }

  lemma WrittenNext(s: State, snapshot: Snapshot, k: nat)
    requires Shape(s) && |snapshot| == s.width && k < s.width
    ensures Shape(Written(s, snapshot, k)) && Next(Written(s, snapshot, k), WriteWord) == Written(s, snapshot, k + 1)
  {
    assert (snapshot[..k] + s.slots[s.back][k..])[k := snapshot[k]] == snapshot[..k + 1] + s.slots[s.back][k + 1..];
  }

  lemma RunPublish(s: State, snapshot: Snapshot)
    requires Inv(s) && s.producer.Resting? && |snapshot| == s.width
    ensures Run(s, [Publish(snapshot)]) == Written(s, snapshot, 0)
  {
    assert [Publish(snapshot)][..0] == [];
    assert Run(s, []) == s;
    assert snapshot[..0] + s.slots[s.back][0..] == s.slots[s.back];
  }

  lemma {:induction false} RunWrites(s: State, snapshot: Snapshot, k: nat)
    requires Inv(s) && s.producer.Resting? && |snapshot| == s.width && k <= s.width
    ensures Run(s, [Publish(snapshot)] + Repeat(WriteWord, k)) == Written(s, snapshot, k)
  {
    hide Next;
    var schedule := [Publish(snapshot)] + Repeat(WriteWord, k);
    if k == 0 {
      assert schedule == [Publish(snapshot)];
      RunPublish(s, snapshot);
    } else {
      RunWrites(s, snapshot, k - 1);
      assert schedule[..|schedule| - 1] == [Publish(snapshot)] + Repeat(WriteWord, k - 1);
      WrittenNext(s, snapshot, k - 1);
    }
  }

  /** What a call to consume does from its first check to the last word it reads. */
  function ConsumeActions(includeCurrent: bool, isNew: bool, width: nat): seq<Action> {
    [Consume(includeCurrent)] +
    (if isNew then [TakeFront] + Repeat(ReadWord, width + 1)
     else if includeCurrent then Repeat(ReadWord, width + 1)
     else [])
  }

  lemma {:induction false} RunReads(s: State, k: nat)
    requires Inv(s) && s.consumer.Reading? && s.consumer.got == [] && k <= s.width
    ensures Run(s, Repeat(ReadWord, k)) == s.(consumer := s.consumer.(got := s.slots[s.front][..k]))
  {
    if k > 0 {
      RunReads(s, k - 1);
      assert Repeat(ReadWord, k)[..k - 1] == Repeat(ReadWord, k - 1);
      assert s.slots[s.front][..k] == s.slots[s.front][..k - 1] + [s.slots[s.front][k - 1]];
    }
  }

  /** All words are read, and the result is handed out. */
  function HandedOut(s: State): State
    requires Shape(s) && s.consumer.Reading?
  {
    s.(consumer := Waiting,
       results := s.results + [Result(s.slots[s.front], s.number[s.front], s.consumer.taken, s.consumer.isNew)])
  }

  lemma RunReadsAll(s: State)
    requires Inv(s) && s.consumer.Reading? && s.consumer.got == []
    ensures Run(s, Repeat(ReadWord, s.width + 1)) == HandedOut(s)
  {
    RunReads(s, s.width);
    assert Repeat(ReadWord, s.width + 1)[..s.width] == Repeat(ReadWord, s.width);
    assert s.slots[s.front][..s.width] == s.slots[s.front];
  }

  lemma RunOne(s: State, a: Action)
    requires Inv(s)
    ensures Run(s, [a]) == Next(s, a)
  {
    assert [a][..0] == [] && Run(s, []) == s;
  }

  lemma RunTakeAndRead(s: State)
    requires Inv(s) && s.consumer.Checked?
    ensures Run(s, [TakeFront] + Repeat(ReadWord, s.width + 1)) ==
              HandedOut(s.(middle := s.front, front := Index(s.middle), consumer := Reading(true, [], |s.published| - 1)))
  {
    hide Inv;
    RunOne(s, TakeFront);
    RunReadsAll(Run(s, [TakeFront]));
    RunAppend(s, [TakeFront], Repeat(ReadWord, s.width + 1));
  }

  /** A call that finds something new. */
  lemma RunConsumeNew(s: State, includeCurrent: bool)
    requires Inv(s) && s.consumer.Waiting? && IsFresh(s.middle)
    ensures Run(s, ConsumeActions(includeCurrent, true, s.width)) ==
              HandedOut(s.(middle := s.front, front := Index(s.middle), consumer := Reading(true, [], |s.published| - 1)))
  {
    hide Inv;
    RunOne(s, Action.Consume(includeCurrent));
    RunTakeAndRead(Run(s, [Action.Consume(includeCurrent)]));
    RunAppend(s, [Action.Consume(includeCurrent)], [TakeFront] + Repeat(ReadWord, s.width + 1));
  }

  /** A call that finds nothing new and reads the current one again, or returns. */
  lemma RunConsumeOld(s: State, includeCurrent: bool)
    requires Inv(s) && s.consumer.Waiting? && !IsFresh(s.middle)
    ensures Run(s, ConsumeActions(includeCurrent, false, s.width)) ==
              if includeCurrent then HandedOut(s.(consumer := Reading(false, [], |s.published| - 1))) else s
  {
    hide Inv;
    RunOne(s, Action.Consume(includeCurrent));
    if includeCurrent {
      RunReadsAll(Run(s, [Action.Consume(includeCurrent)]));
      RunAppend(s, [Action.Consume(includeCurrent)], Repeat(ReadWord, s.width + 1));
    } else {
      assert [Action.Consume(includeCurrent)] + [] == [Action.Consume(includeCurrent)];
    }
  }

  lemma {:induction false} RunKeepsOrder(s: State, schedule: seq<Action>)
    requires Inv(s) && ResultsInOrder(s)
    ensures ResultsInOrder(Run(s, schedule))
  {
    if schedule != [] {
      RunKeepsOrder(s, schedule[..|schedule| - 1]);
      NextKeepsOrder(Run(s, schedule[..|schedule| - 1]), schedule[|schedule| - 1]);
    }
  }

  /** The latest publication is in the middle slot if that is fresh, and in the front slot otherwise. */
  lemma CurrentIsLatest(s: State)
    requires Inv(s)
    ensures var i := if IsFresh(s.middle) then Index(s.middle) else s.front;
            s.number[i] == |s.published| - 1 && s.slots[i] == s.published[|s.published| - 1]
    ensures !IsFresh(s.front)
  {
  }

  class Mailbox {
    var slots: seq<Snapshot>
    var middle: nat
    var back: nat
    var front: nat
    ghost var history: State

    /** Between two operations the history's machine is at rest and agrees with the fields. */
    ghost predicate Valid()
      reads this
    {
      && Inv(history) && ResultsInOrder(history) && history.producer.Resting? && history.consumer.Waiting?
      && slots == history.slots && middle == history.middle && back == history.back && front == history.front
    }

    constructor (empty: Snapshot)
      ensures Valid() && history == Initial(empty)
    {
      slots, middle, back, front := [empty, empty, empty], 1, 2, 0;
      history := Initial(empty);
      new;
      InitialInv(empty);
    }

    method Publish(snapshot: Snapshot)
      requires Valid() && |snapshot| == history.width
      modifies this
      ensures Valid() && history == Run(old(history), PublishActions(snapshot))
      ensures history.published == old(history.published) + [snapshot]
    {
      ghost var before := history;
      slots := slots[back := snapshot];
      var wasMiddle := middle;
      middle := back + FRESH;
      back := Index(wasMiddle);
      RunWrites(before, snapshot, |snapshot|);
      assert snapshot[..|snapshot|] + before.slots[before.back][|snapshot|..] == snapshot;
      var writes := [Action.Publish(snapshot)] + Repeat(WriteWord, |snapshot|);
      assert PublishActions(snapshot)[..|writes|] == writes;
      RunKeepsOrder(before, PublishActions(snapshot));
      history := Run(before, PublishActions(snapshot));
    }

    /** Takes the newest snapshot, or the current one again when nothing is new and it is asked for. */
    method Consume(includeCurrent: bool) returns (out: Snapshot, ok: bool)
      requires Valid()
      modifies this
      ensures Valid() && history == Run(old(history), ConsumeActions(includeCurrent, IsFresh(old(middle)), old(history.width)))
      ensures ok <==> includeCurrent || IsFresh(old(middle))
      ensures history.published == old(history.published) && !IsFresh(middle)
      ensures ok ==> out == history.published[|history.published| - 1]
      ensures history.results == old(history.results) +
                if ok then [Result(out, |history.published| - 1, |history.published| - 1, IsFresh(old(middle)))] else []
    {
      hide Next, Holds, ResultsInOrder, ConsumeActions;
      ghost var before := history;
      RunKeepsOrder(before, ConsumeActions(includeCurrent, IsFresh(middle), before.width));
      history := Run(before, ConsumeActions(includeCurrent, IsFresh(middle), before.width));
      CurrentIsLatest(before);
      if !IsFresh(middle) {
        RunConsumeOld(before, includeCurrent);
        return slots[front], includeCurrent;
      }
      RunConsumeNew(before, includeCurrent);
      var wasMiddle := middle;
      middle := front;
      front := Index(wasMiddle);
      return slots[front], true;
    }
  }
}
