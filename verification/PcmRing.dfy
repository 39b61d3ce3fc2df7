/**
 What the two Bluetooth PCM rings share: 32-bit indices that wrap, a ring of 16384 frames, and the
 producer's push, which loads the read index once and then copies what fits.
 */
module PcmRing {
  import opened Basics

  const CAP: nat := 16384

  datatype Frame = Frame(left: int, right: int)

  datatype Producer = Resting | Pushing(frames: seq<Frame>) | Copying(frames: seq<Frame>, accepted: nat, done: nat)

  /** Unsigned 32-bit subtraction. */
  function Sub(a: nat, b: nat): nat {
    (a - b) % U32
  }

  function Slot(index: nat, offset: nat): nat {
    (index + offset) % U32 % CAP
  }

  /** How many of the offered frames fit, from the raw index words. */
  function Accepted(write: nat, read: nat, frames: nat): nat {
    var used := Sub(write, read);
    var free := if used >= CAP then 0 else CAP - used;
    if frames < free then frames else free
  }

  function InFlight(p: Producer): nat {
    if p.Copying? then p.accepted else 0
  }

  function Copied(p: Producer): nat {
    if p.Copying? then p.done else 0
  }

  /** The index words are the low 32 bits of the counts they stand for. */
  lemma SubOf(a: nat, b: nat)
    requires b <= a < b + U32
    ensures Sub(a % U32, b % U32) == a - b
  {
  }

  lemma SlotOf(count: nat, offset: nat)
    ensures Slot(count % U32, offset) == (count + offset) % CAP
  {
  }

  lemma SlotFits(index: nat, offset: nat)
    ensures Slot(index, offset) < CAP
  {
  }

  lemma WordOfSum(count: nat, more: nat)
    ensures (count % U32 + more) % U32 == (count + more) % U32
  {
  }

  lemma AcceptedFits(written: nat, taken: nat, frames: nat)
    requires taken <= written < taken + U32
    ensures var n := Accepted(written % U32, taken % U32, frames);
            n <= frames && (n == 0 || written + n <= taken + CAP)
  {
    SubOf(written, taken);
  }

  /** The ring holds the most recently copied frames. */
  ghost predicate Content(ring: nat -> Frame, pushed: seq<Frame>) {
    forall i: nat :: |pushed| - CAP <= i < |pushed| ==> ring(i % CAP) == pushed[i]
  }

  function Store(ring: nat -> Frame, slot: nat, frame: Frame): nat -> Frame {
    (i: nat) => if i == slot then frame else ring(i)
  }

  lemma SlotsApart(i: nat, j: nat)
    requires i < j < i + CAP
    ensures i % CAP != j % CAP
  {
    assert (j - i) % CAP == j - i;
  }

  lemma StoreKeepsContent(ring: nat -> Frame, pushed: seq<Frame>, frame: Frame)
    requires Content(ring, pushed)
    ensures Content(Store(ring, |pushed| % CAP, frame), pushed + [frame])
  {
    var ring', pushed' := Store(ring, |pushed| % CAP, frame), pushed + [frame];
    forall i: nat | |pushed'| - CAP <= i < |pushed'|
      ensures ring'(i % CAP) == pushed'[i]
    {
      if i < |pushed| {
        SlotsApart(i, |pushed|);
        assert ring(i % CAP) == pushed[i];
      }
    }
  }

  lemma NextSlot(at: nat)
    ensures (at % CAP + 1) % CAP == (at + 1) % CAP
  {
  }

  /** Two neighbouring slots that are recent enough hold what was pushed there. */
  lemma SlotsHold(ring: nat -> Frame, pushed: seq<Frame>, count: nat, offset: nat)
    requires Content(ring, pushed) && |pushed| - CAP <= count + offset && count + offset + 1 < |pushed|
    ensures ring(Slot(count % U32, offset)) == pushed[count + offset]
    ensures ring((Slot(count % U32, offset) + 1) % CAP) == pushed[count + offset + 1]
  {
    hide Slot;
    SlotOf(count, offset);
    var at: nat := count + offset;
    NextSlot(at);
    var next: nat := at + 1;
    assert ring(at % CAP) == pushed[at];
    assert ring(next % CAP) == pushed[next];
  }
}
