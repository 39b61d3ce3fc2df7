/**
 The restore of a configuration backup. Staging builds an unpublished directory and publishes it
 with one rename; applying moves each of nine roots aside and moves its replacement in, and retires
 the whole transaction with one rename. Power may be cut before any file operation: `power` counts
 the operations that are left. A cut operation has not happened, which is also what an unsynced
 rename looks like afterwards, since every rename is synced before the next one.
 */
module RestoreTransaction {
  import opened Basics

  const ROOTS: nat := 9

  type Tree = nat

  datatype Entry = Absent | Present(tree: Tree)

  /** A staged restore: which roots the backup has, their new content, and what was moved aside. */
  datatype Transaction = Transaction(plan: seq<bool>, staged: seq<Entry>, saved: seq<Entry>)

  datatype Outcome = Cut | Failed | NothingStaged | Applied

  predicate Whole(entries: seq<Entry>) {
    |entries| == ROOTS
  }

  /** The roots every backup must have: the main configuration, Bluetooth and sounds. */
  predicate Complete(backup: seq<Entry>) {
    Whole(backup) && backup[0].Present? && backup[6].Present? && backup[7].Present?
  }

  /** One root on its way from `before` to `after`. */
  predicate RootInProgress(target: Entry, staged: Entry, saved: Entry, before: Entry, after: Entry) {
    || (target == before && staged == after && saved == Absent)
    || (target == Absent && staged == after && saved == before)
    || (target == after && staged == Absent && saved == before)
  }

  predicate InProgress(tx: Transaction, targets: seq<Entry>, before: seq<Entry>, after: seq<Entry>) {
    && Whole(targets) && Whole(before) && Complete(after)
    && |tx.plan| == ROOTS && Whole(tx.staged) && Whole(tx.saved)
    && forall i :: 0 <= i < ROOTS ==>
         tx.plan[i] == after[i].Present? && RootInProgress(targets[i], tx.staged[i], tx.saved[i], before[i], after[i])
  }

  /** Where the content of one root can be found while the transaction is pending. */
  lemma NothingLost(tx: Transaction, targets: seq<Entry>, before: seq<Entry>, after: seq<Entry>, i: nat)
    requires InProgress(tx, targets, before, after) && i < ROOTS
    ensures before[i].Present? ==> before[i] == targets[i] || before[i] == tx.saved[i]
    ensures after[i].Present? ==> after[i] == targets[i] || after[i] == tx.staged[i]
  {
    assert RootInProgress(targets[i], tx.staged[i], tx.saved[i], before[i], after[i]);
  }

  class Disk {
    var targets: seq<Entry>
    var unpublished: seq<Transaction>
    var pending: Option<Transaction>
    var done: Option<Transaction>
    var power: nat

    /** What is on the disk is all from before, all from the backup, or a transaction between the two. */
    ghost predicate Between(before: seq<Entry>, after: seq<Entry>)
      reads this
    {
      if pending.Some? then InProgress(pending.value, targets, before, after)
      else targets == before || targets == after
    }

    /** More operations than any boot needs. */
    function Enough(): nat
      reads this
    {
      |unpublished| + (if done.Some? then 1 else 0) + 2 * ROOTS + 3
    }

    method Spend() returns (cut: bool)
      modifies `power
      ensures cut <==> old(power) == 0
      ensures power == if cut then 0 else old(power) - 1
    {
      cut := power == 0;
      if !cut {
        power := power - 1;
      }
    }

    /**
     Staging: everything is built aside, one operation for each root and one to publish it, so until
     that last rename nothing has happened. Only missing power or an incomplete backup prevents it.
     */
    method Stage(backup: seq<Entry>) returns (outcome: Outcome)
      requires Whole(targets) && Whole(backup)
      modifies `unpublished, `pending, `power
      ensures outcome == Failed <==> old(pending).Some? || (!Complete(backup) && old(power) >= ROOTS)
      ensures outcome == Applied <==> old(pending).None? && Complete(backup) && old(power) > ROOTS
      ensures outcome != NothingStaged && (outcome == Cut ==> power == 0 && old(power) <= ROOTS)
      ensures |unpublished| == |old(unpublished)| + if outcome == Cut then 1 else 0
      ensures outcome != Applied ==> pending == old(pending)
      ensures outcome == Applied ==> power == old(power) - ROOTS - 1 && unpublished == old(unpublished)
      ensures outcome == Applied ==> pending.Some? && pending.value.staged == backup && InProgress(pending.value, targets, targets, backup)
    {
      if pending.Some? {
        return Failed;
      }
      var staged, mask := [], [];
      for i := 0 to ROOTS
        invariant |staged| == |mask| == i && pending == old(pending) && unpublished == old(unpublished)
        invariant power == old(power) - i
        invariant forall k :: 0 <= k < i ==> staged[k] == backup[k] && mask[k] == backup[k].Present?
      {
        var cut := Spend();
        if cut {
          unpublished := unpublished + [Transaction(mask, staged, [])];
          return Cut;
        }
        staged, mask := staged + [backup[i]], mask + [backup[i].Present?];
      }
      if !(mask[0] && mask[6] && mask[7]) {
        return Failed;
      }
      var tx := Transaction(mask, staged, seq(ROOTS, _ => Absent));
      var cut := Spend();
      if cut {
        unpublished := unpublished + [tx];
        return Cut;
      }
      assert staged == backup;
      pending := Some(tx);
      return Applied;
    }

    method DiscardUnpublished() returns (cut: bool)
      modifies `unpublished, `power
      ensures cut ==> power == 0 && old(power) < |old(unpublished)| && |unpublished| <= |old(unpublished)|
      ensures !cut ==> unpublished == [] && power == old(power) - |old(unpublished)|
    {
      while unpublished != []
        invariant power + |old(unpublished)| == old(power) + |unpublished|
        decreases |unpublished|
      {
        cut := Spend();
        if cut {
          return true;
        }
        unpublished := unpublished[1..];
      }
      return false;
    }

    /** Removing a retired transaction may be cut halfway; what is left of it is never looked at. */
    method RemoveDone(remnant: Transaction) returns (cut: bool)
      modifies `done, `power
      ensures cut <==> old(done).Some? && old(power) == 0
      ensures power == if old(done).None? || cut then old(power) else old(power) - 1
      ensures !cut ==> done == None
    {
      cut := false;
      if done.Some? {
        cut := Spend();
        done := if cut then Some(remnant) else None;
      }
    }

    /** Moves one root's current content aside and its replacement in. */
    method ApplyRoot(i: nat, ghost before: seq<Entry>, ghost after: seq<Entry>) returns (outcome: Outcome)
      requires i < ROOTS && pending.Some? && InProgress(pending.value, targets, before, after)
      modifies `targets, `pending, `power
      ensures pending.Some? && InProgress(pending.value, targets, before, after)
      ensures outcome == Applied || (outcome == Cut && power == 0 && old(power) < 2)
      ensures outcome == Applied ==> targets[i] == after[i] && power + 2 >= old(power)
      ensures forall k :: 0 <= k < ROOTS && k != i ==> targets[k] == old(targets)[k]
    {
      var tx := pending.value;
      assert RootInProgress(targets[i], tx.staged[i], tx.saved[i], before[i], after[i]);
      var hasNew, hasOld, hasTarget := tx.staged[i].Present?, tx.saved[i].Present?, targets[i].Present?;
      if !hasNew && tx.plan[i] {
        if !hasTarget {
          return Failed;
        }
        return Applied;
      }
      if hasTarget {
        if hasOld {
          return Failed;
        }
        var cut := Spend();
        if cut {
          return Cut;
        }
        tx := tx.(saved := tx.saved[i := targets[i]]);
        targets, pending := targets[i := Absent], Some(tx);
      }
      if hasNew {
        var cut := Spend();
        if cut {
          return Cut;
        }
        targets := targets[i := tx.staged[i]];
        tx := tx.(staged := tx.staged[i := Absent]);
        pending := Some(tx);
      }
      return Applied;
    }

    /**
     Applies what is staged. However often it was cut before, neither interrupted-restore error
     can occur, a cut leaves a transaction that can be resumed, and completion leaves exactly the
     backup's roots.
     */
    method ApplyPending(ghost before: seq<Entry>, ghost after: seq<Entry>, remnant: Transaction) returns (outcome: Outcome)
      requires Between(before, after)
      modifies this
      ensures Between(before, after) && outcome != Failed
      ensures outcome == Cut ==> old(power) < old(Enough())
      ensures outcome == Applied ==> old(pending).Some? && pending.None? && targets == after
      ensures outcome == NothingStaged ==> old(pending).None?
      ensures old(pending).None? ==> pending.None? && targets == old(targets)
      ensures pending.None? && old(pending).Some? ==> targets == after
      ensures |unpublished| <= |old(unpublished)| && (old(pending).None? && old(done).None? ==> done.None?)
      ensures outcome != Cut ==> unpublished == [] && done.None?
    {
      var cut := DiscardUnpublished();
      if cut {
        return Cut;
      }
      cut := RemoveDone(remnant);
      if cut {
        return Cut;
      }
      if pending.None? {
        return NothingStaged;
      }
      var plan := pending.value.plan;
      if !(plan[0] && plan[6] && plan[7]) {
        return Failed;
      }
      ghost var start := power;
      for i := 0 to ROOTS
        invariant pending.Some? && InProgress(pending.value, targets, before, after)
        invariant forall k :: 0 <= k < i ==> targets[k] == after[k]
        invariant power + 2 * i >= start && unpublished == []
      {
        outcome := ApplyRoot(i, before, after);
        if outcome != Applied {
          return outcome;
        }
      }
      assert targets == after;
      cut := Spend();
      if cut {
        return Cut;
      }
      pending, done := None, pending;
      cut := RemoveDone(remnant);
      return if cut then Cut else Applied;
    }

    /** Any number of boots, each cut anywhere; the first that is not cut completes the restore. */
    method Boots(powers: seq<nat>, ghost before: seq<Entry>, ghost after: seq<Entry>, remnant: Transaction)
      requires Between(before, after)
      modifies this
      ensures Between(before, after)
      ensures old(pending).None? ==> pending.None? && targets == old(targets)
      ensures old(pending).Some? && pending.None? ==> targets == after
      ensures forall k :: 0 <= k < |powers| && powers[k] >= Lasting(old(unpublished)) ==> pending.None? && done.None? && unpublished == []
    {
      for k := 0 to |powers|
        invariant Between(before, after) && |unpublished| <= |old(unpublished)|
        invariant old(pending).None? ==> pending.None? && targets == old(targets)
        invariant old(pending).Some? && pending.None? ==> targets == after
        invariant forall j :: 0 <= j < k && powers[j] >= Lasting(old(unpublished)) ==> pending.None? && done.None? && unpublished == []
      {
        power := powers[k];
        var outcome := ApplyPending(before, after, remnant);
      }
    }

    /**
     A restore from its upload to its end: it is accepted exactly for a complete backup and enough
     power, nothing changes unless it is, and once it is, one boot with enough power leaves the
     backup's roots, whatever cuts came before.
     */
    method Restore(backup: seq<Entry>, powers: seq<nat>, remnant: Transaction) returns (accepted: bool)
      requires pending.None? && Whole(targets) && Whole(backup)
      modifies this
      ensures accepted <==> backup[0].Present? && backup[6].Present? && backup[7].Present? && old(power) > 9
      ensures !accepted ==> pending.None? && targets == old(targets)
      ensures accepted ==> Between(old(targets), backup) && (pending.None? ==> targets == backup)
      ensures accepted && (exists k :: 0 <= k < |powers| && powers[k] >= |old(unpublished)| + 22) ==> pending.None? && targets == backup
    {
      ghost var before := targets;
      var outcome := Stage(backup);
      accepted := outcome == Applied;
      Boots(powers, before, backup, remnant);
    }
  }

  /** Enough operations for a whole boot, whatever earlier boots have left behind. */
  function Lasting(unpublished: seq<Transaction>): nat {
    |unpublished| + 2 * ROOTS + 4
  }
}
