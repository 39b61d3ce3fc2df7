/**
 Trial boots after an update: the running image saves the boot files and starts a trial, the
 bootloader counts attempts and reverts when they are used up, and the new image confirms itself
 once it has stayed healthy. Each file operation asks `luck` how it goes: it succeeds, fails and
 changes nothing, or the power is cut before it. The protocol is a function of the disk and the
 luck; the device runs it in place, operation by operation.
 */
module BootRecovery {
  import opened Basics

  const MAX_ATTEMPTS: nat := 3

  type Content = nat
  type Files = map<string, Content>

  datatype Luck = Fine | Fails | PowerCut

  datatype Result = Ok | Error | Cut

  datatype BootAction = NoTrial | Attempt | Revert | CutShort

  /** The trial file; a counter that cannot be parsed counts as used up. */
  datatype Counter = Attempts(n: nat) | Unreadable

  /** A backup directory is complete once its version file is there. */
  datatype Backup = Backup(files: Files, version: bool)

  datatype Disk = Disk(boot: Files, backup: Option<Backup>, temp: Option<Backup>, trial: Option<Counter>)

  /** How an operation ends, and the luck that is left for the next one. */
  datatype Done = Done(disk: Disk, result: Result, luck: seq<Luck>)

  datatype Booted = Booted(disk: Disk, action: BootAction, luck: seq<Luck>)

  const CONFIG := "config.txt"

  function BootNames(kernel: string): seq<string> {
    ["initramfs.cpio.gz", "program.cpio.gz", "cmdline.txt", CONFIG, kernel]
  }

  function Picked(boot: Files, names: seq<string>): Files {
    map name | name in boot && name in names :: boot[name]
  }

  /** The boot files that a backup saves. */
  function Snapshot(boot: Files, kernel: string): Files {
    Picked(boot, BootNames(kernel))
  }

  /** A backup of these boot files. */
  function BackupOf(boot: Files, kernel: string): Option<Backup> {
    Some(Backup(Snapshot(boot, kernel), true))
  }

  predicate Complete(backup: Option<Backup>) {
    backup.Some? && backup.value.version
  }

  /** How the next operation goes; when nothing is said it succeeds. */
  function First(luck: seq<Luck>): Luck {
    if luck == [] then Fine else luck[0]
  }

  function Rest(luck: seq<Luck>): seq<Luck> {
    if luck == [] then [] else luck[1..]
  }

  // ------------------------------------------------------------------------------------------
  // Preparing an update.

  /** What is left aside is removed after an error, if that works. */
  function CleanedUp(d: Disk, luck: seq<Luck>): Done {
    match First(luck)
    case PowerCut => Done(d, Cut, Rest(luck))
    case Fails => Done(d, Error, Rest(luck))
    case Fine => Done(d.(temp := None), Error, Rest(luck))
  }

  /** Leftovers are removed and an empty directory is made. */
  function Emptied(d: Disk, luck: seq<Luck>): Done {
    if First(luck).PowerCut? then Done(d, Cut, Rest(luck))
    else
      var e, second := if First(luck).Fine? then d.(temp := None) else d, Rest(luck);
      if First(second).PowerCut? then Done(e, Cut, Rest(second))
      else
        var f, third := if First(second).Fine? then e.(backup := None) else e, Rest(second);
        if First(third).PowerCut? then Done(f, Cut, Rest(third))
        else if First(third).Fails? || f.temp.Some? then Done(f, Error, Rest(third))
        else Done(f.(temp := Some(Backup(map[], false))), Ok, Rest(third))
  }

  /** Copies what is there of some boot files. */
  function Copied(d: Disk, names: seq<string>, luck: seq<Luck>): (done: Done)
    requires d.temp.Some?
    ensures done.result == Ok ==> done.disk.temp.Some?
    decreases |names|
  {
    if names == [] then Done(d, Ok, luck)
    else if names[0] !in d.boot then Copied(d, names[1..], luck)
    else
      match First(luck)
      case PowerCut => Done(d, Cut, Rest(luck))
      case Fails => CleanedUp(d, Rest(luck))
      case Fine => Copied(WithCopy(d, names[0]), names[1..], Rest(luck))
  }

  function WithCopy(d: Disk, name: string): (e: Disk)
    requires d.temp.Some? && name in d.boot
    ensures e.temp.Some?
  {
    d.(temp := Some(d.temp.value.(files := d.temp.value.files[name := d.boot[name]])))
  }

  /** The version file makes the copy complete, and renaming it makes it the backup. */
  function Published(d: Disk, luck: seq<Luck>): Done
    requires d.temp.Some?
  {
    match First(luck)
    case PowerCut => Done(d, Cut, Rest(luck))
    case Fails => CleanedUp(d, Rest(luck))
    case Fine =>
      var e, second := d.(temp := Some(d.temp.value.(version := true))), Rest(luck);
      if First(second).PowerCut? then Done(e, Cut, Rest(second))
      else if First(second).Fails? || e.backup.Some? then CleanedUp(e, Rest(second))
      else Done(e.(backup := e.temp, temp := None), Ok, Rest(second))
  }

  function Saved(d: Disk, kernel: string, luck: seq<Luck>): Done {
    var e := Emptied(d, luck);
    if e.result != Ok then e
    else
      var c := Copied(e.disk, BootNames(kernel), e.luck);
      if c.result != Ok then c else Published(c.disk, c.luck)
  }

  /** The old events are removed and the trial begins. */
  function Armed(d: Disk, luck: seq<Luck>): Done {
    if First(luck).PowerCut? then Done(d, Cut, Rest(luck))
    else
      var second := Rest(luck);
      match First(second)
      case PowerCut => Done(d, Cut, Rest(second))
      case Fails => Done(d, Error, Rest(second))
      case Fine => Done(d.(trial := Some(Attempts(0))), Ok, Rest(second))
  }

  /** An update is prepared. A complete backup that is there is kept. */
  function Prepared(d: Disk, kernel: string, luck: seq<Luck>): Done {
    if Complete(d.backup) then Armed(d, luck)
    else
      var s := Saved(d, kernel, luck);
      if s.result != Ok then s else Armed(s.disk, s.luck)
  }

  // ------------------------------------------------------------------------------------------
  // Booting, reverting and confirming.

  /** How many attempts count as used. */
  function Used(counter: Counter): nat {
    if counter.Attempts? then counter.n else MAX_ATTEMPTS
  }

  /** A trial file that cannot be read is taken for none. */
  function Begun(d: Disk, luck: seq<Luck>): Booted {
    if d.trial.None? then Booted(d, NoTrial, luck)
    else
      match First(luck)
      case PowerCut => Booted(d, CutShort, Rest(luck))
      case Fails => Booted(d, NoTrial, Rest(luck))
      case Fine => Counted(d, d.trial.value, Rest(luck))
  }

  /** A boot is granted only after the attempt has been counted durably. */
  function Counted(d: Disk, counter: Counter, luck: seq<Luck>): Booted {
    if Used(counter) >= MAX_ATTEMPTS then Booted(d, Revert, luck)
    else
      match First(luck)
      case PowerCut => Booted(d, CutShort, Rest(luck))
      case Fails => Booted(d, Revert, Rest(luck))
      case Fine =>
        var e, second := d.(trial := Some(Attempts(Used(counter) + 1))), Rest(luck);
        Booted(e, if First(second).PowerCut? then CutShort else Attempt, Rest(second))
  }

  /** Restores files through temporary names: a rename puts each in place whole or not at all. */
  function Overwritten(d: Disk, names: seq<string>, failed: bool, luck: seq<Luck>): Done
    requires d.backup.Some? && forall name :: name in names ==> name in d.backup.value.files
    decreases |names|
  {
    if names == [] then Done(d, if failed then Error else Ok, luck)
    else
      match First(luck)
      case PowerCut => Done(d, Cut, Rest(luck))
      case Fails => Overwritten(d, names[1..], true, Rest(luck))
      case Fine =>
        var second := Rest(luck);
        match First(second)
        case PowerCut => Done(d, Cut, Rest(second))
        case Fails => Overwritten(d, names[1..], true, Rest(second))
        case Fine =>
          Overwritten(d.(boot := d.boot[names[0] := d.backup.value.files[names[0]]]), names[1..], failed, Rest(second))
  }

  /** The trial goes first and the backup last; failures are ignored. */
  function Dropped(d: Disk, luck: seq<Luck>): Done {
    if First(luck).PowerCut? then Done(d, Cut, Rest(luck))
    else
      var e, second := if First(luck).Fine? then d.(trial := None) else d, Rest(luck);
      if First(second).PowerCut? then Done(e, Cut, Rest(second))
      else
        var third := Rest(second);
        if First(third).PowerCut? then Done(e, Cut, Rest(third))
        else Done(if First(third).Fine? then e.(backup := None) else e, Ok, Rest(third))
  }

  /** What a listing has found, or that the power was cut during it. */
  datatype Listing = Listing(names: seq<string>, cut: bool, luck: seq<Luck>)

  /** The configuration, which selects the kernel, is put last. */
  function WithConfig(got: seq<string>, config: bool): seq<string> {
    if config then got + [CONFIG] else got
  }

  /** Reads the directory entry by entry; when that fails, what has been read is taken for all there is. */
  function Read(entries: seq<string>, got: seq<string>, config: bool, luck: seq<Luck>): Listing
    decreases |entries|
  {
    if entries == [] then Listing(WithConfig(got, config), false, luck)
    else
      match First(luck)
      case PowerCut => Listing([], true, Rest(luck))
      case Fails => Listing(WithConfig(got, config), false, Rest(luck))
      case Fine =>
        if entries[0] == CONFIG then Read(entries[1..], got, true, Rest(luck))
        else Read(entries[1..], got + [entries[0]], config, Rest(luck))
  }

  /** Lists the backup; a directory that cannot be opened looks empty. */
  function ListedBackup(entries: seq<string>, luck: seq<Luck>): Listing {
    match First(luck)
    case PowerCut => Listing([], true, Rest(luck))
    case Fails => Listing([], false, Rest(luck))
    case Fine => Read(entries, [], false, Rest(luck))
  }

  /** The entries of a directory with these files, in the order in which it gives them. */
  ghost predicate Lists(entries: seq<string>, files: Files) {
    && (forall name :: name in entries <==> name in files)
    && (forall i, j :: 0 <= i < j < |entries| ==> entries[i] != entries[j])
  }

  ghost predicate Listed(d: Disk, entries: seq<string>) {
    Complete(d.backup) ==> Lists(entries, d.backup.value.files)
  }

  lemma {:induction false} ReadNames(entries: seq<string>, got: seq<string>, config: bool, luck: seq<Luck>)
    ensures forall name :: name in Read(entries, got, config, luck).names ==> name in entries || name in got || (config && name == CONFIG)
    decreases |entries|
  {
    if entries != [] && First(luck).Fine? {
      if entries[0] == CONFIG {
        ReadNames(entries[1..], got, true, Rest(luck));
      } else {
        ReadNames(entries[1..], got + [entries[0]], config, Rest(luck));
      }
    }
  }

  lemma ListedNames(entries: seq<string>, luck: seq<Luck>)
    ensures forall name :: name in ListedBackup(entries, luck).names ==> name in entries
  {
    ReadNames(entries, [], false, Rest(luck));
  }

  /** Restores what the listing of the backup shows, if there is a backup. */
  ghost function Restoring(d: Disk, entries: seq<string>, luck: seq<Luck>): Done
    requires Listed(d, entries)
  {
    if !Complete(d.backup) then Done(d, Ok, luck)
    else
      var l := ListedBackup(entries, luck);
      ListedNames(entries, luck);
      if l.cut then Done(d, Cut, l.luck) else Overwritten(d, l.names, false, l.luck)
  }

  /** Restores the backup and drops it with the trial. If a file fails, both stay for the next boot. */
  ghost function Reverted(d: Disk, entries: seq<string>, luck: seq<Luck>): Done
    requires Listed(d, entries)
  {
    var r := Restoring(d, entries, luck);
    if r.result == Ok then Dropped(r.disk, r.luck) else r
  }

  /** One start of the bootloader. */
  ghost function Boot(d: Disk, entries: seq<string>, luck: seq<Luck>): Booted
    requires Listed(d, entries)
  {
    var b := Begun(d, luck);
    if b.action == Revert then
      var r := Reverted(b.disk, entries, b.luck);
      Booted(r.disk, Revert, r.luck)
    else b
  }

  // ------------------------------------------------------------------------------------------
  // What each step leaves behind.

  /** Every name holds what it held or what the backup has for it. */
  predicate Mixed(boot: Files, before: Files, files: Files) {
    && (forall name :: name in boot ==> name in before || name in files)
    && (forall name :: name in before ==> name in boot)
    && (forall name :: name in boot ==>
          (name in before && boot[name] == before[name]) || (name in files && boot[name] == files[name]))
  }

  /** Copying changes only what is aside, and without an error all files are there. */
  lemma {:induction false} CopiedFiles(d: Disk, names: seq<string>, luck: seq<Luck>)
    requires d.temp.Some?
    ensures var c := Copied(d, names, luck);
            && c.disk.boot == d.boot && c.disk.backup == d.backup && c.disk.trial == d.trial
            && (c.result == Ok ==>
                  && c.disk.temp.value.version == d.temp.value.version
                  && c.disk.temp.value.files == d.temp.value.files + Picked(d.boot, names))
    decreases |names|
  {
    if names == [] {
      assert Picked(d.boot, names) == map[];
    } else if names[0] !in d.boot {
      assert Picked(d.boot, names) == Picked(d.boot, names[1..]);
      CopiedFiles(d, names[1..], luck);
    } else if First(luck).Fine? {
      assert Picked(d.boot, names) == Picked(d.boot, names[1..])[names[0] := d.boot[names[0]]];
      CopiedFiles(WithCopy(d, names[0]), names[1..], Rest(luck));
    }
  }

  lemma EmptiedKeeps(d: Disk, luck: seq<Luck>)
    requires !Complete(d.backup)
    ensures var e := Emptied(d, luck).disk;
            && e.boot == d.boot && e.trial == d.trial && !Complete(e.backup)
            && (Emptied(d, luck).result == Ok ==> e.temp == Some(Backup(map[], false)))
  {
  }

  lemma PublishedKeeps(d: Disk, luck: seq<Luck>)
    requires d.temp.Some? && !Complete(d.backup)
    ensures var p := Published(d, luck);
            && p.disk.boot == d.boot && p.disk.trial == d.trial
            && (if p.result == Ok then p.disk.backup == Some(Backup(d.temp.value.files, true)) else !Complete(p.disk.backup))
  {
  }

  lemma SavedFiles(d: Disk, kernel: string, luck: seq<Luck>)
    requires !Complete(d.backup)
    ensures var s := Saved(d, kernel, luck);
            && s.disk.boot == d.boot && s.disk.trial == d.trial
            && (if s.result == Ok then s.disk.backup == BackupOf(d.boot, kernel) else !Complete(s.disk.backup))
  {
    hide Emptied, Copied, Published, BootNames;
    var e := Emptied(d, luck);
    EmptiedKeeps(d, luck);
    if e.result == Ok {
      CopiedFiles(e.disk, BootNames(kernel), e.luck);
      var c := Copied(e.disk, BootNames(kernel), e.luck);
      if c.result == Ok {
        assert map[] + Picked(d.boot, BootNames(kernel)) == Snapshot(d.boot, kernel);
        PublishedKeeps(c.disk, c.luck);
      }
    }
  }

  /**
   Preparing an update begins a trial with a complete backup, or leaves the trial as it was. The
   backup is the one that was there, if it was complete, and otherwise one of the boot files.
   */
  lemma PrepareLeaves(d: Disk, kernel: string, luck: seq<Luck>)
    ensures var p := Prepared(d, kernel, luck);
            && p.disk.boot == d.boot && p.disk.trial == (if p.result == Ok then Some(Attempts(0)) else d.trial)
            && (p.result == Ok ==> Complete(p.disk.backup))
            && (d.backup.Some? && d.backup.value.version ==> p.disk.backup == d.backup)
            && (!(d.backup.Some? && d.backup.value.version) && Complete(p.disk.backup) ==> p.disk.backup == BackupOf(d.boot, kernel))
  {
    if !Complete(d.backup) {
      SavedFiles(d, kernel, luck);
    }
  }

  lemma {:induction false} CopiesWithoutTrouble(d: Disk, names: seq<string>)
    requires d.temp.Some?
    ensures Copied(d, names, []).result == Ok && Copied(d, names, []).luck == [] && Copied(d, names, []).disk.temp.Some?
    decreases |names|
  {
    if names != [] {
      CopiesWithoutTrouble(if names[0] in d.boot then WithCopy(d, names[0]) else d, names[1..]);
    }
  }

  /** If nothing goes wrong, an update is prepared. */
  lemma PreparedWithoutTrouble(d: Disk, kernel: string)
    ensures Prepared(d, kernel, []).result == Ok
  {
    if !Complete(d.backup) {
      var e := Emptied(d, []);
      CopiesWithoutTrouble(e.disk, BootNames(kernel));
      CopiedFiles(e.disk, BootNames(kernel), []);
    }
  }

  /** When a boot is granted, and that it is counted; when it reverts; and when it passes for one without a trial. */
  lemma GrantedIff(d: Disk, luck: seq<Luck>)
    ensures var b, second := Begun(d, luck), Rest(luck);
            && (b.action == Attempt <==>
                  d.trial.Some? && First(luck).Fine? && Used(d.trial.value) < MAX_ATTEMPTS &&
                  First(second).Fine? && !First(Rest(second)).PowerCut?)
            && (b.action == Attempt ==> b.disk == d.(trial := Some(Attempts(Used(d.trial.value) + 1))))
            && (b.action == Revert <==>
                  d.trial.Some? && First(luck).Fine? && (Used(d.trial.value) >= MAX_ATTEMPTS || First(second).Fails?))
            && (b.action == NoTrial <==> d.trial.None? || First(luck).Fails?)
            && (b.action == Revert || b.action == NoTrial ==> b.disk == d)
  {
  }

  /** The trial has been removed for certain. */
  predicate RemovesTrial(luck: seq<Luck>) {
    First(luck).Fine?
  }

  /** The backup has been removed for certain. */
  predicate RemovesBackup(luck: seq<Luck>) {
    !First(luck).PowerCut? && !First(Rest(luck)).PowerCut? && First(Rest(Rest(luck))).Fine?
  }

  /** What a confirmation leaves behind, whatever fails and wherever the power is cut. */
  lemma DropLeaves(d: Disk, luck: seq<Luck>)
    ensures var c := Dropped(d, luck);
            && c.disk == d.(trial := if RemovesTrial(luck) then None else d.trial, backup := if RemovesBackup(luck) then None else d.backup)
            && c.result != Error
  {
  }

  /** A trial that nothing could be restored from. */
  predicate Orphaned(d: Disk) {
    d.trial.Some? && !Complete(d.backup)
  }

  /** The trial cannot be removed, and the backup can. */
  predicate Strands(luck: seq<Luck>) {
    First(luck).Fails? && !First(Rest(luck)).PowerCut? && First(Rest(Rest(luck))).Fine?
  }

  /** A confirmation leaves a trial without its backup exactly if the trial's removal fails and all after it works. */
  lemma OrphanedIff(d: Disk, luck: seq<Luck>)
    requires !Orphaned(d)
    ensures Orphaned(Dropped(d, luck).disk) <==> d.trial.Some? && Strands(luck)
  {
  }

  /**
   Whether the backup that the next update finds or makes is the confirmed boot set: exactly if the
   confirmation has removed the backup from before, or there was none, or that was the same.
   */
  lemma BackupIsConfirmedSet(d: Disk, luck: seq<Luck>, kernel: string, later: seq<Luck>)
    requires Prepared(Dropped(d, luck).disk, kernel, later).result == Ok
    ensures Prepared(Dropped(d, luck).disk, kernel, later).disk.backup == BackupOf(d.boot, kernel) <==>
            RemovesBackup(luck) || !Complete(d.backup) || d.backup == BackupOf(d.boot, kernel)
  {
    DropLeaves(d, luck);
    PrepareLeaves(Dropped(d, luck).disk, kernel, later);
  }

  // ------------------------------------------------------------------------------------------
  // Reverts.

  predicate Smooth(luck: seq<Luck>) {
    forall k :: 0 <= k < |luck| ==> luck[k].Fine?
  }

  /** Restoring changes nothing but files of the backup, and all of them if nothing goes wrong. */
  lemma {:induction false} OverwrittenFiles(d: Disk, names: seq<string>, failed: bool, luck: seq<Luck>)
    requires d.backup.Some? && forall name :: name in names ==> name in d.backup.value.files
    ensures var r, files := Overwritten(d, names, failed, luck), d.backup.value.files;
            && r.disk == d.(boot := r.disk.boot) && Mixed(r.disk.boot, d.boot, files)
            && (r.result == Ok ==> !failed && r.disk.boot == d.boot + Picked(files, names))
            && (Smooth(luck) && !failed ==> r.result == Ok && Smooth(r.luck))
    decreases |names|
  {
    var files := d.backup.value.files;
    if names == [] {
      assert d.boot + Picked(files, names) == d.boot;
    } else {
      var second := Rest(luck);
      if First(luck).Fails? {
        OverwrittenFiles(d, names[1..], true, second);
      } else if First(luck).Fine? && First(second).Fails? {
        OverwrittenFiles(d, names[1..], true, Rest(second));
      } else if First(luck).Fine? && First(second).Fine? {
        var e := d.(boot := d.boot[names[0] := files[names[0]]]);
        OverwrittenFiles(e, names[1..], failed, Rest(second));
        assert e.boot + Picked(files, names[1..]) == d.boot + Picked(files, names);
      }
    }
  }

  function SavedIn(backup: Option<Backup>): Files {
    if Complete(backup) then backup.value.files else map[]
  }

  /** The listing of the backup that a revert works with. */
  function Shown(d: Disk, entries: seq<string>, luck: seq<Luck>): seq<string> {
    if Complete(d.backup) then ListedBackup(entries, luck).names else []
  }

  /**
   A revert that removes anything has restored what its listing showed; one that fails or is cut
   before that leaves trial and backup for the next boot.
   */
  lemma RevertLeaves(d: Disk, entries: seq<string>, luck: seq<Luck>)
    requires Listed(d, entries)
    ensures var r, files := Reverted(d, entries, luck), SavedIn(d.backup);
            && Mixed(r.disk.boot, d.boot, files) && r.disk.temp == d.temp
            && r.disk.trial in {None, d.trial} && r.disk.backup in {None, d.backup}
            && (r.result == Error ==> r.disk == d.(boot := r.disk.boot))
            && (r.disk.trial != d.trial || r.disk.backup != d.backup || r.result == Ok ==>
                  r.disk.boot == d.boot + Picked(files, Shown(d, entries, luck)))
  {
    var files := SavedIn(d.backup);
    assert d.boot + Picked(files, []) == d.boot;
    if Complete(d.backup) {
      var l := ListedBackup(entries, luck);
      ListedNames(entries, luck);
      if !l.cut {
        OverwrittenFiles(d, l.names, false, l.luck);
      }
    }
    var o := Restoring(d, entries, luck);
    if o.result == Ok {
      DropLeaves(o.disk, o.luck);
    }
  }

  // ------------------------------------------------------------------------------------------
  // Listings that fail.

  predicate Undisturbed(luck: seq<Luck>, n: nat) {
    n == 0 || (First(luck).Fine? && Undisturbed(Rest(luck), n - 1))
  }

  /** Opening the directory and reading each of its entries works. */
  predicate ListsAll(entries: seq<string>, luck: seq<Luck>) {
    if entries == [] then !First(luck).PowerCut? else Undisturbed(luck, |entries| + 1)
  }

  lemma {:induction false} ReadAllIff(entries: seq<string>, got: seq<string>, config: bool, luck: seq<Luck>)
    requires forall i, j :: 0 <= i < j < |entries| ==> entries[i] != entries[j]
    requires (forall name :: name in got ==> name !in entries && name != CONFIG) && (config ==> CONFIG !in entries)
    ensures var l := Read(entries, got, config, luck);
            && (!l.cut ==> (forall name :: name in got ==> name in l.names) && (config ==> CONFIG in l.names))
            && (!l.cut && (forall name :: name in entries ==> name in l.names) <==> Undisturbed(luck, |entries|))
    decreases |entries|
  {
    if entries != [] {
      var first := entries[0];
      assert first in entries && forall name :: name in entries <==> name == first || name in entries[1..];
      if First(luck).Fine? {
        if first == CONFIG {
          ReadAllIff(entries[1..], got, true, Rest(luck));
        } else {
          ReadAllIff(entries[1..], got + [first], config, Rest(luck));
          assert first in got + [first];
        }
      }
    }
  }

  /** The listing shows the whole backup exactly if opening and reading the directory works throughout. */
  lemma ListsAllIff(entries: seq<string>, files: Files, luck: seq<Luck>)
    requires Lists(entries, files)
    ensures var l := ListedBackup(entries, luck);
            !l.cut && (forall name :: name in files ==> name in l.names) <==> ListsAll(entries, luck)
  {
    ReadAllIff(entries, [], false, Rest(luck));
    assert entries != [] ==> entries[0] in files;
    assert entries == [] ==> forall name :: name !in files;
  }

  /** The file is as the backup has it. */
  predicate AsSaved(boot: Files, files: Files, name: string) {
    name in files ==> name in boot && boot[name] == files[name]
  }

  /**
   When a revert that removes trial or backup has restored the whole backup: exactly if every file it
   did not list was as in the backup already, and in any case if its listing did not fail.
   */
  lemma RemovalRestoresIff(d: Disk, entries: seq<string>, luck: seq<Luck>)
    requires Listed(d, entries)
    requires var r := Reverted(d, entries, luck).disk; r.trial != d.trial || r.backup != d.backup
    ensures var r, files := Reverted(d, entries, luck).disk, SavedIn(d.backup);
            && (r.boot == d.boot + files <==>
                  forall name :: name !in Shown(d, entries, luck) ==> AsSaved(d.boot, files, name))
            && (Complete(d.backup) && ListsAll(entries, luck) ==> r.boot == d.boot + files)
  {
    RevertLeaves(d, entries, luck);
    var shown, files := Shown(d, entries, luck), SavedIn(d.backup);
    PickedRestores(d.boot, files, shown);
    if Complete(d.backup) {
      ListsAllIff(entries, files, luck);
    }
  }

  lemma PickedRestores(boot: Files, files: Files, shown: seq<string>)
    ensures boot + Picked(files, shown) == boot + files <==> forall name :: name !in shown ==> AsSaved(boot, files, name)
  {
    var some, all := boot + Picked(files, shown), boot + files;
    if forall name :: name !in shown ==> AsSaved(boot, files, name) {
      forall name | name in all
        ensures name in some && some[name] == all[name]
      {
        assert name in shown || AsSaved(boot, files, name);
      }
      assert some.Keys == all.Keys;
    } else {
      var name :| name !in shown && !AsSaved(boot, files, name);
      assert name in all && all[name] == files[name];
      assert name in some ==> some[name] == boot[name];
    }
  }

  // ------------------------------------------------------------------------------------------
  // Whole trials.

  lemma {:induction false} SmoothLists(luck: seq<Luck>, n: nat)
    requires Smooth(luck)
    ensures Undisturbed(luck, n)
  {
    if n > 0 {
      SmoothLists(Rest(luck), n - 1);
    }
  }

  lemma {:induction false} SmoothRead(entries: seq<string>, got: seq<string>, config: bool, luck: seq<Luck>)
    requires Smooth(luck)
    ensures !Read(entries, got, config, luck).cut && Smooth(Read(entries, got, config, luck).luck)
    decreases |entries|
  {
    if entries != [] {
      if entries[0] == CONFIG {
        SmoothRead(entries[1..], got, true, Rest(luck));
      } else {
        SmoothRead(entries[1..], got + [entries[0]], config, Rest(luck));
      }
    }
  }

  /** The boot files of an update: the two archives, the command line, the configuration and the running kernel. */
  predicate IsBootFile(name: string, kernel: string) {
    name in ["initramfs.cpio.gz", "program.cpio.gz", "cmdline.txt", "config.txt", kernel]
  }

  /**
   An update undone. Whatever an installation writes after the preparation, a revert that lists the
   whole backup and removes trial or backup gives back every boot file that was there before; what
   else was installed stays, be it a kernel under another name, and nothing else changes.
   */
  lemma UpdateUndone(d: Disk, kernel: string, prep: seq<Luck>, installed: Files, entries: seq<string>, luck: seq<Luck>)
    requires !Complete(d.backup) && Prepared(d, kernel, prep).result == Ok
    requires Listed(Prepared(d, kernel, prep).disk, entries) && ListsAll(entries, luck)
    requires var e := Prepared(d, kernel, prep).disk.(boot := d.boot + installed);
             Reverted(e, entries, luck).disk.trial.None? || Reverted(e, entries, luck).disk.backup.None?
    ensures var after := Reverted(Prepared(d, kernel, prep).disk.(boot := d.boot + installed), entries, luck).disk.boot;
            && after.Keys == d.boot.Keys + installed.Keys
            && (forall name :: name in d.boot && (IsBootFile(name, kernel) || name !in installed) ==> after[name] == d.boot[name])
            && (forall name :: name in installed && !(name in d.boot && IsBootFile(name, kernel)) ==> after[name] == installed[name])
  {
    hide Prepared, Reverted, ListsAll;
    PrepareLeaves(d, kernel, prep);
    var p := Prepared(d, kernel, prep).disk;
    var e := p.(boot := d.boot + installed);
    RemovalRestoresIff(e, entries, luck);
    var after, files := Reverted(e, entries, luck).disk.boot, Snapshot(d.boot, kernel);
    assert SavedIn(e.backup) == files && after == e.boot + files;
    assert forall name :: name in files <==> name in d.boot && IsBootFile(name, kernel);
  }

  /** If nothing fails, a revert restores the backup and removes it and the trial. */
  lemma SmoothRevert(d: Disk, entries: seq<string>, luck: seq<Luck>)
    requires Listed(d, entries) && Smooth(luck)
    ensures var r := Reverted(d, entries, luck);
            r.result == Ok && r.disk == d.(boot := Restored(d), trial := None, backup := None)
  {
    RevertLeaves(d, entries, luck);
    SmoothLists(luck, |entries| + 1);
    SmoothRead(entries, [], false, Rest(luck));
    var o := Restoring(d, entries, luck);
    assert o.result == Ok && Smooth(o.luck) by {
      if Complete(d.backup) {
        var l := ListedBackup(entries, luck);
        ListedNames(entries, luck);
        OverwrittenFiles(d, l.names, false, l.luck);
      }
    }
    DropLeaves(o.disk, o.luck);
    if d.trial.Some? || d.backup.Some? {
      RemovalRestoresIff(d, entries, luck);
    }
    if !Complete(d.backup) {
      assert d.boot + map[] == d.boot;
    }
  }

  /** The names of backed-up files that a boot has lost: it dropped the backup or the trial and had not listed them. */
  ghost function Missed(d: Disk, entries: seq<string>, luck: seq<Luck>): set<string>
    requires Listed(d, entries)
  {
    var b, after := Begun(d, luck), Boot(d, entries, luck).disk;
    if !Removed(d, after) then {}
    else set name | name in SavedIn(d.backup) && name !in Shown(d, entries, b.luck)
  }

  predicate Removed(d: Disk, after: Disk) {
    (d.trial.Some? && after.trial.None?) || after.backup != d.backup
  }

  /** A run of boots so far: the disk, how many boots have been granted, and which files were missed. */
  datatype Trial = Trial(disk: Disk, grants: nat, missed: set<string>)

  /** Boots in a row, none of them confirmed, each with its own luck. */
  ghost function Boots(d: Disk, entries: seq<string>, lucks: seq<seq<Luck>>): (t: Trial)
    requires Listed(d, entries)
    ensures Listed(t.disk, entries)
  {
    if lucks == [] then Trial(d, 0, {})
    else
      var before, luck := Boots(d, entries, lucks[..|lucks| - 1]), lucks[|lucks| - 1];
      var b := Boot(before.disk, entries, luck);
      BootLeaves(before.disk, entries, luck);
      Trial(b.disk, before.grants + if b.action == Attempt then 1 else 0, before.missed + Missed(before.disk, entries, luck))
  }

  /** One boot counts, restores or does nothing. */
  lemma BootLeaves(d: Disk, entries: seq<string>, luck: seq<Luck>)
    requires Listed(d, entries)
    ensures var b, files := Boot(d, entries, luck), SavedIn(d.backup);
            && Listed(b.disk, entries) && Mixed(b.disk.boot, d.boot, files) && b.disk.backup in {None, d.backup}
            && (d.trial.None? ==> b.disk == d && b.action == NoTrial)
            && (d.trial.Some? && b.disk.trial.Some? ==>
                  && Used(b.disk.trial.value) >= Used(d.trial.value)
                  && (b.action == Attempt ==> Used(d.trial.value) < MAX_ATTEMPTS && Used(b.disk.trial.value) == Used(d.trial.value) + 1)
                  && (Smooth(luck) ==> b.action == Attempt))
            && (Removed(d, b.disk) ==> b.action == Revert)
  {
    GrantedIff(d, luck);
    var b := Begun(d, luck);
    assert Smooth(luck) ==> Smooth(b.luck);
    if b.action == Revert {
      RevertLeaves(b.disk, entries, b.luck);
      if Smooth(luck) {
        SmoothRevert(b.disk, entries, b.luck);
      }
    } else {
      SameMixed(d.boot, SavedIn(d.backup));
    }
  }

  /** What a boot that removes trial or backup has restored: all but what it missed. */
  lemma BootRestores(d: Disk, entries: seq<string>, luck: seq<Luck>)
    requires Listed(d, entries)
    ensures var b, files, missed := Boot(d, entries, luck).disk, SavedIn(d.backup), Missed(d, entries, luck);
            && (forall name :: name in missed ==> name in files)
            && (Removed(d, b) ==> forall name :: name !in missed ==> AsSaved(b.boot, files, name))
            && (ListsWell(d, entries, luck) ==> missed == {})
  {
    BootLeaves(d, entries, luck);
    var b := Begun(d, luck);
    GrantedIff(d, luck);
    if Removed(d, Boot(d, entries, luck).disk) {
      RevertLeaves(d, entries, b.luck);
      if Complete(d.backup) {
        ListsAllIff(entries, SavedIn(d.backup), b.luck);
      }
    }
  }

  /** If this boot reverts, its listing of the backup does not fail. */
  ghost predicate ListsWell(d: Disk, entries: seq<string>, luck: seq<Luck>) {
    Complete(d.backup) ==> ListsAll(entries, Begun(d, luck).luck)
  }

  /** The boot files with everything in the backup put back and nothing else changed. */
  function Restored(d: Disk): Files {
    d.boot + SavedIn(d.backup)
  }

  lemma OverAgain(boot: Files, before: Files, files: Files)
    requires Mixed(boot, before, files)
    ensures boot + files == before + files && Mixed(boot + files, before, files)
  {
  }

  lemma MixedTwice(a: Files, b: Files, before: Files, files: Files)
    requires Mixed(a, before, files) && Mixed(b, a, files)
    ensures Mixed(b, before, files)
  {
  }

  lemma MixedNone(a: Files, b: Files)
    requires Mixed(b, a, map[])
    ensures a == b
  {
  }

  lemma SameMixed(boot: Files, files: Files)
    ensures Mixed(boot, boot, files)
  {
  }

  /** Mixed files are the restored ones exactly if each is as in the backup. */
  lemma RestoredIff(boot: Files, before: Files, files: Files, missed: set<string>)
    requires Mixed(boot, before, files) && forall name :: name !in missed ==> AsSaved(boot, files, name)
    ensures boot == before + files <==> forall name :: name in missed ==> AsSaved(boot, files, name)
  {
    if forall name :: name in missed ==> AsSaved(boot, files, name) {
      forall name | name in before + files
        ensures name in boot && boot[name] == (before + files)[name]
      {
        assert AsSaved(boot, files, name);
      }
      assert boot.Keys == (before + files).Keys;
    }
  }

  /**
   Whatever fails and wherever the power is cut, over any number of boots: each file is the update's
   or the backup's. Once the trial or the backup is gone the whole backup has been restored if and
   only if every file that was missed is as in the backup.
   */
  lemma TrialRestores(d: Disk, entries: seq<string>, lucks: seq<seq<Luck>>)
    requires d.trial.Some? && Complete(d.backup) && Listed(d, entries)
    ensures var t, files := Boots(d, entries, lucks), d.backup.value.files;
            && Mixed(t.disk.boot, d.boot, files) && t.disk.backup in {None, d.backup}
            && (t.disk.trial.None? || t.disk.backup.None? ==>
                  (t.disk.boot == Restored(d) <==> forall name :: name in t.missed ==> AsSaved(t.disk.boot, files, name)))
  {
    TrialMixed(d, entries, lucks);
    var t := Boots(d, entries, lucks);
    if t.disk.trial.None? || t.disk.backup.None? {
      RestoredIff(t.disk.boot, d.boot, d.backup.value.files, t.missed);
    }
  }

  lemma {:induction false} TrialMixed(d: Disk, entries: seq<string>, lucks: seq<seq<Luck>>)
    requires d.trial.Some? && Complete(d.backup) && Listed(d, entries)
    ensures var t, files := Boots(d, entries, lucks), d.backup.value.files;
            && Mixed(t.disk.boot, d.boot, files) && t.disk.backup in {None, d.backup}
            && (t.disk.trial.None? || t.disk.backup.None? ==> forall name :: name !in t.missed ==> AsSaved(t.disk.boot, files, name))
    decreases |lucks|
  {
    if lucks != [] {
      hide Boot, Mixed, Listed, Missed, AsSaved;
      var before, luck := Boots(d, entries, lucks[..|lucks| - 1]), lucks[|lucks| - 1];
      var b, files := Boot(before.disk, entries, luck), d.backup.value.files;
      TrialMixed(d, entries, lucks[..|lucks| - 1]);
      BootLeaves(before.disk, entries, luck);
      BootRestores(before.disk, entries, luck);
      if before.disk.backup.None? {
        MixedNone(before.disk.boot, b.disk.boot);
      } else {
        MixedTwice(before.disk.boot, b.disk.boot, d.boot, files);
      }
    } else {
      SameMixed(d.boot, d.backup.value.files);
    }
  }

  /** If no boot's listing fails, nothing is missed, and the end of the trial means that all is restored. */
  lemma {:induction false} NothingMissed(d: Disk, entries: seq<string>, lucks: seq<seq<Luck>>)
    requires Listed(d, entries)
    requires forall k :: 0 <= k < |lucks| ==> ListsWell(Boots(d, entries, lucks[..k]).disk, entries, lucks[k])
    ensures Boots(d, entries, lucks).missed == {}
    decreases |lucks|
  {
    if lucks != [] {
      hide Boot, Listed, Missed, ListsWell;
      var init := lucks[..|lucks| - 1];
      forall k | 0 <= k < |init|
        ensures ListsWell(Boots(d, entries, init[..k]).disk, entries, init[k])
      {
        assert init[..k] == lucks[..k];
      }
      NothingMissed(d, entries, init);
      BootRestores(Boots(d, entries, init).disk, entries, lucks[|lucks| - 1]);
    }
  }

  /** How many boots a trial may still be granted. */
  function Left(trial: Option<Counter>): nat {
    if trial.Some? && Used(trial.value) < MAX_ATTEMPTS then MAX_ATTEMPTS - Used(trial.value) else 0
  }

  function CountSmooth(lucks: seq<seq<Luck>>): nat {
    if lucks == [] then 0
    else CountSmooth(lucks[..|lucks| - 1]) + if Smooth(lucks[|lucks| - 1]) then 1 else 0
  }

  /**
   Over any number of boots with any luck, no more are granted than the counter leaves, and as soon as
   more of them than that have gone smoothly the trial has ended.
   */
  lemma {:induction false} TrialEnds(d: Disk, entries: seq<string>, lucks: seq<seq<Luck>>)
    requires Listed(d, entries)
    ensures var t := Boots(d, entries, lucks);
            && t.grants + Left(t.disk.trial) <= Left(d.trial)
            && (t.disk.trial.Some? ==> d.trial.Some? && CountSmooth(lucks) + Left(t.disk.trial) <= Left(d.trial))
    decreases |lucks|
  {
    if lucks != [] {
      hide Boot, Mixed, Listed, Smooth, Missed;
      TrialEnds(d, entries, lucks[..|lucks| - 1]);
      BootLeaves(Boots(d, entries, lucks[..|lucks| - 1]).disk, entries, lucks[|lucks| - 1]);
    }
  }

  /**
   Once the attempts are used up, and unless the backup has been dropped already, the first boot that
   goes smoothly ends the trial with everything restored.
   */
  lemma UsedUpThenRestored(d: Disk, entries: seq<string>, lucks: seq<seq<Luck>>, luck: seq<Luck>)
    requires d.trial.Some? && Complete(d.backup) && Listed(d, entries) && Smooth(luck)
    requires var t := Boots(d, entries, lucks); t.disk.trial.Some? && Used(t.disk.trial.value) >= MAX_ATTEMPTS
    ensures var before, t := Boots(d, entries, lucks), Boots(d, entries, lucks + [luck]);
            && t.disk.trial.None? && t.disk.backup.None? && t.grants == before.grants
            && (before.disk.backup.Some? ==> t.disk.boot == Restored(d))
            && (before.disk.backup.None? ==> t.disk.boot == before.disk.boot)
  {
    hide Mixed, Listed, Missed, Reverted;
    assert (lucks + [luck])[..|lucks|] == lucks;
    var before := Boots(d, entries, lucks).disk;
    TrialMixed(d, entries, lucks);
    GrantedIff(before, luck);
    assert Smooth(Rest(luck));
    SmoothRevert(before, entries, Rest(luck));
    OverAgain(before.boot, d.boot, d.backup.value.files);
    assert before.boot + map[] == before.boot;
  }

  /**
   If nothing ever fails: as many boots are granted as there are, up to the limit, and the one after
   that restores everything and ends the trial.
   */
  lemma {:induction false} SmoothTrial(d: Disk, entries: seq<string>, lucks: seq<seq<Luck>>)
    requires d.trial.Some? && Complete(d.backup) && Listed(d, entries)
    requires forall k :: 0 <= k < |lucks| ==> Smooth(lucks[k])
    ensures var t := Boots(d, entries, lucks);
            && t.grants == Least(|lucks|, Left(d.trial))
            && (t.disk.trial.None? <==> |lucks| > Left(d.trial))
            && (if t.disk.trial.None? then t.disk.boot == Restored(d) && t.disk.backup.None?
                else t.disk == d.(trial := t.disk.trial) && Left(t.disk.trial) + |lucks| == Left(d.trial))
    decreases |lucks|
  {
    if lucks != [] {
      hide Mixed, Listed, Reverted, Missed;
      var init, luck := lucks[..|lucks| - 1], lucks[|lucks| - 1];
      SmoothTrial(d, entries, init);
      var before := Boots(d, entries, init).disk;
      GrantedIff(before, luck);
      if before.trial.Some? && Left(before.trial) == 0 {
        assert Smooth(Rest(luck));
        SmoothRevert(before, entries, Rest(luck));
      }
      assert First(luck).Fine? && First(Rest(luck)).Fine? && First(Rest(Rest(luck))).Fine?;
    }
  }

  predicate ConfigAtEnd(names: seq<string>) {
    forall i :: 0 <= i < |names| - 1 ==> names[i] != CONFIG
  }

  lemma {:induction false} ConfigReadLast(entries: seq<string>, got: seq<string>, config: bool, luck: seq<Luck>)
    requires CONFIG !in got
    ensures ConfigAtEnd(Read(entries, got, config, luck).names)
    decreases |entries|
  {
    forall i | 0 <= i < |got|
      ensures WithConfig(got, config)[i] != CONFIG
    {
      assert got[i] in got;
    }
    if entries != [] && First(luck).Fine? {
      if entries[0] == CONFIG {
        ConfigReadLast(entries[1..], got, true, Rest(luck));
      } else {
        ConfigReadLast(entries[1..], got + [entries[0]], config, Rest(luck));
      }
    }
  }

  predicate NoFailure(luck: seq<Luck>) {
    forall k :: 0 <= k < |luck| ==> !luck[k].Fails?
  }

  lemma {:induction false} OverwrittenConfig(d: Disk, names: seq<string>, luck: seq<Luck>)
    requires Complete(d.backup) && (forall name :: name in names ==> name in d.backup.value.files) && NoFailure(luck)
    requires ConfigAtEnd(names)
    ensures var r := Overwritten(d, names, false, luck);
            CONFIG in r.disk.boot && (CONFIG !in d.boot || r.disk.boot[CONFIG] != d.boot[CONFIG]) ==>
              r.result == Ok && r.disk.boot == d.boot + Picked(d.backup.value.files, names)
    decreases |names|
  {
    OverwrittenFiles(d, names, false, luck);
    if names != [] && First(luck).Fine? && First(Rest(luck)).Fine? {
      var e := d.(boot := d.boot[names[0] := d.backup.value.files[names[0]]]);
      OverwrittenConfig(e, names[1..], Rest(Rest(luck)));
      assert |names| == 1 ==> names[1..] == [];
      OverwrittenFiles(e, names[1..], false, Rest(Rest(luck)));
    }
  }

  lemma {:induction false} ReadWithoutFailure(entries: seq<string>, got: seq<string>, config: bool, luck: seq<Luck>)
    requires NoFailure(luck) && !Read(entries, got, config, luck).cut
    ensures Undisturbed(luck, |entries|) && NoFailure(Read(entries, got, config, luck).luck)
    decreases |entries|
  {
    if entries != [] {
      if entries[0] == CONFIG {
        ReadWithoutFailure(entries[1..], got, true, Rest(luck));
      } else {
        ReadWithoutFailure(entries[1..], got + [entries[0]], config, Rest(luck));
      }
    }
  }

  /**
   The configuration selects the kernel. Wherever the power is cut, as long as nothing fails, it changes
   only when everything else has been restored.
   */
  lemma ConfigurationLast(d: Disk, entries: seq<string>, luck: seq<Luck>)
    requires Listed(d, entries) && NoFailure(luck)
    ensures var r := Restoring(d, entries, luck).disk;
            CONFIG in r.boot && (CONFIG !in d.boot || r.boot[CONFIG] != d.boot[CONFIG]) ==> r.boot == Restored(d)
  {
    if Complete(d.backup) {
      var l, files := ListedBackup(entries, luck), d.backup.value.files;
      ListedNames(entries, luck);
      if !l.cut {
        ConfigReadLast(entries, [], false, Rest(luck));
        ReadWithoutFailure(entries, [], false, Rest(luck));
        OverwrittenConfig(d, l.names, l.luck);
        ListsAllIff(entries, files, luck);
        assert Picked(files, l.names) == files;
      }
    }
  }

  // ------------------------------------------------------------------------------------------
  // How a trial comes to be without its backup, over every sequence of operations.

  lemma PrepareNeverOrphans(d: Disk, kernel: string, luck: seq<Luck>)
    requires !Orphaned(d)
    ensures !Orphaned(Prepared(d, kernel, luck).disk)
  {
    PrepareLeaves(d, kernel, luck);
  }

  /** A start orphans a trial exactly if it reverts, the restoring works, and the removals strand the trial. */
  lemma BootOrphansIff(d: Disk, entries: seq<string>, luck: seq<Luck>)
    requires Listed(d, entries) && !Orphaned(d)
    ensures Orphaned(Boot(d, entries, luck).disk) <==> BootStrands(d, entries, luck)
  {
    GrantedIff(d, luck);
    var b := Begun(d, luck);
    if b.action == Revert {
      RestoringLeaves(d, entries, b.luck);
      var r := Restoring(d, entries, b.luck);
      if r.result == Ok {
        OrphanedIff(r.disk, r.luck);
      }
    }
  }

  /** Restoring touches neither the trial nor the backup. */
  lemma RestoringLeaves(d: Disk, entries: seq<string>, luck: seq<Luck>)
    requires Listed(d, entries)
    ensures var r := Restoring(d, entries, luck).disk; r == d.(boot := r.boot)
  {
    if Complete(d.backup) {
      var l := ListedBackup(entries, luck);
      ListedNames(entries, luck);
      if !l.cut {
        OverwrittenFiles(d, l.names, false, l.luck);
      }
    }
  }

  ghost predicate BootStrands(d: Disk, entries: seq<string>, luck: seq<Luck>)
    requires Listed(d, entries)
  {
    var b := Begun(d, luck);
    var r := Restoring(d, entries, b.luck);
    b.action == Revert && r.result == Ok && Strands(r.luck)
  }

  /** What may happen to the device. Installing an update changes boot files only. */
  datatype Event =
    | Preparation(kernel: string, luck: seq<Luck>) | Installation(boot: Files)
    | Start(entries: seq<string>, luck: seq<Luck>) | Confirmation(luck: seq<Luck>)

  /** One event; a start lists the backup that is there. */
  ghost function Step(d: Disk, e: Event): Disk {
    match e
    case Preparation(kernel, luck) => Prepared(d, kernel, luck).disk
    case Installation(boot) => d.(boot := boot)
    case Start(entries, luck) => if Listed(d, entries) then Boot(d, entries, luck).disk else d
    case Confirmation(luck) => Dropped(d, luck).disk
  }

  ghost function Run(d: Disk, events: seq<Event>): Disk {
    if events == [] then d else Step(Run(d, events[..|events| - 1]), events[|events| - 1])
  }

  /** The event orphans the trial. */
  ghost predicate Stranding(d: Disk, e: Event) {
    && d.trial.Some? && !Orphaned(d)
    && match e
       case Preparation(_, _) => false
       case Installation(_) => false
       case Start(entries, luck) => Listed(d, entries) && BootStrands(d, entries, luck)
       case Confirmation(luck) => Strands(luck)
  }

  /** The event ends an orphaned trial or gives it a backup: its file is removed, or an update saves the boot files. */
  ghost predicate Mending(d: Disk, e: Event) {
    && Orphaned(d)
    && match e
       case Preparation(kernel, luck) => Saved(d, kernel, luck).result == Ok
       case Installation(_) => false
       case Start(entries, luck) => Begun(d, luck).action == Revert && RemovesTrial(Begun(d, luck).luck)
       case Confirmation(luck) => RemovesTrial(luck)
  }

  lemma PrepareMendsIff(d: Disk, kernel: string, luck: seq<Luck>)
    requires Orphaned(d)
    ensures Orphaned(Prepared(d, kernel, luck).disk) <==> Saved(d, kernel, luck).result != Ok
  {
    SavedFiles(d, kernel, luck);
  }

  lemma StepOrphansIff(d: Disk, e: Event)
    ensures Orphaned(Step(d, e)) <==> if Orphaned(d) then !Mending(d, e) else Stranding(d, e)
  {
    match e
    case Preparation(kernel, luck) =>
      if Orphaned(d) {
        PrepareMendsIff(d, kernel, luck);
      } else {
        PrepareNeverOrphans(d, kernel, luck);
      }
    case Installation(_) =>
    case Start(entries, luck) =>
      if Orphaned(d) {
        GrantedIff(d, luck);
      } else if Listed(d, entries) {
        BootOrphansIff(d, entries, luck);
        GrantedIff(d, luck);
      }
    case Confirmation(luck) =>
      if !Orphaned(d) {
        OrphanedIff(d, luck);
      }
  }

  /** At step k the trial is orphaned, and nothing since has mended that. */
  ghost predicate StrandedAt(d: Disk, events: seq<Event>, k: nat) {
    && k < |events| && Stranding(Run(d, events[..k]), events[k])
    && forall j :: k < j < |events| ==> !Mending(Run(d, events[..j]), events[j])
  }

  lemma StrandedBefore(d: Disk, events: seq<Event>, k: nat)
    requires k < |events| - 1
    ensures var n := |events| - 1;
            StrandedAt(d, events, k) <==> StrandedAt(d, events[..n], k) && !Mending(Run(d, events[..n]), events[n])
  {
    hide Stranding, Mending, Run;
    var n := |events| - 1;
    forall j | 0 <= j < n
      ensures events[..n][..j] == events[..j]
    {
    }
  }

  lemma StrandedLast(d: Disk, events: seq<Event>)
    requires events != []
    ensures var n := |events| - 1; StrandedAt(d, events, n) <==> Stranding(Run(d, events[..n]), events[n])
  {
    hide Stranding, Mending, Run;
  }

  ghost predicate Stranded(d: Disk, events: seq<Event>) {
    exists k: nat :: k < |events| && StrandedAt(d, events, k)
  }

  lemma StrandedStep(d: Disk, events: seq<Event>)
    requires events != []
    ensures var n := |events| - 1;
            var before := Run(d, events[..n]);
            Stranded(d, events) <==> Stranding(before, events[n]) || (Stranded(d, events[..n]) && !Mending(before, events[n]))
  {
    hide Stranding, Mending, Run, StrandedAt;
    var n := |events| - 1;
    StrandedLast(d, events);
    forall k: nat | k < n
      ensures StrandedAt(d, events, k) <==> StrandedAt(d, events[..n], k) && !Mending(Run(d, events[..n]), events[n])
    {
      StrandedBefore(d, events, k);
    }
  }

  /**
   Over every sequence of preparations, installations, starts and confirmations with any failures and
   cuts: a pending trial has no backup if and only if some step has stranded it and none has mended that.
   */
  lemma {:induction false} OrphanedRunIff(d: Disk, events: seq<Event>)
    requires !Orphaned(d)
    ensures Orphaned(Run(d, events)) <==> Stranded(d, events)
    decreases |events|
  {
    if events != [] {
      hide Stranding, Mending, Orphaned, Step, Stranded;
      var n := |events| - 1;
      var before := Run(d, events[..n]);
      OrphanedRunIff(d, events[..n]);
      StepOrphansIff(before, events[n]);
      OnlyOne(before, events[n]);
      StrandedStep(d, events);
    }
  }

  lemma OnlyOne(d: Disk, e: Event)
    ensures Stranding(d, e) ==> !Orphaned(d)
    ensures Mending(d, e) ==> Orphaned(d)
  {
  }

  // ------------------------------------------------------------------------------------------
  // Where a kept backup is not the last confirmed boot set.

  /**
   Power cut during a confirmation, after the trial is gone and before its backup is: the next
   update keeps that backup, and reverting it would bring back the set before the confirmed one.
   */
  lemma ConfirmCutKeepsStaleBackup(first: Files, second: Files, kernel: string)
    ensures var p := Prepared(Disk(first, None, None, None), kernel, []);
            var c := Dropped(p.disk.(boot := second), [Fine, Fine, PowerCut]);
            var q := Prepared(c.disk, kernel, []);
            && p.result == q.result == Ok && c.disk.trial.None? && q.disk.trial == Some(Attempts(0))
            && q.disk.backup == BackupOf(first, kernel) && Restored(q.disk) == second + Snapshot(first, kernel)
  {
    var start := Disk(first, None, None, None);
    var p := Prepared(start, kernel, []);
    PrepareLeaves(start, kernel, []);
    PreparedWithoutTrouble(start, kernel);
    var c := Dropped(p.disk.(boot := second), [Fine, Fine, PowerCut]);
    DropLeaves(p.disk.(boot := second), [Fine, Fine, PowerCut]);
    PrepareLeaves(c.disk, kernel, []);
    PreparedWithoutTrouble(c.disk, kernel);
  }

  /** If the trial file cannot be removed, the backup still goes and a trial is pending without one. */
  lemma StuckTrialLosesBackup(first: Files, kernel: string)
    ensures var p := Prepared(Disk(first, None, None, None), kernel, []);
            !Orphaned(p.disk) && Orphaned(Dropped(p.disk, [Fails]).disk)
  {
    var start := Disk(first, None, None, None);
    PrepareLeaves(start, kernel, []);
    PreparedWithoutTrouble(start, kernel);
    OrphanedIff(Prepared(start, kernel, []).disk, [Fails]);
  }

  /** As long as the trial file cannot be read, the trial's image boots uncounted, however often. */
  lemma {:induction false} UnreadIsUncounted(d: Disk, entries: seq<string>, lucks: seq<seq<Luck>>)
    requires Listed(d, entries) && forall k :: 0 <= k < |lucks| ==> First(lucks[k]).Fails?
    ensures Boots(d, entries, lucks) == Trial(d, 0, {})
    ensures forall k :: 0 <= k < |lucks| ==> Boot(d, entries, lucks[k]).action == NoTrial
    decreases |lucks|
  {
    if lucks != [] {
      UnreadIsUncounted(d, entries, lucks[..|lucks| - 1]);
      GrantedIff(d, lucks[|lucks| - 1]);
    }
  }

  /** A revert can do it as well, with no confirmation anywhere. */
  lemma RevertLosesBackup(boot: Files)
    ensures var d := Disk(boot, Some(Backup(map[], true)), None, Some(Attempts(MAX_ATTEMPTS)));
            && Listed(d, []) && !Orphaned(d) && Begun(d, [Fine, Fine, Fails]).action == Revert && Orphaned(Boot(d, [], [Fine, Fine, Fails]).disk)
  {
    var d := Disk(boot, Some(Backup(map[], true)), None, Some(Attempts(MAX_ATTEMPTS)));
    assert Begun(d, [Fine, Fine, Fails]) == Booted(d, Revert, [Fine, Fails]);
    assert ListedBackup([], [Fine, Fails]) == Listing([], false, [Fails]);
    BootOrphansIff(d, [], [Fine, Fine, Fails]);
  }

  /**
   An update is prepared and installed, and its three boots stay unconfirmed. At the fourth start the
   backup's directory cannot be opened: nothing is restored, and backup and trial are dropped.
   */
  lemma UnreadableBackupIsDropped(first: Files, second: Files, kernel: string, entries: seq<string>)
    requires var p := Prepared(Disk(first, None, None, None), kernel, []); Listed(p.disk, entries)
    ensures var p := Prepared(Disk(first, None, None, None), kernel, []);
            var t := Boots(p.disk.(boot := second), entries, [[], [], [], [Fine, Fails]]);
            && p.result == Ok && p.disk.backup == BackupOf(first, kernel)
            && t.disk == p.disk.(boot := second, trial := None, backup := None) && t.grants == MAX_ATTEMPTS
            && t.missed == Snapshot(first, kernel).Keys
  {
    var start := Disk(first, None, None, None);
    PrepareLeaves(start, kernel, []);
    PreparedWithoutTrouble(start, kernel);
    var d := Prepared(start, kernel, []).disk.(boot := second);
    var three: seq<seq<Luck>> := [[], [], []];
    SmoothTrial(d, entries, three);
    var u := Boots(d, entries, three).disk;
    assert [[], [], [], [Fine, Fails]][..3] == three;
    ThreeMissNothing(d, entries);
    assert Begun(u, [Fine, Fails]) == Booted(u, Revert, [Fails]);
    assert Restoring(u, entries, [Fails]) == Done(u, Ok, []);
    DropLeaves(u, []);
    assert Missed(u, entries, [Fine, Fails]) == SavedIn(u.backup).Keys;
  }

  lemma ThreeMissNothing(d: Disk, entries: seq<string>)
    requires Listed(d, entries)
    ensures Boots(d, entries, [[], [], []]).missed == {}
  {
    var three: seq<seq<Luck>> := [[], [], []];
    forall k | 0 <= k < 3
      ensures ListsWell(Boots(d, entries, three[..k]).disk, entries, three[k])
    {
      SmoothLists([], |entries| + 1);
    }
    NothingMissed(d, entries, three);
  }

  // ------------------------------------------------------------------------------------------
  // The device.

  class Device {
    var boot: Files
    var backup: Option<Backup>
    var temp: Option<Backup>
    var trial: Option<Counter>
    /** How the coming operations go; beyond the end they succeed. */
    var luck: seq<Luck>

    ghost function Value(): Disk
      reads this
    {
      Disk(boot, backup, temp, trial)
    }

    constructor (boot: Files)
      ensures Value() == Disk(boot, None, None, None) && luck == []
    {
      this.boot, backup, temp, trial, luck := boot, None, None, None, [];
    }

    method Operation() returns (l: Luck)
      modifies `luck
      ensures l == First(old(luck)) && luck == Rest(old(luck))
    {
      l := Fine;
      if luck != [] {
        l, luck := luck[0], luck[1..];
      }
    }

    method CleanUp() returns (result: Result)
      modifies `temp, `luck
      ensures Done(Value(), result, luck) == CleanedUp(old(Value()), old(luck))
    {
      var l := Operation();
      if l.PowerCut? { return Cut; }
      if l.Fine? {
        temp := None;
      }
      return Error;
    }

    method MakeRoom() returns (result: Result)
      modifies `backup, `temp, `luck
      ensures Done(Value(), result, luck) == Emptied(old(Value()), old(luck))
    {
      var l := Operation();
      if l.PowerCut? { return Cut; }
      if l.Fine? {
        temp := None;
      }
      l := Operation();
      if l.PowerCut? { return Cut; }
      if l.Fine? {
        backup := None;
      }
      l := Operation();
      if l.PowerCut? { return Cut; }
      if l.Fails? || temp.Some? { return Error; }
      temp := Some(Backup(map[], false));
      return Ok;
    }

    /** Copies the boot files aside, whichever of them are there. */
    method CopyBootFiles(names: seq<string>) returns (result: Result)
      requires temp.Some?
      modifies `temp, `luck
      ensures Done(Value(), result, luck) == Copied(old(Value()), names, old(luck))
    {
      for i := 0 to |names|
        invariant temp.Some? && Copied(old(Value()), names, old(luck)) == Copied(Value(), names[i..], luck)
      {
        if names[i] in boot {
          var l := Operation();
          if l.PowerCut? { return Cut; }
          if l.Fails? {
            result := CleanUp();
            return;
          }
          temp := Some(temp.value.(files := temp.value.files[names[i] := boot[names[i]]]));
        }
      }
      return Ok;
    }

    /** The copy counts only once it is complete and has been renamed into place. */
    method Publish() returns (result: Result)
      requires temp.Some?
      modifies `backup, `temp, `luck
      ensures Done(Value(), result, luck) == Published(old(Value()), old(luck))
    {
      var l := Operation();
      if l.PowerCut? { return Cut; }
      if l.Fails? {
        result := CleanUp();
        return;
      }
      temp := Some(temp.value.(version := true));
      l := Operation();
      if l.PowerCut? { return Cut; }
      if l.Fails? || backup.Some? {
        result := CleanUp();
        return;
      }
      backup, temp := temp, None;
      return Ok;
    }

    /** Prepares an update; `PrepareLeaves` says what that means. */
    method PrepareUpdate(kernel: string) returns (result: Result)
      modifies this
      ensures Done(Value(), result, luck) == Prepared(old(Value()), kernel, old(luck))
    {
      if !Complete(backup) {
        result := MakeRoom();
        if result != Ok { return; }
        result := CopyBootFiles(BootNames(kernel));
        if result != Ok { return; }
        result := Publish();
        if result != Ok { return; }
      }
      var l := Operation();
      if l.PowerCut? { return Cut; }
      l := Operation();
      if l.PowerCut? { return Cut; }
      if l.Fails? { return Error; }
      trial := Some(Attempts(0));
      return Ok;
    }

    /** Grants a boot only after the attempt has been counted durably; see `GrantedIff`. */
    method BeginBoot() returns (action: BootAction)
      modifies `trial, `luck
      ensures Booted(Value(), action, luck) == Begun(old(Value()), old(luck))
    {
      if trial.None? {
        return NoTrial;
      }
      var l := Operation();
      if l.PowerCut? { return CutShort; }
      if l.Fails? { return NoTrial; }
      var attempts := if trial.value.Attempts? then trial.value.n else MAX_ATTEMPTS;
      if attempts >= MAX_ATTEMPTS {
        return Revert;
      }
      l := Operation();
      if l.PowerCut? { return CutShort; }
      if l.Fails? { return Revert; }
      trial := Some(Attempts(attempts + 1));
      l := Operation();
      if l.PowerCut? { return CutShort; }
      return Attempt;
    }

    /** Restores the listed files one by one, going on after a failure. */
    method RestoreFiles(names: seq<string>) returns (result: Result)
      requires backup.Some? && forall name :: name in names ==> name in backup.value.files
      modifies `boot, `luck
      ensures Done(Value(), result, luck) == Overwritten(old(Value()), names, false, old(luck))
    {
      var failed := false;
      for i := 0 to |names|
        invariant backup == old(backup) && forall name :: name in names[i..] ==> name in backup.value.files
        invariant Overwritten(old(Value()), names, false, old(luck)) == Overwritten(Value(), names[i..], failed, luck)
      {
        assert names[i..][0] == names[i] && names[i..][1..] == names[i + 1..];
        var l := Operation();
        if l.PowerCut? { return Cut; }
        if l.Fine? {
          l := Operation();
          if l.PowerCut? { return Cut; }
        }
        if l.Fails? {
          failed := true;
        } else {
          boot := boot[names[i] := backup.value.files[names[i]]];
        }
      }
      return if failed then Error else Ok;
    }

    /** Lists the backup, the configuration last; a listing that fails is taken for a short one. */
    method ListBackup(entries: seq<string>) returns (names: seq<string>, cut: bool)
      modifies `luck
      ensures Listing(names, cut, luck) == ListedBackup(entries, old(luck))
    {
      var l := Operation();
      if l.PowerCut? { return [], true; }
      if l.Fails? { return [], false; }
      names := [];
      ghost var start := luck;
      var config := false;
      for i := 0 to |entries|
        invariant Read(entries, [], false, start) == Read(entries[i..], names, config, luck)
      {
        assert entries[i..][0] == entries[i] && entries[i..][1..] == entries[i + 1..];
        l := Operation();
        if l.PowerCut? { return [], true; }
        if l.Fails? { break; }
        if entries[i] == CONFIG {
          config := true;
        } else {
          names := names + [entries[i]];
        }
      }
      if config {
        names := names + [CONFIG];
      }
      return names, false;
    }

    /** Restores the backup and ends the trial; see `RevertLeaves`. */
    method RevertBoot(entries: seq<string>) returns (result: Result)
      requires Listed(Value(), entries)
      modifies this
      ensures Done(Value(), result, luck) == Reverted(old(Value()), entries, old(luck))
    {
      if Complete(backup) {
        ListedNames(entries, luck);
        var names, cut := ListBackup(entries);
        if cut { return Cut; }
        result := RestoreFiles(names);
        if result != Ok { return; }
      }
      result := DropTrial();
    }

    /** Removes the trial first and the backup last; see `DropLeaves`. */
    method DropTrial() returns (result: Result)
      modifies `backup, `trial, `luck
      ensures Done(Value(), result, luck) == Dropped(old(Value()), old(luck))
    {
      var l := Operation();
      if l.PowerCut? { return Cut; }
      if l.Fine? {
        trial := None;
      }
      l := Operation();
      if l.PowerCut? { return Cut; }
      l := Operation();
      if l.PowerCut? { return Cut; }
      if l.Fine? {
        backup := None;
      }
      return Ok;
    }

    /** The image has stayed healthy. */
    method Confirm() returns (result: Result)
      modifies `backup, `trial, `luck
      ensures Done(Value(), result, luck) == Dropped(old(Value()), old(luck))
    {
      result := DropTrial();
    }

    /** Boots in a row, none of them confirmed, each with its own luck. */
    method RunTrial(lucks: seq<seq<Luck>>, entries: seq<string>) returns (grants: nat)
      requires Listed(Value(), entries)
      modifies this
      ensures Boots(old(Value()), entries, lucks) == Trial(Value(), grants, Boots(old(Value()), entries, lucks).missed)
    {
      hide Missed, Listed, Reverted;
      grants := 0;
      for k := 0 to |lucks|
        invariant Boots(old(Value()), entries, lucks[..k]) == Trial(Value(), grants, Boots(old(Value()), entries, lucks[..k]).missed)
      {
        assert lucks[..k + 1][..k] == lucks[..k] && Listed(Value(), entries);
        luck := lucks[k];
        var action := BeginBoot();
        if action == Attempt {
          grants := grants + 1;
        } else if action == Revert {
          var result := RevertBoot(entries);
        }
      }
      assert lucks[..|lucks|] == lucks;
    }
  }
}
