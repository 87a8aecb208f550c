/** Between an armed transfer and its end: what every durable operation keeps, and how many remain. */
module ActivationLaws {
  import opened Activation

  /** A name means the same in both directories. */
  ghost predicate Same(start: Files, files: Files, name: Name) {
    (name in files <==> name in start) && (name in files ==> files[name] == start[name])
  }

  /** A committed transfer that has been armed and not yet activated. */
  ghost predicate Armed(formats: Formats, start: Files, m: Manifest) {
    && ManifestFile in start && start[ManifestFile] == Document(m)
    && ReceiptFile !in start
    && TokenFile in start && start[TokenFile] == Raw(m.moveNonce)
    && (forall slot :: Prepared(slot) in start)
    && MatchesTransfer(formats, start, Prepared(Database), m) == Matching
  }

  /** The active file of the slot, if any, is one that the store can open. */
  ghost predicate Readable(formats: Formats, start: Files, m: Manifest, slot: Slot) {
    slot == Database ==> MatchesTransfer(formats, start, Active(Database), m) != Broken
  }

  /** An active file that has to make room for the transferred one. */
  ghost predicate GivesWay(formats: Formats, files: Files, m: Manifest, slot: Slot) {
    && Active(slot) in files && Prepared(slot) in files
    && if slot == Database then MatchesTransfer(formats, files, Active(Database), m) == Differing
       else files[Active(slot)] != files[Prepared(slot)]
  }

  /** What activation leaves in place: the transferred file, except that a database already belonging to
      this transfer stays. */
  ghost function Chosen(formats: Formats, start: Files, m: Manifest, slot: Slot): Content
    requires Prepared(slot) in start
  {
    if slot == Database && Active(Database) in start && MatchesTransfer(formats, start, Active(Database), m) == Matching
    then start[Active(Database)] else start[Prepared(slot)]
  }

  ghost predicate BackupsKept(start: Files, files: Files, slot: Slot) {
    forall name :: IsBackup(name, slot) ==> Same(start, files, name)
  }

  ghost predicate BackupsThinned(start: Files, files: Files, slot: Slot) {
    forall name :: name in files && IsBackup(name, slot) ==> Same(start, files, name)
  }

  /** The one backup holds what was active. */
  ghost predicate SingleBackup(start: Files, files: Files, slot: Slot) {
    && Active(slot) in start
    && (exists name :: name in files && IsBackup(name, slot))
    && (forall name :: name in files && IsBackup(name, slot) ==> files[name] == start[Active(slot)])
    && (forall name, other :: name in files && other in files && IsBackup(name, slot) && IsBackup(other, slot) ==> name == other)
  }

  ghost predicate Waiting(formats: Formats, start: Files, m: Manifest, files: Files, slot: Slot) {
    && Same(start, files, Prepared(slot)) && Same(start, files, Active(slot))
    && if GivesWay(formats, start, m, slot) then BackupsThinned(start, files, slot) else BackupsKept(start, files, slot)
  }

  ghost predicate Moved(formats: Formats, start: Files, m: Manifest, files: Files, slot: Slot) {
    && GivesWay(formats, start, m, slot) && Same(start, files, Prepared(slot))
    && Active(slot) !in files && SingleBackup(start, files, slot)
  }

  ghost predicate Installed(formats: Formats, start: Files, m: Manifest, files: Files, slot: Slot) {
    && Prepared(slot) in start && Prepared(slot) !in files
    && Active(slot) in files && files[Active(slot)] == Chosen(formats, start, m, slot)
    && if GivesWay(formats, start, m, slot) then SingleBackup(start, files, slot) else BackupsKept(start, files, slot)
  }

  ghost predicate SlotOk(formats: Formats, start: Files, m: Manifest, files: Files, slot: Slot) {
    || Waiting(formats, start, m, files, slot)
    || (Readable(formats, start, m, slot)
        && (Moved(formats, start, m, files, slot) || Installed(formats, start, m, files, slot)))
  }

  ghost predicate ControlOk(start: Files, m: Manifest, files: Files) {
    && (forall slot :: Same(start, files, Incoming(slot)))
    && (ManifestFile in files ==> files[ManifestFile] == Document(m))
    && (TokenFile in files ==> files[TokenFile] == Raw(m.moveNonce))
    && (ReceiptFile in files ==> files[ReceiptFile] == Document(m) && PromoteFile in files)
    && (PromoteFile in files ==>
          files[PromoteFile] == if PromoteFile in start then start[PromoteFile] else Raw(PROMOTE_TEXT))
    && (PromoteFile in start ==> PromoteFile in files)
    && (ReceiptFile !in files ==> ManifestFile in files && TokenFile in files)
    && (ManifestFile !in files ==> TokenFile !in files)
    && (TokenFile !in files ==> ActivateFile !in files)
  }

  ghost predicate Inv(formats: Formats, start: Files, m: Manifest, files: Files) {
    && Armed(formats, start, m)
    && (forall slot :: SlotOk(formats, start, m, files, slot))
    && (ReceiptFile in files ==> forall slot :: Installed(formats, start, m, files, slot))
    && (ReceiptFile in files ==> Readable(formats, start, m, Database))
    && ControlOk(start, m, files)
  }

  // ---------------------------------------------------------------- the rank

  ghost function BackupNames(files: Files, slot: Slot): set<Name> {
    set name | name in files && IsBackup(name, slot)
  }

  ghost function SlotRank(formats: Formats, files: Files, m: Manifest, slot: Slot): nat {
    if Prepared(slot) !in files then 0
    else if Active(slot) !in files then 1
    else if GivesWay(formats, files, m, slot) then |BackupNames(files, slot)| + 2
    else 1
  }

  ghost function One(present: bool): nat {
    if present then 1 else 0
  }

  ghost function ControlRank(files: Files): nat {
    if ReceiptFile in files then One(ActivateFile in files) + One(TokenFile in files) + One(ManifestFile in files)
    else One(ActivateFile !in files) + One(PromoteFile !in files) + 4
  }

  /** The number of durable operations that remain. */
  ghost function Rank(formats: Formats, files: Files, m: Manifest): nat {
    SlotRank(formats, files, m, InstallationKey) + SlotRank(formats, files, m, NoiseKey)
    + SlotRank(formats, files, m, Credentials) + SlotRank(formats, files, m, Database) + ControlRank(files)
  }

  // ---------------------------------------------------------------- one slot

  ghost predicate Touches(operation: Operation, slot: Slot) {
    match operation
    case Write(_, _) => false
    case Rename(source, target) => Of(source, slot) && Of(target, slot)
    case Remove(name) => Of(name, slot)
  }

  ghost predicate Of(name: Name, slot: Slot) {
    (name.Active? || name.Prepared? || name.Backup?) && name.slot == slot
  }

  ghost predicate IsControl(name: Name) {
    name == ManifestFile || name == ReceiptFile || name == TokenFile || name == ActivateFile || name == PromoteFile
  }

  ghost predicate OnlyControl(from: Files, to: Files) {
    forall name :: !IsControl(name) ==> Same(from, to, name)
  }

  /** Two directories that agree on a slot. */
  ghost predicate Agree(from: Files, to: Files, slot: Slot) {
    forall name :: Of(name, slot) ==> Same(from, to, name)
  }

  lemma AgreeSlot(formats: Formats, start: Files, m: Manifest, from: Files, to: Files, slot: Slot)
    requires Agree(from, to, slot)
    ensures SlotOk(formats, start, m, from, slot) ==> SlotOk(formats, start, m, to, slot)
    ensures Installed(formats, start, m, from, slot) ==> Installed(formats, start, m, to, slot)
    ensures SlotRank(formats, to, m, slot) == SlotRank(formats, from, m, slot)
  {
    hide Chosen, Readable;
    assert Same(from, to, Active(slot)) && Same(from, to, Prepared(slot));
    assert forall name :: IsBackup(name, slot) ==> Of(name, slot);
    assert BackupNames(from, slot) == BackupNames(to, slot);
    assert GivesWay(formats, from, m, slot) <==> GivesWay(formats, to, m, slot);
    if SingleBackup(start, from, slot) {
      var name :| name in from && IsBackup(name, slot);
      assert name in to;
      assert SingleBackup(start, to, slot);
    }
    assert BackupsKept(start, from, slot) ==> BackupsKept(start, to, slot);
    assert BackupsThinned(start, from, slot) ==> BackupsThinned(start, to, slot);
  }

  lemma BackupRemoved(files: Files, slot: Slot, name: Name)
    requires name in files && IsBackup(name, slot)
    ensures |BackupNames(files - {name}, slot)| == |BackupNames(files, slot)| - 1
  {
    assert BackupNames(files - {name}, slot) == BackupNames(files, slot) - {name};
  }

  lemma InstallStep(formats: Formats, start: Files, m: Manifest, files: Files, slot: Slot, operation: Operation)
    requires Armed(formats, start, m) && SlotOk(formats, start, m, files, slot) && Readable(formats, start, m, slot)
    requires operation == Rename(Prepared(slot), Active(slot)) && Prepared(slot) in files && Active(slot) !in files
    ensures Installed(formats, start, m, Apply(files, operation), slot)
    ensures SlotRank(formats, Apply(files, operation), m, slot) == SlotRank(formats, files, m, slot) - 1
  {
  }

  lemma DiscardStep(formats: Formats, start: Files, m: Manifest, files: Files, slot: Slot, operation: Operation)
    requires Armed(formats, start, m) && SlotOk(formats, start, m, files, slot) && Readable(formats, start, m, slot)
    requires operation == Remove(Prepared(slot)) && Prepared(slot) in files && Active(slot) in files
    requires if slot == Database then MatchesTransfer(formats, files, Active(Database), m) == Matching
             else files[Prepared(slot)] == files[Active(slot)]
    ensures Installed(formats, start, m, Apply(files, operation), slot)
    ensures SlotRank(formats, Apply(files, operation), m, slot) == SlotRank(formats, files, m, slot) - 1
  {
  }

  lemma ThinStep(formats: Formats, start: Files, m: Manifest, files: Files, slot: Slot, name: Name)
    requires Waiting(formats, start, m, files, slot) && GivesWay(formats, files, m, slot)
    requires name in files && IsBackup(name, slot)
    ensures Waiting(formats, start, m, files - {name}, slot)
    ensures SlotRank(formats, files - {name}, m, slot) == SlotRank(formats, files, m, slot) - 1
  {
    var after := files - {name};
    BackupRemoved(files, slot, name);
    assert GivesWay(formats, start, m, slot) && GivesWay(formats, after, m, slot);
    assert BackupsThinned(start, after, slot);
  }

  lemma RetainStep(formats: Formats, start: Files, m: Manifest, files: Files, slot: Slot, name: Name)
    requires Waiting(formats, start, m, files, slot) && GivesWay(formats, files, m, slot)
    requires !HasBackup(files, slot) && IsBackup(name, slot)
    ensures Moved(formats, start, m, Apply(files, Rename(Active(slot), name)), slot)
    ensures SlotRank(formats, Apply(files, Rename(Active(slot), name)), m, slot) == SlotRank(formats, files, m, slot) - 1
  {
  }

  ghost function NextOf(formats: Formats, files: Files, m: Manifest, slot: Slot): Move {
    if slot == Database then NextDatabase(formats, files, m) else NextCredential(files, slot)
  }

  /** While both files of a slot are there, nothing has been installed yet. */
  lemma BothMeansWaiting(formats: Formats, start: Files, m: Manifest, files: Files, slot: Slot)
    requires SlotOk(formats, start, m, files, slot) && Prepared(slot) in files && Active(slot) in files
    ensures Waiting(formats, start, m, files, slot)
  {
  }

  lemma MovingIsReadable(formats: Formats, start: Files, m: Manifest, files: Files, slot: Slot)
    requires SlotOk(formats, start, m, files, slot) && NextOf(formats, files, m, slot) != Fail
    ensures Readable(formats, start, m, slot)
  {
  }

  lemma MatchingExists(formats: Formats, files: Files, name: Name, m: Manifest)
    ensures MatchesTransfer(formats, files, name, m) == Matching ==> name in files
  {
  }

  lemma SlotStep(formats: Formats, start: Files, m: Manifest, files: Files, slot: Slot, operation: Operation)
    requires Armed(formats, start, m) && SlotOk(formats, start, m, files, slot) && Applies(files, operation)
    requires Allowed(files, NextOf(formats, files, m, slot), operation)
    ensures Touches(operation, slot)
    ensures SlotOk(formats, start, m, Apply(files, operation), slot)
    ensures SlotRank(formats, Apply(files, operation), m, slot) == SlotRank(formats, files, m, slot) - 1
  {
    hide Armed, Waiting, Moved, Installed, SlotRank, MatchesTransfer, BackupsKept, BackupsThinned, SingleBackup;
    var move := NextOf(formats, files, m, slot);
    MovingIsReadable(formats, start, m, files, slot);
    MatchingExists(formats, files, Prepared(Database), m);
    MatchingExists(formats, files, Active(Database), m);
    if move == Retain(slot) {
      BothMeansWaiting(formats, start, m, files, slot);
      assert GivesWay(formats, files, m, slot) by { RetainGivesWay(formats, start, m, files, slot); }
      if HasBackup(files, slot) {
        ThinStep(formats, start, m, files, slot, operation.name);
      } else {
        RetainStep(formats, start, m, files, slot, operation.target);
      }
    } else if operation.Rename? {
      InstallStep(formats, start, m, files, slot, operation);
    } else {
      DiscardStep(formats, start, m, files, slot, operation);
    }
  }

  lemma RetainGivesWay(formats: Formats, start: Files, m: Manifest, files: Files, slot: Slot)
    requires NextOf(formats, files, m, slot) == Retain(slot)
    ensures GivesWay(formats, files, m, slot)
  {
  }

  /** An operation on one slot leaves the others and the control files alone. */
  lemma TouchesOnly(files: Files, operation: Operation, slot: Slot, other: Slot)
    requires Applies(files, operation) && Touches(operation, slot) && other != slot
    ensures Agree(files, Apply(files, operation), other)
  {
  }

  lemma TouchesNoControl(start: Files, m: Manifest, files: Files, operation: Operation, slot: Slot)
    requires Applies(files, operation) && Touches(operation, slot)
    ensures ControlOk(start, m, files) ==> ControlOk(start, m, Apply(files, operation))
    ensures ControlRank(Apply(files, operation)) == ControlRank(files)
    ensures ReceiptFile in Apply(files, operation) <==> ReceiptFile in files
  {
    forall name | IsControl(name) || name.Incoming? ensures Same(files, Apply(files, operation), name) {}
    assert forall slot :: Same(files, Apply(files, operation), Incoming(slot));
  }

  lemma InstallingKeeps(formats: Formats, start: Files, m: Manifest, files: Files, slot: Slot, operation: Operation)
    requires Inv(formats, start, m, files) && ReceiptFile !in files && Applies(files, operation)
    requires Allowed(files, NextOf(formats, files, m, slot), operation)
    ensures Inv(formats, start, m, Apply(files, operation))
    ensures Rank(formats, Apply(files, operation), m) == Rank(formats, files, m) - 1
  {
    hide Armed, SlotOk, ControlOk, SlotRank, ControlRank, Installed, Readable, NextOf, Agree, Touches;
    var after := Apply(files, operation);
    SlotStep(formats, start, m, files, slot, operation);
    TouchesNoControl(start, m, files, operation, slot);
    forall other | other != slot
      ensures SlotOk(formats, start, m, after, other) && SlotRank(formats, after, m, other) == SlotRank(formats, files, m, other)
    {
      TouchesOnly(files, operation, slot, other);
      AgreeSlot(formats, start, m, files, after, other);
    }
  }

  lemma ControlKeeps(formats: Formats, start: Files, m: Manifest, files: Files, after: Files)
    requires Inv(formats, start, m, files) && OnlyControl(files, after) && ControlOk(start, m, after)
    requires ReceiptFile in after && ReceiptFile !in files ==>
               Readable(formats, start, m, Database) && forall slot :: Installed(formats, start, m, files, slot)
    ensures Inv(formats, start, m, after)
    ensures Rank(formats, after, m) - ControlRank(after) == Rank(formats, files, m) - ControlRank(files)
  {
    hide Armed, SlotOk, ControlOk, SlotRank, ControlRank, Installed, Readable;
    forall slot
      ensures SlotOk(formats, start, m, after, slot) && SlotRank(formats, after, m, slot) == SlotRank(formats, files, m, slot)
      ensures Installed(formats, start, m, files, slot) ==> Installed(formats, start, m, after, slot)
    {
      assert Agree(files, after, slot);
      AgreeSlot(formats, start, m, files, after, slot);
    }
  }

  // ---------------------------------------------------------------- every operation

  /** When no slot has a move left, every slot is installed. */
  lemma PassMeansInstalled(formats: Formats, start: Files, m: Manifest, files: Files, slot: Slot)
    requires Armed(formats, start, m) && SlotOk(formats, start, m, files, slot) && NextOf(formats, files, m, slot) == Pass
    ensures Readable(formats, start, m, slot) && Installed(formats, start, m, files, slot)
    ensures SlotRank(formats, files, m, slot) == 0
  {
  }

  lemma AllInstalled(formats: Formats, start: Files, m: Manifest, files: Files)
    requires Inv(formats, start, m, files)
    requires forall slot :: NextOf(formats, files, m, slot) == Pass
    ensures Readable(formats, start, m, Database) && forall slot :: Installed(formats, start, m, files, slot)
  {
    hide NextOf, Armed, SlotOk, Installed, Readable, ControlOk;
    forall slot ensures Readable(formats, start, m, slot) && Installed(formats, start, m, files, slot) {
      PassMeansInstalled(formats, start, m, files, slot);
    }
  }

  lemma WriteControl(formats: Formats, start: Files, m: Manifest, files: Files, operation: Operation)
    requires Inv(formats, start, m, files) && ReceiptFile !in files && Applies(files, operation)
    requires || operation == Write(ActivateFile, Raw(ACTIVATE_TEXT))
             || operation == Write(PromoteFile, Raw(PROMOTE_TEXT))
             || (operation == Write(ReceiptFile, Document(m)) && PromoteFile in files && ActivateFile in files
                 && Readable(formats, start, m, Database) && forall slot :: Installed(formats, start, m, files, slot))
    ensures Inv(formats, start, m, Apply(files, operation))
    ensures Rank(formats, Apply(files, operation), m) == Rank(formats, files, m) - 1
  {
    hide Armed, SlotOk, SlotRank, Installed, Readable;
    ControlKeeps(formats, start, m, files, Apply(files, operation));
  }

  lemma RemoveControl(formats: Formats, start: Files, m: Manifest, files: Files, operation: Operation)
    requires Inv(formats, start, m, files) && ReceiptFile in files && ManifestFile in files
    requires Allowed(files, NextCleanup(files), operation) && Applies(files, operation)
    ensures Inv(formats, start, m, Apply(files, operation))
    ensures Rank(formats, Apply(files, operation), m) == Rank(formats, files, m) - 1
  {
    hide Armed, SlotOk, SlotRank, Installed, Readable;
    ControlKeeps(formats, start, m, files, Apply(files, operation));
  }

  /** Every durable operation of every run keeps the order and lowers the rank by exactly one. */
  lemma StepKeeps(formats: Formats, start: Files, m: Manifest, files: Files, operation: Operation)
    requires Inv(formats, start, m, files) && Steps(formats, files, operation)
    ensures Inv(formats, start, m, Apply(files, operation))
    ensures Rank(formats, Apply(files, operation), m) == Rank(formats, files, m) - 1
  {
    hide Armed, SlotOk, Installed, Readable, NextDatabase, NextCredential, NextCleanup, MatchesTransfer, Rank, ControlOk;
    assert ManifestFile in files && files[ManifestFile] == Document(m) by { ManifestStays(formats, start, m, files); }
    if ReceiptFile in files {
      RemoveControl(formats, start, m, files, operation);
    } else if ActivateFile !in files {
      WriteControl(formats, start, m, files, operation);
    } else if NextCredential(files, InstallationKey) != Pass {
      InstallingKeeps(formats, start, m, files, InstallationKey, operation);
    } else if NextCredential(files, NoiseKey) != Pass {
      InstallingKeeps(formats, start, m, files, NoiseKey, operation);
    } else if NextCredential(files, Credentials) != Pass {
      InstallingKeeps(formats, start, m, files, Credentials, operation);
    } else if NextDatabase(formats, files, m) != Pass {
      InstallingKeeps(formats, start, m, files, Database, operation);
    } else {
      AllInstalled(formats, start, m, files);
      WriteControl(formats, start, m, files, operation);
    }
  }

  lemma ManifestStays(formats: Formats, start: Files, m: Manifest, files: Files)
    requires Inv(formats, start, m, files)
    ensures ManifestFile in files ==> files[ManifestFile] == Document(m)
    ensures Next(formats, files).Perform? || Next(formats, files).Retain? ==> ManifestFile in files
  {
  }
}
