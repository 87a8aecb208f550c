/** The main results about activating a transferred Hub, for every sequence of attempts and crashes. */
module ActivationRuns {
  import opened Activation
  import opened ActivationLaws

  lemma InitialInv(formats: Formats, start: Files, m: Manifest)
    requires Armed(formats, start, m)
    ensures Inv(formats, start, m, start)
  {
  }

  /** Crashes cost nothing: the operations made and those remaining always add up to the same number. */
  lemma {:induction false} RunKeeps(formats: Formats, start: Files, m: Manifest, files: Files, operations: seq<Operation>)
    requires Inv(formats, start, m, files) && Legal(formats, files, operations)
    ensures Inv(formats, start, m, Run(formats, files, operations))
    ensures |operations| + Rank(formats, Run(formats, files, operations), m) == Rank(formats, files, m)
    decreases |operations|
  {
    hide Inv, Next, Allowed, Rank, Apply;
    if operations != [] {
      StepKeeps(formats, start, m, files, operations[0]);
      RunKeeps(formats, start, m, Apply(files, operations[0]), operations[1..]);
    }
  }

  /** The end of a transfer: every slot holds its chosen file, a replaced file is the slot's only backup
      and otherwise the backups are untouched, the receipt equals the manifest, and manifest, token and
      marker are gone. */
  ghost predicate Complete(formats: Formats, start: Files, m: Manifest, files: Files) {
    && (forall slot :: Installed(formats, start, m, files, slot) && Same(start, files, Incoming(slot)))
    && ReceiptFile in files && files[ReceiptFile] == Document(m)
    && ManifestFile !in files && TokenFile !in files && ActivateFile !in files
    && PromoteFile in files
    && files[PromoteFile] == (if PromoteFile in start then start[PromoteFile] else Raw(PROMOTE_TEXT))
  }

  lemma InstalledMatches(formats: Formats, start: Files, m: Manifest, files: Files)
    requires Armed(formats, start, m) && Installed(formats, start, m, files, Database)
    ensures MatchesTransfer(formats, files, Active(Database), m) == Matching
  {
  }

  lemma NextAtReceipt(formats: Formats, start: Files, m: Manifest, files: Files)
    requires Inv(formats, start, m, files) && ReceiptFile in files
    ensures Next(formats, files) == if ManifestFile in files then NextCleanup(files) else Finish
  {
    hide MatchesTransfer, NextInstall, Installed, SlotOk;
    InstalledMatches(formats, start, m, files);
  }

  lemma InstalledRank(formats: Formats, start: Files, m: Manifest, files: Files, slot: Slot)
    requires Installed(formats, start, m, files, slot)
    ensures SlotRank(formats, files, m, slot) == 0
  {
  }

  lemma InstallGoesOn(formats: Formats, files: Files, m: Manifest)
    ensures NextInstall(formats, files, m) != Finish
  {
  }

  /** A run comes to its end exactly when the result is complete, and that is exactly when no operation
      remains. */
  lemma FinishMeansComplete(formats: Formats, start: Files, m: Manifest, files: Files)
    requires Inv(formats, start, m, files)
    ensures Next(formats, files) == Finish <==> Complete(formats, start, m, files)
    ensures Complete(formats, start, m, files) <==> Rank(formats, files, m) == 0
  {
    hide MatchesTransfer, NextInstall, Installed, SlotOk, Armed, SlotRank;
    if ReceiptFile in files {
      NextAtReceipt(formats, start, m, files);
      forall slot ensures SlotRank(formats, files, m, slot) == 0 { InstalledRank(formats, start, m, files, slot); }
    } else {
      InstallGoesOn(formats, files, m);
    }
  }

  lemma SlotNeverFails(formats: Formats, start: Files, m: Manifest, files: Files, slot: Slot)
    requires Armed(formats, start, m) && SlotOk(formats, start, m, files, slot)
    ensures NextOf(formats, files, m, slot) == Fail <==> !Readable(formats, start, m, slot)
    ensures NextOf(formats, files, m, slot) != Finish
  {
  }

  /** With an active database that is absent or can be opened, activation never fails, wherever it
      resumes; with one that cannot be opened, it never comes to its end. */
  lemma FailsOnlyUnreadable(formats: Formats, start: Files, m: Manifest, files: Files)
    requires Inv(formats, start, m, files)
    ensures Next(formats, files) == Fail ==> !Readable(formats, start, m, Database)
    ensures Next(formats, files) == Finish ==> Readable(formats, start, m, Database)
    ensures Next(formats, files) != Pass
  {
    hide MatchesTransfer, Installed, SlotOk, Armed, SlotRank, NextCredential, NextDatabase, Readable;
    if ReceiptFile in files {
      NextAtReceipt(formats, start, m, files);
    } else {
      SlotNeverFails(formats, start, m, files, InstallationKey);
      SlotNeverFails(formats, start, m, files, NoiseKey);
      SlotNeverFails(formats, start, m, files, Credentials);
      SlotNeverFails(formats, start, m, files, Database);
      CredentialsAreReadable(formats, start, m);
      assert files[ManifestFile] == Document(m) && files[TokenFile] == Raw(m.moveNonce);
    }
  }

  lemma CredentialsAreReadable(formats: Formats, start: Files, m: Manifest)
    ensures forall slot :: slot != Database ==> Readable(formats, start, m, slot)
  {
  }

  /** No more operation of activation can follow. */
  ghost predicate Over(formats: Formats, files: Files) {
    Next(formats, files) == Finish || Next(formats, files) == Fail
  }

  /** Wherever a run is not over, an operation is possible. */
  lemma Progress(formats: Formats, start: Files, m: Manifest, files: Files)
    requires Inv(formats, start, m, files) && !Over(formats, files)
    ensures exists operation :: Steps(formats, files, operation)
  {
    hide MatchesTransfer, Installed, SlotOk, Armed, SlotRank;
    FailsOnlyUnreadable(formats, start, m, files);
    match Next(formats, files)
    case Perform(operation) =>
      PerformApplies(formats, start, m, files, operation);
      assert Steps(formats, files, operation);
    case Retain(slot) =>
      if HasBackup(files, slot) {
        var name :| name in files && IsBackup(name, slot);
        assert Steps(formats, files, Remove(name));
      } else {
        RetainApplies(formats, files, slot);
        assert Steps(formats, files, Rename(Active(slot), Backup(slot, 0)));
      }
  }

  lemma RetainApplies(formats: Formats, files: Files, slot: Slot)
    requires Next(formats, files) == Retain(slot)
    ensures Active(slot) in files
  {
  }

  lemma PerformApplies(formats: Formats, start: Files, m: Manifest, files: Files, operation: Operation)
    requires Inv(formats, start, m, files) && Next(formats, files) == Perform(operation)
    ensures Applies(files, operation)
  {
  }

  /** From an armed transfer, and wherever crashes fall: a run that has come to rest has succeeded exactly
      when the active database at the start was absent or could be opened; it then is complete and made
      exactly as many durable operations as one uninterrupted run. */
  lemma Converges(formats: Formats, start: Files, m: Manifest, operations: seq<Operation>)
    requires Armed(formats, start, m) && Legal(formats, start, operations)
    requires Over(formats, Run(formats, start, operations))
    ensures var files := Run(formats, start, operations);
            && (Next(formats, files) == Finish <==> Readable(formats, start, m, Database))
            && (Next(formats, files) == Finish ==>
                  Complete(formats, start, m, files) && |operations| == Rank(formats, start, m))
  {
    hide Inv, Next, Rank, Complete, Run, Legal, Readable, Armed;
    InitialInv(formats, start, m);
    RunKeeps(formats, start, m, start, operations);
    var files := Run(formats, start, operations);
    FinishMeansComplete(formats, start, m, files);
    FailsOnlyUnreadable(formats, start, m, files);
  }

  /** The rank bounds every sequence of attempts, finished or not. */
  lemma WorkIsBounded(formats: Formats, start: Files, m: Manifest, operations: seq<Operation>)
    requires Armed(formats, start, m) && Legal(formats, start, operations)
    ensures |operations| <= Rank(formats, start, m)
  {
    hide Inv, Rank, Run, Legal, Armed;
    InitialInv(formats, start, m);
    RunKeeps(formats, start, m, start, operations);
  }

  /** A further run changes nothing. */
  lemma FinishedStays(formats: Formats, files: Files, operations: seq<Operation>)
    requires Next(formats, files) == Finish && Legal(formats, files, operations)
    ensures operations == []
  {
  }

  /** Two directories with the same contents except for the identifiers in the names of backups. */
  ghost predicate Alike(f: Files, g: Files) {
    && (forall name: Name :: !name.Backup? ==> Same(f, g, name))
    && (forall slot :: AlikeBackups(f, g, slot))
  }

  ghost predicate AlikeBackups(f: Files, g: Files, slot: Slot) {
    || (forall name :: IsBackup(name, slot) ==> Same(f, g, name))
    || (exists a, b ::
          && IsBackup(a, slot) && IsBackup(b, slot) && a in f && b in g && f[a] == g[b]
          && (forall name :: name in f && IsBackup(name, slot) ==> name == a)
          && (forall name :: name in g && IsBackup(name, slot) ==> name == b))
  }

  /** However two activations of the same transfer were interrupted, they end alike. */
  lemma EndsAlike(formats: Formats, start: Files, m: Manifest, first: seq<Operation>, second: seq<Operation>)
    requires Armed(formats, start, m) && Legal(formats, start, first) && Legal(formats, start, second)
    requires Next(formats, Run(formats, start, first)) == Finish && Next(formats, Run(formats, start, second)) == Finish
    ensures Alike(Run(formats, start, first), Run(formats, start, second))
  {
    hide Next, Rank, Run, Legal, Readable, Armed, Installed, Chosen;
    var f, g := Run(formats, start, first), Run(formats, start, second);
    Converges(formats, start, m, first);
    Converges(formats, start, m, second);
    forall slot
      ensures AlikeBackups(f, g, slot) && Same(f, g, Active(slot)) && Same(f, g, Prepared(slot)) && Same(f, g, Incoming(slot))
    {
      InstalledAlike(formats, start, m, f, g, slot);
    }
    forall name: Name | !name.Backup? ensures Same(f, g, name) {
      if name.Active? || name.Prepared? || name.Incoming? {
        assert Same(f, g, Active(name.slot)) && Same(f, g, Prepared(name.slot)) && Same(f, g, Incoming(name.slot));
      }
    }
  }

  lemma InstalledAlike(formats: Formats, start: Files, m: Manifest, f: Files, g: Files, slot: Slot)
    requires Installed(formats, start, m, f, slot) && Installed(formats, start, m, g, slot)
    ensures AlikeBackups(f, g, slot) && Same(f, g, Active(slot)) && Same(f, g, Prepared(slot))
  {
  }

  // ---------------------------------------------------------------- removals that fail

  const LEFTOVERS: set<Name> := {ActivateFile, TokenFile, ManifestFile}

  /** Everything is in place and the receipt says so; only the marker, the token and the manifest may be left. */
  ghost predicate Settled(formats: Formats, start: Files, m: Manifest, files: Files) {
    && Armed(formats, start, m)
    && (forall slot :: Installed(formats, start, m, files, slot))
    && ReceiptFile in files && files[ReceiptFile] == Document(m) && PromoteFile in files
    && (ManifestFile in files ==> files[ManifestFile] == Document(m))
  }

  /** The procedure ignores the error of each closing removal. One call from the receipt on: nothing once the
      manifest is gone, otherwise the leftovers go, except those whose removal fails. */
  function CleanUpCall(files: Files, failing: set<Name>): Files {
    if ManifestFile !in files then files else files - (LEFTOVERS - failing)
  }

  function CleanUpCalls(files: Files, failing: seq<set<Name>>): Files
    decreases |failing|
  {
    if failing == [] then files else CleanUpCalls(CleanUpCall(files, failing[0]), failing[1..])
  }

  /** The calls that clean up: all up to the first that removes the manifest. */
  function CleaningCalls(failing: seq<set<Name>>): seq<set<Name>> {
    if failing == [] then []
    else if ManifestFile in failing[0] then [failing[0]] + CleaningCalls(failing[1..])
    else [failing[0]]
  }

  lemma InstalledApart(formats: Formats, start: Files, m: Manifest, files: Files, gone: set<Name>)
    requires Settled(formats, start, m, files) && gone <= LEFTOVERS
    ensures Settled(formats, start, m, files - gone)
  {
    var after := files - gone;
    forall slot ensures Installed(formats, start, m, after, slot) {
      assert Installed(formats, start, m, files, slot);
      assert forall name :: name !in LEFTOVERS ==> Same(files, after, name);
      InstalledSame(formats, start, m, files, after, slot);
    }
  }

  lemma InstalledSame(formats: Formats, start: Files, m: Manifest, from: Files, to: Files, slot: Slot)
    requires Installed(formats, start, m, from, slot)
    requires Same(from, to, Active(slot)) && Same(from, to, Prepared(slot)) && forall name :: IsBackup(name, slot) ==> Same(from, to, name)
    ensures Installed(formats, start, m, to, slot)
  {
    hide MatchesTransfer;
  }

  /** A settled directory is never refused: a run comes to its end there, or cleans up. */
  lemma SettledGoesOn(formats: Formats, start: Files, m: Manifest, files: Files)
    requires Settled(formats, start, m, files)
    ensures Next(formats, files) == if ManifestFile in files then NextCleanup(files) else Finish
  {
    hide MatchesTransfer, NextInstall, Installed;
    InstalledMatches(formats, start, m, files);
  }

  lemma ReceiptSettles(formats: Formats, start: Files, m: Manifest, files: Files)
    requires Inv(formats, start, m, files) && ReceiptFile in files
    ensures Settled(formats, start, m, files)
  {
    hide Installed, SlotOk;
  }

  /** Once the receipt is written, whatever removals of however many calls fail: the transfer stays installed and
      every call succeeds, and a leftover stays exactly if its removal failed in every call up to the one that
      removed the manifest. */
  lemma {:induction false} CleanUpSettles(formats: Formats, start: Files, m: Manifest, files: Files, failing: seq<set<Name>>)
    requires Settled(formats, start, m, files) && ManifestFile in files
    ensures var after := CleanUpCalls(files, failing);
            && Settled(formats, start, m, after)
            && Next(formats, after) == (if ManifestFile in after then NextCleanup(after) else Finish)
            && (forall name :: name in LEFTOVERS ==>
                  (name in after <==> name in files && FailsThroughout(name, CleaningCalls(failing))))
    decreases |failing|
  {
    hide Settled, Next, NextCleanup;
    if failing == [] {
      SettledGoesOn(formats, start, m, files);
    } else {
      var next := CleanUpCall(files, failing[0]);
      InstalledApart(formats, start, m, files, LEFTOVERS - failing[0]);
      if ManifestFile in failing[0] {
        CleanUpSettles(formats, start, m, next, failing[1..]);
        forall name | name in LEFTOVERS
          ensures FailsThroughout(name, CleaningCalls(failing)) <==> name in failing[0] && FailsThroughout(name, CleaningCalls(failing[1..]))
        {
          FailsCons(name, failing[0], CleaningCalls(failing[1..]));
        }
      } else {
        NoMoreCleanUp(next, failing[1..]);
        SettledGoesOn(formats, start, m, next);
      }
    }
  }

  predicate FailsThroughout(name: Name, calls: seq<set<Name>>) {
    forall k :: 0 <= k < |calls| ==> name in calls[k]
  }

  lemma FailsCons(name: Name, first: set<Name>, rest: seq<set<Name>>)
    ensures FailsThroughout(name, [first] + rest) <==> name in first && FailsThroughout(name, rest)
  {
    var all := [first] + rest;
    assert forall k :: 0 <= k < |rest| ==> rest[k] == all[k + 1];
    assert all[0] == first;
  }

  lemma {:induction false} NoMoreCleanUp(files: Files, failing: seq<set<Name>>)
    requires ManifestFile !in files
    ensures CleanUpCalls(files, failing) == files
    decreases |failing|
  {
    if failing != [] { NoMoreCleanUp(files, failing[1..]); }
  }
}
