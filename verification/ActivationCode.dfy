/** The activation procedure over a mutable directory, cut off when its budget of durable operations runs
    out, proved to perform a run of the model. */
module ActivationCode {
  import opened Activation
  import opened ActivationLaws
  import opened ActivationRuns

  ghost predicate Reaches(formats: Formats, start: Files, files: Files, count: nat) {
    exists operations :: Legal(formats, start, operations) && Run(formats, start, operations) == files && |operations| == count
  }

  lemma {:induction false} RunSnoc(formats: Formats, start: Files, operations: seq<Operation>, operation: Operation)
    requires Legal(formats, start, operations) && Steps(formats, Run(formats, start, operations), operation)
    ensures Legal(formats, start, operations + [operation])
    ensures Run(formats, start, operations + [operation]) == Apply(Run(formats, start, operations), operation)
    decreases |operations|
  {
    hide Next, Allowed, Apply;
    if operations == [] {
      assert [operation][1..] == [];
    } else {
      RunSnoc(formats, Apply(start, operations[0]), operations[1..], operation);
      assert (operations + [operation])[1..] == operations[1..] + [operation];
    }
  }

  lemma ReachesStart(formats: Formats, start: Files)
    ensures Reaches(formats, start, start, 0)
  {
  }

  lemma ReachesStep(formats: Formats, start: Files, files: Files, count: nat, operation: Operation)
    requires Reaches(formats, start, files, count) && Steps(formats, files, operation)
    ensures Reaches(formats, start, Apply(files, operation), count + 1)
  {
    hide Legal, Run, Steps;
    var operations :| Legal(formats, start, operations) && Run(formats, start, operations) == files && |operations| == count;
    RunSnoc(formats, start, operations, operation);
  }

  /** What a run that has got past its first checks knows of its directory. */
  ghost predicate Begun(files: Files, m: Manifest) {
    && ManifestFile in files && files[ManifestFile] == Document(m)
    && ReceiptFile !in files
    && TokenFile in files && files[TokenFile] == Raw(m.moveNonce)
    && ActivateFile in files
  }

  /** The credentials before `count` need nothing more. */
  ghost predicate CredentialsPass(files: Files, count: nat) {
    && (count > 0 ==> NextCredential(files, InstallationKey) == Pass)
    && (count > 1 ==> NextCredential(files, NoiseKey) == Pass)
    && (count > 2 ==> NextCredential(files, Credentials) == Pass)
  }

  lemma NextIsCredential(formats: Formats, files: Files, m: Manifest, count: nat)
    requires Begun(files, m) && count < 3 && CredentialsPass(files, count)
    ensures NextCredential(files, CREDENTIALS[count]) != Pass ==> Next(formats, files) == NextCredential(files, CREDENTIALS[count])
  {
  }

  lemma NextIsDatabase(formats: Formats, files: Files, m: Manifest)
    requires Begun(files, m) && CredentialsPass(files, 3)
    ensures NextDatabase(formats, files, m) != Pass ==> Next(formats, files) == NextDatabase(formats, files, m)
  {
  }

  /** Work on a later slot leaves what an earlier one needs alone. */
  lemma PassStays(files: Files, operation: Operation, count: nat, slot: Slot, m: Manifest)
    requires Begun(files, m) && CredentialsPass(files, count) && Applies(files, operation) && Touches(operation, slot)
    requires count <= 3 && slot !in CREDENTIALS[..count]
    ensures Begun(Apply(files, operation), m) && CredentialsPass(Apply(files, operation), count)
  {
    assert forall i :: 0 <= i < count ==> CREDENTIALS[i] in CREDENTIALS[..count];
    assert count > 0 ==> CREDENTIALS[0] in CREDENTIALS[..count];
    assert count > 1 ==> CREDENTIALS[1] in CREDENTIALS[..count];
    assert count > 2 ==> CREDENTIALS[2] in CREDENTIALS[..count];
    var after := Apply(files, operation);
    forall other: Slot | other != slot ensures Same(files, after, Prepared(other)) && Same(files, after, Active(other)) {}
    assert Same(files, after, ManifestFile) && Same(files, after, ReceiptFile) && Same(files, after, TokenFile) && Same(files, after, ActivateFile);
  }

  datatype Outcome = Activated | Failed | Crashed

  class HubRoot {
    var files: Files
    var budget: nat
    const formats: Formats

    constructor (formats: Formats, files: Files, budget: nat)
      ensures this.formats == formats && this.files == files && this.budget == budget
    {
      this.formats, this.files, this.budget := formats, files, budget;
    }

    method Durably(operation: Operation) returns (alive: bool)
      requires Applies(files, operation)
      modifies this
      ensures alive == (old(budget) > 0)
      ensures alive ==> files == Apply(old(files), operation) && budget == old(budget) - 1
      ensures !alive ==> files == old(files) && budget == old(budget)
    {
      if budget == 0 { return false; }
      budget := budget - 1;
      match operation {
        case Write(name, content) => files := files[name := content];
        case Rename(source, target) => files := (files - {source})[target := files[source]];
        case Remove(name) => files := files - {name};
      }
      alive := true;
    }

    /** One operation of a slot's `Retain`. */
    method RetainPart(operation: Operation, slot: Slot, ghost start: Files, ghost count: nat, ghost credentials: nat, ghost m: Manifest)
      returns (alive: bool)
      requires Reaches(formats, start, files, count)
      requires Applies(files, operation) && Allowed(files, Next(formats, files), operation) && Touches(operation, slot)
      requires Begun(files, m) && credentials <= 3 && CredentialsPass(files, credentials) && slot !in CREDENTIALS[..credentials]
      modifies this
      ensures alive ==> files == Apply(old(files), operation) && budget == old(budget) - 1
                        && Reaches(formats, start, files, count + 1)
                        && Begun(files, m) && CredentialsPass(files, credentials)
      ensures !alive ==> files == old(files) && budget == old(budget) == 0
    {
      hide Reaches, Next, MatchesTransfer, CredentialsPass, Begun, Allowed, Touches, Applies, Apply;
      ghost var before := files;
      PassStays(files, operation, credentials, slot, m);
      alive := Durably(operation);
      if alive {
        StepOf(before, operation);
        ReachesStep(formats, start, before, count, operation);
      }
    }

    /** Leaves the slot's active file as the slot's only backup. */
    method RetainPreviousFile(slot: Slot, id: nat, ghost start: Files, ghost count: nat, ghost credentials: nat, ghost m: Manifest)
      returns (alive: bool)
      requires Reaches(formats, start, files, count) && Next(formats, files) == Retain(slot)
      requires Begun(files, m) && credentials <= 3 && CredentialsPass(files, credentials) && slot !in CREDENTIALS[..credentials]
      requires slot == if credentials < 3 then CREDENTIALS[credentials] else Database
      modifies this
      ensures budget <= old(budget) && Reaches(formats, start, files, count + old(budget) - budget)
      ensures !alive ==> budget == 0
      ensures alive ==>
        && Begun(files, m) && CredentialsPass(files, credentials)
        && Prepared(slot) in files && Active(slot) !in files
        && files[Prepared(slot)] == old(files[Prepared(slot)])
    {
      hide Reaches, Next, MatchesTransfer, CredentialsPass, Begun;
      RetainHas(formats, files, slot);
      while HasBackup(files, slot)
        invariant budget <= old(budget) && Reaches(formats, start, files, count + old(budget) - budget)
        invariant Next(formats, files) == Retain(slot)
        invariant Begun(files, m) && CredentialsPass(files, credentials)
        invariant Active(slot) in files && Prepared(slot) in files && files[Prepared(slot)] == old(files[Prepared(slot)])
        decreases |files|
      {
        var name :| name in files && IsBackup(name, slot);
        ghost var before := files;
        RetainGoesOn(formats, files, m, credentials, slot, name);
        alive := RetainPart(Remove(name), slot, start, count + old(budget) - budget, credentials, m);
        if !alive { return; }
        assert |before| == |files| + 1 by { assert before.Keys == files.Keys + {name}; }
      }
      alive := RetainPart(Rename(Active(slot), Backup(slot, id)), slot, start, count + old(budget) - budget, credentials, m);
    }

    /** One durable operation that the model expects next. */
    method Advance(operation: Operation, ghost start: Files, ghost count: nat) returns (alive: bool)
      requires Reaches(formats, start, files, count) && Applies(files, operation)
      requires Next(formats, files) == Perform(operation)
      modifies this
      ensures alive ==> files == Apply(old(files), operation) && budget == old(budget) - 1
                        && Reaches(formats, start, files, count + 1)
      ensures !alive ==> files == old(files) && budget == old(budget) == 0
    {
      hide Reaches, Next;
      ghost var before := files;
      alive := Durably(operation);
      if alive {
        StepOf(before, operation);
        ReachesStep(formats, start, before, count, operation);
      }
    }

    /** One turn of the loop over the credentials. */
    method InstallCredential(index: nat, id: nat, ghost start: Files, ghost m: Manifest, ghost full: nat) returns (outcome: Outcome)
      requires index < 3 && budget <= full && Reaches(formats, start, files, full - budget)
      requires Begun(files, m) && CredentialsPass(files, index)
      modifies this
      ensures budget <= full && Reaches(formats, start, files, full - budget)
      ensures outcome == Crashed ==> budget == 0
      ensures outcome == Failed ==> Next(formats, files) == Fail
      ensures outcome == Activated ==> Begun(files, m) && CredentialsPass(files, index + 1)
    {
      hide Reaches, Next, Begun, MatchesTransfer, CredentialsPass;
      var slot := CREDENTIALS[index];
      NextIsCredential(formats, files, m, index);
      NotBefore(index);
      var prepared, active := Prepared(slot), Active(slot);
      if prepared in files && active !in files {
        PassStays(files, Rename(prepared, active), index, slot, m);
        var alive := Advance(Rename(prepared, active), start, full - budget);
        if !alive { return Crashed; }
      } else if prepared in files {
        if files[prepared] == files[active] {
          PassStays(files, Remove(prepared), index, slot, m);
          var alive := Advance(Remove(prepared), start, full - budget);
          if !alive { return Crashed; }
        } else {
          var alive := RetainPreviousFile(slot, id, start, full - budget, index, m);
          if !alive { return Crashed; }
          NextIsCredential(formats, files, m, index);
          PassStays(files, Rename(prepared, active), index, slot, m);
          alive := Advance(Rename(prepared, active), start, full - budget);
          if !alive { return Crashed; }
        }
      } else if active !in files {
        return Failed;
      }
      PassNow(files, index);
      outcome := Activated;
    }

    method InstallDatabase(id: nat, ghost start: Files, m: Manifest, ghost full: nat) returns (outcome: Outcome)
      requires budget <= full && Reaches(formats, start, files, full - budget)
      requires Begun(files, m) && CredentialsPass(files, 3)
      modifies this
      ensures budget <= full && Reaches(formats, start, files, full - budget)
      ensures outcome == Crashed ==> budget == 0
      ensures outcome == Failed ==> Next(formats, files) == Fail
      ensures outcome == Activated ==> Begun(files, m) && CredentialsPass(files, 3) && NextDatabase(formats, files, m) == Pass
    {
      hide Reaches, Next, Begun, MatchesTransfer, CredentialsPass, NextCredential;
      NextIsDatabase(formats, files, m);
      MatchingExists(formats, files, Prepared(Database), m);
      MatchingExists(formats, files, Active(Database), m);
      var prepared, active := Prepared(Database), Active(Database);
      var activeMatch := MatchesTransfer(formats, files, active, m);
      if activeMatch == Broken { return Failed; }
      if activeMatch == Matching {
        if prepared in files {
          if MatchesTransfer(formats, files, prepared, m) != Matching { return Failed; }
          PassStays(files, Remove(prepared), 3, Database, m);
          SameMatch(formats, files, Apply(files, Remove(prepared)), active, active, m);
          var alive := Advance(Remove(prepared), start, full - budget);
          if !alive { return Crashed; }
        }
      } else {
        if MatchesTransfer(formats, files, prepared, m) != Matching { return Failed; }
        if active in files {
          ghost var before := files;
          var alive := RetainPreviousFile(Database, id, start, full - budget, 3, m);
          if !alive { return Crashed; }
          SameMatch(formats, before, files, prepared, prepared, m);
          AbsentDiffers(formats, files, active, m);
          NextIsDatabase(formats, files, m);
        }
        SameMatch(formats, files, Apply(files, Rename(prepared, active)), prepared, active, m);
        PassStays(files, Rename(prepared, active), 3, Database, m);
        var alive := Advance(Rename(prepared, active), start, full - budget);
        if !alive { return Crashed; }
      }
      outcome := Activated;
    }

    /** The last removals, in order; an absent file is passed over. */
    method CleanUp(ghost start: Files, ghost m: Manifest, ghost full: nat) returns (outcome: Outcome)
      requires budget <= full && Reaches(formats, start, files, full - budget)
      requires ManifestFile in files && files[ManifestFile] == Document(m) && Received(formats, files, m)
      modifies this
      ensures budget <= full && Reaches(formats, start, files, full - budget)
      ensures outcome == Crashed ==> budget == 0
      ensures outcome != Failed
      ensures outcome == Activated ==> Next(formats, files) == Finish
    {
      hide Reaches, Next, MatchesTransfer, Received;
      NextIsCleanup(formats, files, m);
      if ActivateFile in files {
        ReceivedStays(formats, files, m, ActivateFile);
        var alive := Advance(Remove(ActivateFile), start, full - budget);
        if !alive { return Crashed; }
        NextIsCleanup(formats, files, m);
      }
      if TokenFile in files {
        ReceivedStays(formats, files, m, TokenFile);
        var alive := Advance(Remove(TokenFile), start, full - budget);
        if !alive { return Crashed; }
        NextIsCleanup(formats, files, m);
      }
      ReceivedStays(formats, files, m, ManifestFile);
      var alive := Advance(Remove(ManifestFile), start, full - budget);
      if !alive { return Crashed; }
      NextIsFinish(formats, files, m);
      outcome := Activated;
    }

    /** The whole procedure, from any directory: it performs a run of the model, comes to its end or
        fails exactly where the model does, and is otherwise cut off by an exhausted budget. */
    method ActivateHubTransfer(ids: seq<nat>) returns (outcome: Outcome)
      requires |ids| == 4
      modifies this
      ensures budget <= old(budget) && Reaches(formats, old(files), files, old(budget) - budget)
      ensures outcome == Activated ==> Next(formats, files) == Finish
      ensures outcome == Failed ==> Next(formats, files) == Fail
      ensures outcome == Crashed ==> budget == 0
    {
      hide Reaches, MatchesTransfer, NextInstall, NextCleanup, CredentialsPass, NextCredential, NextDatabase;
      ghost var start, full := files, budget;
      ReachesStart(formats, start);
      if ManifestFile !in files {
        if ReceiptFile !in files || files[ReceiptFile].Raw? { return Failed; }
        return if MatchesTransfer(formats, files, Active(Database), files[ReceiptFile].manifest) == Matching then Activated else Failed;
      }
      if files[ManifestFile].Raw? { return Failed; }
      var m := files[ManifestFile].manifest;
      if ReceiptFile in files {
        if files[ReceiptFile] != Document(m) || MatchesTransfer(formats, files, Active(Database), m) != Matching {
          return Failed;
        }
        outcome := CleanUp(start, m, full);
        return;
      }
      if TokenFile !in files || files[TokenFile] != Raw(m.moveNonce) { return Failed; }
      if ActivateFile !in files {
        NextIsActivate(formats, files, m);
        var alive := Advance(Write(ActivateFile, Raw(ACTIVATE_TEXT)), start, full - budget);
        if !alive { return Crashed; }
      }
      outcome := Install(ids, start, m, full);
    }

    method Install(ids: seq<nat>, ghost start: Files, m: Manifest, ghost full: nat) returns (outcome: Outcome)
      requires |ids| == 4 && budget <= full && Reaches(formats, start, files, full - budget) && Begun(files, m)
      modifies this
      ensures budget <= full && Reaches(formats, start, files, full - budget)
      ensures outcome == Activated ==> Next(formats, files) == Finish
      ensures outcome == Failed ==> Next(formats, files) == Fail
      ensures outcome == Crashed ==> budget == 0
    {
      hide Reaches, Next, MatchesTransfer, NextCredential, NextDatabase, Begun, CredentialsPass;
      NonePass(files);
      for i := 0 to 3
        invariant budget <= full && Reaches(formats, start, files, full - budget)
        invariant Begun(files, m) && CredentialsPass(files, i)
      {
        outcome := InstallCredential(i, ids[i], start, m, full);
        if outcome != Activated { return; }
      }
      outcome := InstallDatabase(ids[3], start, m, full);
      if outcome != Activated { return; }
      if PromoteFile !in files {
        NextIsPromote(formats, files, m);
        var alive := Advance(Write(PromoteFile, Raw(PROMOTE_TEXT)), start, full - budget);
        if !alive { return Crashed; }
      }
      NextIsReceipt(formats, files, m);
      var alive := Advance(Write(ReceiptFile, Document(m)), start, full - budget);
      if !alive { return Crashed; }
      outcome := CleanUp(start, m, full);
    }

    lemma StepOf(from: Files, operation: Operation)
      requires Applies(from, operation) && Allowed(from, Next(formats, from), operation)
      ensures Steps(formats, from, operation)
    {
    }
  }

  lemma RetainHas(formats: Formats, files: Files, slot: Slot)
    requires Next(formats, files) == Retain(slot)
    ensures Active(slot) in files && Prepared(slot) in files
  {
  }

  /** Removing a backup does not change what the slot needs. */
  lemma RetainGoesOn(formats: Formats, files: Files, m: Manifest, credentials: nat, slot: Slot, name: Name)
    requires Next(formats, files) == Retain(slot) && name in files && IsBackup(name, slot)
    requires Begun(files, m) && credentials <= 3 && CredentialsPass(files, credentials)
    requires slot == if credentials < 3 then CREDENTIALS[credentials] else Database
    ensures Next(formats, files - {name}) == Retain(slot)
  {
    var after := files - {name};
    assert NextCredential(after, InstallationKey) == NextCredential(files, InstallationKey);
    assert NextCredential(after, NoiseKey) == NextCredential(files, NoiseKey);
    assert NextCredential(after, Credentials) == NextCredential(files, Credentials);
    assert NextDatabase(formats, after, m) == NextDatabase(formats, files, m);
  }

  lemma NotBefore(index: nat)
    requires index < 3
    ensures CREDENTIALS[index] !in CREDENTIALS[..index] && CREDENTIALS[index] != Database
    ensures Database !in CREDENTIALS
  {
  }

  lemma NonePass(files: Files)
    ensures CredentialsPass(files, 0)
  {
  }

  lemma PassNow(files: Files, index: nat)
    requires index < 3 && CredentialsPass(files, index) && NextCredential(files, CREDENTIALS[index]) == Pass
    ensures CredentialsPass(files, index + 1)
  {
  }

  lemma SameMatch(formats: Formats, from: Files, to: Files, name: Name, other: Name, m: Manifest)
    requires name in from && other in to && from[name] == to[other]
    ensures MatchesTransfer(formats, from, name, m) == MatchesTransfer(formats, to, other, m)
  {
  }

  lemma AbsentDiffers(formats: Formats, files: Files, name: Name, m: Manifest)
    requires name !in files
    ensures MatchesTransfer(formats, files, name, m) == Differing
  {
  }

  ghost predicate Received(formats: Formats, files: Files, m: Manifest) {
    && ReceiptFile in files && files[ReceiptFile] == Document(m)
    && MatchesTransfer(formats, files, Active(Database), m) == Matching
  }

  lemma ReceivedStays(formats: Formats, files: Files, m: Manifest, name: Name)
    requires Received(formats, files, m) && name in files && (name == ActivateFile || name == TokenFile || name == ManifestFile)
    ensures Received(formats, files - {name}, m)
  {
  }

  lemma NextIsCleanup(formats: Formats, files: Files, m: Manifest)
    requires ManifestFile in files && files[ManifestFile] == Document(m) && Received(formats, files, m)
    ensures Next(formats, files) == NextCleanup(files)
  {
  }

  lemma NextIsFinish(formats: Formats, files: Files, m: Manifest)
    requires ManifestFile !in files && Received(formats, files, m)
    ensures Next(formats, files) == Finish
  {
  }

  lemma NextIsActivate(formats: Formats, files: Files, m: Manifest)
    requires ManifestFile in files && files[ManifestFile] == Document(m) && ReceiptFile !in files
    requires TokenFile in files && files[TokenFile] == Raw(m.moveNonce) && ActivateFile !in files
    ensures Next(formats, files) == Perform(Write(ActivateFile, Raw(ACTIVATE_TEXT)))
    ensures Begun(Apply(files, Write(ActivateFile, Raw(ACTIVATE_TEXT))), m)
  {
  }

  lemma NextIsPromote(formats: Formats, files: Files, m: Manifest)
    requires Begun(files, m) && CredentialsPass(files, 3) && NextDatabase(formats, files, m) == Pass && PromoteFile !in files
    ensures var after := Apply(files, Write(PromoteFile, Raw(PROMOTE_TEXT)));
            && Next(formats, files) == Perform(Write(PromoteFile, Raw(PROMOTE_TEXT)))
            && Begun(after, m) && CredentialsPass(after, 3) && NextDatabase(formats, after, m) == Pass
  {
  }

  lemma NextIsReceipt(formats: Formats, files: Files, m: Manifest)
    requires Begun(files, m) && CredentialsPass(files, 3) && NextDatabase(formats, files, m) == Pass && PromoteFile in files
    ensures var after := Apply(files, Write(ReceiptFile, Document(m)));
            && Next(formats, files) == Perform(Write(ReceiptFile, Document(m)))
            && ReceiptFile !in files && Received(formats, after, m) && ManifestFile in after && after[ManifestFile] == Document(m)
  {
  }

  /** Any number of interrupted calls on an armed transfer, seen together: they never need more operations
      than the rank, and once a call comes to rest the outcome depends only on the start. */
  lemma AttemptsConverge(formats: Formats, start: Files, m: Manifest, files: Files, count: nat)
    requires Armed(formats, start, m) && Reaches(formats, start, files, count)
    ensures count <= Rank(formats, start, m)
    ensures Next(formats, files) == Finish ==>
              Complete(formats, start, m, files) && count == Rank(formats, start, m) && Readable(formats, start, m, Database)
    ensures Next(formats, files) == Fail ==> !Readable(formats, start, m, Database)
  {
    hide Legal, Run, Next, Armed, Rank, Complete, Readable;
    var operations :| Legal(formats, start, operations) && Run(formats, start, operations) == files && |operations| == count;
    WorkIsBounded(formats, start, m, operations);
    if Over(formats, files) { Converges(formats, start, m, operations); }
  }
}
