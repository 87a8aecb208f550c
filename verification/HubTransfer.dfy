/** Receiving a Hub: begin, the database chunks, commit and arm; together they establish exactly what
    activation starts from. */
module HubTransfer {
  import opened Wrappers
  import opened Activation
  import opened ActivationLaws

  /** What the source sends ahead of the database; digests and size are part of the manifest. */
  datatype Start = Start(manifest: Manifest, installationKey: Bytes, noiseKey: Bytes, credentials: Bytes)

  const MAX_DATABASE: nat := 0x4000_0000
  const MAX_CHUNK: nat := 0x2_0000

  const STALE: set<Name> :=
    {Incoming(Database), Prepared(Database), Incoming(InstallationKey), Prepared(InstallationKey),
     Incoming(NoiseKey), Prepared(NoiseKey), Incoming(Credentials), Prepared(Credentials),
     ManifestFile, ReceiptFile, TokenFile}

  function Begin(files: Files, t: Start): Option<Files> {
    if t.manifest.databaseSize > MAX_DATABASE then None
    else Some((files - STALE)[Incoming(InstallationKey) := Raw(t.installationKey)]
              [Incoming(NoiseKey) := Raw(t.noiseKey)][Incoming(Credentials) := Raw(t.credentials)]
              [Incoming(Database) := Raw([])][ManifestFile := Document(t.manifest)])
  }

  /** A chunk is appended only at the end of what is already there. */
  function WriteChunk(files: Files, offset: nat, data: Bytes): Option<Files> {
    if |data| > MAX_CHUNK || Incoming(Database) !in files || files[Incoming(Database)].Document?
       || |files[Incoming(Database)].bytes| != offset
    then None
    else Some(files[Incoming(Database) := Raw(files[Incoming(Database)].bytes + data)])
  }

  function BytesAt(files: Files, name: Name): Option<Bytes> {
    if name in files && files[name].Raw? then Some(files[name].bytes) else None
  }

  predicate Authentic(formats: Formats, files: Files, m: Manifest, localKey: Option<string>) {
    && BytesAt(files, Incoming(Database)).Some? && BytesAt(files, Incoming(Credentials)).Some?
    && BytesAt(files, Incoming(InstallationKey)).Some? && BytesAt(files, Incoming(NoiseKey)).Some?
    && var database := BytesAt(files, Incoming(Database)).value;
       var credentials := BytesAt(files, Incoming(Credentials)).value;
       && |database| == m.databaseSize && formats.digest(database) == m.databaseDigest
       && formats.digest(credentials) == m.credentialsDigest
       && formats.open(database).Holds?
       && var installation := formats.open(database).installation;
          && installation.id == m.installationId && installation.generation == m.generation
          && installation.hubHost == m.targetHost
          && formats.publicKey(BytesAt(files, Incoming(InstallationKey)).value) == Some(installation.publicKey)
          && formats.isNoiseKey(BytesAt(files, Incoming(NoiseKey)).value)
          && formats.isJsonObject(credentials)
          && localKey.Some? && m.targetHost in formats.open(database).hostKeys
          && formats.open(database).hostKeys[m.targetHost] == localKey.value
  }

  function Prepare(files: Files, slot: Slot): Files
    requires Incoming(slot) in files
  {
    Apply(files, Rename(Incoming(slot), Prepared(slot)))
  }

  function Commit(formats: Formats, files: Files, localKey: Option<string>): Option<Files> {
    if ManifestFile !in files || files[ManifestFile].Raw? then None
    else if !Authentic(formats, files, files[ManifestFile].manifest, localKey) then None
    else Some(Prepare(Prepare(Prepare(Prepare(files, InstallationKey), NoiseKey), Credentials), Database))
  }

  function Arm(files: Files, nonce: Bytes): Option<Files> {
    if ManifestFile !in files || files[ManifestFile].Raw? || files[ManifestFile].manifest.moveNonce != nonce then None
    else if TokenFile in files then Some(files)
    else Some(files[TokenFile := Raw(nonce)])
  }

  datatype Chunk = Chunk(offset: nat, data: Bytes)

  /** Every chunk offered; a refused one changes nothing. */
  function WriteAll(files: Files, chunks: seq<Chunk>): Files {
    if chunks == [] then files
    else
      var written := WriteChunk(files, chunks[0].offset, chunks[0].data);
      WriteAll(if written.Some? then written.value else files, chunks[1..])
  }

  /** The data of the chunks that fit, when `length` bytes are there already. */
  function Fitting(length: nat, chunks: seq<Chunk>): Bytes
    decreases |chunks|
  {
    if chunks == [] then []
    else if |chunks[0].data| <= MAX_CHUNK && chunks[0].offset == length then
      chunks[0].data + Fitting(length + |chunks[0].data|, chunks[1..])
    else Fitting(length, chunks[1..])
  }

  /** Whatever order, repetition or gaps the chunks come with, the database holds the bytes of those that
      fitted, each at its own offset, and no other file is touched. */
  lemma {:induction false} ChunksLandInOrder(files: Files, chunks: seq<Chunk>)
    requires BytesAt(files, Incoming(Database)).Some?
    ensures var before := BytesAt(files, Incoming(Database)).value;
            WriteAll(files, chunks) == files[Incoming(Database) := Raw(before + Fitting(|before|, chunks))]
    decreases |chunks|
  {
    var before := BytesAt(files, Incoming(Database)).value;
    if chunks == [] {
      assert before + [] == before;
    } else {
      var written := WriteChunk(files, chunks[0].offset, chunks[0].data);
      if written.Some? {
        ChunksLandInOrder(written.value, chunks[1..]);
        assert before + chunks[0].data + Fitting(|before| + |chunks[0].data|, chunks[1..])
            == before + Fitting(|before|, chunks);
      } else {
        ChunksLandInOrder(files, chunks[1..]);
      }
    }
  }

  lemma CommitMoves(formats: Formats, files: Files, localKey: Option<string>, slot: Slot)
    requires Commit(formats, files, localKey).Some?
    ensures var after := Commit(formats, files, localKey).value;
            && Prepared(slot) in after && Incoming(slot) in files && after[Prepared(slot)] == files[Incoming(slot)] && Incoming(slot) !in after
            && Same(files, after, Active(slot))
  {
  }

  lemma CommitKeepsControl(formats: Formats, files: Files, localKey: Option<string>, name: Name)
    requires Commit(formats, files, localKey).Some? && (IsControl(name) || name.Backup?)
    ensures Same(files, Commit(formats, files, localKey).value, name)
  {
  }

  /** A transfer that is begun, filled, committed and armed is armed in the sense of activation, for the
      manifest that was sent; the prepared files are the ones that were sent, the database the accepted
      chunks with the announced size and digest, and no active file or backup has been touched. */
  lemma TransferArms(formats: Formats, files: Files, t: Start, chunks: seq<Chunk>, localKey: Option<string>, nonce: Bytes)
    requires Begin(files, t).Some?
    requires Commit(formats, WriteAll(Begin(files, t).value, chunks), localKey).Some?
    requires Arm(Commit(formats, WriteAll(Begin(files, t).value, chunks), localKey).value, nonce).Some?
    ensures var armed := Arm(Commit(formats, WriteAll(Begin(files, t).value, chunks), localKey).value, nonce).value;
            && Armed(formats, armed, t.manifest)
            && armed[Prepared(Database)] == Raw(Fitting(0, chunks))
            && |Fitting(0, chunks)| == t.manifest.databaseSize
            && formats.digest(Fitting(0, chunks)) == t.manifest.databaseDigest
            && armed[Prepared(InstallationKey)] == Raw(t.installationKey)
            && armed[Prepared(NoiseKey)] == Raw(t.noiseKey)
            && armed[Prepared(Credentials)] == Raw(t.credentials)
            && (forall slot :: Same(files, armed, Active(slot)))
  {
    hide WriteAll, Commit, Authentic;
    var begun := Begin(files, t).value;
    ChunksLandInOrder(begun, chunks);
    var filled := WriteAll(begun, chunks);
    var committed := Commit(formats, filled, localKey).value;
    var armed := Arm(committed, nonce).value;
    forall slot
      ensures Prepared(slot) in armed && Incoming(slot) in filled && armed[Prepared(slot)] == filled[Incoming(slot)] && Same(files, armed, Active(slot))
    {
      CommitMoves(formats, filled, localKey, slot);
      assert Same(files, filled, Active(slot));
    }
    CommitKeepsControl(formats, filled, localKey, ManifestFile);
    CommitKeepsControl(formats, filled, localKey, ReceiptFile);
    CommitKeepsControl(formats, filled, localKey, TokenFile);
    CommittedDatabase(formats, filled, localKey);
    assert [] + Fitting(0, chunks) == Fitting(0, chunks);
  }

  lemma CommittedDatabase(formats: Formats, files: Files, localKey: Option<string>)
    requires Commit(formats, files, localKey).Some?
    ensures ManifestFile in files && files[ManifestFile].Document? && BytesAt(files, Incoming(Database)).Some?
    ensures var m := files[ManifestFile].manifest;
            var database := BytesAt(files, Incoming(Database)).value;
            && |database| == m.databaseSize && formats.digest(database) == m.databaseDigest
            && MatchesTransfer(formats, files, Incoming(Database), m) == Matching
            && MatchesTransfer(formats, Commit(formats, files, localKey).value, Prepared(Database), m) == Matching
  {
  }

  /** The receiving Host's code over its directory. */
  class TransferRoot {
    var files: Files
    const formats: Formats
    const localKey: Option<string>

    constructor (formats: Formats, localKey: Option<string>, files: Files)
      ensures this.formats == formats && this.localKey == localKey && this.files == files
    {
      this.formats, this.localKey, this.files := formats, localKey, files;
    }

    method RemoveIfPresent(name: Name)
      modifies this
      ensures files == old(files) - {name}
    {
      if name in files { files := files - {name}; }
    }

    method RenameFile(source: Name, target: Name)
      requires source in files
      modifies this
      ensures files == Apply(old(files), Rename(source, target))
    {
      files := (files - {source})[target := files[source]];
    }

    /** What an earlier attempt may have left is removed. */
    method RemoveStale()
      modifies this
      ensures files == old(files) - STALE
    {
      var names := [Incoming(Database), Prepared(Database), Incoming(InstallationKey), Prepared(InstallationKey),
                    Incoming(NoiseKey), Prepared(NoiseKey), Incoming(Credentials), Prepared(Credentials),
                    ManifestFile, ReceiptFile, TokenFile];
      ghost var removed: set<Name> := {};
      for i := 0 to |names|
        invariant removed == set name | name in names[..i]
        invariant files == old(files) - removed
      {
        RemoveIfPresent(names[i]);
        removed := removed + {names[i]};
      }
      assert names[..|names|] == names;
      assert removed == STALE;
    }

    method BeginHubTransfer(t: Start) returns (ok: bool)
      modifies this
      ensures ok == Begin(old(files), t).Some?
      ensures files == if ok then Begin(old(files), t).value else old(files)
    {
      if t.manifest.databaseSize > MAX_DATABASE { return false; }
      RemoveStale();
      files := files[Incoming(InstallationKey) := Raw(t.installationKey)];
      files := files[Incoming(NoiseKey) := Raw(t.noiseKey)];
      files := files[Incoming(Credentials) := Raw(t.credentials)];
      files := files[Incoming(Database) := Raw([])];
      files := files[ManifestFile := Document(t.manifest)];
      ok := true;
    }

    method WriteHubTransfer(offset: nat, data: Bytes) returns (length: Option<nat>)
      modifies this
      ensures length.Some? == WriteChunk(old(files), offset, data).Some?
      ensures files == if length.Some? then WriteChunk(old(files), offset, data).value else old(files)
      ensures length.Some? ==> length.value == offset + |data| && BytesAt(files, Incoming(Database)).Some?
                               && |BytesAt(files, Incoming(Database)).value| == length.value
    {
      if |data| > MAX_CHUNK || Incoming(Database) !in files || files[Incoming(Database)].Document? { return None; }
      var current := |files[Incoming(Database)].bytes|;
      if current != offset { return None; }
      files := files[Incoming(Database) := Raw(files[Incoming(Database)].bytes + data)];
      length := Some(current + |data|);
    }

    /** All checks come before the first rename. */
    method CommitHubTransfer() returns (ok: bool)
      modifies this
      ensures ok == Commit(formats, old(files), localKey).Some?
      ensures files == if ok then Commit(formats, old(files), localKey).value else old(files)
    {
      hide Authentic;
      if ManifestFile !in files || files[ManifestFile].Raw? { return false; }
      if !Authentic(formats, files, files[ManifestFile].manifest, localKey) { return false; }
      AllIncoming(formats, files, files[ManifestFile].manifest, localKey);
      RenameFile(Incoming(InstallationKey), Prepared(InstallationKey));
      RenameFile(Incoming(NoiseKey), Prepared(NoiseKey));
      RenameFile(Incoming(Credentials), Prepared(Credentials));
      RenameFile(Incoming(Database), Prepared(Database));
      ok := true;
    }

    method ArmHubTransfer(nonce: Bytes) returns (ok: bool)
      modifies this
      ensures ok == Arm(old(files), nonce).Some?
      ensures files == if ok then Arm(old(files), nonce).value else old(files)
    {
      if ManifestFile !in files || files[ManifestFile].Raw? { return false; }
      if files[ManifestFile].manifest.moveNonce != nonce { return false; }
      if TokenFile !in files { files := files[TokenFile := Raw(nonce)]; }
      ok := true;
    }
  }

  lemma AllIncoming(formats: Formats, files: Files, m: Manifest, localKey: Option<string>)
    requires Authentic(formats, files, m, localKey)
    ensures forall slot :: Incoming(slot) in files
  {
    forall slot ensures Incoming(slot) in files {
      assert slot == InstallationKey || slot == NoiseKey || slot == Credentials || slot == Database;
    }
  }
}
