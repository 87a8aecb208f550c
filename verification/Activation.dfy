/** Activation of a transferred Hub: a file-system procedure that may be cut off after any durable
    operation and run again.

    The file system maps names to contents; each private write, rename and removal is one atomic step.
    `Next` reads off a directory what a fresh run of the procedure does to it first. */
module Activation {
  import opened Wrappers

  datatype Slot = InstallationKey | NoiseKey | Credentials | Database

  /** `Backup(slot, id)` is `<name>.previous-<id>`. */
  datatype Name =
    | Active(slot: Slot)
    | Prepared(slot: Slot)
    | Incoming(slot: Slot)
    | Backup(slot: Slot, id: nat)
    | ManifestFile
    | ReceiptFile
    | TokenFile
    | ActivateFile
    | PromoteFile

  type Bytes = seq<bv8>

  datatype Manifest = Manifest(
    moveNonce: Bytes,
    installationId: string,
    generation: nat,
    targetHost: string,
    databaseSize: nat,
    databaseDigest: string,
    credentialsDigest: string)

  /** A serialized manifest is kept as the manifest it parses to. */
  datatype Content = Raw(bytes: Bytes) | Document(manifest: Manifest)

  datatype Installation = Installation(id: string, generation: nat, hubHost: string, publicKey: string)

  datatype Opened = Unreadable | NoInstallation | Holds(installation: Installation, hostKeys: map<string, string>)

  /** What the store and the key formats make of bytes. */
  datatype Formats = Formats(
    open: Bytes -> Opened,
    digest: Bytes -> string,
    publicKey: Bytes -> Option<string>,
    isNoiseKey: Bytes -> bool,
    isJsonObject: Bytes -> bool)

  type Files = map<Name, Content>

  datatype Operation = Write(name: Name, content: Content) | Rename(source: Name, target: Name) | Remove(name: Name)

  /** `Retain(slot)`: remove the backups of the slot, in any order, then move the active file to one. */
  datatype Move = Finish | Fail | Perform(operation: Operation) | Retain(slot: Slot) | Pass

  datatype Match = Matching | Differing | Broken

  const CREDENTIALS: seq<Slot> := [InstallationKey, NoiseKey, Credentials]
  const ACTIVATE_TEXT: Bytes := [97, 99, 116, 105, 118, 97, 116, 101]
  const PROMOTE_TEXT: Bytes := [114, 101, 97, 100, 121]

  predicate Applies(files: Files, operation: Operation) {
    match operation
    case Write(name, _) => name !in files
    case Rename(source, _) => source in files
    case Remove(name) => name in files
  }

  function Apply(files: Files, operation: Operation): Files
    requires Applies(files, operation)
  {
    match operation
    case Write(name, content) => files[name := content]
    case Rename(source, target) => (files - {source})[target := files[source]]
    case Remove(name) => files - {name}
  }

  function MatchesTransfer(formats: Formats, files: Files, name: Name, m: Manifest): Match {
    if name !in files then Differing
    else if files[name].Document? then Broken
    else
      match formats.open(files[name].bytes)
      case Unreadable => Broken
      case NoInstallation => Differing
      case Holds(i, _) =>
        if i.id == m.installationId && i.generation == m.generation && i.hubHost == m.targetHost then Matching
        else Differing
  }

  function NextCredential(files: Files, slot: Slot): Move {
    if Prepared(slot) in files && Active(slot) !in files then Perform(Rename(Prepared(slot), Active(slot)))
    else if Prepared(slot) in files then
      if files[Prepared(slot)] == files[Active(slot)] then Perform(Remove(Prepared(slot))) else Retain(slot)
    else if Active(slot) !in files then Fail
    else Pass
  }

  function NextDatabase(formats: Formats, files: Files, m: Manifest): Move {
    match MatchesTransfer(formats, files, Active(Database), m)
    case Broken => Fail
    case Matching =>
      if Prepared(Database) !in files then Pass
      else if MatchesTransfer(formats, files, Prepared(Database), m) != Matching then Fail
      else Perform(Remove(Prepared(Database)))
    case Differing =>
      if MatchesTransfer(formats, files, Prepared(Database), m) != Matching then Fail
      else if Active(Database) in files then Retain(Database)
      else Perform(Rename(Prepared(Database), Active(Database)))
  }

  function NextCleanup(files: Files): Move {
    if ActivateFile in files then Perform(Remove(ActivateFile))
    else if TokenFile in files then Perform(Remove(TokenFile))
    else Perform(Remove(ManifestFile))
  }

  function NextInstall(formats: Formats, files: Files, m: Manifest): Move {
    if ActivateFile !in files then Perform(Write(ActivateFile, Raw(ACTIVATE_TEXT)))
    else if NextCredential(files, InstallationKey) != Pass then NextCredential(files, InstallationKey)
    else if NextCredential(files, NoiseKey) != Pass then NextCredential(files, NoiseKey)
    else if NextCredential(files, Credentials) != Pass then NextCredential(files, Credentials)
    else if NextDatabase(formats, files, m) != Pass then NextDatabase(formats, files, m)
    else if PromoteFile !in files then Perform(Write(PromoteFile, Raw(PROMOTE_TEXT)))
    else Perform(Write(ReceiptFile, Document(m)))
  }

  function Next(formats: Formats, files: Files): Move {
    if ManifestFile !in files then
      if ReceiptFile in files && files[ReceiptFile].Document?
         && MatchesTransfer(formats, files, Active(Database), files[ReceiptFile].manifest) == Matching
      then Finish else Fail
    else if !files[ManifestFile].Document? then Fail
    else
      var m := files[ManifestFile].manifest;
      if ReceiptFile in files then
        if files[ReceiptFile] == Document(m) && MatchesTransfer(formats, files, Active(Database), m) == Matching
        then NextCleanup(files) else Fail
      else if TokenFile !in files || files[TokenFile] != Raw(m.moveNonce) then Fail
      else NextInstall(formats, files, m)
  }

  predicate IsBackup(name: Name, slot: Slot) {
    name.Backup? && name.slot == slot
  }

  predicate HasBackup(files: Files, slot: Slot) {
    exists name :: name in files && IsBackup(name, slot)
  }

  /** The operations a run may choose for its next move. */
  predicate Allowed(files: Files, move: Move, operation: Operation) {
    match move
    case Perform(expected) => operation == expected
    case Retain(slot) =>
      if HasBackup(files, slot) then
        operation.Remove? && operation.name in files && IsBackup(operation.name, slot)
      else operation.Rename? && operation.source == Active(slot) && IsBackup(operation.target, slot)
    case _ => false
  }

  predicate Steps(formats: Formats, files: Files, operation: Operation) {
    Allowed(files, Next(formats, files), operation) && Applies(files, operation)
  }

  /** A sequence of durable operations of activation runs, wherever it was cut off and started again. */
  predicate Legal(formats: Formats, files: Files, operations: seq<Operation>)
    decreases |operations|
  {
    operations == []
    || (Steps(formats, files, operations[0]) && Legal(formats, Apply(files, operations[0]), operations[1..]))
  }

  function Run(formats: Formats, files: Files, operations: seq<Operation>): Files
    requires Legal(formats, files, operations)
    decreases |operations|
  {
    if operations == [] then files else Run(formats, Apply(files, operations[0]), operations[1..])
  }
}
