/** Values shared by the journal, the blob provider and the Library.
    SHA-256 identities are injective constructors over the fields that are hashed. */
module Types {

  datatype Option<+T> = None | Some(value: T)

  datatype Result<+T> = Ok(value: T) | Err(error: Error)

  datatype Error =
    | ScopeFenced | InconsistentFence | NotFenced
    | DifferentIdentity | PermanentlyRetired | OverQuota
    | ConstraintViolation
    | NotFound | Unavailable | IncompleteReceipt | InvalidIds | InvalidReference
    | DifferentReference | ReferenceReleased
    | Stale | ObjectVersionChanged | NoMatchingObject
    | Retained(reason: Keep) | IncompleteRetirement | LostFence
    | OtherScope | InventoryInconsistent | NotRetired
    | LegacyRefused

  predicate HasSuffix(s: string, suffix: string) {
    |suffix| <= |s| && s[|s| - |suffix|..] == suffix
  }

  /** Why checkPipelineLibraryRetirement keeps a file. */
  datatype Keep =
    | Pinned | ForeignHistory | RetainedHistory | DiffersFromReceipt | RetainedVersions
    | Trained | NotReady | EntryDiffers | Filed | Labelled

  /** A file id is derived from the intent's id, or is any other bare id. */
  datatype FileId = DerivedFile(intent: IntentId) | BareFile(name: string)

  /** The path of an adopted log embeds the id of the adopted file. */
  datatype Path = ExportPath(path: string) | LegacyLogPath(file: FileId, name: string)

  /** pipelineIntentID hashes exactly these five fields. */
  datatype IntentId = IntentId(owner: string, run: string, step: string, attempt: int, path: Path)

  datatype Scope = Scope(owner: string, run: string, step: string, attempt: int)

  /** library/<owner>/<file>/<name>, with slash-free segments. */
  datatype ObjectKey = ObjectKey(owner: string, file: FileId, name: string)

  datatype Place = Place(container: string, obj: ObjectKey)

  datatype Url = NoUrl | ProviderUrl(place: Place) | ObjectUrl(obj: ObjectKey) | OtherUrl(text: string)

  datatype Identity = Identity(
    owner: string, run: string, step: string, attempt: int,
    path: Path, name: string, mime: string, container: string,
    size: int, sha: string)

  const MaxStreamBytes: int := 2147483648
  const MaxLegacyLogBytes: int := 33554432
  const PipelineSource: string := "pipeline"

  function IntentIdOf(x: Identity): IntentId {
    IntentId(x.owner, x.run, x.step, x.attempt, x.path)
  }

  function ScopeOf(x: Identity): Scope {
    Scope(x.owner, x.run, x.step, x.attempt)
  }

  datatype UploadState = Reserved | BlobVerified | Ready | Retiring | Retired

  predicate InRetirement(st: UploadState) {
    st == Retiring || st == Retired
  }

  function Rank(st: UploadState): nat {
    match st
    case Reserved => 0
    case BlobVerified => 1
    case Ready => 2
    case Retiring => 3
    case Retired => 4
  }

  /** One row of pipeline_artifact_uploads. */
  datatype Upload = Upload(
    owner: string, identity: Identity, file: FileId, obj: ObjectKey, size: int,
    generation: int, state: UploadState, url: Url, etag: string,
    lease: string, retiredEtag: string, purged: bool)

  /** pipelineUploadIntent: what a process remembers of a row. */
  datatype Intent = Intent(
    id: IntentId, file: FileId, obj: ObjectKey, state: UploadState, url: Url, etag: string,
    generation: int, identity: Identity)

  function IntentOf(k: IntentId, r: Upload): Intent {
    Intent(k, r.file, r.obj, r.state, r.url, r.etag, r.generation, r.identity)
  }

  /** StoredFileReceipt. */
  datatype Receipt = Receipt(
    id: IntentId, file: FileId, scope: Scope, path: Path, container: string,
    obj: ObjectKey, url: Url, etag: string, size: int, sha: string)

  function ReceiptOf(i: Intent): Receipt {
    Receipt(i.id, i.file, ScopeOf(i.identity), i.identity.path, i.identity.container,
            i.obj, i.url, i.etag, i.identity.size, i.identity.sha)
  }

  function PlaceOf(r: Upload): Place {
    Place(r.identity.container, r.obj)
  }

  function PlaceOfIntent(i: Intent): Place {
    Place(i.identity.container, i.obj)
  }

  /** pipelineIntentInScope */
  predicate InScope(k: IntentId, x: Identity, scope: Scope) {
    k == IntentIdOf(x) && ScopeOf(x) == scope
  }

  datatype RefState = Active | Released

  datatype RefKey = RefKey(scope: Scope, reference: string)

  /** One row of pipeline_artifact_references. */
  datatype Reference = Reference(owner: string, reference: string, scope: Scope, ids: seq<IntentId>, state: RefState)

  /** One row of pipeline_artifact_scope_fences. */
  datatype FenceRow = FenceRow(owner: string, scope: Scope)
}
