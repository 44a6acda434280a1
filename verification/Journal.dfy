/** The artifact journal's SQL transactions, each as one function from tables to tables.
    A rolled back transaction leaves the tables as they were. */
module Journal {
  import opened Types
  import opened Sizes
  import opened Library
  import opened Orders
  import Sums

  datatype Db = Db(
    uploads: map<IntentId, Upload>,
    references: map<RefKey, Reference>,
    fences: map<Scope, FenceRow>,
    library: Shelf)

  datatype Tx<+T> = Commit(db: Db, value: T) | Rollback(error: Error)

  const EmptyDb: Db := Db(map[], map[], map[], Shelf(map[], map[], {}))

  function SetUpload(db: Db, k: IntentId, r: Upload): Db {
    db.(uploads := db.uploads[k := r])
  }

  predicate FileTaken(db: Db, f: FileId) {
    exists k :: k in db.uploads && db.uploads[k].file == f
  }

  /** guard_retired_pipeline_library_file: the Library trigger refuses writes for such a file. */
  predicate FileRetiring(db: Db, f: FileId) {
    exists k :: k in db.uploads && db.uploads[k].file == f && InRetirement(db.uploads[k].state)
  }

  lemma SameTrigger(a: Db, b: Db, f: FileId)
    requires a.uploads == b.uploads
    ensures FileRetiring(a, f) == FileRetiring(b, f)
  {
  }

  /****** Producer scope fences ******/

  /** readPipelineScopeFence */
  function ReadFence(db: Db, scope: Scope): Result<bool> {
    if scope !in db.fences then Ok(false)
    else if db.fences[scope].scope != scope || db.fences[scope].owner != scope.owner then Err(InconsistentFence)
    else Ok(true)
  }

  /** guard_pipeline_artifact_scope: the journal's own trigger on INSERT and on generation changes. */
  predicate FencedByTrigger(db: Db, owner: string, x: Identity) {
    exists f :: f in db.fences && db.fences[f].owner == owner
      && db.fences[f].scope.run == x.run && db.fences[f].scope.step == x.step && db.fences[f].scope.attempt == x.attempt
  }

  /** FenceRunFileScope */
  function Fence(db: Db, scope: Scope): Tx<()> {
    match ReadFence(db, scope)
    case Err(e) => Rollback(e)
    case Ok(true) => Commit(db, ())
    case Ok(false) => Commit(db.(fences := db.fences[scope := FenceRow(scope.owner, scope)]), ())
  }

  /****** Capacity ******/

  function JournalCharge(r: Upload): int {
    if r.state == Retired then 0 else r.size
  }

  /** A current file row which names exactly the bytes a journal row retains. */
  predicate Names(row: FileRow, r: Upload) {
    r.url != NoUrl && row.url == r.url && row.sha == r.identity.sha
    && QuotaSize(row.size).Some? && QuotaSize(row.size).value as int == r.size
  }

  predicate Deduplicated(db: Db, owner: string, f: FileId, row: FileRow) {
    exists k :: k in db.uploads && db.uploads[k].owner == owner && db.uploads[k].file == f && Names(row, db.uploads[k])
  }

  function FileCharge(db: Db, owner: string, f: FileId, row: FileRow): int {
    if QuotaSize(row.size).None? || Deduplicated(db, owner, f, row) then 0 else QuotaSize(row.size).value as int
  }

  ghost function JournalCharges(db: Db, owner: string): map<IntentId, int> {
    map k | k in db.uploads && db.uploads[k].owner == owner :: JournalCharge(db.uploads[k])
  }

  predicate OwnedFile(db: Db, owner: string, f: FileId) {
    FileHead(db.library, f).Some? && FileHead(db.library, f).value.owner == Some(owner)
  }

  ghost function LibraryCharges(db: Db, owner: string): map<FileId, int> {
    map f | f in db.library.files && OwnedFile(db, owner, f) :: FileCharge(db, owner, f, FileHead(db.library, f).value)
  }

  /** The measured footprint of an owner: retained journal bytes and every other Library byte. */
  ghost function Footprint(db: Db, owner: string): int {
    Sums.Sum(JournalCharges(db, owner)) + Sums.Sum(LibraryCharges(db, owner))
  }

  predicate Readable(sizes: seq<Number>) {
    forall i :: 0 <= i < |sizes| ==> QuotaSize(sizes[i]).Some?
  }

  function Total(sizes: seq<Number>): int
    requires Readable(sizes)
  {
    if sizes == [] then 0
    else Total(sizes[..|sizes| - 1]) + QuotaSize(sizes[|sizes| - 1]).value as int
  }

  lemma {:induction false} TotalNonNegative(sizes: seq<Number>)
    requires Readable(sizes)
    ensures 0 <= Total(sizes)
  {
    if sizes != [] {
      TotalNonNegative(sizes[..|sizes| - 1]);
    }
  }

  predicate FilesReadable(db: Db, owner: string) {
    forall f :: f in db.library.files && OwnedFile(db, owner, f) ==> QuotaSize(FileHead(db.library, f).value.size).Some?
  }

  /** What admitPipelineStream decides: `others` are the sizes of superseded versions and open sessions. */
  ghost predicate Admits(db: Db, owner: string, size: int, others: seq<Number>, quota: int) {
    && 0 <= size
    && FilesReadable(db, owner)
    && Readable(others)
    && size + Footprint(db, owner) + Total(others) <= quota
  }

  /****** Reservation, verification, finalization ******/

  /** The identity checks of streamIdentity that later steps rely on. */
  predicate ValidIdentity(x: Identity) {
    0 <= x.size <= MaxStreamBytes && 1 <= x.attempt
  }

  /** INSERT INTO pipeline_artifact_uploads, with its keys, its CHECK and its trigger. */
  function InsertUpload(db: Db, k: IntentId, r: Upload): Tx<()> {
    if k in db.uploads || FileTaken(db, r.file) || (exists q :: q in db.uploads && db.uploads[q].obj == r.obj)
       || !(0 <= r.size <= MaxStreamBytes)
    then Rollback(ConstraintViolation)
    else if FencedByTrigger(db, r.owner, r.identity) then Rollback(ScopeFenced)
    else Commit(SetUpload(db, k, r), ())
  }

  function NewUpload(x: Identity): Upload {
    var k := IntentIdOf(x);
    var f := DerivedFile(k);
    Upload(x.owner, x, f, ObjectKey(x.owner, f, x.name), x.size, 1, Reserved, NoUrl, "", "", "", false)
  }

  /** reserveStream */
  ghost function Reserve(db: Db, x: Identity, others: seq<Number>, quota: int): Tx<Intent> {
    match ReadFence(db, ScopeOf(x))
    case Err(e) => Rollback(e)
    case Ok(true) => Rollback(ScopeFenced)
    case Ok(false) =>
      var k := IntentIdOf(x);
      if k in db.uploads then
        var r := db.uploads[k];
        if r.identity != x then Rollback(DifferentIdentity)
        else if InRetirement(r.state) then Rollback(PermanentlyRetired)
        else if FencedByTrigger(db, r.owner, r.identity) then Rollback(ScopeFenced)
        else
          var next := r.(generation := r.generation + 1);
          Commit(SetUpload(db, k, next), IntentOf(k, next))
      else if !Admits(db, x.owner, x.size, others, quota) then Rollback(OverQuota)
      else
        match InsertUpload(db, k, NewUpload(x))
        case Rollback(e) => Rollback(e)
        case Commit(after, _) => Commit(after, IntentOf(k, NewUpload(x)))
  }

  /** savePipelineVerified */
  function SaveVerified(db: Db, i: Intent, url: Url, etag: string): Tx<()> {
    if i.id !in db.uploads then Rollback(NotFound)
    else
      var r := db.uploads[i.id];
      if r.generation != i.generation || InRetirement(r.state) then Rollback(Stale)
      else if r.etag != "" && (r.etag != etag || r.url != url) then Rollback(ObjectVersionChanged)
      else
        Commit(SetUpload(db, i.id, r.(url := url, etag := etag, state := if r.state == Ready then Ready else BlobVerified)), ())
  }

  /** The check finalizeStream makes once it holds the owner lock and the row lock. */
  function FinalizeCheck(db: Db, i: Intent): Result<()> {
    if i.id !in db.uploads then Err(NotFound)
    else
      var r := db.uploads[i.id];
      if r.generation != i.generation || (r.state != BlobVerified && r.state != Ready) then Err(Stale)
      else if r.etag != i.etag || r.url != i.url then Err(NoMatchingObject)
      else Ok(())
  }

  /** recordStoredPipelineFile */
  function RecordedRow(i: Intent): FileRow
    requires 0 <= i.identity.size <= MaxStreamBytes
  {
    var x := i.identity;
    FileRow(Some(x.owner), Some(PipelineSource), x.name, x.mime, x.sha, i.url, x.run, x.step,
            IntNumber(x.size as int64), "stored", Some(IntNumber(1)), NullList)
  }

  lemma RecordedMatches(i: Intent)
    requires ValidIdentity(i.identity)
    ensures Matches(RecordedRow(i), i.identity, i.url) && RecordedRow(i).status == "stored"
  {
  }

  /** The file's current row is ready and presents exactly this object. */
  ghost predicate PresentedAs(head: Option<FileRow>, i: Intent) {
    head.Some? && head.value.status == "ready" && Shows(head.value, i.identity, i.url)
  }

  /** Whether finalization can end in a presentation of exactly this object. */
  ghost predicate Presentable(db: Db, i: Intent) {
    match FileHead(db.library, i.file)
    case None => !FileRetiring(db, i.file)
    case Some(row) =>
      Shows(row, i.identity, i.url) && (row.status == "ready" || (row.status == "stored" && !FileRetiring(db, i.file)))
  }

  lemma StatusIrrelevant(row: FileRow, i: Intent)
    ensures Matches(row.(status := "ready"), i.identity, i.url) == Matches(row, i.identity, i.url)
  {
  }

  /** The finalizer's last statement updates the row only at its own generation. */
  function FinalizeCommit(db: Db, i: Intent): Db {
    if i.id in db.uploads && db.uploads[i.id].generation == i.generation
    then SetUpload(db, i.id, db.uploads[i.id].(state := Ready))
    else db
  }

  /****** Receipts and references ******/

  predicate Complete(k: IntentId, r: Upload) {
    k == IntentIdOf(r.identity) && r.url != NoUrl && r.etag != ""
  }

  /** The WHERE clause of readPipelineReceipts. */
  predicate Selected(db: Db, scope: Scope, k: IntentId) {
    k in db.uploads && db.uploads[k].state == Ready && db.uploads[k].owner == scope.owner && ScopeOf(db.uploads[k].identity) == scope
  }

  /** The receipts of the selected rows among `ids`, in the order of `ids`. */
  function CollectReceipts(db: Db, scope: Scope, ids: seq<IntentId>): Result<seq<Receipt>> {
    if ids == [] then Ok([])
    else
      var n := |ids| - 1;
      match CollectReceipts(db, scope, ids[..n])
      case Err(e) => Err(e)
      case Ok(found) =>
        if !Selected(db, scope, ids[n]) then Ok(found)
        else if !Complete(ids[n], db.uploads[ids[n]]) then Err(IncompleteReceipt)
        else Ok(found + [ReceiptOf(IntentOf(ids[n], db.uploads[ids[n]]))])
  }

  /** readPipelineReceipts */
  function ReadReceipts(db: Db, scope: Scope, ids: seq<IntentId>): Result<seq<Receipt>> {
    match CollectReceipts(db, scope, ids)
    case Err(e) => Err(e)
    case Ok(found) => if |found| == |ids| then Ok(found) else Err(Unavailable)
  }

  const MaxReceiptIds: int := 1024

  /** The id checks of validatePipelineReceiptScope. */
  ghost predicate ValidIds(ids: seq<IntentId>) {
    |ids| <= MaxReceiptIds && Distinct(ids)
  }

  /** The first id that cannot be pinned, in the order the ids are locked. */
  function PinRefusal(db: Db, scope: Scope, ids: seq<IntentId>): Option<Error> {
    if ids == [] then None
    else
      var n := |ids| - 1;
      var earlier := PinRefusal(db, scope, ids[..n]);
      if earlier.Some? then earlier
      else if ids[n] !in db.uploads then Some(NotFound)
      else if !InScope(ids[n], db.uploads[ids[n]].identity, scope) || db.uploads[ids[n]].state != Ready then Some(Unavailable)
      else None
  }

  function SetReference(db: Db, key: RefKey, r: Reference): Db {
    db.(references := db.references[key := r])
  }

  /** changeRunFileReference: pin when `release` is false. */
  ghost function ChangeReference(db: Db, less: (IntentId, IntentId) -> bool, scope: Scope, reference: string,
                                 ids: seq<IntentId>, release: bool): Tx<seq<Receipt>> {
    if !ValidIds(ids) then Rollback(InvalidIds)
    else if ids == [] || reference == "" || |reference| > 512 then Rollback(InvalidReference)
    else
      var sorted := Sort(less, ids);
      var key := RefKey(scope, reference);
      var known := key in db.references && db.references[key].owner == scope.owner;
      if known && (db.references[key].scope != scope || db.references[key].ids != sorted) then Rollback(DifferentReference)
      else if known && db.references[key].state == Released && !release then Rollback(ReferenceReleased)
      else
        var stored := Reference(scope.owner, reference, scope, sorted, if release then Released else Active);
        var row := if key in db.references then db.references[key].(state := stored.state) else stored;
        if release then Commit(SetReference(db, key, row), [])
        else
          var refusal := PinRefusal(db, scope, sorted);
          if refusal.Some? then Rollback(refusal.value)
          else
            match ReadReceipts(db, scope, ids)
            case Err(e) => Rollback(e)
            case Ok(receipts) => Commit(SetReference(db, key, row), receipts)
  }

  /** The EXISTS test of beginPipelineRetirement: active references of this owner only. */
  predicate PinnedFor(db: Db, owner: string, k: IntentId) {
    exists key :: key in db.references && db.references[key].owner == owner
      && db.references[key].state == Active && k in db.references[key].ids
  }

  /****** Retirement ******/

  datatype Begun = Begun(intent: Intent, token: string, retiredEtag: string)

  /** beginPipelineRetirement; `token` is the fresh random lease id. */
  function BeginRetirement(db: Db, scope: Scope, k: IntentId, token: string): Tx<Begun> {
    if k !in db.uploads then Rollback(NotFound)
    else
      var r := db.uploads[k];
      if !InScope(k, r.identity, scope) then Rollback(Unavailable)
      else if PinnedFor(db, scope.owner, k) then Rollback(Retained(Pinned))
      else if InRetirement(r.state) then
        if r.lease == "" || (r.state == Retired && r.retiredEtag == "") then Rollback(IncompleteRetirement)
        else Commit(db, Begun(IntentOf(k, r), r.lease, r.retiredEtag))
      else
        match CheckRetirement(db.library, r.file, r.identity, r.url)
        case Some(reason) => Rollback(Retained(reason))
        case None =>
          var next := r.(state := Retiring, generation := r.generation + 1, lease := token);
          Commit(SetUpload(db, k, next), Begun(IntentOf(k, next), token, r.retiredEtag))
  }

  /** The confirming transaction of RetireRunFile. */
  function ConfirmRetirement(db: Db, i: Intent, token: string, etag: string): Tx<()> {
    if i.id !in db.uploads then Rollback(NotFound)
    else
      var r := db.uploads[i.id];
      if r.generation != i.generation || !InRetirement(r.state) then Rollback(Stale)
      else if r.lease != token then Rollback(LostFence)
      else Commit(SetUpload(db, i.id, r.(state := Retired, retiredEtag := etag)), ())
  }

  /** PurgeRetiredRunFile */
  function Purge(db: Db, scope: Scope, k: IntentId): Tx<()> {
    if k !in db.uploads then Rollback(NotFound)
    else
      var r := db.uploads[k];
      if !InScope(k, r.identity, scope) || r.state != Retired then Rollback(NotRetired)
      else if r.retiredEtag == "" || r.lease == "" then Rollback(IncompleteRetirement)
      else
        match CheckRetirement(db.library, r.file, r.identity, r.url)
        case Some(reason) => Rollback(Retained(reason))
        case None =>
          Commit(SetUpload(db, k, r.(purged := true)).(library := DeletePresentation(db.library, r.file, scope.owner)), ())
  }

  /****** Legacy log adoption ******/

  /** The identity AdoptLegacyRunLog derives from a Library row, when the row is acceptable. */
  function LegacyIdentity(scope: Scope, f: FileId, row: FileRow, container: string): Option<Identity> {
    if QuotaSize(row.size).None? then None
    else
      var size := QuotaSize(row.size).value as int;
      if !HasSuffix(row.name, ".log") || row.mime != "text/plain" || size > MaxLegacyLogBytes || scope.attempt < 1 then None
      else Some(Identity(scope.owner, scope.run, scope.step, scope.attempt, LegacyLogPath(f, row.name), row.name, row.mime, container, size, row.sha))
  }

  /** The intent offered for adoption. */
  function LegacyIntent(f: FileId, x: Identity, url: Url, etag: string): Intent {
    Intent(IntentIdOf(x), f, ObjectKey(x.owner, f, x.name), Ready, url, etag, 1, x)
  }

  /** The checks of AdoptLegacyRunLog on the Library row it read. */
  function LegacyRead(lib: Shelf, scope: Scope, f: FileId, container: string): Result<Intent> {
    match FileHead(lib, f)
    case None => Err(LegacyRefused)
    case Some(row) =>
      match LegacyIdentity(scope, f, row, container)
      case None => Err(LegacyRefused)
      case Some(x) => if Matches(row, x, row.url) then Ok(LegacyIntent(f, x, row.url, "")) else Err(LegacyRefused)
  }

  /** Its checks on the object it verified; `verified` is the object's ETag. */
  function LegacyVerified(i: Intent, verified: Option<string>): Result<Intent> {
    if verified.None? || verified.value == "" then Err(LegacyRefused)
    else if i.url != ProviderUrl(PlaceOfIntent(i)) && i.url != ObjectUrl(i.obj) then Err(LegacyRefused)
    else Ok(i.(etag := verified.value))
  }

  function AdoptedUpload(i: Intent): Upload {
    Upload(i.identity.owner, i.identity, i.file, i.obj, i.identity.size, 1, Ready, i.url, i.etag, "", "", false)
  }

  /** existingLegacyLogReceipt */
  function AdoptExisting(db: Db, scope: Scope, k: IntentId): Tx<Receipt> {
    if k !in db.uploads then Rollback(NotFound)
    else if !InScope(k, db.uploads[k].identity, scope) then Rollback(OtherScope)
    else Commit(db, ReceiptOf(IntentOf(k, db.uploads[k])))
  }

  ghost function HolderOf(db: Db, f: FileId): IntentId
    requires FileTaken(db, f)
    ensures HolderOf(db, f) in db.uploads && db.uploads[HolderOf(db, f)].file == f
  {
    var k :| k in db.uploads && db.uploads[k].file == f;
    k
  }

  /** The transaction of AdoptLegacyRunLog. */
  ghost function AdoptCommit(db: Db, scope: Scope, i: Intent): Tx<Receipt> {
    match CheckRetirement(db.library, i.file, i.identity, i.url)
    case Some(reason) => Rollback(Retained(reason))
    case None =>
      if FileTaken(db, i.file) then AdoptExisting(db, scope, HolderOf(db, i.file))
      else
        match InsertUpload(db, i.id, AdoptedUpload(i))
        case Rollback(e) => Rollback(e)
        case Commit(after, _) => Commit(after, ReceiptOf(i))
  }

  /****** Inventory of a fenced scope ******/

  const PageSize: nat := 128

  /** The rows selected by ReadFencedRunFileIntents, before its cursor. */
  ghost function ScopeRows(db: Db, scope: Scope): set<IntentId> {
    set k | k in db.uploads && db.uploads[k].owner == scope.owner && db.uploads[k].identity.run == scope.run
      && db.uploads[k].identity.step == scope.step && db.uploads[k].identity.attempt == scope.attempt
  }

  predicate After<K>(less: (K, K) -> bool, cursor: Option<K>, k: K) {
    cursor.None? || less(cursor.value, k)
  }

  /** ORDER BY id LIMIT `limit` of the rows after the cursor. */
  ghost predicate IsPage<K>(less: (K, K) -> bool, rows: set<K>, cursor: Option<K>, limit: nat, page: seq<K>) {
    && Increasing(less, page)
    && |page| <= limit
    && (forall i :: 0 <= i < |page| ==> page[i] in rows && After(less, cursor, page[i]))
    && (forall k :: k in rows && After(less, cursor, k) && k !in page ==>
        |page| == limit && forall i :: 0 <= i < |page| ==> less(page[i], k))
  }
}
