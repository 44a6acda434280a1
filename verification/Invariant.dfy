/** What holds in every reachable state. */
module Invariant {
  import opened Types
  import opened Library
  import opened Provider
  import opened Journal
  import opened Protocol
  import opened Evolution
  import Sums

  /****** Tables ******/

  ghost predicate RowOk(k: IntentId, r: Upload) {
    && k == IntentIdOf(r.identity) && r.owner == r.identity.owner && r.size == r.identity.size
    && ValidIdentity(r.identity) && 1 <= r.generation
    && r.obj == ObjectKey(r.owner, r.file, r.identity.name)
    && (r.file == DerivedFile(k) || (r.file.BareFile? && r.identity.path == LegacyLogPath(r.file, r.identity.name) && r.etag != ""))
    && (r.etag == "" <==> r.url == NoUrl)
    && (r.file.DerivedFile? && r.etag != "" ==> r.url == ProviderUrl(PlaceOf(r)))
    && (r.state == Reserved ==> r.etag == "")
    && (r.state == BlobVerified || r.state == Ready ==> r.etag != "")
    && (InRetirement(r.state) <==> r.lease != "")
    && (r.state == Retired <==> r.retiredEtag != "")
    && (r.purged ==> r.state == Retired)
  }

  ghost predicate RowsOk(db: Db) {
    forall k :: k in db.uploads ==> RowOk(k, db.uploads[k])
  }

  ghost predicate FilesUnique(db: Db) {
    forall a, b :: a in db.uploads && b in db.uploads && db.uploads[a].file == db.uploads[b].file ==> a == b
  }

  /** Everything an active reference names is ready, and in the reference's own scope. */
  ghost predicate ReferenceOk(db: Db, key: RefKey, r: Reference) {
    && key == RefKey(r.scope, r.reference) && r.owner == r.scope.owner
    && (r.state == Active ==>
          forall k :: k in r.ids ==> k in db.uploads && db.uploads[k].state == Ready && ScopeOf(db.uploads[k].identity) == r.scope)
  }

  ghost predicate ReferencesOk(db: Db) {
    forall key :: key in db.references ==> ReferenceOk(db, key, db.references[key])
  }

  ghost predicate FencesOk(db: Db) {
    forall f :: f in db.fences ==> db.fences[f] == FenceRow(f.owner, f)
  }

  /** A file under a derived id was recorded by its own intent's finalizer. */
  ghost predicate PresentationOk(db: Db) {
    forall f :: f in db.library.files && FileRows(db.library, f) != [] && f.DerivedFile? ==>
      f.intent in db.uploads && db.uploads[f.intent].file == f && db.uploads[f.intent].url != NoUrl
  }

  /** From the moment retirement begins, the presentation stays exactly the generated one. */
  ghost predicate FrozenOk(db: Db) {
    forall k :: k in db.uploads && InRetirement(db.uploads[k].state) ==> Frozen(db.library, db.uploads[k])
  }

  ghost predicate Frozen(lib: Shelf, r: Upload) {
    && CheckRetirement(lib, r.file, r.identity, r.url) == None
    && (r.purged ==> FileRows(lib, r.file) == [] && EntryRows(lib, r.file) == [])
  }

  ghost predicate DbInv(db: Db) {
    RowsOk(db) && FilesUnique(db) && ReferencesOk(db) && FencesOk(db) && PresentationOk(db) && FrozenOk(db)
  }

  /****** Objects ******/

  function RowMarker(r: Upload): Marker {
    Marker(r.lease, r.size, r.identity.sha, r.etag)
  }

  /** The object behind a journal row. */
  ghost predicate Fits(r: Upload, o: Stored) {
    match o
    case Absent => r.etag == "" && r.state != Retired
    case Blob(size, sha, etag) =>
      size == r.size && sha == r.identity.sha && etag != "" && (r.etag != "" ==> etag == r.etag) && r.state != Retired
    case Tombstone(m, etag) => InRetirement(r.state) && m == RowMarker(r) && etag != ""
  }

  ghost predicate ObjectsFit(db: Db, blobs: Blobs) {
    forall k :: k in db.uploads ==> Fits(db.uploads[k], At(blobs, PlaceOf(db.uploads[k])))
  }

  /** Objects under a derived file id appear only after a committed reservation. */
  ghost predicate NoStrayObjects(db: Db, blobs: Blobs) {
    forall p :: p in blobs && blobs[p] != Absent && p.obj.file.DerivedFile? ==>
      p.obj.file.intent in db.uploads && PlaceOf(db.uploads[p.obj.file.intent]) == p
  }

  ghost predicate BlobInv(db: Db, blobs: Blobs) {
    ObjectsFit(db, blobs) && NoStrayObjects(db, blobs)
  }

  /****** Processes ******/

  predicate IsWriter(proc: Process) {
    proc.Admitted? || proc.Uploaded? || proc.Verified? || proc.Finalizing?
  }

  ghost predicate SameFile(db: Db, i: Intent) {
    i.id in db.uploads && i.identity == db.uploads[i.id].identity && i.file == db.uploads[i.id].file && i.obj == db.uploads[i.id].obj
  }

  ghost predicate WriterOk(db: Db, i: Intent) {
    && SameFile(db, i)
    && i.generation <= db.uploads[i.id].generation
    && (i.generation == db.uploads[i.id].generation ==> !InRetirement(db.uploads[i.id].state))
  }

  ghost predicate SameReceipt(db: Db, i: Intent) {
    SameFile(db, i) && i.etag != "" && i.etag == db.uploads[i.id].etag && i.url == db.uploads[i.id].url
  }

  ghost predicate RetirerOk(db: Db, i: Intent, token: string) {
    && SameFile(db, i) && i.etag == db.uploads[i.id].etag
    && InRetirement(db.uploads[i.id].state)
    && i.generation == db.uploads[i.id].generation && token == db.uploads[i.id].lease
  }

  /** What an adoption read of the Library; the file may have got a journal row since. */
  ghost predicate FoundOk(db: Db, scope: Scope, i: Intent) {
    && i.id == IntentIdOf(i.identity) && ScopeOf(i.identity) == scope && ValidIdentity(i.identity)
    && i.identity.path == LegacyLogPath(i.file, i.identity.name)
    && i.obj == ObjectKey(i.identity.owner, i.file, i.identity.name)
    && i.generation == 1 && i.state == Ready
    && (FileTaken(db, i.file) || (i.file.BareFile? && FileRows(db.library, i.file) != []))
  }

  ghost predicate CandidateOk(db: Db, blobs: Blobs, scope: Scope, i: Intent) {
    && FoundOk(db, scope, i) && i.url != NoUrl && i.etag != ""
    && (FileTaken(db, i.file) || At(blobs, PlaceOfIntent(i)) == Blob(i.identity.size, i.identity.sha, i.etag))
  }

  /** A receipt handed out by adoption is the row's, or the row's from before it had a receipt. */
  ghost predicate AdoptedReceiptOk(db: Db, receipt: Receipt) {
    && receipt.id in db.uploads
    && var i := IntentOf(receipt.id, db.uploads[receipt.id]);
       (receipt.etag != "" && receipt == ReceiptOf(i)) || (receipt.file.DerivedFile? && receipt == ReceiptOf(i.(url := NoUrl, etag := "")))
  }

  ghost predicate ProcOk(db: Db, blobs: Blobs, proc: Process) {
    match proc
    case Admitted(i) => WriterOk(db, i)
    case Uploaded(i, etag) =>
      WriterOk(db, i) && etag != "" &&
      (At(blobs, PlaceOfIntent(i)).Tombstone? || At(blobs, PlaceOfIntent(i)) == Blob(i.identity.size, i.identity.sha, etag))
    case Verified(i) => WriterOk(db, i) && SameReceipt(db, i)
    case Finalizing(i, _, _, _) =>
      WriterOk(db, i) && SameReceipt(db, i) && i.generation == db.uploads[i.id].generation
    case StoreDone(i) => SameReceipt(db, i) && Rank(Ready) <= Rank(db.uploads[i.id].state)
    case RetireBegun(i, token) => RetirerOk(db, i, token)
    case RetireFenced(i, token, etag) =>
      RetirerOk(db, i, token) && etag != "" && At(blobs, PlaceOfIntent(i)).Tombstone?
    case RetireDone(rr) => rr.id in db.uploads && db.uploads[rr.id].state == Retired && db.uploads[rr.id].file == rr.file && rr.etag != ""
    case AdoptUnknown(_, _) => true
    case AdoptFound(scope, i) => FoundOk(db, scope, i)
    case AdoptChecked(scope, i) => CandidateOk(db, blobs, scope, i)
    case AdoptDone(receipt) => AdoptedReceiptOk(db, receipt)
    case Failed => true
  }

  ghost predicate ProcsOk(s: State) {
    forall p :: p in s.procs ==> ProcOk(s.db, s.blobs, s.procs[p])
  }

  /** No two live calls hold the same generation of an intent. */
  ghost predicate GenerationsDistinct(procs: map<nat, Process>) {
    forall p, q :: p in procs && q in procs && p != q && IsWriter(procs[p]) && IsWriter(procs[q]) && procs[p].i.id == procs[q].i.id ==>
      procs[p].i.generation != procs[q].i.generation
  }

  ghost predicate OneLockHolder(procs: map<nat, Process>) {
    forall p, q :: p in procs && q in procs && p != q && procs[p].Finalizing? && procs[q].Finalizing? ==>
      procs[p].i.identity.owner != procs[q].i.identity.owner
  }

  ghost predicate ProcInv(s: State) {
    ProcsOk(s) && GenerationsDistinct(s.procs) && OneLockHolder(s.procs)
  }

  /****** Quota ******/

  /** Rows admitted by a reservation, as opposed to adopted, have a derived file id. */
  ghost function AdmittedCharges(db: Db, owner: string): map<IntentId, int> {
    map k | k in db.uploads && db.uploads[k].owner == owner && db.uploads[k].file.DerivedFile? :: JournalCharge(db.uploads[k])
  }

  ghost predicate QuotaInv(quota: int, db: Db) {
    forall owner :: Sums.Sum(AdmittedCharges(db, owner)) <= quota
  }

  ghost predicate Inv(cfg: Config, s: State) {
    DbInv(s.db) && BlobInv(s.db, s.blobs) && ProcInv(s) && QuotaInv(cfg.quota, s.db)
  }

  /****** General preservation lemmas ******/

  /** Rows of other processes' locks are untouched by a step of p. */
  ghost predicate LocksRespected(s: State, next: Db, p: nat) {
    forall q :: q in s.procs && q != p && s.procs[q].Finalizing? && s.procs[q].i.id in s.db.uploads ==>
      s.procs[q].i.id in next.uploads && next.uploads[s.procs[q].i.id] == s.db.uploads[s.procs[q].i.id]
  }

  lemma WriterStays(db: Db, n: Db, i: Intent)
    requires WriterOk(db, i) && DbGrows(db, n)
    ensures WriterOk(n, i) && (SameReceipt(db, i) ==> SameReceipt(n, i))
  {
    assert Evolves(db.uploads[i.id], n.uploads[i.id]);
  }

  lemma RetirerStays(db: Db, n: Db, i: Intent, token: string)
    requires RetirerOk(db, i, token) && DbGrows(db, n)
    ensures RetirerOk(n, i, token)
  {
    assert Evolves(db.uploads[i.id], n.uploads[i.id]);
  }

  lemma FoundStays(db: Db, n: Db, scope: Scope, i: Intent)
    requires FoundOk(db, scope, i) && DbGrows(db, n)
    ensures FoundOk(n, scope, i)
  {
    if FileTaken(db, i.file) {
      FileStaysTaken(db, n, i.file);
    }
  }

  lemma CandidateStays(s: State, n: State, scope: Scope, i: Intent)
    requires CandidateOk(s.db, s.blobs, scope, i) && DbGrows(s.db, n.db) && BlobsGrow(n.db, s.blobs, n.blobs)
    ensures CandidateOk(n.db, n.blobs, scope, i)
  {
    FoundStays(s.db, n.db, scope, i);
    if FileTaken(s.db, i.file) {
      FileStaysTaken(s.db, n.db, i.file);
    } else {
      assert PlaceOfIntent(i) in s.blobs;
      assert StoredEvolves(At(s.blobs, PlaceOfIntent(i)), At(n.blobs, PlaceOfIntent(i)));
    }
  }

  lemma OtherProcOk(s: State, n: State, p: nat, q: nat)
    requires q in s.procs && ProcOk(s.db, s.blobs, s.procs[q])
    requires DbGrows(s.db, n.db) && BlobsGrow(n.db, s.blobs, n.blobs) && LocksRespected(s, n.db, p)
    requires q != p
    ensures ProcOk(n.db, n.blobs, s.procs[q])
  {
    var proc := s.procs[q];
    match proc
    case Admitted(i) => WriterStays(s.db, n.db, i);
    case Uploaded(i, _) =>
      WriterStays(s.db, n.db, i);
      assert PlaceOfIntent(i) in s.blobs;
    case Verified(i) => WriterStays(s.db, n.db, i);
    case Finalizing(i, _, _, _) => assert n.db.uploads[i.id] == s.db.uploads[i.id];
    case StoreDone(i) => assert Evolves(s.db.uploads[i.id], n.db.uploads[i.id]);
    case RetireBegun(i, token) => RetirerStays(s.db, n.db, i, token);
    case RetireFenced(i, token, _) =>
      RetirerStays(s.db, n.db, i, token);
      assert PlaceOfIntent(i) in s.blobs;
    case RetireDone(rr) => assert Evolves(s.db.uploads[rr.id], n.db.uploads[rr.id]);
    case AdoptUnknown(_, _) =>
    case AdoptFound(scope, i) => FoundStays(s.db, n.db, scope, i);
    case AdoptChecked(scope, i) => CandidateStays(s, n, scope, i);
    case AdoptDone(receipt) => assert Evolves(s.db.uploads[receipt.id], n.db.uploads[receipt.id]);
    case Failed =>
  }

  /** The process that moved, and all the others. */
  lemma ProcsAdvance(s: State, n: State, p: nat, proc: Process)
    requires ProcInv(s) && n.procs == s.procs[p := proc]
    requires DbGrows(s.db, n.db) && BlobsGrow(n.db, s.blobs, n.blobs) && LocksRespected(s, n.db, p)
    requires ProcOk(n.db, n.blobs, proc)
    requires IsWriter(proc) ==> forall q :: q in s.procs && q != p && IsWriter(s.procs[q]) && s.procs[q].i.id == proc.i.id ==>
      s.procs[q].i.generation != proc.i.generation
    requires proc.Finalizing? ==> forall q :: q in s.procs && q != p && s.procs[q].Finalizing? ==>
      s.procs[q].i.identity.owner != proc.i.identity.owner
    ensures ProcInv(n)
  {
    hide ProcOk, DbGrows, BlobsGrow, LocksRespected;
    forall q | q in n.procs ensures ProcOk(n.db, n.blobs, n.procs[q]) {
      if q != p {
        OtherProcOk(s, n, p, q);
      }
    }
  }

  /** A step of no process. */
  lemma ProcsKept(s: State, n: State)
    requires ProcInv(s) && n.procs == s.procs
    requires DbGrows(s.db, n.db) && BlobsGrow(n.db, s.blobs, n.blobs)
    requires forall q :: q in s.procs && s.procs[q].Finalizing? && s.procs[q].i.id in s.db.uploads ==>
      s.procs[q].i.id in n.db.uploads && n.db.uploads[s.procs[q].i.id] == s.db.uploads[s.procs[q].i.id]
    ensures ProcInv(n)
  {
    forall q | q in n.procs ensures ProcOk(n.db, n.blobs, n.procs[q]) {
      OtherProcOk(s, n, q + 1, q);
    }
  }

  lemma SameDbGrows(db: Db, blobs: Blobs)
    ensures DbGrows(db, db) && BlobsGrow(db, blobs, blobs)
  {
  }

  ghost predicate PinnedAnywhere(db: Db, k: IntentId) {
    exists key :: key in db.references && db.references[key].state == Active && k in db.references[key].ids
  }

  /** The owner filter of the pin check misses no reference: every active reference to an intent
      belongs to the owner of that intent. */
  lemma OwnerFilterMissesNoPin(db: Db, k: IntentId)
    requires DbInv(db) && k in db.uploads
    ensures PinnedAnywhere(db, k) <==> PinnedFor(db, db.uploads[k].owner, k)
  {
    if PinnedAnywhere(db, k) {
      var key :| key in db.references && db.references[key].state == Active && k in db.references[key].ids;
      assert ReferenceOk(db, key, db.references[key]);
      assert RowOk(k, db.uploads[k]);
      assert db.references[key].owner == db.uploads[k].owner;
    }
  }

  lemma Steady(r: Upload, n: Upload)
    requires Evolves(r, n)
    ensures n.identity == r.identity && n.file == r.file
  {
  }

  lemma RowUpdateKeepsReferences(db: Db, k: IntentId, n: Upload)
    requires ReferencesOk(db) && k in db.uploads && n.identity == db.uploads[k].identity
    requires db.uploads[k].state == Ready ==> n.state == Ready || !PinnedAnywhere(db, k)
    ensures ReferencesOk(SetUpload(db, k, n))
  {
    var after := SetUpload(db, k, n);
    forall key | key in after.references ensures ReferenceOk(after, key, after.references[key]) {
      assert ReferenceOk(db, key, db.references[key]);
    }
  }

  lemma RowUpdateKeepsPresentation(db: Db, k: IntentId, n: Upload)
    requires PresentationOk(db) && RowsOk(db) && k in db.uploads && Evolves(db.uploads[k], n)
    ensures PresentationOk(SetUpload(db, k, n))
  {
    assert RowOk(k, db.uploads[k]);
  }

  lemma RowUpdateKeepsFrozen(db: Db, k: IntentId, n: Upload)
    requires FrozenOk(db) && k in db.uploads
    requires InRetirement(n.state) ==> Frozen(db.library, n)
    ensures FrozenOk(SetUpload(db, k, n))
  {
    var after := SetUpload(db, k, n);
    forall q | q in after.uploads && InRetirement(after.uploads[q].state) ensures Frozen(after.library, after.uploads[q]) {
      assert q != k ==> after.uploads[q] == db.uploads[q];
    }
  }

  lemma RowUpdateGrows(db: Db, k: IntentId, n: Upload)
    requires k in db.uploads && Evolves(db.uploads[k], n)
    ensures DbGrows(db, SetUpload(db, k, n))
  {
    var after := SetUpload(db, k, n);
    assert forall f :: FileRows(after.library, f) == FileRows(db.library, f);
  }

  /** Replacing one row by a legal successor keeps the tables well formed. */
  lemma RowUpdateKeepsDb(db: Db, k: IntentId, n: Upload)
    requires DbInv(db) && k in db.uploads && RowOk(k, n) && Evolves(db.uploads[k], n)
    requires db.uploads[k].state == Ready ==> n.state == Ready || !PinnedAnywhere(db, k)
    requires InRetirement(n.state) ==> Frozen(db.library, n)
    ensures DbInv(SetUpload(db, k, n))
    ensures DbGrows(db, SetUpload(db, k, n))
  {
    assert FencesOk(SetUpload(db, k, n)) && FilesUnique(SetUpload(db, k, n)) && RowsOk(SetUpload(db, k, n)) by {
      hide Frozen, ReferenceOk, RowOk;
    }
    hide RowOk, ReferencesOk, FrozenOk, PresentationOk, FencesOk, FilesUnique, DbGrows, PinnedAnywhere, Frozen, Evolves;
    assert n.identity == db.uploads[k].identity by { Steady(db.uploads[k], n); }
    RowUpdateKeepsReferences(db, k, n);
    RowUpdateKeepsPresentation(db, k, n);
    RowUpdateKeepsFrozen(db, k, n);
    RowUpdateGrows(db, k, n);
  }

  lemma RowUpdateKeepsBlobs(db: Db, blobs: Blobs, k: IntentId, n: Upload)
    requires BlobInv(db, blobs) && k in db.uploads && Evolves(db.uploads[k], n)
    requires Fits(n, At(blobs, PlaceOf(n)))
    ensures BlobInv(SetUpload(db, k, n), blobs)
  {
  }

  lemma AdmittedChargesFall(db: Db, k: IntentId, n: Upload, owner: string)
    requires RowsOk(db) && k in db.uploads && Evolves(db.uploads[k], n)
    ensures Sums.Sum(AdmittedCharges(SetUpload(db, k, n), owner)) <= Sums.Sum(AdmittedCharges(db, owner))
  {
    var before, after := AdmittedCharges(db, owner), AdmittedCharges(SetUpload(db, k, n), owner);
    assert forall q :: q in db.uploads ==> 0 <= JournalCharge(db.uploads[q]) by {
      assert forall q :: q in db.uploads ==> RowOk(q, db.uploads[q]);
    }
    assert JournalCharge(n) <= JournalCharge(db.uploads[k]) && n.owner == db.uploads[k].owner && n.file == db.uploads[k].file by {
      assert RowOk(k, db.uploads[k]);
    }
    hide RowsOk, RowOk, Evolves, JournalCharge;
    Sums.SumBounded(after, before);
  }

  /** Charges only fall when a row moves on. */
  lemma RowUpdateKeepsQuota(quota: int, db: Db, k: IntentId, n: Upload)
    requires QuotaInv(quota, db) && RowsOk(db) && k in db.uploads && Evolves(db.uploads[k], n)
    ensures QuotaInv(quota, SetUpload(db, k, n))
  {
    forall owner ensures Sums.Sum(AdmittedCharges(SetUpload(db, k, n), owner)) <= quota {
      AdmittedChargesFall(db, k, n, owner);
    }
  }

  lemma SameUploadsKeepQuota(quota: int, db: Db, n: Db)
    requires QuotaInv(quota, db) && n.uploads == db.uploads
    ensures QuotaInv(quota, n)
  {
    forall owner ensures Sums.Sum(AdmittedCharges(n, owner)) <= quota {
      assert AdmittedCharges(n, owner) == AdmittedCharges(db, owner);
    }
  }
}
