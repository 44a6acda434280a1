/** Every step keeps the invariant and only lets durable state grow. */
module Preservation {
  import opened Types
  import opened Sizes
  import opened Library
  import opened Provider
  import opened Journal
  import opened Protocol
  import opened Evolution
  import opened Invariant
  import Sums

  predicate Finished(proc: Process) {
    proc.StoreDone? || proc.RetireDone? || proc.AdoptDone? || proc.Failed?
  }

  ghost predicate Grows(s: State, n: State) {
    && DbGrows(s.db, n.db)
    && BlobsGrow(n.db, s.blobs, n.blobs)
    && (forall p :: p in s.procs ==> p in n.procs && (Finished(s.procs[p]) ==> n.procs[p] == s.procs[p]))
  }

  /** What each lemma of this module establishes of a step from s to n. */
  ghost predicate Kept(cfg: Config, s: State, n: State) {
    Inv(cfg, n) && Grows(s, n)
  }

  lemma Stutter(cfg: Config, s: State)
    requires Inv(cfg, s)
    ensures Kept(cfg, s, s)
  {
    SameDbGrows(s.db, s.blobs);
  }

  /** The next local state of p keeps the generations apart and the locks exclusive. */
  ghost predicate LegalMove(s: State, p: nat, proc: Process) {
    && (p in s.procs ==> !Finished(s.procs[p]))
    && (IsWriter(proc) ==> forall q :: q in s.procs && q != p && IsWriter(s.procs[q]) && s.procs[q].i.id == proc.i.id ==>
          s.procs[q].i.generation != proc.i.generation)
    && (proc.Finalizing? ==> forall q :: q in s.procs && q != p && s.procs[q].Finalizing? ==>
          s.procs[q].i.identity.owner != proc.i.identity.owner)
  }

  lemma RowFacts(cfg: Config, s: State, k: IntentId)
    requires Inv(cfg, s) && k in s.db.uploads
    ensures RowOk(k, s.db.uploads[k]) && Fits(s.db.uploads[k], At(s.blobs, PlaceOf(s.db.uploads[k])))
  {
    hide ProcInv, QuotaInv, RowOk, Fits, ReferencesOk, FrozenOk, PresentationOk, FencesOk, FilesUnique, NoStrayObjects;
  }

  lemma ProcFacts(cfg: Config, s: State, p: nat)
    requires Inv(cfg, s) && p in s.procs
    ensures ProcOk(s.db, s.blobs, s.procs[p])
  {
    hide DbInv, BlobInv, QuotaInv, GenerationsDistinct, OneLockHolder, ProcOk;
  }

  /** The parts of a step put together: tables, objects, quota, and the process that moved. */
  lemma Assemble(cfg: Config, s: State, n: State, p: nat, proc: Process)
    requires Inv(cfg, s) && n.procs == s.procs[p := proc]
    requires DbInv(n.db) && BlobInv(n.db, n.blobs) && QuotaInv(cfg.quota, n.db)
    requires DbGrows(s.db, n.db) && BlobsGrow(n.db, s.blobs, n.blobs) && LocksRespected(s, n.db, p)
    requires ProcOk(n.db, n.blobs, proc) && LegalMove(s, p, proc)
    ensures Kept(cfg, s, n)
  {
    hide DbInv, BlobInv, QuotaInv, DbGrows, BlobsGrow, ProcOk, ProcInv, LocksRespected;
    ProcsAdvance(s, n, p, proc);
  }

  /** A writer that goes on, or stops, keeps its own generation and takes no lock. */
  lemma SameWriterMoves(cfg: Config, s: State, p: nat, proc: Process)
    requires Inv(cfg, s) && p in s.procs && !Finished(s.procs[p])
    requires IsWriter(proc) ==> IsWriter(s.procs[p]) && proc.i.id == s.procs[p].i.id && proc.i.generation == s.procs[p].i.generation
    requires proc.Finalizing? ==> s.procs[p].Finalizing? && proc.i.identity == s.procs[p].i.identity
    ensures LegalMove(s, p, proc)
  {
    hide DbInv, BlobInv, QuotaInv, ProcOk;
  }

  /** A step that only moves one process. */
  lemma CallMoves(cfg: Config, s: State, p: nat, proc: Process)
    requires Inv(cfg, s) && LegalMove(s, p, proc) && ProcOk(s.db, s.blobs, proc)
    ensures Kept(cfg, s, SetProc(s, p, proc))
  {
    hide DbInv, BlobInv, QuotaInv, DbGrows, BlobsGrow, ProcOk, ProcInv, LegalMove;
    SameDbGrows(s.db, s.blobs);
    Assemble(cfg, s, SetProc(s, p, proc), p, proc);
  }

  /** A call that gives up, or dies: nothing durable changes. */
  lemma CallFails(cfg: Config, s: State, p: nat)
    requires Inv(cfg, s) && (p in s.procs ==> !Finished(s.procs[p]))
    ensures Kept(cfg, s, SetProc(s, p, Failed))
  {
    CallMoves(cfg, s, p, Failed);
  }

  /** No finalizer of this owner is under way, so no lock covers a row of this owner. */
  lemma UnlockedRow(s: State, k: IntentId, n: Db, p: nat)
    requires ProcInv(s) && k in s.db.uploads && !OwnerLocked(s, s.db.uploads[k].identity.owner)
    requires n.uploads.Keys >= s.db.uploads.Keys
    requires forall q :: q in s.db.uploads && q != k ==> n.uploads[q] == s.db.uploads[q]
    ensures LocksRespected(s, n, p)
    ensures forall q :: q in s.procs && s.procs[q].Finalizing? ==> s.procs[q].i.id != k
  {
    forall q | q in s.procs && s.procs[q].Finalizing? ensures s.procs[q].i.id != k {
      assert ProcOk(s.db, s.blobs, s.procs[q]);
    }
  }

  /****** Inserting a row ******/

  lemma InsertKeepsReferences(db: Db, k: IntentId, r: Types.Upload)
    requires ReferencesOk(db) && k !in db.uploads
    ensures ReferencesOk(SetUpload(db, k, r))
  {
    var after := SetUpload(db, k, r);
    forall key | key in after.references ensures ReferenceOk(after, key, after.references[key]) {
      assert ReferenceOk(db, key, db.references[key]);
    }
  }

  lemma InsertKeepsFrozen(db: Db, k: IntentId, r: Types.Upload)
    requires FrozenOk(db) && k !in db.uploads && !InRetirement(r.state)
    ensures FrozenOk(SetUpload(db, k, r))
  {
    var after := SetUpload(db, k, r);
    forall q | q in after.uploads && InRetirement(after.uploads[q].state) ensures Frozen(after.library, after.uploads[q]) {
      assert after.uploads[q] == db.uploads[q];
    }
  }

  lemma InsertKeepsPresentation(db: Db, k: IntentId, r: Types.Upload)
    requires PresentationOk(db) && k !in db.uploads
    ensures PresentationOk(SetUpload(db, k, r))
  {
  }

  lemma InsertGrows(db: Db, k: IntentId, r: Types.Upload)
    requires k !in db.uploads
    ensures DbGrows(db, SetUpload(db, k, r))
  {
    var after := SetUpload(db, k, r);
    assert forall f :: FileRows(after.library, f) == FileRows(db.library, f);
  }

  lemma InsertKeepsDb(db: Db, k: IntentId, r: Types.Upload)
    requires DbInv(db) && k !in db.uploads && !FileTaken(db, r.file) && RowOk(k, r) && !InRetirement(r.state)
    ensures DbInv(SetUpload(db, k, r)) && DbGrows(db, SetUpload(db, k, r))
  {
    InsertKeepsReferences(db, k, r);
    InsertKeepsFrozen(db, k, r);
    InsertKeepsPresentation(db, k, r);
    InsertGrows(db, k, r);
    assert FencesOk(SetUpload(db, k, r));
  }

  lemma InsertKeepsBlobs(db: Db, blobs: Blobs, k: IntentId, r: Types.Upload)
    requires BlobInv(db, blobs) && k !in db.uploads && Fits(r, At(blobs, PlaceOf(r)))
    ensures BlobInv(SetUpload(db, k, r), blobs)
  {
  }

  lemma AdmittedAfterReserve(db: Db, x: Identity, owner: string)
    requires IntentIdOf(x) !in db.uploads
    ensures
      var before, after := AdmittedCharges(db, owner), AdmittedCharges(SetUpload(db, IntentIdOf(x), NewUpload(x)), owner);
      after == if owner == x.owner then before[IntentIdOf(x) := x.size] else before
  {
    var k := IntentIdOf(x);
    var before, after := AdmittedCharges(db, owner), AdmittedCharges(SetUpload(db, k, NewUpload(x)), owner);
    assert after.Keys == if owner == x.owner then before.Keys + {k} else before.Keys;
  }

  /** Admission charges the new row on top of everything the owner already holds. */
  lemma AdmissionKeepsQuota(quota: int, db: Db, x: Identity, others: seq<Number>)
    requires QuotaInv(quota, db) && RowsOk(db) && IntentIdOf(x) !in db.uploads
    requires Admits(db, x.owner, x.size, others, quota)
    ensures QuotaInv(quota, SetUpload(db, IntentIdOf(x), NewUpload(x)))
  {
    var k := IntentIdOf(x);
    ChargesCoverAdmitted(db, x.owner);
    TotalNonNegative(others);
    Sums.SumUpdate(AdmittedCharges(db, x.owner), k, x.size);
    forall owner ensures Sums.Sum(AdmittedCharges(SetUpload(db, k, NewUpload(x)), owner)) <= quota {
      AdmittedAfterReserve(db, x, owner);
    }
  }

  lemma ChargesCoverAdmitted(db: Db, owner: string)
    requires RowsOk(db)
    ensures Sums.Sum(AdmittedCharges(db, owner)) <= Footprint(db, owner)
  {
    forall q | q in JournalCharges(db, owner) ensures 0 <= JournalCharges(db, owner)[q] {
      assert RowOk(q, db.uploads[q]);
    }
    Sums.SumBounded(AdmittedCharges(db, owner), JournalCharges(db, owner));
    Sums.SumNonNegative(LibraryCharges(db, owner));
  }

  /****** Replacing a row ******/

  /** The successor of a row, against the tables and objects it lives with. */
  ghost predicate LegalRow(s: State, k: IntentId, n: Types.Upload) {
    && k in s.db.uploads && RowOk(k, n) && Evolves(s.db.uploads[k], n)
    && (s.db.uploads[k].state == Ready ==> n.state == Ready || !PinnedAnywhere(s.db, k))
    && (InRetirement(n.state) ==> Frozen(s.db.library, n))
    && Fits(n, At(s.blobs, PlaceOf(n)))
  }

  lemma RowStep(cfg: Config, s: State, p: nat, k: IntentId, next: Types.Upload, proc: Process)
    requires Inv(cfg, s) && LegalRow(s, k, next) && LegalMove(s, p, proc)
    requires LocksRespected(s, SetUpload(s.db, k, next), p)
    requires ProcOk(SetUpload(s.db, k, next), s.blobs, proc)
    ensures Kept(cfg, s, SetProc(s.(db := SetUpload(s.db, k, next)), p, proc))
  {
    hide RowOk, Evolves, Frozen, Fits, ProcOk, ProcInv, BlobInv, QuotaInv, PinnedAnywhere, DbGrows, BlobsGrow, LegalMove, LocksRespected, Kept;
    var n := SetProc(s.(db := SetUpload(s.db, k, next)), p, proc);
    RowUpdateKeepsDb(s.db, k, next);
    RowUpdateKeepsBlobs(s.db, s.blobs, k, next);
    RowUpdateKeepsQuota(cfg.quota, s.db, k, next);
    SameBlobsGrow(n.db, s.blobs);
    Assemble(cfg, s, n, p, proc);
  }

  lemma SameBlobsGrow(db: Db, blobs: Blobs)
    ensures BlobsGrow(db, blobs, blobs)
  {
  }

  /****** Uploads ******/

  lemma NextGenerationOk(k: IntentId, r: Types.Upload, o: Stored)
    requires RowOk(k, r) && !InRetirement(r.state) && Fits(r, o)
    ensures var next := r.(generation := r.generation + 1); RowOk(k, next) && Evolves(r, next) && Fits(next, o)
  {
  }

  lemma NextGenerationLegal(s: State, k: IntentId)
    requires k in s.db.uploads && !InRetirement(s.db.uploads[k].state)
    requires RowOk(k, s.db.uploads[k]) && Fits(s.db.uploads[k], At(s.blobs, PlaceOf(s.db.uploads[k])))
    ensures LegalRow(s, k, s.db.uploads[k].(generation := s.db.uploads[k].generation + 1))
  {
    NextGenerationOk(k, s.db.uploads[k], At(s.blobs, PlaceOf(s.db.uploads[k])));
  }

  /** A new reservation gets a generation no live call holds. */
  lemma NextGenerationFresh(s: State, p: nat, k: IntentId, proc: Process)
    requires ProcInv(s) && p !in s.procs && k in s.db.uploads
    requires proc.Failed? || (proc.Admitted? && proc.i.id == k && proc.i.generation == s.db.uploads[k].generation + 1)
    ensures LegalMove(s, p, proc)
  {
    forall q | q in s.procs && IsWriter(s.procs[q]) && s.procs[q].i.id == k
      ensures s.procs[q].i.generation <= s.db.uploads[k].generation
    {
      assert ProcOk(s.db, s.blobs, s.procs[q]);
    }
  }

  lemma ReserveAgain(cfg: Config, s: State, p: nat, k: IntentId, next: Types.Upload, proc: Process)
    requires Inv(cfg, s) && p !in s.procs && k in s.db.uploads
    requires !InRetirement(s.db.uploads[k].state) && !OwnerLocked(s, s.db.uploads[k].identity.owner)
    requires next == s.db.uploads[k].(generation := s.db.uploads[k].generation + 1)
    requires proc.Failed? || proc == Admitted(IntentOf(k, next))
    ensures Kept(cfg, s, SetProc(s.(db := SetUpload(s.db, k, next)), p, proc))
  {
    hide DbInv, BlobInv, ProcInv, QuotaInv, Kept;
    assert LegalRow(s, k, next) by {
      RowFacts(cfg, s, k);
      NextGenerationLegal(s, k);
    }
    assert ProcOk(SetUpload(s.db, k, next), s.blobs, proc);
    NextGenerationFresh(s, p, k, proc);
    UnlockedRow(s, k, SetUpload(s.db, k, next), p);
    hide LegalRow, LegalMove, LocksRespected, ProcOk, OwnerLocked;
    RowStep(cfg, s, p, k, next, proc);
  }

  lemma NewUploadOk(x: Identity)
    requires ValidIdentity(x)
    ensures RowOk(IntentIdOf(x), NewUpload(x)) && Fits(NewUpload(x), Absent)
  {
  }

  /** Nothing can have been stored yet where a new intent will put its object. */
  lemma NewPlaceIsAbsent(s: State, x: Identity)
    requires BlobInv(s.db, s.blobs) && IntentIdOf(x) !in s.db.uploads
    ensures At(s.blobs, PlaceOf(NewUpload(x))) == Absent
  {
  }

  lemma NewRowTakesNoLock(s: State, n: Db, k: IntentId, r: Types.Upload, p: nat)
    requires k !in s.db.uploads && n == SetUpload(s.db, k, r)
    ensures LocksRespected(s, n, p)
  {
  }

  lemma InsertStep(cfg: Config, s: State, p: nat, k: IntentId, r: Types.Upload, proc: Process)
    requires Inv(cfg, s) && k !in s.db.uploads && !FileTaken(s.db, r.file) && RowOk(k, r) && !InRetirement(r.state)
    requires Fits(r, At(s.blobs, PlaceOf(r))) && QuotaInv(cfg.quota, SetUpload(s.db, k, r))
    requires LegalMove(s, p, proc) && ProcOk(SetUpload(s.db, k, r), s.blobs, proc)
    ensures Kept(cfg, s, SetProc(s.(db := SetUpload(s.db, k, r)), p, proc))
  {
    var n := SetProc(s.(db := SetUpload(s.db, k, r)), p, proc);
    NewRowTakesNoLock(s, n.db, k, r, p);
    hide RowOk, Fits, ProcOk, ProcInv, DbInv, BlobInv, QuotaInv, DbGrows, BlobsGrow, LegalMove, LocksRespected, Kept;
    InsertKeepsDb(s.db, k, r);
    InsertKeepsBlobs(s.db, s.blobs, k, r);
    SameBlobsGrow(n.db, s.blobs);
    Assemble(cfg, s, n, p, proc);
  }

  lemma ReserveNew(cfg: Config, s: State, p: nat, x: Identity, others: seq<Number>, reply: bool)
    requires Inv(cfg, s) && p !in s.procs && ValidIdentity(x) && IntentIdOf(x) !in s.db.uploads
    requires Admits(s.db, x.owner, x.size, others, cfg.quota) && !FileTaken(s.db, DerivedFile(IntentIdOf(x)))
    ensures
      var k := IntentIdOf(x);
      Kept(cfg, s, SetProc(s.(db := SetUpload(s.db, k, NewUpload(x))), p, if reply then Admitted(IntentOf(k, NewUpload(x))) else Failed))
  {
    var k := IntentIdOf(x);
    var r := NewUpload(x);
    var proc := if reply then Admitted(IntentOf(k, r)) else Failed;
    assert QuotaInv(cfg.quota, SetUpload(s.db, k, r)) by { AdmissionKeepsQuota(cfg.quota, s.db, x, others); }
    hide DbInv, BlobInv, ProcInv, QuotaInv, Kept, Admits;
    NewUploadOk(x);
    NewPlaceIsAbsent(s, x);
    forall q | q in s.procs && IsWriter(s.procs[q]) ensures s.procs[q].i.id != k {
      ProcFacts(cfg, s, q);
    }
    InsertStep(cfg, s, p, k, r, proc);
  }

  lemma ReserveKeeps(cfg: Config, s: State, p: nat, x: Identity, others: seq<Number>, reply: bool)
    requires Inv(cfg, s)
    ensures Kept(cfg, s, DoReserve(cfg, s, p, x, others, reply))
  {
    hide Kept, Inv;
    Stutter(cfg, s);
    if !(p in s.procs || !ValidIdentity(x) || OwnerLocked(s, x.owner)) {
      CallFails(cfg, s, p);
      var k := IntentIdOf(x);
      if Journal.Reserve(s.db, x, others, cfg.quota).Commit? {
        if k in s.db.uploads {
          var next := s.db.uploads[k].(generation := s.db.uploads[k].generation + 1);
          ReserveAgain(cfg, s, p, k, next, if reply then Admitted(IntentOf(k, next)) else Failed);
        } else {
          ReserveNew(cfg, s, p, x, others, reply);
        }
      }
    }
  }

  lemma ObjectGrows(db: Db, blobs: Blobs, k: IntentId, o: Stored, after: Blobs)
    requires k in db.uploads && RowOk(k, db.uploads[k]) && StoredEvolves(At(blobs, PlaceOf(db.uploads[k])), o)
    requires after == blobs[PlaceOf(db.uploads[k]) := o]
    ensures BlobsGrow(db, blobs, after)
  {
    assert FileTaken(db, PlaceOf(db.uploads[k]).obj.file);
    hide RowOk, FileTaken;
  }

  /** A change of one row's own object. */
  lemma ObjectStep(cfg: Config, s: State, p: nat, k: IntentId, o: Stored, after: Blobs, proc: Process)
    requires Inv(cfg, s) && k in s.db.uploads && Fits(s.db.uploads[k], o) && StoredEvolves(At(s.blobs, PlaceOf(s.db.uploads[k])), o)
    requires after == s.blobs[PlaceOf(s.db.uploads[k]) := o]
    requires LegalMove(s, p, proc) && ProcOk(s.db, after, proc)
    ensures Kept(cfg, s, SetProc(s.(blobs := after), p, proc))
  {
    hide DbInv, QuotaInv, ProcInv, ProcOk, Kept, LegalMove, BlobInv, BlobsGrow, DbGrows, Fits, StoredEvolves;
    RowFacts(cfg, s, k);
    ObjectGrows(s.db, s.blobs, k, o, after);
    UploadKeepsBlobs(s, after, k);
    SameDbGrows(s.db, s.blobs);
    Assemble(cfg, s, SetProc(s.(blobs := after), p, proc), p, proc);
  }

  lemma UploadRuns(cfg: Config, s: State, p: nat, etag: string, delivered: bool, reply: bool)
    requires Inv(cfg, s) && p in s.procs && s.procs[p].Admitted? && etag != ""
    ensures Kept(cfg, s, DoUpload(s, p, etag, delivered, reply))
  {
    hide DbInv, BlobInv, QuotaInv, ProcInv, Kept;
    var i := s.procs[p].i;
    ProcFacts(cfg, s, p);
    var r := s.db.uploads[i.id];
    var before := At(s.blobs, PlaceOf(r));
    RowFacts(cfg, s, i.id);
    assert PlaceOf(r) == PlaceOfIntent(i);
    var after := if delivered then Create(before, i.identity.size, i.identity.sha, etag) else before;
    assert Fits(r, after) && StoredEvolves(before, after);
    var proc := DoUpload(s, p, etag, delivered, reply).procs[p];
    assert ProcOk(s.db, s.blobs[PlaceOf(r) := after], proc);
    SameWriterMoves(cfg, s, p, proc);
    if after == before {
      assert ProcOk(s.db, s.blobs, proc);
      CallMoves(cfg, s, p, proc);
    } else {
      ObjectStep(cfg, s, p, i.id, after, s.blobs[PlaceOf(r) := after], proc);
    }
  }

  lemma UploadKeeps(cfg: Config, s: State, p: nat, etag: string, delivered: bool, reply: bool)
    requires Inv(cfg, s)
    ensures Kept(cfg, s, DoUpload(s, p, etag, delivered, reply))
  {
    hide Kept, Inv;
    Stutter(cfg, s);
    if p in s.procs && s.procs[p].Admitted? && etag != "" {
      UploadRuns(cfg, s, p, etag, delivered, reply);
    }
  }

  /** Object keys are distinct per intent. */
  lemma PlacesDistinct(db: Db, k: IntentId)
    requires RowsOk(db) && FilesUnique(db) && k in db.uploads
    ensures forall q :: q in db.uploads && q != k ==> PlaceOf(db.uploads[q]) != PlaceOf(db.uploads[k])
  {
    forall q | q in db.uploads && q != k ensures PlaceOf(db.uploads[q]) != PlaceOf(db.uploads[k]) {
      assert RowOk(q, db.uploads[q]) && RowOk(k, db.uploads[k]);
    }
  }

  lemma UploadKeepsBlobs(s: State, after: Blobs, k: IntentId)
    requires BlobInv(s.db, s.blobs) && DbInv(s.db) && k in s.db.uploads
    requires var place := PlaceOf(s.db.uploads[k]);
      Fits(s.db.uploads[k], At(after, place)) && forall q :: q != place ==> At(after, q) == At(s.blobs, q)
    requires forall q :: q in after ==> q in s.blobs || q == PlaceOf(s.db.uploads[k])
    ensures BlobInv(s.db, after)
  {
    var place := PlaceOf(s.db.uploads[k]);
    PlacesDistinct(s.db, k);
    assert ObjectsFit(s.db, after) by {
      forall q | q in s.db.uploads ensures Fits(s.db.uploads[q], At(after, PlaceOf(s.db.uploads[q]))) {
        assert Fits(s.db.uploads[q], At(s.blobs, PlaceOf(s.db.uploads[q])));
      }
    }
    forall q | q in after && after[q] != Absent && q.obj.file.DerivedFile?
      ensures q.obj.file.intent in s.db.uploads && PlaceOf(s.db.uploads[q.obj.file.intent]) == q
    {
      if q == place {
        assert RowOk(k, s.db.uploads[k]);
      } else {
        assert At(after, q) == At(s.blobs, q);
      }
    }
  }

  function Saved(r: Types.Upload, url: Url, etag: string): Types.Upload {
    r.(url := url, etag := etag, state := if r.state == Ready then Ready else BlobVerified)
  }

  lemma SavedRowOk(k: IntentId, r: Types.Upload, url: Url, etag: string, o: Stored)
    requires RowOk(k, r) && !InRetirement(r.state) && Fits(r, o)
    requires etag != "" && url == ProviderUrl(PlaceOf(r)) && o == Blob(r.size, r.identity.sha, etag)
    requires r.etag != "" ==> r.etag == etag && r.url == url
    ensures RowOk(k, Saved(r, url, etag)) && Evolves(r, Saved(r, url, etag)) && Fits(Saved(r, url, etag), o)
  {
  }

  lemma SaveVerifiedCommits(cfg: Config, s: State, p: nat, url: Url, next: Types.Upload, proc: Process)
    requires Inv(cfg, s) && p in s.procs && s.procs[p].Uploaded? && !RowLocked(s, s.procs[p].i.id)
    requires url == ProviderUrl(PlaceOfIntent(s.procs[p].i))
    requires Journal.SaveVerified(s.db, s.procs[p].i, url, s.procs[p].etag) == Commit(SetUpload(s.db, s.procs[p].i.id, next), ())
    requires s.procs[p].i.id in s.db.uploads && next == Saved(s.db.uploads[s.procs[p].i.id], url, s.procs[p].etag)
    requires proc.Failed? || proc == Verified(s.procs[p].i.(url := url, etag := s.procs[p].etag))
    ensures Kept(cfg, s, SetProc(s.(db := SetUpload(s.db, s.procs[p].i.id, next)), p, proc))
  {
    hide DbInv, BlobInv, QuotaInv, ProcInv, Kept;
    var k := s.procs[p].i.id;
    assert LegalRow(s, k, next) && ProcOk(SetUpload(s.db, k, next), s.blobs, proc) by {
      ProcFacts(cfg, s, p);
      RowFacts(cfg, s, k);
      SavedRowOk(k, s.db.uploads[k], url, s.procs[p].etag, At(s.blobs, PlaceOf(s.db.uploads[k])));
    }
    SameWriterMoves(cfg, s, p, proc);
    assert LocksRespected(s, SetUpload(s.db, k, next), p);
    hide LegalRow, LegalMove, LocksRespected, ProcOk, RowLocked;
    RowStep(cfg, s, p, k, next, proc);
  }

  lemma SaveVerifiedKeeps(cfg: Config, s: State, p: nat, reply: bool)
    requires Inv(cfg, s)
    ensures Kept(cfg, s, DoSaveVerified(s, p, reply))
  {
    hide Kept, Inv;
    Stutter(cfg, s);
    if p in s.procs && s.procs[p].Uploaded? && !RowLocked(s, s.procs[p].i.id) {
      CallFails(cfg, s, p);
      if Journal.SaveVerified(s.db, s.procs[p].i, ProviderUrl(PlaceOfIntent(s.procs[p].i)), s.procs[p].etag).Commit? {
        var i, etag := s.procs[p].i, s.procs[p].etag;
        var url := ProviderUrl(PlaceOfIntent(i));
        SaveVerifiedCommits(cfg, s, p, url, Saved(s.db.uploads[i.id], url, etag),
                            if reply then Verified(i.(url := url, etag := etag)) else Failed);
      }
    }
  }

  /****** Finalization ******/

  lemma FinalizeBegins(cfg: Config, s: State, p: nat)
    requires Inv(cfg, s) && p in s.procs && s.procs[p].Verified?
    requires !OwnerLocked(s, s.procs[p].i.identity.owner) && FinalizeCheck(s.db, s.procs[p].i).Ok?
    ensures Kept(cfg, s, SetProc(s, p, Finalizing(s.procs[p].i, false, false, Unread)))
  {
    var proc := Finalizing(s.procs[p].i, false, false, Unread);
    hide DbInv, BlobInv, QuotaInv, ProcInv, Kept;
    LockTaken(cfg, s, p, proc);
    assert ProcOk(s.db, s.blobs, proc) by { ProcFacts(cfg, s, p); }
    hide LegalMove, ProcOk, OwnerLocked;
    CallMoves(cfg, s, p, proc);
  }

  lemma LockTaken(cfg: Config, s: State, p: nat, proc: Process)
    requires Inv(cfg, s) && p in s.procs && s.procs[p].Verified? && proc.Finalizing? && proc.i == s.procs[p].i
    requires !OwnerLocked(s, proc.i.identity.owner)
    ensures LegalMove(s, p, proc)
  {
    hide DbInv, BlobInv, QuotaInv, ProcOk;
  }

  lemma FinalizeBeginKeeps(cfg: Config, s: State, p: nat)
    requires Inv(cfg, s)
    ensures Kept(cfg, s, DoFinalizeBegin(s, p))
  {
    hide Kept, Inv;
    Stutter(cfg, s);
    if p in s.procs && s.procs[p].Verified? && !OwnerLocked(s, s.procs[p].i.identity.owner) {
      CallFails(cfg, s, p);
      if FinalizeCheck(s.db, s.procs[p].i).Ok? {
        FinalizeBegins(cfg, s, p);
      }
    }
  }

  lemma FinalizerReads(cfg: Config, s: State, p: nat, seen: Seen)
    requires Inv(cfg, s) && p in s.procs && s.procs[p].Finalizing?
    ensures Kept(cfg, s, SetProc(s, p, s.procs[p].(seen := seen)))
  {
    hide DbInv, BlobInv, QuotaInv, ProcInv, Kept;
    var proc := s.procs[p].(seen := seen);
    ProcFacts(cfg, s, p);
    SameWriterMoves(cfg, s, p, proc);
    CallMoves(cfg, s, p, proc);
  }

  lemma FinalizeReadKeeps(cfg: Config, s: State, p: nat)
    requires Inv(cfg, s)
    ensures Kept(cfg, s, DoFinalizeRead(s, p))
  {
    hide Kept, Inv;
    Stutter(cfg, s);
    if p in s.procs && s.procs[p].Finalizing? {
      FinalizerReads(cfg, s, p, Read(FileHead(s.db.library, s.procs[p].i.file)));
    }
  }

  lemma AppendFileRows(lib: Shelf, f: FileId, row: FileRow, after: Shelf)
    requires after == AppendFile(lib, f, row)
    ensures FileRows(after, f) != [] && after.versioned == lib.versioned
    ensures forall g :: g != f ==> FileRows(after, g) == FileRows(lib, g)
    ensures forall g :: EntryRows(after, g) == EntryRows(lib, g)
    ensures forall g :: FileRows(lib, g) != [] ==> FileRows(after, g) != []
  {
  }

  lemma AppendKeepsPresentation(db: Db, f: FileId, row: FileRow, after: Db)
    requires PresentationOk(db) && after == db.(library := AppendFile(db.library, f, row))
    requires f.DerivedFile? ==> f.intent in db.uploads && db.uploads[f.intent].file == f && db.uploads[f.intent].url != NoUrl
    ensures PresentationOk(after)
  {
    AppendFileRows(db.library, f, row, after.library);
    forall g | g in after.library.files && FileRows(after.library, g) != [] && g.DerivedFile?
      ensures g.intent in db.uploads && db.uploads[g.intent].file == g && db.uploads[g.intent].url != NoUrl
    {
      if g != f {
        assert g in db.library.files;
      }
    }
  }

  /** A file row appended where the retirement trigger allows it. */
  lemma AppendFileKeepsDb(db: Db, f: FileId, row: FileRow)
    requires DbInv(db) && !FileRetiring(db, f)
    requires f.DerivedFile? ==> f.intent in db.uploads && db.uploads[f.intent].file == f && db.uploads[f.intent].url != NoUrl
    ensures DbInv(db.(library := AppendFile(db.library, f, row)))
    ensures DbGrows(db, db.(library := AppendFile(db.library, f, row)))
  {
    var after := db.(library := AppendFile(db.library, f, row));
    hide RowsOk, FilesUnique, ReferencesOk, FencesOk, FrozenOk, PresentationOk, AppendFile;
    AppendKeepsPresentation(db, f, row, after);
    AppendFileRows(db.library, f, row, after.library);
    LibraryChangeKeepsRest(db, after, f);
  }

  /** A Library change at one file that is not retiring leaves every retiring file frozen. */
  lemma LibraryChangeKeepsRest(db: Db, after: Db, f: FileId)
    requires DbInv(db) && !FileRetiring(db, f)
    requires after == db.(library := after.library)
    requires forall g :: g != f ==>
      FileRows(after.library, g) == FileRows(db.library, g) && EntryRows(after.library, g) == EntryRows(db.library, g) &&
      (g in after.library.versioned <==> g in db.library.versioned)
    ensures RowsOk(after) && FilesUnique(after) && ReferencesOk(after) && FencesOk(after) && FrozenOk(after)
  {
    assert ReferencesOk(after) by {
      forall key | key in after.references ensures ReferenceOk(after, key, after.references[key]) {
        assert ReferenceOk(db, key, db.references[key]);
      }
    }
    assert FrozenOk(after) by {
      forall k | k in after.uploads && InRetirement(after.uploads[k].state) ensures Frozen(after.library, after.uploads[k]) {
        assert Frozen(db.library, db.uploads[k]);
        assert after.uploads[k].file != f;
      }
    }
  }

  /** An engine write of the finalizer. */
  lemma FinalizerWrites(cfg: Config, s: State, p: nat, row: FileRow, proc: Process)
    requires Inv(cfg, s) && p in s.procs && s.procs[p].Finalizing?
    requires proc.Failed? || (proc.Finalizing? && proc.i == s.procs[p].i)
    requires !FileRetiring(s.db, s.procs[p].i.file)
    ensures Kept(cfg, s, SetProc(s.(db := s.db.(library := AppendFile(s.db.library, s.procs[p].i.file, row))), p, proc))
  {
    hide DbInv, BlobInv, QuotaInv, ProcInv, Kept;
    var f := s.procs[p].i.file;
    var n := SetProc(s.(db := s.db.(library := AppendFile(s.db.library, f, row))), p, proc);
    assert ProcOk(n.db, s.blobs, proc) by { ProcFacts(cfg, s, p); }
    assert DbInv(n.db) && DbGrows(s.db, n.db) by {
      ProcFacts(cfg, s, p);
      RowFacts(cfg, s, s.procs[p].i.id);
      AppendFileKeepsDb(s.db, f, row);
    }
    SameUploadsKeepQuota(cfg.quota, s.db, n.db);
    SameUploadsKeepBlobs(s.db, n.db, s.blobs);
    SameBlobsGrow(n.db, s.blobs);
    SameWriterMoves(cfg, s, p, proc);
    assert LocksRespected(s, n.db, p);
    Assemble(cfg, s, n, p, proc);
  }

  lemma SameUploadsKeepBlobs(db: Db, n: Db, blobs: Blobs)
    requires BlobInv(db, blobs) && n.uploads == db.uploads
    ensures BlobInv(n, blobs)
  {
  }

  lemma FinalizeRecordKeeps(cfg: Config, s: State, p: nat, reply: bool)
    requires Inv(cfg, s)
    ensures Kept(cfg, s, DoFinalizeRecord(s, p, reply))
  {
    hide Kept, Inv;
    Stutter(cfg, s);
    if p in s.procs && s.procs[p].Finalizing? {
      var f := s.procs[p];
      if !(f.recorded || f.promoted || f.seen != Read(None) || !ValidIdentity(f.i.identity)) {
        CallFails(cfg, s, p);
        if !FileRetiring(s.db, f.i.file) {
          FinalizerWrites(cfg, s, p, RecordedRow(f.i), if reply then f.(recorded := true, seen := Unread) else Failed);
        }
      }
    }
  }

  lemma FinalizePromoteKeeps(cfg: Config, s: State, p: nat, reply: bool)
    requires Inv(cfg, s)
    ensures Kept(cfg, s, DoFinalizePromote(s, p, reply))
  {
    hide Kept, Inv;
    Stutter(cfg, s);
    if p in s.procs && s.procs[p].Finalizing? {
      var f := s.procs[p];
      var head := FileHead(s.db.library, f.i.file);
      if !(f.promoted || !SeenMatching(f) || f.seen.head.value.status != "stored" || head.None?) {
        CallFails(cfg, s, p);
        if !FileRetiring(s.db, f.i.file) {
          FinalizerWrites(cfg, s, p, head.value.(status := "ready"), if reply then f.(promoted := true, seen := Unread) else Failed);
        }
      }
    }
  }

  lemma ReadyRowOk(k: IntentId, r: Types.Upload, o: Stored)
    requires RowOk(k, r) && Fits(r, o) && !InRetirement(r.state) && r.etag != ""
    ensures var next := r.(state := Ready); RowOk(k, next) && Evolves(r, next) && Fits(next, o)
  {
  }

  lemma FinalizeCommits(cfg: Config, s: State, p: nat, proc: Process)
    requires Inv(cfg, s) && p in s.procs && s.procs[p].Finalizing?
    requires proc.Failed? || proc == StoreDone(s.procs[p].i)
    ensures Kept(cfg, s, SetProc(s.(db := Journal.FinalizeCommit(s.db, s.procs[p].i)), p, proc))
  {
    hide DbInv, BlobInv, QuotaInv, ProcInv, Kept;
    var i := s.procs[p].i;
    ProcFacts(cfg, s, p);
    var r := s.db.uploads[i.id];
    var next := r.(state := Ready);
    assert LegalRow(s, i.id, next) && ProcOk(SetUpload(s.db, i.id, next), s.blobs, proc) by {
      RowFacts(cfg, s, i.id);
      ReadyRowOk(i.id, r, At(s.blobs, PlaceOf(r)));
    }
    assert LocksRespected(s, SetUpload(s.db, i.id, next), p) by { HolderAlone(s, SetUpload(s.db, i.id, next), p); }
    SameWriterMoves(cfg, s, p, proc);
    RowStep(cfg, s, p, i.id, next, proc);
  }

  lemma FinalizeCommitKeeps(cfg: Config, s: State, p: nat, reply: bool)
    requires Inv(cfg, s)
    ensures Kept(cfg, s, DoFinalizeCommit(s, p, reply))
  {
    hide Kept, Inv;
    Stutter(cfg, s);
    if p in s.procs && s.procs[p].Finalizing? && !s.procs[p].seen.Unread? {
      CallFails(cfg, s, p);
      FinalizeCommits(cfg, s, p, if reply then StoreDone(s.procs[p].i) else Failed);
    }
  }

  /** While one finalizer holds its locks, no other finalizer works on the same row. */
  lemma HolderAlone(s: State, n: Db, p: nat)
    requires ProcInv(s) && p in s.procs && s.procs[p].Finalizing? && s.procs[p].i.id in s.db.uploads
    requires n.uploads.Keys >= s.db.uploads.Keys
    requires forall q :: q in s.db.uploads && q != s.procs[p].i.id ==> n.uploads[q] == s.db.uploads[q]
    ensures LocksRespected(s, n, p)
  {
    forall q | q in s.procs && q != p && s.procs[q].Finalizing? ensures s.procs[q].i.id != s.procs[p].i.id {
      assert ProcOk(s.db, s.blobs, s.procs[q]) && ProcOk(s.db, s.blobs, s.procs[p]);
    }
  }

  /****** References and fences ******/

  predicate Pinnable(db: Db, scope: Scope, k: IntentId) {
    k in db.uploads && InScope(k, db.uploads[k].identity, scope) && db.uploads[k].state == Ready
  }

  lemma PinRefusalStep(db: Db, scope: Scope, ids: seq<IntentId>, before: seq<IntentId>, last: IntentId)
    requires ids == before + [last]
    ensures PinRefusal(db, scope, ids) == None <==> PinRefusal(db, scope, before) == None && Pinnable(db, scope, last)
  {
    assert ids[..|ids| - 1] == before;
  }

  lemma NothingToPin(db: Db, scope: Scope)
    ensures PinRefusal(db, scope, []) == None
  {
  }

  lemma {:induction false} PinnableAll(db: Db, scope: Scope, ids: seq<IntentId>)
    ensures PinRefusal(db, scope, ids) == None <==> forall k :: k in ids ==> Pinnable(db, scope, k)
  {
    hide PinRefusal, Pinnable;
    if ids == [] {
      NothingToPin(db, scope);
    } else {
      var before, last := ids[..|ids| - 1], ids[|ids| - 1];
      PinnableAll(db, scope, before);
      assert ids == before + [last];
      PinRefusalStep(db, scope, ids, before, last);
      assert forall k :: k in ids <==> k in before || k == last;
    }
  }

  /** A change of references or fences alone keeps everything said of rows and presentations. */
  lemma RowsAndLibrarySame(db: Db, after: Db)
    requires RowsOk(db) && FilesUnique(db) && PresentationOk(db) && FrozenOk(db) && after.uploads == db.uploads && after.library == db.library
    ensures RowsOk(after) && FilesUnique(after) && PresentationOk(after) && FrozenOk(after)
  {
    hide RowOk, Frozen;
  }

  lemma SameRowsGrow(db: Db, after: Db)
    requires after.uploads == db.uploads && after.library == db.library
    requires forall key :: key in db.references ==> key in after.references && ReferenceEvolves(db.references[key], after.references[key])
    requires forall f :: f in db.fences ==> f in after.fences && after.fences[f] == db.fences[f]
    ensures DbGrows(db, after)
  {
    hide ReferenceEvolves;
    assert forall f :: FileRows(after.library, f) == FileRows(db.library, f);
  }

  lemma ReferenceKeepsDb(db: Db, key: RefKey, r: Reference)
    requires DbInv(db) && ReferenceOk(db, key, r)
    requires key in db.references ==> ReferenceEvolves(db.references[key], r)
    ensures DbInv(SetReference(db, key, r)) && DbGrows(db, SetReference(db, key, r))
  {
    var after := SetReference(db, key, r);
    hide RowsOk, FilesUnique, FrozenOk, PresentationOk, DbGrows;
    assert ReferencesOk(after) by {
      forall q | q in after.references ensures ReferenceOk(after, q, after.references[q]) {
        assert q != key ==> ReferenceOk(db, q, db.references[q]);
      }
    }
    hide ReferenceOk;
    RowsAndLibrarySame(db, after);
    SameRowsGrow(db, after);
  }

  lemma DbStep(cfg: Config, s: State, after: Db)
    requires Inv(cfg, s) && DbInv(after) && DbGrows(s.db, after) && after.uploads == s.db.uploads
    ensures Kept(cfg, s, s.(db := after))
  {
    var n := s.(db := after);
    SameUploadsKeepQuota(cfg.quota, s.db, after);
    SameUploadsKeepBlobs(s.db, after, s.blobs);
    SameBlobsGrow(after, s.blobs);
    assert ProcInv(n) by {
      hide DbInv, BlobInv, QuotaInv, DbGrows, BlobsGrow, ProcInv;
      ProcsKept(s, n);
    }
    hide DbInv, BlobInv, QuotaInv, DbGrows, BlobsGrow, ProcInv;
  }

  lemma ReferenceCommitted(cfg: Config, s: State, scope: Scope, reference: string, ids: seq<IntentId>, release: bool, key: RefKey, r: Reference)
    requires Inv(cfg, s) && key == RefKey(scope, reference)
    requires Journal.ChangeReference(s.db, cfg.less, scope, reference, ids, release).Commit?
    requires Journal.ChangeReference(s.db, cfg.less, scope, reference, ids, release).db == SetReference(s.db, key, r)
    requires r == (if key in s.db.references then s.db.references[key].(state := if release then Released else Active)
                   else Reference(scope.owner, reference, scope, Orders.Sort(cfg.less, ids), if release then Released else Active))
    ensures Kept(cfg, s, s.(db := SetReference(s.db, key, r)))
  {
    if key in s.db.references {
      assert ReferenceOk(s.db, key, s.db.references[key]);
    }
    assert ReferenceOk(s.db, key, r) by { PinnableAll(s.db, scope, Orders.Sort(cfg.less, ids)); }
    hide DbInv, BlobInv, QuotaInv, ProcInv, Kept, ReferenceOk, DbGrows;
    ReferenceKeepsDb(s.db, key, r);
    DbStep(cfg, s, SetReference(s.db, key, r));
  }

  lemma ChangeReferenceKeeps(cfg: Config, s: State, scope: Scope, reference: string, ids: seq<IntentId>, release: bool)
    requires Inv(cfg, s)
    ensures Kept(cfg, s, DoChangeReference(cfg, s, scope, reference, ids, release))
  {
    hide Kept, Inv;
    Stutter(cfg, s);
    if Journal.ChangeReference(s.db, cfg.less, scope, reference, ids, release).Commit? && !OwnerLocked(s, scope.owner) {
      var key := RefKey(scope, reference);
      var state := if release then Released else Active;
      ReferenceCommitted(cfg, s, scope, reference, ids, release, key,
        if key in s.db.references then s.db.references[key].(state := state)
        else Reference(scope.owner, reference, scope, Orders.Sort(cfg.less, ids), state));
    }
  }

  lemma FenceKeepsDb(db: Db, scope: Scope, after: Db)
    requires DbInv(db) && scope !in db.fences && after == db.(fences := db.fences[scope := FenceRow(scope.owner, scope)])
    ensures DbInv(after) && DbGrows(db, after)
  {
    hide RowsOk, FilesUnique, FrozenOk, PresentationOk, DbGrows;
    assert ReferencesOk(after) by {
      forall q | q in after.references ensures ReferenceOk(after, q, after.references[q]) {
        assert ReferenceOk(db, q, db.references[q]);
      }
    }
    hide ReferenceOk, ReferencesOk;
    RowsAndLibrarySame(db, after);
    SameRowsGrow(db, after);
  }

  lemma FenceKeeps(cfg: Config, s: State, scope: Scope)
    requires Inv(cfg, s)
    ensures Kept(cfg, s, DoFence(s, scope))
  {
    Stutter(cfg, s);
    hide DbInv, BlobInv, QuotaInv, ProcInv, Kept, DbGrows;
    if ReadFence(s.db, scope) == Ok(false) {
      var after := s.db.(fences := s.db.fences[scope := FenceRow(scope.owner, scope)]);
      FenceKeepsDb(s.db, scope, after);
      DbStep(cfg, s, after);
    }
  }

  /****** Retirement ******/

  lemma RetiringRowOk(k: IntentId, r: Types.Upload, token: string, o: Stored)
    requires RowOk(k, r) && Fits(r, o) && !InRetirement(r.state) && token != ""
    ensures var next := r.(state := Retiring, generation := r.generation + 1, lease := token);
      RowOk(k, next) && Evolves(r, next) && Fits(next, o)
  {
  }

  lemma RetirementBegins(cfg: Config, s: State, p: nat, k: IntentId, token: string, next: Types.Upload, proc: Process)
    requires Inv(cfg, s) && p !in s.procs && token != "" && k in s.db.uploads && !InRetirement(s.db.uploads[k].state)
    requires !OwnerLocked(s, s.db.uploads[k].identity.owner) && !PinnedFor(s.db, s.db.uploads[k].identity.owner, k)
    requires CheckRetirement(s.db.library, s.db.uploads[k].file, s.db.uploads[k].identity, s.db.uploads[k].url) == None
    requires next == s.db.uploads[k].(state := Retiring, generation := s.db.uploads[k].generation + 1, lease := token)
    requires proc.Failed? || proc == RetireBegun(IntentOf(k, next), token)
    ensures Kept(cfg, s, SetProc(s.(db := SetUpload(s.db, k, next)), p, proc))
  {
    hide DbInv, BlobInv, QuotaInv, ProcInv, Kept, CheckRetirement;
    assert LegalRow(s, k, next) by {
      RowFacts(cfg, s, k);
      RetiringRowOk(k, s.db.uploads[k], token, At(s.blobs, PlaceOf(s.db.uploads[k])));
      OwnerFilterMissesNoPin(s.db, k);
    }
    assert ProcOk(SetUpload(s.db, k, next), s.blobs, proc);
    UnlockedRow(s, k, SetUpload(s.db, k, next), p);
    assert LegalMove(s, p, proc);
    hide LegalRow, LegalMove, LocksRespected, ProcOk, OwnerLocked, PinnedFor;
    RowStep(cfg, s, p, k, next, proc);
  }

  lemma RetirementResumes(cfg: Config, s: State, p: nat, k: IntentId, proc: Process)
    requires Inv(cfg, s) && p !in s.procs && k in s.db.uploads && InRetirement(s.db.uploads[k].state)
    requires
      || proc.Failed?
      || proc == RetireBegun(IntentOf(k, s.db.uploads[k]), s.db.uploads[k].lease)
      || (s.db.uploads[k].state == Retired && proc == RetireDone(RetiredReceipt(k, s.db.uploads[k].file, s.db.uploads[k].retiredEtag)))
    ensures Kept(cfg, s, SetProc(s, p, proc))
  {
    hide DbInv, BlobInv, QuotaInv, ProcInv, Kept;
    RowFacts(cfg, s, k);
    assert ProcOk(s.db, s.blobs, proc);
    CallMoves(cfg, s, p, proc);
  }

  lemma BeginRetirementKeeps(cfg: Config, s: State, p: nat, scope: Scope, k: IntentId, token: string, reply: bool)
    requires Inv(cfg, s)
    ensures Kept(cfg, s, DoBeginRetirement(s, p, scope, k, token, reply))
  {
    hide Kept, Inv, CheckRetirement;
    Stutter(cfg, s);
    if p !in s.procs && token != "" && !OwnerLocked(s, scope.owner) {
      CallFails(cfg, s, p);
      if Journal.BeginRetirement(s.db, scope, k, token).Commit? {
        var r := s.db.uploads[k];
        var n := DoBeginRetirement(s, p, scope, k, token, reply);
        if InRetirement(r.state) {
          RetirementResumes(cfg, s, p, k, n.procs[p]);
        } else {
          var next := r.(state := Retiring, generation := r.generation + 1, lease := token);
          RetirementBegins(cfg, s, p, k, token, next, if reply then RetireBegun(IntentOf(k, next), token) else Failed);
        }
      }
    }
  }

  lemma ObjectRetired(cfg: Config, s: State, p: nat, etag: string, o: Stored, after: Blobs, proc: Process)
    requires Inv(cfg, s) && p in s.procs && s.procs[p].RetireBegun? && etag != ""
    requires Retire(At(s.blobs, PlaceOfIntent(s.procs[p].i)), MarkerOf(s.procs[p].i, s.procs[p].token), etag) == Some(o)
    requires after == s.blobs[PlaceOfIntent(s.procs[p].i) := o]
    requires proc.Failed? || proc == RetireFenced(s.procs[p].i, s.procs[p].token, etag)
    ensures Kept(cfg, s, SetProc(s.(blobs := after), p, proc))
  {
    hide DbInv, BlobInv, QuotaInv, ProcInv, Kept;
    var i := s.procs[p].i;
    ProcFacts(cfg, s, p);
    RowFacts(cfg, s, i.id);
    assert PlaceOf(s.db.uploads[i.id]) == PlaceOfIntent(i);
    assert ProcOk(s.db, after, proc) && Fits(s.db.uploads[i.id], o);
    SameWriterMoves(cfg, s, p, proc);
    hide ProcOk, LegalMove, Fits;
    ObjectStep(cfg, s, p, i.id, o, after, proc);
  }

  lemma RetireObjectKeeps(cfg: Config, s: State, p: nat, etag: string, reply: bool)
    requires Inv(cfg, s)
    ensures Kept(cfg, s, DoRetireObject(s, p, etag, reply))
  {
    hide Kept, Inv;
    Stutter(cfg, s);
    if p in s.procs && s.procs[p].RetireBegun? && etag != "" {
      CallFails(cfg, s, p);
      var i, token := s.procs[p].i, s.procs[p].token;
      var o := Retire(At(s.blobs, PlaceOfIntent(i)), MarkerOf(i, token), etag);
      if o.Some? {
        ObjectRetired(cfg, s, p, etag, o.value, s.blobs[PlaceOfIntent(i) := o.value], if reply then RetireFenced(i, token, etag) else Failed);
      }
    }
  }

  lemma RetiredRowOk(k: IntentId, r: Types.Upload, etag: string, o: Stored)
    requires RowOk(k, r) && InRetirement(r.state) && Fits(r, o) && o.Tombstone? && etag != ""
    ensures var next := r.(state := Retired, retiredEtag := etag); RowOk(k, next) && Evolves(r, next) && Fits(next, o)
  {
  }

  lemma FrozenFacts(cfg: Config, s: State, k: IntentId)
    requires Inv(cfg, s) && k in s.db.uploads && InRetirement(s.db.uploads[k].state)
    ensures Frozen(s.db.library, s.db.uploads[k])
  {
    hide BlobInv, QuotaInv, ProcInv, Frozen, RowsOk, ReferencesOk, FencesOk, FilesUnique, PresentationOk;
  }

  lemma RetirementConfirmed(cfg: Config, s: State, p: nat, next: Types.Upload, proc: Process)
    requires Inv(cfg, s) && p in s.procs && s.procs[p].RetireFenced? && !OwnerLocked(s, s.procs[p].i.identity.owner)
    requires s.procs[p].i.id in s.db.uploads
    requires next == s.db.uploads[s.procs[p].i.id].(state := Retired, retiredEtag := s.procs[p].etag)
    requires proc.Failed? || proc == RetireDone(RetiredReceipt(s.procs[p].i.id, s.procs[p].i.file, s.procs[p].etag))
    ensures Kept(cfg, s, SetProc(s.(db := SetUpload(s.db, s.procs[p].i.id, next)), p, proc))
  {
    hide DbInv, BlobInv, QuotaInv, ProcInv, Kept, CheckRetirement;
    var k := s.procs[p].i.id;
    ProcFacts(cfg, s, p);
    assert LegalRow(s, k, next) && ProcOk(SetUpload(s.db, k, next), s.blobs, proc) by {
      RowFacts(cfg, s, k);
      RetiredRowOk(k, s.db.uploads[k], s.procs[p].etag, At(s.blobs, PlaceOf(s.db.uploads[k])));
      FrozenFacts(cfg, s, k);
    }
    UnlockedRow(s, k, SetUpload(s.db, k, next), p);
    SameWriterMoves(cfg, s, p, proc);
    hide LegalRow, LegalMove, LocksRespected, ProcOk, OwnerLocked;
    RowStep(cfg, s, p, k, next, proc);
  }

  lemma ConfirmRetirementKeeps(cfg: Config, s: State, p: nat, reply: bool)
    requires Inv(cfg, s)
    ensures Kept(cfg, s, DoConfirmRetirement(s, p, reply))
  {
    hide Kept, Inv;
    Stutter(cfg, s);
    if p in s.procs && s.procs[p].RetireFenced? && !OwnerLocked(s, s.procs[p].i.identity.owner) {
      CallFails(cfg, s, p);
      var f := s.procs[p];
      if Journal.ConfirmRetirement(s.db, f.i, f.token, f.etag).Commit? {
        RetirementConfirmed(cfg, s, p, s.db.uploads[f.i.id].(state := Retired, retiredEtag := f.etag),
                            if reply then RetireDone(RetiredReceipt(f.i.id, f.i.file, f.etag)) else Failed);
      }
    }
  }

  lemma GrowsTransitive(a: State, b: State, c: State)
    requires Grows(a, b) && Grows(b, c)
    ensures Grows(a, c)
  {
    hide DbGrows, BlobsGrow;
    DbGrowsTransitive(a.db, b.db, c.db);
    BlobsGrowTransitive(b.db, c.db, a.blobs, b.blobs, c.blobs);
  }

  /** A step of no process that replaces one row of an owner no finalizer has locked. */
  lemma QuietRowStep(cfg: Config, s: State, k: IntentId, next: Types.Upload)
    requires Inv(cfg, s) && LegalRow(s, k, next) && !OwnerLocked(s, next.identity.owner)
    ensures Kept(cfg, s, s.(db := SetUpload(s.db, k, next)))
  {
    hide RowOk, Frozen, Fits, ProcOk, BlobInv, QuotaInv, PinnedAnywhere, DbGrows, BlobsGrow, ProcInv;
    var n := s.(db := SetUpload(s.db, k, next));
    RowUpdateKeepsDb(s.db, k, next);
    RowUpdateKeepsBlobs(s.db, s.blobs, k, next);
    RowUpdateKeepsQuota(cfg.quota, s.db, k, next);
    SameBlobsGrow(n.db, s.blobs);
    UnlockedRow(s, k, n.db, 0);
    ProcsKept(s, n);
  }

  /****** Purge ******/

  lemma DeletedStaysFrozen(lib: Shelf, r: Types.Upload, after: Shelf)
    requires CheckRetirement(lib, r.file, r.identity, r.url) == None
    requires after == DeletePresentation(lib, r.file, r.identity.owner)
    ensures Frozen(after, r.(purged := true)) && Frozen(after, r)
  {
    PurgeLeavesNoHead(lib, r.file, r.identity, r.url);
    assert FileHead(after, r.file) == None && EntryHead(after, r.file) == None;
  }

  lemma DeleteKeepsFrozen(db: Db, k: IntentId, after: Db)
    requires DbInv(db) && k in db.uploads
    requires CheckRetirement(db.library, db.uploads[k].file, db.uploads[k].identity, db.uploads[k].url) == None
    requires after == db.(library := DeletePresentation(db.library, db.uploads[k].file, db.uploads[k].identity.owner))
    ensures FrozenOk(after)
  {
    var r := db.uploads[k];
    PurgeLeavesNoHead(db.library, r.file, r.identity, r.url);
    DeletedStaysFrozen(db.library, r, after.library);
    hide RowsOk, ReferencesOk, FencesOk, PresentationOk;
    forall q | q in after.uploads && InRetirement(after.uploads[q].state) ensures Frozen(after.library, after.uploads[q]) {
      if q != k {
        assert Frozen(db.library, db.uploads[q]);
        assert db.uploads[q].file != r.file;
      }
    }
  }

  lemma DeleteKeepsDb(db: Db, k: IntentId, after: Db)
    requires DbInv(db) && k in db.uploads
    requires CheckRetirement(db.library, db.uploads[k].file, db.uploads[k].identity, db.uploads[k].url) == None
    requires after == db.(library := DeletePresentation(db.library, db.uploads[k].file, db.uploads[k].identity.owner))
    ensures DbInv(after) && DbGrows(db, after)
  {
    DeleteKeepsFrozen(db, k, after);
    PurgeLeavesNoHead(db.library, db.uploads[k].file, db.uploads[k].identity, db.uploads[k].url);
    hide CheckRetirement, DeletePresentation, FrozenOk, RowOk;
    assert FileTaken(after, db.uploads[k].file);
    assert ReferencesOk(after) by {
      forall q | q in after.references ensures ReferenceOk(after, q, after.references[q]) {
        assert ReferenceOk(db, q, db.references[q]);
      }
    }
    hide ReferenceOk, ReferencesOk;
    assert PresentationOk(after) by {
      forall g | g in after.library.files && FileRows(after.library, g) != [] && g.DerivedFile?
        ensures g.intent in db.uploads && db.uploads[g.intent].file == g && db.uploads[g.intent].url != NoUrl
      {
        assert g != db.uploads[k].file;
        assert FileRows(db.library, g) != [];
      }
    }
  }

  lemma PurgeCommits(cfg: Config, s: State, k: IntentId, lib: Shelf, next: Types.Upload)
    requires Inv(cfg, s) && k in s.db.uploads && s.db.uploads[k].state == Retired && !OwnerLocked(s, s.db.uploads[k].identity.owner)
    requires CheckRetirement(s.db.library, s.db.uploads[k].file, s.db.uploads[k].identity, s.db.uploads[k].url) == None
    requires lib == DeletePresentation(s.db.library, s.db.uploads[k].file, s.db.uploads[k].identity.owner)
    requires next == s.db.uploads[k].(purged := true)
    ensures Kept(cfg, s, s.(db := SetUpload(s.db.(library := lib), k, next)))
  {
    hide DbInv, BlobInv, QuotaInv, ProcInv, DbGrows, BlobsGrow, CheckRetirement, DeletePresentation;
    var mid := s.(db := s.db.(library := lib));
    DeleteKeepsDb(s.db, k, mid.db);
    DbStep(cfg, s, mid.db);
    RowFacts(cfg, mid, k);
    DeletedStaysFrozen(s.db.library, s.db.uploads[k], lib);
    assert LegalRow(mid, k, next);
    assert !OwnerLocked(mid, next.identity.owner);
    hide LegalRow, OwnerLocked;
    QuietRowStep(cfg, mid, k, next);
    GrowsTransitive(s, mid, mid.(db := SetUpload(mid.db, k, next)));
  }

  lemma PurgeKeeps(cfg: Config, s: State, scope: Scope, k: IntentId)
    requires Inv(cfg, s)
    ensures Kept(cfg, s, DoPurge(s, scope, k))
  {
    hide Kept, Inv, CheckRetirement, DeletePresentation;
    Stutter(cfg, s);
    if Journal.Purge(s.db, scope, k).Commit? && !OwnerLocked(s, scope.owner) {
      var r := s.db.uploads[k];
      PurgeCommits(cfg, s, k, DeletePresentation(s.db.library, r.file, scope.owner), r.(purged := true));
    }
  }

  /****** Adoption ******/

  lemma ExistingReceiptKeeps(cfg: Config, s: State, p: nat, k: IntentId, proc: Process)
    requires Inv(cfg, s) && k in s.db.uploads && (p in s.procs ==> !Finished(s.procs[p]))
    requires proc.Failed? || proc == AdoptDone(ReceiptOf(IntentOf(k, s.db.uploads[k])))
    ensures Kept(cfg, s, SetProc(s, p, proc))
  {
    hide DbInv, BlobInv, QuotaInv, ProcInv, Kept;
    RowFacts(cfg, s, k);
    assert ProcOk(s.db, s.blobs, proc);
    CallMoves(cfg, s, p, proc);
  }

  lemma AdoptKnownKeeps(cfg: Config, s: State, p: nat, scope: Scope, f: FileId)
    requires Inv(cfg, s)
    ensures Kept(cfg, s, DoAdoptKnown(s, p, scope, f))
  {
    hide Kept, Inv;
    Stutter(cfg, s);
    if !(p in s.procs || !FileTaken(s.db, f) || OwnerLocked(s, scope.owner)) {
      CallFails(cfg, s, p);
      var k := HolderOf(s.db, f);
      ExistingReceiptKeeps(cfg, s, p, k, AdoptDone(ReceiptOf(IntentOf(k, s.db.uploads[k]))));
    }
  }

  lemma UntakenFileIsBare(db: Db, f: FileId)
    requires DbInv(db) && !FileTaken(db, f) && FileRows(db.library, f) != []
    ensures f.BareFile?
  {
  }

  lemma AdoptLookKeeps(cfg: Config, s: State, p: nat, scope: Scope, f: FileId)
    requires Inv(cfg, s)
    ensures Kept(cfg, s, DoAdoptLook(s, p, scope, f))
  {
    hide Kept, Inv;
    Stutter(cfg, s);
    if !(p in s.procs || FileTaken(s.db, f)) {
      assert ProcOk(s.db, s.blobs, AdoptUnknown(scope, f));
      CallMoves(cfg, s, p, AdoptUnknown(scope, f));
    }
  }

  lemma RowFound(cfg: Config, s: State, scope: Scope, f: FileId, container: string, i: Intent)
    requires Inv(cfg, s) && LegacyRead(s.db.library, scope, f, container) == Ok(i)
    ensures FoundOk(s.db, scope, i)
  {
    hide ProcInv, BlobInv, QuotaInv, Matches;
    if !FileTaken(s.db, f) {
      UntakenFileIsBare(s.db, f);
    }
    hide DbInv;
  }

  lemma AdoptReadKeeps(cfg: Config, s: State, p: nat, container: string)
    requires Inv(cfg, s)
    ensures Kept(cfg, s, DoAdoptRead(s, p, container))
  {
    hide Kept, Inv, LegacyRead;
    Stutter(cfg, s);
    if p in s.procs && s.procs[p].AdoptUnknown? {
      CallFails(cfg, s, p);
      var scope := s.procs[p].scope;
      var found := LegacyRead(s.db.library, scope, s.procs[p].file, container);
      if found.Ok? {
        RowFound(cfg, s, scope, s.procs[p].file, container, found.value);
        CallMoves(cfg, s, p, AdoptFound(scope, found.value));
      }
    }
  }

  lemma AdoptVerifyKeeps(cfg: Config, s: State, p: nat)
    requires Inv(cfg, s)
    ensures Kept(cfg, s, DoAdoptVerify(s, p))
  {
    hide Kept, Inv;
    Stutter(cfg, s);
    if p in s.procs && s.procs[p].AdoptFound? {
      CallFails(cfg, s, p);
      ProcFacts(cfg, s, p);
      var proc := DoAdoptVerify(s, p).procs[p];
      if proc.AdoptChecked? {
        assert ProcOk(s.db, s.blobs, proc);
        CallMoves(cfg, s, p, proc);
      }
    }
  }

  lemma AdoptionAdmitsNothing(db: Db, k: IntentId, r: Types.Upload, owner: string)
    requires k !in db.uploads && r.file.BareFile?
    ensures AdmittedCharges(SetUpload(db, k, r), owner) == AdmittedCharges(db, owner)
  {
  }

  lemma AdoptedChargesSame(quota: int, db: Db, k: IntentId, r: Types.Upload)
    requires QuotaInv(quota, db) && k !in db.uploads && r.file.BareFile?
    ensures QuotaInv(quota, SetUpload(db, k, r))
  {
    forall owner ensures Sums.Sum(AdmittedCharges(SetUpload(db, k, r), owner)) <= quota {
      AdoptionAdmitsNothing(db, k, r, owner);
    }
  }

  lemma CandidateRowOk(db: Db, blobs: Blobs, scope: Scope, i: Intent)
    requires CandidateOk(db, blobs, scope, i) && !FileTaken(db, i.file)
    ensures RowOk(i.id, AdoptedUpload(i)) && Fits(AdoptedUpload(i), At(blobs, PlaceOf(AdoptedUpload(i))))
    ensures i.file.BareFile? && FileRows(db.library, i.file) != []
  {
  }

  lemma AdoptionInserts(cfg: Config, s: State, p: nat, r: Types.Upload, proc: Process)
    requires Inv(cfg, s) && p in s.procs && s.procs[p].AdoptChecked? && r == AdoptedUpload(s.procs[p].i)
    requires s.procs[p].i.id !in s.db.uploads && !FileTaken(s.db, s.procs[p].i.file)
    requires proc.Failed? || proc == AdoptDone(ReceiptOf(s.procs[p].i))
    ensures Kept(cfg, s, SetProc(s.(db := SetUpload(s.db, s.procs[p].i.id, r)), p, proc))
  {
    hide DbInv, BlobInv, QuotaInv, ProcInv, Kept;
    var i := s.procs[p].i;
    ProcFacts(cfg, s, p);
    CandidateRowOk(s.db, s.blobs, s.procs[p].scope, i);
    AdoptedChargesSame(cfg.quota, s.db, i.id, r);
    assert ProcOk(SetUpload(s.db, i.id, r), s.blobs, proc);
    hide RowOk, Fits, FileTaken, ProcOk;
    InsertStep(cfg, s, p, i.id, r, proc);
  }

  lemma AdoptCommitKeeps(cfg: Config, s: State, p: nat, reply: bool)
    requires Inv(cfg, s)
    ensures Kept(cfg, s, DoAdoptCommit(s, p, reply))
  {
    hide Kept, Inv, CheckRetirement;
    Stutter(cfg, s);
    if p in s.procs && s.procs[p].AdoptChecked? && !OwnerLocked(s, s.procs[p].scope.owner) {
      CallFails(cfg, s, p);
      var i := s.procs[p].i;
      if FileTaken(s.db, i.file) {
        var k := HolderOf(s.db, i.file);
        ExistingReceiptKeeps(cfg, s, p, k, if reply then AdoptDone(ReceiptOf(IntentOf(k, s.db.uploads[k]))) else Failed);
      } else if i.id !in s.db.uploads {
        AdoptionInserts(cfg, s, p, AdoptedUpload(i), if reply then AdoptDone(ReceiptOf(i)) else Failed);
      }
    }
  }

  /****** The environment ******/

  lemma OtherEditsKeepDb(db: Db, f: FileId, after: Db)
    requires DbInv(db) && !FileRetiring(db, f)
    requires after == db.(library := after.library) && after.library.files == db.library.files
    requires forall g :: g != f ==>
      EntryRows(after.library, g) == EntryRows(db.library, g) && (g in after.library.versioned <==> g in db.library.versioned)
    ensures DbInv(after) && DbGrows(db, after)
  {
    assert forall g :: FileRows(after.library, g) == FileRows(db.library, g);
    hide RowsOk, FilesUnique, ReferencesOk, FencesOk, FrozenOk;
    LibraryChangeKeepsRest(db, after, f);
  }

  lemma EditLibraryKeeps(cfg: Config, s: State, edit: LibraryEdit)
    requires Inv(cfg, s)
    ensures Kept(cfg, s, DoEditLibrary(s, edit))
  {
    Stutter(cfg, s);
    var after := DoEditLibrary(s, edit).db;
    if !FileRetiring(s.db, edit.file) && after != s.db {
      assert DbInv(after) && DbGrows(s.db, after) by {
        hide BlobInv, QuotaInv, ProcInv, Kept;
        match edit
        case WriteFile(f, row) =>
          AppendFileKeepsDb(s.db, f, row);
        case WriteEntry(f, row) =>
          OtherEditsKeepDb(s.db, f, after);
        case RecordVersionOne(f) =>
          OtherEditsKeepDb(s.db, f, after);
      }
      hide DbInv, BlobInv, QuotaInv, ProcInv, Kept, DbGrows;
      DbStep(cfg, s, after);
    }
  }

  lemma ForeignBlobKeepsBlobs(db: Db, blobs: Blobs, place: Place, o: Stored)
    requires BlobInv(db, blobs) && DbInv(db) && place.obj.file.BareFile? && At(blobs, place) == Absent
    ensures BlobInv(db, blobs[place := o]) && BlobsGrow(db, blobs, blobs[place := o])
  {
    hide ReferencesOk, FencesOk, FrozenOk, PresentationOk;
    forall k | k in db.uploads ensures Fits(db.uploads[k], At(blobs[place := o], PlaceOf(db.uploads[k]))) {
      assert RowOk(k, db.uploads[k]);
      assert Fits(db.uploads[k], At(blobs, PlaceOf(db.uploads[k])));
    }
  }

  lemma ForeignBlobKeeps(cfg: Config, s: State, place: Place, size: int, sha: string, etag: string)
    requires Inv(cfg, s)
    ensures Kept(cfg, s, DoForeignBlob(s, place, size, sha, etag))
  {
    Stutter(cfg, s);
    if !(place.obj.file.DerivedFile? || At(s.blobs, place) != Absent || etag == "") {
      var n := DoForeignBlob(s, place, size, sha, etag);
      hide DbInv, BlobInv, QuotaInv, ProcInv, DbGrows, BlobsGrow;
      ForeignBlobKeepsBlobs(s.db, s.blobs, place, Blob(size, sha, etag));
      SameDbGrows(s.db, s.blobs);
      ProcsKept(s, n);
    }
  }

  lemma CrashKeeps(cfg: Config, s: State, p: nat)
    requires Inv(cfg, s)
    ensures Kept(cfg, s, DoCrash(s, p))
  {
    hide Kept, Inv;
    Stutter(cfg, s);
    if p in s.procs && !Finished(s.procs[p]) {
      CallFails(cfg, s, p);
    }
  }

  /****** Whole runs ******/

  lemma StepKeeps(cfg: Config, s: State, l: Label)
    requires Inv(cfg, s)
    ensures Kept(cfg, s, Apply(cfg, s, l))
  {
    hide Kept, Inv, DoReserve, DoUpload, DoSaveVerified, DoFinalizeBegin, DoFinalizeRead, DoFinalizeRecord, DoFinalizePromote, DoFinalizeCommit,
      DoChangeReference, DoBeginRetirement, DoRetireObject, DoConfirmRetirement, DoFence, DoPurge, DoAdoptKnown, DoAdoptLook, DoAdoptRead,
      DoAdoptVerify, DoAdoptCommit, DoEditLibrary, DoForeignBlob, DoCrash;
    match l
    case Reserve(p, x, others, reply) => ReserveKeeps(cfg, s, p, x, others, reply);
    case Upload(p, etag, delivered, reply) => UploadKeeps(cfg, s, p, etag, delivered, reply);
    case SaveVerified(p, reply) => SaveVerifiedKeeps(cfg, s, p, reply);
    case FinalizeBegin(p) => FinalizeBeginKeeps(cfg, s, p);
    case FinalizeRead(p) => FinalizeReadKeeps(cfg, s, p);
    case FinalizeRecord(p, reply) => FinalizeRecordKeeps(cfg, s, p, reply);
    case FinalizePromote(p, reply) => FinalizePromoteKeeps(cfg, s, p, reply);
    case FinalizeCommit(p, reply) => FinalizeCommitKeeps(cfg, s, p, reply);
    case ChangeReference(scope, reference, ids, release) => ChangeReferenceKeeps(cfg, s, scope, reference, ids, release);
    case BeginRetirement(p, scope, k, token, reply) => BeginRetirementKeeps(cfg, s, p, scope, k, token, reply);
    case RetireObject(p, etag, reply) => RetireObjectKeeps(cfg, s, p, etag, reply);
    case ConfirmRetirement(p, reply) => ConfirmRetirementKeeps(cfg, s, p, reply);
    case Fence(scope) => FenceKeeps(cfg, s, scope);
    case Purge(scope, k) => PurgeKeeps(cfg, s, scope, k);
    case AdoptKnown(p, scope, f) => AdoptKnownKeeps(cfg, s, p, scope, f);
    case AdoptLook(p, scope, f) => AdoptLookKeeps(cfg, s, p, scope, f);
    case AdoptRead(p, container) => AdoptReadKeeps(cfg, s, p, container);
    case AdoptVerify(p) => AdoptVerifyKeeps(cfg, s, p);
    case AdoptCommit(p, reply) => AdoptCommitKeeps(cfg, s, p, reply);
    case EditLibrary(edit) => EditLibraryKeeps(cfg, s, edit);
    case ForeignBlob(place, size, sha, etag) => ForeignBlobKeeps(cfg, s, place, size, sha, etag);
    case Crash(p) => CrashKeeps(cfg, s, p);
  }

  lemma StartOk(cfg: Config)
    ensures Inv(cfg, Start)
  {
    forall owner ensures Sums.Sum(AdmittedCharges(Start.db, owner)) <= cfg.quota {
      assert AdmittedCharges(Start.db, owner) == map[];
    }
  }

  /** Every schedule from a good state keeps the invariant, and nothing durable is undone. */
  lemma {:induction false} RunKeeps(cfg: Config, s: State, run: seq<Label>)
    requires Inv(cfg, s)
    ensures Kept(cfg, s, Exec(cfg, s, run))
  {
    if run == [] {
      Stutter(cfg, s);
    } else {
      var n := |run| - 1;
      hide Inv, Grows;
      RunKeeps(cfg, s, run[..n]);
      StepKeeps(cfg, Exec(cfg, s, run[..n]), run[n]);
      GrowsTransitive(s, Exec(cfg, s, run[..n]), Exec(cfg, s, run));
    }
  }

  /** The invariant holds in every reachable state. */
  lemma ReachableInv(cfg: Config, run: seq<Label>)
    ensures Inv(cfg, Exec(cfg, Start, run))
  {
    hide Inv, Grows;
    StartOk(cfg);
    RunKeeps(cfg, Start, run);
  }

  /** A later state of the same run. */
  lemma Later(cfg: Config, run: seq<Label>, more: seq<Label>)
    ensures Exec(cfg, Start, run + more) == Exec(cfg, Exec(cfg, Start, run), more)
    ensures Inv(cfg, Exec(cfg, Start, run)) && Inv(cfg, Exec(cfg, Start, run + more))
    ensures Grows(Exec(cfg, Start, run), Exec(cfg, Start, run + more))
  {
    hide Inv, Grows;
    ReachableInv(cfg, run);
    ExecConcat(cfg, Start, run, more);
    RunKeeps(cfg, Exec(cfg, Start, run), more);
  }

  lemma ReferenceFacts(cfg: Config, s: State, key: RefKey)
    requires Inv(cfg, s) && key in s.db.references
    ensures ReferenceOk(s.db, key, s.db.references[key])
  {
    hide BlobInv, QuotaInv, ProcInv, RowsOk, FilesUnique, FencesOk, FrozenOk, PresentationOk, ReferenceOk;
  }
}
