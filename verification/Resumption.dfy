/** Undisturbed calls of StoreRunFileStream, first calls and retries: which of them succeed, from every
    reachable state. */
module Resumption {
  import opened Types
  import opened Sizes
  import opened Library
  import opened Provider
  import opened Journal
  import opened Protocol
  import opened Evolution
  import opened Invariant
  import opened Preservation
  import Cleanup

  lemma UnfencedNotTriggered(db: Db, x: Identity)
    requires FencesOk(db) && ScopeOf(x) !in db.fences
    ensures ReadFence(db, ScopeOf(x)) == Ok(false) && !FencedByTrigger(db, x.owner, x)
  {
    forall f | f in db.fences && db.fences[f].owner == x.owner && db.fences[f].scope.run == x.run && db.fences[f].scope.step == x.step
      ensures db.fences[f].scope.attempt != x.attempt
    {
      assert db.fences[f] == FenceRow(f.owner, f);
      assert f != ScopeOf(x);
    }
  }

  lemma ReservedAgain(cfg: Config, s: State, p: nat, x: Identity, others: seq<Number>, k: IntentId, next: Types.Upload)
    requires Inv(cfg, s) && k == IntentIdOf(x) && k in s.db.uploads && s.db.uploads[k].identity == x && !InRetirement(s.db.uploads[k].state)
    requires ScopeOf(x) !in s.db.fences && !OwnerLocked(s, x.owner) && p !in s.procs
    requires next == s.db.uploads[k].(generation := s.db.uploads[k].generation + 1)
    ensures DoReserve(cfg, s, p, x, others, true) == SetProc(s.(db := SetUpload(s.db, k, next)), p, Admitted(IntentOf(k, next)))
  {
    hide Inv, OwnerLocked, Admits, FencedByTrigger, ReadFence;
    Cleanup.FencesFacts(cfg, s);
    RowFacts(cfg, s, k);
    UnfencedNotTriggered(s.db, x);
  }

  /** Nothing in the tables stands in the way of a new intent's row. */
  lemma NewRowInserts(cfg: Config, s: State, x: Identity, k: IntentId)
    requires Inv(cfg, s) && ValidIdentity(x) && k == IntentIdOf(x) && k !in s.db.uploads && ScopeOf(x) !in s.db.fences
    ensures InsertUpload(s.db, k, NewUpload(x)) == Commit(SetUpload(s.db, k, NewUpload(x)), ())
  {
    hide Inv;
    Cleanup.FencesFacts(cfg, s);
    UnfencedNotTriggered(s.db, x);
    hide FencedByTrigger;
    forall q | q in s.db.uploads ensures s.db.uploads[q].file != NewUpload(x).file && s.db.uploads[q].obj != NewUpload(x).obj {
      RowFacts(cfg, s, q);
    }
  }

  lemma ReservedFirst(cfg: Config, s: State, p: nat, x: Identity, others: seq<Number>, k: IntentId)
    requires Inv(cfg, s) && ValidIdentity(x) && k == IntentIdOf(x) && k !in s.db.uploads
    requires ScopeOf(x) !in s.db.fences && !OwnerLocked(s, x.owner) && p !in s.procs && Admits(s.db, x.owner, x.size, others, cfg.quota)
    ensures DoReserve(cfg, s, p, x, others, true)
      == SetProc(s.(db := SetUpload(s.db, k, NewUpload(x))), p, Admitted(IntentOf(k, NewUpload(x))))
  {
    Cleanup.FencesFacts(cfg, s);
    hide Inv, OwnerLocked, Admits, InsertUpload, FencesOk;
    NewRowInserts(cfg, s, x, k);
    UnfencedNotTriggered(s.db, x);
  }

  /** A call that holds the current generation of a row that is not in retirement. */
  ghost predicate Current(s: State, p: nat, k: IntentId, i: Intent) {
    && k in s.db.uploads && !InRetirement(s.db.uploads[k].state) && p in s.procs
    && i.id == k && i.generation == s.db.uploads[k].generation
    && i.identity == s.db.uploads[k].identity && i.file == s.db.uploads[k].file && i.obj == s.db.uploads[k].obj
  }

  lemma UploadedAgain(cfg: Config, s: State, p: nat, k: IntentId, i: Intent, etag: string, n: State)
    requires Inv(cfg, s) && Current(s, p, k, i) && s.procs[p] == Admitted(i) && etag != "" && n == DoUpload(s, p, etag, true, true)
    ensures n.db == s.db && n.procs == s.procs[p := n.procs[p]] && n.procs[p].Uploaded? && n.procs[p].i == i && n.procs[p].etag != ""
    ensures s.db.uploads[k].etag != "" ==> n.procs[p].etag == s.db.uploads[k].etag
  {
    hide Inv;
    RowFacts(cfg, s, k);
  }

  lemma RowUnlocked(cfg: Config, s: State, k: IntentId)
    requires Inv(cfg, s) && k in s.db.uploads && !OwnerLocked(s, s.db.uploads[k].identity.owner)
    ensures !RowLocked(s, k)
  {
    hide Inv;
    forall q | q in s.procs && s.procs[q].Finalizing? ensures s.procs[q].i.id != k {
      ProcFacts(cfg, s, q);
    }
  }

  /** Saving the verified version commits unless the row's receipt names another URL. */
  lemma SavedAgain(cfg: Config, s: State, p: nat, k: IntentId, i: Intent, etag: string, url: Url)
    requires Inv(cfg, s) && Current(s, p, k, i) && s.procs[p] == Uploaded(i, etag) && etag != ""
    requires (s.db.uploads[k].etag != "" ==> etag == s.db.uploads[k].etag) && url == ProviderUrl(PlaceOf(s.db.uploads[k]))
    requires !OwnerLocked(s, s.db.uploads[k].identity.owner)
    ensures DoSaveVerified(s, p, true) ==
      if Confirmable(s.db.uploads[k])
      then SetProc(s.(db := SetUpload(s.db, k, Saved(s.db.uploads[k], url, etag))), p, Verified(i.(url := url, etag := etag)))
      else SetProc(s, p, Failed)
  {
    hide Inv, OwnerLocked;
    RowFacts(cfg, s, k);
    RowUnlocked(cfg, s, k);
    hide RowLocked;
    assert PlaceOfIntent(i) == PlaceOf(s.db.uploads[k]);
  }

  /** The row has no receipt yet, or one that names its object by the provider's URL, as every row
      does that a reservation created. */
  predicate Confirmable(r: Types.Upload) {
    r.etag == "" || r.url == ProviderUrl(PlaceOf(r))
  }

  /****** Finalization ******/

  /** The seven steps of an undisturbed finalizer; those it does not need change nothing. */
  function FinalizeSteps(s: State, p: nat): State {
    var read := DoFinalizeRead(DoFinalizeBegin(s, p), p);
    var recorded := DoFinalizeRead(DoFinalizeRecord(read, p, true), p);
    var promoted := DoFinalizeRead(DoFinalizePromote(recorded, p, true), p);
    DoFinalizeCommit(promoted, p, true)
  }

  lemma Begun(s: State, p: nat, i: Intent)
    requires p in s.procs && s.procs[p] == Verified(i) && !OwnerLocked(s, i.identity.owner) && FinalizeCheck(s.db, i).Ok?
    ensures DoFinalizeRead(DoFinalizeBegin(s, p), p) == SetProc(s, p, Finalizing(i, false, false, Read(FileHead(s.db.library, i.file))))
  {
  }

  /** The finalizer has read the head, and has recorded it if there was none. */
  lemma Recorded(s: State, p: nat, i: Intent, n: State)
    requires p in s.procs && s.procs[p] == Finalizing(i, false, false, Read(FileHead(s.db.library, i.file)))
    requires ValidIdentity(i.identity) && !FileRetiring(s.db, i.file)
    requires n == DoFinalizeRead(DoFinalizeRecord(s, p, true), p)
    ensures
      var head := FileHead(s.db.library, i.file);
      var row := if head.Some? then head.value else RecordedRow(i);
      && n.db.uploads == s.db.uploads && FileHead(n.db.library, i.file) == Some(row)
      && p in n.procs && n.procs[p] == Finalizing(i, head.None?, false, Read(Some(row)))
  {
    hide FileRetiring, RecordedRow;
    Appended(s.db.library, i.file, RecordedRow(i));
    hide AppendFile;
  }

  lemma Promoted(s: State, p: nat, i: Intent, recorded: bool, row: FileRow, n: State)
    requires p in s.procs && s.procs[p] == Finalizing(i, recorded, false, Read(Some(row))) && FileHead(s.db.library, i.file) == Some(row)
    requires !FileRetiring(s.db, i.file)
    requires n == DoFinalizeRead(DoFinalizePromote(s, p, true), p)
    ensures
      var promote := Matches(row, i.identity, i.url) && row.status == "stored";
      && n.db.uploads == s.db.uploads
      && p in n.procs && n.procs[p] == Finalizing(i, recorded, promote, Read(Some(if promote then row.(status := "ready") else row)))
  {
    hide FileRetiring, Matches;
    Appended(s.db.library, i.file, row.(status := "ready"));
    hide AppendFile;
  }

  /** An undisturbed finalizer reports the stored file exactly when the file is absent or presents
      exactly this object. */
  lemma FinalizerOutcome(s: State, p: nat, i: Intent)
    requires p in s.procs && s.procs[p] == Verified(i) && !OwnerLocked(s, i.identity.owner) && FinalizeCheck(s.db, i).Ok?
    requires ValidIdentity(i.identity) && !FileRetiring(s.db, i.file)
    ensures p in FinalizeSteps(s, p).procs
    ensures FinalizeSteps(s, p).procs[p] == if Presentable(s.db, i) then StoreDone(i) else Failed
  {
    MatchesAreShown();
    hide Matches, Shows, RecordedRow, FileRetiring, OwnerLocked, FinalizeCheck, DoFinalizeBegin, DoFinalizeRead, DoFinalizeRecord, DoFinalizePromote, FileHead;
    Begun(s, p, i);
    var read := DoFinalizeRead(DoFinalizeBegin(s, p), p);
    var recorded := DoFinalizeRead(DoFinalizeRecord(read, p, true), p);
    var promoted := DoFinalizeRead(DoFinalizePromote(recorded, p, true), p);
    Recorded(read, p, i, recorded);
    SameTrigger(s.db, recorded.db, i.file);
    var head := FileHead(s.db.library, i.file);
    var row := if head.Some? then head.value else RecordedRow(i);
    Promoted(recorded, p, i, head.None?, row, promoted);
    RecordedMatches(i);
    StatusIrrelevant(row, i);
  }

  /****** The whole call ******/

  /** Everything one call of StoreRunFileStream does. */
  function StoreRun(p: nat, x: Identity, others: seq<Number>, etag: string): seq<Label> {
    [Label.Reserve(p, x, others, true), Label.Upload(p, etag, true, true), Label.SaveVerified(p, true),
     Label.FinalizeBegin(p), Label.FinalizeRead(p), Label.FinalizeRecord(p, true), Label.FinalizeRead(p),
     Label.FinalizePromote(p, true), Label.FinalizeRead(p), Label.FinalizeCommit(p, true)]
  }

  lemma ExecFirst(cfg: Config, s: State, run: seq<Label>)
    requires run != []
    ensures Exec(cfg, s, run) == Exec(cfg, Apply(cfg, s, run[0]), run[1..])
  {
    assert run == run[..1] + run[1..];
    ExecConcat(cfg, s, run[..1], run[1..]);
    assert Exec(cfg, s, run[..1]) == Apply(cfg, s, run[0]) by {
      assert run[..1][..0] == [];
    }
  }

  /** The state after a call's ten steps, as the three calls of its first part and a finalizer. */
  lemma StoreSteps(cfg: Config, s: State, p: nat, x: Identity, others: seq<Number>, etag: string)
    ensures Exec(cfg, s, StoreRun(p, x, others, etag))
      == FinalizeSteps(DoSaveVerified(DoUpload(DoReserve(cfg, s, p, x, others, true), p, etag, true, true), p, true), p)
  {
    hide DoReserve, DoUpload, DoSaveVerified, DoFinalizeBegin, DoFinalizeRead, DoFinalizeRecord, DoFinalizePromote, DoFinalizeCommit;
    var run := StoreRun(p, x, others, etag);
    var s1 := DoReserve(cfg, s, p, x, others, true);
    var s2 := DoUpload(s1, p, etag, true, true);
    var s3 := DoSaveVerified(s2, p, true);
    ExecThree(cfg, s, run);
    assert run[3..] == FinalizeRun(p);
    FinalizeRunSteps(cfg, s3, p);
  }

  lemma ExecThree(cfg: Config, s: State, run: seq<Label>)
    requires |run| >= 3
    ensures Exec(cfg, s, run) == Exec(cfg, Apply(cfg, Apply(cfg, Apply(cfg, s, run[0]), run[1]), run[2]), run[3..])
  {
    hide Exec, Apply;
    ExecFirst(cfg, s, run);
    ExecFirst(cfg, Apply(cfg, s, run[0]), run[1..]);
    assert run[1..][1..] == run[2..];
    ExecFirst(cfg, Apply(cfg, Apply(cfg, s, run[0]), run[1]), run[2..]);
    assert run[2..][1..] == run[3..];
  }

  function FinalizeRun(p: nat): seq<Label> {
    [Label.FinalizeBegin(p), Label.FinalizeRead(p), Label.FinalizeRecord(p, true), Label.FinalizeRead(p),
     Label.FinalizePromote(p, true), Label.FinalizeRead(p), Label.FinalizeCommit(p, true)]
  }

  lemma FinalizeRunSteps(cfg: Config, s: State, p: nat)
    ensures Exec(cfg, s, FinalizeRun(p)) == FinalizeSteps(s, p)
  {
    hide DoFinalizeBegin, DoFinalizeRead, DoFinalizeRecord, DoFinalizePromote, DoFinalizeCommit;
    var run := FinalizeRun(p);
    ExecThree(cfg, s, run);
    var s3 := DoFinalizeRecord(DoFinalizeRead(DoFinalizeBegin(s, p), p), p, true);
    ExecThree(cfg, s3, run[3..]);
    var s6 := DoFinalizeRead(DoFinalizePromote(DoFinalizeRead(s3, p), p, true), p);
    assert run[3..][3..] == [Label.FinalizeCommit(p, true)];
    assert Exec(cfg, s6, [Label.FinalizeCommit(p, true)]) == DoFinalizeCommit(s6, p, true) by {
      assert [Label.FinalizeCommit(p, true)][..0] == [];
    }
  }

  /** The intent a completed retry reports. */
  function ReceiptIntent(k: IntentId, r: Types.Upload): Intent {
    IntentOf(k, r).(url := ProviderUrl(PlaceOf(r)))
  }

  lemma PresentableByIdentity(a: Db, b: Db, i: Intent, j: Intent)
    requires a.library == b.library && FileRetiring(a, i.file) == FileRetiring(b, j.file)
    requires i.file == j.file && i.identity == j.identity && i.url == j.url
    ensures Presentable(a, i) == Presentable(b, j)
  {
  }

  lemma RowNotRetiring(cfg: Config, s: State, k: IntentId)
    requires Inv(cfg, s) && k in s.db.uploads && !InRetirement(s.db.uploads[k].state)
    ensures !FileRetiring(s.db, s.db.uploads[k].file)
  {
    hide BlobInv, QuotaInv, ProcInv, RowsOk, ReferencesOk, FencesOk, FrozenOk, PresentationOk;
  }

  lemma StillUnlocked(s: State, n: State, p: nat, owner: string)
    requires !OwnerLocked(s, owner) && p in n.procs && n.procs == s.procs[p := n.procs[p]] && !n.procs[p].Finalizing?
    ensures !OwnerLocked(n, owner)
  {
  }

  /** Saving the verified version leaves a call the finalizer accepts. */
  lemma SavedState(cfg: Config, s: State, p: nat, k: IntentId, was: Intent, n: State, i: Intent)
    requires Inv(cfg, s) && Current(s, p, k, was) && s.procs[p].Uploaded? && s.procs[p].i == was && s.procs[p].etag != ""
    requires Confirmable(s.db.uploads[k]) && (s.db.uploads[k].etag != "" ==> s.procs[p].etag == s.db.uploads[k].etag)
    requires !OwnerLocked(s, s.db.uploads[k].identity.owner) && n == DoSaveVerified(s, p, true)
    requires i == was.(url := ProviderUrl(PlaceOf(s.db.uploads[k])), etag := s.procs[p].etag)
    ensures p in n.procs && n.procs[p] == Verified(i) && FinalizeCheck(n.db, i).Ok? && !OwnerLocked(n, was.identity.owner)
    ensures n.db.library == s.db.library
    ensures k in n.db.uploads && n.db.uploads[k].file == s.db.uploads[k].file && !InRetirement(n.db.uploads[k].state)
  {
    hide Inv, OwnerLocked, DoSaveVerified;
    SavedAgain(cfg, s, p, k, was, s.procs[p].etag, ProviderUrl(PlaceOf(s.db.uploads[k])));
    StillUnlocked(s, n, p, was.identity.owner);
  }

  lemma FailedStays(s: State, p: nat)
    requires p in s.procs && s.procs[p] == Failed
    ensures FinalizeSteps(s, p) == s && DoSaveVerified(s, p, true) == s
    ensures forall etag :: DoUpload(s, p, etag, true, true) == s
  {
  }

  /** What becomes of a call that verified its object. */
  lemma UploadedOutcome(cfg: Config, s: State, p: nat, k: IntentId, i: Intent, n: State)
    requires Inv(cfg, s) && Current(s, p, k, i) && s.procs[p].Uploaded? && s.procs[p].i == i && s.procs[p].etag != ""
    requires (s.db.uploads[k].etag != "" ==> s.procs[p].etag == s.db.uploads[k].etag) && !OwnerLocked(s, i.identity.owner)
    requires n == FinalizeSteps(DoSaveVerified(s, p, true), p)
    ensures p in n.procs && (n.procs[p].StoreDone? || n.procs[p].Failed?)
    ensures n.procs[p].StoreDone? <==> Confirmable(s.db.uploads[k]) && Presentable(s.db, ReceiptIntent(k, s.db.uploads[k]))
  {
    hide Inv, OwnerLocked, DoSaveVerified, FinalizeSteps, FinalizeCheck, FileRetiring, Presentable;
    var r := s.db.uploads[k];
    var saved := DoSaveVerified(s, p, true);
    if Confirmable(r) {
      var verified := i.(url := ProviderUrl(PlaceOf(r)), etag := s.procs[p].etag);
      SavedState(cfg, s, p, k, i, saved, verified);
      assert Inv(cfg, saved) by {
        hide Grows;
        SaveVerifiedKeeps(cfg, s, p, true);
      }
      RowNotRetiring(cfg, s, k);
      RowNotRetiring(cfg, saved, k);
      RowFacts(cfg, s, k);
      FinalizerOutcome(saved, p, verified);
      PresentableByIdentity(saved.db, s.db, verified, ReceiptIntent(k, r));
    } else {
      SavedAgain(cfg, s, p, k, i, s.procs[p].etag, ProviderUrl(PlaceOf(r)));
      FailedStays(saved, p);
    }
  }

  /** What becomes of an admitted call. */
  lemma AdmittedOutcome(cfg: Config, s: State, p: nat, k: IntentId, i: Intent, etag: string, n: State)
    requires Inv(cfg, s) && Current(s, p, k, i) && s.procs[p] == Admitted(i) && !OwnerLocked(s, i.identity.owner) && etag != ""
    requires n == FinalizeSteps(DoSaveVerified(DoUpload(s, p, etag, true, true), p, true), p)
    ensures p in n.procs && (n.procs[p].StoreDone? || n.procs[p].Failed?)
    ensures n.procs[p].StoreDone? <==> Confirmable(s.db.uploads[k]) && Presentable(s.db, ReceiptIntent(k, s.db.uploads[k]))
  {
    hide Inv, OwnerLocked, DoUpload, DoSaveVerified, FinalizeSteps, Presentable;
    var uploaded := DoUpload(s, p, etag, true, true);
    assert Inv(cfg, uploaded) by {
      hide Grows;
      UploadKeeps(cfg, s, p, etag, true, true);
    }
    UploadedAgain(cfg, s, p, k, i, etag, uploaded);
    StillUnlocked(s, uploaded, p, i.identity.owner);
    UploadedOutcome(cfg, uploaded, p, k, i, n);
  }

  /** Whether an undisturbed call can store this identity: a first call must be admitted; a retry finds
      its intent with the same identity, not in retirement, and a Library that presents nothing else. */
  ghost predicate Storable(cfg: Config, db: Db, x: Identity, others: seq<Number>) {
    var k := IntentIdOf(x);
    && ScopeOf(x) !in db.fences
    && if k !in db.uploads then Admits(db, x.owner, x.size, others, cfg.quota)
       else
         && db.uploads[k].identity == x && !InRetirement(db.uploads[k].state)
         && Confirmable(db.uploads[k]) && Presentable(db, ReceiptIntent(k, db.uploads[k]))
  }

  predicate CanCall(s: State, p: nat, x: Identity) {
    ValidIdentity(x) && !OwnerLocked(s, x.owner) && p !in s.procs
  }

  lemma FirstOutcome(cfg: Config, s: State, p: nat, x: Identity, others: seq<Number>, etag: string, k: IntentId, n: State)
    requires Inv(cfg, s) && CanCall(s, p, x) && etag != "" && k == IntentIdOf(x) && k !in s.db.uploads
    requires ScopeOf(x) !in s.db.fences && Admits(s.db, x.owner, x.size, others, cfg.quota)
    requires n == FinalizeSteps(DoSaveVerified(DoUpload(DoReserve(cfg, s, p, x, others, true), p, etag, true, true), p, true), p)
    ensures p in n.procs && n.procs[p].StoreDone?
  {
    hide Inv, OwnerLocked, DoReserve, DoUpload, DoSaveVerified, FinalizeSteps, Admits;
    var admitted := DoReserve(cfg, s, p, x, others, true);
    ReservedFirst(cfg, s, p, x, others, k);
    StillUnlocked(s, admitted, p, x.owner);
    assert Inv(cfg, admitted) by {
      hide Grows;
      ReserveKeeps(cfg, s, p, x, others, true);
    }
    AdmittedOutcome(cfg, admitted, p, k, IntentOf(k, NewUpload(x)), etag, n);
    NewFileUnpresented(cfg, s, k);
    RowNotRetiring(cfg, admitted, k);
    assert Presentable(admitted.db, ReceiptIntent(k, NewUpload(x)));
  }

  lemma NewFileUnpresented(cfg: Config, s: State, k: IntentId)
    requires Inv(cfg, s) && k !in s.db.uploads
    ensures FileRows(s.db.library, DerivedFile(k)) == []
  {
    hide BlobInv, QuotaInv, ProcInv, RowsOk, ReferencesOk, FencesOk, FrozenOk, FilesUnique;
  }

  lemma RetryOutcome(cfg: Config, s: State, p: nat, x: Identity, others: seq<Number>, etag: string, k: IntentId, n: State)
    requires Inv(cfg, s) && CanCall(s, p, x) && etag != "" && k == IntentIdOf(x) && k in s.db.uploads && s.db.uploads[k].identity == x
    requires ScopeOf(x) !in s.db.fences && !InRetirement(s.db.uploads[k].state)
    requires n == FinalizeSteps(DoSaveVerified(DoUpload(DoReserve(cfg, s, p, x, others, true), p, etag, true, true), p, true), p)
    ensures p in n.procs && (n.procs[p].StoreDone? || n.procs[p].Failed?)
    ensures n.procs[p].StoreDone? <==> Confirmable(s.db.uploads[k]) && Presentable(s.db, ReceiptIntent(k, s.db.uploads[k]))
  {
    hide Inv, OwnerLocked, DoReserve, DoUpload, DoSaveVerified, FinalizeSteps, Presentable, FileRetiring;
    var r := s.db.uploads[k];
    var next := r.(generation := r.generation + 1);
    var admitted := DoReserve(cfg, s, p, x, others, true);
    ReservedAgain(cfg, s, p, x, others, k, next);
    StillUnlocked(s, admitted, p, x.owner);
    assert Inv(cfg, admitted) by {
      hide Grows;
      ReserveKeeps(cfg, s, p, x, others, true);
    }
    AdmittedOutcome(cfg, admitted, p, k, IntentOf(k, next), etag, n);
    RowNotRetiring(cfg, s, k);
    RowNotRetiring(cfg, admitted, k);
    PresentableByIdentity(admitted.db, s.db, ReceiptIntent(k, next), ReceiptIntent(k, r));
  }

  /** Everything else is refused by the reservation, and changes nothing. */
  lemma RefusedOutcome(cfg: Config, s: State, p: nat, x: Identity, others: seq<Number>, etag: string, k: IntentId, n: State)
    requires Inv(cfg, s) && CanCall(s, p, x) && k == IntentIdOf(x)
    requires
      || ScopeOf(x) in s.db.fences
      || (k !in s.db.uploads && !Admits(s.db, x.owner, x.size, others, cfg.quota))
      || (k in s.db.uploads && (s.db.uploads[k].identity != x || InRetirement(s.db.uploads[k].state)))
    requires n == FinalizeSteps(DoSaveVerified(DoUpload(DoReserve(cfg, s, p, x, others, true), p, etag, true, true), p, true), p)
    ensures n == SetProc(s, p, Failed)
  {
    assert DoReserve(cfg, s, p, x, others, true) == SetProc(s, p, Failed) by {
      hide OwnerLocked, Admits, FencedByTrigger;
      Cleanup.FencesFacts(cfg, s);
      hide Inv;
      if ScopeOf(x) in s.db.fences {
        Cleanup.FenceTriggers(s.db, x);
      }
    }
    hide Inv, OwnerLocked, Admits, DoReserve, DoUpload, DoSaveVerified, FinalizeSteps;
    FailedStays(SetProc(s, p, Failed), p);
  }

  /** An undisturbed call succeeds, from every reachable state and for every identity, exactly when that
      identity is storable there; a refused reservation changes nothing. */
  lemma StoreOutcome(cfg: Config, run: seq<Label>, p: nat, x: Identity, others: seq<Number>, etag: string, s: State, n: State)
    requires s == Exec(cfg, Start, run) && n == Exec(cfg, Start, run + StoreRun(p, x, others, etag))
    requires CanCall(s, p, x) && etag != ""
    ensures p in n.procs && (n.procs[p].StoreDone? || n.procs[p].Failed?)
    ensures n.procs[p].StoreDone? <==> Storable(cfg, s.db, x, others)
  {
    hide Inv, Exec, Presentable, Admits, StoreRun, CanCall, DoReserve, DoUpload, DoSaveVerified, FinalizeSteps;
    var k := IntentIdOf(x);
    ReachableInv(cfg, run);
    ExecConcat(cfg, Start, run, StoreRun(p, x, others, etag));
    StoreSteps(cfg, s, p, x, others, etag);
    if ScopeOf(x) !in s.db.fences && k !in s.db.uploads && Admits(s.db, x.owner, x.size, others, cfg.quota) {
      FirstOutcome(cfg, s, p, x, others, etag, k, n);
    } else if ScopeOf(x) !in s.db.fences && k in s.db.uploads && s.db.uploads[k].identity == x && !InRetirement(s.db.uploads[k].state) {
      RetryOutcome(cfg, s, p, x, others, etag, k, n);
    } else {
      RefusedOutcome(cfg, s, p, x, others, etag, k, n);
    }
  }

  /** Every row that a reservation created is confirmable. */
  lemma ReservedRowsConfirmable(cfg: Config, run: seq<Label>, k: IntentId)
    requires k in Exec(cfg, Start, run).db.uploads && Exec(cfg, Start, run).db.uploads[k].file.DerivedFile?
    ensures Confirmable(Exec(cfg, Start, run).db.uploads[k])
  {
    hide Inv, Exec;
    ReachableInv(cfg, run);
    RowFacts(cfg, Exec(cfg, Start, run), k);
  }
}
