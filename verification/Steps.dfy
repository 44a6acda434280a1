/** What each kind of step can change at all. */
module Steps {
  import opened Types
  import opened Sizes
  import opened Library
  import opened Journal
  import opened Protocol

  /** The call whose step a label is. */
  function Mover(l: Label): Option<nat> {
    match l
    case Reserve(p, _, _, _) => Some(p)
    case Upload(p, _, _, _) => Some(p)
    case SaveVerified(p, _) => Some(p)
    case FinalizeBegin(p) => Some(p)
    case FinalizeRead(p) => Some(p)
    case FinalizeRecord(p, _) => Some(p)
    case FinalizePromote(p, _) => Some(p)
    case FinalizeCommit(p, _) => Some(p)
    case ChangeReference(_, _, _, _) => None
    case BeginRetirement(p, _, _, _, _) => Some(p)
    case RetireObject(p, _, _) => Some(p)
    case ConfirmRetirement(p, _) => Some(p)
    case Fence(_) => None
    case Purge(_, _) => None
    case AdoptKnown(p, _, _) => Some(p)
    case AdoptLook(p, _, _) => Some(p)
    case AdoptRead(p, _) => Some(p)
    case AdoptVerify(p) => Some(p)
    case AdoptCommit(p, _) => Some(p)
    case EditLibrary(_) => None
    case ForeignBlob(_, _, _, _) => None
    case Crash(p) => Some(p)
  }

  /** How a step may change an existing journal row. */
  predicate Touches(l: Label, r: Types.Upload, n: Types.Upload) {
    match l
    case Reserve(_, _, _, _) => n == r.(generation := r.generation + 1)
    case SaveVerified(_, _) => n.state == (if r.state == Ready then Ready else BlobVerified)
    case FinalizeCommit(_, _) => n == r.(state := Ready)
    case BeginRetirement(_, _, _, _, _) => n.state == Retiring
    case ConfirmRetirement(_, _) => n.state == Retired
    case Purge(_, _) => r.state == Retired && n == r.(purged := true)
    case _ => false
  }

  predicate WritesLibrary(l: Label) {
    l.FinalizeRecord? || l.FinalizePromote? || l.EditLibrary? || l.Purge?
  }

  /** Rows are added only by a reservation or an adoption; references change only by their own
      transaction, and so do fences. */
  ghost predicate RowEffect(l: Label, db: Db, next: Db) {
    && (forall k :: k in db.uploads ==> k in next.uploads && (next.uploads[k] == db.uploads[k] || Touches(l, db.uploads[k], next.uploads[k])))
    && (forall k :: k in next.uploads && k !in db.uploads ==> l.Reserve? || l.AdoptCommit?)
    && (WritesLibrary(l) || next.library == db.library)
    && (l.ChangeReference? || next.references == db.references)
    && (l.Fence? || next.fences == db.fences)
  }

  /** A step moves at most the call whose step it is. */
  ghost predicate ProcEffect(l: Label, procs: map<nat, Process>, next: map<nat, Process>) {
    next == procs || (Mover(l).Some? && Mover(l).value in next && next == procs[Mover(l).value := next[Mover(l).value]])
  }

  ghost predicate Effect(l: Label, s: State, n: State) {
    RowEffect(l, s.db, n.db) && ProcEffect(l, s.procs, n.procs)
  }

  lemma RowReplaced(l: Label, db: Db, k: IntentId, r: Types.Upload)
    requires if k in db.uploads then Touches(l, db.uploads[k], r) else l.Reserve? || l.AdoptCommit?
    ensures RowEffect(l, db, SetUpload(db, k, r)) && RowEffect(l, db, db)
  {
  }

  lemma RowsSame(l: Label, db: Db)
    ensures RowEffect(l, db, db)
  {
  }

  /** A call that moves, over tables that may have changed. */
  lemma Moved(l: Label, s: State, db: Db, p: nat, proc: Process)
    requires Mover(l) == Some(p) && RowEffect(l, s.db, db)
    ensures Effect(l, s, SetProc(s.(db := db), p, proc))
  {
    hide RowEffect;
  }

  lemma NotMoved(l: Label, s: State, p: nat)
    requires Mover(l) == Some(p)
    ensures Effect(l, s, s) && forall proc :: Effect(l, s, SetProc(s, p, proc))
  {
    RowsSame(l, s.db);
    forall proc ensures Effect(l, s, SetProc(s, p, proc)) {
      Moved(l, s, s.db, p, proc);
    }
  }

  lemma Inserted(db: Db, k: IntentId, r: Types.Upload)
    ensures InsertUpload(db, k, r).Commit? ==> InsertUpload(db, k, r).db == SetUpload(db, k, r)
  {
  }

  lemma ReserveEffect(cfg: Config, s: State, p: nat, x: Identity, others: seq<Number>, reply: bool, l: Label)
    requires l == Label.Reserve(p, x, others, reply)
    ensures Effect(l, s, DoReserve(cfg, s, p, x, others, reply))
  {
    var k := IntentIdOf(x);
    var row := if k in s.db.uploads then s.db.uploads[k].(generation := s.db.uploads[k].generation + 1) else NewUpload(x);
    RowReplaced(l, s.db, k, row);
    assert Mover(l) == Some(p);
    Inserted(s.db, k, row);
    hide Effect, RowEffect, Touches, Mover, Admits, OwnerLocked, FencedByTrigger, FileTaken, InsertUpload;
    NotMoved(l, s, p);
    Moved(l, s, SetUpload(s.db, k, row), p, if reply then Admitted(IntentOf(k, row)) else Failed);
  }

  lemma SaveVerifiedEffect(s: State, p: nat, reply: bool)
    ensures Effect(Label.SaveVerified(p, reply), s, DoSaveVerified(s, p, reply))
  {
    hide RowLocked;
  }

  lemma FinalizeReadEffect(s: State, p: nat)
    ensures Effect(Label.FinalizeBegin(p), s, DoFinalizeBegin(s, p))
    ensures Effect(Label.FinalizeRead(p), s, DoFinalizeRead(s, p))
  {
    RowsSame(Label.FinalizeBegin(p), s.db);
    RowsSame(Label.FinalizeRead(p), s.db);
    hide RowEffect, OwnerLocked, FinalizeCheck, FileHead;
  }

  lemma FinalizeCommitEffect(s: State, p: nat, reply: bool, l: Label)
    requires l == Label.FinalizeCommit(p, reply)
    ensures Effect(l, s, DoFinalizeCommit(s, p, reply))
  {
    NotMoved(l, s, p);
    if p in s.procs && s.procs[p].Finalizing? {
      var i := s.procs[p].i;
      if i.id in s.db.uploads {
        RowReplaced(l, s.db, i.id, s.db.uploads[i.id].(state := Ready));
      } else {
        RowsSame(l, s.db);
      }
      hide Matches;
      Moved(l, s, Journal.FinalizeCommit(s.db, i), p, if reply then StoreDone(i) else Failed);
    }
    hide Effect, Matches;
  }

  lemma FinalizeWriteEffect(s: State, p: nat, reply: bool)
    ensures Effect(Label.FinalizeRecord(p, reply), s, DoFinalizeRecord(s, p, reply))
    ensures Effect(Label.FinalizePromote(p, reply), s, DoFinalizePromote(s, p, reply))
  {
    hide FileRetiring, Matches, RecordedRow, AppendFile, FileRows, FileHead;
  }

  lemma EditEffect(s: State, edit: LibraryEdit)
    ensures Effect(Label.EditLibrary(edit), s, DoEditLibrary(s, edit))
  {
    hide FileRetiring, AppendFile, AppendEntry, FileRows;
  }

  lemma ReferenceEffect(cfg: Config, s: State, scope: Scope, reference: string, ids: seq<IntentId>, release: bool)
    ensures Effect(Label.ChangeReference(scope, reference, ids, release), s, DoChangeReference(cfg, s, scope, reference, ids, release))
  {
    hide OwnerLocked, PinRefusal, ReadReceipts, ValidIds;
  }

  lemma FenceEffect(s: State, scope: Scope)
    ensures Effect(Label.Fence(scope), s, DoFence(s, scope))
  {
    hide OwnerLocked;
  }

  lemma UploadEffect(s: State, p: nat, etag: string, delivered: bool, reply: bool)
    ensures Effect(Label.Upload(p, etag, delivered, reply), s, DoUpload(s, p, etag, delivered, reply))
  {
  }

  lemma BegunTables(db: Db, scope: Scope, k: IntentId, token: string, l: Label)
    requires l.BeginRetirement? && Journal.BeginRetirement(db, scope, k, token).Commit?
    ensures RowEffect(l, db, Journal.BeginRetirement(db, scope, k, token).db)
  {
    hide CheckRetirement, PinnedFor, InScope;
  }

  lemma BeginEffect(s: State, p: nat, scope: Scope, k: IntentId, token: string, reply: bool, l: Label)
    requires l == Label.BeginRetirement(p, scope, k, token, reply)
    ensures Effect(l, s, DoBeginRetirement(s, p, scope, k, token, reply))
  {
    var n := DoBeginRetirement(s, p, scope, k, token, reply);
    hide Effect, RowEffect, OwnerLocked, Journal.BeginRetirement;
    NotMoved(l, s, p);
    if p in n.procs && Journal.BeginRetirement(s.db, scope, k, token).Commit? {
      BegunTables(s.db, scope, k, token, l);
      Moved(l, s, Journal.BeginRetirement(s.db, scope, k, token).db, p, n.procs[p]);
    }
  }

  lemma RetireObjectEffect(s: State, p: nat, etag: string, reply: bool)
    ensures Effect(Label.RetireObject(p, etag, reply), s, DoRetireObject(s, p, etag, reply))
  {
    RowsSame(Label.RetireObject(p, etag, reply), s.db);
    hide RowEffect;
  }

  lemma ConfirmEffect(s: State, p: nat, reply: bool, l: Label)
    requires l == Label.ConfirmRetirement(p, reply)
    ensures Effect(l, s, DoConfirmRetirement(s, p, reply))
  {
    NotMoved(l, s, p);
    if p in s.procs && s.procs[p].RetireFenced? && s.procs[p].i.id in s.db.uploads {
      var f := s.procs[p];
      var row := s.db.uploads[f.i.id].(state := Retired, retiredEtag := f.etag);
      RowReplaced(l, s.db, f.i.id, row);
      Moved(l, s, SetUpload(s.db, f.i.id, row), p, if reply then RetireDone(RetiredReceipt(f.i.id, f.i.file, f.etag)) else Failed);
    }
    hide Effect, OwnerLocked;
  }

  lemma PurgeEffect(s: State, scope: Scope, k: IntentId)
    ensures Effect(Label.Purge(scope, k), s, DoPurge(s, scope, k))
  {
    hide OwnerLocked, CheckRetirement, DeletePresentation;
  }

  lemma AdoptLookEffect(s: State, p: nat, scope: Scope, f: FileId)
    ensures Effect(Label.AdoptKnown(p, scope, f), s, DoAdoptKnown(s, p, scope, f))
    ensures Effect(Label.AdoptLook(p, scope, f), s, DoAdoptLook(s, p, scope, f))
  {
    hide OwnerLocked;
  }

  lemma AdoptReadEffect(s: State, p: nat, container: string)
    ensures Effect(Label.AdoptRead(p, container), s, DoAdoptRead(s, p, container))
    ensures Effect(Label.AdoptVerify(p), s, DoAdoptVerify(s, p))
  {
    hide LegacyRead, LegacyVerified;
  }

  lemma AdoptCommitEffect(s: State, p: nat, reply: bool)
    ensures Effect(Label.AdoptCommit(p, reply), s, DoAdoptCommit(s, p, reply))
  {
    hide OwnerLocked, CheckRetirement, FencedByTrigger;
  }

  lemma ForeignBlobEffect(s: State, place: Place, size: int, sha: string, etag: string)
    ensures Effect(Label.ForeignBlob(place, size, sha, etag), s, DoForeignBlob(s, place, size, sha, etag))
  {
  }

  lemma CrashEffect(s: State, p: nat)
    ensures Effect(Label.Crash(p), s, DoCrash(s, p))
  {
  }

  lemma StepEffect(cfg: Config, s: State, l: Label)
    ensures Effect(l, s, Apply(cfg, s, l))
  {
    hide Effect, DoReserve, DoUpload, DoSaveVerified, DoFinalizeBegin, DoFinalizeRead, DoFinalizeRecord, DoFinalizePromote, DoFinalizeCommit,
      DoChangeReference, DoBeginRetirement, DoRetireObject, DoConfirmRetirement, DoFence, DoPurge, DoAdoptKnown, DoAdoptLook, DoAdoptRead,
      DoAdoptVerify, DoAdoptCommit, DoEditLibrary, DoForeignBlob, DoCrash;
    match l
    case Reserve(p, x, others, reply) => ReserveEffect(cfg, s, p, x, others, reply, l);
    case Upload(p, etag, delivered, reply) => UploadEffect(s, p, etag, delivered, reply);
    case SaveVerified(p, reply) => SaveVerifiedEffect(s, p, reply);
    case FinalizeBegin(p) => FinalizeReadEffect(s, p);
    case FinalizeRead(p) => FinalizeReadEffect(s, p);
    case FinalizeRecord(p, reply) => FinalizeWriteEffect(s, p, reply);
    case FinalizePromote(p, reply) => FinalizeWriteEffect(s, p, reply);
    case FinalizeCommit(p, reply) => FinalizeCommitEffect(s, p, reply, l);
    case ChangeReference(scope, reference, ids, release) => ReferenceEffect(cfg, s, scope, reference, ids, release);
    case BeginRetirement(p, scope, k, token, reply) => BeginEffect(s, p, scope, k, token, reply, l);
    case RetireObject(p, etag, reply) => RetireObjectEffect(s, p, etag, reply);
    case ConfirmRetirement(p, reply) => ConfirmEffect(s, p, reply, l);
    case Fence(scope) => FenceEffect(s, scope);
    case Purge(scope, k) => PurgeEffect(s, scope, k);
    case AdoptKnown(p, scope, f) => AdoptLookEffect(s, p, scope, f);
    case AdoptLook(p, scope, f) => AdoptLookEffect(s, p, scope, f);
    case AdoptRead(p, container) => AdoptReadEffect(s, p, container);
    case AdoptVerify(p) => AdoptReadEffect(s, p, "");
    case AdoptCommit(p, reply) => AdoptCommitEffect(s, p, reply);
    case EditLibrary(edit) => EditEffect(s, edit);
    case ForeignBlob(place, size, sha, etag) => ForeignBlobEffect(s, place, size, sha, etag);
    case Crash(p) => CrashEffect(s, p);
  }
}
