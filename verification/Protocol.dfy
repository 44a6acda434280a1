/** Every process, the journal, the provider and the Library as one state machine.
    A label names the step a scheduler picks next; a step that is not enabled changes nothing.
    A process may crash at any time, and a committed step may lose its reply. */
module Protocol {
  import opened Types
  import opened Sizes
  import opened Library
  import opened Provider
  import opened Journal

  /** What a finalizer last read of the Library head. */
  datatype Seen = Unread | Read(head: Option<FileRow>)

  datatype RetiredReceipt = RetiredReceipt(id: IntentId, file: FileId, etag: string)

  /** The local state of one call. */
  datatype Process =
    | Admitted(i: Intent)
    | Uploaded(i: Intent, etag: string)
    | Verified(i: Intent)
    | Finalizing(i: Intent, recorded: bool, promoted: bool, seen: Seen)
    | StoreDone(i: Intent)
    | RetireBegun(i: Intent, token: string)
    | RetireFenced(i: Intent, token: string, etag: string)
    | RetireDone(retired: RetiredReceipt)
    | AdoptUnknown(scope: Scope, file: FileId)
    | AdoptFound(scope: Scope, i: Intent)
    | AdoptChecked(scope: Scope, i: Intent)
    | AdoptDone(receipt: Receipt)
    | Failed

  datatype State = State(db: Db, blobs: Blobs, procs: map<nat, Process>)

  /** quota: the owner's Library quota; less: the order of intent ids. */
  datatype Config = Config(quota: nat, less: (IntentId, IntentId) -> bool)

  datatype LibraryEdit =
    | WriteFile(file: FileId, fileRow: FileRow)
    | WriteEntry(file: FileId, entryRow: EntryRow)
    | RecordVersionOne(file: FileId)

  datatype Label =
    | Reserve(p: nat, identity: Identity, others: seq<Number>, reply: bool)
    | Upload(p: nat, etag: string, delivered: bool, reply: bool)
    | SaveVerified(p: nat, reply: bool)
    | FinalizeBegin(p: nat)
    | FinalizeRead(p: nat)
    | FinalizeRecord(p: nat, reply: bool)
    | FinalizePromote(p: nat, reply: bool)
    | FinalizeCommit(p: nat, reply: bool)
    | ChangeReference(scope: Scope, reference: string, ids: seq<IntentId>, release: bool)
    | BeginRetirement(p: nat, scope: Scope, id: IntentId, token: string, reply: bool)
    | RetireObject(p: nat, etag: string, reply: bool)
    | ConfirmRetirement(p: nat, reply: bool)
    | Fence(scope: Scope)
    | Purge(scope: Scope, id: IntentId)
    | AdoptKnown(p: nat, scope: Scope, file: FileId)
    | AdoptLook(p: nat, scope: Scope, file: FileId)
    | AdoptRead(p: nat, container: string)
    | AdoptVerify(p: nat)
    | AdoptCommit(p: nat, reply: bool)
    | EditLibrary(edit: LibraryEdit)
    | ForeignBlob(place: Place, size: int, sha: string, etag: string)
    | Crash(p: nat)

  const Start: State := State(EmptyDb, map[], map[])

  /** A finalizer holds the owner's lock, and its row's lock, between its check and its commit. */
  predicate OwnerLocked(s: State, owner: string) {
    exists q :: q in s.procs && s.procs[q].Finalizing? && s.procs[q].i.identity.owner == owner
  }

  predicate RowLocked(s: State, k: IntentId) {
    exists q :: q in s.procs && s.procs[q].Finalizing? && s.procs[q].i.id == k
  }

  function SetProc(s: State, p: nat, proc: Process): State {
    s.(procs := s.procs[p := proc])
  }

  function MarkerOf(i: Intent, token: string): Marker {
    Marker(token, i.identity.size, i.identity.sha, i.etag)
  }

  ghost function DoReserve(cfg: Config, s: State, p: nat, x: Identity, others: seq<Number>, reply: bool): State {
    if p in s.procs || !ValidIdentity(x) || OwnerLocked(s, x.owner) then s
    else
      match Journal.Reserve(s.db, x, others, cfg.quota)
      case Rollback(_) => SetProc(s, p, Failed)
      case Commit(db, i) => SetProc(s.(db := db), p, if reply then Admitted(i) else Failed)
  }

  /** CreateVerifiedStream and the receipt check after it. When the stream is not `delivered`,
      only an object that is already stored can be adopted. */
  function DoUpload(s: State, p: nat, etag: string, delivered: bool, reply: bool): State {
    if p !in s.procs || !s.procs[p].Admitted? || etag == "" then s
    else
      var i := s.procs[p].i;
      var place := PlaceOfIntent(i);
      var before := At(s.blobs, place);
      var after := if delivered then Create(before, i.identity.size, i.identity.sha, etag) else before;
      var blobs := if after == before then s.blobs else s.blobs[place := after];
      var verified := Verify(after, i.identity.size, i.identity.sha);
      SetProc(s.(blobs := blobs), p,
              if reply && verified.Some? && verified.value != "" then Uploaded(i, verified.value) else Failed)
  }

  function DoSaveVerified(s: State, p: nat, reply: bool): State {
    if p !in s.procs || !s.procs[p].Uploaded? || RowLocked(s, s.procs[p].i.id) then s
    else
      var i, etag := s.procs[p].i, s.procs[p].etag;
      var url := ProviderUrl(PlaceOfIntent(i));
      match Journal.SaveVerified(s.db, i, url, etag)
      case Rollback(_) => SetProc(s, p, Failed)
      case Commit(db, _) => SetProc(s.(db := db), p, if reply then Verified(i.(url := url, etag := etag)) else Failed)
  }

  function DoFinalizeBegin(s: State, p: nat): State {
    if p !in s.procs || !s.procs[p].Verified? || OwnerLocked(s, s.procs[p].i.identity.owner) then s
    else
      match FinalizeCheck(s.db, s.procs[p].i)
      case Err(_) => SetProc(s, p, Failed)
      case Ok(_) => SetProc(s, p, Finalizing(s.procs[p].i, false, false, Unread))
  }

  function DoFinalizeRead(s: State, p: nat): State {
    if p !in s.procs || !s.procs[p].Finalizing? then s
    else
      var f := s.procs[p];
      SetProc(s, p, f.(seen := Read(FileHead(s.db.library, f.i.file))))
  }

  /** An engine write: it commits on its own, so it survives a rollback of the finalizer. */
  function WriteFileRow(db: Db, f: FileId, row: FileRow): Option<Db> {
    if FileRetiring(db, f) then None else Some(db.(library := AppendFile(db.library, f, row)))
  }

  function DoFinalizeRecord(s: State, p: nat, reply: bool): State {
    if p !in s.procs || !s.procs[p].Finalizing? then s
    else
      var f := s.procs[p];
      if f.recorded || f.promoted || f.seen != Read(None) || !ValidIdentity(f.i.identity) then s
      else
        match WriteFileRow(s.db, f.i.file, RecordedRow(f.i))
        case None => SetProc(s, p, Failed)
        case Some(db) => SetProc(s.(db := db), p, if reply then f.(recorded := true, seen := Unread) else Failed)
  }

  predicate SeenMatching(f: Process)
    requires f.Finalizing?
  {
    f.seen.Read? && f.seen.head.Some? && Matches(f.seen.head.value, f.i.identity, f.i.url)
  }

  /** SetFileStatus merges the new status into the current head. */
  function DoFinalizePromote(s: State, p: nat, reply: bool): State {
    if p !in s.procs || !s.procs[p].Finalizing? then s
    else
      var f := s.procs[p];
      var head := FileHead(s.db.library, f.i.file);
      if f.promoted || !SeenMatching(f) || f.seen.head.value.status != "stored" || head.None? then s
      else
        match WriteFileRow(s.db, f.i.file, head.value.(status := "ready"))
        case None => SetProc(s, p, Failed)
        case Some(db) => SetProc(s.(db := db), p, if reply then f.(promoted := true, seen := Unread) else Failed)
  }

  function DoFinalizeCommit(s: State, p: nat, reply: bool): State {
    if p !in s.procs || !s.procs[p].Finalizing? then s
    else
      var f := s.procs[p];
      if f.seen.Unread? then s
      else if !SeenMatching(f) || f.seen.head.value.status != "ready" then SetProc(s, p, Failed)
      else SetProc(s.(db := Journal.FinalizeCommit(s.db, f.i)), p, if reply then StoreDone(f.i) else Failed)
  }

  ghost function DoChangeReference(cfg: Config, s: State, scope: Scope, reference: string, ids: seq<IntentId>, release: bool): State {
    if OwnerLocked(s, scope.owner) then s
    else
      match Journal.ChangeReference(s.db, cfg.less, scope, reference, ids, release)
      case Rollback(_) => s
      case Commit(db, _) => s.(db := db)
  }

  function DoBeginRetirement(s: State, p: nat, scope: Scope, k: IntentId, token: string, reply: bool): State {
    if p in s.procs || token == "" || OwnerLocked(s, scope.owner) then s
    else
      match Journal.BeginRetirement(s.db, scope, k, token)
      case Rollback(_) => SetProc(s, p, Failed)
      case Commit(db, b) =>
        SetProc(s.(db := db), p,
                if !reply then Failed
                else if b.intent.state == Retired then RetireDone(RetiredReceipt(k, b.intent.file, b.retiredEtag))
                else RetireBegun(b.intent, b.token))
  }

  function DoRetireObject(s: State, p: nat, etag: string, reply: bool): State {
    if p !in s.procs || !s.procs[p].RetireBegun? || etag == "" then s
    else
      var i, token := s.procs[p].i, s.procs[p].token;
      var place := PlaceOfIntent(i);
      match Retire(At(s.blobs, place), MarkerOf(i, token), etag)
      case None => SetProc(s, p, Failed)
      case Some(o) => SetProc(s.(blobs := s.blobs[place := o]), p, if reply then RetireFenced(i, token, etag) else Failed)
  }

  function DoConfirmRetirement(s: State, p: nat, reply: bool): State {
    if p !in s.procs || !s.procs[p].RetireFenced? || OwnerLocked(s, s.procs[p].i.identity.owner) then s
    else
      var f := s.procs[p];
      match Journal.ConfirmRetirement(s.db, f.i, f.token, f.etag)
      case Rollback(_) => SetProc(s, p, Failed)
      case Commit(db, _) => SetProc(s.(db := db), p, if reply then RetireDone(RetiredReceipt(f.i.id, f.i.file, f.etag)) else Failed)
  }

  function DoFence(s: State, scope: Scope): State {
    if OwnerLocked(s, scope.owner) then s
    else
      match Journal.Fence(s.db, scope)
      case Rollback(_) => s
      case Commit(db, _) => s.(db := db)
  }

  function DoPurge(s: State, scope: Scope, k: IntentId): State {
    if OwnerLocked(s, scope.owner) then s
    else
      match Journal.Purge(s.db, scope, k)
      case Rollback(_) => s
      case Commit(db, _) => s.(db := db)
  }

  /** AdoptLegacyRunLog when the journal already has a row for the file. A row keeps its file for good,
      so the lookup and the transaction that returns the row are one step. */
  ghost function DoAdoptKnown(s: State, p: nat, scope: Scope, f: FileId): State {
    if p in s.procs || !FileTaken(s.db, f) || OwnerLocked(s, scope.owner) then s
    else
      match AdoptExisting(s.db, scope, HolderOf(s.db, f))
      case Rollback(_) => SetProc(s, p, Failed)
      case Commit(_, receipt) => SetProc(s, p, AdoptDone(receipt))
  }

  /** Its three reads before the transaction when there is none: the journal, the Library head, and
      the object. */
  function DoAdoptLook(s: State, p: nat, scope: Scope, f: FileId): State {
    if p in s.procs || FileTaken(s.db, f) then s else SetProc(s, p, AdoptUnknown(scope, f))
  }

  function DoAdoptRead(s: State, p: nat, container: string): State {
    if p !in s.procs || !s.procs[p].AdoptUnknown? then s
    else
      var call := s.procs[p];
      match LegacyRead(s.db.library, call.scope, call.file, container)
      case Err(_) => SetProc(s, p, Failed)
      case Ok(i) => SetProc(s, p, AdoptFound(call.scope, i))
  }

  function DoAdoptVerify(s: State, p: nat): State {
    if p !in s.procs || !s.procs[p].AdoptFound? then s
    else
      var call := s.procs[p];
      match LegacyVerified(call.i, Verify(At(s.blobs, PlaceOfIntent(call.i)), call.i.identity.size, call.i.identity.sha))
      case Err(_) => SetProc(s, p, Failed)
      case Ok(i) => SetProc(s, p, AdoptChecked(call.scope, i))
  }

  ghost function DoAdoptCommit(s: State, p: nat, reply: bool): State {
    if p !in s.procs || !s.procs[p].AdoptChecked? || OwnerLocked(s, s.procs[p].scope.owner) then s
    else
      match Journal.AdoptCommit(s.db, s.procs[p].scope, s.procs[p].i)
      case Rollback(_) => SetProc(s, p, Failed)
      case Commit(db, receipt) => SetProc(s.(db := db), p, if reply then AdoptDone(receipt) else Failed)
  }

  /** Any other Library writer. It never invents a file under an id derived from an intent, an
      entry's id derives from the file it names, and the retirement trigger applies to it. */
  function DoEditLibrary(s: State, edit: LibraryEdit): State {
    if FileRetiring(s.db, edit.file) then s
    else
      match edit
      case WriteFile(f, row) =>
        if f.DerivedFile? && FileRows(s.db.library, f) == [] then s
        else s.(db := s.db.(library := AppendFile(s.db.library, f, row)))
      case WriteEntry(f, row) =>
        if row.target != f then s else s.(db := s.db.(library := AppendEntry(s.db.library, f, row)))
      case RecordVersionOne(f) =>
        s.(db := s.db.(library := s.db.library.(versioned := s.db.library.versioned + {f})))
  }

  /** Any other writer of objects. It never overwrites, and never writes under a derived file id. */
  function DoForeignBlob(s: State, place: Place, size: int, sha: string, etag: string): State {
    if place.obj.file.DerivedFile? || At(s.blobs, place) != Absent || etag == "" then s
    else s.(blobs := s.blobs[place := Blob(size, sha, etag)])
  }

  function DoCrash(s: State, p: nat): State {
    if p !in s.procs || s.procs[p].StoreDone? || s.procs[p].RetireDone? || s.procs[p].AdoptDone? || s.procs[p].Failed? then s
    else SetProc(s, p, Failed)
  }

  ghost function Apply(cfg: Config, s: State, l: Label): State {
    match l
    case Reserve(p, x, others, reply) => DoReserve(cfg, s, p, x, others, reply)
    case Upload(p, etag, delivered, reply) => DoUpload(s, p, etag, delivered, reply)
    case SaveVerified(p, reply) => DoSaveVerified(s, p, reply)
    case FinalizeBegin(p) => DoFinalizeBegin(s, p)
    case FinalizeRead(p) => DoFinalizeRead(s, p)
    case FinalizeRecord(p, reply) => DoFinalizeRecord(s, p, reply)
    case FinalizePromote(p, reply) => DoFinalizePromote(s, p, reply)
    case FinalizeCommit(p, reply) => DoFinalizeCommit(s, p, reply)
    case ChangeReference(scope, reference, ids, release) => DoChangeReference(cfg, s, scope, reference, ids, release)
    case BeginRetirement(p, scope, k, token, reply) => DoBeginRetirement(s, p, scope, k, token, reply)
    case RetireObject(p, etag, reply) => DoRetireObject(s, p, etag, reply)
    case ConfirmRetirement(p, reply) => DoConfirmRetirement(s, p, reply)
    case Fence(scope) => DoFence(s, scope)
    case Purge(scope, k) => DoPurge(s, scope, k)
    case AdoptKnown(p, scope, f) => DoAdoptKnown(s, p, scope, f)
    case AdoptLook(p, scope, f) => DoAdoptLook(s, p, scope, f)
    case AdoptRead(p, container) => DoAdoptRead(s, p, container)
    case AdoptVerify(p) => DoAdoptVerify(s, p)
    case AdoptCommit(p, reply) => DoAdoptCommit(s, p, reply)
    case EditLibrary(edit) => DoEditLibrary(s, edit)
    case ForeignBlob(place, size, sha, etag) => DoForeignBlob(s, place, size, sha, etag)
    case Crash(p) => DoCrash(s, p)
  }

  /** The state after a whole schedule. */
  ghost function Exec(cfg: Config, s: State, run: seq<Label>): State {
    if run == [] then s else Apply(cfg, Exec(cfg, s, run[..|run| - 1]), run[|run| - 1])
  }

  lemma {:induction false} ExecConcat(cfg: Config, s: State, a: seq<Label>, b: seq<Label>)
    ensures Exec(cfg, s, a + b) == Exec(cfg, Exec(cfg, s, a), b)
  {
    hide Apply;
    if b == [] {
      assert a + b == a;
    } else {
      var n := |b| - 1;
      ExecConcat(cfg, s, a, b[..n]);
      assert (a + b)[..|a + b| - 1] == a + b[..n];
    }
  }

  lemma ExecOne(cfg: Config, s: State, run: seq<Label>, l: Label)
    ensures Exec(cfg, s, run + [l]) == Apply(cfg, Exec(cfg, s, run), l)
  {
    hide Apply;
    assert (run + [l])[..|run + [l]| - 1] == run;
  }
}
