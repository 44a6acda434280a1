/** Conservation of the measured footprint: charged once from the reservation on, freed only when
    the retirement is confirmed. */
module Capacity {
  import opened Types
  import opened Sizes
  import opened Library
  import opened Provider
  import opened Journal
  import opened Protocol
  import opened Evolution
  import opened Invariant
  import opened Preservation
  import opened Writers
  import opened Steps
  import Sums

  /****** The ledger ******/

  ghost function PerRow(db: Db, owner: string, value: Types.Upload -> int): map<IntentId, int> {
    map k | k in db.uploads && db.uploads[k].owner == owner :: value(db.uploads[k])
  }

  function ReservedSize(r: Types.Upload): int {
    if r.file.DerivedFile? then r.size else 0
  }

  function RetiredSize(r: Types.Upload): int {
    if r.state == Retired then r.size else 0
  }

  /** All an owner ever reserved; an adopted row was not reserved. */
  ghost function ReservedBytes(db: Db, owner: string): int {
    Sums.Sum(PerRow(db, owner, ReservedSize))
  }

  /** All an owner got back, by confirmed retirements. */
  ghost function RetiredBytes(db: Db, owner: string): int {
    Sums.Sum(PerRow(db, owner, RetiredSize))
  }

  /** The footprint not explained by reservations and retirements. */
  ghost function Balance(db: Db, owner: string): int {
    Footprint(db, owner) - ReservedBytes(db, owner) + RetiredBytes(db, owner)
  }

  lemma PerRowSum(db: Db, k: IntentId, r: Types.Upload, owner: string, value: Types.Upload -> int)
    requires k in db.uploads ==> db.uploads[k].owner == r.owner
    ensures Sums.Sum(PerRow(SetUpload(db, k, r), owner, value)) == Sums.Sum(PerRow(db, owner, value)) +
      if owner != r.owner then 0 else value(r) - if k in db.uploads then value(db.uploads[k]) else 0
  {
    var before, after := PerRow(db, owner, value), PerRow(SetUpload(db, k, r), owner, value);
    if owner == r.owner {
      assert after == before[k := value(r)];
      Sums.SumUpdate(before, k, value(r));
    } else {
      assert after == before;
    }
  }

  lemma ChargesPerRow(db: Db, owner: string)
    ensures JournalCharges(db, owner) == PerRow(db, owner, JournalCharge)
  {
  }

  /** The journal's part of the balance. */
  ghost function JournalBalance(db: Db, owner: string): int {
    Sums.Sum(JournalCharges(db, owner)) - ReservedBytes(db, owner) + RetiredBytes(db, owner)
  }

  function AdoptedSize(r: Types.Upload): int {
    if r.file.DerivedFile? then 0 else r.size
  }

  lemma RowBalance(db: Db, k: IntentId, r: Types.Upload, owner: string)
    requires k in db.uploads ==> db.uploads[k].owner == r.owner
    ensures JournalBalance(SetUpload(db, k, r), owner) == JournalBalance(db, owner) +
      if owner != r.owner then 0 else AdoptedSize(r) - if k in db.uploads then AdoptedSize(db.uploads[k]) else 0
  {
    hide PerRow;
    ChargesPerRow(db, owner);
    ChargesPerRow(SetUpload(db, k, r), owner);
    PerRowSum(db, k, r, owner, JournalCharge);
    PerRowSum(db, k, r, owner, ReservedSize);
    PerRowSum(db, k, r, owner, RetiredSize);
  }

  /****** One file's charge ******/

  ghost function Charged(db: Db, owner: string, f: FileId): int {
    if OwnedFile(db, owner, f) then FileCharge(db, owner, f, FileHead(db.library, f).value) else 0
  }

  /** Nothing about any other file changed. */
  ghost predicate OnlyFile(db: Db, next: Db, f: FileId) {
    && (forall g :: g != f ==> FileRows(next.library, g) == FileRows(db.library, g))
    && (forall k :: k in db.uploads && db.uploads[k].file != f ==> k in next.uploads && next.uploads[k] == db.uploads[k])
    && (forall k :: k in next.uploads && next.uploads[k].file != f ==> k in db.uploads && next.uploads[k] == db.uploads[k])
  }

  lemma OtherFileCharge(db: Db, next: Db, f: FileId, owner: string, g: FileId)
    requires OnlyFile(db, next, f) && g != f
    ensures OwnedFile(next, owner, g) == OwnedFile(db, owner, g)
    ensures Charged(next, owner, g) == Charged(db, owner, g)
  {
    if OwnedFile(db, owner, g) {
      assert FileRows(next.library, g) == FileRows(db.library, g);
      assert Deduplicated(next, owner, g, FileHead(db.library, g).value) == Deduplicated(db, owner, g, FileHead(db.library, g).value);
    }
  }

  /** Summing the other files first leaves one file's charge. */
  lemma OneFileChanged(db: Db, next: Db, f: FileId, owner: string)
    requires OnlyFile(db, next, f)
    ensures Sums.Sum(LibraryCharges(next, owner)) - Charged(next, owner, f) == Sums.Sum(LibraryCharges(db, owner)) - Charged(db, owner, f)
  {
    var before, after := LibraryCharges(db, owner), LibraryCharges(next, owner);
    assert forall d: Db, g :: OwnedFile(d, owner, g) ==> g in d.library.files;
    forall g | g != f ensures (g in before <==> g in after) && (g in before ==> before[g] == after[g]) {
      OtherFileCharge(db, next, f, owner, g);
    }
    assert before - {f} == after - {f};
    assert Charged(db, owner, f) == (if f in before then before[f] else 0) && Charged(next, owner, f) == (if f in after then after[f] else 0);
    hide LibraryCharges, OnlyFile, Charged;
    TakeOut(before, f);
    TakeOut(after, f);
  }

  lemma TakeOut(m: map<FileId, int>, f: FileId)
    ensures Sums.Sum(m) == Sums.Sum(m - {f}) + if f in m then m[f] else 0
  {
    if f in m {
      Sums.SumRemove(m, f);
    } else {
      assert m - {f} == m;
    }
  }

  lemma BalanceMoves(db: Db, next: Db, f: FileId, owner: string)
    requires OnlyFile(db, next, f)
    requires JournalBalance(next, owner) + Charged(next, owner, f) == JournalBalance(db, owner) + Charged(db, owner, f)
    ensures Balance(next, owner) == Balance(db, owner)
  {
    OneFileChanged(db, next, f, owner);
  }

  /****** Changes of a row ******/

  lemma RowOnlyFile(db: Db, k: IntentId, r: Types.Upload)
    requires k in db.uploads ==> db.uploads[k].file == r.file
    ensures OnlyFile(db, SetUpload(db, k, r), r.file)
  {
  }

  /** A row that moves on without its receipt changing, or before anything presents it. */
  lemma RowMovesOn(db: Db, k: IntentId, r: Types.Upload, owner: string)
    requires k in db.uploads && r.owner == db.uploads[k].owner && r.file == db.uploads[k].file
    requires r.size == db.uploads[k].size && r.identity == db.uploads[k].identity
    requires r.url == db.uploads[k].url || FileRows(db.library, r.file) == []
    ensures Balance(SetUpload(db, k, r), owner) == Balance(db, owner)
  {
    var next := SetUpload(db, k, r);
    RowOnlyFile(db, k, r);
    RowBalance(db, k, r, owner);
    if OwnedFile(db, owner, r.file) {
      var head := FileHead(db.library, r.file).value;
      assert Names(head, r) == Names(head, db.uploads[k]);
      hide Names;
      DedupSame(db, k, r, owner, head);
    }
    hide OnlyFile, JournalBalance, Balance;
    BalanceMoves(db, next, r.file, owner);
  }

  lemma DedupSame(db: Db, k: IntentId, r: Types.Upload, owner: string, head: FileRow)
    requires k in db.uploads && r.owner == db.uploads[k].owner && r.file == db.uploads[k].file && Names(head, r) == Names(head, db.uploads[k])
    ensures Deduplicated(SetUpload(db, k, r), owner, r.file, head) == Deduplicated(db, owner, r.file, head)
  {
    var next := SetUpload(db, k, r);
    forall q | q in db.uploads
      ensures next.uploads[q].owner == db.uploads[q].owner && next.uploads[q].file == db.uploads[q].file
      ensures Names(head, next.uploads[q]) == Names(head, db.uploads[q])
    {
    }
  }

  /** A new reservation is not presented by anything yet. */
  lemma RowReserved(db: Db, k: IntentId, r: Types.Upload, owner: string)
    requires k !in db.uploads && r.file.DerivedFile? && r.url == NoUrl
    ensures Balance(SetUpload(db, k, r), owner) == Balance(db, owner)
  {
    var next := SetUpload(db, k, r);
    RowOnlyFile(db, k, r);
    RowBalance(db, k, r, owner);
    if OwnedFile(db, owner, r.file) {
      var head := FileHead(db.library, r.file).value;
      assert Deduplicated(next, owner, r.file, head) == Deduplicated(db, owner, r.file, head) by {
        assert !Names(head, r);
        hide Names;
        assert forall q :: q in db.uploads ==> next.uploads[q] == db.uploads[q];
      }
    }
    hide OnlyFile, JournalBalance, Balance;
    BalanceMoves(db, next, r.file, owner);
  }

  lemma MatchingIsNamed(row: FileRow, r: Types.Upload)
    requires Matches(row, r.identity, r.url) && r.url != NoUrl && r.size == r.identity.size && ValidIdentity(r.identity)
    ensures Names(row, r) && row.owner == Some(r.identity.owner)
    ensures QuotaSize(row.size).Some? && QuotaSize(row.size).value as int == r.size
  {
    SizeReadersAgree(row.size, r.size);
  }

  /** Adoption moves a file's charge from the Library to the journal. */
  lemma RowAdopted(db: Db, k: IntentId, r: Types.Upload, owner: string, head: FileRow)
    requires k !in db.uploads && !FileTaken(db, r.file) && r.file.BareFile? && r.state == Ready && r.url != NoUrl
    requires r.owner == r.identity.owner && r.size == r.identity.size && ValidIdentity(r.identity)
    requires FileHead(db.library, r.file) == Some(head) && Matches(head, r.identity, r.url)
    ensures Balance(SetUpload(db, k, r), owner) == Balance(db, owner)
  {
    var next := SetUpload(db, k, r);
    RowOnlyFile(db, k, r);
    RowBalance(db, k, r, owner);
    MatchingIsNamed(head, r);
    assert OwnedFile(db, owner, r.file) <==> owner == r.owner;
    assert !Deduplicated(db, owner, r.file, head);
    if owner == r.owner {
      assert next.uploads[k] == r;
      assert Deduplicated(next, owner, r.file, head);
    }
    hide OnlyFile, JournalBalance, Balance, Matches, Names;
    BalanceMoves(db, next, r.file, owner);
  }

  /****** Changes of the presentation ******/

  /** A change of one file's presentation moves the balance by that file's charge. */
  lemma LibraryMoves(db: Db, next: Db, f: FileId, owner: string)
    requires next == db.(library := next.library)
    requires forall g :: g != f ==> FileRows(next.library, g) == FileRows(db.library, g)
    ensures Balance(next, owner) - Charged(next, owner, f) == Balance(db, owner) - Charged(db, owner, f)
  {
    assert JournalCharges(next, owner) == JournalCharges(db, owner);
    assert PerRow(next, owner, ReservedSize) == PerRow(db, owner, ReservedSize);
    assert PerRow(next, owner, RetiredSize) == PerRow(db, owner, RetiredSize);
    hide Charged;
    OneFileChanged(db, next, f, owner);
  }

  /** A row presented as exactly its bytes is charged to nobody a second time. */
  lemma PresentedFree(db: Db, k: IntentId, owner: string)
    requires k in db.uploads && RowOk(k, db.uploads[k]) && db.uploads[k].url != NoUrl
    requires
      var head := FileHead(db.library, db.uploads[k].file);
      head.None? || Matches(head.value, db.uploads[k].identity, db.uploads[k].url)
    ensures Charged(db, owner, db.uploads[k].file) == 0
  {
    var r := db.uploads[k];
    if OwnedFile(db, owner, r.file) {
      MatchingIsNamed(FileHead(db.library, r.file).value, r);
    }
  }

  lemma NoRowsFree(db: Db, owner: string, f: FileId)
    requires FileRows(db.library, f) == []
    ensures Charged(db, owner, f) == 0
  {
  }

  /****** What a finalizer saw ******/

  /** An adopted file stays presented until it is purged. */
  ghost predicate AdoptedPresented(db: Db) {
    forall k :: k in db.uploads && db.uploads[k].file.BareFile? && !db.uploads[k].purged ==> FileRows(db.library, db.uploads[k].file) != []
  }

  /** A finalizer that saw no presentation is right until it records one itself. */
  ghost predicate SeenOk(s: State) {
    forall p :: p in s.procs && s.procs[p].Finalizing? && s.procs[p].seen == Read(None) ==> FileRows(s.db.library, s.procs[p].i.file) == []
  }

  ghost predicate Shown(s: State) {
    AdoptedPresented(s.db) && SeenOk(s)
  }

  lemma TableFacts(cfg: Config, s: State)
    requires Inv(cfg, s)
    ensures PresentationOk(s.db) && FilesUnique(s.db)
  {
    hide BlobInv, QuotaInv, ProcInv, RowsOk, ReferencesOk, FencesOk, FrozenOk, PresentationOk, FilesUnique;
  }

  /****** Steps ******/

  lemma ReserveBalance(cfg: Config, s: State, p: nat, x: Identity, others: seq<Number>, reply: bool, owner: string)
    ensures Balance(DoReserve(cfg, s, p, x, others, reply).db, owner) == Balance(s.db, owner)
  {
    hide Admits, Balance, OwnerLocked, FencedByTrigger;
    var k := IntentIdOf(x);
    if k in s.db.uploads {
      RowMovesOn(s.db, k, s.db.uploads[k].(generation := s.db.uploads[k].generation + 1), owner);
    } else {
      RowReserved(s.db, k, NewUpload(x), owner);
    }
  }

  lemma SaveVerifiedBalance(cfg: Config, s: State, p: nat, reply: bool, owner: string)
    requires Inv(cfg, s)
    ensures Balance(DoSaveVerified(s, p, reply).db, owner) == Balance(s.db, owner)
  {
    hide Inv, Balance, RowLocked;
    if p in s.procs && s.procs[p].Uploaded? && s.procs[p].i.id in s.db.uploads {
      var k := s.procs[p].i.id;
      var r := s.db.uploads[k];
      RowFacts(cfg, s, k);
      TableFacts(cfg, s);
      var url, etag := ProviderUrl(PlaceOfIntent(s.procs[p].i)), s.procs[p].etag;
      assert r.etag == "" ==> FileRows(s.db.library, r.file) == [];
      if r.etag == "" || r.url == url {
        RowMovesOn(s.db, k, r.(url := url, etag := etag, state := if r.state == Ready then Ready else BlobVerified), owner);
      }
    }
  }

  lemma FinalizeRecordBalance(cfg: Config, s: State, p: nat, reply: bool, owner: string)
    requires Inv(cfg, s) && SeenOk(s)
    ensures Balance(DoFinalizeRecord(s, p, reply).db, owner) == Balance(s.db, owner)
  {
    hide Inv, Balance, FileRetiring, Matches, Charged;
    var after := DoFinalizeRecord(s, p, reply).db;
    if after != s.db {
      var i := s.procs[p].i;
      ProcFacts(cfg, s, p);
      RowFacts(cfg, s, i.id);
      NoRowsFree(s.db, owner, i.file);
      Appended(s.db.library, i.file, RecordedRow(i));
      RecordedMatches(i);
      hide AppendFile, RecordedRow;
      PresentedFree(after, i.id, owner);
      LibraryMoves(s.db, after, i.file, owner);
    }
  }

  lemma SameCharge(db: Db, next: Db, f: FileId, owner: string, row: FileRow)
    requires next == db.(library := next.library) && FileHead(db.library, f) == Some(row) && FileHead(next.library, f) == Some(row.(status := "ready"))
    ensures Charged(next, owner, f) == Charged(db, owner, f)
  {
    assert forall r :: Names(row.(status := "ready"), r) == Names(row, r);
    hide Names;
    assert Deduplicated(next, owner, f, row.(status := "ready")) == Deduplicated(db, owner, f, row);
  }

  lemma FinalizePromoteBalance(s: State, p: nat, reply: bool, owner: string)
    ensures Balance(DoFinalizePromote(s, p, reply).db, owner) == Balance(s.db, owner)
  {
    hide Balance, FileRetiring, Matches, Charged;
    var after := DoFinalizePromote(s, p, reply).db;
    if after != s.db {
      var f := s.procs[p].i.file;
      var head := FileHead(s.db.library, f).value;
      Appended(s.db.library, f, head.(status := "ready"));
      hide AppendFile;
      SameCharge(s.db, after, f, owner, head);
      LibraryMoves(s.db, after, f, owner);
    }
  }

  lemma FinalizeCommitBalance(s: State, p: nat, reply: bool, owner: string)
    ensures Balance(DoFinalizeCommit(s, p, reply).db, owner) == Balance(s.db, owner)
  {
    hide Balance, Matches;
    if p in s.procs && s.procs[p].Finalizing? && s.procs[p].i.id in s.db.uploads {
      var k := s.procs[p].i.id;
      RowMovesOn(s.db, k, s.db.uploads[k].(state := Ready), owner);
    }
  }

  lemma SameTablesBalance(db: Db, next: Db, owner: string)
    requires next.uploads == db.uploads && next.library == db.library
    ensures Balance(next, owner) == Balance(db, owner)
  {
    var f: FileId := BareFile("");
    assert Charged(next, owner, f) == Charged(db, owner, f) by {
      assert forall g, row :: Deduplicated(next, owner, g, row) == Deduplicated(db, owner, g, row);
    }
    assert JournalCharges(next, owner) == JournalCharges(db, owner);
    assert PerRow(next, owner, ReservedSize) == PerRow(db, owner, ReservedSize);
    assert PerRow(next, owner, RetiredSize) == PerRow(db, owner, RetiredSize);
    hide Charged;
    BalanceMoves(db, next, f, owner);
  }

  lemma BeginRetirementBalance(s: State, p: nat, scope: Scope, k: IntentId, token: string, reply: bool, owner: string)
    ensures Balance(DoBeginRetirement(s, p, scope, k, token, reply).db, owner) == Balance(s.db, owner)
  {
    hide Balance, OwnerLocked, CheckRetirement, PinnedFor;
    if k in s.db.uploads {
      RowMovesOn(s.db, k, s.db.uploads[k].(state := Retiring, generation := s.db.uploads[k].generation + 1, lease := token), owner);
    }
  }

  lemma ConfirmRetirementBalance(s: State, p: nat, reply: bool, owner: string)
    ensures Balance(DoConfirmRetirement(s, p, reply).db, owner) == Balance(s.db, owner)
  {
    hide Balance, OwnerLocked;
    if p in s.procs && s.procs[p].RetireFenced? && s.procs[p].i.id in s.db.uploads {
      var k := s.procs[p].i.id;
      RowMovesOn(s.db, k, s.db.uploads[k].(state := Retired, retiredEtag := s.procs[p].etag), owner);
    }
  }

  lemma CheckedPresentation(lib: Shelf, f: FileId, x: Identity, url: Url)
    requires CheckRetirement(lib, f, x, url) == None
    ensures FileHead(lib, f).None? || Matches(FileHead(lib, f).value, x, url)
  {
  }

  lemma PurgeBalance(cfg: Config, s: State, scope: Scope, k: IntentId, owner: string)
    requires Inv(cfg, s)
    ensures Balance(DoPurge(s, scope, k).db, owner) == Balance(s.db, owner)
  {
    hide Inv, Balance, OwnerLocked, CheckRetirement, DeletePresentation, Charged, Matches;
    if !OwnerLocked(s, scope.owner) && Journal.Purge(s.db, scope, k).Commit? {
      var r := s.db.uploads[k];
      var mid := s.db.(library := DeletePresentation(s.db.library, r.file, scope.owner));
      RowFacts(cfg, s, k);
      TableFacts(cfg, s);
      CheckedPresentation(s.db.library, r.file, r.identity, r.url);
      PurgeLeavesNoHead(s.db.library, r.file, r.identity, r.url);
      if r.url == NoUrl {
        assert FileRows(s.db.library, r.file) == [];
        NoRowsFree(s.db, owner, r.file);
      } else {
        PresentedFree(s.db, k, owner);
      }
      NoRowsFree(mid, owner, r.file);
      LibraryMoves(s.db, mid, r.file, owner);
      RowMovesOn(mid, k, r.(purged := true), owner);
    }
  }

  lemma AdoptCommitBalance(cfg: Config, s: State, p: nat, reply: bool, owner: string)
    requires Inv(cfg, s)
    ensures Balance(DoAdoptCommit(s, p, reply).db, owner) == Balance(s.db, owner)
  {
    hide Inv, Balance, OwnerLocked, CheckRetirement, Matches, FencedByTrigger;
    if p in s.procs && s.procs[p].AdoptChecked? {
      var i := s.procs[p].i;
      ProcFacts(cfg, s, p);
      if CheckRetirement(s.db.library, i.file, i.identity, i.url) == None && !FileTaken(s.db, i.file) && i.id !in s.db.uploads {
        CheckedPresentation(s.db.library, i.file, i.identity, i.url);
        RowAdopted(s.db, i.id, AdoptedUpload(i), owner, FileHead(s.db.library, i.file).value);
      }
    }
  }

  predicate ChangesRowsOrFiles(l: Label) {
    l.Reserve? || l.SaveVerified? || l.FinalizeCommit? || l.BeginRetirement? || l.ConfirmRetirement? || l.AdoptCommit? || WritesLibrary(l)
  }

  /** Every other step leaves the journal's rows and the Library alone. */
  lemma RowsAndFilesKept(cfg: Config, s: State, l: Label)
    requires !ChangesRowsOrFiles(l)
    ensures Apply(cfg, s, l).db.uploads == s.db.uploads && Apply(cfg, s, l).db.library == s.db.library
  {
    hide Apply;
    StepEffect(cfg, s, l);
  }

  /** What a write of a file by anybody else moves: that file's own charge. */
  ghost function EditCharge(db: Db, next: Db, l: Label, owner: string): int {
    if l.EditLibrary? && l.edit.WriteFile? then Charged(next, owner, l.edit.file) - Charged(db, owner, l.edit.file) else 0
  }

  lemma EditBalance(s: State, edit: LibraryEdit, next: Db, owner: string)
    requires next == DoEditLibrary(s, edit).db
    ensures Balance(next, owner) == Balance(s.db, owner) + EditCharge(s.db, next, Label.EditLibrary(edit), owner)
  {
    hide Balance, FileRetiring;
    LibraryMoves(s.db, next, edit.file, owner);
    if !edit.WriteFile? {
      SameFileCharge(s.db, next, edit.file, owner);
    }
  }

  lemma SameFileCharge(db: Db, next: Db, f: FileId, owner: string)
    requires next.uploads == db.uploads && next.library.files == db.library.files
    ensures Charged(next, owner, f) == Charged(db, owner, f)
  {
    assert forall row :: Deduplicated(next, owner, f, row) == Deduplicated(db, owner, f, row);
  }

  /** No step changes the balance of any owner, apart from a file written by somebody else, which
      changes it by that file's charge. */
  lemma StepBalance(cfg: Config, s: State, l: Label, owner: string)
    requires Inv(cfg, s) && SeenOk(s)
    ensures Balance(Apply(cfg, s, l).db, owner) == Balance(s.db, owner) + EditCharge(s.db, Apply(cfg, s, l).db, l, owner)
  {
    hide Inv, SeenOk, Balance, Charged, DoReserve, DoSaveVerified, DoFinalizeRecord, DoFinalizePromote, DoFinalizeCommit, DoChangeReference,
      DoBeginRetirement, DoConfirmRetirement, DoFence, DoPurge, DoAdoptCommit, DoEditLibrary;
    match l
    case Reserve(p, x, others, reply) => ReserveBalance(cfg, s, p, x, others, reply, owner);
    case SaveVerified(p, reply) => SaveVerifiedBalance(cfg, s, p, reply, owner);
    case FinalizeRecord(p, reply) => FinalizeRecordBalance(cfg, s, p, reply, owner);
    case FinalizePromote(p, reply) => FinalizePromoteBalance(s, p, reply, owner);
    case FinalizeCommit(p, reply) => FinalizeCommitBalance(s, p, reply, owner);
    case BeginRetirement(p, scope, k, token, reply) => BeginRetirementBalance(s, p, scope, k, token, reply, owner);
    case ConfirmRetirement(p, reply) => ConfirmRetirementBalance(s, p, reply, owner);
    case Purge(scope, k) => PurgeBalance(cfg, s, scope, k, owner);
    case AdoptCommit(p, reply) => AdoptCommitBalance(cfg, s, p, reply, owner);
    case EditLibrary(edit) => EditBalance(s, edit, DoEditLibrary(s, edit).db, owner);
    case _ =>
      RowsAndFilesKept(cfg, s, l);
      SameTablesBalance(s.db, Apply(cfg, s, l).db, owner);
  }

  /****** Keeping what finalizers saw ******/

  /** The file a step may write. */
  predicate Writes(s: State, l: Label, f: FileId) {
    match l
    case FinalizeRecord(p, _) => p in s.procs && s.procs[p].Finalizing? && s.procs[p].i.file == f
    case FinalizePromote(p, _) => p in s.procs && s.procs[p].Finalizing? && s.procs[p].i.file == f
    case EditLibrary(WriteFile(g, _)) => g == f
    case _ => false
  }

  lemma FinalizerAppends(s: State, p: nat, reply: bool, f: FileId)
    ensures
      var was, record, promote := FileRows(s.db.library, f), DoFinalizeRecord(s, p, reply), DoFinalizePromote(s, p, reply);
      && was <= FileRows(record.db.library, f) && was <= FileRows(promote.db.library, f)
      && (!(p in s.procs && s.procs[p].Finalizing? && s.procs[p].i.file == f) ==>
            FileRows(record.db.library, f) == was && FileRows(promote.db.library, f) == was)
  {
    hide FileRetiring, Matches, RecordedRow;
  }

  lemma EditAppends(s: State, edit: LibraryEdit, f: FileId)
    ensures
      var was, now := FileRows(s.db.library, f), FileRows(DoEditLibrary(s, edit).db.library, f);
      && was <= now && ((edit.WriteFile? && edit.file == f) || was == now)
      && (was == [] && f.DerivedFile? ==> now == [])
  {
    hide FileRetiring;
  }

  lemma PurgeAddsNothing(s: State, scope: Scope, k: IntentId, f: FileId)
    requires FileRows(s.db.library, f) == []
    ensures FileRows(DoPurge(s, scope, k).db.library, f) == []
  {
    hide OwnerLocked, CheckRetirement;
  }

  /** How a step may change the presentation of a file: only a purge removes rows, and rows appear
      only where the step writes. */
  lemma PresentationStep(cfg: Config, s: State, l: Label, n: State, f: FileId)
    requires n == Apply(cfg, s, l)
    ensures !l.Purge? ==> FileRows(s.db.library, f) <= FileRows(n.db.library, f)
    ensures FileRows(s.db.library, f) == [] && (!Writes(s, l, f) || (l.EditLibrary? && f.DerivedFile?)) ==> FileRows(n.db.library, f) == []
  {
    if l.FinalizeRecord? || l.FinalizePromote? || l.EditLibrary? || l.Purge? {
      WriterStep(cfg, s, l, n, f);
    } else {
      hide Apply, Writes;
      StepEffect(cfg, s, l);
    }
  }

  lemma WriterStep(cfg: Config, s: State, l: Label, n: State, f: FileId)
    requires n == Apply(cfg, s, l) && (l.FinalizeRecord? || l.FinalizePromote? || l.EditLibrary? || l.Purge?)
    ensures !l.Purge? ==> FileRows(s.db.library, f) <= FileRows(n.db.library, f)
    ensures FileRows(s.db.library, f) == [] && (!Writes(s, l, f) || (l.EditLibrary? && f.DerivedFile?)) ==> FileRows(n.db.library, f) == []
  {
    hide DoFinalizeRecord, DoFinalizePromote, DoEditLibrary, DoPurge, FileRows;
    match l
    case FinalizeRecord(p, reply) => FinalizerAppends(s, p, reply, f);
    case FinalizePromote(p, reply) => FinalizerAppends(s, p, reply, f);
    case EditLibrary(edit) => EditAppends(s, edit, f);
    case Purge(scope, k) =>
      if FileRows(s.db.library, f) == [] {
        PurgeAddsNothing(s, scope, k, f);
      }
  }

  lemma PurgedOnly(cfg: Config, s: State, scope: Scope, k: IntentId, q: IntentId)
    requires Inv(cfg, s) && q in s.db.uploads && !DoPurge(s, scope, k).db.uploads[q].purged
    ensures FileRows(DoPurge(s, scope, k).db.library, s.db.uploads[q].file) == FileRows(s.db.library, s.db.uploads[q].file)
  {
    hide Inv, OwnerLocked, CheckRetirement;
    TableFacts(cfg, s);
  }

  lemma RowPresented(cfg: Config, s: State, l: Label, n: State, k: IntentId)
    requires Inv(cfg, s) && n == Apply(cfg, s, l) && AdoptedPresented(s.db) && k in s.db.uploads && k in n.db.uploads
    requires s.db.uploads[k].file.BareFile? && !s.db.uploads[k].purged && !n.db.uploads[k].purged
    ensures FileRows(n.db.library, s.db.uploads[k].file) != []
  {
    hide Inv, Apply;
    if l.Purge? {
      PurgeApplied(cfg, s, l);
      PurgedOnly(cfg, s, l.scope, l.id, k);
    } else {
      PresentationStep(cfg, s, l, n, s.db.uploads[k].file);
    }
  }

  lemma NewRowOfAdoption(cfg: Config, s: State, p: nat, reply: bool, n: State, k: IntentId)
    requires Inv(cfg, s) && n == DoAdoptCommit(s, p, reply) && k !in s.db.uploads && k in n.db.uploads
    ensures FileRows(n.db.library, n.db.uploads[k].file) != []
  {
    hide Inv, CheckRetirement, OwnerLocked, FencedByTrigger;
    ProcFacts(cfg, s, p);
  }

  lemma NewRowOfReservation(cfg: Config, s: State, p: nat, x: Identity, others: seq<Number>, reply: bool, n: State, k: IntentId)
    requires n == DoReserve(cfg, s, p, x, others, reply) && k !in s.db.uploads && k in n.db.uploads
    ensures n.db == SetUpload(s.db, IntentIdOf(x), NewUpload(x)) && k == IntentIdOf(x) && n.db.uploads[k] == NewUpload(x)
  {
    hide Admits, OwnerLocked, FencedByTrigger;
  }

  /** A row for a bare file is new only by adoption, which found the file presented. */
  lemma NewBareRow(cfg: Config, s: State, l: Label, n: State, k: IntentId)
    requires Inv(cfg, s) && n == Apply(cfg, s, l) && k !in s.db.uploads && k in n.db.uploads && n.db.uploads[k].file.BareFile?
    ensures FileRows(n.db.library, n.db.uploads[k].file) != []
  {
    hide Inv, DoReserve, DoAdoptCommit;
    if l.AdoptCommit? {
      NewRowOfAdoption(cfg, s, l.p, l.reply, n, k);
    } else if l.Reserve? {
      NewRowOfReservation(cfg, s, l.p, l.identity, l.others, l.reply, n, k);
    } else {
      hide Apply;
      StepEffect(cfg, s, l);
    }
  }

  lemma PresentedKept(cfg: Config, s: State, l: Label)
    requires Inv(cfg, s) && AdoptedPresented(s.db)
    ensures AdoptedPresented(Apply(cfg, s, l).db)
  {
    var n := Apply(cfg, s, l);
    hide Inv, Apply, BlobsGrow;
    StepKeeps(cfg, s, l);
    forall k | k in n.db.uploads && n.db.uploads[k].file.BareFile? && !n.db.uploads[k].purged
      ensures FileRows(n.db.library, n.db.uploads[k].file) != []
    {
      if k in s.db.uploads {
        assert Evolves(s.db.uploads[k], n.db.uploads[k]);
        RowPresented(cfg, s, l, n, k);
      } else {
        NewBareRow(cfg, s, l, n, k);
      }
    }
  }

  lemma PurgeApplied(cfg: Config, s: State, l: Label)
    requires l.Purge?
    ensures Apply(cfg, s, l) == DoPurge(s, l.scope, l.id) && DoPurge(s, l.scope, l.id).procs == s.procs
  {
  }

  /** While a finalizer holds its locks no other step can present its file first. */
  lemma NobodyElseWrites(cfg: Config, s: State, l: Label, p: nat)
    requires Inv(cfg, s) && AdoptedPresented(s.db) && p in s.procs && s.procs[p].Finalizing? && FileRows(s.db.library, s.procs[p].i.file) == []
    requires Mover(l) != Some(p)
    ensures !Writes(s, l, s.procs[p].i.file) || (l.EditLibrary? && s.procs[p].i.file.DerivedFile?)
  {
    hide Inv;
    var i := s.procs[p].i;
    ProcFacts(cfg, s, p);
    RowFacts(cfg, s, i.id);
    assert !i.file.BareFile?;
    if (l.FinalizeRecord? || l.FinalizePromote?) && l.p in s.procs && s.procs[l.p].Finalizing? {
      ProcFacts(cfg, s, l.p);
      TableFacts(cfg, s);
      OneHolder(cfg, s, p, l.p);
    }
  }

  lemma OneHolder(cfg: Config, s: State, p: nat, q: nat)
    requires Inv(cfg, s) && p in s.procs && q in s.procs && p != q && s.procs[p].Finalizing? && s.procs[q].Finalizing?
    ensures s.procs[p].i.identity.owner != s.procs[q].i.identity.owner
  {
    hide DbInv, BlobInv, QuotaInv, ProcsOk, GenerationsDistinct;
  }

  /** What a finalizer has read after its own step is what it had read, or the current head. */
  lemma OwnView(cfg: Config, s: State, l: Label, p: nat)
    requires Mover(l) == Some(p) && p in Apply(cfg, s, l).procs
    requires Apply(cfg, s, l).procs[p].Finalizing? && Apply(cfg, s, l).procs[p].seen.Read?
    ensures Apply(cfg, s, l).db.library == s.db.library
    ensures p in s.procs && s.procs[p].Finalizing? && s.procs[p].i == Apply(cfg, s, l).procs[p].i
    ensures
      Apply(cfg, s, l).procs[p].seen == s.procs[p].seen || Apply(cfg, s, l).procs[p].seen == Read(FileHead(s.db.library, s.procs[p].i.file))
  {
    hide Journal.Reserve, Journal.SaveVerified, Journal.ChangeReference, Journal.BeginRetirement, Journal.ConfirmRetirement,
      Journal.Purge, Journal.Fence, Journal.AdoptCommit, AdoptExisting, LegacyRead, LegacyVerified, FinalizeCheck, Journal.FinalizeCommit,
      OwnerLocked, RowLocked, FileRetiring, Matches, FileTaken, Verify, Create, Retire;
  }

  lemma SeenKept(cfg: Config, s: State, l: Label)
    requires Inv(cfg, s) && Shown(s)
    ensures SeenOk(Apply(cfg, s, l))
  {
    var n := Apply(cfg, s, l);
    hide Inv, Apply, Writes;
    forall p | p in n.procs && n.procs[p].Finalizing? && n.procs[p].seen == Read(None)
      ensures FileRows(n.db.library, n.procs[p].i.file) == []
    {
      if Mover(l) == Some(p) {
        OwnView(cfg, s, l, p);
      } else {
        OthersUnmoved(cfg, s, l, p);
        NobodyElseWrites(cfg, s, l, p);
        PresentationStep(cfg, s, l, n, s.procs[p].i.file);
      }
    }
  }

  lemma {:induction false} RunShown(cfg: Config, run: seq<Label>)
    ensures Shown(Exec(cfg, Start, run))
  {
    if run != [] {
      var n := |run| - 1;
      hide Inv, Apply, AdoptedPresented, SeenOk;
      RunShown(cfg, run[..n]);
      ReachableInv(cfg, run[..n]);
      PresentedKept(cfg, Exec(cfg, Start, run[..n]), run[n]);
      SeenKept(cfg, Exec(cfg, Start, run[..n]), run[n]);
    }
  }

  /****** Conservation ******/

  lemma ReachableBalance(cfg: Config, run: seq<Label>, l: Label, owner: string)
    ensures Balance(Exec(cfg, Start, run + [l]).db, owner) ==
      Balance(Exec(cfg, Start, run).db, owner) + EditCharge(Exec(cfg, Start, run).db, Exec(cfg, Start, run + [l]).db, l, owner)
  {
    hide Inv, Apply, Balance, Exec, AdoptedPresented, SeenOk, EditCharge;
    ExecOne(cfg, Start, run, l);
    ReachableInv(cfg, run);
    RunShown(cfg, run);
    StepBalance(cfg, Exec(cfg, Start, run), l, owner);
  }

  /** What other writers of files did to an owner's charges along the second part of a run. */
  ghost function Edited(cfg: Config, run: seq<Label>, more: seq<Label>, owner: string): int {
    if more == [] then 0
    else
      var n := |more| - 1;
      Edited(cfg, run, more[..n], owner)
      + EditCharge(Exec(cfg, Start, run + more[..n]).db, Exec(cfg, Start, run + more[..n] + [more[n]]).db, more[n], owner)
  }

  predicate NoFileEdits(run: seq<Label>) {
    forall i :: 0 <= i < |run| ==> !(run[i].EditLibrary? && run[i].edit.WriteFile?)
  }

  lemma {:induction false} NothingEdited(cfg: Config, run: seq<Label>, more: seq<Label>, owner: string)
    requires NoFileEdits(more)
    ensures Edited(cfg, run, more, owner) == 0
  {
    if more != [] {
      hide Exec;
      NothingEdited(cfg, run, more[..|more| - 1], owner);
    }
  }

  lemma {:induction false} RunBalance(cfg: Config, run: seq<Label>, more: seq<Label>, owner: string)
    ensures Balance(Exec(cfg, Start, run + more).db, owner) == Balance(Exec(cfg, Start, run).db, owner) + Edited(cfg, run, more, owner)
  {
    hide Balance, Exec, EditCharge;
    if more == [] {
      assert run + more == run;
    } else {
      var n := |more| - 1;
      RunBalance(cfg, run, more[..n], owner);
      assert run + more == run + more[..n] + [more[n]];
      ReachableBalance(cfg, run + more[..n], more[n], owner);
    }
  }

  /** Capacity is conserved along every run: an owner's footprint changes by exactly the bytes newly
      reserved, minus the bytes whose retirement was confirmed, plus what other writers of files did
      to the charges of the files they wrote. Verification, finalization, adoption, purge, index
      entries, retries and crashes move nothing. */
  lemma CapacityConserved(cfg: Config, run: seq<Label>, more: seq<Label>, owner: string)
    ensures
      var s, n := Exec(cfg, Start, run).db, Exec(cfg, Start, run + more).db;
      Footprint(n, owner) - Footprint(s, owner) ==
        (ReservedBytes(n, owner) - ReservedBytes(s, owner)) - (RetiredBytes(n, owner) - RetiredBytes(s, owner)) + Edited(cfg, run, more, owner)
    ensures NoFileEdits(more) ==> Edited(cfg, run, more, owner) == 0
  {
    hide Exec, Footprint, ReservedBytes, RetiredBytes, Edited;
    RunBalance(cfg, run, more, owner);
    if NoFileEdits(more) {
      NothingEdited(cfg, run, more, owner);
    }
  }

  /** A new reservation raises its owner's footprint, and nobody else's, by its size. */
  lemma ReservationCharges(cfg: Config, run: seq<Label>, l: Label, owner: string)
    requires l.Reserve? && IntentIdOf(l.identity) !in Exec(cfg, Start, run).db.uploads
    requires IntentIdOf(l.identity) in Exec(cfg, Start, run + [l]).db.uploads
    ensures Footprint(Exec(cfg, Start, run + [l]).db, owner) ==
      Footprint(Exec(cfg, Start, run).db, owner) + if owner == l.identity.owner then l.identity.size else 0
  {
    var s, n := Exec(cfg, Start, run), Exec(cfg, Start, run + [l]);
    var k, r := IntentIdOf(l.identity), NewUpload(l.identity);
    ReachableBalance(cfg, run, l, owner);
    ExecOne(cfg, Start, run, l);
    hide Footprint, Exec, DoReserve, PerRow;
    NewRowOfReservation(cfg, s, l.p, l.identity, l.others, l.reply, n, k);
    PerRowSum(s.db, k, r, owner, ReservedSize);
    PerRowSum(s.db, k, r, owner, RetiredSize);
  }

  /** A confirmed retirement lowers its owner's footprint, and nobody else's, by the row's size; the
      object is a tombstone by then. */
  lemma ConfirmationFrees(cfg: Config, run: seq<Label>, l: Label, k: IntentId, owner: string)
    requires k in Exec(cfg, Start, run).db.uploads && Exec(cfg, Start, run).db.uploads[k].state != Retired
    requires k in Exec(cfg, Start, run + [l]).db.uploads && Exec(cfg, Start, run + [l]).db.uploads[k].state == Retired
    ensures
      var s, n := Exec(cfg, Start, run), Exec(cfg, Start, run + [l]);
      && Footprint(n.db, owner) == Footprint(s.db, owner) - (if owner == s.db.uploads[k].owner then s.db.uploads[k].size else 0)
      && At(s.blobs, PlaceOf(s.db.uploads[k])).Tombstone?
  {
    var s, n := Exec(cfg, Start, run), Exec(cfg, Start, run + [l]);
    ReachableBalance(cfg, run, l, owner);
    ReachableInv(cfg, run);
    ExecOne(cfg, Start, run, l);
    hide Footprint, Exec, PerRow, Inv;
    RetiredByConfirmation(cfg, s, l, n, k);
    PerRowSum(s.db, k, n.db.uploads[k], owner, ReservedSize);
    PerRowSum(s.db, k, n.db.uploads[k], owner, RetiredSize);
  }

  /** Only a retirer that holds the provider's tombstone makes a row retired. */
  lemma RetiredByConfirmation(cfg: Config, s: State, l: Label, n: State, k: IntentId)
    requires Inv(cfg, s) && n == Apply(cfg, s, l) && k in s.db.uploads && s.db.uploads[k].state != Retired
    requires k in n.db.uploads && n.db.uploads[k].state == Retired
    ensures l.ConfirmRetirement? && n.db == SetUpload(s.db, k, n.db.uploads[k]) && At(s.blobs, PlaceOf(s.db.uploads[k])).Tombstone?
    ensures n.db.uploads[k].owner == s.db.uploads[k].owner && n.db.uploads[k].file == s.db.uploads[k].file && n.db.uploads[k].size == s.db.uploads[k].size
  {
    hide Inv;
    if l.ConfirmRetirement? {
      hide OwnerLocked;
      ProcFacts(cfg, s, l.p);
    } else {
      OnlyConfirmationRetires(cfg, s, l, k);
    }
  }

  lemma OnlyConfirmationRetires(cfg: Config, s: State, l: Label, k: IntentId)
    requires !l.ConfirmRetirement? && k in s.db.uploads && s.db.uploads[k].state != Retired && k in Apply(cfg, s, l).db.uploads
    ensures Apply(cfg, s, l).db.uploads[k].state != Retired
  {
    hide Apply;
    StepEffect(cfg, s, l);
  }

  /** Between any two moments with no new reservation and no new confirmation, the footprint changes
      only by what other writers of files did, whatever was verified, finalized, adopted, purged,
      retried or lost in between. */
  lemma NothingElseMoves(cfg: Config, run: seq<Label>, more: seq<Label>, owner: string, s: Db, n: Db)
    requires s == Exec(cfg, Start, run).db && n == Exec(cfg, Start, run + more).db
    requires forall k :: k in n.uploads ==>
      if k in s.uploads then n.uploads[k].state == Retired ==> s.uploads[k].state == Retired
      else n.uploads[k].file.BareFile? && n.uploads[k].state != Retired
    ensures Footprint(n, owner) == Footprint(s, owner) + Edited(cfg, run, more, owner)
  {
    hide Exec, Footprint, Inv, Evolves, ReservedBytes, RetiredBytes, NoFileEdits, Edited;
    CapacityConserved(cfg, run, more, owner);
    assert DbGrows(s, n) by {
      hide DbGrows, BlobsGrow;
      Later(cfg, run, more);
    }
    SameLedger(s, n, owner);
  }

  /** A row of the earlier state, unless nothing of it is reserved or retired. */
  ghost predicate LedgerKept(s: Db, n: Db) {
    && (forall k :: k in s.uploads ==>
          k in n.uploads && n.uploads[k].owner == s.uploads[k].owner && ReservedSize(n.uploads[k]) == ReservedSize(s.uploads[k])
          && RetiredSize(n.uploads[k]) == RetiredSize(s.uploads[k]))
    && (forall k :: k in n.uploads && k !in s.uploads ==> ReservedSize(n.uploads[k]) == 0 && RetiredSize(n.uploads[k]) == 0)
  }

  lemma EvolvedLedger(r: Types.Upload, n: Types.Upload)
    requires Evolves(r, n) && (n.state == Retired ==> r.state == Retired)
    ensures n.owner == r.owner && ReservedSize(n) == ReservedSize(r) && RetiredSize(n) == RetiredSize(r)
  {
  }

  lemma LedgerSums(s: Db, n: Db, owner: string)
    requires LedgerKept(s, n)
    ensures ReservedBytes(n, owner) == ReservedBytes(s, owner) && RetiredBytes(n, owner) == RetiredBytes(s, owner)
  {
    hide ReservedSize, RetiredSize;
    Sums.SumExtend(PerRow(s, owner, ReservedSize), PerRow(n, owner, ReservedSize));
    Sums.SumExtend(PerRow(s, owner, RetiredSize), PerRow(n, owner, RetiredSize));
  }

  lemma SameLedger(s: Db, n: Db, owner: string)
    requires forall k :: k in s.uploads ==> k in n.uploads && Evolves(s.uploads[k], n.uploads[k])
    requires forall k :: k in n.uploads ==>
      if k in s.uploads then n.uploads[k].state == Retired ==> s.uploads[k].state == Retired
      else n.uploads[k].file.BareFile? && n.uploads[k].state != Retired
    ensures ReservedBytes(n, owner) == ReservedBytes(s, owner) && RetiredBytes(n, owner) == RetiredBytes(s, owner)
  {
    assert LedgerKept(s, n) by {
      forall k | k in s.uploads
        ensures k in n.uploads && n.uploads[k].owner == s.uploads[k].owner && ReservedSize(n.uploads[k]) == ReservedSize(s.uploads[k])
        ensures RetiredSize(n.uploads[k]) == RetiredSize(s.uploads[k])
      {
        hide Evolves;
        EvolvedLedger(s.uploads[k], n.uploads[k]);
      }
    }
    hide LedgerKept, ReservedBytes, RetiredBytes;
    LedgerSums(s, n, owner);
  }
}
