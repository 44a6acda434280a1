/** The whole life of a file: stored, retired and purged, it leaves its owner exactly the capacity it took. */
module Lifecycle {
  import opened Types
  import opened Sizes
  import opened Library
  import opened Journal
  import opened Protocol
  import opened Evolution
  import opened Invariant
  import opened Preservation
  import opened Resumption
  import opened Transactions
  import opened Progress
  import opened Capacity
  import Retirement

  /****** What a first call leaves ******/

  function RecordedFile(lib: Shelf, i: Intent): Shelf
    requires ValidIdentity(i.identity)
  {
    AppendFile(lib, i.file, RecordedRow(i))
  }

  function PresentedFile(lib: Shelf, i: Intent): Shelf
    requires ValidIdentity(i.identity)
  {
    AppendFile(RecordedFile(lib, i), i.file, RecordedRow(i).(status := "ready"))
  }

  lemma FreshRecorded(s: State, p: nat, i: Intent, n: State)
    requires p in s.procs && s.procs[p] == Finalizing(i, false, false, Read(None)) && ValidIdentity(i.identity) && !FileRetiring(s.db, i.file)
    requires n == DoFinalizeRead(DoFinalizeRecord(s, p, true), p)
    ensures n.db == s.db.(library := RecordedFile(s.db.library, i))
    ensures n.procs == s.procs[p := Finalizing(i, true, false, Read(Some(RecordedRow(i))))]
  {
    hide FileRetiring, RecordedRow;
    Appended(s.db.library, i.file, RecordedRow(i));
    hide AppendFile;
  }

  lemma FreshPromoted(s: State, p: nat, i: Intent, n: State)
    requires ValidIdentity(i.identity) && p in s.procs && s.procs[p] == Finalizing(i, true, false, Read(Some(RecordedRow(i))))
    requires !FileRetiring(s.db, i.file) && FileHead(s.db.library, i.file) == Some(RecordedRow(i))
    requires n == DoFinalizeRead(DoFinalizePromote(s, p, true), p)
    ensures n.db == s.db.(library := AppendFile(s.db.library, i.file, RecordedRow(i).(status := "ready")))
    ensures n.procs == s.procs[p := Finalizing(i, true, true, Read(Some(RecordedRow(i).(status := "ready"))))]
  {
    RecordedMatches(i);
    hide FileRetiring, RecordedRow, Matches;
    Appended(s.db.library, i.file, RecordedRow(i).(status := "ready"));
    hide AppendFile;
  }

  lemma FreshCommitted(s: State, p: nat, i: Intent, recorded: bool, promoted: bool, n: State)
    requires p in s.procs && ValidIdentity(i.identity) && i.id in s.db.uploads && s.db.uploads[i.id].generation == i.generation
    requires s.procs[p] == Finalizing(i, recorded, promoted, Read(Some(RecordedRow(i).(status := "ready"))))
    requires n == DoFinalizeCommit(s, p, true)
    ensures n.db == SetUpload(s.db, i.id, s.db.uploads[i.id].(state := Ready)) && n.procs == s.procs[p := StoreDone(i)]
  {
    RecordedMatches(i);
    StatusIrrelevant(RecordedRow(i), i);
    hide RecordedRow, Matches;
  }

  /** An undisturbed finalizer of a file that is not presented yet. */
  lemma FreshFinalized(s: State, p: nat, i: Intent, n: State)
    requires p in s.procs && s.procs[p] == Verified(i) && !OwnerLocked(s, i.identity.owner) && FinalizeCheck(s.db, i).Ok?
    requires ValidIdentity(i.identity) && !FileRetiring(s.db, i.file) && FileRows(s.db.library, i.file) == [] && n == FinalizeSteps(s, p)
    ensures i.id in s.db.uploads && n.procs == s.procs[p := StoreDone(i)]
    ensures n.db == SetUpload(s.db.(library := PresentedFile(s.db.library, i)), i.id, s.db.uploads[i.id].(state := Ready))
  {
    hide RecordedRow, FileRetiring, OwnerLocked, DoFinalizeBegin, DoFinalizeRead, DoFinalizeRecord, DoFinalizePromote, DoFinalizeCommit;
    Resumption.Begun(s, p, i);
    var read := DoFinalizeRead(DoFinalizeBegin(s, p), p);
    var recorded := DoFinalizeRead(DoFinalizeRecord(read, p, true), p);
    var promoted := DoFinalizeRead(DoFinalizePromote(recorded, p, true), p);
    FreshRecorded(read, p, i, recorded);
    SameTrigger(s.db, recorded.db, i.file);
    Appended(s.db.library, i.file, RecordedRow(i));
    hide AppendFile;
    FreshPromoted(recorded, p, i, promoted);
    FreshCommitted(promoted, p, i, true, true, n);
  }

  /** The row and the presentation a first call leaves. */
  ghost predicate FirstStored(db: Db, next: Db, k: IntentId, x: Identity, i: Intent) {
    && ValidIdentity(i.identity) && i.id == k && i.identity == x && i.file == DerivedFile(k) && i.url != NoUrl
    && k in next.uploads && next == SetUpload(db.(library := PresentedFile(db.library, i)), k, next.uploads[k])
    && next.uploads[k] == NewUpload(x).(url := i.url, etag := i.etag, state := Ready)
  }

  lemma FirstVerified(cfg: Config, s: State, p: nat, x: Identity, others: seq<Number>, etag: string, k: IntentId, n: State) returns (i: Intent)
    requires Inv(cfg, s) && CanCall(s, p, x) && etag != "" && k == IntentIdOf(x) && k !in s.db.uploads
    requires ScopeOf(x) !in s.db.fences && Admits(s.db, x.owner, x.size, others, cfg.quota)
    requires n == DoSaveVerified(DoUpload(DoReserve(cfg, s, p, x, others, true), p, etag, true, true), p, true)
    ensures i.id == k && i.identity == x && i.file == DerivedFile(k) && i.url != NoUrl && Inv(cfg, n)
    ensures p in n.procs && n.procs[p] == Verified(i) && FinalizeCheck(n.db, i).Ok? && !OwnerLocked(n, x.owner) && n.procs == s.procs[p := Verified(i)]
    ensures n.db == SetUpload(s.db, k, NewUpload(x).(url := i.url, etag := i.etag, state := BlobVerified))
  {
    hide Inv, OwnerLocked, DoReserve, DoUpload, DoSaveVerified, Admits, Grows;
    var admitted := DoReserve(cfg, s, p, x, others, true);
    var first := IntentOf(k, NewUpload(x));
    ReservedFirst(cfg, s, p, x, others, k);
    StillUnlocked(s, admitted, p, x.owner);
    ReserveKeeps(cfg, s, p, x, others, true);
    var uploaded := DoUpload(admitted, p, etag, true, true);
    UploadKeeps(cfg, admitted, p, etag, true, true);
    UploadedAgain(cfg, admitted, p, k, first, etag, uploaded);
    StillUnlocked(admitted, uploaded, p, x.owner);
    SaveVerifiedKeeps(cfg, uploaded, p, true);
    var url := ProviderUrl(PlaceOf(NewUpload(x)));
    SavedAgain(cfg, uploaded, p, k, first, uploaded.procs[p].etag, url);
    i := first.(url := url, etag := uploaded.procs[p].etag);
    StillUnlocked(uploaded, n, p, x.owner);
    assert SetUpload(SetUpload(s.db, k, NewUpload(x)), k, n.db.uploads[k]).uploads == s.db.uploads[k := n.db.uploads[k]];
  }

  /** An undisturbed, admitted first call leaves exactly one ready row and exactly the generated
      presentation of its file. */
  lemma FirstCallStores(cfg: Config, s: State, p: nat, x: Identity, others: seq<Number>, etag: string, k: IntentId, n: State) returns (i: Intent)
    requires Inv(cfg, s) && CanCall(s, p, x) && etag != "" && k == IntentIdOf(x) && k !in s.db.uploads
    requires ScopeOf(x) !in s.db.fences && Admits(s.db, x.owner, x.size, others, cfg.quota)
    requires n == FinalizeSteps(DoSaveVerified(DoUpload(DoReserve(cfg, s, p, x, others, true), p, etag, true, true), p, true), p)
    ensures FirstStored(s.db, n.db, k, x, i) && n.procs == s.procs[p := StoreDone(i)]
  {
    var verified := DoSaveVerified(DoUpload(DoReserve(cfg, s, p, x, others, true), p, etag, true, true), p, true);
    hide Inv, OwnerLocked, DoReserve, DoUpload, DoSaveVerified, FinalizeSteps, Admits, FileRetiring, FinalizeCheck, RecordedRow, AppendFile;
    i := FirstVerified(cfg, s, p, x, others, etag, k, verified);
    NewFileUnpresented(cfg, s, k);
    RowNotRetiring(cfg, verified, k);
    FreshFinalized(verified, p, i, n);
    assert n.db.uploads == s.db.uploads[k := n.db.uploads[k]];
  }

  /****** Stored, retired and purged ******/

  /** What a first call records is exactly what a retirement accepts. */
  lemma GeneratedUntouched(lib: Shelf, i: Intent)
    requires ValidIdentity(i.identity)
    requires FileRows(lib, i.file) == [] && EntryRows(lib, i.file) == [] && i.file !in lib.versioned
    ensures Untouched(PresentedFile(lib, i), i.file, i.identity, i.url)
  {
    var row := RecordedRow(i);
    assert FileRows(PresentedFile(lib, i), i.file) == [row, row.(status := "ready")];
    RecordedMatches(i);
    StatusIrrelevant(row, i);
    MatchesIffShows(row.(status := "ready"), i.identity, i.url);
  }

  /** Nobody can have pinned an intent before it existed. */
  lemma NewIntentUnpinned(cfg: Config, s: State, k: IntentId)
    requires Inv(cfg, s) && k !in s.db.uploads
    ensures forall key :: key in s.db.references && s.db.references[key].state == Active ==> k !in s.db.references[key].ids
  {
    hide Inv;
    forall key | key in s.db.references && s.db.references[key].state == Active ensures k !in s.db.references[key].ids {
      ReferenceFacts(cfg, s, key);
    }
  }

  lemma StoredIsRetirable(cfg: Config, s: State, mid: Db, k: IntentId, x: Identity, i: Intent)
    requires Inv(cfg, s) && k == IntentIdOf(x) && k !in s.db.uploads && FirstStored(s.db, mid, k, x, i)
    requires FileRows(s.db.library, DerivedFile(k)) == [] && EntryRows(s.db.library, DerivedFile(k)) == [] && DerivedFile(k) !in s.db.library.versioned
    ensures Retirable(mid, k)
  {
    hide Inv, PresentedFile, Untouched;
    GeneratedUntouched(s.db.library, i);
    NewIntentUnpinned(cfg, s, k);
  }

  lemma LedgerCloses(db: Db, n: Db, k: IntentId, r: Types.Upload, owner: string)
    requires k !in db.uploads && n.uploads == db.uploads[k := r] && r.file.DerivedFile? && r.state == Retired
    ensures ReservedBytes(n, owner) - ReservedBytes(db, owner) == RetiredBytes(n, owner) - RetiredBytes(db, owner)
  {
    PerRowSum(db, k, r, owner, ReservedSize);
    PerRowSum(db, k, r, owner, RetiredSize);
    assert PerRow(n, owner, ReservedSize) == PerRow(SetUpload(db, k, r), owner, ReservedSize);
    assert PerRow(n, owner, RetiredSize) == PerRow(SetUpload(db, k, r), owner, RetiredSize);
  }

  /** From every reachable state: an intent that can be stored, stored by an undisturbed call and then
      retired and purged by another, is gone. Its record stays, no other row, reference or fence
      differs, and every owner's footprint is what it was before. */
  lemma StoreThenRetire(cfg: Config, run: seq<Label>, p: nat, q: nat, x: Identity, others: seq<Number>, etag: string, token: string, tombstone: string,
                        k: IntentId, s: State, n: State, owner: string)
    requires s == Exec(cfg, Start, run) && k == IntentIdOf(x) && k !in s.db.uploads && CanCall(s, p, x) && q !in s.procs && q != p
    requires etag != "" && token != "" && tombstone != "" && ScopeOf(x) !in s.db.fences && FitsQuota(s.db, x.owner, x.size, others, cfg.quota)
    requires EntryRows(s.db.library, DerivedFile(k)) == [] && DerivedFile(k) !in s.db.library.versioned
    requires n == Exec(cfg, Start, run + StoreRun(p, x, others, etag) + RetireRun(q, ScopeOf(x), k, token, tombstone))
    ensures Retirement.Gone(n, k) && n.db.uploads[k].identity == x && OnlyUpload(s.db, n.db, k)
    ensures n.db.references == s.db.references && n.db.fences == s.db.fences
    ensures Footprint(n.db, owner) == Footprint(s.db, owner)
  {
    hide Exec, Inv, FitsQuota, StoreRun, RetireRun, Footprint, FirstStored, Retirement.Gone, Admits, Retirable, OwnerLocked;
    ReachableInv(cfg, run);
    var stored := run + StoreRun(p, x, others, etag);
    var mid := Exec(cfg, Start, stored);
    AdmissionExact(s.db, x.owner, x.size, others, cfg.quota);
    var i := StoredFirst(cfg, run, p, x, others, etag, k, s, mid);
    StoredThenGone(cfg, stored, s, mid, p, q, x, token, tombstone, k, i, n);
    CallsEditNothing(p, q, x, others, etag, ScopeOf(x), k, token, tombstone);
    FootprintReturns(cfg, run, StoreRun(p, x, others, etag), RetireRun(q, ScopeOf(x), k, token, tombstone), k, s, n, owner);
  }

  lemma StoredFirst(cfg: Config, run: seq<Label>, p: nat, x: Identity, others: seq<Number>, etag: string, k: IntentId, s: State, mid: State) returns (i: Intent)
    requires s == Exec(cfg, Start, run) && Inv(cfg, s) && k == IntentIdOf(x) && k !in s.db.uploads && CanCall(s, p, x) && etag != ""
    requires ScopeOf(x) !in s.db.fences && Admits(s.db, x.owner, x.size, others, cfg.quota)
    requires mid == Exec(cfg, Start, run + StoreRun(p, x, others, etag))
    ensures FirstStored(s.db, mid.db, k, x, i) && mid.procs == s.procs[p := StoreDone(i)]
  {
    ExecConcat(cfg, Start, run, StoreRun(p, x, others, etag));
    StoreSteps(cfg, s, p, x, others, etag);
    hide Exec, Inv, StoreRun, FirstStored, Admits, CanCall, FinalizeSteps, DoSaveVerified, DoUpload, DoReserve;
    i := FirstCallStores(cfg, s, p, x, others, etag, k, mid);
  }

  lemma StoredThenGone(cfg: Config, stored: seq<Label>, s: State, mid: State, p: nat, q: nat, x: Identity, token: string, tombstone: string,
                       k: IntentId, i: Intent, n: State)
    requires Inv(cfg, s) && mid == Exec(cfg, Start, stored) && FirstStored(s.db, mid.db, k, x, i) && mid.procs == s.procs[p := StoreDone(i)]
    requires k == IntentIdOf(x) && k !in s.db.uploads && q !in s.procs && q != p && token != "" && tombstone != "" && !OwnerLocked(s, x.owner)
    requires EntryRows(s.db.library, DerivedFile(k)) == [] && DerivedFile(k) !in s.db.library.versioned
    requires n == Exec(cfg, Start, stored + RetireRun(q, ScopeOf(x), k, token, tombstone))
    ensures Retirement.Gone(n, k) && n.db.uploads == s.db.uploads[k := n.db.uploads[k]] && n.db.uploads[k].identity == x
    ensures n.db.uploads[k].state == Retired && n.db.uploads[k].file == DerivedFile(k)
    ensures n.db.references == s.db.references && n.db.fences == s.db.fences
  {
    hide Exec, Inv, RetireRun, Retirement.Gone, Retirable;
    NewFileUnpresented(cfg, s, k);
    StoredIsRetirable(cfg, s, mid.db, k, x, i);
    StillUnlocked(s, mid, p, x.owner);
    hide PresentedFile, OwnerLocked;
    RetirementRuns(cfg, stored, k, q, token, tombstone, ScopeOf(x), mid, n);
    assert n.db.uploads.Keys == s.db.uploads.Keys + {k};
  }

  lemma FootprintReturns(cfg: Config, run: seq<Label>, store: seq<Label>, retire: seq<Label>, k: IntentId, s: State, n: State, owner: string)
    requires s == Exec(cfg, Start, run) && n == Exec(cfg, Start, run + store + retire) && NoFileEdits(store) && NoFileEdits(retire)
    requires k !in s.db.uploads && k in n.db.uploads && n.db.uploads == s.db.uploads[k := n.db.uploads[k]]
    requires n.db.uploads[k].state == Retired && n.db.uploads[k].file.DerivedFile?
    ensures Footprint(n.db, owner) == Footprint(s.db, owner)
  {
    hide Exec, Footprint, ReservedBytes, RetiredBytes, Edited;
    assert run + store + retire == run + (store + retire);
    CapacityConserved(cfg, run, store + retire, owner);
    LedgerCloses(s.db, n.db, k, n.db.uploads[k], owner);
  }

  lemma CallsEditNothing(p: nat, q: nat, x: Identity, others: seq<Number>, etag: string, scope: Scope, k: IntentId, token: string, tombstone: string)
    ensures NoFileEdits(StoreRun(p, x, others, etag)) && NoFileEdits(RetireRun(q, scope, k, token, tombstone))
  {
  }
}
