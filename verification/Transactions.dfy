/** What each transaction of the journal decides and changes, in every reachable state, spelled out over
    the tables themselves. */
module Transactions {
  import opened Types
  import opened Sizes
  import opened Library
  import opened Journal
  import opened Protocol
  import opened Evolution
  import opened Invariant
  import opened Preservation
  import opened Orders
  import Cleanup
  import Guarantees
  import Resumption
  import Steps
  import Sums

  /** No table but the uploads differs, and there only row k does. */
  ghost predicate OnlyRow(db: Db, next: Db, k: IntentId) {
    && next.references == db.references && next.fences == db.fences && next.library == db.library
    && OnlyUpload(db, next, k)
  }

  ghost predicate OnlyUpload(db: Db, next: Db, k: IntentId) {
    && k in next.uploads && next.uploads.Keys == db.uploads.Keys + {k}
    && forall q :: q in db.uploads && q != k ==> next.uploads[q] == db.uploads[q]
  }

  /****** Identities ******/

  /** Two identities are the same intent exactly when owner, run, step, attempt and path agree, and in the
      same producer scope exactly when the first four do. */
  lemma IdentityFields(x: Identity, y: Identity)
    ensures ScopeOf(x) == ScopeOf(y) <==> x.owner == y.owner && x.run == y.run && x.step == y.step && x.attempt == y.attempt
    ensures IntentIdOf(x) == IntentIdOf(y) <==>
      x.owner == y.owner && x.run == y.run && x.step == y.step && x.attempt == y.attempt && x.path == y.path
  {
  }

  /** The sizes and attempts the journal takes. */
  lemma IdentityBounds(x: Identity)
    ensures ValidIdentity(x) <==> 0 <= x.size <= 2147483648 && 1 <= x.attempt
  {
  }

  /****** Verification and finalization ******/

  /** A verified object is recorded exactly for the generation that holds the row, short of retirement, and
      only as the version that is recorded already, if one is. */
  lemma SaveExact(db: Db, i: Intent, url: Url, etag: string, tx: Tx<()>)
    requires tx == Journal.SaveVerified(db, i, url, etag)
    ensures tx.Commit? <==>
      && i.id in db.uploads && db.uploads[i.id].generation == i.generation
      && (db.uploads[i.id].state == Reserved || db.uploads[i.id].state == BlobVerified || db.uploads[i.id].state == Ready)
      && (db.uploads[i.id].etag == "" || (db.uploads[i.id].etag == etag && db.uploads[i.id].url == url))
    ensures tx.Commit? ==>
      && OnlyRow(db, tx.db, i.id)
      && tx.db.uploads[i.id] == db.uploads[i.id].(url := url, etag := etag, state := if db.uploads[i.id].state == Ready then Ready else BlobVerified)
  {
  }

  /** A finalizer goes on exactly with the generation that holds the row, verified, and its own receipt;
      its last statement makes exactly that row ready. */
  lemma FinalizeExact(db: Db, i: Intent)
    ensures FinalizeCheck(db, i).Ok? <==>
      && i.id in db.uploads && db.uploads[i.id].generation == i.generation
      && (db.uploads[i.id].state == BlobVerified || db.uploads[i.id].state == Ready)
      && db.uploads[i.id].etag == i.etag && db.uploads[i.id].url == i.url
    ensures i.id in db.uploads && db.uploads[i.id].generation == i.generation ==>
      OnlyRow(db, Journal.FinalizeCommit(db, i), i.id) && Journal.FinalizeCommit(db, i).uploads[i.id] == db.uploads[i.id].(state := Ready)
    ensures !(i.id in db.uploads && db.uploads[i.id].generation == i.generation) ==> Journal.FinalizeCommit(db, i) == db
  {
  }

  /****** Retirement ******/

  /** A retirement is confirmed exactly for the generation and the lease that hold the row. */
  lemma ConfirmExact(db: Db, i: Intent, token: string, etag: string, tx: Tx<()>)
    requires tx == Journal.ConfirmRetirement(db, i, token, etag)
    ensures tx.Commit? <==>
      && i.id in db.uploads && db.uploads[i.id].generation == i.generation && db.uploads[i.id].lease == token
      && (db.uploads[i.id].state == Retiring || db.uploads[i.id].state == Retired)
    ensures tx.Commit? ==> OnlyRow(db, tx.db, i.id) && tx.db.uploads[i.id] == db.uploads[i.id].(state := Retired, retiredEtag := etag)
  {
  }

  /** A retirement may begin: nobody pins the intent and nobody but the pipeline touched the file. */
  ghost predicate Retirable(db: Db, k: IntentId)
    requires k in db.uploads
  {
    && (forall key :: key in db.references && db.references[key].state == Active ==> k !in db.references[key].ids)
    && Untouched(db.library, db.uploads[k].file, db.uploads[k].identity, db.uploads[k].url)
  }

  lemma PinsDecide(cfg: Config, s: State, k: IntentId)
    requires Inv(cfg, s) && k in s.db.uploads
    ensures PinnedFor(s.db, s.db.uploads[k].identity.owner, k) <==>
      exists key :: key in s.db.references && s.db.references[key].state == Active && k in s.db.references[key].ids
  {
    hide BlobInv, ProcInv, QuotaInv;
    assert RowOk(k, s.db.uploads[k]);
    OwnerFilterMissesNoPin(s.db, k);
  }

  /** What the first phase of a retirement decides and changes. */
  lemma BeginDecides(cfg: Config, s: State, scope: Scope, k: IntentId, token: string, tx: Tx<Begun>)
    requires Inv(cfg, s) && tx == Journal.BeginRetirement(s.db, scope, k, token)
    ensures tx.Commit? <==>
      k in s.db.uploads && scope == ScopeOf(s.db.uploads[k].identity) && (InRetirement(s.db.uploads[k].state) || Retirable(s.db, k))
    ensures tx.Commit? && InRetirement(s.db.uploads[k].state) ==>
      tx.db == s.db && tx.value.token == s.db.uploads[k].lease && tx.value.retiredEtag == s.db.uploads[k].retiredEtag
    ensures tx.Commit? && !InRetirement(s.db.uploads[k].state) ==>
      && OnlyRow(s.db, tx.db, k) && tx.value.token == token
      && tx.db.uploads[k] == s.db.uploads[k].(state := Retiring, generation := s.db.uploads[k].generation + 1, lease := token)
    ensures tx.Commit? ==> tx.value.intent == IntentOf(k, tx.db.uploads[k])
  {
    hide Inv, Journal.BeginRetirement;
    if k !in s.db.uploads {
      BeginUnknown(s.db, scope, k, token);
    } else {
      var r := s.db.uploads[k];
      RowFacts(cfg, s, k);
      PinsDecide(cfg, s, k);
      if InRetirement(r.state) {
        NotPinnedInRetirement(cfg, s, k);
        BeginTaken(s.db, scope, k, token);
      } else {
        CheckedIffUntouched(s.db.library, r.file, r.identity, r.url);
        BeginFresh(s.db, scope, k, token);
      }
      hide PinnedFor, CheckRetirement, Untouched, RowOk;
    }
  }

  lemma BeginUnknown(db: Db, scope: Scope, k: IntentId, token: string)
    requires k !in db.uploads
    ensures Journal.BeginRetirement(db, scope, k, token).Rollback?
  {
  }

  lemma BeginTaken(db: Db, scope: Scope, k: IntentId, token: string)
    requires k in db.uploads && RowOk(k, db.uploads[k]) && InRetirement(db.uploads[k].state) && !PinnedFor(db, db.uploads[k].identity.owner, k)
    ensures
      var tx, r := Journal.BeginRetirement(db, scope, k, token), db.uploads[k];
      && (tx.Commit? <==> scope == ScopeOf(r.identity))
      && (tx.Commit? ==> tx.db == db && tx.value == Begun(IntentOf(k, r), r.lease, r.retiredEtag))
  {
    hide PinnedFor, CheckRetirement;
  }

  lemma BeginFresh(db: Db, scope: Scope, k: IntentId, token: string)
    requires k in db.uploads && k == IntentIdOf(db.uploads[k].identity) && !InRetirement(db.uploads[k].state)
    ensures
      var tx, r := Journal.BeginRetirement(db, scope, k, token), db.uploads[k];
      var next := r.(state := Retiring, generation := r.generation + 1, lease := token);
      && (tx.Commit? <==> scope == ScopeOf(r.identity) && !PinnedFor(db, r.identity.owner, k) && CheckRetirement(db.library, r.file, r.identity, r.url) == None)
      && (tx.Commit? ==> tx.db == SetUpload(db, k, next) && tx.value == Begun(IntentOf(k, next), token, r.retiredEtag))
  {
    hide PinnedFor, CheckRetirement;
  }

  lemma NotPinnedInRetirement(cfg: Config, s: State, k: IntentId)
    requires Inv(cfg, s) && k in s.db.uploads
    ensures InRetirement(s.db.uploads[k].state) ==>
      forall key :: key in s.db.references && s.db.references[key].state == Active ==> k !in s.db.references[key].ids
  {
    hide Inv;
    forall key | key in s.db.references && s.db.references[key].state == Active && InRetirement(s.db.uploads[k].state)
      ensures k !in s.db.references[key].ids
    {
      ReferenceFacts(cfg, s, key);
    }
  }

  /** In every reachable state, whoever asks: a retirement begins, or is taken up again, exactly when it
      is asked for in the intent's own scope and it is under way already, or the intent is not pinned
      by anybody and its file was touched by nobody but the pipeline. Beginning changes exactly the
      intent's row: its state, its generation by one, and its lease, which is the token returned. */
  lemma BeginExact(cfg: Config, run: seq<Label>, scope: Scope, k: IntentId, token: string, db: Db, tx: Tx<Begun>)
    requires db == Exec(cfg, Start, run).db && tx == Journal.BeginRetirement(db, scope, k, token)
    ensures tx.Commit? <==>
      k in db.uploads && scope == ScopeOf(db.uploads[k].identity) && (InRetirement(db.uploads[k].state) || Retirable(db, k))
    ensures tx.Commit? && InRetirement(db.uploads[k].state) ==>
      tx.db == db && tx.value.token == db.uploads[k].lease && tx.value.retiredEtag == db.uploads[k].retiredEtag
    ensures tx.Commit? && !InRetirement(db.uploads[k].state) ==>
      && OnlyRow(db, tx.db, k) && tx.value.token == token
      && tx.db.uploads[k] == db.uploads[k].(state := Retiring, generation := db.uploads[k].generation + 1, lease := token)
  {
    hide Exec, Inv, Journal.BeginRetirement;
    ReachableInv(cfg, run);
    BeginDecides(cfg, Exec(cfg, Start, run), scope, k, token, tx);
  }

  /** In every reachable state a purge commits exactly for a retired intent asked for in its own scope. It
      leaves no version of the file or of its entry, nothing else of the Library changes, and the
      journal's row only gets its purge mark. */
  lemma PurgeExact(cfg: Config, run: seq<Label>, scope: Scope, k: IntentId, db: Db, tx: Tx<()>)
    requires db == Exec(cfg, Start, run).db && tx == Journal.Purge(db, scope, k)
    ensures tx.Commit? <==> k in db.uploads && scope == ScopeOf(db.uploads[k].identity) && db.uploads[k].state == Retired
    ensures tx.Commit? ==>
      && OnlyUpload(db, tx.db, k) && tx.db.uploads[k] == db.uploads[k].(purged := true)
      && tx.db.references == db.references && tx.db.fences == db.fences && tx.db.library.versioned == db.library.versioned
      && FileRows(tx.db.library, db.uploads[k].file) == [] && EntryRows(tx.db.library, db.uploads[k].file) == []
      && forall f :: f != db.uploads[k].file ==>
           FileRows(tx.db.library, f) == FileRows(db.library, f) && EntryRows(tx.db.library, f) == EntryRows(db.library, f)
  {
    var s := Exec(cfg, Start, run);
    ReachableInv(cfg, run);
    hide Exec, Inv;
    if k in db.uploads {
      var r := db.uploads[k];
      RowFacts(cfg, s, k);
      if r.state == Retired {
        FrozenFacts(cfg, s, k);
        PurgeLeavesNoHead(db.library, r.file, r.identity, r.url);
      }
      hide CheckRetirement, RowOk, Fits;
    }
  }

  /****** Fences ******/

  /** In every reachable state a fence commits; the scope is then fenced, no other fence and no other
      table differs. */
  lemma FenceExact(cfg: Config, run: seq<Label>, scope: Scope, db: Db, tx: Tx<()>)
    requires db == Exec(cfg, Start, run).db && tx == Journal.Fence(db, scope)
    ensures tx.Commit? && scope in tx.db.fences && tx.db.fences[scope].owner == scope.owner && tx.db.fences[scope].scope == scope
    ensures tx.db.fences.Keys == db.fences.Keys + {scope} && forall f :: f in db.fences ==> tx.db.fences[f] == db.fences[f]
    ensures tx.db.uploads == db.uploads && tx.db.references == db.references && tx.db.library == db.library
  {
    hide Exec, Inv;
    ReachableInv(cfg, run);
    Cleanup.FencesFacts(cfg, Exec(cfg, Start, run));
  }

  /****** Reservation ******/

  /** The journal takes a new row exactly when its id, its file and its object are new, its size is within
      bounds, and no fence of its owner covers its run, step and attempt. */
  lemma InsertExact(db: Db, k: IntentId, r: Types.Upload, tx: Tx<()>)
    requires tx == InsertUpload(db, k, r)
    ensures tx.Commit? <==>
      && k !in db.uploads && (forall q :: q in db.uploads ==> db.uploads[q].file != r.file && db.uploads[q].obj != r.obj)
      && 0 <= r.size <= 2147483648
      && forall f :: f in db.fences && db.fences[f].owner == r.owner ==>
           !(db.fences[f].scope.run == r.identity.run && db.fences[f].scope.step == r.identity.step && db.fences[f].scope.attempt == r.identity.attempt)
    ensures tx.Commit? ==> OnlyRow(db, tx.db, k) && tx.db.uploads[k] == r
  {
  }

  /** The row a first reservation leaves. */
  ghost predicate FreshRow(r: Types.Upload, x: Identity) {
    && r.owner == x.owner && r.identity == x && r.size == x.size
    && r.file == DerivedFile(IntentIdOf(x)) && r.obj.owner == x.owner && r.obj.file == r.file && r.obj.name == x.name
    && r.generation == 1 && r.state == Reserved && r.url == NoUrl && r.etag == ""
    && r.lease == "" && r.retiredEtag == "" && !r.purged
  }

  /** The sizes of an owner's journal rows that are not retired. */
  ghost function HeldRows(db: Db, owner: string): map<IntentId, int> {
    map k | k in db.uploads && db.uploads[k].owner == owner && db.uploads[k].state != Retired :: db.uploads[k].size
  }

  /** The sizes of an owner's current files that no journal row of the same file accounts for. */
  ghost function HeldFiles(db: Db, owner: string): map<FileId, int> {
    map f | f in db.library.files && HeadOf(db, owner, f).Some? && !AlreadyCounted(db, owner, f) :: SizeOf(HeadOf(db, owner, f).value.size)
  }

  ghost function OtherSizes(others: seq<Number>): map<int, int> {
    map i | 0 <= i < |others| :: SizeOf(others[i])
  }

  /** Every size is readable, and the new bytes fit beside all that the owner holds. */
  ghost predicate FitsQuota(db: Db, owner: string, size: int, others: seq<Number>, quota: int) {
    && 0 <= size
    && (forall f :: f in db.library.files && HeadOf(db, owner, f).Some? ==> QuotaSize(HeadOf(db, owner, f).value.size).Some?)
    && (forall i :: 0 <= i < |others| ==> QuotaSize(others[i]).Some?)
    && size + Sums.Sum(HeldRows(db, owner)) + Sums.Sum(HeldFiles(db, owner)) + Sums.Sum(OtherSizes(others)) <= quota
  }

  function SizeOf(v: Number): int {
    if QuotaSize(v).Some? then QuotaSize(v).value as int else 0
  }

  /** The current row of a file, if it is this owner's. */
  function HeadOf(db: Db, owner: string, f: FileId): Option<FileRow> {
    var rows := FileRows(db.library, f);
    if rows != [] && rows[|rows| - 1].owner == Some(owner) then Some(rows[|rows| - 1]) else None
  }

  /** A journal row of the owner for this very file holds the bytes its current row names. */
  ghost predicate AlreadyCounted(db: Db, owner: string, f: FileId) {
    exists k :: k in db.uploads && db.uploads[k].owner == owner && db.uploads[k].file == f
      && HeadOf(db, owner, f).Some? && db.uploads[k].url != NoUrl
      && HeadOf(db, owner, f).value.url == db.uploads[k].url && HeadOf(db, owner, f).value.sha == db.uploads[k].identity.sha
      && SizeOf(HeadOf(db, owner, f).value.size) == db.uploads[k].size
  }

  lemma RowsHeld(db: Db, owner: string)
    ensures Sums.Sum(HeldRows(db, owner)) == Sums.Sum(JournalCharges(db, owner))
  {
    Sums.SumExtend(HeldRows(db, owner), JournalCharges(db, owner));
  }

  lemma FileHeld(db: Db, owner: string, f: FileId)
    ensures OwnedFile(db, owner, f) <==> HeadOf(db, owner, f).Some?
    ensures OwnedFile(db, owner, f) ==> FileHead(db.library, f) == HeadOf(db, owner, f)
    ensures OwnedFile(db, owner, f) ==>
      FileCharge(db, owner, f, FileHead(db.library, f).value) == if AlreadyCounted(db, owner, f) then 0 else SizeOf(HeadOf(db, owner, f).value.size)
  {
    if OwnedFile(db, owner, f) && QuotaSize(FileHead(db.library, f).value.size).Some? {
      var row := FileHead(db.library, f).value;
      assert AlreadyCounted(db, owner, f) <==> Deduplicated(db, owner, f, row) by {
        assert forall k :: k in db.uploads ==> (Names(row, db.uploads[k]) <==>
          db.uploads[k].url != NoUrl && row.url == db.uploads[k].url && row.sha == db.uploads[k].identity.sha && SizeOf(row.size) == db.uploads[k].size);
      }
    }
  }

  lemma FilesHeld(db: Db, owner: string)
    ensures Sums.Sum(HeldFiles(db, owner)) == Sums.Sum(LibraryCharges(db, owner))
    ensures FilesReadable(db, owner) <==>
      forall f :: f in db.library.files && HeadOf(db, owner, f).Some? ==> QuotaSize(HeadOf(db, owner, f).value.size).Some?
  {
    forall f ensures OwnedFile(db, owner, f) <==> HeadOf(db, owner, f).Some?
      ensures OwnedFile(db, owner, f) ==> FileHead(db.library, f) == HeadOf(db, owner, f)
      ensures OwnedFile(db, owner, f) ==>
        FileCharge(db, owner, f, FileHead(db.library, f).value) == if AlreadyCounted(db, owner, f) then 0 else SizeOf(HeadOf(db, owner, f).value.size)
    {
      FileHeld(db, owner, f);
    }
    hide AlreadyCounted, HeadOf, FileHead, SizeOf, FileCharge, OwnedFile, QuotaSize;
    Sums.SumExtend(HeldFiles(db, owner), LibraryCharges(db, owner));
  }

  lemma {:induction false} OthersHeld(others: seq<Number>)
    requires Readable(others)
    ensures Sums.Sum(OtherSizes(others)) == Total(others)
  {
    if others == [] {
      assert OtherSizes(others) == map[];
    } else {
      var n := |others| - 1;
      OthersHeld(others[..n]);
      assert OtherSizes(others) == OtherSizes(others[..n])[n := SizeOf(others[n])];
      Sums.SumUpdate(OtherSizes(others[..n]), n, SizeOf(others[n]));
    }
  }

  /** Admission accepts exactly when every size is readable and the new file fits the quota beside the
      owner's rows that are not retired, the owner's current files that do not present exactly those
      bytes, and all superseded versions and open sessions. */
  lemma AdmissionExact(db: Db, owner: string, size: int, others: seq<Number>, quota: int)
    ensures Admits(db, owner, size, others, quota) <==> FitsQuota(db, owner, size, others, quota)
  {
    RowsHeld(db, owner);
    FilesHeld(db, owner);
    if Readable(others) {
      OthersHeld(others);
    }
    hide HeldRows, HeldFiles, OtherSizes, JournalCharges, LibraryCharges, FilesReadable, QuotaSize, HeadOf;
  }

  /** In every reachable state a reservation commits exactly when its scope is not fenced and its intent
      is new and fits the quota, or is the same identity and not in retirement. A new intent gets a
      fresh row; an existing one only a generation greater by one. Nothing else changes. */
  lemma ReserveExact(cfg: Config, run: seq<Label>, x: Identity, others: seq<Number>, s: State, tx: Tx<Intent>, k: IntentId)
    requires s == Exec(cfg, Start, run) && tx == Journal.Reserve(s.db, x, others, cfg.quota) && ValidIdentity(x) && k == IntentIdOf(x)
    ensures tx.Commit? <==>
      && ScopeOf(x) !in s.db.fences
      && if k in s.db.uploads then s.db.uploads[k].identity == x && !InRetirement(s.db.uploads[k].state)
         else FitsQuota(s.db, x.owner, x.size, others, cfg.quota)
    ensures tx.Commit? ==> OnlyRow(s.db, tx.db, k) && tx.value == IntentOf(k, tx.db.uploads[k])
    ensures tx.Commit? && k in s.db.uploads ==> tx.db.uploads[k] == s.db.uploads[k].(generation := s.db.uploads[k].generation + 1)
    ensures tx.Commit? && k !in s.db.uploads ==> FreshRow(tx.db.uploads[k], x)
  {
    hide Exec, Inv;
    ReachableInv(cfg, run);
    ReserveDecides(cfg, s, x, others, tx, k);
  }

  lemma ReserveDecides(cfg: Config, s: State, x: Identity, others: seq<Number>, tx: Tx<Intent>, k: IntentId)
    requires Inv(cfg, s) && tx == Journal.Reserve(s.db, x, others, cfg.quota) && ValidIdentity(x) && k == IntentIdOf(x)
    ensures tx.Commit? <==>
      && ScopeOf(x) !in s.db.fences
      && if k in s.db.uploads then s.db.uploads[k].identity == x && !InRetirement(s.db.uploads[k].state)
         else FitsQuota(s.db, x.owner, x.size, others, cfg.quota)
    ensures tx.Commit? ==> OnlyRow(s.db, tx.db, k) && tx.value == IntentOf(k, tx.db.uploads[k])
    ensures tx.Commit? && k in s.db.uploads ==> tx.db.uploads[k] == s.db.uploads[k].(generation := s.db.uploads[k].generation + 1)
    ensures tx.Commit? && k !in s.db.uploads ==> FreshRow(tx.db.uploads[k], x)
  {
    hide Inv;
    AdmissionExact(s.db, x.owner, x.size, others, cfg.quota);
    hide Admits, FitsQuota;
    Cleanup.FencesFacts(cfg, s);
    if ScopeOf(x) in s.db.fences {
      Cleanup.FenceTriggers(s.db, x);
    } else {
      Resumption.UnfencedNotTriggered(s.db, x);
      if k !in s.db.uploads {
        Resumption.NewRowInserts(cfg, s, x, k);
      } else {
        RowFacts(cfg, s, k);
      }
    }
    hide FencedByTrigger, InsertUpload, FencesOk;
  }

  /****** References ******/

  ghost predicate SortedSets(cfg: Config, db: Db) {
    forall key :: key in db.references ==> Increasing(cfg.less, db.references[key].ids)
  }

  lemma ChangeKeepsSorted(cfg: Config, db: Db, scope: Scope, reference: string, ids: seq<IntentId>, release: bool)
    requires StrictTotal(cfg.less) && SortedSets(cfg, db)
    ensures
      var tx := Journal.ChangeReference(db, cfg.less, scope, reference, ids, release);
      tx.Commit? ==> SortedSets(cfg, tx.db)
  {
    if ValidIds(ids) {
      SortIncreasing(cfg.less, ids);
    }
    hide Increasing, PinRefusal, ReadReceipts, Sort, StrictTotal;
  }

  /** In every reachable state the ids of a stored reference are listed in increasing order. */
  lemma {:induction false} ReferencesSorted(cfg: Config, run: seq<Label>)
    requires StrictTotal(cfg.less)
    ensures SortedSets(cfg, Exec(cfg, Start, run).db)
  {
    if run != [] {
      var n := |run| - 1;
      var s, l := Exec(cfg, Start, run[..n]), run[n];
      ReferencesSorted(cfg, run[..n]);
      hide Increasing, StrictTotal;
      if l.ChangeReference? {
        hide Journal.ChangeReference, OwnerLocked;
        ChangeKeepsSorted(cfg, s.db, l.scope, l.reference, l.ids, l.release);
      } else {
        hide Apply;
        Steps.StepEffect(cfg, s, l);
      }
    }
  }

  /** A listing in increasing order is the request's, sorted, exactly when it has the same ids. */
  lemma SameSet(less: (IntentId, IntentId) -> bool, stored: seq<IntentId>, ids: seq<IntentId>)
    requires StrictTotal(less) && Increasing(less, stored) && Distinct(ids)
    ensures stored == Sort(less, ids) <==> Elements(stored) == Elements(ids)
    ensures Increasing(less, Sort(less, ids)) && Elements(Sort(less, ids)) == Elements(ids)
  {
    SortElements(less, ids);
    SortIncreasing(less, ids);
    if Elements(stored) == Elements(ids) {
      IncreasingUnique(less, stored, Sort(less, ids));
    }
  }

  /** A well-formed request: between 1 and 1024 different ids and a bounded consumer identity. */
  ghost predicate WellFormed(reference: string, ids: seq<IntentId>) {
    1 <= |ids| <= 1024 && (forall i, j :: 0 <= i < j < |ids| ==> ids[i] != ids[j]) && 1 <= |reference| <= 512
  }

  /** The reference is new, or was recorded for the same ids. */
  ghost predicate SameRequest(db: Db, key: RefKey, ids: seq<IntentId>) {
    key in db.references ==> forall k :: k in db.references[key].ids <==> k in ids
  }

  /** Exactly one reference differs: it holds the same ids as the request, in the given state. */
  ghost predicate OnlyReference(db: Db, next: Db, key: RefKey, ids: seq<IntentId>, state: RefState) {
    && next.uploads == db.uploads && next.fences == db.fences && next.library == db.library
    && next.references.Keys == db.references.Keys + {key} && (forall q :: q in db.references && q != key ==> next.references[q] == db.references[q])
    && next.references[key].state == state && next.references[key].scope == key.scope && next.references[key].reference == key.reference
    && next.references[key].owner == key.scope.owner && forall k :: k in next.references[key].ids <==> k in ids
  }

  /** What is stored under the request's key, and how it compares with the sorted request. */
  lemma StoredRequest(cfg: Config, run: seq<Label>, key: RefKey, ids: seq<IntentId>, db: Db, sorted: seq<IntentId>)
    requires db == Exec(cfg, Start, run).db && StrictTotal(cfg.less) && Distinct(ids) && sorted == Sort(cfg.less, ids)
    ensures forall k :: k in sorted <==> k in ids
    ensures key in db.references ==> db.references[key].owner == key.scope.owner && db.references[key].scope == key.scope && db.references[key].reference == key.reference
    ensures if key in db.references then db.references[key].ids == sorted <==> SameRequest(db, key, ids) else SameRequest(db, key, ids)
  {
    SortElements(cfg.less, ids);
    assert forall k :: k in sorted <==> k in Elements(sorted);
    assert forall k :: k in ids <==> k in Elements(ids);
    if key in db.references {
      var stored := db.references[key].ids;
      ReferencesSorted(cfg, run);
      ReachableInv(cfg, run);
      hide Exec, Inv, Sort, StrictTotal, Increasing;
      ReferenceFacts(cfg, Exec(cfg, Start, run), key);
      SameSet(cfg.less, stored, ids);
      assert forall k :: k in stored <==> k in Elements(stored);
    }
  }

  /** In every reachable state a release commits exactly when it is well formed and the reference is new
      or was recorded for the same ids; the reference is then released, and nothing else differs. */
  lemma ReleaseExact(cfg: Config, run: seq<Label>, scope: Scope, reference: string, ids: seq<IntentId>, db: Db, tx: Tx<seq<Receipt>>)
    requires db == Exec(cfg, Start, run).db && StrictTotal(cfg.less)
    requires tx == Journal.ChangeReference(db, cfg.less, scope, reference, ids, true)
    ensures tx.Commit? <==> WellFormed(reference, ids) && SameRequest(db, RefKey(scope, reference), ids)
    ensures tx.Commit? ==> OnlyReference(db, tx.db, RefKey(scope, reference), ids, Released) && tx.value == []
  {
    var key := RefKey(scope, reference);
    if Distinct(ids) {
      StoredRequest(cfg, run, key, ids, db, Sort(cfg.less, ids));
    }
    hide Exec, Sort, StrictTotal, SameRequest, PinRefusal, ReadReceipts;
  }

  /** Pinnable and selected are both: ready in the scope. */
  lemma PinsReady(cfg: Config, run: seq<Label>, scope: Scope, ids: seq<IntentId>, sorted: seq<IntentId>, db: Db)
    requires db == Exec(cfg, Start, run).db && forall k :: k in sorted <==> k in ids
    ensures PinRefusal(db, scope, sorted) == None && ReadReceipts(db, scope, ids).Ok? <==> forall k :: k in ids ==> Guarantees.ReadyIn(db, scope, k)
    ensures PinRefusal(db, scope, sorted) == None ==> ReadReceipts(db, scope, ids).Ok?
  {
    Guarantees.ReceiptsExact(cfg, run, scope, ids, db, ReadReceipts(db, scope, ids));
    PinnableAll(db, scope, sorted);
    Guarantees.RowsFacts(cfg, run);
    hide Exec, PinRefusal, ReadReceipts;
    forall k ensures Pinnable(db, scope, k) <==> Guarantees.ReadyIn(db, scope, k) {
      assert k in db.uploads ==> RowOk(k, db.uploads[k]);
    }
    hide Pinnable, Guarantees.ReadyIn, RowsOk;
    assert forall k :: k in ids <==> exists i :: 0 <= i < |ids| && ids[i] == k;
  }

  /** In every reachable state a pin commits exactly when it is well formed, the reference is new or was
      recorded for the same ids and never released, and every id is ready in the scope; the reference
      is then active, and nothing else differs. */
  lemma PinExact(cfg: Config, run: seq<Label>, scope: Scope, reference: string, ids: seq<IntentId>, db: Db, tx: Tx<seq<Receipt>>)
    requires db == Exec(cfg, Start, run).db && StrictTotal(cfg.less)
    requires tx == Journal.ChangeReference(db, cfg.less, scope, reference, ids, false)
    ensures tx.Commit? <==>
      && WellFormed(reference, ids) && SameRequest(db, RefKey(scope, reference), ids)
      && (RefKey(scope, reference) in db.references ==> db.references[RefKey(scope, reference)].state != Released)
      && forall k :: k in ids ==> Guarantees.ReadyIn(db, scope, k)
    ensures tx.Commit? ==> OnlyReference(db, tx.db, RefKey(scope, reference), ids, Active)
  {
    hide Exec, Sort, StrictTotal, SameRequest, PinRefusal, ReadReceipts, Guarantees.ReadyIn, Journal.ChangeReference;
    if Distinct(ids) {
      var sorted := Sort(cfg.less, ids);
      StoredRequest(cfg, run, RefKey(scope, reference), ids, db, sorted);
      PinsReady(cfg, run, scope, ids, sorted, db);
      PinTables(db, cfg.less, scope, reference, ids, sorted, tx);
    } else {
      RepeatedIds(db, cfg.less, scope, reference, ids);
    }
  }

  lemma RepeatedIds(db: Db, less: (IntentId, IntentId) -> bool, scope: Scope, reference: string, ids: seq<IntentId>)
    requires !Distinct(ids)
    ensures Journal.ChangeReference(db, less, scope, reference, ids, false).Rollback?
  {
    hide Sort, PinRefusal, ReadReceipts;
  }

  /** The pin transaction, once its request has been compared and its ids looked up. */
  lemma PinTables(db: Db, less: (IntentId, IntentId) -> bool, scope: Scope, reference: string, ids: seq<IntentId>, sorted: seq<IntentId>, tx: Tx<seq<Receipt>>)
    requires Distinct(ids) && sorted == Sort(less, ids) && tx == Journal.ChangeReference(db, less, scope, reference, ids, false)
    requires RefKey(scope, reference) in db.references ==>
      db.references[RefKey(scope, reference)].owner == scope.owner && db.references[RefKey(scope, reference)].scope == scope
    requires PinRefusal(db, scope, sorted) == None ==> ReadReceipts(db, scope, ids).Ok?
    ensures tx.Commit? <==>
      && WellFormed(reference, ids) && PinRefusal(db, scope, sorted) == None
      && (RefKey(scope, reference) in db.references ==>
            db.references[RefKey(scope, reference)].ids == sorted && db.references[RefKey(scope, reference)].state != Released)
    ensures tx.Commit? ==>
      tx.db == SetReference(db, RefKey(scope, reference),
        if RefKey(scope, reference) in db.references then db.references[RefKey(scope, reference)].(state := Active)
        else Reference(scope.owner, reference, scope, sorted, Active))
  {
    hide Sort, PinRefusal, ReadReceipts;
  }

  /** After a release an intent is pinned exactly by the other active references that name it: once the
      last one is released, nobody pins it. */
  lemma LastReleaseUnpins(cfg: Config, run: seq<Label>, scope: Scope, reference: string, ids: seq<IntentId>, db: Db, tx: Tx<seq<Receipt>>, k: IntentId)
    requires db == Exec(cfg, Start, run).db && StrictTotal(cfg.less)
    requires tx == Journal.ChangeReference(db, cfg.less, scope, reference, ids, true) && tx.Commit?
    ensures PinnedAnywhere(tx.db, k) <==>
      exists key :: key in db.references && key != RefKey(scope, reference) && db.references[key].state == Active && k in db.references[key].ids
  {
    hide Exec, Journal.ChangeReference, StrictTotal;
    ReleaseExact(cfg, run, scope, reference, ids, db, tx);
    var own := RefKey(scope, reference);
    forall key | key in tx.db.references && key != own ensures key in db.references && tx.db.references[key] == db.references[key] {
    }
  }

  /****** Legacy adoption ******/

  /** A Library row that may be a legacy log of this scope: the scope's own pipeline wrote it, it is plain
      text named .log, and its size is readable and at most 32 MiB. */
  ghost predicate LegacyRow(row: FileRow, scope: Scope) {
    && row.owner == Some(scope.owner) && row.source == Some("pipeline") && row.run == scope.run && row.step == scope.step
    && |row.name| >= 4 && row.name[|row.name| - 4..] == ".log" && row.mime == "text/plain"
    && QuotaSize(row.size).Some? && QuotaSize(row.size).value <= 33554432 && 1 <= scope.attempt
  }

  /** The intent offered for a row: the scope's attempt at a path of its own, the row's bytes, and the
      object of that owner, file and name. */
  ghost predicate OfferedFor(i: Intent, scope: Scope, f: FileId, row: FileRow, container: string)
    requires QuotaSize(row.size).Some?
  {
    && i.id == IntentIdOf(i.identity) && i.file == f && i.state == Ready && i.generation == 1
    && ScopeOf(i.identity) == scope && i.identity.path == LegacyLogPath(f, row.name) && i.identity.container == container
    && i.identity.name == row.name && i.identity.mime == row.mime && i.identity.sha == row.sha
    && i.identity.size == QuotaSize(row.size).value as int
    && i.obj.owner == scope.owner && i.obj.file == f && i.obj.name == row.name && i.url == row.url
  }

  lemma LegacyReadExact(lib: Shelf, scope: Scope, f: FileId, container: string, r: Result<Intent>)
    requires r == LegacyRead(lib, scope, f, container)
    ensures r.Ok? <==> FileHead(lib, f).Some? && LegacyRow(FileHead(lib, f).value, scope)
    ensures r.Ok? ==> OfferedFor(r.value, scope, f, FileHead(lib, f).value, container) && r.value.etag == ""
  {
    if FileHead(lib, f).Some? {
      var row := FileHead(lib, f).value;
      if QuotaSize(row.size).Some? && QuotaSize(row.size).value <= 33554432 {
        SizeReadersAgree(row.size, QuotaSize(row.size).value as int);
      }
    }
  }

  /** The row adoption inserts. */
  ghost predicate AdoptedRow(r: Types.Upload, i: Intent) {
    && r.owner == i.identity.owner && r.identity == i.identity && r.size == i.identity.size && r.file == i.file && r.obj == i.obj
    && r.generation == 1 && r.state == Ready && r.url == i.url && r.etag == i.etag
    && r.lease == "" && r.retiredEtag == "" && !r.purged
  }

  /** What the adoption transaction decides and changes for a file without a journal row. */
  lemma AdoptNewDecides(cfg: Config, s: State, scope: Scope, i: Intent, tx: Tx<Receipt>)
    requires Inv(cfg, s) && CandidateOk(s.db, s.blobs, scope, i) && !FileTaken(s.db, i.file)
    requires tx == Journal.AdoptCommit(s.db, scope, i)
    ensures tx.Commit? <==> Untouched(s.db.library, i.file, i.identity, i.url) && i.id !in s.db.uploads && scope !in s.db.fences
    ensures tx.Commit? ==> OnlyRow(s.db, tx.db, i.id) && AdoptedRow(tx.db.uploads[i.id], i) && Guarantees.Describes(tx.value, i.id, tx.db.uploads[i.id])
  {
    hide Inv;
    CheckedIffUntouched(s.db.library, i.file, i.identity, i.url);
    Cleanup.FencesFacts(cfg, s);
    if scope in s.db.fences {
      Cleanup.FenceTriggers(s.db, i.identity);
    } else {
      Resumption.UnfencedNotTriggered(s.db, i.identity);
    }
    forall q | q in s.db.uploads ensures s.db.uploads[q].obj != i.obj {
      RowFacts(cfg, s, q);
    }
    hide CheckRetirement, Untouched, FencedByTrigger, FencesOk;
  }

  /** A file with a journal row: its own scope gets the row's receipt, any other is refused; nothing
      changes. */
  lemma AdoptKnownExact(cfg: Config, run: seq<Label>, scope: Scope, k: IntentId, db: Db, tx: Tx<Receipt>)
    requires db == Exec(cfg, Start, run).db && k in db.uploads && tx == AdoptExisting(db, scope, k)
    ensures tx.Commit? <==> scope == ScopeOf(db.uploads[k].identity)
    ensures tx.Commit? ==> tx.db == db && Guarantees.Describes(tx.value, k, db.uploads[k])
  {
    hide Exec, Inv;
    ReachableInv(cfg, run);
    RowFacts(cfg, Exec(cfg, Start, run), k);
  }
}
