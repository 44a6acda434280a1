/** What the journal guarantees in every reachable state and along every run. */
module Guarantees {
  import opened Types
  import opened Library
  import opened Provider
  import opened Journal
  import opened Protocol
  import opened Evolution
  import opened Invariant
  import opened Preservation
  import Orders
  import Sums

  /****** Pinned bytes ******/

  /** However uploads, pins, releases, retirements and crashes interleave: an intent named by an
      active reference is ready, in the reference's scope, and its object still holds exactly the
      bytes and the version of its receipt. */
  lemma PinnedBytesSurvive(cfg: Config, run: seq<Label>, key: RefKey, k: IntentId)
    requires
      var db := Exec(cfg, Start, run).db;
      key in db.references && db.references[key].state == Active && k in db.references[key].ids
    ensures
      var s := Exec(cfg, Start, run);
      && k in s.db.uploads && s.db.uploads[k].state == Ready
      && ScopeOf(s.db.uploads[k].identity) == key.scope
      && s.db.uploads[k].etag != ""
      && At(s.blobs, PlaceOf(s.db.uploads[k])) == Blob(s.db.uploads[k].size, s.db.uploads[k].identity.sha, s.db.uploads[k].etag)
  {
    var s := Exec(cfg, Start, run);
    ReachableInv(cfg, run);
    hide DbInv, BlobInv, ProcInv, QuotaInv;
    ReferenceFacts(cfg, s, key);
    RowFacts(cfg, s, k);
  }

  /****** Storage bound ******/

  /** The bytes of all live objects that reservations of this owner put into storage. */
  ghost function LiveBytes(blobs: Blobs, owner: string): map<Place, int> {
    map p | p in blobs && blobs[p].Blob? && p.obj.owner == owner && p.obj.file.DerivedFile? :: blobs[p].size
  }

  lemma LiveObjectCharged(cfg: Config, s: State, owner: string, p: Place)
    requires Inv(cfg, s) && p in LiveBytes(s.blobs, owner)
    ensures
      var k := p.obj.file.intent;
      k in AdmittedCharges(s.db, owner) && AdmittedCharges(s.db, owner)[k] == s.blobs[p].size && PlaceOf(s.db.uploads[k]) == p
  {
    var k := p.obj.file.intent;
    assert k in s.db.uploads && PlaceOf(s.db.uploads[k]) == p by {
      hide DbInv, ProcInv, QuotaInv, ObjectsFit;
    }
    hide DbInv, BlobInv, ProcInv, QuotaInv;
    RowFacts(cfg, s, k);
  }

  lemma LiveBytesCharged(cfg: Config, s: State, owner: string, live: map<Place, int>, charges: map<IntentId, int>)
    requires Inv(cfg, s) && live == LiveBytes(s.blobs, owner) && charges == AdmittedCharges(s.db, owner)
    ensures Sums.Sum(live) <= Sums.Sum(charges)
  {
    hide Inv;
    var pair := map p | p in live :: p.obj.file.intent;
    forall p | p in live ensures pair[p] in charges && live[p] <= charges[pair[p]] && PlaceOf(s.db.uploads[pair[p]]) == p {
      LiveObjectCharged(cfg, s, owner, p);
    }
    forall k | k in charges ensures 0 <= charges[k] {
      RowFacts(cfg, s, k);
    }
    hide AdmittedCharges, LiveBytes;
    Sums.SumPaired(live, charges, pair);
  }

  /** At every point of every run the live bytes admitted for an owner fit the owner's quota. */
  lemma StorageBound(cfg: Config, run: seq<Label>, owner: string)
    ensures Sums.Sum(LiveBytes(Exec(cfg, Start, run).blobs, owner)) <= cfg.quota
  {
    var s := Exec(cfg, Start, run);
    ReachableInv(cfg, run);
    hide Exec, DbInv, BlobInv, ProcInv, LiveBytes, AdmittedCharges;
    LiveBytesCharged(cfg, s, owner, LiveBytes(s.blobs, owner), AdmittedCharges(s.db, owner));
    assert Sums.Sum(AdmittedCharges(s.db, owner)) <= cfg.quota;
  }

  /****** Lifecycle ******/

  /** Along every run: no journal row disappears; identity, file, object and size are immutable; the
      state never falls back and the generation never decreases; a receipt and a lease never change. */
  lemma LifecycleMonotone(cfg: Config, run: seq<Label>, more: seq<Label>, k: IntentId)
    requires k in Exec(cfg, Start, run).db.uploads
    ensures
      var s, n := Exec(cfg, Start, run), Exec(cfg, Start, run + more);
      k in n.db.uploads && RowOk(k, n.db.uploads[k]) && Evolves(s.db.uploads[k], n.db.uploads[k])
  {
    hide Inv, BlobsGrow, Exec;
    Later(cfg, run, more);
    RowFacts(cfg, Exec(cfg, Start, run + more), k);
  }

  /****** Receipts ******/

  predicate AllSelected(db: Db, scope: Scope, ids: seq<IntentId>) {
    forall i :: 0 <= i < |ids| ==> Selected(db, scope, ids[i])
  }

  lemma CollectStep(db: Db, scope: Scope, ids: seq<IntentId>, found: seq<Receipt>)
    requires RowsOk(db) && ids != [] && CollectReceipts(db, scope, ids[..|ids| - 1]) == Ok(found)
    ensures
      var k := ids[|ids| - 1];
      CollectReceipts(db, scope, ids) == Ok(if Selected(db, scope, k) then found + [ReceiptOf(IntentOf(k, db.uploads[k]))] else found)
  {
    var k := ids[|ids| - 1];
    assert Selected(db, scope, k) ==> RowOk(k, db.uploads[k]);
  }

  lemma SelectedStep(db: Db, scope: Scope, ids: seq<IntentId>)
    requires ids != []
    ensures AllSelected(db, scope, ids) <==> AllSelected(db, scope, ids[..|ids| - 1]) && Selected(db, scope, ids[|ids| - 1])
  {
    hide Selected;
  }

  /** How many receipts are collected: as many as ids, or fewer when some id is not selected. */
  lemma {:induction false} CollectCounts(db: Db, scope: Scope, ids: seq<IntentId>)
    requires RowsOk(db)
    ensures CollectReceipts(db, scope, ids).Ok?
    ensures |CollectReceipts(db, scope, ids).value| <= |ids|
    ensures |CollectReceipts(db, scope, ids).value| == |ids| <==> AllSelected(db, scope, ids)
  {
    if ids == [] {
      hide RowsOk;
    } else {
      hide RowsOk, CollectReceipts, AllSelected, Selected;
      var n := |ids| - 1;
      CollectCounts(db, scope, ids[..n]);
      CollectStep(db, scope, ids, CollectReceipts(db, scope, ids[..n]).value);
      SelectedStep(db, scope, ids);
    }
  }

  /** The receipts of selected ids, one by one. */
  lemma {:induction false} CollectContents(db: Db, scope: Scope, ids: seq<IntentId>, found: seq<Receipt>)
    requires RowsOk(db) && AllSelected(db, scope, ids) && CollectReceipts(db, scope, ids) == Ok(found)
    ensures |found| == |ids| && forall i :: 0 <= i < |ids| ==> found[i] == ReceiptOf(IntentOf(ids[i], db.uploads[ids[i]]))
  {
    hide RowsOk, CollectReceipts, ReceiptOf, IntentOf, Selected;
    CollectCounts(db, scope, ids);
    if ids != [] {
      var n := |ids| - 1;
      CollectCounts(db, scope, ids[..n]);
      var before := CollectReceipts(db, scope, ids[..n]).value;
      CollectStep(db, scope, ids, before);
      SelectedStep(db, scope, ids);
      CollectContents(db, scope, ids[..n], before);
    }
  }

  /** The rows the query selects, and their receipts. */
  lemma ReceiptsSelected(cfg: Config, run: seq<Label>, scope: Scope, ids: seq<IntentId>)
    ensures
      var db := Exec(cfg, Start, run).db;
      var r := ReadReceipts(db, scope, ids);
      && (r.Ok? <==> AllSelected(db, scope, ids))
      && (r.Ok? ==> |r.value| == |ids| && forall i :: 0 <= i < |ids| ==> r.value[i] == ReceiptOf(IntentOf(ids[i], db.uploads[ids[i]])))
      && (r.Err? ==> r.error == Unavailable)
  {
    var db := Exec(cfg, Start, run).db;
    RowsFacts(cfg, run);
    hide Exec, RowsOk, CollectReceipts, AllSelected, ReceiptOf, IntentOf;
    CollectCounts(db, scope, ids);
    if AllSelected(db, scope, ids) {
      CollectContents(db, scope, ids, CollectReceipts(db, scope, ids).value);
    }
  }

  /** The intent is ready, and was produced in exactly this scope. */
  ghost predicate ReadyIn(db: Db, scope: Scope, k: IntentId) {
    && k in db.uploads && db.uploads[k].state == Ready
    && db.uploads[k].identity.owner == scope.owner && db.uploads[k].identity.run == scope.run
    && db.uploads[k].identity.step == scope.step && db.uploads[k].identity.attempt == scope.attempt
  }

  /** The receipt says of the row everything a consumer needs, field by field. */
  ghost predicate Describes(receipt: Receipt, k: IntentId, r: Upload) {
    && receipt.id == k && receipt.file == r.file && receipt.obj == r.obj && receipt.url == r.url && receipt.etag == r.etag
    && receipt.scope.owner == r.identity.owner && receipt.scope.run == r.identity.run
    && receipt.scope.step == r.identity.step && receipt.scope.attempt == r.identity.attempt
    && receipt.path == r.identity.path && receipt.container == r.identity.container
    && receipt.size == r.identity.size && receipt.sha == r.identity.sha
  }

  lemma SelectedIsReady(cfg: Config, run: seq<Label>, scope: Scope, k: IntentId, db: Db)
    requires db == Exec(cfg, Start, run).db
    ensures Selected(db, scope, k) <==> ReadyIn(db, scope, k)
  {
    RowsFacts(cfg, run);
    hide Exec;
    assert k in db.uploads ==> RowOk(k, db.uploads[k]);
  }

  /** Reading receipts succeeds exactly when every id is ready in the scope; it then returns one
      complete receipt per id, in the requested order, that describes its row field by field. */
  lemma ReceiptsExact(cfg: Config, run: seq<Label>, scope: Scope, ids: seq<IntentId>, db: Db, r: Result<seq<Receipt>>)
    requires db == Exec(cfg, Start, run).db && r == ReadReceipts(db, scope, ids)
    ensures r.Ok? <==> forall i :: 0 <= i < |ids| ==> ReadyIn(db, scope, ids[i])
    ensures r.Ok? ==> |r.value| == |ids|
    ensures r.Ok? ==> forall i :: 0 <= i < |ids| ==> Describes(r.value[i], ids[i], db.uploads[ids[i]]) && r.value[i].url != NoUrl && r.value[i].etag != ""
    ensures r.Err? ==> r.error == Unavailable
  {
    ReceiptsSelected(cfg, run, scope, ids);
    RowsFacts(cfg, run);
    hide Exec, ReadReceipts;
    forall i | 0 <= i < |ids| ensures Selected(db, scope, ids[i]) <==> ReadyIn(db, scope, ids[i]) {
      SelectedIsReady(cfg, run, scope, ids[i], db);
    }
    if r.Ok? {
      forall i | 0 <= i < |ids| ensures Describes(r.value[i], ids[i], db.uploads[ids[i]]) && r.value[i].url != NoUrl && r.value[i].etag != "" {
        assert Selected(db, scope, ids[i]);
        assert RowOk(ids[i], db.uploads[ids[i]]);
      }
    }
  }

  /** What a successful call reports describes the journal's row. */
  lemma ReportDescribes(cfg: Config, run: seq<Label>, p: nat, s: State)
    requires s == Exec(cfg, Start, run) && p in s.procs && s.procs[p].StoreDone?
    ensures s.procs[p].i.id in s.db.uploads && Describes(ReceiptOf(s.procs[p].i), s.procs[p].i.id, s.db.uploads[s.procs[p].i.id])
  {
    hide Exec, Inv;
    ReachableInv(cfg, run);
    ProcFacts(cfg, s, p);
  }

  lemma RowsFacts(cfg: Config, run: seq<Label>)
    ensures RowsOk(Exec(cfg, Start, run).db)
  {
    hide Exec, BlobInv, ProcInv, QuotaInv, FilesUnique, ReferencesOk, FencesOk, PresentationOk, FrozenOk, RowsOk;
    ReachableInv(cfg, run);
  }

  /** All calls that stored one identity report the same receipt, whatever crashed or ran at once. */
  lemma OneOutcomePerIdentity(cfg: Config, run: seq<Label>, p: nat, q: nat)
    requires
      var procs := Exec(cfg, Start, run).procs;
      p in procs && q in procs && procs[p].StoreDone? && procs[q].StoreDone? && procs[p].i.id == procs[q].i.id
    ensures
      var procs := Exec(cfg, Start, run).procs;
      ReceiptOf(procs[p].i) == ReceiptOf(procs[q].i) && ReceiptOf(procs[p].i).etag != ""
  {
    var s := Exec(cfg, Start, run);
    hide Inv;
    ReachableInv(cfg, run);
    ProcFacts(cfg, s, p);
    ProcFacts(cfg, s, q);
  }

  lemma ReadyReadsBack(db: Db, i: Intent)
    requires RowsOk(db) && SameReceipt(db, i) && db.uploads[i.id].state == Ready
    ensures ReadReceipts(db, ScopeOf(i.identity), [i.id]) == Ok([ReceiptOf(i)])
  {
    assert RowOk(i.id, db.uploads[i.id]);
    var scope := ScopeOf(i.identity);
    assert AllSelected(db, scope, [i.id]);
    hide CollectReceipts, RowsOk;
    CollectCounts(db, scope, [i.id]);
    var found := CollectReceipts(db, scope, [i.id]).value;
    CollectContents(db, scope, [i.id], found);
    assert found[0] == ReceiptOf(IntentOf([i.id][0], db.uploads[i.id]));
    assert found == [found[0]];
  }

  /** That receipt is what ReadRunFileReceipts returns at every later moment until retirement begins. */
  lemma ReceiptReadsBack(cfg: Config, run: seq<Label>, more: seq<Label>, p: nat)
    requires p in Exec(cfg, Start, run).procs && Exec(cfg, Start, run).procs[p].StoreDone?
    ensures
      var i := Exec(cfg, Start, run).procs[p].i;
      var n := Exec(cfg, Start, run + more);
      && i.id in n.db.uploads
      && (InRetirement(n.db.uploads[i.id].state) || ReadReceipts(n.db, ScopeOf(i.identity), [i.id]) == Ok([ReceiptOf(i)]))
  {
    hide DbGrows, BlobsGrow, Exec, ReadReceipts, Inv, RowsOk;
    Later(cfg, run, more);
    RowsFacts(cfg, run + more);
    DoneReadsBack(cfg, Exec(cfg, Start, run + more), p);
  }

  lemma DoneReadsBack(cfg: Config, n: State, p: nat)
    requires Inv(cfg, n) && RowsOk(n.db) && p in n.procs && n.procs[p].StoreDone?
    ensures
      var i := n.procs[p].i;
      i.id in n.db.uploads && (InRetirement(n.db.uploads[i.id].state) || ReadReceipts(n.db, ScopeOf(i.identity), [i.id]) == Ok([ReceiptOf(i)]))
  {
    hide ReadReceipts, Inv, RowsOk;
    ProcFacts(cfg, n, p);
    var i := n.procs[p].i;
    if !InRetirement(n.db.uploads[i.id].state) {
      ReadyReadsBack(n.db, i);
    }
  }

  /****** References ******/

  /** A successful pin returns exactly one receipt per requested id, in the requested order, that
      describes the id's row field by field. */
  lemma PinReturnsReceiptsInOrder(cfg: Config, run: seq<Label>, scope: Scope, reference: string, ids: seq<IntentId>, db: Db, receipts: seq<Receipt>)
    requires db == Exec(cfg, Start, run).db
    requires Journal.ChangeReference(db, cfg.less, scope, reference, ids, false).Commit?
    requires receipts == Journal.ChangeReference(db, cfg.less, scope, reference, ids, false).value
    ensures |receipts| == |ids|
    ensures forall i :: 0 <= i < |ids| ==> ids[i] in db.uploads && Describes(receipts[i], ids[i], db.uploads[ids[i]])
  {
    assert ReadReceipts(db, scope, ids) == Ok(receipts) by {
      hide Exec, ReadReceipts, PinRefusal, Orders.Sort;
    }
    hide Journal.ChangeReference, Describes, Exec, ReadReceipts;
    ReceiptsExact(cfg, run, scope, ids, db, ReadReceipts(db, scope, ids));
  }

  lemma SelectedByElements(db: Db, scope: Scope, ids: seq<IntentId>)
    ensures AllSelected(db, scope, ids) <==> forall k :: k in Orders.Elements(ids) ==> Selected(db, scope, k)
  {
    hide Selected;
    if forall k :: k in Orders.Elements(ids) ==> Selected(db, scope, k) {
      forall i | 0 <= i < |ids| ensures Selected(db, scope, ids[i]) {
        assert ids[i] in Orders.Elements(ids);
      }
    }
  }

  /** Two orders of one request read the same way. */
  lemma SameRead(cfg: Config, run: seq<Label>, scope: Scope, a: seq<IntentId>, b: seq<IntentId>, db: Db)
    requires db == Exec(cfg, Start, run).db && Orders.Elements(a) == Orders.Elements(b)
    ensures ReadReceipts(db, scope, a).Ok? <==> ReadReceipts(db, scope, b).Ok?
    ensures ReadReceipts(db, scope, a).Err? ==> ReadReceipts(db, scope, a) == Err(Unavailable)
    ensures ReadReceipts(db, scope, b).Err? ==> ReadReceipts(db, scope, b) == Err(Unavailable)
  {
    hide Exec, ReadReceipts, AllSelected;
    ReceiptsSelected(cfg, run, scope, a);
    ReceiptsSelected(cfg, run, scope, b);
    SelectedByElements(db, scope, a);
    SelectedByElements(db, scope, b);
  }

  lemma SameRequest(less: (IntentId, IntentId) -> bool, a: seq<IntentId>, b: seq<IntentId>)
    requires Orders.StrictTotal(less) && Orders.Distinct(a) && Orders.Distinct(b) && Orders.Elements(a) == Orders.Elements(b)
    ensures Orders.Sort(less, a) == Orders.Sort(less, b) && |a| == |b|
  {
    Orders.SortCanonical(less, a, b);
    Orders.SortElements(less, a);
    Orders.SortElements(less, b);
  }

  /** The order of a request is irrelevant: in every reachable state one order of the same ids commits
      exactly when any other does, with the same tables; and it is refused with the same error. */
  lemma ReferenceOrderIrrelevant(cfg: Config, run: seq<Label>, scope: Scope, reference: string, a: seq<IntentId>, b: seq<IntentId>, release: bool, db: Db)
    requires db == Exec(cfg, Start, run).db && Orders.StrictTotal(cfg.less)
    requires Orders.Distinct(a) && Orders.Distinct(b) && Orders.Elements(a) == Orders.Elements(b)
    ensures
      var one, other := Journal.ChangeReference(db, cfg.less, scope, reference, a, release), Journal.ChangeReference(db, cfg.less, scope, reference, b, release);
      && (one.Commit? <==> other.Commit?)
      && (one.Commit? ==> one.db == other.db)
      && (one.Rollback? ==> one == other)
  {
    hide Exec, ReadReceipts, PinRefusal, Orders.StrictTotal, Orders.Elements, Orders.Sort;
    SameRead(cfg, run, scope, a, b, db);
    SameRequest(cfg.less, a, b);
  }

  /** References only move from absent to active to released, or from absent to released: along every
      run none disappears, none changes its scope or its artifact set, none leaves `released`. */
  lemma ReferenceMonotone(cfg: Config, run: seq<Label>, more: seq<Label>, key: RefKey)
    requires key in Exec(cfg, Start, run).db.references
    ensures
      var s, n := Exec(cfg, Start, run), Exec(cfg, Start, run + more);
      && key in n.db.references && ReferenceEvolves(s.db.references[key], n.db.references[key])
      && key == RefKey(n.db.references[key].scope, n.db.references[key].reference)
  {
    var s, n := Exec(cfg, Start, run), Exec(cfg, Start, run + more);
    hide Inv, BlobsGrow, Exec;
    Later(cfg, run, more);
    assert ReferenceEvolves(s.db.references[key], n.db.references[key]);
    ReferenceFacts(cfg, n, key);
  }

  /** Once released, a reference is never reopened: a delayed or replayed pin is refused for ever,
      and its artifact set never changes. */
  lemma ReleaseIsPermanent(cfg: Config, run: seq<Label>, more: seq<Label>, key: RefKey, ids: seq<IntentId>)
    requires key in Exec(cfg, Start, run).db.references && Exec(cfg, Start, run).db.references[key].state == Released
    ensures
      var s, n := Exec(cfg, Start, run), Exec(cfg, Start, run + more);
      && key in n.db.references && n.db.references[key] == s.db.references[key]
      && Journal.ChangeReference(n.db, cfg.less, key.scope, key.reference, ids, false).Rollback?
  {
    var s, n := Exec(cfg, Start, run), Exec(cfg, Start, run + more);
    hide Inv, BlobsGrow, Exec;
    Later(cfg, run, more);
    assert ReferenceEvolves(s.db.references[key], n.db.references[key]);
    hide DbGrows, Grows;
    ReferenceFacts(cfg, n, key);
  }
}
