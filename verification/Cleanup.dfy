/** A fenced producer scope: nothing new is admitted, its inventory is complete, and once every
    inventoried intent is retired nothing of it comes back. */
module Cleanup {
  import opened Types
  import opened Sizes
  import opened Library
  import opened Provider
  import opened Journal
  import opened Protocol
  import opened Evolution
  import opened Invariant
  import opened Preservation
  import opened Writers
  import opened Steps
  import opened Orders
  import Guarantees

  /****** No admission after the fence ******/

  lemma FenceTriggers(db: Db, x: Identity)
    requires FencesOk(db) && ScopeOf(x) in db.fences
    ensures FencedByTrigger(db, x.owner, x) && ReadFence(db, ScopeOf(x)) == Ok(true)
  {
    assert db.fences[ScopeOf(x)] == FenceRow(x.owner, ScopeOf(x));
  }

  lemma FencesFacts(cfg: Config, s: State)
    requires Inv(cfg, s)
    ensures FencesOk(s.db)
  {
    hide BlobInv, QuotaInv, ProcInv, RowsOk, FilesUnique, ReferencesOk, FrozenOk, PresentationOk;
  }

  lemma ReservedRowUnfenced(cfg: Config, s: State, p: nat, x: Identity, others: seq<Number>, reply: bool, k: IntentId)
    requires FencesOk(s.db) && k !in s.db.uploads && k in DoReserve(cfg, s, p, x, others, reply).db.uploads
    ensures ScopeOf(DoReserve(cfg, s, p, x, others, reply).db.uploads[k].identity) !in s.db.fences
  {
    hide Admits, OwnerLocked, FencedByTrigger;
    if ScopeOf(x) in s.db.fences {
      FenceTriggers(s.db, x);
    }
  }

  lemma AdoptedRowUnfenced(s: State, p: nat, reply: bool, k: IntentId)
    requires FencesOk(s.db) && k !in s.db.uploads && k in DoAdoptCommit(s, p, reply).db.uploads
    ensures ScopeOf(DoAdoptCommit(s, p, reply).db.uploads[k].identity) !in s.db.fences
  {
    hide CheckRetirement, OwnerLocked, FencedByTrigger;
    var x := s.procs[p].i.identity;
    if ScopeOf(x) in s.db.fences {
      FenceTriggers(s.db, x);
    }
  }

  /** Neither a reservation nor an adoption can add a row to a fenced scope. */
  lemma NewRowUnfenced(cfg: Config, s: State, l: Label, k: IntentId)
    requires Inv(cfg, s) && k !in s.db.uploads && k in Apply(cfg, s, l).db.uploads
    ensures ScopeOf(Apply(cfg, s, l).db.uploads[k].identity) !in s.db.fences
  {
    hide Inv, FencesOk, DoReserve, DoAdoptCommit;
    FencesFacts(cfg, s);
    if l.Reserve? {
      ReservedRowUnfenced(cfg, s, l.p, l.identity, l.others, l.reply, k);
    } else if l.AdoptCommit? {
      AdoptedRowUnfenced(s, l.p, l.reply, k);
    } else {
      hide Apply;
      StepEffect(cfg, s, l);
    }
  }

  /** The rows of a scope, by the identity they were created with. */
  lemma ScopeRowsById(cfg: Config, s: State, scope: Scope)
    requires Inv(cfg, s)
    ensures ScopeRows(s.db, scope) == set k | k in s.db.uploads && ScopeOf(s.db.uploads[k].identity) == scope
  {
    hide Inv;
    forall k | k in s.db.uploads ensures k in ScopeRows(s.db, scope) <==> ScopeOf(s.db.uploads[k].identity) == scope {
      RowFacts(cfg, s, k);
    }
  }

  lemma FencedRowsStep(cfg: Config, s: State, l: Label, scope: Scope)
    requires Inv(cfg, s) && scope in s.db.fences
    ensures ScopeRows(Apply(cfg, s, l).db, scope) == ScopeRows(s.db, scope) && scope in Apply(cfg, s, l).db.fences
  {
    var n := Apply(cfg, s, l);
    hide Inv, Apply, BlobsGrow;
    StepKeeps(cfg, s, l);
    ScopeRowsById(cfg, s, scope);
    ScopeRowsById(cfg, n, scope);
    hide ScopeRows;
    forall k | k in n.db.uploads && ScopeOf(n.db.uploads[k].identity) == scope ensures k in s.db.uploads {
      if k !in s.db.uploads {
        NewRowUnfenced(cfg, s, l, k);
      }
    }
    forall k | k in s.db.uploads ensures k in n.db.uploads && n.db.uploads[k].identity == s.db.uploads[k].identity {
      assert Evolves(s.db.uploads[k], n.db.uploads[k]);
    }
  }

  /** After the fence the set of intents of the scope never changes again, whatever uploads admitted
      earlier, releases, retirements and adoptions still do. */
  lemma {:induction false} FencedRowsFixed(cfg: Config, s: State, run: seq<Label>, scope: Scope)
    requires Inv(cfg, s) && scope in s.db.fences
    ensures ScopeRows(Exec(cfg, s, run).db, scope) == ScopeRows(s.db, scope) && scope in Exec(cfg, s, run).db.fences
  {
    if run != [] {
      var n := |run| - 1;
      hide Inv, Apply, ScopeRows, Grows;
      FencedRowsFixed(cfg, s, run[..n], scope);
      RunKeeps(cfg, s, run[..n]);
      FencedRowsStep(cfg, Exec(cfg, s, run[..n]), run[n], scope);
    }
  }

  /****** Complete cleanup ******/

  /** The fence is committed and every inventoried intent has been retired. */
  ghost predicate ScopeClosed(db: Db, scope: Scope) {
    scope in db.fences && forall k :: k in ScopeRows(db, scope) ==> db.uploads[k].state == Retired
  }

  /** A row stays retired, and its object a tombstone. */
  lemma ClosedStaysClosed(cfg: Config, s: State, run: seq<Label>, scope: Scope)
    requires Inv(cfg, s) && ScopeClosed(s.db, scope)
    ensures ScopeClosed(Exec(cfg, s, run).db, scope)
  {
    var n := Exec(cfg, s, run);
    hide Inv, Exec, BlobsGrow;
    FencedRowsFixed(cfg, s, run, scope);
    RunKeeps(cfg, s, run);
    forall k | k in ScopeRows(n.db, scope) ensures n.db.uploads[k].state == Retired {
      assert k in ScopeRows(s.db, scope);
      assert Evolves(s.db.uploads[k], n.db.uploads[k]);
    }
  }

  lemma NoFinalizerInClosedScope(cfg: Config, s: State, scope: Scope, p: nat)
    requires Inv(cfg, s) && ScopeClosed(s.db, scope) && p in s.procs && s.procs[p].Finalizing?
    ensures ScopeOf(s.procs[p].i.identity) != scope
  {
    hide Inv;
    ProcFacts(cfg, s, p);
    RowFacts(cfg, s, s.procs[p].i.id);
    var k := s.procs[p].i.id;
    assert k in ScopeRows(s.db, ScopeOf(s.db.uploads[k].identity));
  }

  /** No finalizer of a closed scope exists, so no late uploader can report success. */
  lemma ClosedScopeReportsNothing(cfg: Config, s: State, l: Label, scope: Scope, p: nat)
    requires Inv(cfg, s) && ScopeClosed(s.db, scope)
    requires Reported(Apply(cfg, s, l), p) && ScopeOf(Apply(cfg, s, l).procs[p].i.identity) == scope
    ensures Reported(s, p) && Apply(cfg, s, l).procs[p] == s.procs[p]
  {
    hide Inv, Apply;
    if Reported(s, p) {
      hide DbGrows, BlobsGrow;
      StepKeeps(cfg, s, l);
    } else {
      OnlyCommitReports(cfg, s, l, p);
      NoFinalizerInClosedScope(cfg, s, scope, p);
    }
  }

  lemma {:induction false} NoLateSuccess(cfg: Config, s: State, run: seq<Label>, scope: Scope, p: nat)
    requires Inv(cfg, s) && ScopeClosed(s.db, scope)
    requires Reported(Exec(cfg, s, run), p) && ScopeOf(Exec(cfg, s, run).procs[p].i.identity) == scope
    ensures Reported(s, p)
  {
    if run != [] {
      var n := |run| - 1;
      hide Inv, Apply, ScopeClosed, Grows, Reported;
      ClosedStaysClosed(cfg, s, run[..n], scope);
      RunKeeps(cfg, s, run[..n]);
      ReportedHas(Exec(cfg, s, run), p);
      ClosedScopeReportsNothing(cfg, Exec(cfg, s, run[..n]), run[n], scope, p);
      ReportedHas(Exec(cfg, s, run[..n]), p);
      NoLateSuccess(cfg, s, run[..n], scope, p);
    }
  }

  lemma ReportedHas(s: State, p: nat)
    requires Reported(s, p)
    ensures p in s.procs && s.procs[p].StoreDone?
  {
  }

  /** Once a scope is fenced and every inventoried intent is retired, then in every continuation: no
      intent of the scope is created or revived, none of its objects is readable again, and no
      uploader admitted earlier reports success. */
  lemma CleanupIsComplete(cfg: Config, run: seq<Label>, more: seq<Label>, scope: Scope)
    requires ScopeClosed(Exec(cfg, Start, run).db, scope)
    ensures
      var s, n := Exec(cfg, Start, run), Exec(cfg, Start, run + more);
      && ScopeRows(n.db, scope) == ScopeRows(s.db, scope) && ScopeClosed(n.db, scope)
      && (forall k :: k in ScopeRows(n.db, scope) ==> At(n.blobs, PlaceOf(n.db.uploads[k])).Tombstone?)
      && (forall p :: Reported(n, p) && ScopeOf(n.procs[p].i.identity) == scope ==> Reported(s, p))
  {
    var s, n := Exec(cfg, Start, run), Exec(cfg, Start, run + more);
    hide Inv, Exec, Grows;
    Later(cfg, run, more);
    FencedRowsFixed(cfg, s, more, scope);
    ClosedStaysClosed(cfg, s, more, scope);
    forall k | k in ScopeRows(n.db, scope) ensures At(n.blobs, PlaceOf(n.db.uploads[k])).Tombstone? {
      RowFacts(cfg, n, k);
    }
    forall p | Reported(n, p) && ScopeOf(n.procs[p].i.identity) == scope ensures Reported(s, p) {
      NoLateSuccess(cfg, s, more, scope, p);
    }
  }

  /** In that state every request for the scope is refused: reservations, receipts and pins. */
  lemma ClosedScopeRefusesAll(cfg: Config, run: seq<Label>, scope: Scope, x: Identity, others: seq<Number>, reference: string, ids: seq<IntentId>)
    requires ScopeClosed(Exec(cfg, Start, run).db, scope) && ScopeOf(x) == scope && ids != []
    ensures
      var db := Exec(cfg, Start, run).db;
      && Journal.Reserve(db, x, others, cfg.quota) == Rollback(ScopeFenced)
      && ReadReceipts(db, scope, ids) == Err(Unavailable)
      && Journal.ChangeReference(db, cfg.less, scope, reference, ids, false).Rollback?
  {
    var s := Exec(cfg, Start, run);
    hide Inv, Exec, PinRefusal, Sort;
    ReachableInv(cfg, run);
    FencesFacts(cfg, s);
    FenceTriggers(s.db, x);
    Guarantees.ReceiptsSelected(cfg, run, scope, ids);
    ScopeRowsById(cfg, s, scope);
    assert !Selected(s.db, scope, ids[0]);
    hide ReadReceipts;
  }

  /****** Inventory ******/

  /** One page of an inventory, and what ran between the previous page and this one. */
  datatype Visit = Visit(between: seq<Label>, page: seq<IntentId>)

  function Advance(cursor: Option<IntentId>, page: seq<IntentId>): Option<IntentId> {
    if page == [] then cursor else Some(page[|page| - 1])
  }

  /** Pages read one after the other, each after the last id of the page before it. */
  ghost predicate Listing(cfg: Config, s: State, scope: Scope, cursor: Option<IntentId>, visits: seq<Visit>)
    decreases |visits|
  {
    visits == [] ||
    var n := Exec(cfg, s, visits[0].between);
    && IsPage(cfg.less, ScopeRows(n.db, scope), cursor, PageSize, visits[0].page)
    && Listing(cfg, n, scope, Advance(cursor, visits[0].page), visits[1..])
  }

  function Listed(visits: seq<Visit>): seq<IntentId> {
    if visits == [] then [] else visits[0].page + Listed(visits[1..])
  }

  ghost function Remaining(less: (IntentId, IntentId) -> bool, rows: set<IntentId>, cursor: Option<IntentId>): set<IntentId> {
    set k | k in rows && After(less, cursor, k)
  }

  /** A page takes the least remaining ids and leaves exactly those after its last one. */
  lemma PageSplits(less: (IntentId, IntentId) -> bool, rows: set<IntentId>, cursor: Option<IntentId>, page: seq<IntentId>)
    requires StrictTotal(less) && IsPage(less, rows, cursor, PageSize, page)
    ensures page == [] ==> Remaining(less, rows, cursor) == {}
    ensures page != [] ==>
      Remaining(less, rows, cursor) == Elements(page) + Remaining(less, rows, Advance(cursor, page)) &&
      forall i, k :: 0 <= i < |page| && k in Remaining(less, rows, Advance(cursor, page)) ==> less(page[i], k)
  {
    if page != [] {
      var last := page[|page| - 1];
      assert forall i :: 0 <= i < |page| ==> page[i] == last || less(page[i], last);
      forall k | k in rows ensures k in Remaining(less, rows, cursor) <==> k in page || less(last, k) {
        if k !in page && After(less, cursor, k) {
          assert less(page[|page| - 1], k);
        }
      }
    }
  }

  /** What a page and the listing after it amount to together. */
  lemma PageThenRest(less: (IntentId, IntentId) -> bool, rows: set<IntentId>, cursor: Option<IntentId>, page: seq<IntentId>, rest: seq<IntentId>)
    requires StrictTotal(less) && IsPage(less, rows, cursor, PageSize, page)
    requires Increasing(less, rest) && Elements(rest) == Remaining(less, rows, Advance(cursor, page))
    ensures Increasing(less, page + rest) && Elements(page + rest) == Remaining(less, rows, cursor)
  {
    PageSplits(less, rows, cursor, page);
    hide Remaining;
    assert forall k :: k in rest ==> k in Elements(rest);
    if page == [] {
      NoElements(page);
      NoElements(rest);
      assert page + rest == [];
    } else {
      Joined(less, page, rest);
    }
  }

  lemma Joined(less: (IntentId, IntentId) -> bool, a: seq<IntentId>, b: seq<IntentId>)
    requires Increasing(less, a) && Increasing(less, b)
    requires forall i, k :: 0 <= i < |a| && k in b ==> less(a[i], k)
    ensures Elements(a + b) == Elements(a) + Elements(b) && Increasing(less, a + b)
  {
    forall i, j | 0 <= i < j < |a + b| ensures less((a + b)[i], (a + b)[j]) {
      if i < |a| && j < |a| {
        assert less(a[i], a[j]);
      } else if i < |a| {
        assert b[j - |a|] in b;
        assert less(a[i], b[j - |a|]);
      } else {
        assert less(b[i - |a|], b[j - |a|]);
      }
    }
  }

  /** One page of a listing: it reads the same rows as the state the listing began in. */
  lemma FirstVisit(cfg: Config, s: State, scope: Scope, cursor: Option<IntentId>, visits: seq<Visit>, n: State)
    requires Inv(cfg, s) && scope in s.db.fences && visits != [] && Listing(cfg, s, scope, cursor, visits)
    requires n == Exec(cfg, s, visits[0].between)
    ensures Inv(cfg, n) && scope in n.db.fences && ScopeRows(n.db, scope) == ScopeRows(s.db, scope)
    ensures IsPage(cfg.less, ScopeRows(s.db, scope), cursor, PageSize, visits[0].page)
    ensures Listing(cfg, n, scope, Advance(cursor, visits[0].page), visits[1..])
  {
    hide Inv, Exec, Grows, ScopeRows, IsPage;
    FencedRowsFixed(cfg, s, visits[0].between, scope);
    RunKeeps(cfg, s, visits[0].between);
  }

  /** Following the last returned id until a page comes back empty lists every intent of the scope
      exactly once, in increasing order, whatever runs between the pages. */
  lemma {:induction false} InventoryExact(cfg: Config, s: State, scope: Scope, cursor: Option<IntentId>, visits: seq<Visit>)
    requires Inv(cfg, s) && scope in s.db.fences && StrictTotal(cfg.less)
    requires Listing(cfg, s, scope, cursor, visits) && visits != [] && visits[|visits| - 1].page == []
    ensures Increasing(cfg.less, Listed(visits))
    ensures Elements(Listed(visits)) == Remaining(cfg.less, ScopeRows(s.db, scope), cursor)
    decreases |visits|
  {
    hide Inv, Exec, ScopeRows, IsPage, StrictTotal, Listing, Increasing, Elements, Remaining;
    var n := Exec(cfg, s, visits[0].between);
    FirstVisit(cfg, s, scope, cursor, visits, n);
    if |visits| == 1 {
      LastPage(cfg.less, ScopeRows(s.db, scope), cursor);
      assert Listed(visits) == [];
    } else {
      InventoryExact(cfg, n, scope, Advance(cursor, visits[0].page), visits[1..]);
      PageThenRest(cfg.less, ScopeRows(s.db, scope), cursor, visits[0].page, Listed(visits[1..]));
    }
  }

  lemma LastPage(less: (IntentId, IntentId) -> bool, rows: set<IntentId>, cursor: Option<IntentId>)
    requires IsPage(less, rows, cursor, PageSize, [])
    ensures Increasing(less, []) && Elements<IntentId>([]) == Remaining(less, rows, cursor)
  {
  }

  /** The listing from the beginning is the unique sorted listing of the scope. */
  lemma InventoryRefinesSnapshot(cfg: Config, run: seq<Label>, scope: Scope, visits: seq<Visit>, snapshot: seq<IntentId>)
    requires scope in Exec(cfg, Start, run).db.fences && StrictTotal(cfg.less)
    requires Listing(cfg, Exec(cfg, Start, run), scope, None, visits) && visits != [] && visits[|visits| - 1].page == []
    requires Increasing(cfg.less, snapshot) && Elements(snapshot) == ScopeRows(Exec(cfg, Start, run).db, scope)
    ensures Listed(visits) == snapshot
  {
    hide Inv, Exec, Listing;
    ReachableInv(cfg, run);
    InventoryExact(cfg, Exec(cfg, Start, run), scope, None, visits);
    assert Remaining(cfg.less, ScopeRows(Exec(cfg, Start, run).db, scope), None) == ScopeRows(Exec(cfg, Start, run).db, scope);
    IncreasingUnique(cfg.less, Listed(visits), snapshot);
  }

  /** The inventory ends: there are never more nonempty pages than intents left to list. */
  lemma {:induction false} InventoryTerminates(cfg: Config, s: State, scope: Scope, cursor: Option<IntentId>, visits: seq<Visit>)
    requires Inv(cfg, s) && scope in s.db.fences && StrictTotal(cfg.less)
    requires Listing(cfg, s, scope, cursor, visits)
    requires forall i :: 0 <= i < |visits| ==> visits[i].page != []
    ensures |visits| <= |Remaining(cfg.less, ScopeRows(s.db, scope), cursor)|
    decreases |visits|
  {
    hide Inv, Exec, ScopeRows, IsPage, StrictTotal, Listing, Remaining;
    if visits != [] {
      var n := Exec(cfg, s, visits[0].between);
      FirstVisit(cfg, s, scope, cursor, visits, n);
      InventoryTerminates(cfg, n, scope, Advance(cursor, visits[0].page), visits[1..]);
      PageProgress(cfg.less, ScopeRows(s.db, scope), cursor, visits[0].page);
    }
  }

  lemma PageProgress(less: (IntentId, IntentId) -> bool, rows: set<IntentId>, cursor: Option<IntentId>, page: seq<IntentId>)
    requires StrictTotal(less) && IsPage(less, rows, cursor, PageSize, page) && page != []
    ensures |Remaining(less, rows, Advance(cursor, page))| < |Remaining(less, rows, cursor)|
  {
    PageSplits(less, rows, cursor, page);
    var left, next := Remaining(less, rows, cursor), Remaining(less, rows, Advance(cursor, page));
    assert page[0] in left && page[0] !in next by {
      assert page[0] in Elements(page);
    }
    hide Remaining;
    Fewer(left, next, page[0]);
  }

  lemma Fewer<K>(big: set<K>, small: set<K>, x: K)
    requires small <= big && x in big && x !in small
    ensures |small| < |big|
  {
    assert small <= big - {x};
    SubsetSize(small, big - {x});
  }

  lemma {:induction false} SubsetSize<K>(small: set<K>, big: set<K>)
    requires small <= big
    ensures |small| <= |big|
  {
    if small != {} {
      var x :| x in small;
      SubsetSize(small - {x}, big - {x});
    }
  }
}
