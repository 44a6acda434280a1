/** Legacy log adoption: once per file, whatever adoptions, retries and uploads run at once. */
module Adoption {
  import opened Types
  import opened Library
  import opened Provider
  import opened Journal
  import opened Protocol
  import opened Evolution
  import opened Invariant
  import opened Preservation

  lemma FileFacts(cfg: Config, s: State)
    requires Inv(cfg, s)
    ensures FilesUnique(s.db)
  {
    hide BlobInv, QuotaInv, ProcInv, RowsOk, ReferencesOk, FencesOk, FrozenOk, PresentationOk;
  }

  lemma HolderIs(db: Db, k: IntentId)
    requires FilesUnique(db) && k in db.uploads
    ensures FileTaken(db, db.uploads[k].file) && HolderOf(db, db.uploads[k].file) == k
  {
  }

  /** In every reachable state a file has at most one journal row. */
  lemma OneRowPerFile(cfg: Config, run: seq<Label>, a: IntentId, b: IntentId)
    requires a in Exec(cfg, Start, run).db.uploads && b in Exec(cfg, Start, run).db.uploads
    requires Exec(cfg, Start, run).db.uploads[a].file == Exec(cfg, Start, run).db.uploads[b].file
    ensures a == b
  {
    hide Inv, Exec;
    ReachableInv(cfg, run);
    FileFacts(cfg, Exec(cfg, Start, run));
  }

  /** What a finished adoption knows of its row. */
  lemma ReceiptRow(cfg: Config, s: State, p: nat, r: Receipt)
    requires Inv(cfg, s) && p in s.procs && s.procs[p] == AdoptDone(r)
    ensures r.id in s.db.uploads && RowOk(r.id, s.db.uploads[r.id]) && s.db.uploads[r.id].file == r.file && r.scope == ScopeOf(s.db.uploads[r.id].identity)
    ensures r.etag != "" ==> r == ReceiptOf(IntentOf(r.id, s.db.uploads[r.id]))
    ensures r.etag == "" ==> r == ReceiptOf(IntentOf(r.id, s.db.uploads[r.id]).(url := NoUrl, etag := ""))
  {
    hide Inv;
    ProcFacts(cfg, s, p);
    RowFacts(cfg, s, r.id);
  }

  /** Any two successful adoptions of one file name the same intent, scope, object, size and digest.
      Their receipts are equal exactly when both or neither already had the object's version. */
  lemma AdoptionsAgree(cfg: Config, run: seq<Label>, p: nat, q: nat, a: Receipt, b: Receipt)
    requires p in Exec(cfg, Start, run).procs && Exec(cfg, Start, run).procs[p] == AdoptDone(a)
    requires q in Exec(cfg, Start, run).procs && Exec(cfg, Start, run).procs[q] == AdoptDone(b)
    requires a.file == b.file
    ensures a.(url := NoUrl, etag := "") == b.(url := NoUrl, etag := "")
    ensures a == b <==> (a.etag == "" <==> b.etag == "")
  {
    var s := Exec(cfg, Start, run);
    hide Inv, Exec;
    ReachableInv(cfg, run);
    ReceiptRow(cfg, s, p, a);
    ReceiptRow(cfg, s, q, b);
    OneRowPerFile(cfg, run, a.id, b.id);
  }

  /** A file that was not stored by the journal is adopted with one receipt for good. */
  lemma LegacyAdoptionsAgree(cfg: Config, run: seq<Label>, p: nat, q: nat, a: Receipt, b: Receipt)
    requires p in Exec(cfg, Start, run).procs && Exec(cfg, Start, run).procs[p] == AdoptDone(a)
    requires q in Exec(cfg, Start, run).procs && Exec(cfg, Start, run).procs[q] == AdoptDone(b)
    requires a.file == b.file && a.file.BareFile?
    ensures a == b && a.etag != ""
  {
    var s := Exec(cfg, Start, run);
    AdoptionsAgree(cfg, run, p, q, a, b);
    hide Inv, Exec;
    ReachableInv(cfg, run);
    BareReceiptComplete(cfg, s, p, a);
    BareReceiptComplete(cfg, s, q, b);
  }


  lemma BareReceiptComplete(cfg: Config, s: State, p: nat, a: Receipt)
    requires Inv(cfg, s) && p in s.procs && s.procs[p] == AdoptDone(a) && a.file.BareFile?
    ensures a.etag != ""
  {
    hide Inv;
    ProcFacts(cfg, s, p);
  }

  /** Every later same-scope adoption, also after retirement, returns the recorded receipt exactly
      when that receipt was complete or the row still is not. */
  lemma AdoptionRepeats(cfg: Config, run: seq<Label>, more: seq<Label>, p: nat, a: Receipt)
    requires p in Exec(cfg, Start, run).procs && Exec(cfg, Start, run).procs[p] == AdoptDone(a)
    ensures
      var db := Exec(cfg, Start, run + more).db;
      && FileTaken(db, a.file) && HolderOf(db, a.file) == a.id
      && AdoptExisting(db, a.scope, a.id).Commit?
      && (AdoptExisting(db, a.scope, a.id).value == a <==> a.etag != "" || db.uploads[a.id].etag == "")
  {
    var n := Exec(cfg, Start, run + more);
    hide Inv, Exec, DbGrows, BlobsGrow;
    Later(cfg, run, more);
    assert n.procs[p] == AdoptDone(a);
    ReceiptRow(cfg, n, p, a);
    FileFacts(cfg, n);
    HolderIs(n.db, a.id);
  }

  /** The same condition on the journal, before the first call: two same-scope adoptions of a file with
      a journal row both succeed, at any distance in a run and on both paths that get past the
      presentation check; they return the same receipt exactly when the row already had its ETag at
      the first, or still has none at the second. */
  lemma AdoptionsAgreeByRow(cfg: Config, run: seq<Label>, more: seq<Label>, k: IntentId, i: Intent, s: Db, n: Db)
    requires s == Exec(cfg, Start, run).db && n == Exec(cfg, Start, run + more).db
    requires k in s.uploads && i.file == s.uploads[k].file
    ensures
      var scope := ScopeOf(s.uploads[k].identity);
      && k in n.uploads && FileTaken(s, i.file) && HolderOf(s, i.file) == k && FileTaken(n, i.file) && HolderOf(n, i.file) == k
      && AdoptExisting(s, scope, k).Commit? && AdoptExisting(n, scope, k).Commit?
      && (AdoptExisting(s, scope, k).value == AdoptExisting(n, scope, k).value <==> s.uploads[k].etag != "" || n.uploads[k].etag == "")
      && (Journal.AdoptCommit(n, scope, i).Commit? ==> Journal.AdoptCommit(n, scope, i) == AdoptExisting(n, scope, k))
  {
    var before, after := Exec(cfg, Start, run), Exec(cfg, Start, run + more);
    hide Inv, Exec, BlobsGrow, CheckRetirement;
    Later(cfg, run, more);
    assert Evolves(s.uploads[k], n.uploads[k]);
    RowFacts(cfg, before, k);
    RowFacts(cfg, after, k);
    FileFacts(cfg, before);
    FileFacts(cfg, after);
    HolderIs(s, k);
    HolderIs(n, k);
  }

  /** A file with a journal row is refused to every other scope, on both paths, for ever. */
  lemma OtherScopeRefused(cfg: Config, run: seq<Label>, more: seq<Label>, k: IntentId, scope: Scope, i: Intent)
    requires k in Exec(cfg, Start, run).db.uploads && ScopeOf(Exec(cfg, Start, run).db.uploads[k].identity) != scope
    requires i.file == Exec(cfg, Start, run).db.uploads[k].file
    ensures
      var db := Exec(cfg, Start, run + more).db;
      && FileTaken(db, i.file) && AdoptExisting(db, scope, HolderOf(db, i.file)) == Rollback(OtherScope)
      && Journal.AdoptCommit(db, scope, i).Rollback?
  {
    var s, n := Exec(cfg, Start, run), Exec(cfg, Start, run + more);
    hide Inv, Exec, BlobsGrow, CheckRetirement;
    Later(cfg, run, more);
    assert Evolves(s.db.uploads[k], n.db.uploads[k]);
    FileFacts(cfg, n);
    HolderIs(n.db, k);
  }

  /****** Adopting a file whose upload is still under way ******/

  const Example: Identity := Identity("o", "r", "s", 1, ExportPath("a"), "a", "m", "c", 0, "d")

  const ExampleId: IntentId := IntentIdOf(Example)
  const ExampleFile: FileId := DerivedFile(ExampleId)

  /** A reservation, an adoption of its file, the upload, and another adoption of its file. */
  function ExampleRun(): seq<Label> {
    [Label.Reserve(0, Example, [], true),
     Label.AdoptKnown(1, ScopeOf(Example), ExampleFile),
     Label.Upload(0, "e", true, true),
     Label.SaveVerified(0, true),
     Label.AdoptKnown(2, ScopeOf(Example), ExampleFile)]
  }

  lemma ExampleReserves(cfg: Config)
    ensures Apply(cfg, Start, ExampleRun()[0]) ==
      SetProc(Start.(db := SetUpload(EmptyDb, ExampleId, NewUpload(Example))), 0, Admitted(IntentOf(ExampleId, NewUpload(Example))))
  {
    assert JournalCharges(EmptyDb, "o") == map[] && LibraryCharges(EmptyDb, "o") == map[];
    assert Admits(EmptyDb, "o", 0, [], cfg.quota);
    assert !OwnerLocked(Start, "o");
    assert Journal.Reserve(EmptyDb, Example, [], cfg.quota) == Commit(SetUpload(EmptyDb, ExampleId, NewUpload(Example)), IntentOf(ExampleId, NewUpload(Example)));
  }

  /** Adopting a file that has a journal row in this scope. */
  lemma KnownAdopted(cfg: Config, s: State, p: nat, scope: Scope, k: IntentId)
    requires FilesUnique(s.db) && k in s.db.uploads && p !in s.procs && !OwnerLocked(s, scope.owner) && InScope(k, s.db.uploads[k].identity, scope)
    ensures Apply(cfg, s, Label.AdoptKnown(p, scope, s.db.uploads[k].file)) == SetProc(s, p, AdoptDone(ReceiptOf(IntentOf(k, s.db.uploads[k]))))
  {
    HolderIs(s.db, k);
  }

  lemma ExampleUploads(cfg: Config, s: State)
    requires s.blobs == map[] && 0 in s.procs && s.procs[0] == Admitted(IntentOf(ExampleId, NewUpload(Example)))
    ensures
      var n := Apply(cfg, s, ExampleRun()[2]);
      n.db == s.db && n.procs == s.procs[0 := Uploaded(IntentOf(ExampleId, NewUpload(Example)), "e")]
  {
  }

  lemma ExampleSaves(cfg: Config, s: State)
    requires s.db.uploads == map[ExampleId := NewUpload(Example)]
    requires 0 in s.procs && s.procs[0] == Uploaded(IntentOf(ExampleId, NewUpload(Example)), "e") && !RowLocked(s, ExampleId)
    ensures
      var n := Apply(cfg, s, ExampleRun()[3]);
      && n.db.uploads == map[ExampleId := NewUpload(Example).(state := BlobVerified, etag := "e", url := ProviderUrl(PlaceOf(NewUpload(Example))))]
      && n.procs.Keys == s.procs.Keys && n.procs[0].Verified? && forall p :: p in s.procs && p != 0 ==> n.procs[p] == s.procs[p]
  {
  }

  /** Adopting the file of an upload that has no receipt yet hands out an incomplete one: two
      successful same-scope adoptions of one file then differ. */
  lemma UnfinishedAdoptionsDiffer(cfg: Config)
    ensures
      var procs := Exec(cfg, Start, ExampleRun()).procs;
      && 1 in procs && procs[1].AdoptDone? && 2 in procs && procs[2].AdoptDone?
      && procs[1].receipt.file == procs[2].receipt.file && procs[1].receipt != procs[2].receipt
  {
    var run := ExampleRun();
    var k, scope := ExampleId, ScopeOf(Example);
    hide Apply, Exec;
    var s0, s1, s2 := Exec(cfg, Start, run[..0]), Exec(cfg, Start, run[..1]), Exec(cfg, Start, run[..2]);
    var s3, s4, s5 := Exec(cfg, Start, run[..3]), Exec(cfg, Start, run[..4]), Exec(cfg, Start, run[..5]);
    assert s0 == Start by { NoSteps(cfg); }
    assert run[..1] == run[..0] + [run[0]];
    ExecOne(cfg, Start, run[..0], run[0]);
    ExampleReserves(cfg);
    assert run[..2] == run[..1] + [run[1]];
    ExecOne(cfg, Start, run[..1], run[1]);
    KnownAdopted(cfg, s1, 1, scope, k);
    assert s1.db.uploads[k].file == ExampleFile;
    assert run[..3] == run[..2] + [run[2]];
    ExecOne(cfg, Start, run[..2], run[2]);
    ExampleUploads(cfg, s2);
    assert run[..4] == run[..3] + [run[3]];
    ExecOne(cfg, Start, run[..3], run[3]);
    ExampleSaves(cfg, s3);
    assert run[..5] == run[..4] + [run[4]];
    ExecOne(cfg, Start, run[..4], run[4]);
    KnownAdopted(cfg, s4, 2, scope, k);
    assert s4.db.uploads[k].file == ExampleFile;
    assert run[..5] == run;
  }

  lemma NoSteps(cfg: Config)
    ensures Exec(cfg, Start, ExampleRun()[..0]) == Start
  {
  }
}
