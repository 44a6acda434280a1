/** What undisturbed calls achieve, from every reachable state; what a lost reply leaves; what others can
    do meanwhile. */
module Progress {
  import opened Types
  import opened Sizes
  import opened Library
  import opened Provider
  import opened Journal
  import opened Protocol
  import opened Evolution
  import opened Invariant
  import opened Preservation
  import opened Transactions
  import opened Orders
  import opened Retirement
  import Adoption
  import Cleanup
  import Guarantees

  /****** Fences ******/

  /** With the owner's lock free, fencing a scope fences it and changes nothing else; in every continuation
      every reservation in it is refused, whatever its path, name or size. */
  lemma FenceStands(cfg: Config, run: seq<Label>, scope: Scope, more: seq<Label>, x: Identity, others: seq<Number>, s: State, n: State, later: State)
    requires s == Exec(cfg, Start, run) && n == Exec(cfg, Start, run + [Label.Fence(scope)]) && !OwnerLocked(s, scope.owner)
    requires later == Exec(cfg, Start, run + [Label.Fence(scope)] + more)
    requires x.owner == scope.owner && x.run == scope.run && x.step == scope.step && x.attempt == scope.attempt
    ensures scope in n.db.fences && n.db.fences.Keys == s.db.fences.Keys + {scope}
    ensures n == s.(db := s.db.(fences := n.db.fences))
    ensures scope in later.db.fences && Journal.Reserve(later.db, x, others, cfg.quota) == Rollback(ScopeFenced)
  {
    ExecOne(cfg, Start, run, Label.Fence(scope));
    FenceExact(cfg, run, scope, s.db, Journal.Fence(s.db, scope));
    FenceStep(cfg, s, scope, n);
    hide Exec, Inv, BlobsGrow, Journal.Fence, Apply, OwnerLocked;
    Later(cfg, run + [Label.Fence(scope)], more);
    Cleanup.FencesFacts(cfg, later);
    Cleanup.FenceTriggers(later.db, x);
  }

  lemma FenceStep(cfg: Config, s: State, scope: Scope, n: State)
    requires n == Apply(cfg, s, Label.Fence(scope)) && !OwnerLocked(s, scope.owner)
    ensures n == if Journal.Fence(s.db, scope).Commit? then s.(db := Journal.Fence(s.db, scope).db) else s
  {
    hide Journal.Fence, OwnerLocked;
  }

  /****** References ******/

  lemma ReferenceStep(cfg: Config, s: State, scope: Scope, reference: string, ids: seq<IntentId>, release: bool, n: State)
    requires n == Apply(cfg, s, Label.ChangeReference(scope, reference, ids, release)) && !OwnerLocked(s, scope.owner)
    ensures
      var tx := Journal.ChangeReference(s.db, cfg.less, scope, reference, ids, release);
      n == if tx.Commit? then s.(db := tx.db) else s
  {
    hide Journal.ChangeReference, OwnerLocked;
  }

  /** With the owner's lock free, a well-formed release of a new reference, or of one recorded for the same
      ids, releases it, and it stays released in every continuation. */
  lemma ReleaseStands(cfg: Config, run: seq<Label>, scope: Scope, reference: string, ids: seq<IntentId>, more: seq<Label>, s: State, n: State, later: State)
    requires StrictTotal(cfg.less) && s == Exec(cfg, Start, run) && !OwnerLocked(s, scope.owner)
    requires WellFormed(reference, ids) && SameRequest(s.db, RefKey(scope, reference), ids)
    requires n == Exec(cfg, Start, run + [Label.ChangeReference(scope, reference, ids, true)])
    requires later == Exec(cfg, Start, run + [Label.ChangeReference(scope, reference, ids, true)] + more)
    ensures OnlyReference(s.db, n.db, RefKey(scope, reference), ids, Released) && n == s.(db := n.db)
    ensures RefKey(scope, reference) in later.db.references && later.db.references[RefKey(scope, reference)] == n.db.references[RefKey(scope, reference)]
  {
    var l := Label.ChangeReference(scope, reference, ids, true);
    ExecOne(cfg, Start, run, l);
    ReleaseExact(cfg, run, scope, reference, ids, s.db, Journal.ChangeReference(s.db, cfg.less, scope, reference, ids, true));
    ReferenceStep(cfg, s, scope, reference, ids, true, n);
    hide Exec, StrictTotal, Journal.ChangeReference, Apply, OwnerLocked, WellFormed, SameRequest;
    Guarantees.ReleaseIsPermanent(cfg, run + [l], more, RefKey(scope, reference), ids);
  }

  /** With the owner's lock free, a pin of ready intents makes the reference active. */
  lemma PinActs(cfg: Config, run: seq<Label>, scope: Scope, reference: string, ids: seq<IntentId>, s: State, n: State)
    requires StrictTotal(cfg.less) && s == Exec(cfg, Start, run) && !OwnerLocked(s, scope.owner)
    requires n == Exec(cfg, Start, run + [Label.ChangeReference(scope, reference, ids, false)])
    requires WellFormed(reference, ids) && SameRequest(s.db, RefKey(scope, reference), ids)
    requires RefKey(scope, reference) in s.db.references ==> s.db.references[RefKey(scope, reference)].state != Released
    requires forall k :: k in ids ==> Guarantees.ReadyIn(s.db, scope, k)
    ensures OnlyReference(s.db, n.db, RefKey(scope, reference), ids, Active) && n == s.(db := n.db)
  {
    ExecOne(cfg, Start, run, Label.ChangeReference(scope, reference, ids, false));
    PinExact(cfg, run, scope, reference, ids, s.db, Journal.ChangeReference(s.db, cfg.less, scope, reference, ids, false));
    ReferenceStep(cfg, s, scope, reference, ids, false, n);
  }

  /****** Retirement from the beginning ******/

  lemma BeginStarts(cfg: Config, s: State, k: IntentId, p: nat, token: string, next: Types.Upload)
    requires Inv(cfg, s) && k in s.db.uploads && !InRetirement(s.db.uploads[k].state) && Retirable(s.db, k)
    requires p !in s.procs && token != "" && !OwnerLocked(s, s.db.uploads[k].identity.owner)
    requires next == s.db.uploads[k].(state := Retiring, generation := s.db.uploads[k].generation + 1, lease := token)
    ensures DoBeginRetirement(s, p, ScopeOf(s.db.uploads[k].identity), k, token, true)
      == SetProc(s.(db := SetUpload(s.db, k, next)), p, RetireBegun(IntentOf(k, next), token))
  {
    var scope := ScopeOf(s.db.uploads[k].identity);
    var tx := Journal.BeginRetirement(s.db, scope, k, token);
    hide Inv, Journal.BeginRetirement, Retirable, OwnerLocked;
    BeginDecides(cfg, s, scope, k, token, tx);
    assert tx.db.uploads == s.db.uploads[k := next];
    assert tx.db == SetUpload(s.db, k, next);
  }

  /** The four steps of an undisturbed retirement and its purge. */
  function RetireRun(p: nat, scope: Scope, k: IntentId, token: string, etag: string): seq<Label> {
    [Label.BeginRetirement(p, scope, k, token, true), Label.RetireObject(p, etag, true), Label.ConfirmRetirement(p, true), Label.Purge(scope, k)]
  }

  lemma FourSteps(cfg: Config, s: State, run: seq<Label>)
    requires |run| == 4
    ensures Exec(cfg, s, run) == Apply(cfg, Apply(cfg, Apply(cfg, Apply(cfg, s, run[0]), run[1]), run[2]), run[3])
  {
    assert Exec(cfg, s, run[..0]) == s;
    hide Apply, Exec;
    assert run[..1] == run[..0] + [run[0]] && run[..2] == run[..1] + [run[1]] && run[..3] == run[..2] + [run[2]] && run == run[..3] + [run[3]];
    ExecOne(cfg, s, run[..0], run[0]);
    ExecOne(cfg, s, run[..1], run[1]);
    ExecOne(cfg, s, run[..2], run[2]);
    ExecOne(cfg, s, run[..3], run[3]);
  }

  /** The states of an undisturbed retirement that begins. */
  lemma RetirementSteps(cfg: Config, s: State, k: IntentId, p: nat, token: string, etag: string, scope: Scope, next: Types.Upload,
                        begun: State, fenced: State, confirmed: State)
    requires Inv(cfg, s) && k in s.db.uploads && !InRetirement(s.db.uploads[k].state) && Retirable(s.db, k)
    requires scope == ScopeOf(s.db.uploads[k].identity) && p !in s.procs && token != "" && etag != "" && !OwnerLocked(s, scope.owner)
    requires next == s.db.uploads[k].(state := Retiring, generation := s.db.uploads[k].generation + 1, lease := token)
    requires begun == DoBeginRetirement(s, p, scope, k, token, true) && fenced == DoRetireObject(begun, p, etag, true)
    requires confirmed == DoConfirmRetirement(fenced, p, true)
    ensures Inv(cfg, confirmed) && !OwnerLocked(confirmed, scope.owner)
    ensures confirmed.db == SetUpload(s.db, k, next.(state := Retired, retiredEtag := etag))
    ensures p in confirmed.procs && confirmed.procs[p] == RetireDone(RetiredReceipt(k, next.file, etag))
  {
    hide Inv, OwnerLocked, DoBeginRetirement, DoRetireObject, DoConfirmRetirement, Retirable, Grows;
    BeginStarts(cfg, s, k, p, token, next);
    BeginRetirementKeeps(cfg, s, p, scope, k, token, true);
    UnlockedStays(s, p, RetireBegun(IntentOf(k, next), token), scope.owner);
    ObjectGoes(cfg, begun, k, p, etag);
    RetireObjectKeeps(cfg, begun, p, etag, true);
    UnlockedStays(begun, p, RetireFenced(IntentOf(k, next), token, etag), scope.owner);
    ConfirmGoes(fenced, k, p, etag);
    ConfirmRetirementKeeps(cfg, fenced, p, true);
    UnlockedStays(fenced, p, RetireDone(RetiredReceipt(k, next.file, etag)), scope.owner);
    assert SetUpload(SetUpload(s.db, k, next), k, next.(state := Retired, retiredEtag := etag)).uploads
      == SetUpload(s.db, k, next.(state := Retired, retiredEtag := etag)).uploads;
  }

  /** From every reachable state, and whatever the intent's state short of retirement: an undisturbed call
      and purge retire the bytes and remove the presentation, if nobody pins the intent and nobody but
      the pipeline touched its file. Only that row and that file's presentation differ. */
  lemma RetirementRuns(cfg: Config, run: seq<Label>, k: IntentId, p: nat, token: string, etag: string, scope: Scope, s: State, n: State)
    requires s == Exec(cfg, Start, run) && n == Exec(cfg, Start, run + RetireRun(p, scope, k, token, etag))
    requires k in s.db.uploads && !InRetirement(s.db.uploads[k].state) && Retirable(s.db, k)
    requires scope == ScopeOf(s.db.uploads[k].identity) && p !in s.procs && token != "" && etag != "" && !OwnerLocked(s, scope.owner)
    ensures Gone(n, k) && OnlyUpload(s.db, n.db, k) && n.db.references == s.db.references && n.db.fences == s.db.fences
    ensures n.db.uploads[k] ==
      s.db.uploads[k].(state := Retired, generation := s.db.uploads[k].generation + 1, lease := token, retiredEtag := etag, purged := true)
    ensures p in n.procs && n.procs[p] == RetireDone(RetiredReceipt(k, s.db.uploads[k].file, etag))
  {
    hide Exec, Inv, Retirable, OwnerLocked, RetireRun, Gone, OnlyUpload;
    ReachableInv(cfg, run);
    ExecConcat(cfg, Start, run, RetireRun(p, scope, k, token, etag));
    RetireRunSteps(cfg, s, k, p, token, etag, scope);
    RetirementGoes(cfg, s, k, p, token, etag, scope, n);
  }

  lemma RetireRunSteps(cfg: Config, s: State, k: IntentId, p: nat, token: string, etag: string, scope: Scope)
    ensures Exec(cfg, s, RetireRun(p, scope, k, token, etag))
      == DoPurge(DoConfirmRetirement(DoRetireObject(DoBeginRetirement(s, p, scope, k, token, true), p, etag, true), p, true), scope, k)
  {
    var run := RetireRun(p, scope, k, token, etag);
    var begun := DoBeginRetirement(s, p, scope, k, token, true);
    var fenced := DoRetireObject(begun, p, etag, true);
    FourSteps(cfg, s, run);
    RetireLabels(cfg, s, k, p, token, etag, scope);
    RetireLabels(cfg, begun, k, p, token, etag, scope);
    RetireLabels(cfg, fenced, k, p, token, etag, scope);
    RetireLabels(cfg, DoConfirmRetirement(fenced, p, true), k, p, token, etag, scope);
    hide Exec, Apply, DoBeginRetirement, DoRetireObject, DoConfirmRetirement, DoPurge;
  }

  lemma RetirementGoes(cfg: Config, s: State, k: IntentId, p: nat, token: string, etag: string, scope: Scope, n: State)
    requires Inv(cfg, s) && k in s.db.uploads && !InRetirement(s.db.uploads[k].state) && Retirable(s.db, k)
    requires scope == ScopeOf(s.db.uploads[k].identity) && p !in s.procs && token != "" && etag != "" && !OwnerLocked(s, scope.owner)
    requires n == DoPurge(DoConfirmRetirement(DoRetireObject(DoBeginRetirement(s, p, scope, k, token, true), p, etag, true), p, true), scope, k)
    ensures Gone(n, k) && OnlyUpload(s.db, n.db, k) && n.db.references == s.db.references && n.db.fences == s.db.fences
    ensures n.db.uploads[k] ==
      s.db.uploads[k].(state := Retired, generation := s.db.uploads[k].generation + 1, lease := token, retiredEtag := etag, purged := true)
    ensures p in n.procs && n.procs[p] == RetireDone(RetiredReceipt(k, s.db.uploads[k].file, etag))
  {
    hide Inv, Retirable, OwnerLocked, DoBeginRetirement, DoRetireObject, DoConfirmRetirement, DoPurge;
    var next := s.db.uploads[k].(state := Retiring, generation := s.db.uploads[k].generation + 1, lease := token);
    var begun := DoBeginRetirement(s, p, scope, k, token, true);
    var fenced := DoRetireObject(begun, p, etag, true);
    var confirmed := DoConfirmRetirement(fenced, p, true);
    RetirementSteps(cfg, s, k, p, token, etag, scope, next, begun, fenced, confirmed);
    PurgeSucceeds(cfg, confirmed, k);
    PurgeRows(confirmed, scope, k, n);
  }

  lemma PurgeRows(s: State, scope: Scope, k: IntentId, n: State)
    requires n == DoPurge(s, scope, k) && k in s.db.uploads && k in n.db.uploads && n.db.uploads[k].purged
    ensures OnlyUpload(s.db, n.db, k) && n.db.references == s.db.references && n.db.fences == s.db.fences && n.procs == s.procs
    ensures n.db.uploads[k] == s.db.uploads[k].(purged := true)
  {
    hide OwnerLocked, CheckRetirement, DeletePresentation;
  }

  /****** Adoption ******/

  /** The identity an adoption gives a file. */
  function LegacyLog(scope: Scope, f: FileId, row: FileRow, container: string): Identity {
    Identity(scope.owner, scope.run, scope.step, scope.attempt, LegacyLogPath(f, row.name), row.name, row.mime, container, SizeOf(row.size), row.sha)
  }

  function LegacyObject(scope: Scope, f: FileId, row: FileRow): ObjectKey {
    ObjectKey(scope.owner, f, row.name)
  }

  /** The object the row should name holds exactly the row's bytes, and the row names it. */
  ghost predicate ObjectIntact(blobs: Blobs, scope: Scope, f: FileId, row: FileRow, container: string) {
    var place := Place(container, LegacyObject(scope, f, row));
    && At(blobs, place).Blob? && At(blobs, place).size == SizeOf(row.size) && At(blobs, place).sha == row.sha && At(blobs, place).etag != ""
    && (row.url == ProviderUrl(place) || row.url == ObjectUrl(place.obj))
  }

  /** A file can be adopted: it is a legacy log of the scope, its object is intact, nobody but the pipeline
      touched it, and neither a fence nor another intent is in the way. */
  ghost predicate Adoptable(s: State, scope: Scope, f: FileId, container: string) {
    && FileHead(s.db.library, f).Some?
    && var row := FileHead(s.db.library, f).value;
       && LegacyRow(row, scope) && ObjectIntact(s.blobs, scope, f, row, container)
       && Untouched(s.db.library, f, LegacyLog(scope, f, row, container), row.url)
       && scope !in s.db.fences && IntentIdOf(LegacyLog(scope, f, row, container)) !in s.db.uploads
  }

  /** What an adoption has read: the offered intent, or a refusal. */
  lemma AdoptionReads(s: State, p: nat, scope: Scope, f: FileId, container: string, n: State)
    requires p in s.procs && s.procs[p] == AdoptUnknown(scope, f) && n == DoAdoptRead(s, p, container)
    ensures n == SetProc(s, p, n.procs[p]) && (n.procs[p].AdoptFound? || n.procs[p].Failed?)
    ensures n.procs[p].AdoptFound? <==> FileHead(s.db.library, f).Some? && LegacyRow(FileHead(s.db.library, f).value, scope)
    ensures n.procs[p].AdoptFound? ==>
      && n.procs[p].scope == scope && n.procs[p].i.file == f && n.procs[p].i.etag == ""
      && n.procs[p].i.identity == LegacyLog(scope, f, FileHead(s.db.library, f).value, container)
      && n.procs[p].i.obj == LegacyObject(scope, f, FileHead(s.db.library, f).value) && n.procs[p].i.url == FileHead(s.db.library, f).value.url
  {
    LegacyReadExact(s.db.library, scope, f, container, LegacyRead(s.db.library, scope, f, container));
    hide LegacyRead;
  }

  lemma AdoptionVerifies(s: State, p: nat, scope: Scope, f: FileId, row: FileRow, container: string, n: State)
    requires p in s.procs && s.procs[p].AdoptFound? && s.procs[p].scope == scope && n == DoAdoptVerify(s, p)
    requires s.procs[p].i.file == f && s.procs[p].i.identity == LegacyLog(scope, f, row, container)
    requires s.procs[p].i.obj == LegacyObject(scope, f, row) && s.procs[p].i.url == row.url
    ensures n == SetProc(s, p, n.procs[p]) && (n.procs[p].AdoptChecked? || n.procs[p].Failed?)
    ensures n.procs[p].AdoptChecked? <==> ObjectIntact(s.blobs, scope, f, row, container)
    ensures n.procs[p].AdoptChecked? ==> n.procs[p].scope == scope && n.procs[p].i == s.procs[p].i.(etag := n.procs[p].i.etag)
  {
  }

  lemma AdoptionCommits(cfg: Config, s: State, p: nat, scope: Scope, n: State)
    requires Inv(cfg, s) && p in s.procs && s.procs[p].AdoptChecked? && s.procs[p].scope == scope && !FileTaken(s.db, s.procs[p].i.file)
    requires !OwnerLocked(s, scope.owner) && n == DoAdoptCommit(s, p, true)
    ensures p in n.procs && (n.procs[p].AdoptDone? || n.procs[p].Failed?)
    ensures n.procs[p].AdoptDone? <==>
      Untouched(s.db.library, s.procs[p].i.file, s.procs[p].i.identity, s.procs[p].i.url) && s.procs[p].i.id !in s.db.uploads && scope !in s.db.fences
    ensures n.procs[p].AdoptDone? ==>
      && OnlyRow(s.db, n.db, s.procs[p].i.id) && AdoptedRow(n.db.uploads[s.procs[p].i.id], s.procs[p].i)
      && Guarantees.Describes(n.procs[p].receipt, s.procs[p].i.id, n.db.uploads[s.procs[p].i.id])
    ensures n.procs[p].Failed? ==> n.db == s.db
  {
    hide Inv, OwnerLocked, Untouched, Journal.AdoptCommit;
    ProcFacts(cfg, s, p);
    AdoptNewDecides(cfg, s, scope, s.procs[p].i, Journal.AdoptCommit(s.db, scope, s.procs[p].i));
  }

  function AdoptRun(p: nat, scope: Scope, f: FileId, container: string): seq<Label> {
    [Label.AdoptLook(p, scope, f), Label.AdoptRead(p, container), Label.AdoptVerify(p), Label.AdoptCommit(p, true)]
  }

  lemma AdoptRunSteps(cfg: Config, s: State, p: nat, scope: Scope, f: FileId, container: string)
    ensures Exec(cfg, s, AdoptRun(p, scope, f, container))
      == DoAdoptCommit(DoAdoptVerify(DoAdoptRead(DoAdoptLook(s, p, scope, f), p, container), p), p, true)
  {
    var run := AdoptRun(p, scope, f, container);
    var looked := DoAdoptLook(s, p, scope, f);
    var read := DoAdoptRead(looked, p, container);
    FourSteps(cfg, s, run);
    LookLabels(cfg, s, p, scope, f, container);
    LookLabels(cfg, looked, p, scope, f, container);
    AdoptLabels(cfg, read, p);
    AdoptLabels(cfg, DoAdoptVerify(read, p), p);
    hide Exec, Apply, DoAdoptLook, DoAdoptRead, DoAdoptVerify, DoAdoptCommit;
  }

  lemma LookLabels(cfg: Config, s: State, p: nat, scope: Scope, f: FileId, container: string)
    ensures Apply(cfg, s, Label.AdoptLook(p, scope, f)) == DoAdoptLook(s, p, scope, f)
    ensures Apply(cfg, s, Label.AdoptRead(p, container)) == DoAdoptRead(s, p, container)
  {
    hide DoAdoptLook, DoAdoptRead;
  }

  lemma AdoptLabels(cfg: Config, s: State, p: nat)
    ensures Apply(cfg, s, Label.AdoptVerify(p)) == DoAdoptVerify(s, p)
    ensures Apply(cfg, s, Label.AdoptCommit(p, true)) == DoAdoptCommit(s, p, true)
  {
    hide DoAdoptVerify, DoAdoptCommit;
  }

  lemma FailedAdoption(s: State, p: nat)
    requires p in s.procs && s.procs[p] == Failed
    ensures DoAdoptVerify(s, p) == s && DoAdoptCommit(s, p, true) == s
  {
  }

  /** The row an adoption leaves for the Library row it read. */
  ghost predicate AdoptedFrom(db: Db, n: Db, receipt: Receipt, scope: Scope, f: FileId, row: FileRow, container: string) {
    && OnlyRow(db, n, receipt.id) && Guarantees.Describes(receipt, receipt.id, n.uploads[receipt.id])
    && n.uploads[receipt.id].identity == LegacyLog(scope, f, row, container)
    && n.uploads[receipt.id].file == f && n.uploads[receipt.id].state == Ready && n.uploads[receipt.id].generation == 1
    && n.uploads[receipt.id].url == row.url && n.uploads[receipt.id].etag != ""
  }

  /** An adoption that read an acceptable row. */
  lemma FoundGoes(cfg: Config, s: State, p: nat, scope: Scope, f: FileId, row: FileRow, container: string, n: State)
    requires Inv(cfg, s) && p in s.procs && s.procs[p].AdoptFound? && s.procs[p].scope == scope && !FileTaken(s.db, f) && !OwnerLocked(s, scope.owner)
    requires s.procs[p].i.file == f && s.procs[p].i.identity == LegacyLog(scope, f, row, container)
    requires s.procs[p].i.obj == LegacyObject(scope, f, row) && s.procs[p].i.url == row.url
    requires n == DoAdoptCommit(DoAdoptVerify(s, p), p, true)
    ensures p in n.procs && (n.procs[p].AdoptDone? || n.procs[p].Failed?)
    ensures n.procs[p].AdoptDone? <==>
      && ObjectIntact(s.blobs, scope, f, row, container) && Untouched(s.db.library, f, LegacyLog(scope, f, row, container), row.url)
      && scope !in s.db.fences && IntentIdOf(LegacyLog(scope, f, row, container)) !in s.db.uploads
    ensures n.procs[p].Failed? ==> n.db == s.db
    ensures n.procs[p].AdoptDone? ==> AdoptedFrom(s.db, n.db, n.procs[p].receipt, scope, f, row, container)
  {
    hide Inv, OwnerLocked, Untouched, ObjectIntact, DoAdoptVerify, DoAdoptCommit, FileTaken;
    var verified := DoAdoptVerify(s, p);
    ProcFacts(cfg, s, p);
    AdoptionVerifies(s, p, scope, f, row, container, verified);
    if verified.procs[p].Failed? {
      FailedAdoption(verified, p);
    } else {
      assert Inv(cfg, verified) by {
        hide Grows;
        AdoptVerifyKeeps(cfg, s, p);
      }
      ProcFacts(cfg, verified, p);
      Retirement.UnlockedStays(s, p, verified.procs[p], scope.owner);
      AdoptionCommits(cfg, verified, p, scope, n);
    }
  }

  lemma AdoptionGoes(cfg: Config, s: State, p: nat, scope: Scope, f: FileId, container: string, n: State)
    requires Inv(cfg, s) && p !in s.procs && !FileTaken(s.db, f) && !OwnerLocked(s, scope.owner)
    requires n == DoAdoptCommit(DoAdoptVerify(DoAdoptRead(DoAdoptLook(s, p, scope, f), p, container), p), p, true)
    ensures p in n.procs && (n.procs[p].AdoptDone? || n.procs[p].Failed?)
    ensures n.procs[p].AdoptDone? <==> Adoptable(s, scope, f, container)
    ensures n.procs[p].Failed? ==> n.db == s.db
    ensures n.procs[p].AdoptDone? ==> AdoptedFrom(s.db, n.db, n.procs[p].receipt, scope, f, FileHead(s.db.library, f).value, container)
  {
    hide Inv, OwnerLocked, Untouched, LegacyRow, ObjectIntact, DoAdoptRead, DoAdoptVerify, DoAdoptCommit, AdoptedFrom;
    var looked := DoAdoptLook(s, p, scope, f);
    var read := DoAdoptRead(looked, p, container);
    AdoptionReads(looked, p, scope, f, container, read);
    if read.procs[p].Failed? {
      FailedAdoption(read, p);
    } else {
      assert Inv(cfg, read) by {
        hide Grows;
        AdoptLookKeeps(cfg, s, p, scope, f);
        AdoptReadKeeps(cfg, looked, p, container);
      }
      Retirement.UnlockedStays(s, p, read.procs[p], scope.owner);
      FoundGoes(cfg, read, p, scope, f, FileHead(s.db.library, f).value, container, n);
    }
  }

  /** From every reachable state an undisturbed adoption of a file without a journal row succeeds exactly
      when the file is adoptable; it then inserts exactly one ready row that says what the Library row
      and the object say, and returns its receipt. A refused one changes nothing. */
  lemma AdoptOutcome(cfg: Config, run: seq<Label>, p: nat, scope: Scope, f: FileId, container: string, s: State, n: State)
    requires s == Exec(cfg, Start, run) && n == Exec(cfg, Start, run + AdoptRun(p, scope, f, container))
    requires p !in s.procs && !FileTaken(s.db, f) && !OwnerLocked(s, scope.owner)
    ensures p in n.procs && (n.procs[p].AdoptDone? || n.procs[p].Failed?)
    ensures n.procs[p].AdoptDone? <==> Adoptable(s, scope, f, container)
    ensures n.procs[p].Failed? ==> n.db == s.db
    ensures n.procs[p].AdoptDone? ==> AdoptedFrom(s.db, n.db, n.procs[p].receipt, scope, f, FileHead(s.db.library, f).value, container)
  {
    hide Exec, Inv, OwnerLocked, Adoptable, AdoptRun, AdoptedFrom, FileTaken;
    ReachableInv(cfg, run);
    ExecConcat(cfg, Start, run, AdoptRun(p, scope, f, container));
    AdoptRunSteps(cfg, s, p, scope, f, container);
    AdoptionGoes(cfg, s, p, scope, f, container, n);
  }

  /** With the owner's lock free, adopting a file that has a journal row returns that row's receipt to its
      own scope, refuses any other, and changes nothing. */
  lemma KnownOutcome(cfg: Config, run: seq<Label>, p: nat, scope: Scope, k: IntentId, s: State, n: State)
    requires s == Exec(cfg, Start, run) && k in s.db.uploads && p !in s.procs && !OwnerLocked(s, scope.owner)
    requires n == Exec(cfg, Start, run + [Label.AdoptKnown(p, scope, s.db.uploads[k].file)])
    ensures n.db == s.db && n.blobs == s.blobs && p in n.procs && (n.procs[p].AdoptDone? || n.procs[p].Failed?)
    ensures n.procs[p].AdoptDone? <==> scope == ScopeOf(s.db.uploads[k].identity)
    ensures n.procs[p].AdoptDone? ==> Guarantees.Describes(n.procs[p].receipt, k, s.db.uploads[k])
  {
    ExecOne(cfg, Start, run, Label.AdoptKnown(p, scope, s.db.uploads[k].file));
    AdoptKnownExact(cfg, run, scope, k, s.db, AdoptExisting(s.db, scope, k));
    ReachableInv(cfg, run);
    hide Exec, Inv;
    Adoption.FileFacts(cfg, s);
    KnownStep(cfg, s, p, scope, k);
    hide Apply, AdoptExisting, OwnerLocked, FilesUnique;
  }

  lemma KnownStep(cfg: Config, s: State, p: nat, scope: Scope, k: IntentId)
    requires FilesUnique(s.db) && k in s.db.uploads && p !in s.procs && !OwnerLocked(s, scope.owner)
    ensures
      var tx := AdoptExisting(s.db, scope, k);
      Apply(cfg, s, Label.AdoptKnown(p, scope, s.db.uploads[k].file)) == SetProc(s, p, if tx.Commit? then AdoptDone(tx.value) else Failed)
  {
    Adoption.HolderIs(s.db, k);
    hide OwnerLocked, AdoptExisting;
  }

  /****** Lost replies, crashes and others ******/

  predicate HasReply(l: Label) {
    l.Reserve? || l.Upload? || l.SaveVerified? || l.FinalizeRecord? || l.FinalizePromote? || l.FinalizeCommit?
    || l.BeginRetirement? || l.RetireObject? || l.ConfirmRetirement? || l.AdoptCommit?
  }

  /** The same step, whose reply does not arrive. */
  function Lose(l: Label): Label
    requires HasReply(l)
  {
    match l
    case Reserve(p, x, others, _) => Label.Reserve(p, x, others, false)
    case Upload(p, etag, delivered, _) => Label.Upload(p, etag, delivered, false)
    case SaveVerified(p, _) => Label.SaveVerified(p, false)
    case FinalizeRecord(p, _) => Label.FinalizeRecord(p, false)
    case FinalizePromote(p, _) => Label.FinalizePromote(p, false)
    case FinalizeCommit(p, _) => Label.FinalizeCommit(p, false)
    case BeginRetirement(p, scope, k, token, _) => Label.BeginRetirement(p, scope, k, token, false)
    case RetireObject(p, etag, _) => Label.RetireObject(p, etag, false)
    case ConfirmRetirement(p, _) => Label.ConfirmRetirement(p, false)
    case AdoptCommit(p, _) => Label.AdoptCommit(p, false)
  }

  /** The durable effect is the same, and the call, if it moved, knows nothing of it. */
  predicate Lost(s: State, n: State, lossy: State, p: nat) {
    && lossy.db == n.db && lossy.blobs == n.blobs
    && (n.procs != s.procs ==> lossy.procs == s.procs[p := Failed])
    && (n.procs == s.procs ==> lossy == s && n == s)
  }

  lemma LostReserve(cfg: Config, s: State, p: nat, x: Identity, others: seq<Number>, reply: bool)
    ensures Lost(s, DoReserve(cfg, s, p, x, others, reply), DoReserve(cfg, s, p, x, others, false), p)
  {
    hide Journal.Reserve, OwnerLocked;
  }

  lemma LostObject(s: State, p: nat, etag: string, delivered: bool, reply: bool)
    ensures Lost(s, DoUpload(s, p, etag, delivered, reply), DoUpload(s, p, etag, delivered, false), p)
    ensures Lost(s, DoRetireObject(s, p, etag, reply), DoRetireObject(s, p, etag, false), p)
  {
    hide Verify, Create, Retire;
  }

  lemma LostSave(s: State, p: nat, reply: bool)
    ensures Lost(s, DoSaveVerified(s, p, reply), DoSaveVerified(s, p, false), p)
    ensures Lost(s, DoConfirmRetirement(s, p, reply), DoConfirmRetirement(s, p, false), p)
  {
    hide Journal.SaveVerified, Journal.ConfirmRetirement, OwnerLocked, RowLocked;
  }

  lemma LostWrite(s: State, p: nat, reply: bool)
    ensures Lost(s, DoFinalizeRecord(s, p, reply), DoFinalizeRecord(s, p, false), p)
    ensures Lost(s, DoFinalizePromote(s, p, reply), DoFinalizePromote(s, p, false), p)
  {
    hide FileRetiring, Matches, RecordedRow, AppendFile;
  }

  lemma LostCommit(s: State, p: nat, reply: bool)
    ensures Lost(s, DoFinalizeCommit(s, p, reply), DoFinalizeCommit(s, p, false), p)
    ensures Lost(s, DoAdoptCommit(s, p, reply), DoAdoptCommit(s, p, false), p)
  {
    hide Journal.FinalizeCommit, Journal.AdoptCommit, Matches, OwnerLocked;
  }

  lemma LostBegin(s: State, p: nat, scope: Scope, k: IntentId, token: string, reply: bool)
    ensures Lost(s, DoBeginRetirement(s, p, scope, k, token, reply), DoBeginRetirement(s, p, scope, k, token, false), p)
  {
    hide Journal.BeginRetirement, OwnerLocked;
  }

  /** A lost reply leaves exactly the durable effect of the step, and a call that knows nothing of it. */
  lemma LostReply(cfg: Config, s: State, l: Label)
    requires HasReply(l)
    ensures Lost(s, Apply(cfg, s, l), Apply(cfg, s, Lose(l)), l.p)
  {
    hide Lost, DoReserve, DoUpload, DoSaveVerified, DoFinalizeRecord, DoFinalizePromote, DoFinalizeCommit, DoBeginRetirement, DoRetireObject,
      DoConfirmRetirement, DoAdoptCommit;
    match l
    case Reserve(p, x, others, reply) => LostReserve(cfg, s, p, x, others, reply);
    case Upload(p, etag, delivered, reply) => LostObject(s, p, etag, delivered, reply);
    case SaveVerified(p, reply) => LostSave(s, p, reply);
    case FinalizeRecord(p, reply) => LostWrite(s, p, reply);
    case FinalizePromote(p, reply) => LostWrite(s, p, reply);
    case FinalizeCommit(p, reply) => LostCommit(s, p, reply);
    case BeginRetirement(p, scope, k, token, reply) => LostBegin(s, p, scope, k, token, reply);
    case RetireObject(p, etag, reply) => LostObject(s, p, etag, true, reply);
    case ConfirmRetirement(p, reply) => LostSave(s, p, reply);
    case AdoptCommit(p, reply) => LostCommit(s, p, reply);
  }

  /** A finalizer records its own row where it saw none, and promotes whatever row is current. */
  lemma FinalizerActs(s: State, p: nat, i: Intent, recorded: bool, seen: FileRow)
    requires p in s.procs && ValidIdentity(i.identity) && !FileRetiring(s.db, i.file)
    ensures s.procs[p] == Finalizing(i, false, false, Read(None)) ==>
      FileRows(DoFinalizeRecord(s, p, true).db.library, i.file) == FileRows(s.db.library, i.file) + [RecordedRow(i)]
    ensures FileHead(s.db.library, i.file).Some? && seen.status == "stored" && Matches(seen, i.identity, i.url) ==>
      s.procs[p] == Finalizing(i, recorded, false, Read(Some(seen))) ==>
      FileRows(DoFinalizePromote(s, p, true).db.library, i.file)
        == FileRows(s.db.library, i.file) + [FileHead(s.db.library, i.file).value.(status := "ready")]
  {
    hide FileRetiring, Matches, RecordedRow;
  }

  /** An upload whose stream is not delivered stores nothing; a delivered one stores its bytes where there is
      nothing, and in no other place. */
  lemma UploadActs(s: State, p: nat, etag: string, reply: bool)
    requires p in s.procs && s.procs[p].Admitted? && etag != ""
    ensures DoUpload(s, p, etag, false, reply).blobs == s.blobs && DoUpload(s, p, etag, true, reply).db == s.db
    ensures
      var i, n := s.procs[p].i, DoUpload(s, p, etag, true, reply);
      && (At(s.blobs, PlaceOfIntent(i)) == Absent ==> At(n.blobs, PlaceOfIntent(i)) == Blob(i.identity.size, i.identity.sha, etag))
      && (At(s.blobs, PlaceOfIntent(i)) != Absent ==> n.blobs == s.blobs)
      && forall place :: place != PlaceOfIntent(i) ==> At(n.blobs, place) == At(s.blobs, place)
  {
  }

  /** The provider retires an absent object, one that holds exactly the bytes and, if it is known, the
      version of the receipt, or one that this very marker retired already; any other it keeps. */
  lemma ProviderRetires(o: Stored, m: Marker, etag: string)
    ensures Retire(o, m, etag).Some? <==>
      || o == Absent
      || (o.Blob? && o.size == m.size && o.sha == m.sha && (m.etag == "" || o.etag == m.etag))
      || (o.Tombstone? && o.marker == m)
    ensures Retire(o, m, etag).Some? ==> Retire(o, m, etag).value == Tombstone(m, etag)
  {
  }

  /** The provider stores new bytes only where there is nothing, and vouches exactly for bytes that are
      there. */
  lemma ProviderStores(o: Stored, size: int, sha: string, etag: string)
    ensures Create(o, size, sha, etag) == if o == Absent then Blob(size, sha, etag) else o
    ensures Verify(o, size, sha).Some? <==> o.Blob? && o.size == size && o.sha == sha
    ensures Verify(o, size, sha).Some? ==> Verify(o, size, sha).value == o.etag
  {
  }

  /** A crash ends any call that has not reported, and does nothing else. */
  lemma CrashEnds(cfg: Config, s: State, p: nat, n: State)
    requires n == Apply(cfg, s, Label.Crash(p)) && p in s.procs
    ensures n == if Finished(s.procs[p]) then s else s.(procs := s.procs[p := Failed])
  {
  }

  /** What other writers can do: append any version of any file that is not in retirement and not still
      unrecorded under a derived id, any entry of a file, and mark a superseded version. */
  lemma OthersAct(cfg: Config, s: State, f: FileId, row: FileRow, entry: EntryRow)
    requires !FileRetiring(s.db, f)
    ensures !(f.DerivedFile? && FileRows(s.db.library, f) == []) ==>
      var n := Apply(cfg, s, Label.EditLibrary(WriteFile(f, row)));
      FileRows(n.db.library, f) == FileRows(s.db.library, f) + [row] && n == s.(db := s.db.(library := n.db.library))
    ensures entry.target == f ==>
      var n := Apply(cfg, s, Label.EditLibrary(WriteEntry(f, entry)));
      EntryRows(n.db.library, f) == EntryRows(s.db.library, f) + [entry] && n == s.(db := s.db.(library := n.db.library))
    ensures f in Apply(cfg, s, Label.EditLibrary(RecordVersionOne(f))).db.library.versioned
  {
    EditApplied(cfg, s, WriteFile(f, row));
    EditApplied(cfg, s, WriteEntry(f, entry));
    EditApplied(cfg, s, RecordVersionOne(f));
    hide Apply, FileRetiring;
  }

  lemma EditApplied(cfg: Config, s: State, edit: LibraryEdit)
    ensures Apply(cfg, s, Label.EditLibrary(edit)) == DoEditLibrary(s, edit)
  {
    hide DoEditLibrary;
  }

  /** Other objects appear where there is none, outside derived ids. */
  lemma OtherObjectsAppear(cfg: Config, s: State, place: Place, size: int, sha: string, etag: string, n: State)
    requires place.obj.file.BareFile? && At(s.blobs, place) == Absent && etag != "" && n == Apply(cfg, s, Label.ForeignBlob(place, size, sha, etag))
    ensures At(n.blobs, place) == Blob(size, sha, etag) && n == s.(blobs := n.blobs)
  {
  }
}
