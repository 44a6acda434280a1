/** Retirement is resumable, has one token, and can always be completed. */
module Retirement {
  import opened Types
  import opened Library
  import opened Provider
  import opened Journal
  import opened Protocol
  import opened Evolution
  import opened Invariant
  import opened Preservation

  /** Once retirement of an intent has begun: its lease token, generation and expected receipt never
      change again, so every retirer presents the provider with the same marker. */
  lemma OneToken(cfg: Config, run: seq<Label>, more: seq<Label>, k: IntentId)
    requires k in Exec(cfg, Start, run).db.uploads && InRetirement(Exec(cfg, Start, run).db.uploads[k].state)
    ensures
      var s, n := Exec(cfg, Start, run), Exec(cfg, Start, run + more);
      && k in n.db.uploads && InRetirement(n.db.uploads[k].state) && n.db.uploads[k].lease != ""
      && n.db.uploads[k].lease == s.db.uploads[k].lease && n.db.uploads[k].generation == s.db.uploads[k].generation
      && RowMarker(n.db.uploads[k]) == RowMarker(s.db.uploads[k])
  {
    var s, n := Exec(cfg, Start, run), Exec(cfg, Start, run + more);
    hide Inv, BlobsGrow, Exec;
    Later(cfg, run, more);
    assert Evolves(s.db.uploads[k], n.db.uploads[k]);
    RowFacts(cfg, n, k);
  }

  /** A call between the journal mark and the confirmation. */
  predicate IsRetirer(proc: Process) {
    proc.RetireBegun? || proc.RetireFenced?
  }

  /** Any two calls retiring one intent, before or after their tombstone, hold the same token, the same
      generation and the same marker. */
  lemma RetirersShareToken(cfg: Config, run: seq<Label>, p: nat, q: nat)
    requires
      var procs := Exec(cfg, Start, run).procs;
      p in procs && q in procs && IsRetirer(procs[p]) && IsRetirer(procs[q]) && procs[p].i.id == procs[q].i.id
    ensures
      var procs := Exec(cfg, Start, run).procs;
      procs[p].token == procs[q].token && procs[p].i.generation == procs[q].i.generation && MarkerOf(procs[p].i, procs[p].token) == MarkerOf(procs[q].i, procs[q].token)
  {
    hide Inv, Exec;
    ReachableInv(cfg, run);
    ProcFacts(cfg, Exec(cfg, Start, run), p);
    ProcFacts(cfg, Exec(cfg, Start, run), q);
  }

  /** However much else happened since it began, a retirer under way is never refused: the provider
      takes its marker, and once it holds a tombstone its confirmation commits, neither stale nor
      without its lease. It leaves the row retired, its object a tombstone. */
  lemma RetirerUnderWayNeverRefused(cfg: Config, run: seq<Label>, p: nat, tombstone: string, s: State)
    requires s == Exec(cfg, Start, run) && p in s.procs
    ensures s.procs[p].RetireBegun? ==>
      Retire(At(s.blobs, PlaceOfIntent(s.procs[p].i)), MarkerOf(s.procs[p].i, s.procs[p].token), tombstone)
        == Some(Tombstone(MarkerOf(s.procs[p].i, s.procs[p].token), tombstone))
    ensures s.procs[p].RetireFenced? ==>
      var f := s.procs[p];
      && f.i.id in s.db.uploads && At(s.blobs, PlaceOf(s.db.uploads[f.i.id])).Tombstone?
      && Journal.ConfirmRetirement(s.db, f.i, f.token, f.etag)
           == Commit(SetUpload(s.db, f.i.id, s.db.uploads[f.i.id].(state := Retired, retiredEtag := f.etag)), ())
  {
    hide Inv, Exec;
    ReachableInv(cfg, run);
    ProcFacts(cfg, s, p);
    if IsRetirer(s.procs[p]) {
      RowFacts(cfg, s, s.procs[p].i.id);
    }
  }

  lemma NotPinnedInRetirement(cfg: Config, s: State, k: IntentId)
    requires Inv(cfg, s) && k in s.db.uploads && InRetirement(s.db.uploads[k].state)
    ensures !PinnedFor(s.db, s.db.uploads[k].identity.owner, k)
  {
    hide Inv;
    forall key | key in s.db.references && s.db.references[key].state == Active ensures k !in s.db.references[key].ids {
      ReferenceFacts(cfg, s, key);
    }
  }

  /** No later retirer is refused by a pin: each picks up the persisted token and generation. */
  lemma RetirerNeverRefused(cfg: Config, s: State, k: IntentId, token: string)
    requires Inv(cfg, s) && k in s.db.uploads && InRetirement(s.db.uploads[k].state)
    ensures
      var r := s.db.uploads[k];
      Journal.BeginRetirement(s.db, ScopeOf(r.identity), k, token) == Commit(s.db, Begun(IntentOf(k, r), r.lease, r.retiredEtag))
  {
    hide Inv;
    RowFacts(cfg, s, k);
    NotPinnedInRetirement(cfg, s, k);
  }

  /** The provider accepts the persisted token from every reachable retiring state. */
  lemma ProviderAccepts(cfg: Config, s: State, k: IntentId, etag: string)
    requires Inv(cfg, s) && k in s.db.uploads && InRetirement(s.db.uploads[k].state)
    ensures
      var r := s.db.uploads[k];
      Retire(At(s.blobs, PlaceOf(r)), MarkerOf(IntentOf(k, r), r.lease), etag) == Some(Tombstone(RowMarker(r), etag))
  {
    hide Inv;
    RowFacts(cfg, s, k);
  }

  /** In every reachable state, what is in retirement was touched by nobody but the pipeline, and still
      is not: a file its owner edited, trained on, versioned, filed, labelled or linked is never
      retired, and so never purged. */
  lemma OwnerUseIsKept(cfg: Config, run: seq<Label>, k: IntentId)
    requires k in Exec(cfg, Start, run).db.uploads && InRetirement(Exec(cfg, Start, run).db.uploads[k].state)
    ensures
      var db := Exec(cfg, Start, run).db;
      Untouched(db.library, db.uploads[k].file, db.uploads[k].identity, db.uploads[k].url)
  {
    var s := Exec(cfg, Start, run);
    hide Inv, Exec, CheckRetirement, Untouched;
    ReachableInv(cfg, run);
    FrozenFacts(cfg, s, k);
    CheckedIffUntouched(s.db.library, s.db.uploads[k].file, s.db.uploads[k].identity, s.db.uploads[k].url);
  }

  predicate Gone(s: State, k: IntentId) {
    && k in s.db.uploads && s.db.uploads[k].state == Retired && s.db.uploads[k].purged
    && At(s.blobs, PlaceOf(s.db.uploads[k])).Tombstone?
    && FileRows(s.db.library, s.db.uploads[k].file) == [] && EntryRows(s.db.library, s.db.uploads[k].file) == []
  }

  lemma PurgeSucceeds(cfg: Config, s: State, k: IntentId)
    requires Inv(cfg, s) && k in s.db.uploads && s.db.uploads[k].state == Retired
    requires !OwnerLocked(s, s.db.uploads[k].identity.owner)
    ensures Gone(DoPurge(s, ScopeOf(s.db.uploads[k].identity), k), k)
  {
    var r := s.db.uploads[k];
    var n := DoPurge(s, ScopeOf(r.identity), k);
    hide Inv, DeletePresentation, OwnerLocked;
    RowFacts(cfg, s, k);
    FrozenFacts(cfg, s, k);
    hide CheckRetirement;
    PurgeLeavesNoHead(s.db.library, r.file, r.identity, r.url);
    assert n.db.uploads[k] == r.(purged := true);
    assert n.db.library == DeletePresentation(s.db.library, r.file, r.identity.owner);
  }

  lemma BeginResumes(cfg: Config, s: State, k: IntentId, p: nat, token: string)
    requires Inv(cfg, s) && k in s.db.uploads && s.db.uploads[k].state == Retiring
    requires p !in s.procs && token != "" && !OwnerLocked(s, s.db.uploads[k].identity.owner)
    ensures DoBeginRetirement(s, p, ScopeOf(s.db.uploads[k].identity), k, token, true)
      == SetProc(s, p, RetireBegun(IntentOf(k, s.db.uploads[k]), s.db.uploads[k].lease))
  {
    hide Inv, Journal.BeginRetirement;
    RetirerNeverRefused(cfg, s, k, token);
  }

  lemma ObjectGoes(cfg: Config, s: State, k: IntentId, p: nat, etag: string)
    requires Inv(cfg, s) && k in s.db.uploads && s.db.uploads[k].state == Retiring && etag != ""
    requires p in s.procs && s.procs[p] == RetireBegun(IntentOf(k, s.db.uploads[k]), s.db.uploads[k].lease)
    ensures
      var n := DoRetireObject(s, p, etag, true);
      n.db == s.db && n.procs == s.procs[p := RetireFenced(IntentOf(k, s.db.uploads[k]), s.db.uploads[k].lease, etag)]
  {
    hide Inv;
    ProviderAccepts(cfg, s, k, etag);
  }

  lemma ConfirmGoes(s: State, k: IntentId, p: nat, etag: string)
    requires k in s.db.uploads && s.db.uploads[k].state == Retiring
    requires p in s.procs && s.procs[p] == RetireFenced(IntentOf(k, s.db.uploads[k]), s.db.uploads[k].lease, etag)
    requires !OwnerLocked(s, s.db.uploads[k].identity.owner)
    ensures DoConfirmRetirement(s, p, true)
      == SetProc(s.(db := SetUpload(s.db, k, s.db.uploads[k].(state := Retired, retiredEtag := etag))), p,
                 RetireDone(RetiredReceipt(k, s.db.uploads[k].file, etag)))
  {
  }

  lemma UnlockedStays(s: State, p: nat, proc: Process, owner: string)
    requires !OwnerLocked(s, owner) && !proc.Finalizing?
    ensures forall n: State :: n.procs == s.procs[p := proc] ==> !OwnerLocked(n, owner)
  {
  }

  /** Whatever happened before, a call that resumes retirement and whose three steps go through,
      followed by the purge, retires the bytes and removes the presentation. The purge is never
      refused: nothing could be filed, labelled or edited since retirement began. */
  lemma RetirementCompletes(cfg: Config, run: seq<Label>, k: IntentId, p: nat, token: string, etag: string, scope: Scope)
    requires k in Exec(cfg, Start, run).db.uploads && Exec(cfg, Start, run).db.uploads[k].state == Retiring
    requires scope == ScopeOf(Exec(cfg, Start, run).db.uploads[k].identity)
    requires p !in Exec(cfg, Start, run).procs && token != "" && etag != ""
    requires !OwnerLocked(Exec(cfg, Start, run), scope.owner)
    ensures Gone(Exec(cfg, Start, run + [Label.BeginRetirement(p, scope, k, token, true)]
                                      + [Label.RetireObject(p, etag, true)]
                                      + [Label.ConfirmRetirement(p, true)]
                                      + [Label.Purge(scope, k)]), k)
  {
    var one := run + [Label.BeginRetirement(p, scope, k, token, true)];
    var two := one + [Label.RetireObject(p, etag, true)];
    var three := two + [Label.ConfirmRetirement(p, true)];
    var four := three + [Label.Purge(scope, k)];
    OneMore(cfg, run, Label.BeginRetirement(p, scope, k, token, true));
    OneMore(cfg, one, Label.RetireObject(p, etag, true));
    OneMore(cfg, two, Label.ConfirmRetirement(p, true));
    OneMore(cfg, three, Label.Purge(scope, k));
    ReachableInv(cfg, run);
    hide Inv, Exec, OwnerLocked, Gone, Apply, DoBeginRetirement, DoRetireObject, DoConfirmRetirement, DoPurge;
    RetireLabels(cfg, Exec(cfg, Start, run), k, p, token, etag, scope);
    RetireLabels(cfg, Exec(cfg, Start, one), k, p, token, etag, scope);
    RetireLabels(cfg, Exec(cfg, Start, two), k, p, token, etag, scope);
    RetireLabels(cfg, Exec(cfg, Start, three), k, p, token, etag, scope);
    ResumedSteps(cfg, scope, k, p, token, etag, Exec(cfg, Start, run), Exec(cfg, Start, one), Exec(cfg, Start, two), Exec(cfg, Start, three), Exec(cfg, Start, four));
  }

  lemma RetireLabels(cfg: Config, s: State, k: IntentId, p: nat, token: string, etag: string, scope: Scope)
    ensures Apply(cfg, s, Label.BeginRetirement(p, scope, k, token, true)) == DoBeginRetirement(s, p, scope, k, token, true)
    ensures Apply(cfg, s, Label.RetireObject(p, etag, true)) == DoRetireObject(s, p, etag, true)
    ensures Apply(cfg, s, Label.ConfirmRetirement(p, true)) == DoConfirmRetirement(s, p, true)
    ensures Apply(cfg, s, Label.Purge(scope, k)) == DoPurge(s, scope, k)
  {
    hide DoBeginRetirement, DoRetireObject, DoConfirmRetirement, DoPurge;
  }

  lemma OneMore(cfg: Config, run: seq<Label>, l: Label)
    ensures Exec(cfg, Start, run + [l]) == Apply(cfg, Exec(cfg, Start, run), l)
    ensures Inv(cfg, Exec(cfg, Start, run + [l]))
  {
    hide Inv;
    ExecOne(cfg, Start, run, l);
    ReachableInv(cfg, run + [l]);
  }

  lemma ResumedSteps(cfg: Config, scope: Scope, k: IntentId, p: nat, token: string, etag: string,
                     s: State, begun: State, fenced: State, confirmed: State, purged: State)
    requires Inv(cfg, s) && k in s.db.uploads && s.db.uploads[k].state == Retiring && scope == ScopeOf(s.db.uploads[k].identity)
    requires p !in s.procs && token != "" && etag != "" && !OwnerLocked(s, scope.owner)
    requires begun == DoBeginRetirement(s, p, scope, k, token, true) && Inv(cfg, begun)
    requires fenced == DoRetireObject(begun, p, etag, true) && Inv(cfg, fenced)
    requires confirmed == DoConfirmRetirement(fenced, p, true) && Inv(cfg, confirmed)
    requires purged == DoPurge(confirmed, scope, k)
    ensures Gone(purged, k)
  {
    hide Inv, OwnerLocked, Gone, DoBeginRetirement, DoRetireObject, DoConfirmRetirement, DoPurge;
    var r := s.db.uploads[k];
    BeginResumes(cfg, s, k, p, token);
    UnlockedStays(s, p, RetireBegun(IntentOf(k, r), r.lease), scope.owner);
    ObjectGoes(cfg, begun, k, p, etag);
    UnlockedStays(begun, p, RetireFenced(IntentOf(k, r), r.lease, etag), scope.owner);
    ConfirmGoes(fenced, k, p, etag);
    UnlockedStays(fenced, p, RetireDone(RetiredReceipt(k, r.file, etag)), scope.owner);
    PurgeSucceeds(cfg, confirmed, k);
  }

  /** A purged presentation never comes back: no delayed promotion, edit or version can recreate a
      row of the file, or of its index entry, in any continuation. The journal keeps the intent. */
  lemma PurgedStaysGone(cfg: Config, run: seq<Label>, more: seq<Label>, k: IntentId)
    requires k in Exec(cfg, Start, run).db.uploads && Exec(cfg, Start, run).db.uploads[k].purged
    ensures
      var s, n := Exec(cfg, Start, run), Exec(cfg, Start, run + more);
      Gone(n, k) && IntentOf(k, n.db.uploads[k]) == IntentOf(k, s.db.uploads[k]) && n.db.uploads[k].lease == s.db.uploads[k].lease
  {
    var s, n := Exec(cfg, Start, run), Exec(cfg, Start, run + more);
    hide Inv, BlobsGrow, Exec;
    Later(cfg, run, more);
    assert Evolves(s.db.uploads[k], n.db.uploads[k]);
    RowFacts(cfg, s, k);
    RowFacts(cfg, n, k);
    FrozenFacts(cfg, n, k);
  }
}
