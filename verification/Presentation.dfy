/** Success means the file was presented: whatever other writers do to the Library meanwhile, the history
    of a stored file holds a ready version of exactly its object. */
module Presentation {
  import opened Types
  import opened Library
  import opened Journal
  import opened Protocol
  import opened Evolution
  import opened Invariant
  import opened Preservation
  import opened Steps
  import opened Writers
  import opened Capacity

  ghost predicate Presents(row: FileRow, x: Identity, url: Url) {
    row.status == "ready" && Shows(row, x, url)
  }

  /** Some version of the file was ready and presented exactly this object. */
  ghost predicate WasPresented(lib: Shelf, f: FileId, x: Identity, url: Url) {
    exists row :: row in FileRows(lib, f) && Presents(row, x, url)
  }

  ghost predicate ReadyPresented(db: Db) {
    forall k :: k in db.uploads && db.uploads[k].state == Ready ==>
      WasPresented(db.library, db.uploads[k].file, db.uploads[k].identity, db.uploads[k].url)
  }

  /** What a finalizer read is in the file's history. */
  ghost predicate ReadsInHistory(s: State) {
    forall p :: p in s.procs && s.procs[p].Finalizing? && s.procs[p].seen.Read? && s.procs[p].seen.head.Some? ==>
      s.procs[p].seen.head.value in FileRows(s.db.library, s.procs[p].i.file)
  }

  ghost predicate DonePresented(s: State) {
    forall p :: p in s.procs && s.procs[p].StoreDone? ==> DoneOk(s.db, s.procs[p].i)
  }

  ghost predicate DoneOk(db: Db, i: Intent) {
    i.id in db.uploads && (db.uploads[i.id].purged || WasPresented(db.library, i.file, i.identity, i.url))
  }

  ghost predicate PresentedInv(s: State) {
    ReadyPresented(s.db) && ReadsInHistory(s) && DonePresented(s)
  }

  /** No step removes a version of a file whose row is not purged. */
  lemma HistoryStays(cfg: Config, s: State, l: Label, n: State, k: IntentId)
    requires Inv(cfg, s) && n == Apply(cfg, s, l) && k in s.db.uploads && k in n.db.uploads && !n.db.uploads[k].purged
    ensures forall row :: row in FileRows(s.db.library, s.db.uploads[k].file) ==> row in FileRows(n.db.library, s.db.uploads[k].file)
  {
    hide Inv, Apply;
    if l.Purge? {
      PurgeApplied(cfg, s, l);
      PurgedOnly(cfg, s, l.scope, l.id, k);
    } else {
      PresentationStep(cfg, s, l, n, s.db.uploads[k].file);
    }
  }

  lemma PresentedStays(cfg: Config, s: State, l: Label, n: State, k: IntentId, x: Identity, url: Url)
    requires Inv(cfg, s) && n == Apply(cfg, s, l) && k in s.db.uploads && k in n.db.uploads && !n.db.uploads[k].purged
    requires WasPresented(s.db.library, s.db.uploads[k].file, x, url)
    ensures WasPresented(n.db.library, s.db.uploads[k].file, x, url)
  {
    hide Inv, Apply, Presents;
    HistoryStays(cfg, s, l, n, k);
  }

  /** The commit that makes a row ready has read a version that presents it. */
  lemma CommitPresented(cfg: Config, s: State, p: nat, reply: bool, n: State)
    requires Inv(cfg, s) && ReadsInHistory(s) && n == DoFinalizeCommit(s, p, reply) && n.db != s.db
    ensures p in s.procs && s.procs[p].Finalizing? && s.procs[p].i.id in s.db.uploads && n.db.library == s.db.library
    ensures n.db.uploads == s.db.uploads[s.procs[p].i.id := s.db.uploads[s.procs[p].i.id].(state := Ready)]
    ensures SameReceipt(s.db, s.procs[p].i) && WasPresented(s.db.library, s.procs[p].i.file, s.procs[p].i.identity, s.procs[p].i.url)
  {
    MatchesAreShown();
    hide Inv, Matches, Shows;
    ProcFacts(cfg, s, p);
    assert Presents(s.procs[p].seen.head.value, s.procs[p].i.identity, s.procs[p].i.url);
  }

  lemma AdoptedPresents(cfg: Config, s: State, p: nat, reply: bool, n: State, k: IntentId)
    requires Inv(cfg, s) && n == DoAdoptCommit(s, p, reply) && k !in s.db.uploads && k in n.db.uploads
    ensures WasPresented(n.db.library, n.db.uploads[k].file, n.db.uploads[k].identity, n.db.uploads[k].url)
  {
    MatchesAreShown();
    hide Inv, OwnerLocked, FencedByTrigger, Matches, Shows;
    ProcFacts(cfg, s, p);
    var i := s.procs[p].i;
    var rows := FileRows(s.db.library, i.file);
    assert rows != [] && Presents(rows[|rows| - 1], i.identity, i.url);
  }

  /** A row that is ready after a step was ready before, was finalized by it, or was adopted by it. */
  lemma NewlyReady(cfg: Config, s: State, l: Label, n: State, k: IntentId)
    requires n == Apply(cfg, s, l) && k in n.db.uploads && n.db.uploads[k].state == Ready
    requires !(k in s.db.uploads && s.db.uploads[k].state == Ready)
    ensures if k in s.db.uploads then l.FinalizeCommit? else l.Reserve? || l.AdoptCommit?
  {
    hide Apply;
    StepEffect(cfg, s, l);
  }

  lemma ReadyRowStep(cfg: Config, s: State, l: Label, n: State, k: IntentId)
    requires Inv(cfg, s) && PresentedInv(s) && n == Apply(cfg, s, l) && Inv(cfg, n) && DbGrows(s.db, n.db)
    requires k in n.db.uploads && n.db.uploads[k].state == Ready
    ensures WasPresented(n.db.library, n.db.uploads[k].file, n.db.uploads[k].identity, n.db.uploads[k].url)
  {
    hide Inv, WasPresented, ReadsInHistory, DonePresented, DoReserve, DoFinalizeCommit, DoAdoptCommit;
    RowFacts(cfg, n, k);
    if k in s.db.uploads && s.db.uploads[k].state == Ready {
      hide Apply;
      RowFacts(cfg, s, k);
      assert Evolves(s.db.uploads[k], n.db.uploads[k]);
      PresentedStays(cfg, s, l, n, k, s.db.uploads[k].identity, s.db.uploads[k].url);
    } else {
      NewlyReady(cfg, s, l, n, k);
      if k in s.db.uploads {
        CommitPresented(cfg, s, l.p, l.reply, n);
      } else if l.AdoptCommit? {
        AdoptedPresents(cfg, s, l.p, l.reply, n, k);
      } else {
        NewRowOfReservation(cfg, s, l.p, l.identity, l.others, l.reply, n, k);
      }
    }
  }

  lemma ReadStep(cfg: Config, s: State, l: Label, n: State, p: nat)
    requires Inv(cfg, s) && ReadsInHistory(s) && n == Apply(cfg, s, l) && Inv(cfg, n)
    requires p in n.procs && n.procs[p].Finalizing? && n.procs[p].seen.Read? && n.procs[p].seen.head.Some?
    ensures n.procs[p].seen.head.value in FileRows(n.db.library, n.procs[p].i.file)
  {
    hide Inv, Apply;
    if Mover(l) == Some(p) {
      OwnView(cfg, s, l, p);
    } else {
      OthersUnmoved(cfg, s, l, p);
      var k := s.procs[p].i.id;
      ProcFacts(cfg, s, p);
      ProcFacts(cfg, n, p);
      RowFacts(cfg, n, k);
      HistoryStays(cfg, s, l, n, k);
    }
  }

  /** The commit that reports success has read a version that presents the file. */
  lemma ReportPresented(cfg: Config, s: State, p: nat, reply: bool, n: State)
    requires Inv(cfg, s) && ReadsInHistory(s) && n == DoFinalizeCommit(s, p, reply) && p in s.procs && s.procs[p].Finalizing?
    requires p in n.procs && n.procs[p].StoreDone?
    ensures s.procs[p].i.id in s.db.uploads && n.db.library == s.db.library && n.procs[p].i == s.procs[p].i
    ensures WasPresented(s.db.library, s.procs[p].i.file, s.procs[p].i.identity, s.procs[p].i.url)
  {
    MatchesAreShown();
    hide Inv, Matches, Shows;
    ProcFacts(cfg, s, p);
    assert Presents(s.procs[p].seen.head.value, s.procs[p].i.identity, s.procs[p].i.url);
  }

  lemma DoneStep(cfg: Config, s: State, l: Label, n: State, p: nat)
    requires Inv(cfg, s) && PresentedInv(s) && n == Apply(cfg, s, l) && Inv(cfg, n) && DbGrows(s.db, n.db)
    requires Reported(n, p)
    ensures DoneOk(n.db, n.procs[p].i)
  {
    hide Inv, WasPresented, ReadyPresented, ReadsInHistory, DoFinalizeCommit;
    ProcFacts(cfg, n, p);
    if Reported(s, p) {
      hide Apply;
      FinishedStays(cfg, s, l, p);
      var i := s.procs[p].i;
      ProcFacts(cfg, s, p);
      assert Evolves(s.db.uploads[i.id], n.db.uploads[i.id]);
      if !n.db.uploads[i.id].purged {
        PresentedStays(cfg, s, l, n, i.id, i.identity, i.url);
      }
    } else {
      OnlyCommitReports(cfg, s, l, p);
      ReportPresented(cfg, s, p, l.reply, n);
    }
  }

  lemma FinishedStays(cfg: Config, s: State, l: Label, p: nat)
    requires Inv(cfg, s) && Reported(s, p)
    ensures p in Apply(cfg, s, l).procs && Apply(cfg, s, l).procs[p] == s.procs[p]
  {
    hide Inv, Apply, DbGrows, BlobsGrow;
    StepKeeps(cfg, s, l);
  }

  lemma PresentedKept(cfg: Config, s: State, l: Label)
    requires Inv(cfg, s) && PresentedInv(s)
    ensures PresentedInv(Apply(cfg, s, l))
  {
    var n := Apply(cfg, s, l);
    hide Inv, Apply, DbGrows, BlobsGrow, WasPresented;
    StepKeeps(cfg, s, l);
    assert ReadyPresented(n.db) by {
      forall k | k in n.db.uploads && n.db.uploads[k].state == Ready
        ensures WasPresented(n.db.library, n.db.uploads[k].file, n.db.uploads[k].identity, n.db.uploads[k].url)
      {
        ReadyRowStep(cfg, s, l, n, k);
      }
    }
    assert ReadsInHistory(n) by {
      forall p | p in n.procs && n.procs[p].Finalizing? && n.procs[p].seen.Read? && n.procs[p].seen.head.Some?
        ensures n.procs[p].seen.head.value in FileRows(n.db.library, n.procs[p].i.file)
      {
        ReadStep(cfg, s, l, n, p);
      }
    }
    assert DonePresented(n) by {
      forall p | Reported(n, p) ensures DoneOk(n.db, n.procs[p].i) {
        DoneStep(cfg, s, l, n, p);
      }
    }
  }

  lemma {:induction false} RunPresented(cfg: Config, run: seq<Label>)
    ensures PresentedInv(Exec(cfg, Start, run))
  {
    if run != [] {
      var n := |run| - 1;
      hide Inv, Apply, PresentedInv;
      RunPresented(cfg, run[..n]);
      ReachableInv(cfg, run[..n]);
      PresentedKept(cfg, Exec(cfg, Start, run[..n]), run[n]);
    }
  }

  /** In every reachable state, under every interleaving with other Library writers, the history of a
      ready intent's file holds a version that was ready and presented exactly its object. */
  lemma ReadyWasPresented(cfg: Config, run: seq<Label>, k: IntentId)
    requires k in Exec(cfg, Start, run).db.uploads && Exec(cfg, Start, run).db.uploads[k].state == Ready
    ensures
      var db := Exec(cfg, Start, run).db;
      WasPresented(db.library, db.uploads[k].file, db.uploads[k].identity, db.uploads[k].url)
  {
    hide Exec, WasPresented, ReadsInHistory, DonePresented;
    RunPresented(cfg, run);
  }

  /** So does that of a file whose call reported success, at every later moment until it is purged. */
  lemma SuccessWasPresented(cfg: Config, run: seq<Label>, p: nat)
    requires Reported(Exec(cfg, Start, run), p)
    ensures
      var s := Exec(cfg, Start, run);
      var i := s.procs[p].i;
      i.id in s.db.uploads && (s.db.uploads[i.id].purged || WasPresented(s.db.library, i.file, i.identity, i.url))
  {
    hide Exec, WasPresented, ReadsInHistory, ReadyPresented;
    RunPresented(cfg, run);
  }
}
