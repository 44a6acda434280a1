/** Generations fence stale writers. */
module Writers {
  import opened Types
  import opened Sizes
  import opened Journal
  import opened Protocol
  import opened Evolution
  import opened Invariant
  import opened Preservation
  import opened Steps

  lemma OthersUnmoved(cfg: Config, s: State, l: Label, p: nat)
    requires Mover(l) != Some(p)
    ensures p in Apply(cfg, s, l).procs <==> p in s.procs
    ensures p in s.procs ==> Apply(cfg, s, l).procs[p] == s.procs[p]
  {
    hide Apply;
    StepEffect(cfg, s, l);
  }

  /** A call whose generation has been replaced, by a newer reservation or by retirement; or one
      that already gave up. */
  ghost predicate Overtaken(s: State, p: nat) {
    p in s.procs &&
    (s.procs[p].Failed? ||
     ((s.procs[p].Admitted? || s.procs[p].Uploaded? || s.procs[p].Verified?)
      && s.procs[p].i.id in s.db.uploads && s.procs[p].i.generation < s.db.uploads[s.procs[p].i.id].generation))
  }

  /** The call has reported a stored file to its caller. */
  predicate Reported(s: State, p: nat) {
    p in s.procs && s.procs[p].StoreDone?
  }

  /** A call reports a stored file only by its own commit. */
  lemma OnlyCommitReports(cfg: Config, s: State, l: Label, p: nat)
    requires Reported(Apply(cfg, s, l), p) && !Reported(s, p)
    ensures l.FinalizeCommit? && l.p == p && p in s.procs && s.procs[p].Finalizing? && Apply(cfg, s, l).procs[p].i == s.procs[p].i
  {
    if Mover(l) != Some(p) {
      hide Apply;
      OthersUnmoved(cfg, s, l, p);
    } else {
      hide Journal.Reserve, Journal.SaveVerified, Journal.ChangeReference, Journal.BeginRetirement, Journal.ConfirmRetirement,
        Journal.Purge, Journal.Fence, Journal.AdoptCommit, AdoptExisting, LegacyRead, LegacyVerified, FinalizeCheck, Journal.FinalizeCommit,
        OwnerLocked, RowLocked, FileRetiring, FileTaken, DoChangeReference, DoFence, DoPurge, DoEditLibrary, DoForeignBlob;
    }
  }

  lemma OvertakenOwnStep(cfg: Config, s: State, l: Label, p: nat)
    requires Overtaken(s, p) && Mover(l) == Some(p)
    ensures Apply(cfg, s, l).db == s.db && Overtaken(Apply(cfg, s, l), p)
  {
    hide Journal.Reserve, Journal.ChangeReference, Journal.BeginRetirement, Journal.ConfirmRetirement,
      Journal.Purge, Journal.Fence, Journal.AdoptCommit, AdoptExisting, LegacyRead, LegacyVerified, Journal.FinalizeCommit;
  }

  lemma OvertakenStays(cfg: Config, s: State, l: Label, p: nat)
    requires Inv(cfg, s) && Overtaken(s, p)
    ensures Overtaken(Apply(cfg, s, l), p)
  {
    if Mover(l) == Some(p) {
      OvertakenOwnStep(cfg, s, l, p);
    } else {
      hide Inv, Apply, BlobsGrow;
      OthersUnmoved(cfg, s, l, p);
      StepKeeps(cfg, s, l);
      var i := s.procs[p];
      if !i.Failed? {
        assert Evolves(s.db.uploads[i.i.id], Apply(cfg, s, l).db.uploads[i.i.id]);
      }
    }
  }

  lemma {:induction false} OvertakenForEver(cfg: Config, s: State, run: seq<Label>, p: nat)
    requires Inv(cfg, s) && Overtaken(s, p)
    ensures Overtaken(Exec(cfg, s, run), p)
  {
    if run != [] {
      var n := |run| - 1;
      hide Inv, Apply, Overtaken, Grows;
      OvertakenForEver(cfg, s, run[..n], p);
      RunKeeps(cfg, s, run[..n]);
      OvertakenStays(cfg, Exec(cfg, s, run[..n]), run[n], p);
    }
  }

  /** Once a newer reservation or a retirement of its intent has committed, an older writer never
      reports success, and no later step of its own changes any table. */
  lemma StaleWriterInert(cfg: Config, run: seq<Label>, more: seq<Label>, p: nat, l: Label)
    requires
      var s := Exec(cfg, Start, run);
      p in s.procs && IsWriter(s.procs[p]) && s.procs[p].i.id in s.db.uploads &&
      (s.procs[p].i.generation != s.db.uploads[s.procs[p].i.id].generation || InRetirement(s.db.uploads[s.procs[p].i.id].state))
    requires Mover(l) == Some(p)
    ensures
      var n := Exec(cfg, Start, run + more);
      !Reported(n, p) && Apply(cfg, n, l).db == n.db && !Reported(Apply(cfg, n, l), p)
  {
    var s := Exec(cfg, Start, run);
    hide Inv, Apply, Exec, Grows;
    Later(cfg, run, more);
    ProcFacts(cfg, s, p);
    assert Overtaken(s, p);
    OvertakenForEver(cfg, s, more, p);
    OvertakenOwnStep(cfg, Exec(cfg, Start, run + more), l, p);
  }

  lemma ReservationGeneration(db: Db, x: Identity, others: seq<Number>, quota: int)
    requires Journal.Reserve(db, x, others, quota).Commit?
    ensures
      var after, i := Journal.Reserve(db, x, others, quota).db, Journal.Reserve(db, x, others, quota).value;
      && i.id == IntentIdOf(x) && i.id in after.uploads && after.uploads[i.id].generation == i.generation
      && (i.id in db.uploads ==> i.generation == db.uploads[i.id].generation + 1)
  {
    hide Admits, FencedByTrigger;
  }

  /** Two reservations of one intent, at any distance in a run, get different generations, and the
      later one the greater. */
  lemma ReservationsGetFreshGenerations(cfg: Config, run: seq<Label>, more: seq<Label>, p: nat, x: Identity, others: seq<Number>,
                                        y: Identity, others2: seq<Number>)
    requires IntentIdOf(x) == IntentIdOf(y) && p !in Exec(cfg, Start, run).procs && ValidIdentity(x)
    requires !OwnerLocked(Exec(cfg, Start, run), x.owner)
    requires Journal.Reserve(Exec(cfg, Start, run).db, x, others, cfg.quota).Commit?
    requires
      var later := Exec(cfg, Exec(cfg, Start, run + [Label.Reserve(p, x, others, true)]), more);
      Journal.Reserve(later.db, y, others2, cfg.quota).Commit?
    ensures
      var s := Exec(cfg, Start, run);
      var later := Exec(cfg, Exec(cfg, Start, run + [Label.Reserve(p, x, others, true)]), more);
      Journal.Reserve(s.db, x, others, cfg.quota).value.generation < Journal.Reserve(later.db, y, others2, cfg.quota).value.generation
  {
    var s := Exec(cfg, Start, run);
    var l := Label.Reserve(p, x, others, true);
    var k := IntentIdOf(x);
    ReservationGeneration(s.db, x, others, cfg.quota);
    assert (run + [l])[..|run + [l]| - 1] == run;
    var mid := Exec(cfg, Start, run + [l]);
    assert mid == DoReserve(cfg, s, p, x, others, true);
    assert mid.db == Journal.Reserve(s.db, x, others, cfg.quota).db;
    hide Inv, Exec, Journal.Reserve, BlobsGrow;
    ReachableInv(cfg, run + [l]);
    RunKeeps(cfg, mid, more);
    var later := Exec(cfg, mid, more);
    assert Evolves(mid.db.uploads[k], later.db.uploads[k]);
    ReservationGeneration(later.db, y, others2, cfg.quota);
  }
}
