/** Recovery-key claims: any number of them interleaved, each dying at any point, with keys minted
    at boot beside them. */
module RecoveryKey {
  import opened Types

  /** A stored key. Its id is its place in the order of creation; `from` is the key it replaces. */
  datatype Key = Key(owner: string, active: bool, claimed: bool, from: Option<nat>)

  /** The local state of one claim: it reads a live key, creates its own, deactivates the one it
      read, reveals its own, and stamps it. */
  datatype Process =
    | Asked(owner: string, reclaim: bool)
    | Chosen(owner: string, prior: nat)
    | Created(prior: nat, own: nat)
    | Swapped(own: nat)
    | Revealed(own: nat)
    | Done(own: nat)
    | Failed

  /** `revealed` holds the keys whose plaintext was written out. */
  datatype State = State(keys: seq<Key>, revealed: set<nat>, procs: map<nat, Process>)

  datatype Label =
    | Ask(p: nat, owner: string, reclaim: bool)
    | ReadLive(p: nat, key: nat)
    | Create(p: nat, reply: bool)
    | Deactivate(p: nat, effect: bool, reply: bool)
    | Reveal(p: nat, written: bool)
    | Stamp(p: nat, effect: bool, reply: bool)
    | Ensure(owner: string)
    | Crash(p: nat)

  /** Any store, with no claim under way. */
  function From(base: seq<Key>): State {
    State(base, {}, map[])
  }

  predicate LiveFor(keys: seq<Key>, owner: string, k: nat) {
    k < |keys| && keys[k].owner == owner && keys[k].active
  }

  predicate HasLive(keys: seq<Key>, owner: string) {
    exists k: nat :: k < |keys| && LiveFor(keys, owner, k)
  }

  function SetProc(s: State, p: nat, proc: Process): State {
    s.(procs := s.procs[p := proc])
  }

  /** Any live key of the owner may be the one the claim reads. A claimed one needs --reclaim. */
  function DoReadLive(s: State, p: nat, k: nat): State {
    if p !in s.procs || !s.procs[p].Asked? then s
    else
      var f := s.procs[p];
      if !HasLive(s.keys, f.owner) then SetProc(s, p, Failed)
      else if !LiveFor(s.keys, f.owner, k) then s
      else SetProc(s, p, if s.keys[k].claimed && !f.reclaim then Failed else Chosen(f.owner, k))
  }

  function DoCreate(s: State, p: nat, reply: bool): State {
    if p !in s.procs || !s.procs[p].Chosen? then s
    else
      var f := s.procs[p];
      SetProc(s.(keys := s.keys + [Key(f.owner, true, false, Some(f.prior))]), p, if reply then Created(f.prior, |s.keys|) else Failed)
  }

  function SetActive(keys: seq<Key>, k: nat, active: bool): seq<Key> {
    if k < |keys| then keys[k := keys[k].(active := active)] else keys
  }

  function SetClaimed(keys: seq<Key>, k: nat): seq<Key> {
    if k < |keys| then keys[k := keys[k].(claimed := true)] else keys
  }

  function DoDeactivate(s: State, p: nat, effect: bool, reply: bool): State {
    if p !in s.procs || !s.procs[p].Created? then s
    else
      var f := s.procs[p];
      var n := if effect then s.(keys := SetActive(s.keys, f.prior, false)) else s;
      SetProc(n, p, if effect && reply then Swapped(f.own) else Failed)
  }

  function DoReveal(s: State, p: nat, written: bool): State {
    if p !in s.procs || !s.procs[p].Swapped? then s
    else if written then SetProc(s.(revealed := s.revealed + {s.procs[p].own}), p, Revealed(s.procs[p].own))
    else SetProc(s, p, Failed)
  }

  function DoStamp(s: State, p: nat, effect: bool, reply: bool): State {
    if p !in s.procs || !s.procs[p].Revealed? then s
    else
      var f := s.procs[p];
      var n := if effect then s.(keys := SetClaimed(s.keys, f.own)) else s;
      SetProc(n, p, if effect && reply then Done(f.own) else Failed)
  }

  /** EnsureForAllOwners mints an unclaimed key for an owner that has no live one. */
  function DoEnsure(s: State, owner: string): State {
    if HasLive(s.keys, owner) then s else s.(keys := s.keys + [Key(owner, true, false, None)])
  }

  function Apply(s: State, l: Label): State {
    match l
    case Ask(p, owner, reclaim) => if p in s.procs then s else SetProc(s, p, Asked(owner, reclaim))
    case ReadLive(p, k) => DoReadLive(s, p, k)
    case Create(p, reply) => DoCreate(s, p, reply)
    case Deactivate(p, effect, reply) => DoDeactivate(s, p, effect, reply)
    case Reveal(p, written) => DoReveal(s, p, written)
    case Stamp(p, effect, reply) => DoStamp(s, p, effect, reply)
    case Ensure(owner) => DoEnsure(s, owner)
    case Crash(p) => if p in s.procs && !s.procs[p].Done? then SetProc(s, p, Failed) else s
  }

  function Exec(s: State, run: seq<Label>): State {
    if run == [] then s else Apply(Exec(s, run[..|run| - 1]), run[|run| - 1])
  }

  /****** What holds in every state reachable from a store ******/

  /** The most recently created key of an owner. */
  ghost predicate Latest(keys: seq<Key>, owner: string, k: nat) {
    k < |keys| && keys[k].owner == owner && forall j :: k < j < |keys| ==> keys[j].owner != owner
  }

  /** The owner has a key that was not in the store the run began with. */
  ghost predicate HasNew(base: nat, keys: seq<Key>, owner: string) {
    exists k :: base <= k < |keys| && keys[k].owner == owner
  }

  /** A replacement is newer than the key it replaces, and of the same owner. */
  ghost predicate LineageOk(base: nat, keys: seq<Key>) {
    forall k :: base <= k < |keys| && keys[k].from.Some? ==> keys[k].from.value < k && keys[keys[k].from.value].owner == keys[k].owner
  }

  ghost predicate LatestActive(base: nat, keys: seq<Key>) {
    forall k :: base <= k < |keys| && Latest(keys, keys[k].owner, k) ==> keys[k].active
  }

  /** A key of the old store is never stamped, and is deactivated only once its owner has a new one. */
  ghost predicate BaseKept(base: seq<Key>, keys: seq<Key>) {
    && |base| <= |keys|
    && forall k :: 0 <= k < |base| ==>
         && keys[k].owner == base[k].owner && keys[k].from == base[k].from && keys[k].claimed == base[k].claimed
         && (keys[k].active == base[k].active || HasNew(|base|, keys, base[k].owner))
  }

  ghost predicate KeysOk(base: seq<Key>, keys: seq<Key>) {
    BaseKept(base, keys) && LineageOk(|base|, keys) && LatestActive(|base|, keys)
  }

  ghost predicate StampsOk(base: nat, s: State) {
    forall k :: base <= k < |s.keys| && s.keys[k].claimed ==> k in s.revealed
  }

  /** The key replaces an older one, which no longer works. */
  ghost predicate Replaces(keys: seq<Key>, own: nat) {
    own < |keys| && keys[own].from.Some? && keys[own].from.value < own && !keys[keys[own].from.value].active
  }

  /** A claim only ever deactivates a key older than its own, and stamps its own. */
  ghost predicate ProcOk(base: nat, s: State, proc: Process) {
    match proc
    case Asked(_, _) => true
    case Chosen(owner, prior) => prior < |s.keys| && s.keys[prior].owner == owner
    case Created(prior, own) => base <= own && prior < own < |s.keys| && s.keys[prior].owner == s.keys[own].owner && s.keys[own].from == Some(prior)
    case Swapped(own) => base <= own && Replaces(s.keys, own)
    case Revealed(own) => base <= own && Replaces(s.keys, own) && own in s.revealed
    case Done(own) => base <= own && Replaces(s.keys, own) && own in s.revealed && s.keys[own].claimed
    case Failed => true
  }

  ghost predicate ProcsOk(base: nat, s: State) {
    forall p :: p in s.procs ==> ProcOk(base, s, s.procs[p])
  }

  ghost predicate Inv(base: seq<Key>, s: State) {
    KeysOk(base, s.keys) && StampsOk(|base|, s) && ProcsOk(|base|, s)
  }

  /** Keys are only added, a key's owner and lineage never change, a stamp stays, and an inactive key
      never becomes active again. */
  ghost predicate Grows(s: State, n: State) {
    && |s.keys| <= |n.keys|
    && (forall k :: 0 <= k < |s.keys| ==>
          n.keys[k].owner == s.keys[k].owner && n.keys[k].from == s.keys[k].from && (s.keys[k].claimed ==> n.keys[k].claimed)
          && (!s.keys[k].active ==> !n.keys[k].active))
    && s.revealed <= n.revealed
  }

  lemma ProcsStay(base: nat, s: State, n: State, p: nat, proc: Process)
    requires ProcsOk(base, s) && Grows(s, n) && n.procs == s.procs[p := proc] && ProcOk(base, n, proc)
    ensures ProcsOk(base, n)
  {
    forall q | q in n.procs ensures ProcOk(base, n, n.procs[q]) {
      if q != p {
        assert ProcOk(base, s, s.procs[q]);
      }
    }
  }

  lemma NewStays(base: nat, keys: seq<Key>, after: seq<Key>, owner: string)
    requires HasNew(base, keys, owner) && |keys| <= |after| && forall k :: 0 <= k < |keys| ==> after[k].owner == keys[k].owner
    ensures HasNew(base, after, owner)
  {
    var k :| base <= k < |keys| && keys[k].owner == owner;
    assert after[k].owner == owner;
  }

  lemma KeyAdded(base: seq<Key>, keys: seq<Key>, key: Key)
    requires KeysOk(base, keys) && key.active
    requires key.from.Some? ==> key.from.value < |keys| && keys[key.from.value].owner == key.owner
    ensures KeysOk(base, keys + [key])
  {
    var after := keys + [key];
    forall k | |base| <= k < |after| && Latest(after, after[k].owner, k) ensures after[k].active {
      if k < |keys| {
        assert Latest(keys, keys[k].owner, k) by {
          assert forall j :: k < j < |keys| ==> after[j] == keys[j];
        }
      }
    }
    forall k | 0 <= k < |base| && HasNew(|base|, keys, base[k].owner) ensures HasNew(|base|, after, base[k].owner) {
      NewStays(|base|, keys, after, base[k].owner);
    }
  }

  /** Deactivating a key that has a younger, new one of the same owner leaves every latest new key
      active. */
  lemma OlderKeyDeactivated(base: seq<Key>, keys: seq<Key>, prior: nat, own: nat)
    requires KeysOk(base, keys) && |base| <= own && prior < own < |keys| && keys[prior].owner == keys[own].owner
    ensures KeysOk(base, SetActive(keys, prior, false))
  {
    var after := SetActive(keys, prior, false);
    assert after[own].owner == after[prior].owner;
    forall k | |base| <= k < |after| && Latest(after, after[k].owner, k) ensures after[k].active {
      assert Latest(keys, keys[k].owner, k) by {
        assert forall j :: k < j < |keys| ==> after[j].owner == keys[j].owner;
      }
    }
    forall k | 0 <= k < |base| ensures after[k].active == base[k].active || HasNew(|base|, after, base[k].owner) {
      if HasNew(|base|, keys, base[k].owner) {
        NewStays(|base|, keys, after, base[k].owner);
      }
    }
  }

  lemma KeyStamped(base: seq<Key>, keys: seq<Key>, own: nat)
    requires KeysOk(base, keys) && |base| <= own
    ensures KeysOk(base, SetClaimed(keys, own))
  {
    var after := SetClaimed(keys, own);
    forall k | |base| <= k < |after| && Latest(after, after[k].owner, k) ensures after[k].active {
      assert Latest(keys, keys[k].owner, k) by {
        assert forall j :: k < j < |keys| ==> after[j].owner == keys[j].owner;
      }
    }
    forall k | 0 <= k < |base| && HasNew(|base|, keys, base[k].owner) ensures HasNew(|base|, after, base[k].owner) {
      NewStays(|base|, keys, after, base[k].owner);
    }
  }

  ghost predicate Kept(base: seq<Key>, s: State, n: State) {
    Inv(base, n) && Grows(s, n)
  }

  /** A step that moves one claim, and perhaps changes the keys. */
  lemma ClaimMoves(base: seq<Key>, s: State, n: State, p: nat, proc: Process)
    requires Inv(base, s) && Grows(s, n) && n.procs == s.procs[p := proc] && ProcOk(|base|, n, proc)
    requires KeysOk(base, n.keys) && StampsOk(|base|, n)
    ensures Kept(base, s, n)
  {
    hide KeysOk, StampsOk;
    ProcsStay(|base|, s, n, p, proc);
  }

  lemma ReadLiveKeeps(base: seq<Key>, s: State, p: nat, k: nat)
    requires Inv(base, s)
    ensures Kept(base, s, DoReadLive(s, p, k))
  {
    var n := DoReadLive(s, p, k);
    hide KeysOk;
    if n != s {
      ClaimMoves(base, s, n, p, n.procs[p]);
    }
  }

  lemma CreateKeeps(base: seq<Key>, s: State, p: nat, reply: bool)
    requires Inv(base, s)
    ensures Kept(base, s, DoCreate(s, p, reply))
  {
    var n := DoCreate(s, p, reply);
    if p in s.procs && s.procs[p].Chosen? {
      assert ProcOk(|base|, s, s.procs[p]);
      assert |base| <= |s.keys|;
      hide KeysOk;
      KeyAdded(base, s.keys, Key(s.procs[p].owner, true, false, Some(s.procs[p].prior)));
      ClaimMoves(base, s, n, p, n.procs[p]);
    }
  }

  lemma DeactivateKeeps(base: seq<Key>, s: State, p: nat, effect: bool, reply: bool)
    requires Inv(base, s)
    ensures Kept(base, s, DoDeactivate(s, p, effect, reply))
  {
    var n := DoDeactivate(s, p, effect, reply);
    hide KeysOk;
    if p in s.procs && s.procs[p].Created? {
      assert ProcOk(|base|, s, s.procs[p]);
      OlderKeyDeactivated(base, s.keys, s.procs[p].prior, s.procs[p].own);
      ClaimMoves(base, s, n, p, n.procs[p]);
    }
  }

  lemma RevealKeeps(base: seq<Key>, s: State, p: nat, written: bool)
    requires Inv(base, s)
    ensures Kept(base, s, DoReveal(s, p, written))
  {
    var n := DoReveal(s, p, written);
    hide KeysOk;
    if p in s.procs && s.procs[p].Swapped? {
      assert ProcOk(|base|, s, s.procs[p]);
      ClaimMoves(base, s, n, p, n.procs[p]);
    }
  }

  lemma StampKeeps(base: seq<Key>, s: State, p: nat, effect: bool, reply: bool)
    requires Inv(base, s)
    ensures Kept(base, s, DoStamp(s, p, effect, reply))
  {
    var n := DoStamp(s, p, effect, reply);
    hide KeysOk;
    if p in s.procs && s.procs[p].Revealed? {
      assert ProcOk(|base|, s, s.procs[p]);
      KeyStamped(base, s.keys, s.procs[p].own);
      ClaimMoves(base, s, n, p, n.procs[p]);
    }
  }

  lemma EnsureKeeps(base: seq<Key>, s: State, owner: string)
    requires Inv(base, s)
    ensures Kept(base, s, DoEnsure(s, owner))
  {
    var n := DoEnsure(s, owner);
    hide KeysOk;
    if !HasLive(s.keys, owner) {
      KeyAdded(base, s.keys, Key(owner, true, false, None));
      forall q | q in n.procs ensures ProcOk(|base|, n, n.procs[q]) {
        assert ProcOk(|base|, s, s.procs[q]);
      }
    }
  }

  lemma SameKeysKept(base: seq<Key>, s: State, p: nat, proc: Process)
    requires Inv(base, s) && (proc.Asked? || proc.Failed?)
    ensures Kept(base, s, SetProc(s, p, proc)) && Kept(base, s, s)
  {
    hide KeysOk;
    ClaimMoves(base, s, SetProc(s, p, proc), p, proc);
  }

  lemma StepKeeps(base: seq<Key>, s: State, l: Label)
    requires Inv(base, s)
    ensures Kept(base, s, Apply(s, l))
  {
    hide Inv, Kept;
    match l
    case Ask(p, owner, reclaim) => SameKeysKept(base, s, p, Asked(owner, reclaim));
    case ReadLive(p, k) => ReadLiveKeeps(base, s, p, k);
    case Create(p, reply) => CreateKeeps(base, s, p, reply);
    case Deactivate(p, effect, reply) => DeactivateKeeps(base, s, p, effect, reply);
    case Reveal(p, written) => RevealKeeps(base, s, p, written);
    case Stamp(p, effect, reply) => StampKeeps(base, s, p, effect, reply);
    case Ensure(owner) => EnsureKeeps(base, s, owner);
    case Crash(p) => SameKeysKept(base, s, p, Failed);
  }

  lemma {:induction false} RunKeeps(base: seq<Key>, s: State, run: seq<Label>)
    requires Inv(base, s)
    ensures Inv(base, Exec(s, run)) && Grows(s, Exec(s, run))
  {
    if run != [] {
      var n := |run| - 1;
      hide Inv, Apply;
      RunKeeps(base, s, run[..n]);
      StepKeeps(base, Exec(s, run[..n]), run[n]);
    }
  }

  lemma Reached(base: seq<Key>, run: seq<Label>)
    ensures Inv(base, Exec(From(base), run))
  {
    RunKeeps(base, From(base), run);
  }

  /****** A live key, always ******/

  /** An owner with a key has a latest one. */
  lemma {:induction false} LatestExists(keys: seq<Key>, owner: string, k: nat) returns (last: nat)
    requires k < |keys| && keys[k].owner == owner
    ensures k <= last && Latest(keys, owner, last)
    decreases |keys| - k
  {
    if j :| k < j < |keys| && keys[j].owner == owner {
      last := LatestExists(keys, owner, j);
    } else {
      last := k;
    }
  }

  lemma NewMeansLive(base: seq<Key>, keys: seq<Key>, owner: string)
    requires KeysOk(base, keys) && HasNew(|base|, keys, owner)
    ensures HasLive(keys, owner)
  {
    var k :| |base| <= k < |keys| && keys[k].owner == owner;
    var last := LatestExists(keys, owner, k);
    assert LiveFor(keys, owner, last);
  }

  /** From any store, whatever happened to its keys before, and in every interleaving: an owner that
      has a live key at one moment has one at every later moment, and the owner's most recently
      created key, if it was created since the run began, is active. */
  lemma NeverWithoutLiveKey(base: seq<Key>, run: seq<Label>, more: seq<Label>, owner: string, keys: seq<Key>)
    requires HasLive(Exec(From(base), run).keys, owner) && keys == Exec(Exec(From(base), run), more).keys
    ensures HasLive(keys, owner)
    ensures forall last: nat :: |base| <= last && Latest(keys, owner, last) ==> LiveFor(keys, owner, last)
  {
    var s, n := Exec(From(base), run), Exec(Exec(From(base), run), more);
    Reached(base, run);
    RunKeeps(base, s, more);
    hide Exec;
    if HasNew(|base|, keys, owner) {
      NewMeansLive(base, keys, owner);
    } else {
      var k: nat :| k < |s.keys| && LiveFor(s.keys, owner, k);
      assert keys[k].owner == owner;
      assert !HasNew(|base|, s.keys, owner);
      assert LiveFor(keys, owner, k);
    }
  }

  /** A key that a claim created is stamped only after its own plaintext was written out, and no key of
      the old store is ever stamped. */
  lemma ClaimedImpliesRevealed(base: seq<Key>, run: seq<Label>, k: nat)
    requires k < |Exec(From(base), run).keys| && Exec(From(base), run).keys[k].claimed
    ensures k in Exec(From(base), run).revealed || (k < |base| && base[k].claimed)
  {
    Reached(base, run);
  }

  /** A claim that reports success handed out a key of its own that is stamped, and the key it replaces
      no longer works; both for good. A key that stopped working never works again. */
  lemma DoneIsStamped(base: seq<Key>, run: seq<Label>, more: seq<Label>, p: nat, own: nat, keys: seq<Key>)
    requires p in Exec(From(base), run).procs && Exec(From(base), run).procs[p] == Done(own)
    requires keys == Exec(Exec(From(base), run), more).keys
    ensures |base| <= own < |keys| && own in Exec(From(base), run).revealed && keys[own].claimed
    ensures keys[own].from.Some? && keys[own].from.value < own && !keys[keys[own].from.value].active
  {
    var s := Exec(From(base), run);
    Reached(base, run);
    RunKeeps(base, s, more);
    hide Exec;
    assert ProcOk(|base|, s, s.procs[p]);
  }

  /** From the moment it deactivated the key it read, whatever else happens, a claim's own key is the
      one that counts: the old one does not work. */
  lemma ReplacedKeyIsDead(base: seq<Key>, run: seq<Label>, p: nat, own: nat)
    requires p in Exec(From(base), run).procs
    requires Exec(From(base), run).procs[p] in {Swapped(own), Revealed(own), Done(own)}
    ensures
      var keys := Exec(From(base), run).keys;
      own < |keys| && keys[own].from.Some? && keys[own].from.value < own && !keys[keys[own].from.value].active
  {
    Reached(base, run);
    assert ProcOk(|base|, Exec(From(base), run), Exec(From(base), run).procs[p]);
  }

  /****** An undisturbed claim ******/

  function ClaimRun(p: nat, owner: string, reclaim: bool, k: nat): seq<Label> {
    [Ask(p, owner, reclaim), ReadLive(p, k), Create(p, true), Deactivate(p, true, true), Reveal(p, true), Stamp(p, true, true)]
  }

  lemma ExecPrefix(s: State, run: seq<Label>, n: nat)
    requires n < |run|
    ensures Exec(s, run[..n + 1]) == Apply(Exec(s, run[..n]), run[n])
  {
    hide Apply;
    assert run[..n + 1][..n] == run[..n];
  }

  lemma TwoSteps(s: State, run: seq<Label>, n: nat, a: State, b: State)
    requires n + 2 <= |run| && a == Exec(s, run[..n]) && b == Exec(s, run[..n + 2])
    ensures b == Apply(Apply(a, run[n]), run[n + 1])
  {
    hide Apply, Exec;
    ExecPrefix(s, run, n);
    ExecPrefix(s, run, n + 1);
  }

  lemma NoSteps(s: State, run: seq<Label>)
    ensures Exec(s, run[..0]) == s
  {
  }

  lemma SixSteps(s: State, run: seq<Label>)
    requires |run| == 6
    ensures Exec(s, run) == Apply(Apply(Apply(Apply(Apply(Apply(s, run[0]), run[1]), run[2]), run[3]), run[4]), run[5])
  {
    hide Apply, Exec;
    NoSteps(s, run);
    TwoSteps(s, run, 0, s, Exec(s, run[..2]));
    TwoSteps(s, run, 2, Exec(s, run[..2]), Exec(s, run[..4]));
    TwoSteps(s, run, 4, Exec(s, run[..4]), Exec(s, run[..6]));
    assert run[..6] == run;
  }

  lemma ClaimReads(s: State, p: nat, owner: string, reclaim: bool, k: nat)
    requires p !in s.procs && k < |s.keys| && LiveFor(s.keys, owner, k)
    ensures Apply(Apply(s, Ask(p, owner, reclaim)), ReadLive(p, k))
      == SetProc(s, p, if s.keys[k].claimed && !reclaim then Failed else Chosen(owner, k))
  {
    assert HasLive(s.keys, owner);
  }

  /** A claim never goes on with a key that is not live and the owner's. */
  lemma ReadsOnlyLive(s: State, p: nat, k: nat)
    requires p in s.procs && s.procs[p].Asked? && !LiveFor(s.keys, s.procs[p].owner, k)
    ensures p in Apply(s, ReadLive(p, k)).procs && !Apply(s, ReadLive(p, k)).procs[p].Chosen? && Apply(s, ReadLive(p, k)).keys == s.keys
  {
  }

  /** Undisturbed, from any state: a claim of a live key is refused exactly when that key is claimed and
      not to be reclaimed. Otherwise it adds one key, live, stamped and revealed, that replaces the
      one it read, which it retires; no other key changes. */
  lemma ClaimOutcome(s: State, p: nat, owner: string, reclaim: bool, k: nat, n: State)
    requires p !in s.procs && k < |s.keys| && LiveFor(s.keys, owner, k)
    requires n == Exec(s, ClaimRun(p, owner, reclaim, k))
    ensures p in n.procs && (n.procs[p] == Failed <==> s.keys[k].claimed && !reclaim)
    ensures n.procs[p] == Failed ==> n.keys == s.keys && n.revealed == s.revealed
    ensures n.procs[p] != Failed ==>
      && n.procs[p] == Done(|s.keys|) && n.revealed == s.revealed + {|s.keys|} && |n.keys| == |s.keys| + 1
      && n.keys[|s.keys|].owner == owner && n.keys[|s.keys|].active && n.keys[|s.keys|].claimed && n.keys[|s.keys|].from == Some(k)
      && !n.keys[k].active && n.keys[k].owner == owner && n.keys[k].claimed == s.keys[k].claimed && n.keys[k].from == s.keys[k].from
      && forall j :: 0 <= j < |s.keys| && j != k ==> n.keys[j] == s.keys[j]
  {
    SixSteps(s, ClaimRun(p, owner, reclaim, k));
    hide Exec, Apply;
    ClaimReads(s, p, owner, reclaim, k);
    if s.keys[k].claimed && !reclaim {
      RefusedStays(s, p);
    } else {
      ClaimReplaces(s, p, owner, k);
      ClaimStamps(s.(keys := SetActive(s.keys, k, false) + [Key(owner, true, false, Some(k))]), p, |s.keys|);
    }
  }

  lemma RefusedStays(s: State, p: nat)
    ensures Apply(Apply(Apply(Apply(SetProc(s, p, Failed), Create(p, true)), Deactivate(p, true, true)), Reveal(p, true)), Stamp(p, true, true)) == SetProc(s, p, Failed)
  {
  }

  lemma ClaimReplaces(s: State, p: nat, owner: string, k: nat)
    requires k < |s.keys|
    ensures Apply(Apply(SetProc(s, p, Chosen(owner, k)), Create(p, true)), Deactivate(p, true, true))
      == SetProc(s.(keys := SetActive(s.keys, k, false) + [Key(owner, true, false, Some(k))]), p, Swapped(|s.keys|))
  {
  }

  lemma ClaimStamps(s: State, p: nat, own: nat)
    ensures Apply(Apply(SetProc(s, p, Swapped(own)), Reveal(p, true)), Stamp(p, true, true))
      == SetProc(s.(keys := SetClaimed(s.keys, own), revealed := s.revealed + {own}), p, Done(own))
  {
  }

  /** What a failing effect leaves: a lost reply leaves the effect and ends the claim; an effect that did
      not happen, or a write of the plaintext that failed, only ends it. */
  lemma FaultsLeave(s: State, p: nat)
    requires p in s.procs
    ensures s.procs[p].Chosen? ==> Apply(s, Create(p, false)) == SetProc(s.(keys := Apply(s, Create(p, true)).keys), p, Failed)
    ensures s.procs[p].Created? ==>
      && Apply(s, Deactivate(p, true, false)) == SetProc(s.(keys := Apply(s, Deactivate(p, true, true)).keys), p, Failed)
      && Apply(s, Deactivate(p, false, true)) == SetProc(s, p, Failed)
    ensures s.procs[p].Swapped? ==> Apply(s, Reveal(p, false)) == SetProc(s, p, Failed) && Apply(s, Reveal(p, true)).revealed == s.revealed + {s.procs[p].own}
    ensures s.procs[p].Revealed? ==>
      && Apply(s, Stamp(p, true, false)) == SetProc(s.(keys := Apply(s, Stamp(p, true, true)).keys), p, Failed)
      && Apply(s, Stamp(p, false, true)) == SetProc(s, p, Failed)
    ensures !s.procs[p].Done? ==> Apply(s, Crash(p)) == SetProc(s, p, Failed)
  {
  }

  /** The boot-time mint gives an owner without a live key one, and does nothing else. */
  lemma EnsureOutcome(s: State, owner: string)
    ensures HasLive(Apply(s, Ensure(owner)).keys, owner) && Apply(s, Ensure(owner)).procs == s.procs
    ensures HasLive(s.keys, owner) ==> Apply(s, Ensure(owner)) == s
    ensures !HasLive(s.keys, owner) ==> |Apply(s, Ensure(owner)).keys| == |s.keys| + 1 && Apply(s, Ensure(owner)).keys[..|s.keys|] == s.keys
  {
    var keys := Apply(s, Ensure(owner)).keys;
    if !HasLive(s.keys, owner) {
      assert LiveFor(keys, owner, |s.keys|);
      assert keys == s.keys + [Key(owner, true, false, None)];
    }
  }

  /****** Lineage ******/

  /** A walk along the rotatedFrom links. */
  ghost predicate Walk(keys: seq<Key>, path: seq<nat>) {
    && (forall i :: 0 <= i < |path| ==> path[i] < |keys|)
    && (forall i :: 0 <= i < |path| - 1 ==> keys[path[i]].from == Some(path[i + 1]))
  }

  lemma {:induction false} WalksGoBack(keys: seq<Key>, path: seq<nat>)
    requires LineageOk(0, keys) && Walk(keys, path) && |path| >= 2
    ensures path[|path| - 1] < path[0]
  {
    assert keys[path[0]].from == Some(path[0 + 1]);
    if |path| > 2 {
      var rest := path[1..];
      forall i | 0 <= i < |rest| - 1 ensures keys[rest[i]].from == Some(rest[i + 1]) {
        assert keys[path[i + 1]].from == Some(path[i + 1 + 1]);
      }
      WalksGoBack(keys, rest);
    }
  }

  /** The rotatedFrom links never form a cycle, if those of the old store point to older keys. */
  lemma LineageAcyclic(base: seq<Key>, run: seq<Label>, path: seq<nat>)
    requires LineageOk(0, base) && Walk(Exec(From(base), run).keys, path) && |path| >= 2
    ensures path[|path| - 1] != path[0]
  {
    var keys := Exec(From(base), run).keys;
    Reached(base, run);
    hide Exec;
    assert LineageOk(0, keys);
    WalksGoBack(keys, path);
  }
}
