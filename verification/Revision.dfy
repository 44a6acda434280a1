/** SaveRevision: an approved revision of a versioned document as an at-most-once compare-and-swap,
    reconciled through the name of the object it stored. */
module Revision {
  import opened Types

  /** A lowercase hexadecimal SHA-256. */
  type Digest = s: string | |s| == 64 witness seq(64, _ => '0')

  /** What a caller asks for: `op` is the hash of the operation id, `digest` that of the content. */
  datatype Write = Write(caller: string, base: int, baseUrl: string, op: Digest, digest: Digest)

  datatype Head = Head(owner: string, archived: bool, version: int, url: string, sha: string)

  /** One superseded version. */
  datatype Version = Version(url: string, sha: string)

  /****** The object's name ******/

  function Suffix(op: Digest, digest: Digest): string {
    "/revisions/" + op + "/" + digest + "/document.md"
  }

  lemma SuffixParts(op: Digest, digest: Digest)
    ensures |Suffix(op, digest)| == 152 && Suffix(op, digest)[11..75] == op && Suffix(op, digest)[76..140] == digest
  {
    var a, b, c := "/revisions/", "/", "/document.md";
    var s := Suffix(op, digest);
    assert |a| == 11 && |b| == 1 && |c| == 12;
    assert s == a + (op + (b + (digest + c)));
    assert s[11..] == op + (b + (digest + c));
    assert s[11..75] == s[11..][..64];
    assert s[76..] == s[11..][65..] == digest + c;
    assert s[76..140] == s[76..][..64];
  }

  /** Two suffixes of one URL name the same operation and the same bytes: they have equal length. */
  lemma SuffixDetermines(url: string, op: Digest, digest: Digest, op2: Digest, digest2: Digest)
    requires HasSuffix(url, Suffix(op, digest)) && HasSuffix(url, Suffix(op2, digest2))
    ensures op == op2 && digest == digest2
  {
    SuffixParts(op, digest);
    SuffixParts(op2, digest2);
  }

  /** A stored version is this write's own. */
  predicate Carries(w: Write, url: string, sha: string) {
    sha == w.digest && HasSuffix(url, Suffix(w.op, w.digest))
  }

  /** The document is there, not archived, and the caller's. */
  predicate Usable(head: Option<Head>, w: Write) {
    head.Some? && !head.value.archived && head.value.owner == w.caller
  }

  /****** Calls ******/

  /** The local state of one SaveRevision call. `final` marks the look after a failed supersession. */
  datatype Process =
    | Reading(w: Write)
    | Reconciling(w: Write, current: Head, final: bool)
    | Searching(w: Write, current: Head, final: bool)
    | Storing(w: Write, current: Head)
    | Stored(w: Write, current: Head, url: string)
    | Superseding(w: Write, current: Head, url: string, snapped: bool)
    | Restamping(w: Write)
    | Saved(w: Write)
    | Failed

  /** A version as it was created; `author` is the write whose head move created it. */
  datatype Made = Made(url: string, sha: string, author: Option<Write>)

  /** `measured` says that the head's digest was filled in after its version was created. `made` is a
      history variable: no step reads it. */
  datatype State = State(head: Option<Head>, measured: bool, rows: map<int, Version>, made: map<int, Made>, procs: map<nat, Process>)

  datatype Label =
    | Call(p: nat, w: Write)
    | ReadCurrent(p: nat)
    | ReconcileHead(p: nat)
    | ReconcileRow(p: nat)
    | Upload(p: nat, admitted: bool, url: string)
    | EnterGate(p: nat)
    | WriteSnapshot(p: nat, effect: bool, reply: bool)
    | MoveHead(p: nat, effect: bool, reply: bool)
    | Restamp(p: nat, reply: bool)
    | Crash(p: nat)
    | CreateDocument(owner: string, url: string, sha: string)
    | OtherSnapshot(stale: bool)
    | OtherSupersede(version: int, url: string, sha: string, stale: bool)
    | Measure(sha: string)
    | SetArchived(archived: bool)

  const Start: State := State(None, false, map[], map[], map[])

  predicate GateHeld(s: State) {
    exists q :: q in s.procs && s.procs[q].Superseding?
  }

  function SetProc(s: State, p: nat, proc: Process): State {
    s.(procs := s.procs[p := proc])
  }

  /** The first look decides whether to go on; the last one whether the failed commit took effect. */
  function NotReconciled(w: Write, current: Head, final: bool): Process {
    if final || current.version != w.base || current.url != w.baseUrl then Failed else Storing(w, current)
  }

  function DoReadCurrent(s: State, p: nat): State {
    if p !in s.procs || !s.procs[p].Reading? then s
    else
      var w := s.procs[p].w;
      if !Usable(s.head, w) then SetProc(s, p, Failed)
      else SetProc(s, p, Reconciling(w, s.head.value, false))
  }

  function DoReconcileHead(s: State, p: nat): State {
    if p !in s.procs || !s.procs[p].Reconciling? then s
    else
      var f := s.procs[p];
      if s.head.None? then SetProc(s, p, NotReconciled(f.w, f.current, f.final))
      else
        var head := s.head.value;
        if head.version == f.w.base + 1 && Carries(f.w, head.url, head.sha) then SetProc(s, p, Restamping(f.w))
        else if head.version > f.w.base + 1 then SetProc(s, p, Searching(f.w, f.current, f.final))
        else SetProc(s, p, NotReconciled(f.w, f.current, f.final))
  }

  function DoReconcileRow(s: State, p: nat): State {
    if p !in s.procs || !s.procs[p].Searching? then s
    else
      var f := s.procs[p];
      var n := f.w.base + 1;
      if 1 <= n && n in s.rows && Carries(f.w, s.rows[n].url, s.rows[n].sha) then SetProc(s, p, Restamping(f.w))
      else SetProc(s, p, NotReconciled(f.w, f.current, f.final))
  }

  /** Limits, quota and the provider; `url` is what the provider answers, "" when it confirms nothing.
      The URL of a stored object ends with the object's name. */
  function DoUpload(s: State, p: nat, admitted: bool, url: string): State {
    if p !in s.procs || !s.procs[p].Storing? then s
    else
      var f := s.procs[p];
      if !admitted || url == "" then SetProc(s, p, Failed)
      else if !HasSuffix(url, Suffix(f.w.op, f.w.digest)) then s
      else SetProc(s, p, Stored(f.w, f.current, url))
  }

  /** SupersedeFile under the version gate: the check against the current head. */
  function DoEnterGate(s: State, p: nat): State {
    if p !in s.procs || !s.procs[p].Stored? || GateHeld(s) then s
    else
      var f := s.procs[p];
      if s.head.None? || s.head.value.version != f.current.version || s.head.value.url != f.current.url
      then SetProc(s, p, Reconciling(f.w, f.current, true))
      else SetProc(s, p, Superseding(f.w, f.current, f.url, false))
  }

  /** The first of its two writes freezes the outgoing head as the caller read it. */
  function DoWriteSnapshot(s: State, p: nat, effect: bool, reply: bool): State {
    if p !in s.procs || !s.procs[p].Superseding? || s.procs[p].snapped then s
    else
      var f := s.procs[p];
      var n := if effect then s.(rows := s.rows[f.current.version := Version(f.current.url, f.current.sha)]) else s;
      SetProc(n, p, if effect && reply then f.(snapped := true) else Reconciling(f.w, f.current, true))
  }

  /** The second moves the head; its reply may be lost. */
  function DoMoveHead(s: State, p: nat, effect: bool, reply: bool): State {
    if p !in s.procs || !s.procs[p].Superseding? || !s.procs[p].snapped || s.head.None? then s
    else
      var f := s.procs[p];
      var v := f.w.base + 1;
      var n := if effect
        then s.(head := Some(s.head.value.(version := v, url := f.url, sha := f.w.digest)), measured := false, made := s.made[v := Made(f.url, f.w.digest, Some(f.w))])
        else s;
      SetProc(n, p, if effect && reply then Restamping(f.w) else Reconciling(f.w, f.current, true))
  }

  function DoRestamp(s: State, p: nat, reply: bool): State {
    if p !in s.procs || !s.procs[p].Restamping? then s
    else SetProc(s, p, if reply then Saved(s.procs[p].w) else Failed)
  }

  /** The outgoing head as another writer read it: perhaps before its digest was measured. */
  function Outgoing(s: State, stale: bool): Version
    requires s.head.Some?
  {
    Version(s.head.value.url, if stale && s.measured then "" else s.head.value.sha)
  }

  /** Any other writer of versions goes through the same gate and the same two writes. */
  function DoOtherSupersede(s: State, version: int, url: string, sha: string, stale: bool): State {
    if s.head.None? || GateHeld(s) || version <= s.head.value.version then s
    else
      var head := s.head.value;
      s.(rows := s.rows[head.version := Outgoing(s, stale)],
         head := Some(head.(version := version, url := url, sha := sha)), measured := false,
         made := s.made[version := Made(url, sha, None)])
  }

  /** Another writer that died between its two writes. */
  function DoOtherSnapshot(s: State, stale: bool): State {
    if s.head.None? || GateHeld(s) then s
    else s.(rows := s.rows[s.head.value.version := Outgoing(s, stale)])
  }

  function Apply(s: State, l: Label): State {
    match l
    case Call(p, w) => if p in s.procs then s else SetProc(s, p, Reading(w))
    case ReadCurrent(p) => DoReadCurrent(s, p)
    case ReconcileHead(p) => DoReconcileHead(s, p)
    case ReconcileRow(p) => DoReconcileRow(s, p)
    case Upload(p, admitted, url) => DoUpload(s, p, admitted, url)
    case EnterGate(p) => DoEnterGate(s, p)
    case WriteSnapshot(p, effect, reply) => DoWriteSnapshot(s, p, effect, reply)
    case MoveHead(p, effect, reply) => DoMoveHead(s, p, effect, reply)
    case Restamp(p, reply) => DoRestamp(s, p, reply)
    case Crash(p) => if p !in s.procs || s.procs[p].Saved? then s else SetProc(s, p, Failed)
    case CreateDocument(owner, url, sha) =>
      if s.head.Some? then s else s.(head := Some(Head(owner, false, 1, url, sha)), measured := false, made := map[1 := Made(url, sha, None)])
    case OtherSnapshot(stale) => DoOtherSnapshot(s, stale)
    case OtherSupersede(version, url, sha, stale) => DoOtherSupersede(s, version, url, sha, stale)
    case Measure(sha) =>
      if s.head.None? || s.head.value.sha != "" then s else s.(head := Some(s.head.value.(sha := sha)), measured := true)
    case SetArchived(archived) =>
      if s.head.None? then s else s.(head := Some(s.head.value.(archived := archived)))
  }

  function Exec(s: State, run: seq<Label>): State {
    if run == [] then s else Apply(Exec(s, run[..|run| - 1]), run[|run| - 1])
  }

  /****** What holds in every reachable state ******/

  /** A copy of version n, as it was created or with its digest measured since. */
  ghost predicate CopyOf(made: map<int, Made>, n: int, url: string, sha: string) {
    n in made && url == made[n].url && (made[n].sha != "" ==> sha == made[n].sha)
  }

  ghost predicate HeadOk(s: State) {
    match s.head
    case None => s.made == map[] && s.rows == map[]
    case Some(head) =>
      && CopyOf(s.made, head.version, head.url, head.sha)
      && (s.measured ==> s.made[head.version].sha == "")
      && (forall n :: n in s.made ==> 1 <= n <= head.version)
      && (forall n :: n in s.made && n < head.version ==> n in s.rows)
  }

  ghost predicate RowsOk(s: State) {
    forall n :: n in s.rows ==> CopyOf(s.made, n, s.rows[n].url, s.rows[n].sha)
  }

  /** Version base + 1 carries this write. */
  ghost predicate Landed(made: map<int, Made>, w: Write) {
    w.base + 1 in made && HasSuffix(made[w.base + 1].url, Suffix(w.op, w.digest))
    && (made[w.base + 1].sha == "" || made[w.base + 1].sha == w.digest)
  }

  ghost predicate ReadOk(made: map<int, Made>, current: Head) {
    CopyOf(made, current.version, current.url, current.sha)
  }

  /** Every version a write created is the one it asked for. */
  ghost predicate MadeOk(made: map<int, Made>) {
    forall n :: n in made && made[n].author.Some? ==> 
      var w := made[n].author.value;
      w.base + 1 == n && Carries(w, made[n].url, made[n].sha)
  }

  ghost predicate ProcOk(s: State, proc: Process) {
    match proc
    case Reading(_) => true
    case Reconciling(w, current, _) => ReadOk(s.made, current)
    case Searching(w, current, _) => ReadOk(s.made, current) && s.head.Some? && w.base + 1 < s.head.value.version
    case Storing(w, current) => ReadOk(s.made, current) && current.version == w.base
    case Stored(w, current, url) => ReadOk(s.made, current) && current.version == w.base && HasSuffix(url, Suffix(w.op, w.digest))
    case Superseding(w, current, url, snapped) =>
      && ReadOk(s.made, current) && current.version == w.base && HasSuffix(url, Suffix(w.op, w.digest))
      && s.head.Some? && s.head.value.version == w.base && (snapped ==> w.base in s.rows)
    case Restamping(w) => Landed(s.made, w)
    case Saved(w) => Landed(s.made, w)
    case Failed => true
  }

  ghost predicate ProcsOk(s: State) {
    forall p :: p in s.procs ==> ProcOk(s, s.procs[p])
  }

  ghost predicate OneGate(s: State) {
    forall p, q :: p in s.procs && q in s.procs && s.procs[p].Superseding? && s.procs[q].Superseding? ==> p == q
  }

  ghost predicate Inv(s: State) {
    HeadOk(s) && RowsOk(s) && MadeOk(s.made) && ProcsOk(s) && OneGate(s)
  }

  /** Versions are only added, and never change. */
  ghost predicate Grows(s: State, n: State) {
    && (forall v :: v in s.made ==> v in n.made && n.made[v] == s.made[v])
    && (forall p :: p in s.procs ==> p in n.procs && (s.procs[p].Saved? ==> n.procs[p] == s.procs[p]))
  }

  ghost predicate Kept(s: State, n: State) {
    Inv(n) && Grows(s, n)
  }

  /** A step that only moves one call. */
  lemma CallMoves(s: State, p: nat, proc: Process)
    requires Inv(s) && ProcOk(s, proc) && (p in s.procs ==> !s.procs[p].Saved?)
    requires proc.Superseding? ==> !GateHeld(s) || (p in s.procs && s.procs[p].Superseding?)
    ensures Kept(s, SetProc(s, p, proc))
  {
  }

  lemma ReadCurrentKeeps(s: State, p: nat)
    requires Inv(s)
    ensures Kept(s, DoReadCurrent(s, p))
  {
    if p in s.procs && s.procs[p].Reading? {
      CallMoves(s, p, DoReadCurrent(s, p).procs[p]);
    }
  }

  lemma HeadLanded(s: State, w: Write)
    requires Inv(s) && s.head.Some? && s.head.value.version == w.base + 1 && Carries(w, s.head.value.url, s.head.value.sha)
    ensures Landed(s.made, w)
  {
  }

  lemma ReconcileHeadKeeps(s: State, p: nat)
    requires Inv(s)
    ensures Kept(s, DoReconcileHead(s, p))
  {
    if p in s.procs && s.procs[p].Reconciling? {
      ReachedCall(s, p);
      var w := s.procs[p].w;
      if s.head.Some? && s.head.value.version == w.base + 1 && Carries(w, s.head.value.url, s.head.value.sha) {
        HeadLanded(s, w);
      }
      hide Inv, Carries, Landed, CopyOf, Kept;
      CallMoves(s, p, DoReconcileHead(s, p).procs[p]);
    } else {
      Stutter(s);
    }
  }

  lemma ReconcileRowKeeps(s: State, p: nat)
    requires Inv(s)
    ensures Kept(s, DoReconcileRow(s, p))
  {
    if p in s.procs && s.procs[p].Searching? {
      assert ProcOk(s, s.procs[p]);
      CallMoves(s, p, DoReconcileRow(s, p).procs[p]);
    }
  }

  lemma UploadKeeps(s: State, p: nat, admitted: bool, url: string)
    requires Inv(s)
    ensures Kept(s, DoUpload(s, p, admitted, url))
  {
    if DoUpload(s, p, admitted, url) != s {
      assert ProcOk(s, s.procs[p]);
      CallMoves(s, p, DoUpload(s, p, admitted, url).procs[p]);
    }
  }

  lemma EnterGateKeeps(s: State, p: nat)
    requires Inv(s)
    ensures Kept(s, DoEnterGate(s, p))
  {
    if p in s.procs && s.procs[p].Stored? && !GateHeld(s) {
      assert ProcOk(s, s.procs[p]);
      CallMoves(s, p, DoEnterGate(s, p).procs[p]);
    }
  }

  /** Freezing the outgoing head changes no version. */
  lemma SnapshotKeeps(s: State, n: State, v: Version)
    requires Inv(s) && s.head.Some? && CopyOf(s.made, s.head.value.version, v.url, v.sha)
    requires n == s.(rows := s.rows[s.head.value.version := v])
    ensures Kept(s, n)
  {
    forall p | p in n.procs ensures ProcOk(n, n.procs[p]) {
      assert ProcOk(s, s.procs[p]);
    }
  }

  lemma WriteSnapshotKeeps(s: State, p: nat, effect: bool, reply: bool)
    requires Inv(s)
    ensures Kept(s, DoWriteSnapshot(s, p, effect, reply))
  {
    var n := DoWriteSnapshot(s, p, effect, reply);
    if n != s {
      var f := s.procs[p];
      assert ProcOk(s, f);
      if effect {
        var mid := s.(rows := s.rows[f.current.version := Version(f.current.url, f.current.sha)]);
        SnapshotKeeps(s, mid, Version(f.current.url, f.current.sha));
        CallMoves(mid, p, n.procs[p]);
      } else {
        CallMoves(s, p, n.procs[p]);
      }
    }
  }

  /** The head moves to a new version while nobody else is inside the gate. */
  lemma HeadMoves(s: State, n: State, v: int, made: Made)
    requires Inv(s) && s.head.Some? && s.head.value.version < v && n.head.Some?
    requires n.head == Some(s.head.value.(version := v, url := made.url, sha := made.sha)) && n.made == s.made[v := made]
    requires !n.measured && n.rows == s.rows && s.head.value.version in s.rows && n.procs.Keys == s.procs.Keys
    requires made.author.Some? ==> made.author.value.base + 1 == v && Carries(made.author.value, made.url, made.sha)
    requires forall q :: q in s.procs ==>
      !n.procs[q].Superseding? && if n.procs[q] == s.procs[q] then true else ProcOk(n, n.procs[q]) && !s.procs[q].Saved?
    ensures Kept(s, n)
  {
    assert v !in s.made;
    forall q | q in n.procs ensures ProcOk(n, n.procs[q]) {
      assert ProcOk(s, s.procs[q]);
    }
  }

  lemma MoveHeadKeeps(s: State, p: nat, effect: bool, reply: bool)
    requires Inv(s)
    ensures Kept(s, DoMoveHead(s, p, effect, reply))
  {
    var n := DoMoveHead(s, p, effect, reply);
    if n != s {
      var f := s.procs[p];
      assert ProcOk(s, f);
      if effect {
        HeadMoves(s, n, f.w.base + 1, Made(f.url, f.w.digest, Some(f.w)));
      } else {
        CallMoves(s, p, n.procs[p]);
      }
    }
  }

  lemma OtherSupersedeKeeps(s: State, version: int, url: string, sha: string, stale: bool)
    requires Inv(s)
    ensures Kept(s, DoOtherSupersede(s, version, url, sha, stale))
  {
    var n := DoOtherSupersede(s, version, url, sha, stale);
    if n != s {
      var mid := s.(rows := n.rows);
      SnapshotKeeps(s, mid, Outgoing(s, stale));
      HeadMoves(mid, n, version, Made(url, sha, None));
    }
  }

  /** Other changes of the head leave its version alone. */
  lemma HeadEdited(s: State, n: State)
    requires Inv(s) && s.head.Some? && n.head.Some? && n == s.(head := n.head, measured := n.measured)
    requires n.measured == s.measured || s.head.value.sha == ""
    requires n.head.value.version == s.head.value.version && n.head.value.url == s.head.value.url
    requires n.head.value.sha == s.head.value.sha || s.head.value.sha == ""
    ensures Kept(s, n)
  {
    forall p | p in n.procs ensures ProcOk(n, n.procs[p]) {
      assert ProcOk(s, s.procs[p]);
    }
  }

  lemma CreateKeeps(s: State, owner: string, url: string, sha: string)
    requires Inv(s)
    ensures Kept(s, Apply(s, CreateDocument(owner, url, sha)))
  {
    var n := Apply(s, CreateDocument(owner, url, sha));
    forall p | p in n.procs ensures ProcOk(n, n.procs[p]) {
      assert ProcOk(s, s.procs[p]);
    }
  }

  lemma StepKeeps(s: State, l: Label)
    requires Inv(s)
    ensures Kept(s, Apply(s, l))
  {
    hide Inv;
    Stutter(s);
    match l
    case Call(p, w) => if p !in s.procs { CallMoves(s, p, Reading(w)); }
    case ReadCurrent(p) => ReadCurrentKeeps(s, p);
    case ReconcileHead(p) => ReconcileHeadKeeps(s, p);
    case ReconcileRow(p) => ReconcileRowKeeps(s, p);
    case Upload(p, admitted, url) => UploadKeeps(s, p, admitted, url);
    case EnterGate(p) => EnterGateKeeps(s, p);
    case WriteSnapshot(p, effect, reply) => WriteSnapshotKeeps(s, p, effect, reply);
    case MoveHead(p, effect, reply) => MoveHeadKeeps(s, p, effect, reply);
    case Restamp(p, reply) => RestampKeeps(s, p, reply);
    case Crash(p) => if p in s.procs && !s.procs[p].Saved? { CallMoves(s, p, Failed); }
    case CreateDocument(owner, url, sha) => CreateKeeps(s, owner, url, sha);
    case OtherSnapshot(stale) => OtherSnapshotKeeps(s, stale);
    case OtherSupersede(version, url, sha, stale) => OtherSupersedeKeeps(s, version, url, sha, stale);
    case Measure(sha) => if s.head.Some? && s.head.value.sha == "" { HeadEdited(s, Apply(s, l)); }
    case SetArchived(archived) => if s.head.Some? { HeadEdited(s, Apply(s, l)); }
  }

  lemma Stutter(s: State)
    requires Inv(s)
    ensures Kept(s, s)
  {
  }

  lemma RestampKeeps(s: State, p: nat, reply: bool)
    requires Inv(s)
    ensures Kept(s, DoRestamp(s, p, reply))
  {
    if p in s.procs && s.procs[p].Restamping? {
      assert ProcOk(s, s.procs[p]);
      CallMoves(s, p, DoRestamp(s, p, reply).procs[p]);
    }
  }

  lemma OtherSnapshotKeeps(s: State, stale: bool)
    requires Inv(s)
    ensures Kept(s, DoOtherSnapshot(s, stale))
  {
    if s.head.Some? && !GateHeld(s) {
      SnapshotKeeps(s, DoOtherSnapshot(s, stale), Outgoing(s, stale));
    }
  }

  lemma {:induction false} RunKeeps(s: State, run: seq<Label>)
    requires Inv(s)
    ensures Kept(s, Exec(s, run))
  {
    if run != [] {
      var n := |run| - 1;
      hide Inv, Apply;
      RunKeeps(s, run[..n]);
      StepKeeps(Exec(s, run[..n]), run[n]);
    }
  }

  lemma {:induction false} ExecConcat(s: State, a: seq<Label>, b: seq<Label>)
    ensures Exec(s, a + b) == Exec(Exec(s, a), b)
  {
    if b == [] {
      assert a + b == a;
    } else {
      var n := |b| - 1;
      ExecConcat(s, a, b[..n]);
      assert (a + b)[..|a + b| - 1] == a + b[..n];
    }
  }

  /****** At most once ******/

  /** Whatever calls, retries, crashes and other writers interleave: every call that reported success
      from one base version did so for the same operation and the same bytes, and the next version
      is theirs. */
  lemma SuccessesAgree(run: seq<Label>, p: nat, q: nat)
    requires
      var procs := Exec(Start, run).procs;
      p in procs && q in procs && procs[p].Saved? && procs[q].Saved? && procs[p].w.base == procs[q].w.base
    ensures
      var s := Exec(Start, run);
      && s.procs[p].w.op == s.procs[q].w.op && s.procs[p].w.digest == s.procs[q].w.digest
      && Landed(s.made, s.procs[p].w)
  {
    var s := Exec(Start, run);
    hide Exec, HasSuffix, Suffix;
    Reached(run);
    var a, b := s.procs[p].w, s.procs[q].w;
    ReachedCall(s, p);
    ReachedCall(s, q);
    hide Inv;
    SuffixDetermines(s.made[a.base + 1].url, a.op, a.digest, b.op, b.digest);
  }

  lemma Reached(run: seq<Label>)
    ensures Inv(Exec(Start, run))
  {
    RunKeeps(Start, run);
  }

  lemma ReachedCall(s: State, p: nat)
    requires Inv(s) && p in s.procs
    ensures ProcOk(s, s.procs[p])
  {
  }

  lemma ReachedVersion(s: State, v: int)
    requires Inv(s) && v in s.made && s.made[v].author.Some?
    ensures s.made[v].author.value.base + 1 == v && Carries(s.made[v].author.value, s.made[v].url, s.made[v].sha)
  {
  }

  lemma Later(run: seq<Label>, more: seq<Label>)
    ensures Inv(Exec(Start, run)) && Inv(Exec(Start, run + more)) && Grows(Exec(Start, run), Exec(Start, run + more))
  {
    hide Inv;
    Reached(run);
    ExecConcat(Start, run, more);
    RunKeeps(Exec(Start, run), more);
  }

  /** At most one operation becomes version v + 1, for good, and only its calls ever report success. */
  lemma OneOperationPerVersion(run: seq<Label>, more: seq<Label>, v: int, p: nat)
    requires v in Exec(Start, run).made && Exec(Start, run).made[v].author.Some?
    requires p in Exec(Start, run + more).procs && Exec(Start, run + more).procs[p].Saved? && Exec(Start, run + more).procs[p].w.base + 1 == v
    ensures
      var winner, w := Exec(Start, run).made[v].author.value, Exec(Start, run + more).procs[p].w;
      && v in Exec(Start, run + more).made && Exec(Start, run + more).made[v] == Exec(Start, run).made[v]
      && winner.base + 1 == v && w.op == winner.op && w.digest == winner.digest
  {
    var s, n := Exec(Start, run), Exec(Start, run + more);
    hide Exec, HasSuffix, Suffix, Inv;
    Later(run, more);
    ReachedCall(n, p);
    ReachedVersion(s, v);
    var winner, w := s.made[v].author.value, n.procs[p].w;
    SuffixDetermines(s.made[v].url, winner.op, winner.digest, w.op, w.digest);
  }

  /****** Retries ******/

  /** The version this write asked for exists and is its own. */
  ghost predicate Committed(s: State, w: Write) {
    w.base + 1 in s.made && Carries(w, s.made[w.base + 1].url, s.made[w.base + 1].sha)
  }

  /** Once committed, a look at the head and then at the history always finds the version, even after
      later edits moved the head on. */
  lemma LookFinds(s: State, w: Write)
    requires Inv(s) && Committed(s, w)
    ensures s.head.Some? && w.base + 1 <= s.head.value.version && 1 <= w.base + 1
    ensures s.head.value.version == w.base + 1 ==> Carries(w, s.head.value.url, s.head.value.sha)
    ensures s.head.value.version > w.base + 1 ==> w.base + 1 in s.rows && Carries(w, s.rows[w.base + 1].url, s.rows[w.base + 1].sha)
  {
    hide HasSuffix, Suffix;
  }

  predicate SameWrite(a: Write, b: Write) {
    a.base == b.base && a.op == b.op && a.digest == b.digest
  }

  /** A call that has not gone past its first look, or found its version. */
  predicate Harmless(proc: Process) {
    proc.Reading? || ((proc.Reconciling? || proc.Searching?) && !proc.final) || proc.Restamping? || proc.Saved? || proc.Failed?
  }

  /** Whether p, if it is a call for this write, is harmless. */
  ghost predicate RetryHarmless(s: State, p: nat, w: Write) {
    p in s.procs ==> s.procs[p].Failed? || !SameWrite(s.procs[p].w, w) || Harmless(s.procs[p])
  }

  /** A look that starts from a committed write finds its version. */
  lemma RetryLooksAgain(s: State, p: nat, w: Write)
    requires Inv(s) && Committed(s, w) && p in s.procs
    requires (s.procs[p].Reconciling? || s.procs[p].Searching?) && SameWrite(s.procs[p].w, w) && !s.procs[p].final
    ensures Harmless(DoReconcileHead(s, p).procs[p]) && Harmless(DoReconcileRow(s, p).procs[p])
  {
    LookFinds(s, w);
    ReachedCall(s, p);
    CarriesSame(w, s.procs[p].w);
    hide Carries, Inv, CopyOf, HeadOk;
  }

  /** A call keeps its write; a call that is not looking stays harmless by its own steps. */
  lemma CallKeepsWrite(s: State, l: Label, p: nat)
    requires p in s.procs && !s.procs[p].Reconciling? && !s.procs[p].Searching?
    ensures
      var n := Apply(s, l);
      && p in n.procs && (n.procs[p].Failed? || (!s.procs[p].Failed? && n.procs[p].w == s.procs[p].w))
      && (Harmless(s.procs[p]) ==> Harmless(n.procs[p]))
  {
    hide Carries, GateHeld, DoReconcileHead, DoReconcileRow;
    if l.ReconcileHead? || l.ReconcileRow? {
      OtherLooks(s, l.p, p);
      IdleLooks(s, l.p);
    }
  }

  lemma IdleLooks(s: State, p: nat)
    ensures p in s.procs && !s.procs[p].Reconciling? && !s.procs[p].Searching? ==> DoReconcileHead(s, p) == s && DoReconcileRow(s, p) == s
  {
  }

  lemma LooksKeepWrite(s: State, p: nat)
    requires p in s.procs && (s.procs[p].Reconciling? || s.procs[p].Searching?)
    ensures p in DoReconcileHead(s, p).procs && p in DoReconcileRow(s, p).procs
    ensures DoReconcileHead(s, p).procs[p].Failed? || DoReconcileHead(s, p).procs[p].w == s.procs[p].w
    ensures DoReconcileRow(s, p).procs[p].Failed? || DoReconcileRow(s, p).procs[p].w == s.procs[p].w
  {
    hide Carries;
  }

  lemma NewCall(s: State, l: Label, p: nat)
    requires p !in s.procs && p in Apply(s, l).procs
    ensures Apply(s, l).procs[p].Reading?
  {
    hide GateHeld, Carries, NotReconciled, HasSuffix;
  }

  lemma RetryStep(s: State, l: Label, p: nat, w: Write)
    requires Inv(s) && Committed(s, w) && RetryHarmless(s, p, w)
    ensures RetryHarmless(Apply(s, l), p, w)
  {
    hide Apply, Carries, Inv, Committed, DoReconcileHead, DoReconcileRow;
    if p !in s.procs {
      if p in Apply(s, l).procs {
        NewCall(s, l, p);
      }
    } else if s.procs[p].Reconciling? || s.procs[p].Searching? {
      LooksOnly(s, l, p);
      LooksKeepWrite(s, p);
      if SameWrite(s.procs[p].w, w) {
        RetryLooksAgain(s, p, w);
      }
    } else {
      CallKeepsWrite(s, l, p);
    }
  }

  /** Only its own two looks move a call that is looking; a crash ends it. */
  lemma LooksOnly(s: State, l: Label, p: nat)
    requires p in s.procs && (s.procs[p].Reconciling? || s.procs[p].Searching?)
    ensures
      var n := Apply(s, l);
      p in n.procs && (n.procs[p] == s.procs[p] || n.procs[p].Failed? || n.procs[p] == DoReconcileHead(s, p).procs[p] || n.procs[p] == DoReconcileRow(s, p).procs[p])
  {
    if l.ReconcileHead? || l.ReconcileRow? {
      OtherLooks(s, l.p, p);
      hide DoReconcileHead, DoReconcileRow;
    } else {
      hide GateHeld, DoReconcileHead, DoReconcileRow;
    }
  }

  lemma OtherLooks(s: State, q: nat, p: nat)
    requires p in s.procs
    ensures p in DoReconcileHead(s, q).procs && p in DoReconcileRow(s, q).procs
    ensures q != p ==> DoReconcileHead(s, q).procs[p] == s.procs[p] && DoReconcileRow(s, q).procs[p] == s.procs[p]
  {
    hide Carries, NotReconciled;
  }

  lemma CarriesSame(a: Write, b: Write)
    requires SameWrite(a, b)
    ensures forall url, sha :: Carries(a, url, sha) == Carries(b, url, sha)
  {
  }

  /** A retry that starts after its write was committed never reaches storage or the gate: it adds no
      version, whatever else runs. */
  lemma {:induction false} RetryAddsNoVersion(s: State, run: seq<Label>, p: nat, w: Write)
    requires Inv(s) && Committed(s, w) && p !in s.procs
    ensures RetryHarmless(Exec(s, run), p, w) && Committed(Exec(s, run), w)
  {
    if run != [] {
      var n := |run| - 1;
      hide Inv, Apply, RetryHarmless, Carries;
      RetryAddsNoVersion(s, run[..n], p, w);
      RunKeeps(s, run[..n]);
      StepKeeps(Exec(s, run[..n]), run[n]);
      RetryStep(Exec(s, run[..n]), run[n], p, w);
    } else {
      hide Inv;
    }
  }

  function RetryRun(p: nat, w: Write): seq<Label> {
    [Call(p, w), ReadCurrent(p), ReconcileHead(p), ReconcileRow(p), Restamp(p, true)]
  }

  lemma FiveSteps(s: State, run: seq<Label>)
    requires |run| == 5
    ensures Exec(s, run) == Apply(Apply(Apply(Apply(Apply(s, run[0]), run[1]), run[2]), run[3]), run[4])
  {
    hide Apply;
    assert Exec(s, run[..0]) == s;
    assert run[..1][..0] == run[..0] && run[..2][..1] == run[..1] && run[..3][..2] == run[..2] && run[..4][..3] == run[..3];
    assert Exec(s, run[..2]) == Apply(Apply(s, run[0]), run[1]);
    assert Exec(s, run[..4]) == Apply(Apply(Exec(s, run[..2]), run[2]), run[3]);
  }

  lemma RetryReads(s: State, p: nat, w: Write)
    requires p !in s.procs
    ensures Apply(Apply(s, Call(p, w)), ReadCurrent(p)) == SetProc(s, p, if Usable(s.head, w) then Reconciling(w, s.head.value, false) else Failed)
  {
  }

  lemma RetryLooks(s: State, p: nat, w: Write, before: State)
    requires Inv(s) && Committed(s, w) && Usable(s.head, w) && before == SetProc(s, p, Reconciling(w, s.head.value, false))
    ensures Apply(Apply(before, ReconcileHead(p)), ReconcileRow(p)) == SetProc(s, p, Restamping(w))
  {
    LookFinds(s, w);
    hide Inv, Carries, GateHeld;
  }

  lemma UsableHasHead(s: State, w: Write)
    requires Usable(s.head, w)
    ensures s.head.Some?
  {
  }

  lemma RetryEnds(s: State, p: nat, w: Write)
    ensures Apply(SetProc(s, p, Restamping(w)), Restamp(p, true)) == SetProc(s, p, Saved(w))
    ensures Apply(Apply(Apply(SetProc(s, p, Failed), ReconcileHead(p)), ReconcileRow(p)), Restamp(p, true)) == SetProc(s, p, Failed)
  {
  }

  /** A committed write's retry, run to its end, changes nothing but itself, and succeeds exactly when
      the document is still there, not archived, and the caller's. */
  lemma RetrySucceeds(run: seq<Label>, p: nat, w: Write)
    requires Committed(Exec(Start, run), w) && p !in Exec(Start, run).procs
    ensures
      var s := Exec(Start, run);
      Exec(s, RetryRun(p, w)) == SetProc(s, p, if Usable(s.head, w) then Saved(w) else Failed)
  {
    var s := Exec(Start, run);
    Reached(run);
    FiveSteps(s, RetryRun(p, w));
    hide Exec, Inv, Committed, Apply, Usable;
    RetryReads(s, p, w);
    RetryEnds(s, p, w);
    if Usable(s.head, w) {
      UsableHasHead(s, w);
      RetryLooks(s, p, w, SetProc(s, p, Reconciling(w, s.head.value, false)));
    }
  }

  /****** An undisturbed call ******/

  /** The write's own version is the head, or is in the history behind it. */
  predicate Found(s: State, w: Write) {
    s.head.Some? &&
    if s.head.value.version == w.base + 1 then Carries(w, s.head.value.url, s.head.value.sha)
    else s.head.value.version > w.base + 1 && 1 <= w.base + 1 && w.base + 1 in s.rows && Carries(w, s.rows[w.base + 1].url, s.rows[w.base + 1].sha)
  }

  /** The document is still the version and the object the write was approved for. */
  predicate AtBase(s: State, w: Write) {
    s.head.Some? && s.head.value.version == w.base && s.head.value.url == w.baseUrl
  }

  function LookRun(p: nat, w: Write, admitted: bool, url: string): seq<Label> {
    [Call(p, w), ReadCurrent(p), ReconcileHead(p), ReconcileRow(p), Label.Upload(p, admitted, url)]
  }

  function CommitRun(p: nat): seq<Label> {
    [EnterGate(p), WriteSnapshot(p, true, true), MoveHead(p, true, true), Restamp(p, true)]
  }

  lemma FourSteps(s: State, run: seq<Label>)
    requires |run| == 4
    ensures Exec(s, run) == Apply(Apply(Apply(Apply(s, run[0]), run[1]), run[2]), run[3])
  {
    hide Apply;
    assert Exec(s, run[..0]) == s;
    assert run[..1][..0] == run[..0] && run[..2][..1] == run[..1] && run[..3][..2] == run[..2];
    assert Exec(s, run[..2]) == Apply(Apply(s, run[0]), run[1]);
  }

  /** The first look of a call, both reads together. */
  lemma Looked(s: State, p: nat, w: Write, before: State)
    requires Usable(s.head, w) && before == SetProc(s, p, Reconciling(w, s.head.value, false))
    ensures Apply(Apply(before, ReconcileHead(p)), ReconcileRow(p))
      == SetProc(s, p, if Found(s, w) then Restamping(w) else NotReconciled(w, s.head.value, false))
  {
    hide Carries, GateHeld;
  }

  /** What a call has come to when it has looked and, if it had to, stored its object. */
  lemma LookedAndStored(s: State, p: nat, w: Write, admitted: bool, url: string, n: State)
    requires p !in s.procs && (url == "" || HasSuffix(url, Suffix(w.op, w.digest))) && n == Exec(s, LookRun(p, w, admitted, url))
    ensures p in n.procs && n == SetProc(s, p, n.procs[p])
    ensures n.procs[p] ==
      if Usable(s.head, w) && Found(s, w) then Restamping(w)
      else if Usable(s.head, w) && AtBase(s, w) && admitted && url != "" then Stored(w, s.head.value, url)
      else Failed
  {
    FiveSteps(s, LookRun(p, w, admitted, url));
    RetryReads(s, p, w);
    FailedLook(s, p);
    var looked := if !Usable(s.head, w) then Failed else if Found(s, w) then Restamping(w) else NotReconciled(w, s.head.value, false);
    StoreStep(s, p, looked, admitted, url);
    hide Apply, Exec, Carries, Found, HasSuffix, Suffix;
    if Usable(s.head, w) {
      Looked(s, p, w, SetProc(s, p, Reconciling(w, s.head.value, false)));
    }
  }

  lemma FailedLook(s: State, p: nat)
    ensures Apply(Apply(SetProc(s, p, Failed), ReconcileHead(p)), ReconcileRow(p)) == SetProc(s, p, Failed)
  {
    hide Carries;
  }

  lemma StoreStep(s: State, p: nat, proc: Process, admitted: bool, url: string)
    requires proc.Storing? ==> url == "" || HasSuffix(url, Suffix(proc.w.op, proc.w.digest))
    ensures Apply(SetProc(s, p, proc), Label.Upload(p, admitted, url))
      == SetProc(s, p, if !proc.Storing? then proc else if admitted && url != "" then Stored(proc.w, proc.current, url) else Failed)
  {
    hide HasSuffix, Suffix;
  }

  lemma EntersGate(s: State, p: nat, w: Write, url: string)
    requires AtBase(s, w) && p in s.procs && s.procs[p] == Stored(w, s.head.value, url) && !GateHeld(s)
    ensures Apply(Apply(s, EnterGate(p)), WriteSnapshot(p, true, true))
      == SetProc(s.(rows := s.rows[w.base := Version(s.head.value.url, s.head.value.sha)]), p, Superseding(w, s.head.value, url, true))
  {
    hide GateHeld;
  }

  lemma LeavesGate(s: State, p: nat, w: Write, current: Head, url: string, n: State)
    requires s.head.Some? && p in s.procs && s.procs[p] == Superseding(w, current, url, true)
    requires n == Apply(Apply(s, MoveHead(p, true, true)), Restamp(p, true))
    ensures p in n.procs && n.procs[p] == Saved(w) && n.rows == s.rows
    ensures n.head == Some(Head(s.head.value.owner, s.head.value.archived, w.base + 1, url, w.digest))
  {
    hide GateHeld;
  }

  lemma Committing(s: State, p: nat, w: Write, url: string, n: State)
    requires AtBase(s, w) && p in s.procs && s.procs[p] == Stored(w, s.head.value, url) && !GateHeld(s)
    requires n == Exec(s, CommitRun(p))
    ensures p in n.procs && n.procs[p] == Saved(w) && n.rows == s.rows[w.base := Version(s.head.value.url, s.head.value.sha)]
    ensures n.head == Some(Head(s.head.value.owner, s.head.value.archived, w.base + 1, url, w.digest))
  {
    FourSteps(s, CommitRun(p));
    hide Exec, Apply, GateHeld;
    EntersGate(s, p, w, url);
    LeavesGate(Apply(Apply(s, EnterGate(p)), WriteSnapshot(p, true, true)), p, w, s.head.value, url, n);
  }

  lemma NothingToCommit(s: State, p: nat, n: State)
    requires p in s.procs && (s.procs[p].Restamping? || s.procs[p].Failed?) && n == Exec(s, CommitRun(p))
    ensures n == SetProc(s, p, if s.procs[p].Failed? then Failed else Saved(s.procs[p].w))
  {
    FourSteps(s, CommitRun(p));
    hide Exec, GateHeld;
  }

  /** From every state, with the gate free, an undisturbed call succeeds exactly when the document is there,
      not archived and the caller's, and the write is found, or the document is still at the base and
      the object is admitted and stored. It lands at most once: found, it changes nothing; otherwise
      the old head moves into the history and the new one is this write's. */
  lemma SaveOutcome(s: State, p: nat, w: Write, admitted: bool, url: string, n: State)
    requires p !in s.procs && !GateHeld(s) && (url == "" || HasSuffix(url, Suffix(w.op, w.digest)))
    requires n == Exec(Exec(s, LookRun(p, w, admitted, url)), CommitRun(p))
    ensures p in n.procs && (n.procs[p] == Saved(w) || n.procs[p] == Failed)
    ensures n.procs[p] == Saved(w) <==> Usable(s.head, w) && (Found(s, w) || (AtBase(s, w) && admitted && url != ""))
    ensures n.procs[p] == Failed || Found(s, w) ==> n.head == s.head && n.rows == s.rows
    ensures n.procs[p] == Saved(w) && !Found(s, w) ==>
      && n.head == Some(Head(s.head.value.owner, s.head.value.archived, w.base + 1, url, w.digest))
      && n.rows == s.rows[w.base := Version(s.head.value.url, s.head.value.sha)]
  {
    var looked := Exec(s, LookRun(p, w, admitted, url));
    LookedAndStored(s, p, w, admitted, url, looked);
    hide Exec, Found, HasSuffix, Suffix, LookRun, CommitRun;
    if looked.procs[p].Stored? {
      assert !GateHeld(looked) by {
        assert forall q :: q in looked.procs && q != p ==> looked.procs[q] == s.procs[q];
      }
      Committing(looked, p, w, url, n);
    } else {
      NothingToCommit(looked, p, n);
    }
  }

  /** What a failing effect leaves: an effect that did not happen sends the call to its last look; so does
      a lost reply, with the effect in place. A failed re-stamp is an error with everything saved. */
  lemma FaultsLeave(s: State, p: nat, effect: bool, reply: bool)
    requires p in s.procs && s.head.Some?
    ensures s.procs[p].Superseding? && !s.procs[p].snapped && !(effect && reply) ==>
      && Apply(s, WriteSnapshot(p, effect, reply)).procs == s.procs[p := Reconciling(s.procs[p].w, s.procs[p].current, true)]
      && Apply(s, WriteSnapshot(p, effect, reply)).rows == if effect then Apply(s, WriteSnapshot(p, true, true)).rows else s.rows
    ensures s.procs[p].Superseding? && s.procs[p].snapped && !(effect && reply) ==>
      && Apply(s, MoveHead(p, effect, reply)).procs == s.procs[p := Reconciling(s.procs[p].w, s.procs[p].current, true)]
      && Apply(s, MoveHead(p, effect, reply)).head == if effect then Apply(s, MoveHead(p, true, true)).head else s.head
    ensures s.procs[p].Restamping? ==> Apply(s, Restamp(p, false)) == SetProc(s, p, Failed)
    ensures !s.procs[p].Saved? ==> Apply(s, Crash(p)) == SetProc(s, p, Failed)
  {
  }

  /** What other writers can do: supersede the head by any greater version, freeze it and die, measure its
      digest, archive it or take it back. */
  lemma OthersAct(s: State, version: int, url: string, sha: string, archived: bool)
    requires s.head.Some? && !GateHeld(s)
    ensures version > s.head.value.version ==>
      var n := Apply(s, OtherSupersede(version, url, sha, false));
      && n.head == Some(s.head.value.(version := version, url := url, sha := sha)) && s.head.value.version in n.rows
      && n.rows[s.head.value.version] == Version(s.head.value.url, s.head.value.sha) && n.procs == s.procs
    ensures
      var n := Apply(s, OtherSnapshot(false));
      n.rows == s.rows[s.head.value.version := Version(s.head.value.url, s.head.value.sha)] && n.head == s.head && n.procs == s.procs
    ensures s.head.value.sha == "" ==> Apply(s, Measure(sha)).head == Some(s.head.value.(sha := sha))
    ensures Apply(s, SetArchived(archived)).head == Some(s.head.value.(archived := archived))
  {
  }
}
