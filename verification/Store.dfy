/** The journal's tables as they are updated in place: every SQL transaction as a method, proved
    against its function in Journal. */
module Store {
  import opened Types
  import opened Sizes
  import opened Library
  import opened Journal
  import opened Orders
  import Sums

  /** A committed transaction installs its tables and a rolled back one leaves them alone. */
  ghost predicate Outcome<T>(tx: Tx<T>, before: Db, after: Db, r: Result<T>) {
    match tx
    case Commit(db, value) => after == db && r == Ok(value)
    case Rollback(e) => after == before && r == Err(e)
  }

  /** What the schema enforces: unique file ids and bounded sizes. */
  ghost predicate SchemaOk(uploads: map<IntentId, Upload>) {
    && (forall k :: k in uploads ==> 0 <= uploads[k].size <= MaxStreamBytes)
    && (forall a, b :: a in uploads && b in uploads && uploads[a].file == uploads[b].file ==> a == b)
  }

  /** The `retained` map of the charging loop: the owner's rows seen so far, by their file. */
  ghost predicate Retains(uploads: map<IntentId, Upload>, owner: string, done: set<IntentId>, retained: map<FileId, Upload>) {
    && (forall k :: k in done ==> k in uploads && uploads[k].owner == owner && uploads[k].file in retained)
    && (forall f :: f in retained ==> exists k :: k in done && k in uploads && uploads[k].file == f && uploads[k] == retained[f])
  }

  ghost predicate RetainsAll(db: Db, owner: string, retained: map<FileId, Upload>) {
    Retains(db.uploads, owner, JournalCharges(db, owner).Keys, retained)
  }

  lemma RetainsNone(uploads: map<IntentId, Upload>, owner: string)
    ensures Retains(uploads, owner, {}, map[])
  {
  }

  lemma RetainsMore(uploads: map<IntentId, Upload>, owner: string, done: set<IntentId>, retained: map<FileId, Upload>, k: IntentId)
    requires Retains(uploads, owner, done, retained) && k in uploads && uploads[k].owner == owner
    ensures Retains(uploads, owner, done + {k}, retained[uploads[k].file := uploads[k]])
  {
  }

  lemma RetainedDecides(db: Db, owner: string, retained: map<FileId, Upload>, f: FileId, row: FileRow)
    requires SchemaOk(db.uploads) && RetainsAll(db, owner, retained)
    ensures Deduplicated(db, owner, f, row) <==> f in retained && Names(row, retained[f])
  {
  }

  lemma ChargesNonNegative(db: Db, owner: string)
    requires SchemaOk(db.uploads)
    ensures forall k :: k in JournalCharges(db, owner) ==> 0 <= JournalCharges(db, owner)[k]
    ensures forall f :: f in LibraryCharges(db, owner) ==> 0 <= LibraryCharges(db, owner)[f]
  {
  }

  /** What the loop over journal rows sums up. */
  lemma ChargedRows(db: Db, uploads: map<IntentId, Upload>, owner: string)
    requires SchemaOk(db.uploads) && uploads == db.uploads
    ensures JournalCharges(db, owner).Keys == set k | k in uploads && uploads[k].owner == owner
    ensures forall k :: k in JournalCharges(db, owner) ==>
      JournalCharges(db, owner)[k] == (if uploads[k].state == Retired then 0 else uploads[k].size) && 0 <= JournalCharges(db, owner)[k]
  {
  }

  /** What the loop over files sums up, and what it reads. */
  lemma ChargedFiles(db: Db, owner: string)
    ensures LibraryCharges(db, owner).Keys == set f | f in db.library.files && OwnedFile(db, owner, f)
    ensures forall f :: f in LibraryCharges(db, owner) ==> 0 <= LibraryCharges(db, owner)[f]
    ensures FilesReadable(db, owner) <==>
      forall f :: f in LibraryCharges(db, owner) ==> QuotaSize(FileHead(db.library, f).value.size).Some?
  {
  }

  lemma ChargedFile(db: Db, owner: string, retained: map<FileId, Upload>, f: FileId, row: FileRow)
    requires SchemaOk(db.uploads) && RetainsAll(db, owner, retained) && f in LibraryCharges(db, owner)
    requires FileHead(db.library, f) == Some(row) && QuotaSize(row.size).Some?
    ensures LibraryCharges(db, owner)[f] == if f in retained && Names(row, retained[f]) then 0 else QuotaSize(row.size).value as int
    ensures 0 <= QuotaSize(row.size).value
  {
    RetainedDecides(db, owner, retained, f, row);
  }

  /** One more charge counted, within the whole. */
  lemma CountOne<K>(charges: map<K, int>, done: set<K>, k: K)
    requires k in charges && k !in done && forall q :: q in charges ==> 0 <= charges[q]
    ensures Sums.Sum(Sums.Part(charges, done)) + charges[k] == Sums.Sum(Sums.Part(charges, done + {k})) <= Sums.Sum(charges)
  {
    Sums.PartGrows(charges, done, k);
    Sums.PartBounded(charges, done + {k});
  }

  /** What other writers append to a file between the steps of a finalizer. */
  datatype Meanwhile = Meanwhile(
    beforeRecord: seq<FileRow>, beforeReread: seq<FileRow>, beforePromote: seq<FileRow>, beforeLast: seq<FileRow>, beforeCommit: seq<FileRow>)

  const Quiet: Meanwhile := Meanwhile([], [], [], [], [])

  /** The versions of a file when a finalizer reads it after recording it, if it had to. */
  function RecordedRows(rows: seq<FileRow>, i: Intent, m: Meanwhile, retiring: bool): seq<FileRow>
    requires ValidIdentity(i.identity)
  {
    if rows == [] && !retiring then m.beforeRecord + [RecordedRow(i)] + m.beforeReread else rows
  }

  /** The versions of a file when a finalizer reads it after promoting it. */
  function PromotedRows(rows: seq<FileRow>, m: Meanwhile): seq<FileRow>
    requires rows != []
  {
    var current := rows + m.beforePromote;
    current + [current[|current| - 1].(status := "ready")] + m.beforeLast
  }

  /** The versions of a file when a finalizer reads it last. */
  function ReadRows(rows: seq<FileRow>, i: Intent, m: Meanwhile, retiring: bool): seq<FileRow>
    requires ValidIdentity(i.identity)
  {
    var recorded := RecordedRows(rows, i, m, retiring);
    if recorded != [] && !retiring && Matches(recorded[|recorded| - 1], i.identity, i.url) && recorded[|recorded| - 1].status == "stored"
    then PromotedRows(recorded, m)
    else recorded
  }

  /** Undisturbed, the last read presents the object exactly when the file was absent, and could be
      recorded, or presented it already. */
  lemma QuietRead(db: Db, i: Intent)
    requires ValidIdentity(i.identity)
    ensures PresentedAs(Last(ReadRows(FileRows(db.library, i.file), i, Quiet, FileRetiring(db, i.file))), i) <==> Presentable(db, i)
  {
    MatchesAreShown();
    hide Matches, Shows, RecordedRow, FileRetiring;
    var rows := FileRows(db.library, i.file);
    RecordedMatches(i);
    StatusIrrelevant(if rows == [] then RecordedRow(i) else rows[|rows| - 1], i);
  }

  /** Whatever others write, earlier versions stay. */
  lemma ReadExtends(rows: seq<FileRow>, i: Intent, m: Meanwhile, retiring: bool)
    requires ValidIdentity(i.identity)
    ensures rows <= ReadRows(rows, i, m, retiring)
  {
    hide Matches, RecordedRow;
  }

  class PipelineStore {
    const quota: int64
    const less: (IntentId, IntentId) -> bool
    var uploads: map<IntentId, Upload>
    var references: map<RefKey, Reference>
    var fences: map<Scope, FenceRow>
    var files: map<FileId, seq<FileRow>>
    var entries: map<FileId, seq<EntryRow>>
    var versioned: set<FileId>

    function Tables(): (db: Db)
      reads this
    {
      Db(uploads, references, fences, Shelf(files, entries, versioned))
    }

    ghost predicate Valid()
      reads this
    {
      SchemaOk(uploads)
    }

    constructor (quota: int64, less: (IntentId, IntentId) -> bool)
      ensures Valid() && Tables() == EmptyDb && this.quota == quota && this.less == less
    {
      this.quota, this.less := quota, less;
      uploads, references, fences, files, entries, versioned := map[], map[], map[], map[], map[], {};
    }

    /****** Admission ******/

    /** The loop over the owner's journal rows. */
    method ChargeJournal(owner: string, remaining: int64) returns (left: Option<int64>, retained: map<FileId, Upload>)
      requires Valid() && 0 <= remaining
      ensures left.Some? <==> Sums.Sum(JournalCharges(Tables(), owner)) <= remaining as int
      ensures left.Some? ==> left.value as int == remaining as int - Sums.Sum(JournalCharges(Tables(), owner))
      ensures left.Some? ==> RetainsAll(Tables(), owner, retained)
    {
      hide Retains, JournalCharges, Sums.Part, SchemaOk;
      ghost var charges := JournalCharges(Tables(), owner);
      ChargedRows(Tables(), uploads, owner);
      Sums.PartEnds(charges);
      retained := map[];
      RetainsNone(uploads, owner);
      var rest := remaining;
      var todo := set k | k in uploads && uploads[k].owner == owner;
      ghost var done: set<IntentId> := {};
      while todo != {}
        invariant done + todo == charges.Keys && done !! todo
        invariant rest as int == remaining as int - Sums.Sum(Sums.Part(charges, done)) && 0 <= rest
        invariant Retains(uploads, owner, done, retained)
        decreases todo
      {
        var k :| k in todo;
        var charged: int := if uploads[k].state == Retired then 0 else uploads[k].size;
        assert charged == charges[k];
        CountOne(charges, done, k);
        if charged > rest as int {
          return None, retained;
        }
        rest := rest - charged as int64;
        RetainsMore(uploads, owner, done, retained, k);
        retained := retained[uploads[k].file := uploads[k]];
        todo, done := todo - {k}, done + {k};
      }
      assert done == charges.Keys;
      left := Some(rest);
    }

    /** The loop over the owner's current files. */
    method ChargeFiles(owner: string, retained: map<FileId, Upload>, remaining: int64) returns (left: Option<int64>)
      requires Valid() && 0 <= remaining && RetainsAll(Tables(), owner, retained)
      ensures left.Some? <==> FilesReadable(Tables(), owner) && Sums.Sum(LibraryCharges(Tables(), owner)) <= remaining as int
      ensures left.Some? ==> left.value as int == remaining as int - Sums.Sum(LibraryCharges(Tables(), owner))
    {
      hide LibraryCharges, Sums.Part, SchemaOk, RetainsAll, Names, QuotaSize, FilesReadable;
      ghost var charges := LibraryCharges(Tables(), owner);
      ChargedFiles(Tables(), owner);
      Sums.PartEnds(charges);
      var rest := remaining;
      var todo := set f | f in files && OwnedFile(Tables(), owner, f);
      ghost var done: set<FileId> := {};
      while todo != {}
        invariant done + todo == charges.Keys && done !! todo
        invariant rest as int == remaining as int - Sums.Sum(Sums.Part(charges, done)) && 0 <= rest
        invariant forall f :: f in done ==> OwnedFile(Tables(), owner, f) && QuotaSize(FileHead(Tables().library, f).value.size).Some?
        decreases todo
      {
        var f :| f in todo;
        var row := FileHead(Tables().library, f).value;
        var size := QuotaSize(row.size);
        if size.None? {
          return None;
        }
        ChargedFile(Tables(), owner, retained, f, row);
        CountOne(charges, done, f);
        if !(f in retained && Names(row, retained[f])) {
          if size.value > rest {
            return None;
          }
          rest := rest - size.value;
        }
        todo, done := todo - {f}, done + {f};
      }
      assert done == charges.Keys;
      left := Some(rest);
    }

    /** The loop over superseded versions and open sessions. */
    method ChargeOthers(others: seq<Number>, remaining: int64) returns (left: Option<int64>)
      requires 0 <= remaining
      ensures left.Some? <==> Readable(others) && Total(others) <= remaining as int
      ensures left.Some? ==> left.value as int == remaining as int - Total(others)
    {
      var rest := remaining;
      for i := 0 to |others|
        invariant Readable(others[..i])
        invariant rest as int == remaining as int - Total(others[..i]) && 0 <= rest
      {
        var size := QuotaSize(others[i]);
        if size.None? {
          return None;
        }
        assert others[..i + 1][..i] == others[..i];
        if size.value > rest {
          if Readable(others) {
            TotalGrows(others, i + 1);
          }
          return None;
        }
        rest := rest - size.value;
      }
      assert others[..|others|] == others;
      left := Some(rest);
    }

    /** admitPipelineStream: it accepts exactly when the true total fits the quota. */
    method Admit(x: Identity, others: seq<Number>) returns (ok: bool)
      requires Valid()
      ensures ok <==> Admits(Tables(), x.owner, x.size, others, quota as int)
    {
      ChargesNonNegative(Tables(), x.owner);
      Sums.SumNonNegative(JournalCharges(Tables(), x.owner));
      Sums.SumNonNegative(LibraryCharges(Tables(), x.owner));
      if Readable(others) {
        TotalNonNegative(others);
      }
      if x.size < 0 || x.size > quota as int {
        return false;
      }
      var left, retained := ChargeJournal(x.owner, quota - x.size as int64);
      if left.None? {
        return false;
      }
      left := ChargeFiles(x.owner, retained, left.value);
      if left.None? {
        return false;
      }
      left := ChargeOthers(others, left.value);
      ok := left.Some?;
    }

    /****** Reservation and verification ******/

    /** INSERT INTO pipeline_artifact_uploads */
    method Insert(k: IntentId, row: Upload) returns (r: Result<()>)
      requires Valid()
      modifies this`uploads
      ensures Valid()
      ensures Outcome(InsertUpload(old(Tables()), k, row), old(Tables()), Tables(), r)
    {
      if k in uploads || FileTaken(Tables(), row.file) || (exists q :: q in uploads && uploads[q].obj == row.obj) || !(0 <= row.size <= MaxStreamBytes) {
        return Err(ConstraintViolation);
      }
      if FencedByTrigger(Tables(), row.owner, row.identity) {
        return Err(ScopeFenced);
      }
      uploads := uploads[k := row];
      return Ok(());
    }

    /** reserveStream */
    method ReserveStream(x: Identity, others: seq<Number>) returns (r: Result<Intent>)
      requires Valid()
      modifies this`uploads
      ensures Valid()
      ensures Outcome(Reserve(old(Tables()), x, others, quota as int), old(Tables()), Tables(), r)
    {
      var fenced := ReadFence(Tables(), ScopeOf(x));
      if fenced.Err? {
        return Err(fenced.error);
      }
      if fenced.value {
        return Err(ScopeFenced);
      }
      var k := IntentIdOf(x);
      if k in uploads {
        var existing := uploads[k];
        if existing.identity != x {
          return Err(DifferentIdentity);
        }
        if InRetirement(existing.state) {
          return Err(PermanentlyRetired);
        }
        if FencedByTrigger(Tables(), existing.owner, existing.identity) {
          return Err(ScopeFenced);
        }
        existing := existing.(generation := existing.generation + 1);
        uploads := uploads[k := existing];
        return Ok(IntentOf(k, existing));
      }
      var admitted := Admit(x, others);
      if !admitted {
        return Err(OverQuota);
      }
      var inserted := Insert(k, NewUpload(x));
      if inserted.Err? {
        return Err(inserted.error);
      }
      return Ok(IntentOf(k, NewUpload(x)));
    }

    /** savePipelineVerified */
    method SaveVerifiedObject(i: Intent, url: Url, etag: string) returns (r: Result<()>)
      requires Valid()
      modifies this`uploads
      ensures Valid()
      ensures Outcome(SaveVerified(old(Tables()), i, url, etag), old(Tables()), Tables(), r)
      ensures r.Ok? ==> i.id in uploads && uploads[i.id].url == url && uploads[i.id].etag == etag && uploads[i.id].state in {BlobVerified, Ready}
    {
      if i.id !in uploads {
        return Err(NotFound);
      }
      var current := uploads[i.id];
      if current.generation != i.generation || !(current.state == Reserved || current.state == BlobVerified || current.state == Ready) {
        return Err(Stale);
      }
      if current.etag != "" && (current.etag != etag || current.url != url) {
        return Err(ObjectVersionChanged);
      }
      if current.state != Ready {
        current := current.(state := BlobVerified);
      }
      uploads := uploads[i.id := current.(url := url, etag := etag)];
      return Ok(());
    }

    /****** Finalization ******/

    /** Engine writes of versions of a file: they commit at once, if the trigger admits them. */
    method WriteFile(f: FileId, rows: seq<FileRow>) returns (ok: bool)
      modifies this`files
      ensures ok <==> !FileRetiring(Tables(), f)
      ensures FileRows(Tables().library, f) == FileRows(old(Tables()).library, f) + (if ok then rows else [])
      ensures forall g :: g != f ==> FileRows(Tables().library, g) == FileRows(old(Tables()).library, g)
      ensures !ok ==> files == old(files)
    {
      ok := !FileRetiring(Tables(), f);
      if ok {
        files := files[f := FileRows(Tables().library, f) + rows];
      }
    }

    /** The row finalizeStream goes on with: the file's row, or the one it finds after recording its own.
        `m` is what others write meanwhile. */
    method Record(i: Intent, m: Meanwhile) returns (row: Option<FileRow>)
      requires ValidIdentity(i.identity)
      modifies this`files
      ensures FileRows(Tables().library, i.file) == RecordedRows(FileRows(old(Tables()).library, i.file), i, m, FileRetiring(Tables(), i.file))
      ensures row == FileHead(Tables().library, i.file)
      ensures forall g :: g != i.file ==> FileRows(Tables().library, g) == FileRows(old(Tables()).library, g)
    {
      hide RecordedRow;
      row := FileHead(Tables().library, i.file);
      if row.None? {
        var _ := WriteFile(i.file, m.beforeRecord);
        var recorded := WriteFile(i.file, [RecordedRow(i)]);
        if recorded {
          var _ := WriteFile(i.file, m.beforeReread);
        }
        row := FileHead(Tables().library, i.file);
      }
    }

    /** SetFileStatus merges the new status into the file's current row; then the file is read again. */
    method Promote(f: FileId, m: Meanwhile) returns (row: Option<FileRow>)
      requires FileRows(Tables().library, f) != []
      modifies this`files
      ensures FileRows(Tables().library, f) ==
        if FileRetiring(Tables(), f) then FileRows(old(Tables()).library, f) else PromotedRows(FileRows(old(Tables()).library, f), m)
      ensures if FileRetiring(Tables(), f) then row == None else row.Some? && row == FileHead(Tables().library, f)
      ensures forall g :: g != f ==> FileRows(Tables().library, g) == FileRows(old(Tables()).library, g)
    {
      var _ := WriteFile(f, m.beforePromote);
      var head := FileHead(Tables().library, f).value;
      var promoted := WriteFile(f, [head.(status := "ready")]);
      if !promoted {
        return None;
      }
      var _ := WriteFile(f, m.beforeLast);
      return FileHead(Tables().library, f);
    }

    /** The engine writes of finalizeStream: it goes on exactly when the version it read last is ready
        and presents this object. What was written stays, even if a check refuses. */
    method Present(i: Intent, m: Meanwhile) returns (ok: bool)
      requires ValidIdentity(i.identity)
      modifies this`files
      ensures
        var retiring := FileRetiring(Tables(), i.file);
        var read := ReadRows(FileRows(old(Tables()).library, i.file), i, m, retiring);
        && (ok <==> PresentedAs(Last(read), i))
        && FileRows(Tables().library, i.file) == read + if retiring then [] else m.beforeCommit
      ensures forall g :: g != i.file ==> FileRows(Tables().library, g) == FileRows(old(Tables()).library, g)
    {
      MatchesAreShown();
      hide Matches, Shows, RecordedRow, FileRetiring, RecordedRows, PromotedRows;
      ghost var was := Tables();
      var row := Record(i, m);
      SameTrigger(was, Tables(), i.file);
      ok := row.Some? && Matches(row.value, i.identity, i.url);
      if ok && row.value.status == "stored" {
        row := Promote(i.file, m);
        SameTrigger(was, Tables(), i.file);
        if row.None? {
          return false;
        }
        ok := Matches(row.value, i.identity, i.url);
      }
      ok := ok && row.value.status == "ready";
      var _ := WriteFile(i.file, m.beforeCommit);
      SameTrigger(was, Tables(), i.file);
    }

    /** finalizeStream: the intent becomes ready exactly when its row is current and the version of
        the file it read last is ready and presents this object. */
    method FinalizeStream(i: Intent, m: Meanwhile) returns (r: Result<()>)
      requires Valid() && ValidIdentity(i.identity)
      modifies this`uploads, this`files
      ensures Valid()
      ensures
        var retiring := FileRetiring(old(Tables()), i.file);
        var read := ReadRows(FileRows(old(Tables()).library, i.file), i, m, retiring);
        if FinalizeCheck(old(Tables()), i).Err? then r.Err? && Tables() == old(Tables())
        else
          && (r.Ok? <==> PresentedAs(Last(read), i))
          && FileRows(Tables().library, i.file) == read + if retiring then [] else m.beforeCommit
      ensures uploads == if r.Ok? then FinalizeCommit(old(Tables()), i).uploads else old(uploads)
      ensures forall g :: g != i.file ==> FileRows(Tables().library, g) == FileRows(old(Tables()).library, g)
    {
      hide Matches, PresentedAs, ReadRows, FileRetiring;
      ghost var was := Tables();
      var check := FinalizeCheck(Tables(), i);
      if check.Err? {
        return Err(check.error);
      }
      var presented := Present(i, m);
      SameTrigger(was, Tables(), i.file);
      if !presented {
        return Err(NoMatchingObject);
      }
      uploads := uploads[i.id := uploads[i.id].(state := Ready)];
      return Ok(());
    }

    /****** Receipts and references ******/

    /** The id checks of validatePipelineReceiptScope. */
    method CheckIds(ids: seq<IntentId>) returns (ok: bool)
      ensures ok <==> ValidIds(ids)
    {
      if |ids| > MaxReceiptIds {
        return false;
      }
      var seen: set<IntentId> := {};
      for n := 0 to |ids|
        invariant seen == Elements(ids[..n]) && Distinct(ids[..n])
      {
        if ids[n] in seen {
          return false;
        }
        assert ids[..n + 1] == ids[..n] + [ids[n]];
        seen := seen + {ids[n]};
      }
      assert ids[..|ids|] == ids;
      return true;
    }

    /** readPipelineReceipts */
    method ReadRunFileReceipts(scope: Scope, ids: seq<IntentId>) returns (r: Result<seq<Receipt>>)
      ensures r == ReadReceipts(Tables(), scope, ids)
    {
      var result: seq<Receipt> := [];
      for n := 0 to |ids|
        invariant CollectReceipts(Tables(), scope, ids[..n]) == Ok(result)
      {
        assert ids[..n + 1][..n] == ids[..n];
        if Selected(Tables(), scope, ids[n]) {
          if !Complete(ids[n], uploads[ids[n]]) {
            CollectStops(Tables(), scope, ids, n + 1);
            return Err(IncompleteReceipt);
          }
          result := result + [ReceiptOf(IntentOf(ids[n], uploads[ids[n]]))];
        }
      }
      assert ids[..|ids|] == ids;
      if |result| != |ids| {
        return Err(Unavailable);
      }
      return Ok(result);
    }

    /** The loop of changeRunFileReference that locks and checks every intent. */
    method CheckPinnable(scope: Scope, ids: seq<IntentId>) returns (refusal: Option<Error>)
      ensures refusal == PinRefusal(Tables(), scope, ids)
    {
      for n := 0 to |ids|
        invariant PinRefusal(Tables(), scope, ids[..n]) == None
      {
        assert ids[..n + 1][..n] == ids[..n];
        if ids[n] !in uploads {
          RefusalStays(Tables(), scope, ids, n + 1);
          return Some(NotFound);
        }
        if !InScope(ids[n], uploads[ids[n]].identity, scope) || uploads[ids[n]].state != Ready {
          RefusalStays(Tables(), scope, ids, n + 1);
          return Some(Unavailable);
        }
      }
      assert ids[..|ids|] == ids;
      return None;
    }

    /** changeRunFileReference */
    method ChangeRunFileReference(scope: Scope, reference: string, ids: seq<IntentId>, release: bool) returns (r: Result<seq<Receipt>>)
      modifies this`references
      ensures Outcome(ChangeReference(old(Tables()), less, scope, reference, ids, release), old(Tables()), Tables(), r)
      ensures r.Ok? ==> RefKey(scope, reference) in references && references[RefKey(scope, reference)].state == if release then Released else Active
      ensures forall key :: key in old(references) && key != RefKey(scope, reference) ==> key in references && references[key] == old(references)[key]
      ensures r.Err? ==> references == old(references)
    {
      var valid := CheckIds(ids);
      if !valid {
        return Err(InvalidIds);
      }
      if ids == [] || reference == "" || |reference| > 512 {
        return Err(InvalidReference);
      }
      var sorted := Sort(less, ids);
      var key := RefKey(scope, reference);
      if key in references && references[key].owner == scope.owner {
        if references[key].scope != scope || references[key].ids != sorted {
          return Err(DifferentReference);
        }
        if references[key].state == Released && !release {
          return Err(ReferenceReleased);
        }
      }
      var receipts: seq<Receipt> := [];
      if !release {
        var refusal := CheckPinnable(scope, sorted);
        if refusal.Some? {
          return Err(refusal.value);
        }
        var read := ReadRunFileReceipts(scope, ids);
        if read.Err? {
          return Err(read.error);
        }
        receipts := read.value;
      }
      var state := if release then Released else Active;
      if key in references {
        references := references[key := references[key].(state := state)];
      } else {
        references := references[key := Reference(scope.owner, reference, scope, sorted, state)];
      }
      return Ok(receipts);
    }

    /****** Retirement ******/

    /** beginPipelineRetirement */
    method BeginPipelineRetirement(scope: Scope, k: IntentId, token: string) returns (r: Result<Begun>)
      requires Valid()
      modifies this`uploads
      ensures Valid()
      ensures Outcome(BeginRetirement(old(Tables()), scope, k, token), old(Tables()), Tables(), r)
      ensures k in old(uploads) && InScope(k, old(uploads)[k].identity, scope) && !InRetirement(old(uploads)[k].state) ==>
        var row := old(uploads)[k];
        && (r.Ok? <==> !PinnedFor(old(Tables()), scope.owner, k) && Untouched(old(Tables()).library, row.file, row.identity, row.url))
        && (r.Ok? ==> uploads == old(uploads)[k := row.(state := Retiring, generation := row.generation + 1, lease := token)] && r.value.token == token)
    {
      if k in uploads {
        CheckedIffUntouched(Tables().library, uploads[k].file, uploads[k].identity, uploads[k].url);
      }
      hide CheckRetirement, Untouched, PinnedFor;
      if k !in uploads {
        return Err(NotFound);
      }
      var row := uploads[k];
      if !InScope(k, row.identity, scope) {
        return Err(Unavailable);
      }
      if PinnedFor(Tables(), scope.owner, k) {
        return Err(Retained(Pinned));
      }
      var lease := row.lease;
      if InRetirement(row.state) {
        if lease == "" || (row.state == Retired && row.retiredEtag == "") {
          return Err(IncompleteRetirement);
        }
      } else {
        var keep := CheckRetirement(Tables().library, row.file, row.identity, row.url);
        if keep.Some? {
          return Err(Retained(keep.value));
        }
        lease := token;
        row := row.(state := Retiring, generation := row.generation + 1, lease := token);
        uploads := uploads[k := row];
      }
      return Ok(Begun(IntentOf(k, row), lease, row.retiredEtag));
    }

    /** The confirming transaction of RetireRunFile. */
    method ConfirmPipelineRetirement(i: Intent, token: string, etag: string) returns (r: Result<()>)
      requires Valid()
      modifies this`uploads
      ensures Valid()
      ensures Outcome(ConfirmRetirement(old(Tables()), i, token, etag), old(Tables()), Tables(), r)
      ensures r.Ok? ==> i.id in uploads && uploads[i.id].state == Retired && uploads[i.id].retiredEtag == etag && uploads[i.id].lease == token
    {
      if i.id !in uploads {
        return Err(NotFound);
      }
      var current := uploads[i.id];
      if current.generation != i.generation || !InRetirement(current.state) {
        return Err(Stale);
      }
      if current.lease != token {
        return Err(LostFence);
      }
      uploads := uploads[i.id := current.(state := Retired, retiredEtag := etag)];
      return Ok(());
    }

    /** PurgeRetiredRunFile */
    method PurgeRetiredRunFile(scope: Scope, k: IntentId) returns (r: Result<()>)
      requires Valid()
      modifies this`uploads, this`files, this`entries
      ensures Valid()
      ensures Outcome(Purge(old(Tables()), scope, k), old(Tables()), Tables(), r)
      ensures r.Ok? ==> FileRows(Tables().library, uploads[k].file) == [] && EntryRows(Tables().library, uploads[k].file) == []
    {
      if k !in uploads {
        return Err(NotFound);
      }
      var row := uploads[k];
      if !InScope(k, row.identity, scope) || row.state != Retired {
        return Err(NotRetired);
      }
      if row.retiredEtag == "" || row.lease == "" {
        return Err(IncompleteRetirement);
      }
      var keep := CheckRetirement(Tables().library, row.file, row.identity, row.url);
      if keep.Some? {
        return Err(Retained(keep.value));
      }
      PurgeLeavesNoHead(Tables().library, row.file, row.identity, row.url);
      var shelf := Tables().library;
      files := files[row.file := Undeleted(FileRows(shelf, row.file), FileTag, scope.owner)];
      entries := entries[row.file := Undeleted(EntryRows(shelf, row.file), EntryTag, scope.owner)];
      uploads := uploads[k := row.(purged := true)];
      return Ok(());
    }

    /****** Producer scopes ******/

    /** FenceRunFileScope */
    method FenceRunFileScope(scope: Scope) returns (r: Result<()>)
      modifies this`fences
      ensures Outcome(Fence(old(Tables()), scope), old(Tables()), Tables(), r)
      ensures r.Ok? ==> scope in fences && fences[scope].scope == scope && fences[scope].owner == scope.owner
      ensures scope !in old(fences) ==> r.Ok? && fences.Keys == old(fences).Keys + {scope}
      ensures forall f :: f in old(fences) ==> f in fences && fences[f] == old(fences)[f]
    {
      var fenced := ReadFence(Tables(), scope);
      if fenced.Err? {
        return Err(fenced.error);
      }
      if !fenced.value {
        fences := fences[scope := FenceRow(scope.owner, scope)];
      }
      return Ok(());
    }

    /** ReadFencedRunFileIntents: one page of a fenced scope, the least ids after the cursor. */
    method ReadFencedRunFileIntents(scope: Scope, cursor: Option<IntentId>) returns (r: Result<seq<IntentId>>)
      requires StrictTotal(less)
      ensures r.Ok? ==> ReadFence(Tables(), scope) == Ok(true) && IsPage(less, ScopeRows(Tables(), scope), cursor, PageSize, r.value)
      ensures r.Ok? ==> |r.value| <= 128 && (|r.value| < 128 ==> forall k :: k in ScopeRows(Tables(), scope) && After(less, cursor, k) ==> k in r.value)
      ensures ReadFence(Tables(), scope) == Ok(true) && (forall k :: k in ScopeRows(Tables(), scope) ==> InScope(k, uploads[k].identity, scope)) ==> r.Ok?
    {
      var fenced := ReadFence(Tables(), scope);
      if fenced.Err? {
        return Err(fenced.error);
      }
      if !fenced.value {
        return Err(NotFenced);
      }
      ghost var rows := ScopeRows(Tables(), scope);
      var rest := set k | k in uploads && uploads[k].owner == scope.owner && uploads[k].identity.run == scope.run
        && uploads[k].identity.step == scope.step && uploads[k].identity.attempt == scope.attempt && After(less, cursor, k);
      var result: seq<IntentId> := [];
      PageStarts(less, rows, cursor, rest);
      while rest != {} && |result| < PageSize
        invariant |result| <= PageSize && PageSoFar(less, rows, cursor, result, rest)
        decreases rest
      {
        LeastExists(less, rest);
        var k :| k in rest && forall q :: q in rest ==> q == k || less(k, q);
        PageGrows(less, rows, cursor, result, rest, k);
        if !InScope(k, uploads[k].identity, scope) {
          return Err(InventoryInconsistent);
        }
        result := result + [k];
        rest := rest - {k};
      }
      return Ok(result);
    }

    /****** Adoption ******/

    /** The transaction of AdoptLegacyRunLog. */
    method AdoptLegacyRunLog(scope: Scope, i: Intent) returns (r: Result<Receipt>)
      requires Valid()
      modifies this`uploads
      ensures Valid()
      ensures Outcome(AdoptCommit(old(Tables()), scope, i), old(Tables()), Tables(), r)
    {
      var keep := CheckRetirement(Tables().library, i.file, i.identity, i.url);
      if keep.Some? {
        return Err(Retained(keep.value));
      }
      if FileTaken(Tables(), i.file) {
        var found :| found in uploads && uploads[found].file == i.file;
        assert found == HolderOf(Tables(), i.file);
        if !InScope(found, uploads[found].identity, scope) {
          return Err(OtherScope);
        }
        return Ok(ReceiptOf(IntentOf(found, uploads[found])));
      }
      var inserted := Insert(i.id, AdoptedUpload(i));
      if inserted.Err? {
        return Err(inserted.error);
      }
      return Ok(ReceiptOf(i));
    }
  }

  /****** Loops and their prefixes ******/

  lemma {:induction false} CollectStops(db: Db, scope: Scope, ids: seq<IntentId>, n: nat)
    requires n <= |ids| && CollectReceipts(db, scope, ids[..n]).Err?
    ensures CollectReceipts(db, scope, ids) == CollectReceipts(db, scope, ids[..n])
  {
    if n == |ids| {
      assert ids[..n] == ids;
    } else {
      var m := |ids| - 1;
      assert ids[..m][..n] == ids[..n];
      CollectStops(db, scope, ids[..m], n);
    }
  }

  lemma {:induction false} RefusalStays(db: Db, scope: Scope, ids: seq<IntentId>, n: nat)
    requires n <= |ids| && PinRefusal(db, scope, ids[..n]).Some?
    ensures PinRefusal(db, scope, ids) == PinRefusal(db, scope, ids[..n])
  {
    if n == |ids| {
      assert ids[..n] == ids;
    } else {
      var m := |ids| - 1;
      assert ids[..m][..n] == ids[..n];
      RefusalStays(db, scope, ids[..m], n);
    }
  }

  /****** A page, one id at a time ******/

  ghost predicate PageSoFar(less: (IntentId, IntentId) -> bool, rows: set<IntentId>, cursor: Option<IntentId>, page: seq<IntentId>, rest: set<IntentId>) {
    && Increasing(less, page)
    && (forall i :: 0 <= i < |page| ==> page[i] in rows && After(less, cursor, page[i]))
    && (forall k :: k in rest <==> k in rows && After(less, cursor, k) && k !in page)
    && (forall i, k :: 0 <= i < |page| && k in rest ==> less(page[i], k))
  }

  lemma PageStarts(less: (IntentId, IntentId) -> bool, rows: set<IntentId>, cursor: Option<IntentId>, rest: set<IntentId>)
    requires forall k :: k in rest <==> k in rows && After(less, cursor, k)
    ensures PageSoFar(less, rows, cursor, [], rest)
  {
  }

  lemma PageGrows(less: (IntentId, IntentId) -> bool, rows: set<IntentId>, cursor: Option<IntentId>, page: seq<IntentId>, rest: set<IntentId>, k: IntentId)
    requires PageSoFar(less, rows, cursor, page, rest) && k in rest && forall q :: q in rest ==> q == k || less(k, q)
    ensures PageSoFar(less, rows, cursor, page + [k], rest - {k}) && k in rows
  {
    var next := page + [k];
    forall q ensures q in rest - {k} <==> q in rows && After(less, cursor, q) && q !in next {
      assert q in next <==> q in page || q == k;
    }
  }

  lemma {:induction false} LeastExists(less: (IntentId, IntentId) -> bool, s: set<IntentId>)
    requires StrictTotal(less) && s != {}
    ensures exists k :: k in s && forall q :: q in s ==> q == k || less(k, q)
    decreases |s|
  {
    var x :| x in s;
    var others := s - {x};
    if others == {} {
      assert s == {x};
    } else {
      LeastExists(less, others);
      var m :| m in others && forall q :: q in others ==> q == m || less(m, q);
      var k := if less(x, m) then x else m;
      forall q | q in s ensures q == k || less(k, q) {
        if q != x {
          assert q in others;
        }
      }
    }
  }

  /****** The charging loop ******/
  lemma {:induction false} TotalGrows(sizes: seq<Number>, i: nat)
    requires Readable(sizes) && i <= |sizes|
    ensures Total(sizes[..i]) <= Total(sizes)
  {
    if i == |sizes| {
      assert sizes[..i] == sizes;
    } else {
      TotalGrows(sizes[..|sizes| - 1], i);
      assert sizes[..|sizes| - 1][..i] == sizes[..i];
    }
  }
}
