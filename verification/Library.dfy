/** The Library rows that present a stored file: append-only versions of the file, of its index
    entry, and the record of superseded version one. */
module Library {
  import opened Types
  import opened Sizes

  /** A JSON list member: null, a list, or some other value. */
  datatype ListValue = NullList | Items(count: nat) | NotAList

  predicate EmptyList(v: ListValue) {
    v == NullList || v == Items(0)
  }

  datatype FileRow = FileRow(
    owner: Option<string>, source: Option<string>, name: string, mime: string, sha: string,
    url: Url, run: string, step: string, size: Number, status: string,
    version: Option<Number>, domains: ListValue)

  datatype EntryRow = EntryRow(
    owner: Option<string>, source: Option<string>, target: FileId, title: string,
    folder: Option<string>, labels: ListValue, accounts: ListValue)

  datatype Shelf = Shelf(
    files: map<FileId, seq<FileRow>>,
    entries: map<FileId, seq<EntryRow>>,
    versioned: set<FileId>)

  function FileRows(lib: Shelf, f: FileId): seq<FileRow> {
    if f in lib.files then lib.files[f] else []
  }

  function EntryRows(lib: Shelf, f: FileId): seq<EntryRow> {
    if f in lib.entries then lib.entries[f] else []
  }

  function Last<T>(rows: seq<T>): Option<T> {
    if rows == [] then None else Some(rows[|rows| - 1])
  }

  function FileHead(lib: Shelf, f: FileId): Option<FileRow> {
    Last(FileRows(lib, f))
  }

  function EntryHead(lib: Shelf, f: FileId): Option<EntryRow> {
    Last(EntryRows(lib, f))
  }

  function AppendFile(lib: Shelf, f: FileId, row: FileRow): Shelf {
    lib.(files := lib.files[f := FileRows(lib, f) + [row]])
  }

  function AppendEntry(lib: Shelf, f: FileId, row: EntryRow): Shelf {
    lib.(entries := lib.entries[f := EntryRows(lib, f) + [row]])
  }

  lemma Appended(lib: Shelf, f: FileId, row: FileRow)
    ensures FileHead(AppendFile(lib, f, row), f) == Some(row)
    ensures forall g :: g != f ==> FileRows(AppendFile(lib, f, row), g) == FileRows(lib, g)
  {
  }

  /** matchingPipelineLibraryRow for a present row; rows are already keyed by their file id. */
  predicate Matches(row: FileRow, x: Identity, url: Url) {
    && row.name == x.name && row.mime == x.mime && row.sha == x.sha && row.url == url
    && row.source == Some(PipelineSource) && row.step == x.step
    && SizeMatches(row.size, x.size)
    && row.owner == Some(x.owner) && row.run == x.run
  }

  /** The row presents exactly this identity's bytes, as the identity's own pipeline recorded them. */
  ghost predicate Shows(row: FileRow, x: Identity, url: Url) {
    && row.owner == Some(x.owner)
    && row.source == Some("pipeline")
    && row.run == x.run
    && row.step == x.step
    && row.name == x.name
    && row.mime == x.mime
    && row.url == url
    && row.sha == x.sha
    && Denoted(row.size) == Some(x.size as real)
  }

  /** matchingPipelineLibraryRow accepts a row exactly when all nine fields agree. */
  lemma MatchesIffShows(row: FileRow, x: Identity, url: Url)
    ensures Matches(row, x, url) <==> Shows(row, x, url)
  {
    SizeMatchesDenoted(row.size, x.size);
  }

  lemma MatchesAreShown()
    ensures forall row, x, url :: Matches(row, x, url) <==> Shows(row, x, url)
  {
    forall row, x, url ensures Matches(row, x, url) <==> Shows(row, x, url) {
      MatchesIffShows(row, x, url);
    }
  }

  /** The owner and source that both queries over a history compare. */
  datatype Tag = Tag(owner: Option<string>, source: Option<string>)

  function FileTag(row: FileRow): Tag {
    Tag(row.owner, row.source)
  }

  function EntryTag(row: EntryRow): Tag {
    Tag(row.owner, row.source)
  }

  /** SQL's IS DISTINCT FROM on the owner or the source: NULL is distinct from every value. */
  predicate Foreign(tag: Tag, owner: string) {
    tag.owner != Some(owner) || tag.source != Some(PipelineSource)
  }

  predicate AnyForeign<R>(rows: seq<R>, tag: R -> Tag, owner: string) {
    exists i :: 0 <= i < |rows| && Foreign(tag(rows[i]), owner)
  }

  function CheckFileHead(head: Option<FileRow>, x: Identity, url: Url): Option<Keep> {
    if head.None? then None
    else if !Matches(head.value, x, url) then Some(DiffersFromReceipt)
    else if head.value.version.Some? && !SizeMatches(head.value.version.value, 1) then Some(RetainedVersions)
    else if !EmptyList(head.value.domains) then Some(Trained)
    else if head.value.status != "ready" then Some(NotReady)
    else None
  }

  function CheckEntryHead(head: Option<EntryRow>, x: Identity, f: FileId): Option<Keep> {
    if head.None? then None
    else
      var e := head.value;
      if e.owner != Some(x.owner) || e.source != Some(PipelineSource) || e.target != f || e.title != x.name
      then Some(EntryDiffers)
      else if e.folder.Some? && e.folder.value != "" then Some(Filed)
      else if !EmptyList(e.labels) || !EmptyList(e.accounts) then Some(Labelled)
      else None
  }

  /** checkPipelineLibraryRetirement: None when the presentation is exactly the generated one. */
  function CheckRetirement(lib: Shelf, f: FileId, x: Identity, url: Url): Option<Keep> {
    if AnyForeign(FileRows(lib, f), FileTag, x.owner) || AnyForeign(EntryRows(lib, f), EntryTag, x.owner)
    then Some(ForeignHistory)
    else if f in lib.versioned then Some(RetainedHistory)
    else
      var file := CheckFileHead(FileHead(lib, f), x, url);
      if file.Some? then file else CheckEntryHead(EntryHead(lib, f), x, f)
  }

  /** Nobody but the pipeline has touched the file: every version of it and of its entry is the
      owner's pipeline's, no version was superseded, the file still presents this object as its first
      ready version and trains nothing, and the entry is neither renamed, filed, labelled nor linked. */
  ghost predicate Untouched(lib: Shelf, f: FileId, x: Identity, url: Url) {
    var files, entries := FileRows(lib, f), EntryRows(lib, f);
    && f !in lib.versioned
    && (forall i :: 0 <= i < |files| ==> files[i].owner == Some(x.owner) && files[i].source == Some(PipelineSource))
    && (forall i :: 0 <= i < |entries| ==> entries[i].owner == Some(x.owner) && entries[i].source == Some(PipelineSource))
    && (files != [] ==>
          var head := files[|files| - 1];
          && Shows(head, x, url) && head.status == "ready" && (head.domains == NullList || head.domains == Items(0))
          && (head.version.None? || Denoted(head.version.value) == Some(1.0)))
    && (entries != [] ==>
          var entry := entries[|entries| - 1];
          && entry.target == f && entry.title == x.name && (entry.folder == None || entry.folder == Some(""))
          && (entry.labels == NullList || entry.labels == Items(0)) && (entry.accounts == NullList || entry.accounts == Items(0)))
  }

  /** The retirement check passes exactly for files nobody but the pipeline has touched. */
  lemma CheckedIffUntouched(lib: Shelf, f: FileId, x: Identity, url: Url)
    ensures CheckRetirement(lib, f, x, url) == None <==> Untouched(lib, f, x, url)
  {
    var files, entries := FileRows(lib, f), EntryRows(lib, f);
    if files != [] {
      var head := files[|files| - 1];
      MatchesIffShows(head, x, url);
      if head.version.Some? {
        SizeMatchesDenoted(head.version.value, 1);
      }
    }
    hide Matches, Shows, SizeMatches;
    assert !AnyForeign(files, FileTag, x.owner) <==>
      forall i :: 0 <= i < |files| ==> files[i].owner == Some(x.owner) && files[i].source == Some(PipelineSource);
    assert !AnyForeign(entries, EntryTag, x.owner) <==>
      forall i :: 0 <= i < |entries| ==> entries[i].owner == Some(x.owner) && entries[i].source == Some(PipelineSource);
  }

  /** The DELETE of PurgeRetiredRunFile removes rows for which both `=` comparisons are true;
      a NULL owner or source makes neither comparison true. */
  predicate DeletedBy(tag: Tag, owner: string) {
    tag.owner.Some? && tag.owner.value == owner && tag.source.Some? && tag.source.value == PipelineSource
  }

  function Undeleted<R>(rows: seq<R>, tag: R -> Tag, owner: string): seq<R> {
    if rows == [] then []
    else if DeletedBy(tag(rows[0]), owner) then Undeleted(rows[1..], tag, owner)
    else [rows[0]] + Undeleted(rows[1..], tag, owner)
  }

  function DeletePresentation(lib: Shelf, f: FileId, owner: string): Shelf {
    lib.(files := lib.files[f := Undeleted(FileRows(lib, f), FileTag, owner)],
         entries := lib.entries[f := Undeleted(EntryRows(lib, f), EntryTag, owner)])
  }

  /** Nothing of a history survives the delete exactly when the guard found nothing foreign in it. */
  lemma {:induction false} DeletedIffOwned<R>(rows: seq<R>, tag: R -> Tag, owner: string)
    ensures Undeleted(rows, tag, owner) == [] <==> !AnyForeign(rows, tag, owner)
  {
    if rows != [] {
      DeletedIffOwned(rows[1..], tag, owner);
      assert AnyForeign(rows, tag, owner) <==> Foreign(tag(rows[0]), owner) || AnyForeign(rows[1..], tag, owner) by {
        if AnyForeign(rows[1..], tag, owner) {
          var i :| 0 <= i < |rows[1..]| && Foreign(tag(rows[1..][i]), owner);
          assert rows[i + 1] == rows[1..][i];
        }
        assert forall i :: 1 <= i < |rows| ==> rows[i] == rows[1..][i - 1];
      }
    }
  }

  /** Whenever the guard lets a file through, the delete leaves no version of the file and no
      version of its entry that could become a head. */
  lemma PurgeLeavesNoHead(lib: Shelf, f: FileId, x: Identity, url: Url)
    requires CheckRetirement(lib, f, x, url) == None
    ensures FileRows(DeletePresentation(lib, f, x.owner), f) == []
    ensures EntryRows(DeletePresentation(lib, f, x.owner), f) == []
    ensures forall g :: g != f ==>
      FileRows(DeletePresentation(lib, f, x.owner), g) == FileRows(lib, g) &&
      EntryRows(DeletePresentation(lib, f, x.owner), g) == EntryRows(lib, g)
  {
    DeletedIffOwned(FileRows(lib, f), FileTag, x.owner);
    DeletedIffOwned(EntryRows(lib, f), EntryTag, x.owner);
  }
}
