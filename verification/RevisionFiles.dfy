/** SaveRevision as the code runs it, with nobody else writing the document meanwhile. */
module RevisionFiles {
  import opened Types
  import opened Revision

  /** What the `reconciled` closure decides. */
  predicate Reconciles(head: Option<Head>, rows: map<int, Version>, w: Write) {
    head.Some? &&
    if head.value.version == w.base + 1 && Carries(w, head.value.url, head.value.sha) then true
    else
      head.value.version > w.base + 1 && 1 <= w.base + 1 && w.base + 1 in rows && Carries(w, rows[w.base + 1].url, rows[w.base + 1].sha)
  }

  /** The compare of the compare-and-swap. */
  predicate Unchanged(head: Option<Head>, w: Write) {
    head.Some? && head.value.version == w.base && head.value.url == w.baseUrl
  }

  class RevisionStore {
    var head: Option<Head>
    var rows: map<int, Version>

    constructor (owner: string, url: string, sha: string)
      ensures head == Some(Head(owner, false, 1, url, sha)) && rows == map[]
    {
      head, rows := Some(Head(owner, false, 1, url, sha)), map[];
    }

    /** The closure that looks for the write's own version in the head or in history. */
    method Reconciled(w: Write) returns (done: bool)
      ensures done <==> Reconciles(head, rows, w)
    {
      if head.None? {
        return false;
      }
      if head.value.version == w.base + 1 && Carries(w, head.value.url, head.value.sha) {
        return true;
      }
      if head.value.version > w.base + 1 {
        if w.base + 1 < 1 || w.base + 1 !in rows {
          return false;
        }
        return Carries(w, rows[w.base + 1].url, rows[w.base + 1].sha);
      }
      return false;
    }

    /** SupersedeFile: freeze the outgoing head, then move it to a greater version. `lost` says that the reply of a
        committed supersession is lost. */
    method SupersedeFile(snapshot: Head, w: Write, url: string, lost: bool) returns (ok: bool)
      modifies this
      ensures
        var current := old(head).Some? && old(head).value.version == snapshot.version <= w.base && old(head).value.url == snapshot.url;
        && ok == (current && !lost)
        && head == (if current then Some(Head(old(head).value.owner, old(head).value.archived, w.base + 1, url, w.digest)) else old(head))
        && rows == (if current then old(rows)[snapshot.version := Version(snapshot.url, snapshot.sha)] else old(rows))
    {
      if head.None? || head.value.version != snapshot.version || head.value.url != snapshot.url {
        return false;
      }
      if w.base + 1 <= snapshot.version {
        return false;
      }
      rows := rows[snapshot.version := Version(snapshot.url, snapshot.sha)];
      head := Some(head.value.(version := w.base + 1, url := url, sha := w.digest));
      return !lost;
    }

    /** SaveRevision; `admitted` stands for the size and quota checks, `url` for the provider's answer and
        `restamped` for the index entry's. It changes the document at most once: a write that already
        landed is only acknowledged, and one that lands now is found by every later look. */
    method SaveRevision(w: Write, admitted: bool, url: string, lost: bool, restamped: bool) returns (saved: bool)
      modifies this
      ensures saved <==>
        Usable(old(head), w) && restamped &&
        (Reconciles(old(head), old(rows), w) ||
         (Unchanged(old(head), w) && admitted && url != "" && (!lost || HasSuffix(url, Suffix(w.op, w.digest)))))
      ensures Usable(old(head), w) && !Reconciles(old(head), old(rows), w) && Unchanged(old(head), w) && admitted && url != "" ==>
        head == Some(Head(old(head).value.owner, old(head).value.archived, w.base + 1, url, w.digest)) && rows == old(rows)[w.base := Version(old(head).value.url, old(head).value.sha)]
      ensures !(Usable(old(head), w) && !Reconciles(old(head), old(rows), w) && Unchanged(old(head), w) && admitted && url != "") ==>
        head == old(head) && rows == old(rows)
      ensures saved && HasSuffix(url, Suffix(w.op, w.digest)) ==> Reconciles(head, rows, w)
    {
      var current := head;
      if current.None? || current.value.archived {
        return false;
      }
      if current.value.owner != w.caller {
        return false;
      }
      var done := Reconciled(w);
      if done {
        return restamped;
      }
      if current.value.version != w.base || current.value.url != w.baseUrl {
        return false;
      }
      if !admitted || url == "" {
        return false;
      }
      var committed := SupersedeFile(current.value, w, url, lost);
      if !committed {
        done := Reconciled(w);
        if !done {
          return false;
        }
      }
      return restamped;
    }
  }

  /** From one state at most one operation reconciles for a base version. */
  lemma OneReceipt(head: Option<Head>, rows: map<int, Version>, a: Write, b: Write)
    requires Reconciles(head, rows, a) && Reconciles(head, rows, b) && a.base == b.base
    ensures a.op == b.op && a.digest == b.digest
  {
    hide HasSuffix, Suffix;
    var url := if head.value.version == a.base + 1 then head.value.url else rows[a.base + 1].url;
    SuffixDetermines(url, a.op, a.digest, b.op, b.digest);
  }
}
