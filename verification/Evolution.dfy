/** How one step, and so every run, may change what is durable. */
module Evolution {
  import opened Types
  import opened Library
  import opened Provider
  import opened Journal

  /** Identity, file, object and size never change; the state never falls back; the generation never
      decreases and entering retirement raises it; a receipt, a lease and a purge are permanent. */
  ghost predicate Evolves(r: Upload, n: Upload) {
    && n.owner == r.owner && n.identity == r.identity && n.file == r.file && n.obj == r.obj && n.size == r.size
    && r.generation <= n.generation
    && Rank(r.state) <= Rank(n.state)
    && (r.etag != "" ==> n.etag == r.etag && n.url == r.url)
    && (InRetirement(n.state) && !InRetirement(r.state) ==> r.generation < n.generation)
    && (InRetirement(r.state) ==> n.generation == r.generation && n.lease == r.lease && n.etag == r.etag && n.url == r.url)
    && (r.purged ==> n.purged)
  }

  ghost predicate ReferenceEvolves(r: Reference, n: Reference) {
    && n.owner == r.owner && n.reference == r.reference && n.scope == r.scope && n.ids == r.ids
    && (r.state == Released ==> n.state == Released)
  }

  ghost predicate StoredEvolves(o: Stored, n: Stored) {
    match o
    case Absent => true
    case Blob(_, _, _) => n == o || n.Tombstone?
    case Tombstone(m, _) => n.Tombstone? && n.marker == m
  }

  ghost predicate DbGrows(db: Db, next: Db) {
    && (forall k :: k in db.uploads ==> k in next.uploads && Evolves(db.uploads[k], next.uploads[k]))
    && (forall key :: key in db.references ==>
          key in next.references && ReferenceEvolves(db.references[key], next.references[key]))
    && (forall f :: f in db.fences ==> f in next.fences && next.fences[f] == db.fences[f])
    && (forall f :: FileRows(db.library, f) != [] ==> FileRows(next.library, f) != [] || FileTaken(next, f))
  }

  /** Bytes of an object are only ever replaced by a tombstone, and only of a file with a journal row. */
  ghost predicate BlobsGrow(next: Db, blobs: Blobs, after: Blobs) {
    forall p :: p in blobs ==>
      StoredEvolves(At(blobs, p), At(after, p)) &&
      (At(blobs, p).Blob? && At(after, p).Tombstone? ==> FileTaken(next, p.obj.file))
  }

  lemma EvolvesTransitive(a: Upload, b: Upload, c: Upload)
    requires Evolves(a, b) && Evolves(b, c)
    ensures Evolves(a, c)
  {
  }

  lemma FileStaysTaken(db: Db, next: Db, f: FileId)
    requires DbGrows(db, next) && FileTaken(db, f)
    ensures FileTaken(next, f)
  {
    var k :| k in db.uploads && db.uploads[k].file == f;
    assert Evolves(db.uploads[k], next.uploads[k]);
    assert next.uploads[k].file == f;
  }

  lemma DbGrowsTransitive(a: Db, b: Db, c: Db)
    requires DbGrows(a, b) && DbGrows(b, c)
    ensures DbGrows(a, c)
  {
    forall k | k in a.uploads ensures k in c.uploads && Evolves(a.uploads[k], c.uploads[k]) {
      EvolvesTransitive(a.uploads[k], b.uploads[k], c.uploads[k]);
    }
    forall f | FileRows(a.library, f) != [] ensures FileRows(c.library, f) != [] || FileTaken(c, f) {
      if FileRows(b.library, f) == [] {
        FileStaysTaken(b, c, f);
      }
    }
    forall key | key in a.references
      ensures key in c.references && ReferenceEvolves(a.references[key], c.references[key])
    {
      assert ReferenceEvolves(a.references[key], b.references[key]);
    }
  }

  lemma BlobsGrowTransitive(b: Db, c: Db, x: Blobs, y: Blobs, z: Blobs)
    requires BlobsGrow(b, x, y) && BlobsGrow(c, y, z) && DbGrows(b, c)
    ensures BlobsGrow(c, x, z)
  {
    forall p | p in x
      ensures StoredEvolves(At(x, p), At(z, p))
      ensures At(x, p).Blob? && At(z, p).Tombstone? ==> FileTaken(c, p.obj.file)
    {
      assert StoredEvolves(At(x, p), At(y, p));
      if !At(y, p).Absent? {
        assert p in y;
      }
      if At(x, p).Blob? && At(y, p).Tombstone? {
        FileStaysTaken(b, c, p.obj.file);
      }
    }
  }
}
