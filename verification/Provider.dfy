/** The blob provider, one object at a time.
    A create never overwrites a committed object and fails on a tombstone; a tombstone is permanent.
    Every successful retirement may leave the tombstone with a new ETag. */
module Provider {
  import opened Types

  /** The retirement marker hashes the lease token and the expected receipt. */
  datatype Marker = Marker(token: string, size: int, sha: string, etag: string)

  datatype Stored =
    | Absent
    | Blob(size: int, sha: string, etag: string)
    | Tombstone(marker: Marker, etag: string)

  type Blobs = map<Place, Stored>

  function At(blobs: Blobs, p: Place): Stored {
    if p in blobs then blobs[p] else Absent
  }

  /** What a create-only commit of verified bytes leaves; `etag` is the provider's choice. */
  function Create(o: Stored, size: int, sha: string, etag: string): Stored {
    if o.Absent? then Blob(size, sha, etag) else o
  }

  /** verifyStream: the ETag of an object whose stored bytes have this size and digest. */
  function Verify(o: Stored, size: int, sha: string): Option<string> {
    if o.Blob? && o.size == size && o.sha == sha then Some(o.etag) else None
  }

  /** RetireVerifiedStream: the tombstone it leaves, or None when it refuses. */
  function Retire(o: Stored, m: Marker, etag: string): Option<Stored> {
    match o
    case Absent => Some(Tombstone(m, etag))
    case Blob(size, sha, stored) =>
      if size == m.size && sha == m.sha && (m.etag == "" || m.etag == stored) then Some(Tombstone(m, etag)) else None
    case Tombstone(marker, _) =>
      if marker == m then Some(Tombstone(m, etag)) else None
  }
}
