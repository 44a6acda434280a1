/** runRecoveryKeyClaim as one call runs it: ordered effects on the key store and on stdout, any of
    which may fail. */
module RecoveryClaim {
  import opened Types
  import opened RecoveryKey

  /** Which effect fails, if any. */
  datatype Fault = NoFault | CreateFails | DeactivateFails | WriteFails | StampFails

  datatype Exit = Success | NoLiveKey | AlreadyClaimed | Interrupted

  /** The query's page. */
  const PageSize: nat := 50

  /** What a claim that read `row` leaves of the keys: it adds its own, retires the one it replaces after
      that, stamps its own last, and touches no other key; a fault stops it in between. */
  ghost predicate Leaves(keys: seq<Key>, after: seq<Key>, owner: string, row: nat, fault: Fault) {
    && |keys| <= |after| && row < |keys|
    && (forall k :: 0 <= k < |keys| && k != row ==> after[k] == keys[k])
    && after[row].owner == keys[row].owner && after[row].claimed == keys[row].claimed && after[row].from == keys[row].from
    && (after[row].active <==> keys[row].active && (fault == CreateFails || fault == DeactivateFails))
    && |after| == |keys| + (if fault == CreateFails then 0 else 1)
    && (fault != CreateFails ==>
          && after[|keys|].owner == owner && after[|keys|].active && after[|keys|].from == Some(row)
          && (after[|keys|].claimed <==> fault == NoFault))
  }

  /** When a row was last written: rows are append-only, so each write is a new version of its row. */
  function LastWrite(log: seq<nat>, k: nat): int {
    if log == [] then -1
    else if log[|log| - 1] == k then |log| - 1
    else LastWrite(log[..|log| - 1], k)
  }

  lemma {:induction false} LastWriteIs(log: seq<nat>, k: nat, n: nat)
    requires n < |log| && log[n] == k && k !in log[n + 1..]
    ensures LastWrite(log, k) == n
  {
    if n < |log| - 1 {
      var rest := log[..|log| - 1];
      assert log[|log| - 1] in log[n + 1..];
      assert forall m :: n < m < |rest| ==> rest[m] in log[n + 1..];
      LastWriteIs(rest, k, n);
    }
  }

  lemma {:induction false} LastWriteBefore(log: seq<nat>, k: nat, n: nat)
    requires n <= |log| && k !in log[n..]
    ensures LastWrite(log, k) < n
  {
    if n < |log| {
      var rest := log[..|log| - 1];
      assert log[|log| - 1] in log[n..];
      assert forall m :: n <= m < |rest| ==> rest[m] in log[n..];
      LastWriteBefore(rest, k, n);
    } else {
      LastWriteWithin(log, k);
    }
  }

  lemma {:induction false} LastWriteWithin(log: seq<nat>, k: nat)
    ensures LastWrite(log, k) < |log|
  {
    if log != [] && log[|log| - 1] != k {
      LastWriteWithin(log[..|log| - 1], k);
    }
  }

  /** The live key a claim reads: the one written last. */
  ghost predicate NewestLive(keys: seq<Key>, log: seq<nat>, owner: string, row: nat) {
    LiveFor(keys, owner, row) && forall k: nat :: LiveFor(keys, owner, k) && k != row ==> LastWrite(log, k) < LastWrite(log, row)
  }

  lemma NewestIsLive(keys: seq<Key>, log: seq<nat>, owner: string)
    ensures forall k: nat :: NewestLive(keys, log, owner, k) ==> LiveFor(keys, owner, k)
  {
  }

  lemma NewestUnique(keys: seq<Key>, log: seq<nat>, owner: string, row: nat)
    requires NewestLive(keys, log, owner, row)
    ensures forall k: nat :: NewestLive(keys, log, owner, k) ==> k == row
  {
  }

  lemma LastWriteAppend(log: seq<nat>, w: nat, k: nat)
    ensures LastWrite(log + [w], k) == if k == w then |log| else LastWrite(log, k)
  {
    assert (log + [w])[..|log|] == log;
  }

  /** Right after its creation, and after a write that leaves its row dead, a key is the newest. */
  lemma CreatedIsNewest(keys: seq<Key>, log: seq<nat>, owner: string, own: nat)
    requires LiveFor(keys, owner, own)
    ensures NewestLive(keys, log + [own], owner, own)
    ensures forall row: nat :: row != own && !LiveFor(keys, owner, row) ==> NewestLive(keys, log + [own, row], owner, own)
  {
    forall k: nat ensures LastWrite(log + [own], k) <= |log| && (LastWrite(log + [own], k) == |log| <==> k == own) {
      LastWriteAppend(log, own, k);
      LastWriteWithin(log, k);
    }
    forall row: nat, k: nat ensures LastWrite(log + [own, row], k) == if k == row then |log| + 1 else LastWrite(log + [own], k) {
      assert log + [own, row] == (log + [own]) + [row];
      LastWriteAppend(log + [own], row, k);
    }
    hide LastWrite;
  }

  class KeyStore {
    var keys: seq<Key>
    /** The rows written so far, the latest write last. */
    var log: seq<nat>
    var output: seq<nat>

    /** Every key was written. */
    ghost predicate Valid()
      reads this
    {
      forall k :: 0 <= k < |keys| ==> k in log
    }

    /** Any store, and nothing written out yet. */
    constructor (keys: seq<Key>, log: seq<nat>)
      requires forall k :: 0 <= k < |keys| ==> k in log
      ensures Valid() && this.keys == keys && this.log == log && output == []
    {
      this.keys, this.log, output := keys, log, [];
    }

    /** ActiveForUser: the owner's live rows, most recently written first, at most a page of them. */
    method ActiveForUser(owner: string) returns (live: seq<nat>)
      requires Valid()
      ensures |live| <= 50 && forall k :: k in live ==> LiveFor(keys, owner, k)
      ensures forall i, j :: 0 <= i < j < |live| ==> LastWrite(log, live[j]) < LastWrite(log, live[i])
      ensures forall k: nat :: LiveFor(keys, owner, k) && k !in live ==>
        |live| == 50 && forall i :: 0 <= i < |live| ==> LastWrite(log, k) < LastWrite(log, live[i])
    {
      live := [];
      var n := |log|;
      while n > 0 && |live| < PageSize
        invariant 0 <= n <= |log| && |live| <= PageSize
        invariant forall k :: k in live ==> LiveFor(keys, owner, k) && n <= LastWrite(log, k)
        invariant forall k :: k in log[n..] && LiveFor(keys, owner, k) ==> k in live
        invariant forall i, j :: 0 <= i < j < |live| ==> LastWrite(log, live[j]) < LastWrite(log, live[i])
      {
        n := n - 1;
        var k := log[n];
        assert log[n..] == [k] + log[n + 1..];
        assert forall i :: 0 <= i < |live| ==> live[i] in live;
        if k < |keys| && keys[k].owner == owner && keys[k].active && k !in live {
          LastWriteIs(log, k, n);
          live := live + [k];
        }
      }
      assert n == 0 ==> log[n..] == log;
      forall k: nat | LiveFor(keys, owner, k) && k !in live
        ensures |live| == PageSize && forall i :: 0 <= i < |live| ==> LastWrite(log, k) < LastWrite(log, live[i])
      {
        LastWriteBefore(log, k, n);
        assert forall i :: 0 <= i < |live| ==> live[i] in live;
      }
    }

    /** The first of the live rows. */
    method ReadKey(owner: string) returns (row: Option<nat>)
      requires Valid()
      ensures row.None? <==> !HasLive(keys, owner)
      ensures row.Some? ==> LiveFor(keys, owner, row.value) && NewestLive(keys, log, owner, row.value)
    {
      hide LastWrite;
      var live := ActiveForUser(owner);
      if |live| == 0 {
        return None;
      }
      assert live[0] in live;
      assert LiveFor(keys, owner, live[0]);
      forall k: nat | LiveFor(keys, owner, k) && k != live[0] ensures LastWrite(log, k) < LastWrite(log, live[0]) {
        if k in live {
          var j :| 0 <= j < |live| && live[j] == k;
        }
      }
      return Some(live[0]);
    }

    /** revealThenClaim: the stamp follows a successful write and nothing else. */
    method RevealThenClaim(own: nat, fault: Fault) returns (ok: bool)
      requires Valid() && own < |keys|
      modifies this
      ensures Valid()
      ensures ok <==> fault != WriteFails && fault != StampFails
      ensures output == if fault == WriteFails then old(output) else old(output) + [own]
      ensures keys == if ok then SetClaimed(old(keys), own) else old(keys)
      ensures log == if ok then old(log) + [own] else old(log)
    {
      if fault == WriteFails {
        return false;
      }
      output := output + [own];
      if fault == StampFails {
        return false;
      }
      keys, log := keys[own := keys[own].(claimed := true)], log + [own];
      return true;
    }

    /** Create the replacement, then deactivate the key it replaces; it may stop in between. */
    method Replace(owner: string, row: nat, fault: Fault) returns (ok: bool)
      requires Valid() && LiveFor(keys, owner, row)
      modifies this
      ensures Valid() && output == old(output)
      ensures ok <==> fault != CreateFails && fault != DeactivateFails
      ensures keys ==
        if fault == CreateFails then old(keys)
        else if fault == DeactivateFails then old(keys) + [Key(owner, true, false, Some(row))]
        else SetActive(old(keys), row, false) + [Key(owner, true, false, Some(row))]
      ensures log ==
        if fault == CreateFails then old(log)
        else if fault == DeactivateFails then old(log) + [|old(keys)|]
        else old(log) + [|old(keys)|, row]
    {
      if fault == CreateFails {
        return false;
      }
      var own := |keys|;
      var key := Key(owner, true, false, Some(row));
      keys, log := keys + [key], log + [own];
      if fault == DeactivateFails {
        return false;
      }
      keys, log := keys[row := keys[row].(active := false)], log + [row];
      return true;
    }

    /** runRecoveryKeyClaim for a resolved owner. However it ends, an owner with a live key keeps one;
        only a complete claim is stamped, and exactly its own key is written out. A claim that was
        interrupted after creating its key leaves that key the next one to be read, unclaimed, so
        that a plain re-run is not refused. */
    method Claim(owner: string, reclaim: bool, fault: Fault) returns (exit: Exit)
      requires Valid()
      modifies this
      ensures Valid()
      ensures HasLive(old(keys), owner) ==> HasLive(keys, owner)
      ensures exit == NoLiveKey <==> !HasLive(old(keys), owner)
      ensures exit == NoLiveKey || exit == AlreadyClaimed ==> keys == old(keys) && log == old(log) && output == old(output)
      ensures exit == AlreadyClaimed <==> !reclaim && exists row: nat :: NewestLive(old(keys), old(log), owner, row) && old(keys)[row].claimed
      ensures exit == Success || exit == Interrupted ==> (exit == Success <==> fault == NoFault)
      ensures exit == Success || exit == Interrupted ==>
        exists row: nat :: NewestLive(old(keys), old(log), owner, row) && Leaves(old(keys), keys, owner, row, fault)
      ensures exit == Success ==> exists row: nat ::
        && NewestLive(old(keys), old(log), owner, row) && |keys| == |old(keys)| + 1 && keys[|old(keys)|] == Key(owner, true, true, Some(row))
        && !keys[row].active && forall k :: 0 <= k < |old(keys)| && k != row ==> keys[k] == old(keys)[k]
      ensures exit == Success || exit == Interrupted ==>
        output == if fault == NoFault || fault == StampFails then old(output) + [|old(keys)|] else old(output)
      ensures exit == Interrupted && fault != CreateFails ==>
        |keys| == |old(keys)| + 1 && NewestLive(keys, log, owner, |old(keys)|) && !keys[|old(keys)|].claimed
    {
      hide NewestLive;
      var row := ReadKey(owner);
      NewestIsLive(keys, log, owner);
      if row.None? {
        return NoLiveKey;
      }
      NewestUnique(keys, log, owner, row.value);
      if keys[row.value].claimed && !reclaim {
        return AlreadyClaimed;
      }
      var own := |keys|;
      var replaced := Replace(owner, row.value, fault);
      if !replaced {
        assert LiveFor(keys, owner, row.value);
        assert Leaves(old(keys), keys, owner, row.value, fault);
        if fault == DeactivateFails {
          CreatedIsNewest(keys, old(log), owner, own);
        }
        return Interrupted;
      }
      CreatedIsNewest(keys, old(log), owner, own);
      var stamped := RevealThenClaim(own, fault);
      assert LiveFor(keys, owner, own);
      assert Leaves(old(keys), keys, owner, row.value, fault);
      if !stamped {
        return Interrupted;
      }
      return Success;
    }
  }
}
