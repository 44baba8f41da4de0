/**
 * The durable record of the node's own prepare and commit votes: two maps from height to hash,
 * written to one file as a whole. Failed writes leave the file as it was.
 */
module VoteLedger {
  import opened BftTypes

  datatype Snapshot = Snapshot(prepared: map<int, Hash>, committed: map<int, Hash>)

  const EMPTY := Snapshot(map[], map[])

  datatype FileContent = Missing | Unreadable | Saved(snap: Snapshot)

  /** What a starting process reads back; a missing or corrupt file reads as nothing. */
  function Loaded(content: FileContent): Snapshot {
    if content.Saved? then content.snap else EMPTY
  }

  function WithPrepared(s: Snapshot, height: int, hash: Hash): Snapshot {
    s.(prepared := s.prepared[height := hash])
  }

  function WithCommitted(s: Snapshot, height: int, hash: Hash): Snapshot {
    s.(committed := s.committed[height := hash])
  }

  function Later<T>(m: map<int, T>, height: int): map<int, T> {
    map h | h in m && h > height :: m[h]
  }

  function Pruned(s: Snapshot, height: int): Snapshot {
    Snapshot(Later(s.prepared, height), Later(s.committed, height))
  }

  /** The file on disk; whether the next write succeeds is up to the environment. */
  class LedgerFile {
    var content: FileContent
    var writable: bool

    constructor ()
      ensures content == Missing && writable
    {
      content := Missing;
      writable := true;
    }
  }

  class BftVoteLedger {
    var prepared: map<int, Hash>
    var committed: map<int, Hash>
    /** Null when the ledger runs in memory only. */
    const file: LedgerFile?

    ghost function Contents(): Snapshot
      reads this
    {
      Snapshot(prepared, committed)
    }

    ghost function Files(): set<LedgerFile> {
      if file == null then {} else {file}
    }

    /** A restart now would read back exactly what is in memory. */
    ghost predicate Durable()
      reads this, file
    {
      file != null && Loaded(file.content) == Contents()
    }

    /** A restarted ledger holds exactly the last snapshot that reached the file. */
    constructor (file: LedgerFile?)
      ensures this.file == file
      ensures Contents() == if file == null then EMPTY else Loaded(file.content)
      ensures file != null ==> Durable()
    {
      this.file := file;
      prepared, committed := map[], map[];
      if file != null && file.content.Saved? {
        prepared, committed := file.content.snap.prepared, file.content.snap.committed;
      }
    }

    method Flush()
      modifies Files()`content
      ensures file != null && file.writable ==> file.content == Saved(Contents()) && Durable()
      ensures file != null && !file.writable ==> file.content == old(file.content)
    {
      if file == null { return; }
      if file.writable {
        file.content := Saved(Snapshot(prepared, committed));
      }
    }

    /** Recording the hash already on record writes nothing, even if the last write failed. */
    method RecordPrepared(height: int, hash: Hash) returns (changed: bool)
      modifies this, Files()`content
      ensures Contents() == WithPrepared(old(Contents()), height, hash)
      ensures changed <==> Contents() != old(Contents())
      ensures file != null && (!changed || !file.writable) ==> file.content == old(file.content)
      ensures file != null && file.writable && (changed || old(Durable())) ==> Durable()
    {
      changed := height !in prepared || prepared[height] != hash;
      if !changed {
        assert prepared == prepared[height := hash];
        return;
      }
      prepared := prepared[height := hash];
      assert height in prepared && prepared[height] == hash;
      Flush();
    }

    method RecordCommitted(height: int, hash: Hash) returns (changed: bool)
      modifies this, Files()`content
      ensures Contents() == WithCommitted(old(Contents()), height, hash)
      ensures changed <==> Contents() != old(Contents())
      ensures file != null && (!changed || !file.writable) ==> file.content == old(file.content)
      ensures file != null && file.writable && (changed || old(Durable())) ==> Durable()
    {
      changed := height !in committed || committed[height] != hash;
      if !changed {
        assert committed == committed[height := hash];
        return;
      }
      committed := committed[height := hash];
      assert height in committed && committed[height] == hash;
      Flush();
    }

    /** Drops every entry at or below the finalized height. */
    method Prune(finalizedHeight: int)
      modifies this, Files()`content
      ensures Contents() == Pruned(old(Contents()), finalizedHeight)
      ensures file != null && file.writable && (old(Durable()) || Contents() != old(Contents())) ==> Durable()
      ensures file != null && (!file.writable || Contents() == old(Contents())) ==> file.content == old(file.content)
    {
      var p := DropUpTo(prepared, finalizedHeight);
      var c := DropUpTo(committed, finalizedHeight);
      var changed := p != prepared || c != committed;
      prepared, committed := p, c;
      if changed { Flush(); }
    }

    /** Wipes both maps, after a change of membership. */
    method ClearAll() returns (changed: bool)
      modifies this, Files()`content
      ensures Contents() == EMPTY && (changed <==> old(Contents()) != EMPTY)
      ensures file != null && file.writable && (changed || old(Durable())) ==> Durable()
      ensures file != null && (!changed || !file.writable) ==> file.content == old(file.content)
    {
      changed := prepared != map[] || committed != map[];
      if !changed { return; }
      prepared, committed := map[], map[];
      Flush();
    }
  }

  /** Deletes the keys at or below a height one by one. */
  method DropUpTo<T>(m: map<int, T>, height: int) returns (r: map<int, T>)
    ensures r == Later(m, height)
  {
    r := m;
    var todo := m.Keys;
    while todo != {}
      invariant todo <= m.Keys
      invariant r.Keys <= m.Keys && (forall h :: h in r ==> r[h] == m[h])
      invariant forall h :: h in m ==> (h in r <==> h in todo || h > height)
      decreases todo
    {
      assert exists h :: h in todo by {
        assert (forall h :: h !in todo) ==> todo == {};
      }
      var h :| h in todo;
      if h <= height {
        r := r - {h};
      }
      todo := todo - {h};
    }
    assert forall h :: h in r <==> h in Later(m, height);
    assert r.Keys == Later(m, height).Keys;
  }
}
