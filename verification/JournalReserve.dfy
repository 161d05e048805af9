/**
 The space reserved at the end of the journal.

 `len` is where the next record goes, `size` the bytes allocated on disk, and `limit` the point at
 which the file is extended by another block. The block behind the limit is for the records that
 still have to be written once the disk is full and the daemon has gone read-only.
 */
module JournalReserve {

  function Sum(xs: seq<nat>): nat {
    if xs == [] then 0 else xs[0] + Sum(xs[1..])
  }

  lemma {:induction false} SumAppend(xs: seq<nat>, x: nat)
    ensures Sum(xs + [x]) == Sum(xs) + x
  {
    if xs == [] {
      assert xs + [x] == [x];
    } else {
      assert (xs + [x])[1..] == xs[1..] + [x];
      SumAppend(xs[1..], x);
    }
  }

  // Why the daemon takes no updates, if it does not.
  datatype Mode = Writable | NoSpace | SaveFailed

  class Journal {
    var len: int
    var limit: int
    var size: int
    var mode: Mode
    const block: int

    constructor (block: int)
      requires block > 0
      ensures this.block == block && len == size == limit == 0 && mode == Writable
    {
      this.block := block;
      len, limit, size, mode := 0, 0, 0, Writable;
    }

    // More than one whole block is allocated behind the last record.
    predicate Reserved()
      reads this
    {
      0 <= len < limit && limit == size - block
    }

    // Want of space and the end of it are noted only where a failed save is not the reason already.
    method Extend(space: bool) returns (failed: bool)
      requires block > 0
      modifies this
      ensures failed == !space && len == old(len)
      ensures space ==> size == old(size) + (if old(limit) == 0 then 2 * block else block) && limit == size - block
      ensures !space ==> size == old(size) && limit == old(limit)
      ensures mode == if old(mode) == SaveFailed then SaveFailed else if space then Writable else NoSpace
    {
      var newSize := size + block;
      if limit == 0 {
        newSize := newSize + block;
      }
      if !space {
        if mode == Writable {
          mode := NoSpace;
        }
        return true;
      }
      if mode == NoSpace {
        mode := Writable;
      }
      size := newSize;
      limit := size - block;
      return false;
    }

    // A journal file of the day that did not exist yet.
    method OpenNew()
      modifies this
      ensures len == size == limit == 0 && mode == old(mode)
    {
      len, size, limit := 0, 0, 0;
    }

    // One that did: its records end at `end`, the file has `fileSize` bytes.
    method OpenExisting(end: int, fileSize: int)
      requires 0 <= end <= fileSize
      modifies this
      ensures len == end && size == fileSize && mode == old(mode)
      ensures limit == (if fileSize - block <= 0 then end else fileSize - block)
    {
      len := end;
      size := fileSize;
      limit := size - block;
      if limit <= 0 {
        limit := len;
      }
    }

    // The part of stateSaveCmd that follows the opening of a journal.
    method AfterOpen(space: bool) returns (failed: bool)
      requires block > 0
      modifies this
      ensures len == old(len)
      ensures failed <==> (old(size) == 0 || old(len) >= old(limit)) && !space
      ensures !failed && (old(size) == 0 || old(len) >= old(limit)) ==>
                size == old(size) + (if old(limit) == 0 then 2 * block else block) && limit == size - block
      ensures failed || !(old(size) == 0 || old(len) >= old(limit)) ==> size == old(size) && limit == old(limit)
    {
      failed := false;
      if size == 0 || len >= limit {
        failed := Extend(space);
      }
    }

    // Append one record; it is written even when the file could not be extended.
    method Append(record: nat, space: bool)
      requires block > 0
      modifies this
      ensures len == old(len) + record
      ensures old(len) + record < old(limit) || !space ==> size == old(size) && limit == old(limit)
      ensures old(len) + record >= old(limit) && space ==>
                size == old(size) + (if old(limit) == 0 then 2 * block else block) && limit == size - block
    {
      if len + record >= limit {
        var failed := Extend(space);
      }
      len := len + record;
    }

    // A background save has ended.
    method SaveEnded(ok: bool)
      modifies this`mode
      ensures mode == if old(mode) == NoSpace then NoSpace else if ok then Writable else SaveFailed
    {
      if !ok {
        if mode == Writable {
          mode := SaveFailed;
        }
      } else if mode == SaveFailed {
        mode := Writable;
      }
    }

    // The first record of a new journal, and of a reopened one, leaves the reserve in place.
    method FirstRecord(existing: bool, end: int, fileSize: int, record: nat)
      requires 0 < record < block && 0 <= end <= fileSize
      modifies this
      ensures Reserved() && len == (if existing then end else 0) + record
    {
      if existing {
        OpenExisting(end, fileSize);
      } else {
        OpenNew();
      }
      var failed := AfterOpen(true);
      Append(record, true);
    }

    // So does every later one.
    method AppendAll(records: seq<nat>)
      requires block > 0 && Reserved()
      requires forall i :: 0 <= i < |records| ==> records[i] < block
      modifies this
      ensures Reserved() && len == old(len) + Sum(records)
    {
      var i := 0;
      while i < |records|
        invariant 0 <= i <= |records|
        invariant Reserved() && len == old(len) + Sum(records[..i])
      {
        assert records[..i + 1] == records[..i] + [records[i]];
        SumAppend(records[..i], records[i]);
        Append(records[i], true);
        i := i + 1;
      }
      assert records[..i] == records;
    }

    // With the disk full from here on, one block's worth of records still lands in allocated space.
    method AppendWithoutSpace(records: seq<nat>)
      requires block > 0 && Reserved() && Sum(records) <= block
      modifies this
      ensures size == old(size) && len == old(len) + Sum(records) && len < size
      ensures old(len) + Sum(records) < old(limit) ==> Reserved()
    {
      var i := 0;
      while i < |records|
        invariant 0 <= i <= |records|
        invariant size == old(size) && limit == old(limit) && len == old(len) + Sum(records[..i])
      {
        assert records[..i + 1] == records[..i] + [records[i]];
        SumAppend(records[..i], records[i]);
        Append(records[i], false);
        i := i + 1;
      }
      assert records[..i] == records;
    }
  }
}
