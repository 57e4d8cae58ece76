/**
 * The part of `*os.File` the snapshot writers use: the bytes of the file
 * and the current offset. Whether a system call fails is an input.
 */
module OsFile {
  import opened Bytes

  /** The observable state of an open file. */
  datatype FileState = FileState(data: Bytes, pos: nat)

  /** `n` zero bytes, the hole a write past the end leaves. */
  function Zeros(n: nat): (r: Bytes)
    ensures |r| == n && forall i :: 0 <= i < n ==> r[i] == 0
  {
    seq(n, _ => 0)
  }

  /** The file contents after writing `b` at offset `pos`. */
  function WriteAt(data: Bytes, pos: nat, b: Bytes): (r: Bytes)
    ensures |r| == if pos + |b| > |data| then pos + |b| else |data|
    ensures r[pos..pos + |b|] == b
    ensures forall i :: 0 <= i < pos && i < |data| ==> r[i] == data[i]
    ensures forall i :: pos + |b| <= i < |data| ==> r[i] == data[i]
  {
    if pos <= |data| then
      data[..pos] + b + (if pos + |b| < |data| then data[pos + |b|..] else [])
    else
      data + Zeros(pos - |data|) + b
  }

  /** Writing at offset 0 of an empty file leaves exactly the bytes written. */
  lemma WriteAtEmpty(b: Bytes)
    ensures WriteAt([], 0, b) == b
  {
  }

  class File {
    var data: Bytes
    var pos: nat

    /** A file opened with the given contents, positioned at its start. */
    constructor (contents: Bytes)
      ensures data == contents && pos == 0
    {
      data := contents;
      pos := 0;
    }

    function State(): FileState
      reads this
    {
      FileState(data, pos)
    }

    /** `Truncate(0)`: on success the file is empty; the offset is not moved. */
    method Truncate(fails: bool) returns (ok: bool)
      modifies this
      ensures ok == !fails
      ensures ok ==> data == [] && pos == old(pos)
      ensures !ok ==> data == old(data) && pos == old(pos)
    {
      ok := !fails;
      if ok {
        data := [];
      }
    }

    /** `Seek(0, 0)`: on success the offset is the start of the file; the contents are not touched. */
    method SeekStart(fails: bool) returns (ok: bool)
      modifies this
      ensures ok == !fails
      ensures data == old(data)
      ensures pos == if ok then 0 else old(pos)
    {
      ok := !fails;
      if ok {
        pos := 0;
      }
    }

    /** A write of `b` at the offset, which then moves past it. */
    method Write(b: Bytes)
      modifies this
      ensures data == WriteAt(old(data), old(pos), b)
      ensures pos == old(pos) + |b|
    {
      data := WriteAt(data, pos, b);
      pos := pos + |b|;
    }
  }
}
