/** Byte streams: the buffer that packets are written to and the reader they are taken from. */
module Streams {
  import opened Bytes

  class Writer {
    var written: bytes

    constructor ()
      ensures written == []
    {
      written := [];
    }

    method Write(b: bytes)
      modifies this
      ensures written == old(written) + b
    {
      written := written + b;
    }
  }

  /** A stream of bytes read once from the front; it ends where `data` ends. */
  class Reader {
    const data: bytes
    var pos: nat

    ghost predicate Valid()
      reads this
    {
      pos <= |data|
    }

    ghost function Ahead(): bytes
      requires Valid()
      reads this
    {
      data[pos..]
    }

    constructor (data: bytes)
      ensures Valid() && pos == 0 && this.data == data
    {
      this.data := data;
      pos := 0;
    }

    /** `io.ReadFull` with `k` bytes: all of them or an error. */
    method Take(k: nat) returns (b: Option<bytes>)
      requires Valid()
      modifies this
      ensures Valid() && old(pos) <= pos
      ensures if k <= |old(Ahead())| then b == Some(old(Ahead())[..k]) && pos == old(pos) + k else b.None?
    {
      if k <= |data| - pos {
        assert data[pos..][..k] == data[pos..pos + k];
        b := Some(data[pos..pos + k]);
        pos := pos + k;
      } else {
        b := None;
        pos := |data|;
      }
    }
  }
}
