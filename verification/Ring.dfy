/** The byte ring of lib/circular_buffer.c. */
module Ring {

  /** A place in a ring of the given size, at most one turn ahead. */
  function Wrap(i: nat, size: nat): nat {
    if i < size then i else i - size
  }

  lemma OneOn(i: nat, size: nat)
    requires i < size
    ensures (i + 1) % size == Wrap(i + 1, size)
  {}

  class CircularBuffer {
    const buffer: array<nat>
    var read: nat
    var write: nat
    var len: nat

    ghost predicate Valid()
      reads this
    {
      len <= buffer.Length && (buffer.Length > 0 ==> read < buffer.Length && write == Wrap(read + len, buffer.Length))
    }

    /** The bytes in the ring, the oldest first. */
    ghost function Contents(): (s: seq<nat>)
      requires Valid()
      reads this, buffer
      ensures |s| == len && forall i: nat :: i < len ==> s[i] == buffer[Wrap(read + i, buffer.Length)]
    {
      seq(len, i requires 0 <= i < len && Valid() reads this, buffer => buffer[Wrap(read + i, buffer.Length)])
    }

    constructor (size: nat)
      ensures Valid() && Contents() == [] && buffer.Length == size && fresh(buffer)
    {
      buffer := new nat[size];
      read, write, len := 0, 0, 0;
    }

    method Put(x: nat)
      requires Valid() && len < buffer.Length
      modifies this`write, this`len, buffer
      ensures Valid() && Contents() == old(Contents()) + [x]
    {
      OneOn(write, buffer.Length);
      buffer[write] := x;
      write := (write + 1) % buffer.Length;
      len := len + 1;
      assert Contents() == old(Contents()) + [x];
    }

    /** As many of the bytes as there is space for. */
    method Write(data: seq<nat>) returns (n: nat)
      requires Valid()
      modifies this`write, this`len, buffer
      ensures Valid() && n == (if |data| <= buffer.Length - old(len) then |data| else buffer.Length - old(len))
      ensures Contents() == old(Contents()) + data[..n]
    {
      n := 0;
      while n < |data| && len != buffer.Length
        invariant Valid() && n <= |data| && len == old(len) + n && Contents() == old(Contents()) + data[..n]
      {
        Put(data[n]);
        assert Contents() == old(Contents()) + (data[..n] + [data[n]]);
        n := n + 1;
      }
    }

    method Get() returns (x: nat)
      requires Valid() && len > 0
      modifies this`read, this`len
      ensures Valid() && [x] + Contents() == old(Contents())
    {
      OneOn(read, buffer.Length);
      x := buffer[read];
      read := (read + 1) % buffer.Length;
      len := len - 1;
      assert [x] + Contents() == old(Contents());
    }

    /** The oldest bytes, up to size of them. */
    method Read(size: nat) returns (data: seq<nat>)
      requires Valid()
      modifies this`read, this`len
      ensures Valid() && |data| == (if size <= old(len) then size else old(len)) && data + Contents() == old(Contents())
    {
      data := [];
      while |data| < size && len != 0
        invariant Valid() && |data| <= size && |data| + len == old(len) && data + Contents() == old(Contents())
      {
        var x := Get();
        assert data + ([x] + Contents()) == data + [x] + Contents();
        data := data + [x];
      }
    }
  }
}
