/** The bounded writer of opcua/ua/bytes_writer.go, into which every chunk is built. */
module ByteWriter {
  import opened Bytes

  lemma FitTwice(a: seq<byte>, b: seq<byte>, room: nat)
    ensures Fit(Fit(a, room) + b, room) == Fit(a + b, room)
  {
  }

  class Writer {
    const s: array<byte>
    var i: nat

    ghost predicate Valid()
      reads this
    {
      i <= s.Length
    }

    /** The written portion of the buffer (`Bytes`). */
    ghost function Written(): (r: seq<byte>)
      requires Valid()
      reads this, s
    {
      s[..i]
    }

    constructor (buffer: array<byte>)
      ensures Valid() && s == buffer && i == 0
    {
      s, i := buffer, 0;
    }

    /** Copies as much of `p` as fits; anything cut off, or a full buffer, is a short write. */
    method Write(p: seq<byte>) returns (n: nat, short: bool)
      requires Valid()
      modifies this, s
      ensures Valid()
      ensures n == if |p| <= s.Length - old(i) then |p| else s.Length - old(i)
      ensures short <==> n < |p| || old(i) == s.Length
      ensures Written() == old(Written()) + p[..n] == Fit(old(Written()) + p, s.Length)
      ensures s[i..] == old(s[..])[i..]
    {
      if i >= s.Length {
        assert p[..0] == [];
        return 0, true;
      }
      n := if |p| <= s.Length - i then |p| else s.Length - i;
      for k := 0 to n
        invariant i == old(i)
        invariant forall j :: 0 <= j < i ==> s[j] == old(s[j])
        invariant forall j :: 0 <= j < k ==> s[i + j] == p[j]
        invariant forall j :: i + k <= j < s.Length ==> s[j] == old(s[j])
      {
        s[i + k] := p[k];
      }
      i := i + n;
      short := n < |p|;
    }

    /** A write whose result is not looked at, after `done` was written: what does not fit is cut off. */
    method WriteBehind(ghost done: seq<byte>, p: seq<byte>)
      requires Valid() && Written() == Fit(done, s.Length)
      modifies this, s
      ensures Valid() && Written() == Fit(done + p, s.Length)
    {
      var _, _ := Write(p);
      FitTwice(done, p, s.Length);
    }

    /** A write that the buffer has room for. */
    method Put(p: seq<byte>)
      requires Valid() && i + |p| <= s.Length
      modifies this, s
      ensures Valid() && i == old(i) + |p|
      ensures Written() == old(Written()) + p
    {
      var n, short := Write(p);
      assert p[..|p|] == p;
    }

    /** Replaces the written bytes from `at` on, as the block cipher does in place. */
    method Overwrite(at: nat, p: seq<byte>)
      requires Valid() && at + |p| == i
      modifies s
      ensures Written() == old(Written())[..at] + p
    {
      for k := 0 to |p|
        invariant forall j :: 0 <= j < at ==> s[j] == old(s[j])
        invariant forall j :: 0 <= j < k ==> s[at + j] == p[j]
      {
        s[at + k] := p[k];
      }
    }
  }
}
