/** The growing buffer of a transfer: write_memory_callback. */
module ReceiveBuffers {
  import opened Prelude
  import opened Buffers

  const SIZE_MAX: nat := 0xffff_ffff_ffff_ffff

  function Concat(chunks: seq<seq<byte>>): seq<byte> {
    if chunks == [] then [] else Concat(chunks[..|chunks| - 1]) + chunks[|chunks| - 1]
  }

  class ReceiveBuffer {
    /** `None` is the null pointer the transfer starts with. */
    var data: Option<array<byte>>
    var size: nat

    /** The buffer holds `size` bytes and a terminator, and its length is a valid size_t. */
    ghost predicate Valid()
      reads this, if data.Some? then {data.value} else {}
    {
      && size < SIZE_MAX
      && match data
         case None => size == 0
         case Some(d) => d.Length == size + 1 && d[size] == 0
    }

    ghost function Contents(): (s: seq<byte>)
      requires Valid()
      reads this, if data.Some? then {data.value} else {}
      ensures |s| == size
    {
      match data
      case None => []
      case Some(d) => d[..size]
    }

    constructor ()
      ensures Valid() && Contents() == [] && data.None?
    {
      data, size := None, 0;
    }

    /** One call of the callback, with `nmemb` items of `unit` bytes. The program exits when the buffer
        and its terminator would not fit into a size_t. */
    method Receive(chunk: seq<byte>, unit: nat, nmemb: nat) returns (fatal: bool)
      requires Valid() && unit <= SIZE_MAX && nmemb <= SIZE_MAX && |chunk| == unit * nmemb
      modifies this, if data.Some? then {data.value} else {}
      ensures Valid() && (data == old(data) || (data.Some? && fresh(data.value)))
      ensures fatal <==> old(size) + |chunk| + 1 > SIZE_MAX
      ensures Contents() == if fatal then old(Contents()) else old(Contents()) + chunk
    {
      Guard(SIZE_MAX - size - 1, unit, nmemb);
      if unit != 0 && nmemb > (SIZE_MAX - size - 1) / unit {
        return true;
      }
      var received := unit * nmemb;
      var grown := new byte[size + received + 1](_ => 0);
      if data.Some? {
        CopyInto(grown, 0, data.value[..size]);
      }
      assert grown[..size] == Contents();
      CopyInto(grown, size, chunk);
      ghost var now := grown[..size + received];
      grown[size + received] := 0;
      assert grown[..size + received] == now;
      data := Some(grown);
      size := size + received;
      fatal := false;
    }
  }

  /** The guard by division is the guard by multiplication, without the wrap-around. */
  lemma Guard(room: nat, unit: nat, nmemb: nat)
    ensures unit != 0 ==> (nmemb > room / unit <==> unit * nmemb > room)
  {
    if unit != 0 {
      var q := room / unit;
      assert room == q * unit + room % unit;
      if nmemb > q {
        Grows(q, nmemb, unit);
      } else if nmemb < q {
        Grows(nmemb, q, unit);
      }
    }
  }

  /** However a response arrives, the buffer is the concatenation of its chunks. */
  method ReceiveAll(chunks: seq<seq<byte>>) returns (b: ReceiveBuffer, fatal: bool)
    ensures b.Valid()
    ensures !fatal ==> b.Contents() == Concat(chunks)
    ensures fatal ==> |Concat(chunks)| >= SIZE_MAX
  {
    b := new ReceiveBuffer();
    fatal := false;
    var i := 0;
    assert chunks[..0] == [];
    while i < |chunks|
      invariant 0 <= i <= |chunks|
      invariant b.Valid() && fresh(b) && (b.data.Some? ==> fresh(b.data.value))
      invariant b.Contents() == Concat(chunks[..i])
    {
      assert chunks[..i + 1][..i] == chunks[..i];
      if |chunks[i]| > SIZE_MAX {
        ConcatGrows(chunks, i + 1);
        return b, true;
      }
      fatal := b.Receive(chunks[i], 1, |chunks[i]|);
      if fatal {
        ConcatGrows(chunks, i + 1);
        return;
      }
      i := i + 1;
    }
    assert chunks[..i] == chunks;
  }

  lemma {:induction false} ConcatGrows(chunks: seq<seq<byte>>, n: nat)
    requires n <= |chunks|
    ensures |Concat(chunks[..n])| <= |Concat(chunks)|
    decreases |chunks|
  {
    if n < |chunks| {
      var front := chunks[..|chunks| - 1];
      assert front[..n] == chunks[..n];
      ConcatGrows(front, n);
    } else {
      assert chunks[..n] == chunks;
    }
  }
}
