/** memcpy and memmove into a buffer. */
module Buffers {
  import opened Prelude

  method CopyInto(buf: array<byte>, at: nat, bytes: seq<byte>)
    requires at + |bytes| <= buf.Length
    modifies buf
    ensures buf[..at] == old(buf[..at]) && buf[at..at + |bytes|] == bytes
    ensures buf[..at + |bytes|] == old(buf[..at]) + bytes
  {
    var i := 0;
    while i < |bytes|
      invariant 0 <= i <= |bytes|
      invariant buf[..at] == old(buf[..at]) && buf[at..at + i] == bytes[..i]
    {
      buf[at + i] := bytes[i];
      i := i + 1;
    }
    assert buf[..at + |bytes|] == buf[..at] + buf[at..at + |bytes|];
  }
}
