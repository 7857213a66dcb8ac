/** A directory listing saved to disk: LinkTable_disk_save and LinkTable_disk_open. */
module LinkTableFile {
  import opened Prelude
  import opened LittleEndian

  const HEADER_LEN := 12
  const ENTRY_LEN := 4371

  /** One link as saved: the raw name and URL buffers, including whatever follows their terminators. */
  datatype Link = Link(name: seq<byte>, url: seq<byte>, kind: int, length: nat, time: int)
  datatype Table = Table(indexTime: int, links: seq<Link>)

  predicate LinkFits(l: Link) {
    |l.name| == NAME_MAX && |l.url| == PATH_MAX && Fits(l.kind, 4) && l.length < Range(8) && Fits(l.time, 8)
  }

  /** A table always holds its head link, and its size is an int. */
  ghost predicate TableFits(t: Table) {
    Fits(t.indexTime, 8) && 0 < |t.links| && Fits(|t.links|, 4) && forall k :: 0 <= k < |t.links| ==> LinkFits(t.links[k])
  }

  function PutLink(l: Link): (r: seq<byte>)
    requires LinkFits(l)
    ensures |r| == ENTRY_LEN
  {
    l.name + l.url + Put(l.kind, 4) + Le(l.length, 8) + Put(l.time, 8)
  }

  function GetLink(s: seq<byte>): (l: Link)
    requires |s| == ENTRY_LEN
    ensures LinkFits(l)
  {
    Link(s[..255], s[255..4351], Get(s[4351..4355]), FromLe(s[4355..4363]), Get(s[4363..]))
  }

  ghost function PutLinks(links: seq<Link>): (r: seq<byte>)
    requires forall k :: 0 <= k < |links| ==> LinkFits(links[k])
    ensures |r| == |links| * ENTRY_LEN
  {
    if links == [] then [] else PutLinks(links[..|links| - 1]) + PutLink(links[|links| - 1])
  }

  ghost function Saved(t: Table): (r: seq<byte>)
    requires TableFits(t)
    ensures |r| == HEADER_LEN + |t.links| * ENTRY_LEN
  {
    Put(|t.links|, 4) + Put(t.indexTime, 8) + PutLinks(t.links)
  }

  /** The header can be read and announces at least one link, and no more than the file has room for. */
  predicate Loadable(file: seq<byte>) {
    && |file| >= HEADER_LEN
    && var n := Get(file[..4]); 1 <= n && n * ENTRY_LEN <= |file| - HEADER_LEN
  }

  /** Bytes of link `k` of a saved table. */
  function Slot(file: seq<byte>, k: nat): (r: seq<byte>)
    requires HEADER_LEN + (k + 1) * ENTRY_LEN <= |file|
    ensures |r| == ENTRY_LEN
  {
    file[HEADER_LEN + k * ENTRY_LEN..HEADER_LEN + (k + 1) * ENTRY_LEN]
  }

  /** `t` is what the file says. */
  ghost predicate IsLoaded(file: seq<byte>, t: Table) {
    && Loadable(file)
    && t.indexTime == Get(file[4..12]) && |t.links| == Get(file[..4])
    && forall k: nat :: k < |t.links| ==> HEADER_LEN + (k + 1) * ENTRY_LEN <= |file| && t.links[k] == GetLink(Slot(file, k))
  }

  /** LinkTable_disk_save, with every fwrite succeeding. */
  method DiskSave(t: Table) returns (file: seq<byte>)
    requires TableFits(t)
    ensures file == Saved(t)
  {
    file := Put(|t.links|, 4) + Put(t.indexTime, 8);
    ghost var header := file;
    var i := 0;
    while i < |t.links|
      invariant 0 <= i <= |t.links|
      invariant file == header + PutLinks(t.links[..i])
    {
      assert t.links[..i + 1][..i] == t.links[..i];
      file := file + t.links[i].name;
      file := file + t.links[i].url;
      file := file + Put(t.links[i].kind, 4);
      file := file + Le(t.links[i].length, 8);
      file := file + Put(t.links[i].time, 8);
      assert file == header + (PutLinks(t.links[..i]) + PutLink(t.links[i]));
      i := i + 1;
    }
    assert t.links[..i] == t.links;
  }

  /** LinkTable_disk_open, with every readable byte read. */
  method DiskOpen(file: seq<byte>) returns (r: Option<Table>)
    ensures r.Some? <==> Loadable(file)
    ensures r.Some? ==> IsLoaded(file, r.value)
  {
    if |file| < HEADER_LEN {
      return None;
    }
    var size := Get(file[..4]);
    var indexTime := Get(file[4..12]);
    var maxEntries := (|file| - HEADER_LEN) / ENTRY_LEN;
    if size < 1 || maxEntries < size {
      return None;
    }
    var links: seq<Link> := [];
    var i: nat := 0;
    while i < size
      invariant 0 <= i <= size && |links| == i
      invariant forall k: nat :: k < i ==> HEADER_LEN + (k + 1) * ENTRY_LEN <= |file| && links[k] == GetLink(Slot(file, k))
    {
      links := links + [GetLink(Slot(file, i))];
      i := i + 1;
    }
    r := Some(Table(indexTime, links));
  }

  // ----- the codec's laws -----

  lemma LinkRoundTrip(l: Link)
    requires LinkFits(l)
    ensures GetLink(PutLink(l)) == l
  {
    var s := PutLink(l);
    assert s[..255] == l.name && s[255..4351] == l.url;
    assert s[4351..4355] == Put(l.kind, 4) && s[4355..4363] == Le(l.length, 8) && s[4363..] == Put(l.time, 8);
    PutGet(l.kind, 4);
    LeRoundTrip(l.length, 8);
    PutGet(l.time, 8);
  }

  lemma {:induction false} PutLinksAt(links: seq<Link>, k: nat)
    requires k < |links| && forall j :: 0 <= j < |links| ==> LinkFits(links[j])
    ensures k * ENTRY_LEN + ENTRY_LEN <= |links| * ENTRY_LEN
    ensures PutLinks(links)[k * ENTRY_LEN..k * ENTRY_LEN + ENTRY_LEN] == PutLink(links[k])
    decreases |links|
  {
    var n := |links| - 1;
    if k < n {
      PutLinksAt(links[..n], k);
    }
  }

  lemma SavedParts(t: Table)
    requires TableFits(t)
    ensures Saved(t)[..4] == Put(|t.links|, 4) && Saved(t)[4..12] == Put(t.indexTime, 8) && Saved(t)[12..] == PutLinks(t.links)
    ensures Get(Saved(t)[..4]) == |t.links| && Get(Saved(t)[4..12]) == t.indexTime
  {
    PutGet(|t.links|, 4);
    PutGet(t.indexTime, 8);
  }

  lemma SlotIs(t: Table, k: nat)
    requires TableFits(t) && k < |t.links|
    ensures HEADER_LEN + (k + 1) * ENTRY_LEN <= |Saved(t)| && Slot(Saved(t), k) == PutLink(t.links[k])
  {
    PutLinksAt(t.links, k);
    SavedParts(t);
    assert Slot(Saved(t), k) == Saved(t)[12..][k * ENTRY_LEN..k * ENTRY_LEN + ENTRY_LEN];
  }

  /** Opening what was saved restores the index time and every link's name, URL, type, length and time,
      in order; nothing else is a reading of the file. */
  lemma SaveThenOpen(t: Table)
    requires TableFits(t)
    ensures Loadable(Saved(t)) && IsLoaded(Saved(t), t)
    ensures forall u: Table :: IsLoaded(Saved(t), u) ==> u == t
  {
    SavedParts(t);
    forall k: nat | k < |t.links|
      ensures HEADER_LEN + (k + 1) * ENTRY_LEN <= |Saved(t)| && t.links[k] == GetLink(Slot(Saved(t), k))
    {
      SlotIs(t, k);
      LinkRoundTrip(t.links[k]);
    }
    forall u: Table | IsLoaded(Saved(t), u)
      ensures u == t
    {
      assert forall k: nat :: k < |t.links| ==> u.links[k] == t.links[k];
      assert u.links == t.links;
    }
  }

  /** Every strict prefix of a saved file is rejected by the header or the entry-count check. */
  lemma PrefixIsRejected(t: Table, n: nat)
    requires TableFits(t) && n < |Saved(t)|
    ensures !Loadable(Saved(t)[..n])
  {
    SavedParts(t);
    if n >= HEADER_LEN {
      assert Saved(t)[..n][..4] == Saved(t)[..4];
    }
  }

  /** Where a saved link has what: its name at byte 0 of its slot, its URL at 255, its type at 4351, its length at
      4355 and its time at 4363, the integers least significant byte first. */
  ghost predicate LinkAt(s: seq<byte>, l: Link) {
    && |s| == 4371 && |l.name| == 255 && |l.url| == 4096
    && (forall i: nat :: i < 255 ==> s[i] == l.name[i]) && (forall i: nat :: i < 4096 ==> s[255 + i] == l.url[i])
    && (forall i: nat :: i < 4 ==> s[4351 + i] as int == ByteOf(l.kind, 4, i))
    && (forall i: nat :: i < 8 ==> s[4355 + i] as int == ByteOf(l.length, 8, i))
    && (forall i: nat :: i < 8 ==> s[4363 + i] as int == ByteOf(l.time, 8, i))
  }

  lemma LinkBytes(l: Link)
    requires LinkFits(l)
    ensures LinkAt(PutLink(l), l)
  {
    hide ByteOf;
    forall i: nat | i < 8
      ensures Le(l.length, 8)[i] as int == ByteOf(l.length, 8, i) && Put(l.time, 8)[i] as int == ByteOf(l.time, 8, i)
      ensures i < 4 ==> Put(l.kind, 4)[i] as int == ByteOf(l.kind, 4, i)
    {
      LengthByte(l.length, i);
      PutByte(l.time, 8, i);
      if i < 4 {
        PutByte(l.kind, 4, i);
      }
    }
    hide Put, Le;
  }

  lemma LengthByte(n: nat, i: nat)
    requires i < 8
    ensures Le(n, 8)[i] as int == ByteOf(n, 8, i)
  {
    LeByte(n, 8, i);
  }

  /** Where a saved table has what: the number of links at byte 0, the index time at 4, and link `k` in the slot at
      12 + 4371 k. */
  lemma SavedLayout(t: Table, k: nat)
    requires TableFits(t) && k < |t.links|
    ensures var f := Saved(t);
            && |f| == 12 + 4371 * |t.links| && 12 + 4371 * k + 4371 <= |f|
            && (forall i: nat :: i < 4 ==> f[i] as int == ByteOf(|t.links|, 4, i))
            && (forall i: nat :: i < 8 ==> f[4 + i] as int == ByteOf(t.indexTime, 8, i))
            && LinkAt(f[12 + 4371 * k..12 + 4371 * k + 4371], t.links[k])
  {
    SlotIs(t, k);
    LinkBytes(t.links[k]);
    SavedParts(t);
    hide ByteOf, LinkAt;
    forall i: nat | i < 8
      ensures Put(t.indexTime, 8)[i] as int == ByteOf(t.indexTime, 8, i)
      ensures i < 4 ==> Put(|t.links|, 4)[i] as int == ByteOf(|t.links|, 4, i)
    {
      PutByte(t.indexTime, 8, i);
      if i < 4 {
        PutByte(|t.links|, 4, i);
      }
    }
    var f := Saved(t);
    hide Put, Saved;
    assert forall i: nat :: i < 4 ==> f[i] == f[..4][i];
    assert forall i: nat :: i < 8 ==> f[4 + i] == f[4..12][i];
  }
}
