/** The set of link names seen so far: open addressing with linear probing. It answers as a scan of
    the names kept so far would. */
module LinkHashSets {
  import opened Prelude
  import opened LinkNames

  const MAX_CAPACITY := 0x4000_0000

  // ----- the table, as a sequence of slots -----

  type Slots = seq<Option<CString>>

  function Home(name: CString, cap: nat): nat
    requires cap > 0
  {
    HashOf(name) % cap
  }

  /** The slot `d` steps after `h`, around the end. */
  function At(h: nat, d: nat, cap: nat): (r: nat)
    requires cap > 0
    ensures r < cap
  {
    (h + d) % cap
  }

  /** The first `d` slots from `h` on are occupied. */
  ghost predicate Full(b: Slots, h: nat, d: nat)
    requires |b| > 0
  {
    forall e: nat :: e < d ==> b[At(h, e, |b|)].Some?
  }

  /** The name in slot `j` can be reached from its home without meeting an empty slot. */
  ghost predicate Reached(b: Slots, j: nat)
    requires |b| > 0 && j < |b| && b[j].Some?
  {
    exists d: nat :: d < |b| && At(Home(b[j].value, |b|), d, |b|) == j && Full(b, Home(b[j].value, |b|), d)
  }

  ghost predicate ProbeOk(b: Slots)
    requires |b| > 0
  {
    forall j: nat :: j < |b| && b[j].Some? ==> Reached(b, j)
  }

  function Stored(b: Slots): multiset<CString> {
    if b == [] then multiset{}
    else Stored(b[..|b| - 1]) + InSlot(b[|b| - 1])
  }

  function InSlot(o: Option<CString>): multiset<CString> {
    if o.Some? then multiset{o.value} else multiset{}
  }

  lemma PutPrefix(b: Slots, j: nat, o: Option<CString>)
    requires j < |b|
    ensures var c := b[j := o][..|b| - 1]; if j < |b| - 1 then c == b[..|b| - 1][j := o] else c == b[..|b| - 1]
  {
  }

  lemma PutBefore(b: Slots, j: nat, name: CString)
    requires j < |b| - 1
    requires Stored(b[..|b| - 1][j := Some(name)]) == Stored(b[..|b| - 1]) + multiset{name}
    ensures Stored(b[j := Some(name)]) == Stored(b) + multiset{name}
  {
    hide Stored, InSlot;
    StoredSplit(b);
    StoredSplit(b[j := Some(name)]);
    PutPrefix(b, j, Some(name));
    Regroup(Stored(b[..|b| - 1]), multiset{name}, InSlot(b[|b| - 1]));
  }

  lemma PutLast(b: Slots, name: CString)
    requires b != [] && b[|b| - 1].None?
    ensures Stored(b[|b| - 1 := Some(name)]) == Stored(b) + multiset{name}
  {
    hide Stored;
    StoredSplit(b);
    StoredSplit(b[|b| - 1 := Some(name)]);
    PutPrefix(b, |b| - 1, Some(name));
  }

  lemma {:induction false} StoredPut(b: Slots, j: nat, name: CString)
    requires j < |b| && b[j].None?
    ensures Stored(b[j := Some(name)]) == Stored(b) + multiset{name}
  {
    hide Stored;
    if j < |b| - 1 {
      StoredPut(b[..|b| - 1], j, name);
      PutBefore(b, j, name);
    } else {
      PutLast(b, name);
    }
  }

  lemma StoredSplit(b: Slots)
    requires b != []
    ensures Stored(b) == Stored(b[..|b| - 1]) + InSlot(b[|b| - 1])
  {
  }

  lemma Regroup(a: multiset<CString>, b: multiset<CString>, c: multiset<CString>)
    ensures a + b + c == a + c + b
  {
  }

  lemma {:induction false} StoredHas(b: Slots, name: CString)
    ensures name in Stored(b) <==> exists j :: 0 <= j < |b| && b[j] == Some(name)
  {
    if b != [] {
      var c := b[..|b| - 1];
      StoredHas(c, name);
      if name in Stored(b) && b[|b| - 1] != Some(name) {
        var j :| 0 <= j < |c| && c[j] == Some(name);
        assert b[j] == Some(name);
      }
      if j :| 0 <= j < |b| && b[j] == Some(name) && j < |b| - 1 {
        assert c[j] == Some(name);
      }
    }
  }

  lemma {:induction false} StoredEmpty(b: Slots)
    requires forall j :: 0 <= j < |b| ==> b[j].None?
    ensures Stored(b) == multiset{}
  {
    if b != [] {
      StoredEmpty(b[..|b| - 1]);
    }
  }

  lemma {:induction false} StoredAll(b: Slots)
    requires forall j :: 0 <= j < |b| ==> b[j].Some?
    ensures |Stored(b)| == |b|
  {
    if b != [] {
      StoredAll(b[..|b| - 1]);
    }
  }

  // ----- probing -----

  lemma AtNext(h: nat, d: nat, cap: nat)
    requires cap > 0
    ensures At(h, d + 1, cap) == (At(h, d, cap) + 1) % cap
  {
    var q, r := (h + d) / cap, (h + d) % cap;
    if r + 1 == cap {
      assert (q + 1) * cap == q * cap + cap;
      DivModIs(h + d + 1, cap, q + 1, 0);
      DivModIs(cap, cap, 1, 0);
    } else {
      DivModIs(h + d + 1, cap, q, r + 1);
      DivModIs(r + 1, cap, 0, r + 1);
    }
  }

  /** Every slot is met within one turn. */
  lemma Meets(h: nat, j: nat, cap: nat)
    requires cap > 0 && h < cap && j < cap
    ensures exists d: nat :: d < cap && At(h, d, cap) == j
  {
    var d := if j >= h then j - h else j + cap - h;
    if j >= h {
      assert At(h, d, cap) == j;
    } else {
      DivModIs(h + d, cap, 1, j);
      assert At(h, d, cap) == j;
    }
  }

  /** A probe over a table that is not full ends. */
  lemma NotAllFull(b: Slots, h: nat)
    requires |b| > 0 && h < |b| && |Stored(b)| < |b|
    ensures !Full(b, h, |b|)
  {
    if Full(b, h, |b|) {
      forall j: nat | j < |b|
        ensures b[j].Some?
      {
        Meets(h, j, |b|);
      }
      StoredAll(b);
      assert false;
    }
  }

  /** One step of a probe that has not met an empty slot. */
  lemma ProbeOn(b: Slots, h: nat, d: nat)
    requires IsPow2(|b|) && |b| > 0 && h < |b| && d < |b| && Full(b, h, d) && b[At(h, d, |b|)].Some?
    requires |Stored(b)| < |b|
    ensures And(At(h, d, |b|) + 1, |b| - 1) == At(h, d + 1, |b|) && Full(b, h, d + 1) && d + 1 < |b|
  {
    hide And, IsPow2, Stored;
    AtNext(h, d, |b|);
    MaskIsMod(At(h, d, |b|) + 1, |b|);
    assert Full(b, h, d + 1);
    NotAllFull(b, h);
  }

  lemma ProbeStart(b: Slots, name: CString)
    requires IsPow2(|b|) && |b| > 0
    ensures And(HashOf(name), |b| - 1) == At(Home(name, |b|), 0, |b|) && Full(b, Home(name, |b|), 0) && Home(name, |b|) < |b|
  {
    hide And, IsPow2, HashOf;
    MaskIsMod(HashOf(name), |b|);
    DivModIs(Home(name, |b|), |b|, 0, Home(name, |b|));
  }

  /** A probe that stopped at an empty slot has met every name that hashes to its home. */
  lemma ProbeComplete(b: Slots, name: CString, d: nat, other: CString)
    requires |b| > 0 && ProbeOk(b) && Full(b, Home(name, |b|), d) && b[At(Home(name, |b|), d, |b|)].None?
    requires other in Stored(b) && NamesEqual(other, name)
    ensures exists e: nat :: e < d && b[At(Home(name, |b|), e, |b|)] == Some(other)
  {
    StoredHas(b, other);
    var j :| 0 <= j < |b| && b[j] == Some(other);
    EqualNamesHashAlike(other, name);
    assert Reached(b, j) && Home(other, |b|) == Home(name, |b|);
    hide Home, At, HashOf, NamesEqual, Stored;
    var e: nat :| e < |b| && At(Home(other, |b|), e, |b|) == j && Full(b, Home(other, |b|), e);
    assert e < d;
  }

  /** None of the first `d` names the probe meets counts as equal. */
  ghost predicate NoneEqual(b: Slots, h: nat, d: nat, name: CString)
    requires |b| > 0
  {
    forall e: nat :: e < d && b[At(h, e, |b|)].Some? ==> !NamesEqual(b[At(h, e, |b|)].value, name)
  }

  /** Then no stored name does. */
  lemma ProbeFoundNone(b: Slots, kept: seq<CString>, name: CString, d: nat)
    requires |b| > 0 && ProbeOk(b) && Full(b, Home(name, |b|), d) && b[At(Home(name, |b|), d, |b|)].None?
    requires NoneEqual(b, Home(name, |b|), d, name) && Stored(b) == multiset(kept)
    ensures NewTo(kept, name)
  {
    hide ProbeOk, Full, Home, Stored, At, NamesEqual;
    forall k | 0 <= k < |kept|
      ensures !NamesEqual(kept[k], name)
    {
      assert kept[k] in multiset(kept);
      if NamesEqual(kept[k], name) {
        ProbeComplete(b, name, d, kept[k]);
      }
    }
  }

  /** Filling the empty slot where a probe stopped keeps every name reachable. */
  lemma PutKeeps(b: Slots, name: CString, d: nat)
    requires |b| > 0 && ProbeOk(b) && d < |b| && Full(b, Home(name, |b|), d) && b[At(Home(name, |b|), d, |b|)].None?
    ensures var j := At(Home(name, |b|), d, |b|);
            ProbeOk(b[j := Some(name)]) && Stored(b[j := Some(name)]) == Stored(b) + multiset{name}
  {
    hide Home, At, Stored;
    var j := At(Home(name, |b|), d, |b|);
    var b' := b[j := Some(name)];
    StoredPut(b, j, name);
    forall k: nat | k < |b'| && b'[k].Some?
      ensures Reached(b', k)
    {
      if k == j {
        assert Full(b', Home(name, |b|), d);
      } else {
        assert Reached(b, k);
        var e: nat :| e < |b| && At(Home(b[k].value, |b|), e, |b|) == k && Full(b, Home(b[k].value, |b|), e);
        assert Full(b', Home(b[k].value, |b|), e);
      }
    }
  }

  lemma EmptyProbeOk(b: Slots)
    requires |b| > 0 && forall j :: 0 <= j < |b| ==> b[j].None?
    ensures ProbeOk(b) && Stored(b) == multiset{}
  {
    StoredEmpty(b);
  }

  // ----- the reference: a scan of the names kept so far -----

  /** No kept name counts as equal to `name`. */
  ghost predicate NewTo(kept: seq<CString>, name: CString) {
    forall k :: 0 <= k < |kept| ==> !NamesEqual(kept[k], name)
  }

  /** The names a linear scan keeps, in order: each one that is new to those kept before it. */
  ghost function FirstWins(names: seq<CString>): seq<CString> {
    if names == [] then []
    else
      var kept := FirstWins(names[..|names| - 1]);
      var name := names[|names| - 1];
      if NewTo(kept, name) then kept + [name] else kept
  }

  /** What is kept: no two kept names count as equal, and whatever was dropped is equal to a kept name. */
  ghost predicate KeptOk(names: seq<CString>, kept: seq<CString>) {
    && (forall i, j :: 0 <= i < j < |kept| ==> !NamesEqual(kept[i], kept[j]))
    && (forall name :: name in kept ==> name in names)
    && (forall name :: name in names ==> name in kept || !NewTo(kept, name))
  }

  lemma KeptNext(names: seq<CString>, kept: seq<CString>, name: CString)
    requires KeptOk(names, kept)
    ensures KeptOk(names + [name], if NewTo(kept, name) then kept + [name] else kept)
  {
    hide NamesEqual;
    if NewTo(kept, name) {
      forall n | n in names + [name]
        ensures n in kept + [name] || !NewTo(kept + [name], n)
      {
        if n in names && n !in kept {
          var k :| 0 <= k < |kept| && NamesEqual(kept[k], n);
          assert (kept + [name])[k] == kept[k];
        }
      }
    }
  }

  lemma {:induction false} FirstWinsMeans(names: seq<CString>)
    ensures KeptOk(names, FirstWins(names))
  {
    hide KeptOk, NewTo;
    if names == [] {
      assert KeptOk([], []) by {
        KeptNone();
      }
    } else {
      var rest, name := names[..|names| - 1], names[|names| - 1];
      FirstWinsMeans(rest);
      KeptNext(rest, FirstWins(rest), name);
      assert names == rest + [name];
    }
  }

  lemma KeptNone()
    ensures KeptOk([], [])
  {
  }

  datatype AddResult = Added | Present | TooLarge

  /** The smallest power of two that is at least `n`, or the largest the set will start with. */
  predicate StartsWith(n: int, cap: nat) {
    && IsPow2(cap) && 1 <= cap <= MAX_CAPACITY
    && (n <= 0 ==> cap == 16)
    && (0 < n <= MAX_CAPACITY ==> n <= cap && (cap == 1 || cap / 2 < n))
    && (n > MAX_CAPACITY ==> cap == MAX_CAPACITY)
  }

  class LinkHashSet {
    var buckets: array<Option<CString>>
    var size: nat
    /** The names kept, in the order they were added. */
    ghost var kept: seq<CString>

    ghost predicate Valid()
      reads this, buckets
    {
      && IsPow2(buckets.Length) && 0 < buckets.Length <= MAX_CAPACITY
      && size == |kept|
      && Stored(buckets[..]) == multiset(kept)
      && ProbeOk(buckets[..])
      && size <= buckets.Length / 2
    }

    constructor (capacity: int)
      ensures Valid() && fresh(buckets) && kept == []
      ensures StartsWith(capacity, buckets.Length)
    {
      var cap := 16;
      assert IsPow2(16) by {
        assert IsPow2(2) && IsPow2(4) && IsPow2(8);
      }
      if capacity > 0 {
        cap := 1;
        while cap < capacity && cap < MAX_CAPACITY
          invariant IsPow2(cap) && 1 <= cap <= MAX_CAPACITY
          invariant cap == 1 || cap / 2 < capacity
          decreases MAX_CAPACITY - cap
        {
          DoublePow2(cap);
          cap := cap * 2;
        }
      }
      buckets := new Option<CString>[cap](_ => None);
      size := 0;
      kept := [];
      new;
      EmptyProbeOk(buckets[..]);
    }

    /** Put a name that is in no slot of `into` yet into the first empty slot after its home. */
    static method Rehash(into: array<Option<CString>>, name: CString)
      requires IsPow2(into.Length) && into.Length > 0 && ProbeOk(into[..]) && |Stored(into[..])| < into.Length
      modifies into
      ensures ProbeOk(into[..]) && Stored(into[..]) == old(Stored(into[..])) + multiset{name}
    {
      hide And, At, Full, Home, ProbeOk, Stored, IsPow2, HashOf;
      var cap := into.Length;
      var hash := HashString(name);
      var bucket := And(hash, cap - 1);
      ghost var b := into[..];
      ghost var h := Home(name, cap);
      ghost var d := 0;
      ProbeStart(b, name);
      while into[bucket].Some?
        invariant d < cap && bucket == At(h, d, cap) && Full(b, h, d)
        invariant into[..] == b
        decreases cap - d
      {
        ProbeOn(b, h, d);
        bucket := And(bucket + 1, cap - 1);
        d := d + 1;
      }
      PutKeeps(b, name, d);
      into[bucket] := Some(name);
      assert into[..] == b[bucket := Some(name)];
    }

    /** Double the table and put every name back. The program exits when the table cannot grow. */
    method Resize() returns (ok: bool)
      requires Valid()
      modifies this
      ensures Valid() && kept == old(kept) && size == old(size)
      ensures ok <==> old(buckets).Length <= INT_MAX / 2
      ensures if ok then fresh(buckets) && buckets.Length == 2 * old(buckets).Length else buckets == old(buckets)
    {
      hide And, At, Full, Home, ProbeOk, Stored, IsPow2, HashOf;
      var before := buckets;
      if before.Length > INT_MAX / 2 {
        return false;
      }
      var cap := before.Length * 2;
      DoublePow2(before.Length);
      var after := new Option<CString>[cap](_ => None);
      EmptyProbeOk(after[..]);
      var i := 0;
      StoredNone(before[..0]);
      while i < before.Length
        invariant 0 <= i <= before.Length
        invariant before[..] == old(buckets[..])
        invariant fresh(after) && after.Length == cap
        invariant ProbeOk(after[..]) && Stored(after[..]) == Stored(before[..i])
        invariant unchanged(this)
      {
        StoredAtMost(before[..i]);
        StoredNext(before[..], i);
        if before[i].Some? {
          Rehash(after, before[i].value);
        }
        i := i + 1;
      }
      assert before[..before.Length] == before[..];
      buckets := after;
      ok := true;
    }

    /** The probe of LinkHashSet_add: stop at an equal name or at the first empty slot. */
    method Probe(name: CString) returns (present: bool, bucket: nat, ghost d: nat)
      requires Valid() && size < buckets.Length
      ensures present <==> !NewTo(kept, name)
      ensures !present ==> d < buckets.Length && bucket == At(Home(name, buckets.Length), d, buckets.Length)
                           && Full(buckets[..], Home(name, buckets.Length), d) && buckets[bucket].None?
    {
      hide And, At, Full, Home, ProbeOk, Stored, IsPow2, HashOf, NamesEqual;
      var cap := buckets.Length;
      var hash := HashString(name);
      bucket := And(hash, cap - 1);
      d := 0;
      ghost var h := Home(name, cap);
      ghost var b := buckets[..];
      ProbeStart(b, name);
      while buckets[bucket].Some?
        invariant d < cap && bucket == At(h, d, cap) && Full(b, h, d)
        invariant NoneEqual(b, h, d, name)
        decreases cap - d
      {
        if NamesEqual(buckets[bucket].value, name) {
          StoredHas(b, buckets[bucket].value);
          assert buckets[bucket].value in kept;
          return true, bucket, d;
        }
        ProbeOn(b, h, d);
        bucket := And(bucket + 1, cap - 1);
        d := d + 1;
      }
      ProbeFoundNone(b, kept, name, d);
      present := false;
    }

    /** Add a name unless an equal one is there, as a scan of the names kept so far would. */
    method Add(name: CString) returns (r: AddResult)
      requires Valid()
      modifies this, buckets
      ensures Valid() && (buckets == old(buckets) || fresh(buckets))
      ensures r.TooLarge? <==> old(size) >= old(buckets.Length) / 2 && old(buckets.Length) > INT_MAX / 2
      ensures r.Added? || r.Present? ==> (r.Added? <==> NewTo(old(kept), name))
      ensures kept == if r.Added? then old(kept) + [name] else old(kept)
    {
      hide At, Full, Home, ProbeOk, Stored, IsPow2, NamesEqual, NewTo;
      if size >= buckets.Length / 2 {
        var ok := Resize();
        if !ok {
          return TooLarge;
        }
      }
      var present, bucket, d := Probe(name);
      if present {
        return Present;
      }
      ghost var b := buckets[..];
      PutKeeps(b, name, d);
      buckets[bucket] := Some(name);
      assert buckets[..] == b[bucket := Some(name)];
      size := size + 1;
      kept := kept + [name];
      r := Added;
    }
  }

  /** Adding every name of a page to a fresh set: the names LinkHashSet_add lets through, in order,
      are those a linear scan keeps, unless the table would outgrow the largest capacity. */
  method AddAll(names: seq<CString>, capacity: int) returns (taken: seq<CString>, ok: bool)
    ensures ok ==> taken == FirstWins(names)
    ensures !ok ==> |names| > MAX_CAPACITY / 2
  {
    hide NewTo, IsPow2, ProbeOk, Stored;
    var set0 := new LinkHashSet(capacity);
    taken := [];
    var i := 0;
    assert names[..0] == [];
    while i < |names|
      invariant 0 <= i <= |names|
      invariant set0.Valid() && fresh(set0) && fresh(set0.buckets)
      invariant taken == set0.kept == FirstWins(names[..i]) && |taken| <= i
    {
      assert names[..i + 1][..i] == names[..i];
      var r := set0.Add(names[i]);
      if r.TooLarge? {
        return taken, false;
      }
      if r.Added? {
        taken := taken + [names[i]];
      }
      i := i + 1;
    }
    assert names[..i] == names;
    ok := true;
  }

  lemma {:induction false} Pow2Gap(n: nat, m: nat)
    requires IsPow2(n) && IsPow2(m) && n < m
    ensures 2 * n <= m
  {
    if n > 1 {
      Pow2Gap(n / 2, m / 2);
    }
  }

  lemma {:induction false} Pow2Times(a: nat, b: nat)
    requires IsPow2(a) && IsPow2(b)
    ensures IsPow2(a * b)
  {
    if a > 1 {
      Pow2Times(a / 2, b);
      assert a * b == 2 * (a / 2 * b);
    }
  }

  lemma MaxIsPow2()
    ensures IsPow2(MAX_CAPACITY)
  {
    assert IsPow2(2) && IsPow2(4);
    hide IsPow2;
    Pow2Times(4, 4);
    Pow2Times(16, 4);
    Pow2Times(16, 16);
    Pow2Times(256, 256);
    Pow2Times(256, 64);
    Pow2Times(0x1_0000, 0x4000);
  }

  lemma DoublePow2(n: nat)
    requires IsPow2(n) && 1 <= n < MAX_CAPACITY
    ensures IsPow2(n * 2) && n * 2 <= MAX_CAPACITY
  {
    MaxIsPow2();
    Pow2Gap(n, MAX_CAPACITY);
  }

  lemma {:induction false} StoredAtMost(b: Slots)
    ensures |Stored(b)| <= |b|
  {
    if b != [] {
      StoredAtMost(b[..|b| - 1]);
    }
  }

  lemma StoredNone(b: Slots)
    requires b == []
    ensures Stored(b) == multiset{}
  {
  }

  lemma StoredNext(b: Slots, i: nat)
    requires i < |b|
    ensures Stored(b[..i + 1]) == Stored(b[..i]) + (if b[i].Some? then multiset{b[i].value} else multiset{})
  {
    assert b[..i + 1][..i] == b[..i];
  }
}
