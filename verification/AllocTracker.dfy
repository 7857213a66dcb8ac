/** The debug allocation tracker: a hash table of chains with one node per live allocation, kept by
    wrappers that unlink a node before they give its memory back. */
module AllocTracker {
  import opened Prelude

  const BUCKETS: nat := 8192

  type Addr = nat
  type Tid = nat
  type Chain = seq<Addr>

  function Xor(a: nat, b: nat): nat {
    if a == 0 && b == 0 then 0 else (if a % 2 != b % 2 then 1 else 0) + 2 * Xor(a / 2, b / 2)
  }

  /** hash_ptr; masking with the table size less one is the remainder. */
  function HashPtr(p: Addr): (h: nat)
    ensures h < BUCKETS
  {
    Xor(p / 8, p / 65536) % BUCKETS
  }

  lemma {:induction false} XorZero(a: nat)
    ensures Xor(a, 0) == a
  {
    if a != 0 {
      XorZero(a / 2);
    }
  }

  /** The addresses of the first 64 KiB, eight at a time, fill the chains one after the other. */
  lemma ChainsInTurn(k: nat, j: nat)
    requires k < BUCKETS && j < 8
    ensures HashPtr(8 * k + j) == k
  {
    XorZero(k);
  }

  // ----- chains -----

  function Put(table: seq<Chain>, p: Addr): seq<Chain>
    requires |table| == BUCKETS
  {
    table[HashPtr(p) := [p] + table[HashPtr(p)]]
  }

  function Remove(table: seq<Chain>, p: Addr): seq<Chain>
    requires |table| == BUCKETS
  {
    table[HashPtr(p) := RemoveFirst(table[HashPtr(p)], p)]
  }

  /** Exactly the addresses in `owned` have a node: one each, in the chain of their hash. */
  ghost predicate Tracks(table: seq<Chain>, owned: set<Addr>) {
    && |table| == BUCKETS
    && (forall b :: 0 <= b < BUCKETS ==> NoRepeats(table[b]))
    && (forall b, p :: 0 <= b < BUCKETS && p in table[b] ==> HashPtr(p) == b && p in owned)
    && (forall p :: p in owned ==> p in table[HashPtr(p)])
  }

  lemma PutTracks(table: seq<Chain>, owned: set<Addr>, p: Addr)
    requires Tracks(table, owned) && p !in owned
    ensures Tracks(Put(table, p), owned + {p})
  {
    hide HashPtr;
    var b := HashPtr(p);
    assert p !in table[b];
    assert NoRepeats([p] + table[b]);
  }

  lemma RemoveTracks(table: seq<Chain>, owned: set<Addr>, p: Addr)
    requires Tracks(table, owned)
    ensures Tracks(Remove(table, p), owned - {p})
  {
    hide HashPtr;
    RemoveFirstIs(table[HashPtr(p)], p);
  }

  lemma InChain(table: seq<Chain>, owned: set<Addr>, p: Addr)
    requires Tracks(table, owned)
    ensures |table| == BUCKETS && (p in table[HashPtr(p)] <==> p in owned)
  {
    hide HashPtr;
  }

  // ----- the table in place -----

  /** One node further, the part passed and what the rest becomes add up to the same. */
  lemma WalkOn(c: Chain, p: Addr, i: nat)
    requires i < |c|
    ensures c[i] != p ==> c[..i] + RemoveFirst(c[i..], p) == c[..i + 1] + RemoveFirst(c[i + 1..], p)
    ensures c[i] == p ==> RemoveFirst(c[i..], p) == c[i + 1..]
    ensures c[..i + 1] == c[..i] + [c[i]]
  {
    assert c[i..][1..] == c[i + 1..] && c[i..][0] == c[i];
  }

  /** Walk a chain to the node of `p`, and past it. */
  method WalkChain(c: Chain, p: Addr) returns (found: bool, rest: Chain)
    ensures found <==> p in c
    ensures rest == RemoveFirst(c, p)
  {
    var i := 0;
    assert RemoveFirst(c[|c|..], p) == [] && c[..0] == [] && c[0..] == c && c[..|c|] == c;
    hide RemoveFirst;
    while i < |c| && c[i] != p
      invariant 0 <= i <= |c| && p !in c[..i]
      invariant RemoveFirst(c, p) == c[..i] + RemoveFirst(c[i..], p)
    {
      WalkOn(c, p, i);
      i := i + 1;
    }
    if i == |c| {
      return false, c;
    }
    WalkOn(c, p, i);
    return true, c[..i] + c[i + 1..];
  }

  class MemTable {
    var chains: array<Chain>
    /** The addresses that have a node. */
    ghost var owned: set<Addr>

    ghost predicate Valid()
      reads this, chains
    {
      Tracks(chains[..], owned)
    }

    constructor ()
      ensures Valid() && fresh(chains) && owned == {}
    {
      chains := new Chain[BUCKETS](_ => []);
      owned := {};
      new;
      hide HashPtr;
    }

    /** A node goes to the front of the chain of its hash, so that its address is tracked once and the
        others as before. The address is a new one: the program does not hold it yet. */
    method Insert(p: Addr)
      requires Valid() && p !in owned
      modifies this, chains
      ensures Valid() && chains == old(chains) && owned == old(owned) + {p}
      ensures chains[HashPtr(p)] == [p] + old(chains[HashPtr(p)])
    {
      PutTracks(chains[..], owned, p);
      hide HashPtr, Tracks;
      var b := HashPtr(p);
      ghost var was := chains[..];
      chains[b] := [p] + chains[b];
      assert chains[..] == Put(was, p);
      owned := owned + {p};
    }

    /** Walk the chain to the node of `p` and take it out: afterwards `p` is not tracked and the others
        are as before. */
    method Unlink(p: Addr) returns (found: bool)
      requires Valid()
      modifies this, chains
      ensures Valid() && chains == old(chains) && owned == old(owned) - {p}
      ensures found <==> p in old(owned)
      ensures chains[..] == Remove(old(chains[..]), p)
    {
      RemoveTracks(chains[..], owned, p);
      InChain(chains[..], owned, p);
      hide HashPtr, Tracks;
      var b := HashPtr(p);
      ghost var was := chains[..];
      var rest;
      found, rest := WalkChain(chains[b], p);
      chains[b] := rest;
      assert chains[..] == Remove(was, p);
      owned := owned - {p};
    }

    /** The count of mem_cleanup. */
    method LeakCount() returns (n: nat)
      requires Valid()
      ensures n == |owned|
    {
      TrackedCount(chains[..], owned);
      hide HashPtr, NoRepeats;
      n := 0;
      var b := 0;
      while b < BUCKETS
        invariant 0 <= b <= BUCKETS && n == Total(chains[..b])
      {
        var i := 0;
        while i < |chains[b]|
          invariant 0 <= i <= |chains[b]| && n == Total(chains[..b]) + i
        {
          n := n + 1;
          i := i + 1;
        }
        assert chains[..b + 1][..b] == chains[..b];
        b := b + 1;
      }
      assert chains[..b] == chains[..];
    }
  }

  function Total(table: seq<Chain>): nat {
    if table == [] then 0 else Total(table[..|table| - 1]) + |table[|table| - 1]|
  }

  function Elements(c: Chain): set<Addr> {
    set p | p in c
  }

  function NodesOf(table: seq<Chain>): set<Addr> {
    if table == [] then {} else NodesOf(table[..|table| - 1]) + Elements(table[|table| - 1])
  }

  lemma {:induction false} ChainSize(c: Chain)
    requires NoRepeats(c)
    ensures |Elements(c)| == |c|
  {
    if c != [] {
      var d := c[..|c| - 1];
      ChainSize(d);
      assert Elements(c) == Elements(d) + {c[|c| - 1]};
      assert c[|c| - 1] !in d;
    }
  }

  lemma {:induction false} InNodes(table: seq<Chain>, p: Addr)
    ensures p in NodesOf(table) <==> exists b :: 0 <= b < |table| && p in table[b]
  {
    if table != [] {
      var rest := table[..|table| - 1];
      InNodes(rest, p);
      if b :| 0 <= b < |table| && p in table[b] && b < |table| - 1 {
        assert p in rest[b];
      }
    }
  }

  /** Chains by hash do not overlap, so the nodes add up to the addresses. */
  lemma {:induction false} TotalIs(table: seq<Chain>, n: nat)
    requires n <= |table| && |table| == BUCKETS && forall b :: 0 <= b < BUCKETS ==> NoRepeats(table[b])
    requires forall b, p :: 0 <= b < BUCKETS && p in table[b] ==> HashPtr(p) == b
    ensures Total(table[..n]) == |NodesOf(table[..n])|
    decreases n
  {
    hide HashPtr, NoRepeats;
    if n > 0 {
      TotalIs(table, n - 1);
      ChainSize(table[n - 1]);
      Apart(table, n);
      OneChainMore(table, n);
      hide NodesOf, Elements, Total;
      ApartSize(NodesOf(table[..n - 1]), Elements(table[n - 1]));
    }
  }

  lemma OneChainMore(table: seq<Chain>, n: nat)
    requires 0 < n <= |table|
    ensures NodesOf(table[..n]) == NodesOf(table[..n - 1]) + Elements(table[n - 1])
    ensures Total(table[..n]) == Total(table[..n - 1]) + |table[n - 1]|
  {
    assert table[..n][..n - 1] == table[..n - 1];
  }

  lemma ApartSize(a: set<Addr>, b: set<Addr>)
    requires a !! b
    ensures |a + b| == |a| + |b|
  {
  }

  lemma Apart(table: seq<Chain>, n: nat)
    requires 0 < n <= |table| && forall b, p :: 0 <= b < |table| && p in table[b] ==> HashPtr(p) == b
    ensures NodesOf(table[..n - 1]) !! Elements(table[n - 1])
  {
    hide HashPtr;
    var a, b := NodesOf(table[..n - 1]), Elements(table[n - 1]);
    forall p | p in a
      ensures p !in b
    {
      InNodes(table[..n - 1], p);
      var k :| 0 <= k < n - 1 && p in table[..n - 1][k];
      assert HashPtr(p) == k;
    }
  }

  /** The table has as many nodes as there are tracked addresses. */
  lemma TrackedCount(table: seq<Chain>, owned: set<Addr>)
    requires Tracks(table, owned)
    ensures Total(table) == |owned|
  {
    hide HashPtr, NoRepeats;
    TotalIs(table, BUCKETS);
    assert table[..BUCKETS] == table;
    forall p
      ensures p in NodesOf(table) <==> p in owned
    {
      InNodes(table, p);
    }
    assert NodesOf(table) == owned;
  }

  // ----- the wrappers, run by any number of threads -----

  /** What a thread still has to do: link the node of a fresh address, release an address whose node it
      has unlinked, or resize one. */
  datatype Op = Inserting(p: Addr) | Releasing(p: Addr, found: bool) | Resizing(p: Addr, found: bool)

  /** `live`: what the allocator has handed out. `owned`: what the program holds and may release. */
  datatype State = State(live: set<Addr>, owned: set<Addr>, table: seq<Chain>, ops: map<Tid, Op>)

  datatype Step =
    | Alloc(t: Tid, p: Addr)
    | Link(t: Tid)
    | FreeStart(t: Tid, p: Addr)
    | FreeEnd(t: Tid)
    | ReallocStart(t: Tid, p: Addr)
    | ReallocEnd(t: Tid, q: Addr)
    | ReallocFails(t: Tid)

  /** The allocator may hand out any address that is not live, in particular one just released. */
  predicate Enabled(s: State, e: Step) {
    match e
    case Alloc(t, p) => t !in s.ops && p > 0 && p !in s.live
    case Link(t) => t in s.ops && s.ops[t].Inserting?
    case FreeStart(t, p) => t !in s.ops && p in s.owned
    case FreeEnd(t) => t in s.ops && s.ops[t].Releasing?
    case ReallocStart(t, p) => t !in s.ops && p in s.owned
    case ReallocEnd(t, q) => t in s.ops && s.ops[t].Resizing? && q > 0 && (q == s.ops[t].p || q !in s.live)
    case ReallocFails(t) => t in s.ops && s.ops[t].Resizing?
  }

  function Effect(s: State, e: Step): (s': State)
    requires Enabled(s, e) && |s.table| == BUCKETS
    ensures |s'.table| == BUCKETS
  {
    match e
    case Alloc(t, p) => s.(live := s.live + {p}, ops := s.ops[t := Inserting(p)])
    case Link(t) =>
      var p := s.ops[t].p;
      s.(owned := s.owned + {p}, table := Put(s.table, p), ops := s.ops - {t})
    case FreeStart(t, p) =>
      s.(owned := s.owned - {p}, table := Remove(s.table, p), ops := s.ops[t := Releasing(p, p in s.table[HashPtr(p)])])
    case FreeEnd(t) => s.(live := s.live - {s.ops[t].p}, ops := s.ops - {t})
    case ReallocStart(t, p) =>
      s.(owned := s.owned - {p}, table := Remove(s.table, p), ops := s.ops[t := Resizing(p, p in s.table[HashPtr(p)])])
    case ReallocEnd(t, q) => s.(live := s.live - {s.ops[t].p} + {q}, ops := s.ops[t := Inserting(q)])
    case ReallocFails(t) => s.(ops := s.ops[t := Inserting(s.ops[t].p)])
  }

  /** A wrapper has the address in hand. */
  ghost predicate InHand(ops: map<Tid, Op>, p: Addr) {
    exists t :: t in ops && ops[t].p == p
  }

  /** Every live address is held by the program or in the hands of exactly one wrapper, whose node was
      found. */
  ghost predicate Accounts(live: set<Addr>, owned: set<Addr>, ops: map<Tid, Op>) {
    && (forall p :: p in live <==> p in owned || InHand(ops, p))
    && (forall t :: t in ops ==> ops[t].p !in owned)
    && (forall t, u :: t in ops && u in ops && ops[t].p == ops[u].p ==> t == u)
    && (forall t :: t in ops && !ops[t].Inserting? ==> ops[t].found)
  }

  ghost predicate TrackerInv(s: State) {
    Tracks(s.table, s.owned) && Accounts(s.live, s.owned, s.ops)
  }

  ghost predicate OtherHand(ops: map<Tid, Op>, t: Tid, p: Addr) {
    exists u :: u != t && u in ops && ops[u].p == p
  }

  lemma HandTakes(ops: map<Tid, Op>, t: Tid, op: Op)
    ensures forall p :: InHand(ops[t := op], p) <==> p == op.p || OtherHand(ops, t, p)
  {
    forall p
      ensures InHand(ops[t := op], p) <==> p == op.p || OtherHand(ops, t, p)
    {
      if p == op.p {
        assert t in ops[t := op];
      } else if u :| u != t && u in ops && ops[u].p == p {
        assert u in ops[t := op] && ops[t := op][u].p == p;
      }
    }
  }

  lemma HandDrops(ops: map<Tid, Op>, t: Tid)
    ensures forall p :: InHand(ops - {t}, p) <==> OtherHand(ops, t, p)
  {
    forall p
      ensures InHand(ops - {t}, p) <==> OtherHand(ops, t, p)
    {
      if u :| u != t && u in ops && ops[u].p == p {
        assert u in ops - {t} && (ops - {t})[u].p == p;
      }
    }
  }

  /** A free thread takes an address: a new one, or one the program gives up. */
  lemma Takes(live: set<Addr>, owned: set<Addr>, ops: map<Tid, Op>, t: Tid, op: Op)
    requires Accounts(live, owned, ops) && t !in ops && (op.Inserting? || op.found)
    requires op.p in owned || op.p !in live
    ensures Accounts(live + {op.p}, owned - {op.p}, ops[t := op])
  {
    HandTakes(ops, t, op);
    forall u | u in ops
      ensures ops[u].p != op.p
    {
      assert InHand(ops, ops[u].p);
    }
    forall p
      ensures p in live + {op.p} <==> p in owned - {op.p} || InHand(ops[t := op], p)
    {
      assert InHand(ops, p) <==> OtherHand(ops, t, p);
    }
    hide InHand;
  }

  lemma OneHand(ops: map<Tid, Op>, t: Tid, p: Addr)
    requires t in ops && forall u, v :: u in ops && v in ops && ops[u].p == ops[v].p ==> u == v
    ensures InHand(ops, p) <==> p == ops[t].p || OtherHand(ops, t, p)
    ensures !OtherHand(ops, t, ops[t].p)
  {
  }

  /** A busy thread exchanges its address for another that is not live, or keeps it. */
  lemma Exchanges(live: set<Addr>, owned: set<Addr>, ops: map<Tid, Op>, t: Tid, q: Addr)
    requires Accounts(live, owned, ops) && t in ops && (q == ops[t].p || q !in live)
    ensures Accounts(live - {ops[t].p} + {q}, owned, ops[t := Inserting(q)])
  {
    HandTakes(ops, t, Inserting(q));
    forall u | u in ops
      ensures ops[u].p in live
    {
      assert InHand(ops, ops[u].p);
    }
    forall p
      ensures p in live - {ops[t].p} + {q} <==> p in owned || InHand(ops[t := Inserting(q)], p)
    {
      OneHand(ops, t, p);
    }
    hide InHand;
  }

  /** A busy thread is done with its address: the program holds it, or it is no longer live. */
  lemma Finishes(live: set<Addr>, owned: set<Addr>, ops: map<Tid, Op>, t: Tid, keep: bool)
    requires Accounts(live, owned, ops) && t in ops
    ensures var p := ops[t].p;
            Accounts(if keep then live else live - {p}, if keep then owned + {p} else owned, ops - {t})
  {
    HandDrops(ops, t);
    assert InHand(ops, ops[t].p);
    forall p
      ensures InHand(ops, p) <==> p == ops[t].p || InHand(ops - {t}, p)
    {
    }
    hide InHand;
  }

  /** Every step of every thread keeps the books, whatever addresses the allocator reuses. */
  lemma TrackerStep(s: State, e: Step)
    requires TrackerInv(s) && Enabled(s, e)
    ensures TrackerInv(Effect(s, e))
  {
    hide Tracks, Accounts, HashPtr;
    match e
    case Alloc(t, p) =>
      Takes(s.live, s.owned, s.ops, t, Inserting(p));
      OwnedLives(s, p);
    case Link(t) =>
      Linkable(s, t);
      PutTracks(s.table, s.owned, s.ops[t].p);
      Finishes(s.live, s.owned, s.ops, t, true);
    case FreeStart(t, p) =>
      TrackedFound(s, p);
      RemoveTracks(s.table, s.owned, p);
      Takes(s.live, s.owned, s.ops, t, Releasing(p, p in s.table[HashPtr(p)]));
    case FreeEnd(t) => Finishes(s.live, s.owned, s.ops, t, false);
    case ReallocStart(t, p) =>
      TrackedFound(s, p);
      RemoveTracks(s.table, s.owned, p);
      Takes(s.live, s.owned, s.ops, t, Resizing(p, p in s.table[HashPtr(p)]));
    case ReallocEnd(t, q) => Exchanges(s.live, s.owned, s.ops, t, q);
    case ReallocFails(t) =>
      Exchanges(s.live, s.owned, s.ops, t, s.ops[t].p);
      HandLives(s, t);
  }

  lemma OwnedLives(s: State, p: Addr)
    requires Accounts(s.live, s.owned, s.ops) && p !in s.live
    ensures s.owned - {p} == s.owned
  {
  }

  lemma HandLives(s: State, t: Tid)
    requires Accounts(s.live, s.owned, s.ops) && t in s.ops
    ensures s.live - {s.ops[t].p} + {s.ops[t].p} == s.live
  {
    assert InHand(s.ops, s.ops[t].p);
  }

  lemma Linkable(s: State, t: Tid)
    requires Accounts(s.live, s.owned, s.ops) && t in s.ops
    ensures s.ops[t].p !in s.owned
  {
  }

  lemma TrackedFound(s: State, p: Addr)
    requires TrackerInv(s) && p in s.owned
    ensures |s.table| == BUCKETS && p in s.table[HashPtr(p)] && s.live + {p} == s.live
  {
  }

  predicate IsRun(s: State, run: seq<Step>)
    requires |s.table| == BUCKETS
    decreases |run|
  {
    run == [] || (Enabled(s, run[0]) && IsRun(Effect(s, run[0]), run[1..]))
  }

  function After(s: State, run: seq<Step>): State
    requires |s.table| == BUCKETS && IsRun(s, run)
    decreases |run|
  {
    if run == [] then s else After(Effect(s, run[0]), run[1..])
  }

  lemma {:induction false} RunKeepsTracker(s: State, run: seq<Step>)
    requires TrackerInv(s) && IsRun(s, run)
    ensures TrackerInv(After(s, run))
    decreases |run|
  {
    hide HashPtr, NoRepeats, Accounts, Effect, Enabled;
    if run == [] {
    } else {
      TrackerStep(s, run[0]);
      RunKeepsTracker(Effect(s, run[0]), run[1..]);
    }
  }

  function Start(): State {
    State({}, {}, seq(BUCKETS, _ => []), map[])
  }

  lemma StartOk()
    ensures TrackerInv(Start())
  {
    hide HashPtr;
  }

  /** After any run in which every release goes through the wrappers: no address has two nodes, every
      node is in the chain of its hash, no wrapper missed a node, and when no wrapper is at work the leak
      count is the number of live allocations. */
  lemma TrackerCounts(run: seq<Step>)
    requires IsRun(Start(), run)
    ensures var s := After(Start(), run);
            && Tracks(s.table, s.owned)
            && (forall t :: t in s.ops && !s.ops[t].Inserting? ==> s.ops[t].found)
            && (s.ops == map[] ==> Total(s.table) == |s.live|)
  {
    StartOk();
    RunKeepsTracker(Start(), run);
    var s := After(Start(), run);
    hide Tracks, HashPtr, IsRun, After;
    if s.ops == map[] {
      TrackedCount(s.table, s.owned);
      assert s.live == s.owned;
    }
  }

  // ----- the books, from the calls alone -----

  /** What the program holds, told from its calls: an allocation adds the address returned, a release takes its
      argument away, a reallocation exchanges the one for the other, or gives it back when it fails. */
  datatype Held = Held(addrs: set<Addr>, resizing: map<Tid, Addr>)

  function Note(h: Held, e: Step): Held {
    match e
    case Alloc(_, p) => h.(addrs := h.addrs + {p})
    case Link(_) => h
    case FreeStart(_, p) => h.(addrs := h.addrs - {p})
    case FreeEnd(_) => h
    case ReallocStart(t, p) => Held(h.addrs - {p}, h.resizing[t := p])
    case ReallocEnd(_, q) => h.(addrs := h.addrs + {q})
    case ReallocFails(t) => if t in h.resizing then h.(addrs := h.addrs + {h.resizing[t]}) else h
  }

  function HeldAfter(h: Held, run: seq<Step>): Held
    decreases |run|
  {
    if run == [] then h else HeldAfter(Note(h, run[0]), run[1..])
  }

  /** A wrapper is about to link the node of the address. */
  ghost predicate Arriving(ops: map<Tid, Op>, p: Addr) {
    exists t :: t in ops && ops[t].Inserting? && ops[t].p == p
  }

  ghost predicate Booked(s: State, h: Held) {
    && (forall p :: p in h.addrs <==> p in s.owned || Arriving(s.ops, p))
    && (forall t :: t in s.ops && s.ops[t].Resizing? ==> t in h.resizing && h.resizing[t] == s.ops[t].p)
  }

  ghost predicate OtherArriving(ops: map<Tid, Op>, t: Tid, p: Addr) {
    exists u :: u != t && u in ops && ops[u].Inserting? && ops[u].p == p
  }

  lemma Arrives(ops: map<Tid, Op>, t: Tid, op: Op)
    ensures forall p :: Arriving(ops[t := op], p) <==> (op.Inserting? && p == op.p) || OtherArriving(ops, t, p)
    ensures forall p :: Arriving(ops - {t}, p) <==> OtherArriving(ops, t, p)
    ensures forall p :: Arriving(ops, p) <==> (t in ops && ops[t].Inserting? && p == ops[t].p) || OtherArriving(ops, t, p)
  {
    forall p
      ensures Arriving(ops[t := op], p) <==> (op.Inserting? && p == op.p) || OtherArriving(ops, t, p)
      ensures Arriving(ops - {t}, p) <==> OtherArriving(ops, t, p)
    {
      if u :| u != t && u in ops && ops[u].Inserting? && ops[u].p == p {
        assert u in ops[t := op] && ops[t := op][u] == ops[u];
        assert u in ops - {t} && (ops - {t})[u] == ops[u];
      }
      if op.Inserting? && p == op.p {
        assert t in ops[t := op];
      }
    }
  }

  lemma NotArriving(s: State, p: Addr)
    requires Accounts(s.live, s.owned, s.ops) && p in s.owned
    ensures !Arriving(s.ops, p)
  {
  }

  lemma NoteTakes(s: State, h: Held, e: Step)
    requires TrackerInv(s) && Enabled(s, e) && Booked(s, h) && (e.Alloc? || e.FreeStart? || e.ReallocStart?)
    ensures |s.table| == BUCKETS && Booked(Effect(s, e), Note(h, e))
  {
    assert |s.table| == BUCKETS;
    hide Tracks, HashPtr, Put, Remove;
    Arrives(s.ops, e.t, Effect(s, e).ops[e.t]);
    if !e.Alloc? {
      NotArriving(s, e.p);
    }
    hide Accounts, Arriving, OtherArriving;
  }

  lemma NoteEnds(s: State, h: Held, e: Step)
    requires TrackerInv(s) && Enabled(s, e) && Booked(s, h) && (e.Link? || e.FreeEnd?)
    ensures |s.table| == BUCKETS && Booked(Effect(s, e), Note(h, e))
  {
    assert |s.table| == BUCKETS;
    hide Tracks, HashPtr, Put, Remove, Accounts;
    Arrives(s.ops, e.t, s.ops[e.t]);
    hide Arriving, OtherArriving;
  }

  lemma NoteResized(s: State, h: Held, e: Step)
    requires TrackerInv(s) && Enabled(s, e) && Booked(s, h) && e.ReallocEnd?
    ensures |s.table| == BUCKETS && Booked(Effect(s, e), Note(h, e))
  {
    assert |s.table| == BUCKETS;
    hide Tracks, HashPtr, Put, Remove, Accounts;
    Arrives(s.ops, e.t, Effect(s, e).ops[e.t]);
    hide Arriving, OtherArriving;
  }

  lemma NoteKept(s: State, h: Held, e: Step)
    requires TrackerInv(s) && Enabled(s, e) && Booked(s, h) && e.ReallocFails?
    ensures |s.table| == BUCKETS && Booked(Effect(s, e), Note(h, e))
  {
    assert |s.table| == BUCKETS;
    hide Tracks, HashPtr, Put, Remove, Accounts;
    Arrives(s.ops, e.t, Effect(s, e).ops[e.t]);
    hide Arriving, OtherArriving;
  }

  /** Every step keeps the books in agreement with the calls. */
  lemma NoteStep(s: State, h: Held, e: Step)
    requires TrackerInv(s) && Enabled(s, e) && Booked(s, h)
    ensures Booked(Effect(s, e), Note(h, e))
  {
    hide TrackerInv, Effect, Note, Booked, Enabled;
    if e.Alloc? || e.FreeStart? || e.ReallocStart? {
      NoteTakes(s, h, e);
    } else if e.Link? || e.FreeEnd? {
      NoteEnds(s, h, e);
    } else if e.ReallocEnd? {
      NoteResized(s, h, e);
    } else {
      NoteKept(s, h, e);
    }
  }

  lemma {:induction false} RunIsBooked(s: State, h: Held, run: seq<Step>)
    requires TrackerInv(s) && IsRun(s, run) && Booked(s, h)
    ensures Booked(After(s, run), HeldAfter(h, run))
    decreases |run|
  {
    hide HashPtr, NoRepeats, Accounts, Effect, Enabled, Booked, Note;
    if run == [] {
    } else {
      TrackerStep(s, run[0]);
      NoteStep(s, h, run[0]);
      RunIsBooked(Effect(s, run[0]), Note(h, run[0]), run[1..]);
    }
  }

  /** After any run, when no wrapper is at work, the live addresses, the tracked ones and those the program holds
      by its own calls are the same, and the leak count is their number. */
  lemma LeaksAreHeld(run: seq<Step>)
    requires IsRun(Start(), run) && After(Start(), run).ops == map[]
    ensures var s := After(Start(), run); var held := HeldAfter(Held({}, map[]), run).addrs;
            s.live == held && s.owned == held && Total(s.table) == |held|
  {
    StartOk();
    RunKeepsTracker(Start(), run);
    RunIsBooked(Start(), Held({}, map[]), run);
    TrackerCounts(run);
    AtRest(After(Start(), run), HeldAfter(Held({}, map[]), run));
  }

  lemma AtRest(s: State, h: Held)
    requires Accounts(s.live, s.owned, s.ops) && Booked(s, h) && s.ops == map[]
    ensures s.live == h.addrs && s.owned == h.addrs
  {
  }
}
