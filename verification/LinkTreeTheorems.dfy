/** What the directory tree promises over whole runs. */
module LinkTreeTheorems {
  import opened Prelude
  import opened LinkTree
  import opened LinkTreeProofs

  ghost predicate IsRun(r: Remote, s: Tree, run: seq<Step>)
    decreases |run|
  {
    run == [] || (Enabled(r, s, run[0]) && IsRun(r, Apply(r, s, run[0]), run[1..]))
  }

  ghost function After(r: Remote, s: Tree, run: seq<Step>): Tree
    requires IsRun(r, s, run)
    decreases |run|
  {
    if run == [] then s else After(r, Apply(r, s, run[0]), run[1..])
  }

  lemma {:induction false} RunKeeps(r: Remote, s: Tree, run: seq<Step>)
    requires TreeInv(r, s) && IsRun(r, s, run)
    ensures TreeInv(r, After(r, s, run))
    decreases |run|
  {
    hide TreeInv, Apply, Enabled;
    if run == [] {
    } else {
      TreeStep(r, s, run[0]);
      RunKeeps(r, Apply(r, s, run[0]), run[1..]);
    }
  }

  /** The ledger of the mounted tree, after any run of lookups, opens, closes, loads, races and
      evictions: nothing has gone wrong, each live table's reference count is exactly its claims and its
      children, the root is live and unmarked, loaded links lead to live tables, and an unreferenced
      live table is not marked. */
  lemma TreeLedger(r: Remote, run: seq<Step>)
    requires IsRun(r, InitTree(r), run)
    ensures var s := After(r, InitTree(r), run);
            && !s.fault
            && ROOT in s.heap && !s.heap[ROOT].orphaned
            && (forall t :: t in s.heap ==>
                  && s.heap[t].refs == |PinsOn(s.toks, t)| + |Children(s.heap, t)|
                  && (s.heap[t].refs == 0 ==> !s.heap[t].orphaned))
            && (forall t, i: nat :: NextOf(s.heap, t, i).Some? ==> NextOf(s.heap, t, i).value in s.heap)
            && (forall k :: k in s.toks && Pinned(s.toks[k]).Some? ==> Pinned(s.toks[k]).value in s.heap)
  {
    TreeInit(r);
    RunKeeps(r, InitTree(r), run);
    Told(r, After(r, InitTree(r), run));
  }

  lemma Told(r: Remote, s: Tree)
    requires TreeInv(r, s)
    ensures ROOT in s.heap && !s.heap[ROOT].orphaned && LedgerOk(s.heap, s.toks) && IdleOk(s.heap)
    ensures forall t, i: nat :: NextOf(s.heap, t, i).Some? ==> NextOf(s.heap, t, i).value in s.heap
    ensures forall k :: k in s.toks && Pinned(s.toks[k]).Some? ==> Pinned(s.toks[k]).value in s.heap
  {
    hide UpOk, Lookup, Walk;
    forall t, i: nat
      ensures NextOf(s.heap, t, i).Some? ==> NextOf(s.heap, t, i).value in s.heap
    {
      assert DownOk(s.heap, t, i);
    }
  }

  // ----- lookups -----

  /** The path a claim was made for. */
  function PathOf(tok: Token): Option<string> {
    match tok
    case Looking(path, _, _, _) => Some(path)
    case Linked(path, _, _) => Some(path)
    case Opening(path, _, _) => Some(path)
    case OpenCache(path, _, _, _) => Some(path)
    case Nothing(path) => Some(path)
    case _ => None
  }

  lemma StepPath(r: Remote, s: Tree, e: Step, id: Id)
    requires Enabled(r, s, e) && id in s.toks
    ensures var s' := Apply(r, s, e);
            id in s'.toks && (PathOf(s'.toks[id]).Some? ==> PathOf(s'.toks[id]) == PathOf(s.toks[id]))
  {
    hide Bad, Descend, Attach;
  }

  lemma {:induction false} PathKept(r: Remote, s: Tree, run: seq<Step>, id: Id)
    requires IsRun(r, s, run) && id in s.toks
    ensures var s' := After(r, s, run);
            id in s'.toks && (PathOf(s'.toks[id]).Some? ==> PathOf(s'.toks[id]) == PathOf(s.toks[id]))
    decreases |run|
  {
    hide Apply, Enabled, PathOf;
    if run == [] {
    } else {
      StepPath(r, s, run[0], id);
      PathKept(r, Apply(r, s, run[0]), run[1..], id);
    }
  }

  lemma LookupFrom(r: Remote, s: Tree, id: Id, path: string, run: seq<Step>)
    requires TreeInv(r, s) && Enabled(r, s, Begin(id, path)) && IsRun(r, Apply(r, s, Begin(id, path)), run)
    ensures var s' := After(r, Apply(r, s, Begin(id, path)), run); id in s'.toks && AnswerIs(r, s', id, path)
  {
    var s1 := Apply(r, s, Begin(id, path));
    TreeStep(r, s, Begin(id, path));
    RunKeeps(r, s1, run);
    BeginPath(r, s, id, path);
    PathKept(r, s1, run, id);
    OneTok(r, After(r, s1, run), id);
    hide TreeInv, Lookup, Apply, IsRun;
  }

  /** What the claim `id` says of `path` is what the full walk says: the link is at the entry where the
      walk of the remote tree ends, or there is no such link. */
  predicate AnswerIs(r: Remote, s: Tree, id: Id, path: string)
    requires id in s.toks
  {
    match s.toks[id]
    case Linked(_, t, i) => t in s.heap && i < |s.heap[t].next| && Lookup(r, path) == Some(Spot(s.heap[t].url, i))
    case OpenCache(_, t, i, _) => t in s.heap && i < |s.heap[t].next| && Lookup(r, path) == Some(Spot(s.heap[t].url, i))
    case Nothing(_) => Lookup(r, path) == None
    case _ => true
  }

  /** Lazy loading and eviction are invisible: after any run of lookups, opens, closes, loads, races and
      evictions, a lookup of `path` that does not fail to fetch answers, however long it takes and whatever
      happens meanwhile, with the link at which a walk of the full remote tree ends, or with nothing when
      that walk finds nothing. */
  lemma LookupIsFullWalk(r: Remote, before: seq<Step>, id: Id, path: string, run: seq<Step>)
    requires IsRun(r, InitTree(r), before)
    requires var s := After(r, InitTree(r), before); Enabled(r, s, Begin(id, path)) && IsRun(r, Apply(r, s, Begin(id, path)), run)
    ensures var s' := After(r, Apply(r, After(r, InitTree(r), before), Begin(id, path)), run);
            id in s'.toks && AnswerIs(r, s', id, path)
  {
    hide TreeInv, IsRun, After, Apply, Enabled, AnswerIs, InitTree;
    TreeInit(r);
    RunKeeps(r, InitTree(r), before);
    LookupFrom(r, After(r, InitTree(r), before), id, path, run);
  }

  lemma BeginPath(r: Remote, s: Tree, id: Id, path: string)
    requires Enabled(r, s, Begin(id, path))
    ensures var s' := Apply(r, s, Begin(id, path)); id in s'.toks && (PathOf(s'.toks[id]).Some? ==> PathOf(s'.toks[id]) == Some(path))
  {
    hide Bad, Descend;
  }

  lemma OneTok(r: Remote, s: Tree, id: Id)
    requires TreeInv(r, s) && id in s.toks
    ensures TokOk(r, s.heap, s.toks[id])
  {
    hide TokOk, Shape, LedgerOk, IdleOk;
  }

  // ----- canonical paths -----

  /** `names` separated by single slashes. */
  function Joined(names: seq<string>): string
    requires |names| > 0
  {
    if |names| == 1 then names[0] else names[0] + "/" + Joined(names[1..])
  }

  ghost predicate PlainNames(names: seq<string>) {
    forall k :: 0 <= k < |names| ==> names[k] != "" && '/' !in names[k]
  }

  /** The walk a reader has in mind: one component at a time. */
  function WalkNames(r: Remote, url: string, names: seq<string>): Option<Spot>
    requires |names| > 0
    decreases |names|
  {
    match FindEntry(Entries(r, url), names[0])
    case None => None
    case Some(i) => if |names| == 1 then Some(Spot(url, i)) else WalkNames(r, Entries(r, url)[i].url, names[1..])
  }

  lemma {:induction false} SlashAtNone(s: string)
    requires '/' !in s
    ensures SlashAt(s) == |s|
  {
    assert forall k :: 0 <= k < |s| ==> s[k] != '/';
  }

  lemma {:induction false} SlashAtFirst(s: string, rest: string)
    requires '/' !in s
    ensures SlashAt(s + "/" + rest) == |s|
  {
    var t := s + "/" + rest;
    assert t[|s|] == '/';
    assert forall k :: 0 <= k < |s| ==> t[k] == s[k] && s[k] != '/';
  }

  lemma {:induction false} JoinedEnds(names: seq<string>)
    requires |names| > 0 && PlainNames(names)
    ensures Joined(names) != "" && Joined(names)[0] != '/' && Joined(names)[|Joined(names)| - 1] != '/'
  {
    assert names[0][0] in names[0] && names[0][|names[0]| - 1] in names[0];
    if |names| > 1 {
      JoinedEnds(names[1..]);
    }
  }

  lemma TrimPlain(p: string)
    requires p != "" && p[0] != '/' && p[|p| - 1] != '/'
    ensures Trim(p) == p && Trim("/" + p) == p
  {
    var q := "/" + p;
    assert q[1..] == p;
  }

  /** One level of the recursion on a canonical path takes exactly its first component. */
  lemma SplitJoined(names: seq<string>)
    requires |names| > 0 && PlainNames(names)
    ensures Split("/" + Joined(names)) == Split(Joined(names))
    ensures Split(Joined(names)) == if |names| == 1 then Last(names[0]) else More(names[0], Joined(names[1..]))
  {
    var p := Joined(names);
    JoinedEnds(names);
    TrimPlain(p);
    hide Trim, SlashAt, PlainNames;
    if |names| == 1 {
      SlashAtNone(p);
    } else {
      var rest := Joined(names[1..]);
      SlashAtFirst(names[0], rest);
      assert p == names[0] + "/" + rest;
      assert p[|names[0]| + 1..] == rest;
      assert p[..|names[0]|] == names[0];
    }
  }

  lemma PlainRest(names: seq<string>)
    requires |names| > 1 ==> PlainNames(names)
    ensures |names| > 1 ==> PlainNames(names[1..])
  {
  }

  lemma {:induction false} WalkJoined(r: Remote, url: string, names: seq<string>)
    requires |names| > 0 && PlainNames(names)
    ensures Walk(r, url, Joined(names)) == WalkNames(r, url, names)
    decreases |names|
  {
    SplitJoined(names);
    PlainRest(names);
    hide Split, Joined, FindEntry, Entries, PlainNames;
    var i := FindEntry(Entries(r, url), names[0]);
    if |names| > 1 && i.Some? {
      var next := Entries(r, url)[i.value].url;
      assert Walk(r, url, Joined(names)) == Walk(r, next, Joined(names[1..])) && WalkNames(r, url, names) == WalkNames(r, next, names[1..]);
      hide Walk, WalkNames;
      WalkJoined(r, next, names[1..]);
    }
  }

  /** On a canonical path the string walk is the walk by components. */
  lemma CanonicalLookup(r: Remote, names: seq<string>)
    requires |names| > 0 && PlainNames(names) && |Joined(names)| < PATH_MAX
    ensures Lookup(r, "/" + Joined(names)) == WalkNames(r, r.rootUrl, names)
  {
    SplitJoined(names);
    WalkJoined(r, r.rootUrl, names);
  }

  /** The strings have the same character at `k`, or have both ended before. */
  ghost predicate AgreeAt(a: string, b: string, k: nat) {
    (k < |a| <==> k < |b|) && (k < |a| && k < |b| ==> a[k] == b[k])
  }

  lemma LengthsDiffer(a: string, b: string, n: nat)
    requires |Shorten(a, n)| != |Shorten(b, n)|
    ensures exists k: nat :: k < n && !AgreeAt(a, b, k)
  {
    var k := if |a| < |b| then |a| else |b|;
    assert k < n && !AgreeAt(a, b, k);
  }

  /** The comparison of names is that of strncmp with NAME_MAX: up to the end of both, or in the first NAME_MAX
      characters. */
  lemma NamesAgree(a: string, b: string, n: nat)
    ensures Shorten(a, n) == Shorten(b, n) <==> forall k: nat :: k < n ==> AgreeAt(a, b, k)
  {
    var x, y := Shorten(a, n), Shorten(b, n);
    assert forall k: nat :: k < |x| ==> x[k] == a[k];
    assert forall k: nat :: k < |y| ==> y[k] == b[k];
    if forall k: nat :: k < n ==> AgreeAt(a, b, k) {
      if |x| != |y| {
        LengthsDiffer(a, b, n);
      }
      forall k: nat | k < |x|
        ensures x[k] == y[k]
      {
        assert AgreeAt(a, b, k);
      }
    } else {
      var k: nat :| k < n && !AgreeAt(a, b, k);
      assert (k < |x| <==> k < |a|) && (k < |y| <==> k < |b|);
    }
  }

  /** One trailing slash makes no difference. */
  lemma TrailingSlash(r: Remote, names: seq<string>)
    requires |names| > 0 && PlainNames(names) && |Joined(names)| + 1 < PATH_MAX
    ensures Lookup(r, "/" + Joined(names) + "/") == Lookup(r, "/" + Joined(names))
  {
    var p := Joined(names);
    JoinedEnds(names);
    TrimPlain(p);
    var q := "/" + p + "/";
    assert q[1..] == p + "/" && (p + "/")[..|p|] == p;
    assert Trim(q) == p;
    hide Joined, PlainNames, SlashAt, FindEntry;
    assert Split(q) == Split("/" + p);
    hide Trim, Split;
  }
}
