/** What lookups, directory handles and caches of links come to, over whole runs. */
module LinkTreeOutcomes {
  import opened Prelude
  import opened LinkTree
  import opened LinkTreeProofs
  import opened LinkTreeTheorems

  // ----- a lookup is not lost -----

  /** The lookup's own thread gives up: the fetch has failed, or it has returned and releases the link. */
  predicate GivesUp(e: Step, id: Id) {
    e == FetchFailed(id) || e == Release(id)
  }

  predicate NoGivingUp(run: seq<Step>, id: Id) {
    forall k :: 0 <= k < |run| ==> !GivesUp(run[k], id)
  }

  predicate Answering(tok: Token, path: string) {
    PathOf(tok) == Some(path) && (tok.Looking? || tok.Linked? || tok.Nothing?)
  }

  /** What is left to look up. */
  function RestOf(tok: Token): nat {
    if tok.Looking? then |tok.rest| + 1 else 0
  }

  /** Every level of a walk takes something off the path. */
  lemma {:induction false} DescendShortens(r: Remote, heap: map<Tb, Table>, t: Tb, path: string)
    ensures var o := Descend(r, heap, t, path); o.Load? ==> |o.rest| < |path|
    decreases |path|
  {
    hide FindEntry, Trim, SlashAt;
    var part := Split(path);
    if part.More? && t in heap && FindEntry(Entries(r, heap[t].url), part.name).Some? {
      var c := NextOf(heap, t, FindEntry(Entries(r, heap[t].url), part.name).value);
      if c.Some? {
        DescendShortens(r, heap, c.value, part.rest);
      }
    }
  }

  /** A lookup begins with an answer, or with the rest of the path still to be looked up. */
  lemma BeginAnswers(r: Remote, s: Tree, id: Id, path: string)
    requires TreeInv(r, s) && Enabled(r, s, Begin(id, path))
    ensures var s' := Apply(r, s, Begin(id, path));
            id in s'.toks && Answering(s'.toks[id], path) && RestOf(s'.toks[id]) <= |path|
  {
    BeginKeeps(r, s, Begin(id, path));
    DescendShortens(r, s.heap, ROOT, Shorten(path, PATH_MAX));
    hide InvHeap, Descend, Bad, Pin;
  }

  /** A fetch brings the lookup nearer its end. */
  lemma FetchAnswers(r: Remote, s: Tree, e: Step)
    requires TreeInv(r, s) && Enabled(r, s, e) && e.Fetched?
    ensures var tok, s' := s.toks[e.id], Apply(r, s, e);
            e.id in s'.toks && Answering(s'.toks[e.id], tok.path) && RestOf(s'.toks[e.id]) < RestOf(tok)
  {
    var tok := s.toks[e.id];
    FetchedKeeps(r, s, e);
    hide InvHeap, Bad, Pin, KeptBy, AttachedOrDropped;
    FetchGoesOn(r, s, e);
  }

  lemma FetchGoesOn(r: Remote, s: Tree, e: Step)
    requires Enabled(r, s, e) && e.Fetched? && e.id in Effect(r, s, e).toks && !Effect(r, s, e).toks[e.id].Ended?
    requires NextOf(Attach(r, s.heap, s.toks[e.id].tb, s.toks[e.id].i, e.c), s.toks[e.id].tb, s.toks[e.id].i).Some?
    ensures var tok := s.toks[e.id]; var tok' := Effect(r, s, e).toks[e.id]; Answering(tok', tok.path) && RestOf(tok') < RestOf(tok)
  {
    var tok := s.toks[e.id];
    var heap := Attach(r, s.heap, tok.tb, tok.i, e.c);
    hide Attach, Descend, Pin;
    DescendShortens(r, Bump(heap, tok.tb, -1), NextOf(heap, tok.tb, tok.i).value, tok.rest);
  }

  lemma OtherTok(r: Remote, s: Tree, e: Step, id: Id)
    requires Enabled(r, s, e) && id in s.toks && PathOf(s.toks[id]).Some? && !GivesUp(e, id) && !(e.Fetched? && e.id == id)
    ensures var s' := Apply(r, s, e);
            id in s'.toks && PathOf(s'.toks[id]) == PathOf(s.toks[id]) && RestOf(s'.toks[id]) == RestOf(s.toks[id])
  {
    hide Bad, Descend, Attach;
  }

  lemma StepNotLost(r: Remote, s: Tree, e: Step, id: Id)
    requires TreeInv(r, s) && Enabled(r, s, e) && id in s.toks && PathOf(s.toks[id]).Some? && !GivesUp(e, id)
    ensures id in Apply(r, s, e).toks && PathOf(Apply(r, s, e).toks[id]) == PathOf(s.toks[id])
  {
    hide TreeInv, Apply;
    if e.Fetched? && e.id == id {
      FetchAnswers(r, s, e);
    } else {
      OtherTok(r, s, e, id);
    }
  }

  /** How many tables the lookup `id` fetches in the run. */
  function Fetches(run: seq<Step>, id: Id): nat {
    if run == [] then 0 else Fetches(run[1..], id) + if run[0].Fetched? && run[0].id == id then 1 else 0
  }

  /** While it does not give up, a lookup keeps its path, and takes at most as many fetches as are left. */
  lemma {:induction false} NotLost(r: Remote, s: Tree, run: seq<Step>, id: Id)
    requires TreeInv(r, s) && IsRun(r, s, run) && id in s.toks && PathOf(s.toks[id]).Some? && NoGivingUp(run, id)
    ensures var s' := After(r, s, run);
            id in s'.toks && PathOf(s'.toks[id]) == PathOf(s.toks[id])
            && (!s.toks[id].Looking? ==> !s'.toks[id].Looking?)
            && Fetches(run, id) + RestOf(s'.toks[id]) <= RestOf(s.toks[id])
    decreases |run|
  {
    hide TreeInv, Apply, Enabled, PathOf;
    if run == [] {
    } else {
      var s1 := Apply(r, s, run[0]);
      assert !GivesUp(run[0], id);
      assert NoGivingUp(run[1..], id) by {
        RestOfRun(run, id);
      }
      TreeStep(r, s, run[0]);
      StepNotLost(r, s, run[0], id);
      StepRest(r, s, run[0], id);
      NotLost(r, s1, run[1..], id);
    }
  }

  lemma RestOfRun(run: seq<Step>, id: Id)
    requires run != [] && NoGivingUp(run, id)
    ensures NoGivingUp(run[1..], id)
  {
    forall k | 0 <= k < |run[1..]|
      ensures !GivesUp(run[1..][k], id)
    {
      assert run[1..][k] == run[k + 1];
    }
  }

  lemma StepRest(r: Remote, s: Tree, e: Step, id: Id)
    requires TreeInv(r, s) && Enabled(r, s, e) && id in s.toks && PathOf(s.toks[id]).Some? && !GivesUp(e, id)
    ensures var s' := Apply(r, s, e);
            id in s'.toks && RestOf(s'.toks[id]) + (if e.Fetched? && e.id == id then 1 else 0) <= RestOf(s.toks[id])
  {
    hide TreeInv, Apply;
    if e.Fetched? && e.id == id {
      FetchAnswers(r, s, e);
    } else {
      OtherTok(r, s, e, id);
    }
  }

  /** A lookup answers: however long it takes and whatever happens meanwhile, unless its fetch fails or its
      answer has been released it is still about its path, has fetched no more tables than the path has
      characters, and when it is not fetching any more its answer is that of the full walk. */
  lemma LookupAnswers(r: Remote, before: seq<Step>, id: Id, path: string, run: seq<Step>)
    requires IsRun(r, InitTree(r), before) && NoGivingUp(run, id)
    requires var s := After(r, InitTree(r), before); Enabled(r, s, Begin(id, path)) && IsRun(r, Apply(r, s, Begin(id, path)), run)
    ensures var s' := After(r, Apply(r, After(r, InitTree(r), before), Begin(id, path)), run);
            && id in s'.toks && PathOf(s'.toks[id]) == Some(path) && AnswerIs(r, s', id, path)
            && Fetches(run, id) + RestOf(s'.toks[id]) <= |path|
  {
    hide TreeInv, IsRun, After, Apply, Enabled, AnswerIs, InitTree, NoGivingUp;
    TreeInit(r);
    RunKeeps(r, InitTree(r), before);
    var s := After(r, InitTree(r), before);
    BeginAnswers(r, s, id, path);
    TreeStep(r, s, Begin(id, path));
    NotLost(r, Apply(r, s, Begin(id, path)), run, id);
    LookupFrom(r, s, id, path, run);
  }

  // ----- and it can be completed -----

  /** Every directory the walk passes through has a listing. */
  ghost predicate Fetchable(r: Remote, url: string, path: string)
    decreases |path|
  {
    match Split(path)
    case More(name, rest) =>
      (match FindEntry(Entries(r, url), name)
       case Some(i) => Entries(r, url)[i].url in r.listing && Fetchable(r, Entries(r, url)[i].url, rest)
       case None => true)
    case _ => true
  }

  lemma {:induction false} DescendFetchable(r: Remote, heap: map<Tb, Table>, t: Tb, path: string)
    requires Shape(r, heap) && t in heap && Fetchable(r, heap[t].url, path)
    ensures match Descend(r, heap, t, path)
            case Load(u, i, rest) => ChildUrl(r, heap, u, i) in r.listing && Fetchable(r, ChildUrl(r, heap, u, i), rest)
            case _ => true
    decreases |path|
  {
    var part := Split(path);
    if part.More? && FindEntry(Entries(r, heap[t].url), part.name).Some? {
      var i := FindEntry(Entries(r, heap[t].url), part.name).value;
      if NextOf(heap, t, i).Some? {
        LoadedChild(r, heap, t, i);
        DescendFetchable(r, heap, NextOf(heap, t, i).value, part.rest);
      }
    }
  }

  /** The lookup's next fetch can succeed, and so can those after it. */
  ghost predicate CanFetch(r: Remote, s: Tree, id: Id) {
    id in s.toks && s.toks[id].Looking? ==>
      var url := ChildUrl(r, s.heap, s.toks[id].tb, s.toks[id].i); url in r.listing && Fetchable(r, url, s.toks[id].rest)
  }

  lemma BeginCanFetch(r: Remote, s: Tree, id: Id, path: string)
    requires TreeInv(r, s) && Enabled(r, s, Begin(id, path)) && Fetchable(r, r.rootUrl, Shorten(path, PATH_MAX))
    ensures CanFetch(r, Apply(r, s, Begin(id, path)), id)
  {
    HasShape(r, s);
    hide InvHeap, UpOk, DownOk, Bad, Fetchable, Settle, CanFetch;
    WalkCanFetch(r, s.heap, s.toks, id, path, ROOT, Shorten(path, PATH_MAX));
  }

  lemma FetchCanFetch(r: Remote, s: Tree, e: Step)
    requires TreeInv(r, s) && Enabled(r, s, e) && e.Fetched? && CanFetch(r, s, e.id)
    ensures CanFetch(r, Apply(r, s, e), e.id)
  {
    hide Bad, Fetchable, Split, Attach, Descend, Shape, Bump, Pin, InvHeap, TokOk, Claim;
    var tok := s.toks[e.id];
    OneTokPlace(r, s, e.id);
    AttachKeeps(r, s.heap, s.toks, tok.tb, tok.i, e.c);
    var heap := Attach(r, s.heap, tok.tb, tok.i, e.c);
    var n := NextOf(heap, tok.tb, tok.i).value;
    HasShape(r, Tree(heap, s.toks, false));
    BumpShape(r, heap, tok.tb);
    WalkCanFetch(r, Bump(heap, tok.tb, -1), s.toks, e.id, tok.path, n, tok.rest);
  }

  lemma OneTokPlace(r: Remote, s: Tree, id: Id)
    requires TreeInv(r, s) && id in s.toks && s.toks[id].Looking?
    ensures s.toks[id].tb in s.heap && s.toks[id].i < |s.heap[s.toks[id].tb].next|
  {
    OneTok(r, s, id);
    hide TreeInv, Lookup, Walk;
  }

  /** Where a walk over fetchable directories stops to load a table, it can be fetched. */
  lemma WalkCanFetch(r: Remote, heap: map<Tb, Table>, toks: map<Id, Token>, id: Id, path: string, t: Tb, rest: string)
    requires Shape(r, heap) && t in heap && Fetchable(r, heap[t].url, rest)
    ensures forall fault :: CanFetch(r, Settle(r, heap, toks, id, path, t, rest).(fault := fault), id)
  {
    hide Fetchable, Descend, Shape, Pin, ChildUrl;
    DescendFetchable(r, heap, t, rest);
    PinUrls(r, heap, Claim(path, Descend(r, heap, t, rest)));
  }

  lemma BumpShape(r: Remote, heap: map<Tb, Table>, t: Tb)
    requires Shape(r, heap)
    ensures var heap' := Bump(heap, t, -1); Shape(r, heap') && heap'.Keys == heap.Keys && forall x :: x in heap ==> heap'[x].url == heap[x].url
  {
    BumpRefits(heap, heap, t, -1);
    assert !Bump(heap, t, -1)[ROOT].orphaned;
    hide Bump, UpOk, DownOk;
    RefitShape(r, heap, Bump(heap, t, -1));
  }

  lemma PinUrls(r: Remote, heap: map<Tb, Table>, tok: Token)
    ensures forall t, i: nat :: ChildUrl(r, Pin(heap, tok), t, i) == ChildUrl(r, heap, t, i)
  {
  }

  /** The fetches of `id` alone. */
  predicate OnlyFetches(run: seq<Step>, id: Id) {
    forall k :: 0 <= k < |run| ==> run[k].Fetched? && run[k].id == id
  }

  lemma FetchEnabled(r: Remote, s: Tree, id: Id) returns (c: Tb)
    requires id in s.toks && s.toks[id].Looking? && CanFetch(r, s, id)
    ensures Enabled(r, s, Fetched(id, c))
  {
    hide Fetchable;
    c := Fresh(s.heap.Keys);
  }

  lemma {:induction false} Completes(r: Remote, s: Tree, id: Id) returns (run: seq<Step>)
    requires TreeInv(r, s) && id in s.toks && CanFetch(r, s, id) && PathOf(s.toks[id]).Some?
    ensures IsRun(r, s, run) && OnlyFetches(run, id)
    ensures var s' := After(r, s, run);
            TreeInv(r, s') && id in s'.toks && !s'.toks[id].Looking? && (s.toks[id].Looking? ==> Answering(s'.toks[id], s.toks[id].path))
            && (!s.toks[id].Looking? ==> s' == s)
    decreases RestOf(s.toks[id])
  {
    hide TreeInv, Enabled, Apply, CanFetch;
    if s.toks[id].Looking? {
      var c := FetchEnabled(r, s, id);
      var e := Fetched(id, c);
      var s1 := Apply(r, s, e);
      TreeStep(r, s, e);
      FetchAnswers(r, s, e);
      FetchCanFetch(r, s, e);
      var rest := Completes(r, s1, id);
      run := [e] + rest;
      assert run[1..] == rest;
      assert OnlyFetches(run, id) by {
        FetchFirst(e, rest, id);
      }
    } else {
      run := [];
    }
  }

  lemma FetchFirst(e: Step, rest: seq<Step>, id: Id)
    requires e.Fetched? && e.id == id && OnlyFetches(rest, id)
    ensures OnlyFetches([e] + rest, id)
  {
  }

  /** The answer of a lookup that has ended, in full. */
  ghost predicate IsAnswer(r: Remote, s: Tree, id: Id, path: string) {
    && id in s.toks
    && match Lookup(r, path)
       case Some(spot) =>
         s.toks[id].Linked? && s.toks[id].tb in s.heap && s.heap[s.toks[id].tb].url == spot.url && s.toks[id].i == spot.i
       case None => s.toks[id] == Nothing(path)
  }

  lemma AnswerOf(r: Remote, s: Tree, id: Id, path: string)
    requires TreeInv(r, s) && id in s.toks && Answering(s.toks[id], path) && !s.toks[id].Looking?
    ensures IsAnswer(r, s, id, path)
  {
    OneTok(r, s, id);
    hide TreeInv, Lookup;
  }

  /** From any state of the tree, a lookup whose directories all have listings can complete by its own fetches,
      and then has found exactly what the full walk finds. */
  lemma LookupCanComplete(r: Remote, before: seq<Step>, id: Id, path: string)
    requires IsRun(r, InitTree(r), before) && Enabled(r, After(r, InitTree(r), before), Begin(id, path))
    requires Fetchable(r, r.rootUrl, Shorten(path, PATH_MAX))
    ensures var s1 := Apply(r, After(r, InitTree(r), before), Begin(id, path));
            exists run: seq<Step> :: IsRun(r, s1, run) && OnlyFetches(run, id) && IsAnswer(r, After(r, s1, run), id, path)
  {
    hide TreeInv, IsRun, After, Apply, Enabled, InitTree, Fetchable, CanFetch, IsAnswer, OnlyFetches;
    TreeInit(r);
    RunKeeps(r, InitTree(r), before);
    var s := After(r, InitTree(r), before);
    var s1 := Apply(r, s, Begin(id, path));
    TreeStep(r, s, Begin(id, path));
    BeginAnswers(r, s, id, path);
    BeginCanFetch(r, s, id, path);
    var run := Completes(r, s1, id);
    AnswerOf(r, After(r, s1, run), id, path);
  }

  // ----- a directory handle stays on its directory -----

  lemma UnrefUrls(r: Remote, s: Tree, id: Id, t: Tb, x: Tb)
    ensures x in s.heap && x in Unref(s, id, t).heap ==> Unref(s, id, t).heap[x].url == s.heap[x].url
  {
  }

  lemma AttachUrls(r: Remote, heap: map<Tb, Table>, t: Tb, i: nat, c: Tb, x: Tb)
    requires x in heap && c !in heap
    ensures x in Attach(r, heap, t, i, c) && Attach(r, heap, t, i, c)[x].url == heap[x].url
  {
  }

  /** A table that is not freed keeps its URL. */
  lemma UrlKept(r: Remote, s: Tree, e: Step, x: Tb)
    requires Enabled(r, s, e) && x in s.heap && x in Apply(r, s, e).heap
    ensures Apply(r, s, e).heap[x].url == s.heap[x].url
  {
    hide Bad, Descend, Attach, Unref, Claim, Lookup, Shorten, NextOf;
    match e
    case FetchFailed(id) => UnrefUrls(r, s, id, s.toks[id].tb, x);
    case Release(id) => UnrefUrls(r, s, id, s.toks[id].tb, x);
    case CloseDir(id) => UnrefUrls(r, s, id, s.toks[id].tb, x);
    case FreeParent(id) => UnrefUrls(r, s, id, s.toks[id].tb, x);
    case Fetched(id, c) => AttachUrls(r, s.heap, s.toks[id].tb, s.toks[id].i, c, x);
    case OpenFetched(id, h, c) => AttachUrls(r, s.heap, s.toks[id].tb, s.toks[id].i, c, x);
    case _ =>
  }

  lemma HandleStep(r: Remote, s: Tree, e: Step, h: Id)
    requires Enabled(r, s, e) && h in s.toks && s.toks[h].DirHandle? && e != MarkDir(h)
    ensures h in Apply(r, s, e).toks && Apply(r, s, e).toks[h] == s.toks[h]
  {
    hide Bad, Descend, Attach, Pin;
  }

  /** The handle `h` is on a live table of the directory at `url`. */
  ghost predicate HandleOn(s: Tree, h: Id, url: string) {
    h in s.toks && s.toks[h].DirHandle? && s.toks[h].tb in s.heap && s.heap[s.toks[h].tb].url == url
  }

  /** As long as it is not released. */
  lemma {:induction false} HandleStays(r: Remote, s: Tree, run: seq<Step>, h: Id, url: string)
    requires TreeInv(r, s) && IsRun(r, s, run) && HandleOn(s, h, url)
    requires forall k :: 0 <= k < |run| ==> run[k] != MarkDir(h)
    ensures HandleOn(After(r, s, run), h, url)
    decreases |run|
  {
    hide TreeInv, Apply, Enabled;
    if run == [] {
    } else {
      var s1 := Apply(r, s, run[0]);
      TreeStep(r, s, run[0]);
      HandleStep(r, s, run[0], h);
      OneTokLives(r, s1, h);
      UrlKept(r, s, run[0], s.toks[h].tb);
      assert forall k :: 0 <= k < |run[1..]| ==> run[1..][k] == run[k + 1];
      HandleStays(r, s1, run[1..], h, url);
    }
  }

  lemma OneTokLives(r: Remote, s: Tree, h: Id)
    requires TreeInv(r, s) && h in s.toks && Pinned(s.toks[h]).Some?
    ensures Pinned(s.toks[h]).value in s.heap
  {
    OneTok(r, s, h);
    hide TreeInv, Lookup;
  }

  /** The directory the link found for `path` leads to. */
  function DirUrl(r: Remote, path: string): Option<string> {
    match Lookup(r, path)
    case None => None
    case Some(spot) => Some(Entries(r, spot.url)[spot.i].url)
  }

  lemma LinkUrl(r: Remote, heap: map<Tb, Table>, path: string, t: Tb, i: nat)
    requires Shape(r, heap) && LinkOk(r, heap, path, t, i)
    ensures DirUrl(r, path) == Some(ChildUrl(r, heap, t, i))
  {
    hide Lookup, UpOk, DownOk;
  }

  /** No table is loaded for the link: the thread goes on to fetch the directory. */
  ghost predicate StillOpening(s: Tree, s': Tree, e: Step, path: string) {
    && e.OpenDir? && e.id in s.toks && s.toks[e.id].Linked? && NextOf(s.heap, s.toks[e.id].tb, s.toks[e.id].i).None?
    && e.h !in s'.toks && e.id in s'.toks && s'.toks[e.id] == Opening(path, s.toks[e.id].tb, s.toks[e.id].i)
  }

  /** Opening the link found for a path hands out the table of the directory the link leads to, if one is loaded or
      has just been fetched. */
  lemma OpenHandsOut(r: Remote, s: Tree, e: Step, path: string)
    requires TreeInv(r, s) && Enabled(r, s, e) && (e.OpenDir? || e.OpenFetched?) && PathOf(s.toks[e.id]) == Some(path)
    ensures var s' := Apply(r, s, e);
            DirUrl(r, path).Some? && (HandleOn(s', e.h, DirUrl(r, path).value) || StillOpening(s, s', e, path))
  {
    hide TreeInv, InvHeap, Bad, Lookup, DirUrl, Shape;
    OpensLink(r, s, e, path);
    if e.OpenDir? {
      DirOut(r, s, e, path);
    } else {
      FetchedOut(r, s, e, path);
    }
  }

  lemma OpensLink(r: Remote, s: Tree, e: Step, path: string)
    requires TreeInv(r, s) && Enabled(r, s, e) && (e.OpenDir? || e.OpenFetched?) && PathOf(s.toks[e.id]) == Some(path)
    ensures Shape(r, s.heap) && InvHeap(r, s.heap, s.toks)
    ensures var tok := s.toks[e.id]; LinkOk(r, s.heap, path, tok.tb, tok.i) && DirUrl(r, path) == Some(ChildUrl(r, s.heap, tok.tb, tok.i))
  {
    TreeParts(r, s);
    hide TreeInv, InvHeap, Shape, Lookup, DirUrl, ChildUrl, LinkOk;
    OneTok(r, s, e.id);
    LinkUrl(r, s.heap, path, s.toks[e.id].tb, s.toks[e.id].i);
  }

  lemma TreeParts(r: Remote, s: Tree)
    requires TreeInv(r, s)
    ensures Shape(r, s.heap) && InvHeap(r, s.heap, s.toks)
  {
    hide Shape, LedgerOk, ToksOk, IdleOk;
  }

  lemma DirOut(r: Remote, s: Tree, e: Step, path: string)
    requires Enabled(r, s, e) && e.OpenDir? && PathOf(s.toks[e.id]) == Some(path) && Shape(r, s.heap)
    requires DirUrl(r, path) == Some(ChildUrl(r, s.heap, s.toks[e.id].tb, s.toks[e.id].i))
    ensures var s' := Apply(r, s, e); HandleOn(s', e.h, DirUrl(r, path).value) || StillOpening(s, s', e, path)
  {
    hide Bad, Shape, DirUrl, ChildUrl;
    if NextOf(s.heap, s.toks[e.id].tb, s.toks[e.id].i).Some? {
      LoadedChild(r, s.heap, s.toks[e.id].tb, s.toks[e.id].i);
    }
  }

  lemma FetchedOut(r: Remote, s: Tree, e: Step, path: string)
    requires Enabled(r, s, e) && e.OpenFetched? && InvHeap(r, s.heap, s.toks)
    requires LinkOk(r, s.heap, path, s.toks[e.id].tb, s.toks[e.id].i)
    requires DirUrl(r, path) == Some(ChildUrl(r, s.heap, s.toks[e.id].tb, s.toks[e.id].i))
    ensures HandleOn(Apply(r, s, e), e.h, DirUrl(r, path).value)
  {
    hide InvHeap, Bad, DirUrl, ChildUrl, Lookup, Attach;
    AttachKeeps(r, s.heap, s.toks, s.toks[e.id].tb, s.toks[e.id].i, e.c);
  }

  /** Over whole runs: a directory handle opened through a link found for `path` is, for as long as it is open, on a
      live table of the directory at which the full walk of `path` ends. */
  lemma HandleIsDirectory(r: Remote, before: seq<Step>, e: Step, path: string, run: seq<Step>)
    requires IsRun(r, InitTree(r), before)
    requires var s := After(r, InitTree(r), before);
             && Enabled(r, s, e) && (e.OpenDir? || e.OpenFetched?) && PathOf(s.toks[e.id]) == Some(path)
             && IsRun(r, Apply(r, s, e), run) && e.h in Apply(r, s, e).toks
    requires forall k :: 0 <= k < |run| ==> run[k] != MarkDir(e.h)
    ensures DirUrl(r, path).Some?
    ensures HandleOn(After(r, Apply(r, After(r, InitTree(r), before), e), run), e.h, DirUrl(r, path).value)
  {
    hide TreeInv, IsRun, After, Apply, InitTree, Lookup, HandleOn, DirUrl;
    TreeInit(r);
    RunKeeps(r, InitTree(r), before);
    var s := After(r, InitTree(r), before);
    OpenHandsOut(r, s, e, path);
    TreeStep(r, s, e);
    HandleStays(r, Apply(r, s, e), run, e.h, DirUrl(r, path).value);
  }

  /** A handle on "/" is on the table of the mounted directory. */
  lemma RootHandle(r: Remote, before: seq<Step>, h: Id, run: seq<Step>)
    requires IsRun(r, InitTree(r), before)
    requires var s := After(r, InitTree(r), before); Enabled(r, s, OpenRoot(h)) && IsRun(r, Apply(r, s, OpenRoot(h)), run)
    requires forall k :: 0 <= k < |run| ==> run[k] != MarkDir(h)
    ensures HandleOn(After(r, Apply(r, After(r, InitTree(r), before), OpenRoot(h)), run), h, r.rootUrl)
  {
    TreeInit(r);
    RunKeeps(r, InitTree(r), before);
    var s := After(r, InitTree(r), before);
    OpensRoot(r, s, h);
    TreeStep(r, s, OpenRoot(h));
    hide TreeInv, IsRun, After, Apply, InitTree, Enabled, HandleOn;
    HandleStays(r, Apply(r, s, OpenRoot(h)), run, h, r.rootUrl);
  }

  lemma OpensRoot(r: Remote, s: Tree, h: Id)
    requires TreeInv(r, s) && Enabled(r, s, OpenRoot(h))
    ensures HandleOn(Apply(r, s, OpenRoot(h)), h, r.rootUrl)
  {
    HasShape(r, s);
    hide InvHeap, Bad, UpOk, DownOk;
  }

  // ----- the cache of a link -----

  /** What `n` opens become after the step. */
  function Opens(n: int, e: Step, k: Id): int {
    if e.CacheAgain? && e.cache == k then n + 1 else if e.CacheClose? && e.cache == k then n - 1 else n
  }

  function OpensAfter(n: int, run: seq<Step>, k: Id): int
    decreases |run|
  {
    if run == [] then n else OpensAfter(Opens(n, run[0], k), run[1..], k)
  }

  /** The cache has not been closed as often as it was opened before the run's end. */
  predicate StaysInUse(n: int, run: seq<Step>, k: Id)
    decreases |run|
  {
    n > 0 && (run == [] || StaysInUse(Opens(n, run[0], k), run[1..], k))
  }

  /** Opening the cache of a link that has none makes one with one user, on the link the lookup found. */
  lemma CacheBegins(r: Remote, s: Tree, id: Id, run: seq<Step>)
    requires TreeInv(r, s) && Enabled(r, s, CacheFirst(id)) && id in s.toks && s.toks[id].Linked?
    requires IsRun(r, Apply(r, s, CacheFirst(id)), run) && StaysInUse(1, run, id)
    ensures var s' := After(r, Apply(r, s, CacheFirst(id)), run); var l, n := s.toks[id], OpensAfter(1, run, id);
            id in s'.toks && n > 0 && s'.toks[id] == OpenCache(l.path, l.tb, l.i, n)
  {
    hide TreeInv, IsRun, After, Apply, StaysInUse, Enabled;
    TreeStep(r, s, CacheFirst(id));
    FirstUser(r, s, id);
    CacheCounts(r, Apply(r, s, CacheFirst(id)), run, id);
  }

  lemma FirstUser(r: Remote, s: Tree, id: Id)
    requires Enabled(r, s, CacheFirst(id))
    ensures var l, s' := s.toks[id], Apply(r, s, CacheFirst(id)); id in s'.toks && s'.toks[id] == OpenCache(l.path, l.tb, l.i, 1)
  {
    hide Bad;
  }

  lemma InUse(r: Remote, s: Tree, k: Id)
    requires TreeInv(r, s) && k in s.toks && s.toks[k].OpenCache?
    ensures s.toks[k].opens > 0
  {
    OneTok(r, s, k);
    hide TreeInv, Lookup;
  }

  /** One open or close of the cache, or any other step. */
  lemma CacheStep(r: Remote, s: Tree, e: Step, k: Id)
    requires Enabled(r, s, e) && k in s.toks && s.toks[k].OpenCache? && s.toks[k].opens > 0
    ensures var o := s.toks[k]; var n := Opens(o.opens, e, k);
            && k in Apply(r, s, e).toks
            && Apply(r, s, e).toks[k] == (if n > 0 then o.(opens := n) else Linked(o.path, o.tb, o.i))
  {
    hide Bad, Descend, Attach, Pin, Claim;
  }

  /** The cache of a link counts its users: it is one open cache while it has been opened more often than closed, and
      at the last close it is given up and only the link remains. */
  lemma {:induction false} CacheCounts(r: Remote, s: Tree, run: seq<Step>, k: Id)
    requires TreeInv(r, s) && IsRun(r, s, run) && k in s.toks && s.toks[k].OpenCache? && StaysInUse(s.toks[k].opens, run, k)
    ensures var o := s.toks[k]; var s' := After(r, s, run);
            && k in s'.toks && OpensAfter(o.opens, run, k) > 0
            && s'.toks[k] == o.(opens := OpensAfter(o.opens, run, k))
    decreases |run|
  {
    hide TreeInv, Apply, Enabled;
    if run == [] {
    } else {
      TreeStep(r, s, run[0]);
      InUse(r, s, k);
      CacheStep(r, s, run[0], k);
      CacheCounts(r, Apply(r, s, run[0]), run[1..], k);
    }
  }
}
