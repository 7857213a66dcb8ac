/** The tree of directory listings as a step machine: tables are loaded during lookups with `link_lock`
    released, raced for, pinned, marked and freed. A step is one section under `link_lock`. */
module LinkTree {
  import opened Prelude

  /** What the server lists at a URL. `rootUrl` is the mounted directory. */
  datatype Entry = Entry(name: string, url: string)
  datatype Remote = Remote(rootUrl: string, listing: map<string, seq<Entry>>)

  type Tb = nat
  type Id = nat
  const ROOT: Tb := 0

  /** A link of a table, by position; the head link is not counted. */
  datatype Place = Place(tb: Tb, i: nat)

  /** A LinkTable: `next[i]` is the table loaded for its link `i`. */
  datatype Table = Table(url: string, refs: int, orphaned: bool, parent: Option<Place>, next: seq<Option<Tb>>)

  /** Where a full walk of the remote tree ends: entry `i` of the listing at `url`. */
  datatype Spot = Spot(url: string, i: nat)

  function Entries(r: Remote, url: string): seq<Entry> {
    if url in r.listing then r.listing[url] else []
  }

  // ----- path strings -----

  datatype Part = NoPath | Last(name: string) | More(name: string, rest: string)

  function SlashAt(s: string): nat
    ensures SlashAt(s) <= |s|
    ensures SlashAt(s) < |s| ==> s[SlashAt(s)] == '/'
    ensures forall k :: 0 <= k < SlashAt(s) ==> s[k] != '/'
  {
    if s == "" || s[0] == '/' then 0 else 1 + SlashAt(s[1..])
  }

  /** Skip one leading slash and drop one trailing slash. */
  function Trim(path: string): (r: string)
    ensures |r| <= |path|
  {
    var p := if path != "" && path[0] == '/' then path[1..] else path;
    if p != "" && p[|p| - 1] == '/' then p[..|p| - 1] else p
  }

  /** One level of the recursion: trim the path and cut it at the next slash. */
  function Split(path: string): (r: Part)
    ensures r.More? ==> |r.rest| < |path|
  {
    if path == "" then NoPath
    else
      var q := Trim(path);
      var k := SlashAt(q);
      if k == |q| then Last(q) else More(q[..k], q[k + 1..])
  }

  function Shorten(s: string, n: nat): string {
    if |s| <= n then s else s[..n]
  }

  /** The first link whose name agrees with `name` in the first NAME_MAX characters. */
  function FindEntry(es: seq<Entry>, name: string): (r: Option<nat>)
    ensures r.Some? ==> r.value < |es| && Shorten(es[r.value].name, NAME_MAX) == Shorten(name, NAME_MAX)
    ensures forall k :: 0 <= k < (if r.Some? then r.value else |es|) ==> Shorten(es[k].name, NAME_MAX) != Shorten(name, NAME_MAX)
  {
    if es == [] then None
    else if Shorten(es[0].name, NAME_MAX) == Shorten(name, NAME_MAX) then Some(0)
    else match FindEntry(es[1..], name)
         case Some(k) => Some(k + 1)
         case None => None
  }

  /** The reference: walk the whole remote tree, with every listing at hand. */
  function Walk(r: Remote, url: string, path: string): (s: Option<Spot>)
    ensures s.Some? ==> s.value.i < |Entries(r, s.value.url)|
    decreases |path|
  {
    match Split(path)
    case NoPath => None
    case Last(name) =>
      (match FindEntry(Entries(r, url), name)
       case None => None
       case Some(i) => Some(Spot(url, i)))
    case More(name, rest) =>
      match FindEntry(Entries(r, url), name)
      case None => None
      case Some(i) => Walk(r, Entries(r, url)[i].url, rest)
  }

  function Lookup(r: Remote, path: string): Option<Spot> {
    Walk(r, r.rootUrl, Shorten(path, PATH_MAX))
  }

  // ----- what refers to tables -----

  /** A thread's, a handle's or a cache's claim on a table. */
  datatype Token =
    | Looking(path: string, tb: Tb, i: nat, rest: string)  // path_to_Link, fetching the table of link i
    | Linked(path: string, tb: Tb, i: nat)                 // a link handed out by path_to_Link
    | Opening(path: string, tb: Tb, i: nat)                // path_to_LinkTable, fetching the table of link i
    | DirHandle(tb: Tb, slash: bool)                       // fs_opendir; `slash`: opened as "/"
    | Closing(tb: Tb)                                      // fs_releasedir, after marking
    | OpenCache(path: string, tb: Tb, i: nat, opens: nat)  // the cache of link i
    | Freeing(tb: Tb)                                      // freed a child of tb, about to release tb
    | Nothing(path: string)                                // path_to_Link returned NULL: no such link
    | Ended

  /** `fault` records a use of a freed table, or freeing one that is still needed. */
  datatype Tree = Tree(heap: map<Tb, Table>, toks: map<Id, Token>, fault: bool)

  function Pinned(tok: Token): Option<Tb> {
    match tok
    case Looking(_, tb, _, _) => Some(tb)
    case Linked(_, tb, _) => Some(tb)
    case Opening(_, tb, _) => Some(tb)
    case DirHandle(tb, _) => Some(tb)
    case Closing(tb) => Some(tb)
    case OpenCache(_, tb, _, _) => Some(tb)
    case Freeing(tb) => Some(tb)
    case Nothing(_) => None
    case Ended => None
  }

  // ----- changes of the heap -----

  function Bump(heap: map<Tb, Table>, t: Tb, d: int): map<Tb, Table> {
    if t in heap then heap[t := heap[t].(refs := heap[t].refs + d)] else heap
  }

  function SetOrphaned(heap: map<Tb, Table>, t: Tb, o: bool): map<Tb, Table> {
    if t in heap then heap[t := heap[t].(orphaned := o)] else heap
  }

  function NextOf(heap: map<Tb, Table>, t: Tb, i: nat): Option<Tb> {
    if t in heap && i < |heap[t].next| then heap[t].next[i] else None
  }

  function SetNext(heap: map<Tb, Table>, t: Tb, i: nat, c: Option<Tb>): map<Tb, Table> {
    if t in heap && i < |heap[t].next| then heap[t := heap[t].(next := heap[t].next[i := c])] else heap
  }

  function ChildUrl(r: Remote, heap: map<Tb, Table>, t: Tb, i: nat): string {
    if t in heap && i < |Entries(r, heap[t].url)| then Entries(r, heap[t].url)[i].url else ""
  }

  /** The new table of link `i` of `t`, if nobody was faster. */
  function Attach(r: Remote, heap: map<Tb, Table>, t: Tb, i: nat, c: Tb): map<Tb, Table> {
    if NextOf(heap, t, i).Some? then heap
    else
      var url := ChildUrl(r, heap, t, i);
      Bump(SetNext(heap, t, i, Some(c)), t, 1)[c := Table(url, 0, false, Some(Place(t, i)), seq(|Entries(r, url)|, _ => None))]
  }

  // ----- one locked walk over loaded tables -----

  datatype Outcome = Missing | Found(tb: Tb, i: nat) | Load(tb: Tb, i: nat, rest: string) | Dangling

  function Descend(r: Remote, heap: map<Tb, Table>, t: Tb, path: string): Outcome
    decreases |path|
  {
    if t !in heap then Dangling
    else
      var es := Entries(r, heap[t].url);
      match Split(path)
      case NoPath => Missing
      case Last(name) =>
        (match FindEntry(es, name)
         case None => Missing
         case Some(i) => Found(t, i))
      case More(name, rest) =>
        match FindEntry(es, name)
        case None => Missing
        case Some(i) =>
          match NextOf(heap, t, i)
          case None => Load(t, i, rest)
          case Some(c) => Descend(r, heap, c, rest)
  }

  /** The claim a walk ends with: on the link found, or on the table whose child must be fetched. */
  function Claim(path: string, o: Outcome): Token {
    match o
    case Missing => Nothing(path)
    case Found(t, i) => Linked(path, t, i)
    case Load(t, i, rest) => Looking(path, t, i, rest)
    case Dangling => Ended
  }

  function Pin(heap: map<Tb, Table>, tok: Token): map<Tb, Table> {
    match Pinned(tok)
    case Some(t) => Bump(heap, t, 1)
    case None => heap
  }

  // ----- steps -----

  /** LinkTable_unref: the last claim on an orphaned table frees it; its parent is released next. */
  predicate Frees(heap: map<Tb, Table>, t: Tb) {
    t in heap && heap[t].refs == 1 && heap[t].orphaned
  }

  function Unref(s: Tree, id: Id, t: Tb): Tree {
    if Frees(s.heap, t) then
      match s.heap[t].parent
      case Some(Place(q, i)) => s.(heap := SetNext(s.heap - {t}, q, i, None), toks := s.toks[id := Freeing(q)])
      case None => s.(heap := s.heap - {t}, toks := s.toks[id := Ended])
    else s.(heap := Bump(s.heap, t, -1), toks := s.toks[id := Ended])
  }

  datatype Step =
    | Begin(id: Id, path: string)
    | Fetched(id: Id, c: Tb)
    | FetchFailed(id: Id)
    | Release(id: Id)
    | OpenRoot(id: Id)
    | OpenDir(id: Id, h: Id)
    | OpenFetched(id: Id, h: Id, c: Tb)
    | OpenFailed(id: Id)
    | MarkDir(id: Id)
    | CloseDir(id: Id)
    | CacheFirst(id: Id)
    | CacheAgain(id: Id, cache: Id)
    | CacheClose(cache: Id)
    | FreeParent(id: Id)

  ghost predicate Enabled(r: Remote, s: Tree, e: Step) {
    match e
    case Begin(id, path) => id !in s.toks
    case Fetched(id, c) =>
      id in s.toks && s.toks[id].Looking? && c !in s.heap && ChildUrl(r, s.heap, s.toks[id].tb, s.toks[id].i) in r.listing
    case FetchFailed(id) => id in s.toks && s.toks[id].Looking?
    case Release(id) => id in s.toks && s.toks[id].Linked?
    case OpenRoot(id) => id !in s.toks
    case OpenDir(id, h) => id in s.toks && s.toks[id].Linked? && h !in s.toks
    case OpenFetched(id, h, c) =>
      && id in s.toks && s.toks[id].Opening? && h !in s.toks && c !in s.heap
      && ChildUrl(r, s.heap, s.toks[id].tb, s.toks[id].i) in r.listing
    case OpenFailed(id) => id in s.toks && s.toks[id].Opening?
    case MarkDir(id) => id in s.toks && s.toks[id].DirHandle?
    case CloseDir(id) => id in s.toks && s.toks[id].Closing?
    case CacheFirst(id) =>
      && id in s.toks && s.toks[id].Linked?
      && !exists k :: k in s.toks && s.toks[k].OpenCache? && s.toks[k].tb == s.toks[id].tb && s.toks[k].i == s.toks[id].i
    case CacheAgain(id, k) =>
      && id in s.toks && s.toks[id].Linked? && k in s.toks && s.toks[k].OpenCache?
      && s.toks[k].tb == s.toks[id].tb && s.toks[k].i == s.toks[id].i
    case CacheClose(k) => k in s.toks && s.toks[k].OpenCache?
    case FreeParent(id) => id in s.toks && s.toks[id].Freeing?
  }

  /** A walk ends: the claim it began with is dropped, the one it ends with is taken. */
  function Settle(r: Remote, heap: map<Tb, Table>, toks: map<Id, Token>, id: Id, path: string, t: Tb, rest: string): Tree {
    var tok := Claim(path, Descend(r, heap, t, rest));
    Tree(Pin(heap, tok), toks[id := tok], false)
  }

  function GiveHandle(heap: map<Tb, Table>, toks: map<Id, Token>, h: Id, c: Tb, slash: bool): Tree {
    Tree(SetOrphaned(Bump(heap, c, 1), c, false), toks[h := DirHandle(c, slash)], false)
  }

  ghost function Effect(r: Remote, s: Tree, e: Step): Tree
    requires Enabled(r, s, e)
  {
    match e
    case Begin(id, path) => Settle(r, s.heap, s.toks, id, path, ROOT, Shorten(path, PATH_MAX))
    case Fetched(id, c) =>
      var k := s.toks[id];
      var heap := Attach(r, s.heap, k.tb, k.i, c);
      (match NextOf(heap, k.tb, k.i)
       case Some(n) => Settle(r, Bump(heap, k.tb, -1), s.toks, id, k.path, n, k.rest)
       case None => s)
    case FetchFailed(id) => Unref(s, id, s.toks[id].tb)
    case Release(id) => Unref(s, id, s.toks[id].tb)
    case OpenRoot(id) => GiveHandle(s.heap, s.toks, id, ROOT, true)
    case OpenDir(id, h) =>
      var k := s.toks[id];
      (match NextOf(s.heap, k.tb, k.i)
       case Some(c) => GiveHandle(s.heap, s.toks, h, c, false)
       case None => s.(toks := s.toks[id := Opening(k.path, k.tb, k.i)]))
    case OpenFetched(id, h, c) =>
      var k := s.toks[id];
      var heap := Attach(r, s.heap, k.tb, k.i, c);
      (match NextOf(heap, k.tb, k.i)
       case Some(n) => GiveHandle(heap, s.toks[id := Linked(k.path, k.tb, k.i)], h, n, false)
       case None => s)
    case OpenFailed(id) => s.(toks := s.toks[id := Linked(s.toks[id].path, s.toks[id].tb, s.toks[id].i)])
    case MarkDir(id) =>
      var k := s.toks[id];
      s.(heap := if k.slash then s.heap else SetOrphaned(s.heap, k.tb, true), toks := s.toks[id := Closing(k.tb)])
    case CloseDir(id) => Unref(s, id, s.toks[id].tb)
    case CacheFirst(id) => s.(toks := s.toks[id := OpenCache(s.toks[id].path, s.toks[id].tb, s.toks[id].i, 1)])
    case CacheAgain(id, k) => s.(toks := s.toks[k := s.toks[k].(opens := s.toks[k].opens + 1)])
    case CacheClose(k) =>
      var o := s.toks[k];
      if o.opens > 1 then s.(toks := s.toks[k := o.(opens := o.opens - 1)])
      else s.(toks := s.toks[k := Linked(o.path, o.tb, o.i)])
    case FreeParent(id) => Unref(s, id, s.toks[id].tb)
  }

  /** The claim the step starts from. */
  function Holds(s: Tree, e: Step): Option<Token> {
    var id := if e.CacheClose? then e.cache else e.id;
    if id in s.toks then Some(s.toks[id]) else None
  }

  predicate Unrefs(e: Step) {
    e.FetchFailed? || e.Release? || e.CloseDir? || e.FreeParent?
  }

  /** The step starts from a claim on a freed table, or without a root. */
  ghost predicate BadClaim(s: Tree, e: Step) {
    || (Holds(s, e).Some? && Pinned(Holds(s, e).value).Some? && Pinned(Holds(s, e).value).value !in s.heap)
    || ROOT !in s.heap
  }

  /** The walk meets a pointer to a freed table. */
  ghost predicate BadWalk(r: Remote, s: Tree, e: Step)
    requires Enabled(r, s, e)
  {
    || (e.Begin? && Descend(r, s.heap, ROOT, Shorten(e.path, PATH_MAX)).Dangling?)
    || (e.Fetched? && e.id in Effect(r, s, e).toks && Effect(r, s, e).toks[e.id].Ended?)
  }

  /** The step hands out a freed table. */
  ghost predicate BadHandle(r: Remote, s: Tree, e: Step)
    requires Enabled(r, s, e)
  {
    (e.OpenDir? || e.OpenFetched?) && e.h in Effect(r, s, e).toks && Effect(r, s, e).toks[e.h].DirHandle?
    && Effect(r, s, e).toks[e.h].tb !in Effect(r, s, e).heap
  }

  /** The step frees the root, a table with a loaded child or a table somebody else claims. */
  ghost predicate BadFree(s: Tree, e: Step) {
    Unrefs(e) && e.id in s.toks && Pinned(s.toks[e.id]).Some?
    && var t := Pinned(s.toks[e.id]).value; Frees(s.heap, t) && Needed(s, e.id, t)
  }

  ghost predicate Bad(r: Remote, s: Tree, e: Step)
    requires Enabled(r, s, e)
  {
    BadClaim(s, e) || BadWalk(r, s, e) || BadHandle(r, s, e) || BadFree(s, e)
  }

  /** Something other than the claim `id` still refers to the table. */
  ghost predicate Needed(s: Tree, id: Id, t: Tb) {
    || t == ROOT
    || (exists k :: k in s.toks && k != id && Pinned(s.toks[k]) == Some(t))
    || (exists c :: c in s.heap && s.heap[c].parent.Some? && s.heap[c].parent.value.tb == t)
    || (t in s.heap && exists i :: 0 <= i < |s.heap[t].next| && s.heap[t].next[i].Some?)
  }

  ghost function Apply(r: Remote, s: Tree, e: Step): Tree
    requires Enabled(r, s, e)
  {
    Effect(r, s, e).(fault := s.fault || Bad(r, s, e))
  }

  function InitTree(r: Remote): Tree {
    Tree(map[ROOT := Table(r.rootUrl, 0, false, None, seq(|Entries(r, r.rootUrl)|, _ => None))], map[], false)
  }
}
