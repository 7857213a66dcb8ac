/** The segment cache as a step machine: any number of readers, background downloaders and closers
    share one open cache. A step is one section under `dl_lock`, one acquisition of `w_lock` with the
    work done under it, or one semaphore operation; every thread carries its program counter. */
module CacheState {
  import opened Prelude
  import opened Blocks

  type Tid = nat
  type Aid = nat
  type Hid = nat

  /** An ActiveDownload node. `ts` names the thread whose transfer structure it points at. */
  datatype Tracker = Tracker(blk: nat, refs: int, unlinked: bool, ts: Option<Tid>)

  /** The allocated trackers and, in list order, those linked from the cache. */
  datatype Table = Table(heap: map<Aid, Tracker>, list: seq<Aid>)

  datatype Status = Ok | Retry | Fatal

  /** A TransferStruct, which lives on its thread's stack while that thread is inside a download. */
  datatype Ts = Ts(data: seq<byte>, on: bool, ad: Option<Aid>, status: Status)

  /** The network-wide transfer lock, and the write callback running under it. */
  datatype XLock = XFree | XHeld(t: Tid) | XCallback(t: Tid, to: Tid, n: nat)

  /** One Cache_read call: where it starts, how many bytes a plain read would return, what has been
      delivered, and whether the request was valid and nothing has failed so far. */
  datatype Call = Call(h: Hid, off: nat, want: nat, got: seq<byte>, clean: bool)

  datatype Pc =
    // inside one Cache_read_segment
    | Check | Find | TrySlot | Launch | BackOff
    | Register(ahead: bool) | Spawn(ahead: bool)
    | Asleep(a: Aid) | Recheck | SyncAdd
    // inside one download, by a reader or in the background
    | Attach | AddHandle | Transfer | Detach | Store(recv: int, data: seq<byte>)
    | Untrack
    // prefetch of the following block, then the end of the piece and of the call
    | Peek | TryAhead | LockAhead | FindAhead(miss: bool) | BackOffAhead | EndPiece
    | Done(n: int)
    // tail of a background download
    | BgUntrack | BgPost
    // Cache_close and Cache_free
    | CloseWant | CloseTake(k: nat) | CloseFree | CloseList | CloseWait | CloseDestroy | CloseDone

  /** Whose thread it is: a FUSE reader inside one Cache_read, a background download of one block, or
      a thread inside Cache_close. */
  datatype Role = Reader(call: Call) | Bg(blk: nat) | Closer

  /** `ret` and `buf` hold what Cache_read_segment is about to return for the current piece. */
  datatype Local = Local(role: Role, pc: Pc, ret: int, buf: seq<byte>)

  /** The bitmap, the data file, the blocks stored since opening, and what closing did to the bitmap. */
  datatype File = File(seg: seq<bool>, disk: seq<byte>, log: seq<nat>, segFreed: bool, saved: Option<seq<bool>>)

  /** Trackers, and the transfer structures of the threads that are inside a download. */
  datatype Mem = Mem(tb: Table, ts: map<Tid, Ts>)

  datatype Life = Life(shutting: bool, opens: int, handles: set<Hid>, linked: bool, gone: bool)

  datatype Locks = Locks(cf: Option<Tid>, w: Option<Tid>, dl: Option<Tid>, x: XLock)

  /** `sig` holds the sleepers that have been woken and now contend for `dl_lock`. */
  datatype State = State(
    file: File, mem: Mem, life: Life, lk: Locks, waiters: int, sem: int,
    thr: map<Tid, Local>, sig: set<Tid>, fault: bool)

  // ----- the current piece of a read -----

  function Start(c: Call): nat {
    c.off + |c.got|
  }

  function Cur(p: Params, l: Local): nat
    requires p.blksz > 0
  {
    match l.role
    case Reader(c) => BlockOf(p, Start(c))
    case Bg(b) => b
    case Closer => 0
  }

  function PieceLen(p: Params, c: Call): int
    requires p.blksz > 0
  {
    PieceEnd(p, Start(c), c.off + c.want) - Start(c)
  }

  /** Distance of the piece from the start of its block. */
  function Skip(p: Params, c: Call): nat
    requires p.blksz > 0
  {
    BlockBounds(p, Start(c));
    Start(c) - Lo(p, BlockOf(p, Start(c)))
  }

  /** Bytes of the block a waiter needs before its piece is complete. */
  function Need(p: Params, c: Call): int
    requires p.blksz > 0
  {
    Skip(p, c) + PieceLen(p, c)
  }

  // ----- what a program counter says about its thread -----

  predicate Active(l: Local) {
    !l.pc.Done? && !l.pc.CloseDone?
  }

  predicate HoldsW(l: Local) {
    && l.role.Reader?
    && match l.pc
       case Find | TrySlot | Launch | BackOff | SyncAdd | Untrack | FindAhead(_) => true
       case Register(ahead) => !ahead
       case Spawn(ahead) => !ahead
       case _ => false
  }

  /** The thread owns a background slot of the semaphore. */
  predicate HasSlot(l: Local) {
    || (l.role.Bg? && Active(l))
    || (l.role.Reader? && (l.pc.Launch? || l.pc.BackOff? || l.pc.Register? || l.pc.Spawn?
                           || l.pc.LockAhead? || l.pc.FindAhead? || l.pc.BackOffAhead?))
  }

  /** Slots the closing thread has taken; it never gives them back. */
  function Taken(p: Params, l: Local): nat {
    if !l.role.Closer? then 0
    else if l.pc.CloseTake? then l.pc.k
    else if HoldsCf(l) then p.workers
    else 0
  }

  predicate InDownload(pc: Pc) {
    pc.Attach? || pc.AddHandle? || pc.Transfer? || pc.Detach? || pc.Store?
  }

  /** The block whose tracker this thread must still remove from the list. */
  function Own(p: Params, l: Local): Option<nat>
    requires p.blksz > 0
  {
    match l.role
    case Reader(_) =>
      if l.pc.Register? || l.pc.Spawn? then Some(if l.pc.ahead then Cur(p, l) + 1 else Cur(p, l))
      else if InDownload(l.pc) || l.pc.Untrack? then Some(Cur(p, l))
      else None
    case Bg(b) => if l.pc.BgPost? || l.pc.Done? then None else Some(b)
    case Closer => None
  }

  /** The thread owns a tracker and has not yet had its chance to store the block. */
  predicate BeforeStore(l: Local) {
    !l.role.Closer? && (InDownload(l.pc) || (l.role.Reader? && (l.pc.Register? || l.pc.Spawn?)))
  }

  /** The thread is counted in `waiters` as a registered downloader. */
  predicate Registered(l: Local) {
    match l.role
    case Reader(_) => l.pc.Spawn? || InDownload(l.pc) || l.pc.Untrack?
    case Bg(_) => !l.pc.BgPost? && !l.pc.Done?
    case Closer => false
  }

  function WaitOn(l: Local): Option<Aid> {
    if l.role.Reader? && l.pc.Asleep? then Some(l.pc.a) else None
  }

  /** The thread's transfer structure is on its stack and may be attached to a tracker. */
  predicate HasTs(l: Local) {
    !l.role.Closer? && (l.pc.AddHandle? || l.pc.Transfer? || l.pc.Detach?)
  }

  predicate HoldsCf(l: Local) {
    && l.role.Closer?
    && (l.pc.CloseTake? || l.pc.CloseFree? || l.pc.CloseList? || l.pc.CloseWait? || l.pc.CloseDestroy?)
  }

  predicate Sleeps(l: Local) {
    (l.role.Reader? && l.pc.Asleep?) || (l.role.Closer? && l.pc.CloseWait?)
  }

  /** The next step of the thread is a section under `dl_lock`. A sleeper wants the lock once woken. */
  predicate PcWantsDl(l: Local) {
    match l.pc
    case Find | Launch | Register(_) | Asleep(_) | SyncAdd | Attach | Detach | Untrack | FindAhead(_) => true
    case BgUntrack | CloseList | CloseWait => true
    case _ => false
  }

  predicate WantsDl(s: State, t: Tid) {
    && t in s.thr
    && ((PcWantsDl(s.thr[t]) && (Sleeps(s.thr[t]) ==> t in s.sig)) || (s.lk.x.XCallback? && s.lk.x.t == t))
  }

  // ----- trackers -----

  function At(tb: Table, a: Aid): Tracker {
    if a in tb.heap then tb.heap[a] else Tracker(0, 0, true, None)
  }

  function FindIn(heap: map<Aid, Tracker>, list: seq<Aid>, b: nat): Option<Aid> {
    if list == [] then None
    else if list[0] in heap && heap[list[0]].blk == b then Some(list[0])
    else FindIn(heap, list[1..], b)
  }

  /** ActiveDownload_find. */
  function FindTracker(tb: Table, b: nat): Option<Aid> {
    FindIn(tb.heap, tb.list, b)
  }

  /** ActiveDownload_add: the new node goes first. */
  function AddTracker(tb: Table, a: Aid, b: nat): Table {
    Table(tb.heap[a := Tracker(b, 1, false, None)], [a] + tb.list)
  }

  function RefTracker(tb: Table, a: Aid): Table {
    tb.(heap := tb.heap[a := At(tb, a).(refs := At(tb, a).refs + 1)])
  }

  /** ActiveDownload_unref: the node is freed when its last reference goes. */
  function UnrefTracker(tb: Table, a: Aid): Table {
    var n := At(tb, a);
    if n.refs == 1 then tb.(heap := tb.heap - {a}) else tb.(heap := tb.heap[a := n.(refs := n.refs - 1)])
  }

  /** ActiveDownload_remove. */
  function RemoveTracker(tb: Table, b: nat): Table {
    match FindTracker(tb, b)
    case None => tb
    case Some(a) => UnrefTracker(Table(tb.heap[a := At(tb, a).(unlinked := true)], RemoveFirst(tb.list, a)), a)
  }

  function AttachTs(tb: Table, a: Aid, t: Tid): Table {
    var n := At(tb, a);
    tb.(heap := tb.heap[a := n.(ts := Some(t), refs := n.refs + 1)])
  }

  /** Link_download_finish_transfer: forget the transfer, then drop the reference it held. */
  function DetachTs(tb: Table, b: nat, t: Tid, ad: Option<Aid>): Table {
    var tb1 := match FindTracker(tb, b)
               case Some(a) => if At(tb, a).ts == Some(t) then tb.(heap := tb.heap[a := At(tb, a).(ts := None)]) else tb
               case None => tb;
    match ad
    case Some(a) => UnrefTracker(tb1, a)
    case None => tb1
  }

  /** The loop of Cache_free over the list: unlink, wake and release every tracker. */
  function ReleaseAll(tb: Table): Table {
    Table(map a | a in tb.heap && !(a in tb.list && tb.heap[a].refs == 1)
          :: if a in tb.list then tb.heap[a].(unlinked := true, refs := tb.heap[a].refs - 1) else tb.heap[a],
          [])
  }

  function WaitersOn(thr: map<Tid, Local>, a: Aid): set<Tid> {
    set t | t in thr && WaitOn(thr[t]) == Some(a)
  }

  function Waiting(thr: map<Tid, Local>): set<Tid> {
    set t | t in thr && WaitOn(thr[t]).Some?
  }

  function Downloaders(thr: map<Tid, Local>): set<Tid> {
    set t | t in thr && Registered(thr[t])
  }

  function SlotHolders(thr: map<Tid, Local>): set<Tid> {
    set t | t in thr && HasSlot(thr[t])
  }

  function ClosersAsleep(thr: map<Tid, Local>): set<Tid> {
    set t | t in thr && thr[t].role.Closer? && thr[t].pc.CloseWait?
  }

  function AttachedTo(ts: map<Tid, Ts>, a: Aid): set<Tid> {
    set t | t in ts && ts[t].ad == Some(a)
  }

  // ----- the bitmap and the data file -----

  /** Seg_exist */
  predicate Exists(seg: seq<bool>, b: nat) {
    b < |seg| && seg[b]
  }

  /** Seg_set with 1 */
  function Mark(seg: seq<bool>, b: nat): seq<bool> {
    if b < |seg| then seg[b := true] else seg
  }

  /** Data_read of `len > 0` bytes; `io` is negative when the seek fails, else the bytes fread can supply. */
  function ReadData(p: Params, disk: seq<byte>, start: nat, len: int, io: int): (r: (int, seq<byte>)) {
    if start >= |p.remote| || len <= 0 then (0, [])
    else if io < 0 then (-EIO, [])
    else
      var k := Max(0, Min(Min(io, Min(len, |p.remote| - start)), |disk| - start));
      (k, if start <= |disk| then disk[start..start + k] else [])
  }

  function WriteBytes(disk: seq<byte>, off: nat, bytes: seq<byte>): seq<byte> {
    if off + |bytes| <= |disk| then disk[..off] + bytes + disk[off + |bytes|..]
    else if off <= |disk| then disk[..off] + bytes
    else disk + seq(off - |disk|, _ => 0) + bytes
  }

  /** Data_write: `io` is the number of bytes fwrite accepts, negative when the seek fails. */
  function WriteData(disk: seq<byte>, off: nat, bytes: seq<byte>, io: int): (int, seq<byte>) {
    if bytes == [] then (-EINVAL, disk)
    else if io < 0 then (-EIO, disk)
    else var k := Min(io, |bytes|); (k, WriteBytes(disk, off, bytes[..k]))
  }

  // ----- steps of a reader -----

  function CloserPc(pc: Pc): Local {
    Local(Closer, pc, 0, [])
  }

  /** Cache_waiter_decrement wakes the closer when the last waiter leaves during a shutdown. */
  function WakeCloser(s: State, left: int): set<Tid> {
    if s.life.shutting && left == 0 then s.sig + ClosersAsleep(s.thr) else s.sig
  }

  /** The broadcast inside ActiveDownload_remove, then Cache_waiter_decrement. */
  function WakeAll(s: State, b: nat): set<Tid> {
    match FindTracker(s.mem.tb, b)
    case Some(a) => WakeCloser(s, s.waiters - 1) + WaitersOn(s.thr, a)
    case None => WakeCloser(s, s.waiters - 1)
  }

  /** The thread after Data_read has served its piece from the data file. */
  function ServedFromDisk(p: Params, l: Local, disk: seq<byte>, io: int): Local
    requires l.role.Reader? && p.blksz > 0
  {
    var c := l.role.call;
    var (n, bytes) := ReadData(p, disk, Start(c), PieceLen(p, c), io);
    l.(ret := n, buf := bytes, pc := Peek, role := Reader(c.(clean := c.clean && n == PieceLen(p, c))))
  }

  /** Take `w_lock` and look at the bitmap; `next` is where the search goes on when the block is missing. */
  function DoCheck(p: Params, s: State, t: Tid, io: int, next: Pc): State
    requires t in s.thr && s.thr[t].role.Reader? && p.blksz > 0
  {
    var l := s.thr[t];
    if Exists(s.file.seg, Cur(p, l)) then s.(thr := s.thr[t := ServedFromDisk(p, l, s.file.disk, io)])
    else s.(thr := s.thr[t := l.(pc := next)], lk := s.lk.(w := Some(t)))
  }

  /** The bytes a waiter may copy out of the transfer its tracker points at, when enough have arrived. */
  function EarlyCopy(p: Params, mem: Mem, c: Call, a: Aid): Option<seq<byte>>
    requires p.blksz > 0
  {
    var u := At(mem.tb, a).ts;
    if u.Some? && u.value in mem.ts && PieceLen(p, c) > 0 && |mem.ts[u.value].data| >= Need(p, c)
    then Some(mem.ts[u.value].data[Skip(p, c)..Need(p, c)])
    else None
  }

  /** One pass of the wait loop: copy and leave, sleep on, or leave because the tracker or the cache went away. */
  function AfterWait(p: Params, mem: Mem, shutting: bool, l: Local, a: Aid): Local
    requires l.role.Reader? && p.blksz > 0
  {
    if !shutting && !At(mem.tb, a).unlinked then
      match EarlyCopy(p, mem, l.role.call, a)
      case Some(bytes) => l.(ret := |bytes|, buf := bytes, pc := Peek)
      case None => l.(pc := Asleep(a))
    else if shutting then l.(ret := -EIO, buf := [], pc := Done(-EIO), role := Reader(l.role.call.(clean := false)))
    else l.(pc := Recheck)
  }

  /** Find the tracker of the block: join its waiters, or go on to start a download. */
  function DoFind(p: Params, s: State, t: Tid): State
    requires t in s.thr && s.thr[t].role.Reader? && p.blksz > 0
  {
    var l := s.thr[t];
    match FindTracker(s.mem.tb, Cur(p, l))
    case None => s.(thr := s.thr[t := l.(pc := TrySlot)], lk := s.lk.(dl := None))
    case Some(a) =>
      var l' := AfterWait(p, s.mem, s.life.shutting, l, a);
      var s1 := s.(thr := s.thr[t := l'], lk := s.lk.(dl := None, w := None));
      if l'.pc.Asleep? then s1.(waiters := s.waiters + 1, mem := s.mem.(tb := RefTracker(s.mem.tb, a)), sig := s.sig - {t})
      else s1.(sig := WakeCloser(s, s.waiters))
  }

  /** A woken waiter runs the loop again. */
  function DoWake(p: Params, s: State, t: Tid): State
    requires t in s.thr && s.thr[t].role.Reader? && s.thr[t].pc.Asleep? && p.blksz > 0
  {
    var a := s.thr[t].pc.a;
    var l' := AfterWait(p, s.mem, s.life.shutting, s.thr[t], a);
    var s1 := s.(thr := s.thr[t := l'], lk := s.lk.(dl := None));
    if l'.pc.Asleep? then s1.(sig := s.sig - {t})
    else s1.(waiters := s.waiters - 1, sig := WakeCloser(s, s.waiters - 1) - {t}, mem := s.mem.(tb := UnrefTracker(s.mem.tb, a)))
  }

  function DoTrySlot(s: State, t: Tid, yes: Pc, no: Pc): State
    requires t in s.thr
  {
    if s.sem > 0 then s.(thr := s.thr[t := s.thr[t].(pc := yes)], sem := s.sem - 1)
    else s.(thr := s.thr[t := s.thr[t].(pc := no)])
  }

  function DoLaunch(p: Params, s: State, t: Tid, a: Aid): State
    requires t in s.thr && p.blksz > 0
  {
    var b := Cur(p, s.thr[t]);
    match FindTracker(s.mem.tb, b)
    case None => s.(thr := s.thr[t := s.thr[t].(pc := Register(false))], lk := s.lk.(dl := None),
                    mem := s.mem.(tb := AddTracker(s.mem.tb, a, b)))
    case Some(_) => s.(thr := s.thr[t := s.thr[t].(pc := BackOff)], lk := s.lk.(dl := None))
  }

  function DoRegister(s: State, t: Tid): State
    requires t in s.thr && s.thr[t].pc.Register?
  {
    s.(thr := s.thr[t := s.thr[t].(pc := Spawn(s.thr[t].pc.ahead))], lk := s.lk.(dl := None), waiters := s.waiters + 1)
  }

  /** The new background thread downloads the block its launcher added a tracker for. */
  function Child(p: Params, l: Local): Local
    requires p.blksz > 0 && l.pc.Spawn?
  {
    Local(Bg(if l.pc.ahead then Cur(p, l) + 1 else Cur(p, l)), Attach, 0, [])
  }

  function DoSpawn(p: Params, s: State, t: Tid, bg: Tid): State
    requires t in s.thr && s.thr[t].pc.Spawn? && p.blksz > 0
  {
    var l := s.thr[t];
    var thr := s.thr[bg := Child(p, l)];
    if l.pc.ahead then s.(thr := thr[t := l.(pc := EndPiece)])
    else s.(thr := thr[t := l.(pc := Check)], lk := s.lk.(w := None))
  }

  function DoSyncAdd(p: Params, s: State, t: Tid, a: Aid): State
    requires t in s.thr && p.blksz > 0
  {
    var b := Cur(p, s.thr[t]);
    var lk := s.lk.(dl := None, w := None);
    match FindTracker(s.mem.tb, b)
    case Some(_) => s.(thr := s.thr[t := s.thr[t].(pc := Check)], lk := lk)
    case None => s.(thr := s.thr[t := s.thr[t].(pc := Attach)], lk := lk, waiters := s.waiters + 1,
                    mem := s.mem.(tb := AddTracker(s.mem.tb, a, b)))
  }

  predicate Storable(p: Params, b: nat, recv: int)
    requires p.blksz > 0
  {
    recv == p.blksz || IsTail(p, b)
  }

  /** Data_write, then Seg_set if every byte was written. */
  function StoreBlock(p: Params, f: File, b: nat, data: seq<byte>, io: int): File {
    var (k, disk) := WriteData(f.disk, Lo(p, b), data, io);
    if k == |data| then f.(disk := disk, seg := Mark(f.seg, b), log := if b < |f.seg| then f.log + [b] else f.log)
    else f.(disk := disk)
  }

  /** The download came back with a usable block. */
  predicate Usable(p: Params, l: Local)
    requires l.role.Reader? && l.pc.Store? && p.blksz > 0
  {
    && l.pc.recv >= 0
    && Storable(p, Cur(p, l), |l.pc.data|)
    && |l.pc.data| >= Need(p, l.role.call)
  }

  /** The reader's answer after its own download. */
  function AfterStore(p: Params, l: Local): Local
    requires l.role.Reader? && l.pc.Store? && p.blksz > 0
  {
    var c := l.role.call;
    if !Usable(p, l) then
      l.(pc := Untrack, ret := if l.pc.recv < 0 then l.pc.recv else -EIO, buf := [], role := Reader(c.(clean := false)))
    else if PieceLen(p, c) < 0 || Need(p, c) > p.blksz then
      l.(pc := Untrack, ret := 0, buf := [], role := Reader(c.(clean := false)))
    else
      l.(pc := Untrack, ret := PieceLen(p, c), buf := l.pc.data[Skip(p, c)..Need(p, c)])
  }

  function DoStore(p: Params, s: State, t: Tid, io: int): State
    requires t in s.thr && s.thr[t].role.Reader? && s.thr[t].pc.Store? && p.blksz > 0
  {
    var l := s.thr[t];
    var s1 := s.(thr := s.thr[t := AfterStore(p, l)], lk := s.lk.(w := Some(t)));
    if Usable(p, l) then s1.(file := StoreBlock(p, s.file, Cur(p, l), l.pc.data, io)) else s1
  }

  function DoUntrack(p: Params, s: State, t: Tid): State
    requires t in s.thr && p.blksz > 0
  {
    var l := s.thr[t];
    s.(thr := s.thr[t := l.(pc := if l.ret < 0 then EndPiece else Peek)], lk := s.lk.(dl := None, w := None),
       waiters := s.waiters - 1, sig := WakeAll(s, Cur(p, l)),
       mem := s.mem.(tb := RemoveTracker(s.mem.tb, Cur(p, l))))
  }

  // ----- prefetch, end of a piece and end of a call -----

  predicate HasNext(p: Params, l: Local)
    requires p.blksz > 0
  {
    Lo(p, Cur(p, l)) + p.blksz < |p.remote|
  }

  function DoPeek(p: Params, s: State, t: Tid): State
    requires t in s.thr && p.blksz > 0
  {
    var l := s.thr[t];
    var miss := HasNext(p, l) && !Exists(s.file.seg, Cur(p, l) + 1);
    s.(thr := s.thr[t := l.(pc := if miss then TryAhead else EndPiece)])
  }

  function DoLockAhead(p: Params, s: State, t: Tid): State
    requires t in s.thr && p.blksz > 0
  {
    var l := s.thr[t];
    s.(thr := s.thr[t := l.(pc := FindAhead(!Exists(s.file.seg, Cur(p, l) + 1)))], lk := s.lk.(w := Some(t)))
  }

  function DoFindAhead(p: Params, s: State, t: Tid, a: Aid): State
    requires t in s.thr && s.thr[t].pc.FindAhead? && p.blksz > 0
  {
    var l := s.thr[t];
    var b := Cur(p, l) + 1;
    var lk := s.lk.(dl := None, w := None);
    if l.pc.miss && FindTracker(s.mem.tb, b).None? then
      s.(thr := s.thr[t := l.(pc := Register(true))], lk := lk, mem := s.mem.(tb := AddTracker(s.mem.tb, a, b)))
    else s.(thr := s.thr[t := l.(pc := BackOffAhead)], lk := lk)
  }

  function DoBackOff(s: State, t: Tid): State
    requires t in s.thr
  {
    s.(thr := s.thr[t := s.thr[t].(pc := if s.thr[t].pc.BackOff? then SyncAdd else EndPiece)], sem := s.sem + 1)
  }

  /** The body of Cache_read's loop after Cache_read_segment has answered. */
  function AfterPiece(p: Params, l: Local): Local
    requires l.role.Reader? && p.blksz > 0
  {
    var c := l.role.call;
    if l.ret < 0 then l.(pc := Done(l.ret))
    else
      var c' := c.(got := c.got + l.buf);
      if l.ret < PieceLen(p, c) || |c'.got| >= c.want then l.(role := Reader(c'), pc := Done(|c'.got|))
      else l.(role := Reader(c'), pc := Check)
  }

  /** What a plain read of the remote file would return. */
  function PlainLength(p: Params, off: int, req: int): nat {
    if off < 0 || off >= |p.remote| || req < 0 then 0 else Min(req, |p.remote| - off)
  }

  /** Entry of Cache_read. */
  function NewReader(p: Params, h: Hid, off: int, req: int): Local {
    var want := PlainLength(p, off, req);
    Local(Reader(Call(h, Max(off, 0), want, [], req >= 0)),
          if req < 0 then Done(-EINVAL) else if want == 0 then Done(0) else Check, 0, [])
  }

  // ----- steps of a download -----

  function DoAttach(p: Params, s: State, t: Tid): State
    requires t in s.thr && p.blksz > 0
  {
    var thr := s.thr[t := s.thr[t].(pc := AddHandle)];
    var lk := s.lk.(dl := None);
    match FindTracker(s.mem.tb, Cur(p, s.thr[t]))
    case Some(a) =>
      s.(thr := thr, lk := lk, sig := s.sig + WaitersOn(s.thr, a),
         mem := Mem(AttachTs(s.mem.tb, a, t), s.mem.ts[t := Ts([], true, Some(a), Ok)]))
    case None => s.(thr := thr, lk := lk, mem := s.mem.(ts := s.mem.ts[t := Ts([], true, None, Ok)]))
  }

  /** Link_download after the transfer: retry, give up, or hand the bytes over. */
  function AfterTransfer(p: Params, l: Local, u: Ts): Pc
    requires p.blksz > 0
  {
    if u.status.Retry? || (u.status.Ok? && |u.data| != Size(p, Cur(p, l))) then Attach
    else if u.status.Ok? then Store(|u.data|, u.data)
    else if l.role.Bg? then BgUntrack
    else Store(-ENOENT, [])
  }

  function DoDetach(p: Params, s: State, t: Tid): State
    requires t in s.thr && t in s.mem.ts && p.blksz > 0
  {
    var l := s.thr[t];
    var u := s.mem.ts[t];
    s.(thr := s.thr[t := l.(pc := AfterTransfer(p, l, u))], lk := s.lk.(dl := None),
       mem := Mem(DetachTs(s.mem.tb, Cur(p, l), t, u.ad), s.mem.ts - {t}))
  }

  function DoBgStore(p: Params, s: State, t: Tid, io: int): State
    requires t in s.thr && s.thr[t].pc.Store? && p.blksz > 0
  {
    var l := s.thr[t];
    var s1 := s.(thr := s.thr[t := l.(pc := BgUntrack)]);
    if Storable(p, Cur(p, l), |l.pc.data|) then s1.(file := StoreBlock(p, s.file, Cur(p, l), l.pc.data, io)) else s1
  }

  function DoBgUntrack(p: Params, s: State, t: Tid): State
    requires t in s.thr && p.blksz > 0
  {
    var l := s.thr[t];
    s.(thr := s.thr[t := l.(pc := BgPost)], lk := s.lk.(dl := None),
       waiters := s.waiters - 1, sig := WakeAll(s, Cur(p, l)),
       mem := s.mem.(tb := RemoveTracker(s.mem.tb, Cur(p, l))))
  }

  // ----- the network -----

  /** write_memory_callback: append the next bytes of the range and wake the tracker's waiters. */
  function DoDeliver(p: Params, s: State, q: Tid, n: nat): State
    requires q in s.mem.ts && q in s.thr && s.lk.x.XCallback? && p.blksz > 0
    requires Lo(p, Cur(p, s.thr[q])) + |s.mem.ts[q].data| + n <= |p.remote|
  {
    var u := s.mem.ts[q];
    var at := Lo(p, Cur(p, s.thr[q])) + |u.data|;
    s.(mem := s.mem.(ts := s.mem.ts[q := u.(data := u.data + p.remote[at..at + n])]),
       lk := s.lk.(x := XHeld(s.lk.x.t), dl := None),
       sig := if u.ad.Some? then s.sig + WaitersOn(s.thr, u.ad.value) else s.sig)
  }

  // ----- closing -----

  function DoLockCf(s: State, t: Tid): State {
    var life := s.life.(opens := s.life.opens - 1);
    if life.opens > 0 then s.(life := life, thr := s.thr[t := CloserPc(CloseDone)])
    else s.(life := life, thr := s.thr[t := CloserPc(CloseTake(0))], lk := s.lk.(cf := Some(t)))
  }

  /** The section of Cache_free that starts the shutdown. */
  function DoShutDown(s: State, t: Tid): State {
    var woken := set u | u in s.thr && WaitOn(s.thr[u]).Some? && WaitOn(s.thr[u]).value in s.mem.tb.list;
    s.(life := s.life.(shutting := true), mem := s.mem.(tb := ReleaseAll(s.mem.tb)), lk := s.lk.(dl := None),
       sig := s.sig + woken - {t},
       thr := s.thr[t := CloserPc(if s.waiters > 0 then CloseWait else CloseDestroy)])
  }

  function DoCloserWake(s: State, t: Tid): State {
    s.(lk := s.lk.(dl := None), sig := s.sig - {t},
       thr := s.thr[t := CloserPc(if s.waiters > 0 then CloseWait else CloseDestroy)])
  }

  // ----- the step relation -----

  /** FUSE calls and spurious wake-ups. */
  datatype EnvAct = CallRead(h: Hid, off: int, req: int) | OpenHandle(h: Hid) | CloseHandle(h: Hid) | Spurious

  datatype ReadAct =
    | ReadCheck(io: int) | ReadFind | ReadTrySlot | ReadLaunch(a: Aid) | ReadBackOff | ReadRegister | ReadSpawn(bg: Tid)
    | ReadWake | ReadRecheck(io: int) | ReadSyncAdd(a: Aid) | ReadStore(io: int) | ReadUntrack
    | ReadPeek | ReadTryAhead | ReadLockAhead | ReadFindAhead(a: Aid) | ReadEndPiece

  datatype DownAct =
    | DownAttach | DownAddHandle | DownLeave | DownDetach | DownStore(io: int) | DownUntrack | DownPost

  datatype NetAct = NetLock | NetCall(to: Tid, n: nat) | NetDeliver | NetComplete(to: Tid, status: Status) | NetUnlock

  datatype CloseAct = LockCf | TakeSlot | SaveBitmap | FreeBitmap | ShutDown | CloserWake | Destroy

  datatype Act = Env(e: EnvAct) | LockDl | Read(r: ReadAct) | Down(d: DownAct) | Net(n: NetAct) | Close(c: CloseAct)

  predicate IsReader(s: State, t: Tid) {
    t in s.thr && s.thr[t].role.Reader?
  }

  predicate IsCloser(s: State, t: Tid) {
    t in s.thr && s.thr[t].role.Closer?
  }

  predicate HoldsDl(s: State, t: Tid) {
    s.lk.dl == Some(t)
  }

  /** A transfer that the network may still feed. */
  predicate Feeding(s: State, q: Tid) {
    q in s.thr && !s.thr[q].role.Closer? && s.thr[q].pc.Transfer? && q in s.mem.ts && s.mem.ts[q].on
  }

  predicate HoldsNet(s: State, t: Tid) {
    (s.lk.x.XHeld? || s.lk.x.XCallback?) && s.lk.x.t == t
  }

  /** No thread is inside a Cache_read on handle `h`. */
  ghost predicate Quiet(s: State, h: Hid) {
    forall t :: t in s.thr && s.thr[t].role.Reader? && s.thr[t].role.call.h == h ==> !Active(s.thr[t])
  }

  ghost predicate EnabledEnv(s: State, t: Tid, act: EnvAct) {
    match act
    case CallRead(h, off, req) => t !in s.thr && h in s.life.handles
    case OpenHandle(h) => s.lk.cf.None? && s.life.linked && h !in s.life.handles
    case CloseHandle(h) => t !in s.thr && h in s.life.handles && Quiet(s, h)
    case Spurious => t in s.thr && Sleeps(s.thr[t])
  }

  predicate EnabledRead(p: Params, s: State, t: Tid, act: ReadAct)
    requires p.blksz > 0
  {
    && IsReader(s, t)
    && var pc := s.thr[t].pc;
    match act
    case ReadCheck(io) => pc.Check? && s.lk.w.None?
    case ReadFind => pc.Find? && HoldsDl(s, t)
    case ReadTrySlot => pc.TrySlot?
    case ReadLaunch(a) => pc.Launch? && HoldsDl(s, t) && a !in s.mem.tb.heap
    case ReadBackOff => pc.BackOff? || pc.BackOffAhead?
    case ReadRegister => pc.Register? && HoldsDl(s, t)
    case ReadSpawn(bg) => pc.Spawn? && bg !in s.thr
    case ReadWake => pc.Asleep? && HoldsDl(s, t)
    case ReadRecheck(io) => pc.Recheck? && s.lk.w.None?
    case ReadSyncAdd(a) => pc.SyncAdd? && HoldsDl(s, t) && a !in s.mem.tb.heap
    case ReadStore(io) => pc.Store? && s.lk.w.None?
    case ReadUntrack => pc.Untrack? && HoldsDl(s, t)
    case ReadPeek => pc.Peek? && (HasNext(p, s.thr[t]) ==> s.lk.w.None?)
    case ReadTryAhead => pc.TryAhead?
    case ReadLockAhead => pc.LockAhead? && s.lk.w.None?
    case ReadFindAhead(a) => pc.FindAhead? && HoldsDl(s, t) && a !in s.mem.tb.heap
    case ReadEndPiece => pc.EndPiece?
  }

  predicate EnabledDown(s: State, t: Tid, act: DownAct) {
    && t in s.thr && !s.thr[t].role.Closer?
    && var pc := s.thr[t].pc;
    match act
    case DownAttach => pc.Attach? && HoldsDl(s, t)
    case DownAddHandle => pc.AddHandle? && s.lk.x.XFree?
    case DownLeave => pc.Transfer? && t in s.mem.ts && !s.mem.ts[t].on && !HoldsNet(s, t)
    case DownDetach => pc.Detach? && HoldsDl(s, t)
    case DownStore(io) => s.thr[t].role.Bg? && pc.Store? && s.lk.w.None?
    case DownUntrack => s.thr[t].role.Bg? && pc.BgUntrack? && HoldsDl(s, t)
    case DownPost => s.thr[t].role.Bg? && pc.BgPost?
  }

  /** Any thread in the loop that waits for its transfer may run the network for all of them, also when it
      looked at its own transfer just before it ended. */
  predicate EnabledNet(p: Params, s: State, t: Tid, act: NetAct)
    requires p.blksz > 0
  {
    match act
    case NetLock => t in s.thr && !s.thr[t].role.Closer? && s.thr[t].pc.Transfer? && s.lk.x.XFree?
    case NetCall(to, n) =>
      s.lk.x == XHeld(t) && Feeding(s, to) && n > 0 && |s.mem.ts[to].data| + n <= Size(p, Cur(p, s.thr[to]))
    case NetDeliver => s.lk.x.XCallback? && s.lk.x.t == t && HoldsDl(s, t)
    case NetComplete(to, _) => s.lk.x == XHeld(t) && Feeding(s, to)
    case NetUnlock => s.lk.x == XHeld(t)
  }

  predicate EnabledClose(p: Params, s: State, t: Tid, act: CloseAct) {
    && IsCloser(s, t)
    && var pc := s.thr[t].pc;
    match act
    case LockCf => pc.CloseWant? && s.lk.cf.None?
    case TakeSlot => pc.CloseTake? && pc.k < p.workers && s.sem > 0
    case SaveBitmap => pc.CloseTake? && pc.k == p.workers
    case FreeBitmap => pc.CloseFree?
    case ShutDown => pc.CloseList? && HoldsDl(s, t)
    case CloserWake => pc.CloseWait? && HoldsDl(s, t)
    case Destroy => pc.CloseDestroy?
  }

  ghost predicate Enabled(p: Params, s: State, t: Tid, act: Act)
    requires p.blksz > 0
  {
    match act
    case Env(e) => EnabledEnv(s, t, e)
    case LockDl => s.lk.dl.None? && WantsDl(s, t)
    case Read(r) => EnabledRead(p, s, t, r)
    case Down(d) => EnabledDown(s, t, d)
    case Net(n) => EnabledNet(p, s, t, n)
    case Close(c) => EnabledClose(p, s, t, c)
  }

  ghost function EffectEnv(p: Params, s: State, t: Tid, act: EnvAct): State
    requires EnabledEnv(s, t, act)
  {
    match act
    case CallRead(h, off, req) => s.(thr := s.thr[t := NewReader(p, h, off, req)])
    case OpenHandle(h) => s.(life := s.life.(opens := s.life.opens + 1, handles := s.life.handles + {h}))
    case CloseHandle(h) => s.(life := s.life.(handles := s.life.handles - {h}), thr := s.thr[t := CloserPc(CloseWant)])
    case Spurious => s.(sig := s.sig + {t})
  }

  function EffectRead(p: Params, s: State, t: Tid, act: ReadAct): State
    requires p.blksz > 0 && EnabledRead(p, s, t, act)
  {
    match act
    case ReadCheck(io) => DoCheck(p, s, t, io, Find)
    case ReadFind => DoFind(p, s, t)
    case ReadTrySlot => DoTrySlot(s, t, Launch, SyncAdd)
    case ReadLaunch(a) => DoLaunch(p, s, t, a)
    case ReadBackOff => DoBackOff(s, t)
    case ReadRegister => DoRegister(s, t)
    case ReadSpawn(bg) => DoSpawn(p, s, t, bg)
    case ReadWake => DoWake(p, s, t)
    case ReadRecheck(io) => DoCheck(p, s, t, io, SyncAdd)
    case ReadSyncAdd(a) => DoSyncAdd(p, s, t, a)
    case ReadStore(io) => DoStore(p, s, t, io)
    case ReadUntrack => DoUntrack(p, s, t)
    case ReadPeek => DoPeek(p, s, t)
    case ReadTryAhead => DoTrySlot(s, t, LockAhead, EndPiece)
    case ReadLockAhead => DoLockAhead(p, s, t)
    case ReadFindAhead(a) => DoFindAhead(p, s, t, a)
    case ReadEndPiece => s.(thr := s.thr[t := AfterPiece(p, s.thr[t])])
  }

  function EffectDown(p: Params, s: State, t: Tid, act: DownAct): State
    requires p.blksz > 0 && EnabledDown(s, t, act)
  {
    match act
    case DownAttach => DoAttach(p, s, t)
    case DownAddHandle => s.(thr := s.thr[t := s.thr[t].(pc := Transfer)])
    case DownLeave => s.(thr := s.thr[t := s.thr[t].(pc := Detach)])
    case DownDetach => if t in s.mem.ts then DoDetach(p, s, t) else s
    case DownStore(io) => DoBgStore(p, s, t, io)
    case DownUntrack => DoBgUntrack(p, s, t)
    case DownPost => s.(thr := s.thr[t := s.thr[t].(pc := Done(0))], sem := s.sem + 1)
  }

  function EffectNet(p: Params, s: State, t: Tid, act: NetAct): State
    requires p.blksz > 0 && EnabledNet(p, s, t, act)
  {
    match act
    case NetLock => s.(lk := s.lk.(x := XHeld(t)))
    case NetCall(to, n) => s.(lk := s.lk.(x := XCallback(t, to, n)))
    case NetDeliver =>
      var q := s.lk.x.to;
      if q in s.mem.ts && q in s.thr && Lo(p, Cur(p, s.thr[q])) + |s.mem.ts[q].data| + s.lk.x.n <= |p.remote|
      then DoDeliver(p, s, q, s.lk.x.n)
      else s.(lk := s.lk.(x := XHeld(t), dl := None))
    case NetComplete(to, status) =>
      s.(mem := s.mem.(ts := s.mem.ts[to := s.mem.ts[to].(on := false, status := status)]))
    case NetUnlock => s.(lk := s.lk.(x := XFree))
  }

  function EffectClose(p: Params, s: State, t: Tid, act: CloseAct): State
    requires EnabledClose(p, s, t, act)
  {
    match act
    case LockCf => DoLockCf(s, t)
    case TakeSlot => s.(thr := s.thr[t := CloserPc(CloseTake(s.thr[t].pc.k + 1))], sem := s.sem - 1)
    case SaveBitmap => s.(thr := s.thr[t := CloserPc(CloseFree)], file := s.file.(saved := Some(s.file.seg)),
                          life := s.life.(linked := false))
    case FreeBitmap => s.(thr := s.thr[t := CloserPc(CloseList)], file := s.file.(segFreed := true))
    case ShutDown => DoShutDown(s, t)
    case CloserWake => DoCloserWake(s, t)
    case Destroy => s.(thr := s.thr[t := CloserPc(CloseDone)], life := s.life.(gone := true), lk := s.lk.(cf := None))
  }

  /** The state after the step, apart from the record of faults. */
  ghost function Effect(p: Params, s: State, t: Tid, act: Act): State
    requires p.blksz > 0 && Enabled(p, s, t, act)
  {
    match act
    case Env(e) => EffectEnv(p, s, t, e)
    case LockDl => s.(lk := s.lk.(dl := Some(t)))
    case Read(r) => EffectRead(p, s, t, r)
    case Down(d) => EffectDown(p, s, t, d)
    case Net(n) => EffectNet(p, s, t, n)
    case Close(c) => EffectClose(p, s, t, c)
  }

  // ----- faults -----

  /** The step reads or writes the bitmap. */
  predicate UsesSeg(p: Params, s: State, t: Tid, act: Act)
    requires p.blksz > 0
  {
    || (act.Read? && (act.r.ReadCheck? || act.r.ReadRecheck? || act.r.ReadStore? || act.r.ReadLockAhead?
                      || (act.r.ReadPeek? && t in s.thr && HasNext(p, s.thr[t]))))
    || (act.Down? && act.d.DownStore?)
    || (act.Close? && act.c.SaveBitmap?)
  }

  /** The step walks the list of trackers. */
  predicate UsesList(act: Act) {
    || (act.Read? && (act.r.ReadFind? || act.r.ReadLaunch? || act.r.ReadSyncAdd? || act.r.ReadUntrack? || act.r.ReadFindAhead?))
    || (act.Down? && (act.d.DownAttach? || act.d.DownDetach? || act.d.DownUntrack?))
    || (act.Close? && act.c.ShutDown?)
  }

  /** The tracker the step reaches through a pointer kept outside the list. */
  function Dereferenced(s: State, t: Tid, act: Act): Option<Aid> {
    if act.Read? && act.r.ReadWake? && t in s.thr then WaitOn(s.thr[t])
    else if act.Down? && act.d.DownDetach? && t in s.mem.ts then s.mem.ts[t].ad
    else if act.Net? && act.n.NetDeliver? && s.lk.x.XCallback? && s.lk.x.to in s.mem.ts then s.mem.ts[s.lk.x.to].ad
    else None
  }

  /** The tracker whose transfer pointer a waiter follows. */
  function Followed(p: Params, s: State, t: Tid, act: Act): Option<Aid>
    requires p.blksz > 0
  {
    if !act.Read? || t !in s.thr then None
    else if act.r.ReadWake? then WaitOn(s.thr[t])
    else if act.r.ReadFind? then FindTracker(s.mem.tb, Cur(p, s.thr[t]))
    else None
  }

  /** What the step would do wrong: touch freed memory, or destroy locks that are still needed. */
  ghost predicate Bad(p: Params, s: State, t: Tid, act: Act)
    requires p.blksz > 0
  {
    || (s.life.gone && !act.Env?)
    || (s.file.segFreed && UsesSeg(p, s, t, act))
    || (UsesList(act) && exists a :: a in s.mem.tb.list && a !in s.mem.tb.heap)
    || (var d := Dereferenced(s, t, act); d.Some? && d.value !in s.mem.tb.heap)
    || (var d := Followed(p, s, t, act);
        d.Some? && !s.life.shutting && !At(s.mem.tb, d.value).unlinked
        && var u := At(s.mem.tb, d.value).ts; u.Some? && u.value !in s.mem.ts)
    || (act.Down? && act.d.DownDetach? && t !in s.mem.ts)
    || (act.Net? && act.n.NetDeliver? && s.lk.x.XCallback? && s.lk.x.to !in s.mem.ts)
    || (act.Close? && act.c.Destroy?
        && (s.lk.w.Some? || s.lk.dl.Some? || exists u :: u in s.thr && !s.thr[u].role.Closer? && Active(s.thr[u])))
  }

  ghost function Apply(p: Params, s: State, t: Tid, act: Act): State
    requires p.blksz > 0 && Enabled(p, s, t, act)
  {
    Effect(p, s, t, act).(fault := s.fault || Bad(p, s, t, act))
  }

  /** A freshly opened cache: bitmap and data file as Cache_open found or made them, one handle. */
  function InitState(p: Params, seg: seq<bool>, disk: seq<byte>, h: Hid): State {
    State(File(seg, disk, [], false, None), Mem(Table(map[], []), map[]), Life(false, 1, {h}, true, false),
          Locks(None, None, None, XFree), 0, p.workers, map[], {}, false)
  }
}
