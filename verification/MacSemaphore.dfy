/** The counting semaphore that macOS builds get: a count, a mutex and a condition variable. A step is
    one section under the mutex, or a wake-up. */
module MacSemaphore {
  import opened Prelude

  type Tid = nat

  /** Where a thread is in sem_wait. `Woken(true)`: a post has signalled it and it has not run yet. */
  datatype Pc = Asleep | Woken(signalled: bool)

  /** `taken` counts the completed waits, `posts` the posts. */
  datatype Sem = Sem(count: int, pcs: map<Tid, Pc>, taken: nat, posts: nat)

  datatype Step = Wait(t: Tid) | Resume(t: Tid) | Post(wakes: set<Tid>) | TryWait | Spurious(t: Tid)

  function Sleepers(pcs: map<Tid, Pc>): set<Tid> {
    set t | t in pcs && pcs[t].Asleep?
  }

  function Signalled(pcs: map<Tid, Pc>): set<Tid> {
    set t | t in pcs && pcs[t].Woken? && pcs[t].signalled
  }

  /** A signal wakes at least one of the threads asleep, if there is one. */
  ghost predicate Enabled(s: Sem, e: Step) {
    match e
    case Wait(t) => t !in s.pcs
    case Resume(t) => t in s.pcs && s.pcs[t].Woken?
    case Post(wakes) => wakes <= Sleepers(s.pcs) && (Sleepers(s.pcs) != {} ==> wakes != {})
    case TryWait => true
    case Spurious(t) => t in s.pcs && s.pcs[t].Asleep?
  }

  /** The loop of sem_wait: take a unit, or go to sleep. */
  function Loop(s: Sem, t: Tid): Sem {
    if s.count <= 0 then s.(pcs := s.pcs[t := Asleep])
    else s.(count := s.count - 1, pcs := s.pcs - {t}, taken := s.taken + 1)
  }

  function Wake(pcs: map<Tid, Pc>, wakes: set<Tid>): map<Tid, Pc> {
    map t | t in pcs :: if t in wakes then Woken(true) else pcs[t]
  }

  function Effect(s: Sem, e: Step): Sem {
    match e
    case Wait(t) => Loop(s, t)
    case Resume(t) => Loop(s, t)
    case Post(wakes) => s.(count := s.count + 1, pcs := Wake(s.pcs, wakes), posts := s.posts + 1)
    case TryWait => if s.count > 0 then s.(count := s.count - 1, taken := s.taken + 1) else s
    case Spurious(t) => s.(pcs := s.pcs[t := Woken(false)])
  }

  /** sem_trywait's answer. */
  function TryAnswer(s: Sem): int {
    if s.count > 0 then 0 else -1
  }

  ghost predicate SemInv(s: Sem, initial: nat) {
    && s.count >= 0
    && s.count + s.taken == initial + s.posts
    && (Sleepers(s.pcs) != {} ==> s.count <= |Signalled(s.pcs)|)
  }

  lemma LoopKeeps(s: Sem, t: Tid, initial: nat)
    requires SemInv(s, initial) && (t in s.pcs ==> s.pcs[t].Woken?)
    ensures SemInv(Loop(s, t), initial)
  {
    var s' := Loop(s, t);
    if s.count > 0 {
      assert Sleepers(s'.pcs) == Sleepers(s.pcs);
      assert Signalled(s'.pcs) == Signalled(s.pcs) - {t};
    }
  }

  lemma PostKeeps(s: Sem, wakes: set<Tid>, initial: nat)
    requires SemInv(s, initial) && Enabled(s, Post(wakes))
    ensures SemInv(Effect(s, Post(wakes)), initial)
  {
    var s' := Effect(s, Post(wakes));
    if t :| t in Sleepers(s'.pcs) {
      assert t in Sleepers(s.pcs);
      var u :| u in wakes;
      assert Signalled(s.pcs) + {u} <= Signalled(s'.pcs);
      Larger(Signalled(s.pcs), u, Signalled(s'.pcs));
    }
  }

  lemma Larger(a: set<Tid>, u: Tid, b: set<Tid>)
    requires u !in a && a + {u} <= b
    ensures |a| + 1 <= |b|
  {
    assert |a + {u}| == |a| + 1;
    Subset(a + {u}, b);
  }

  lemma {:induction false} Subset(a: set<Tid>, b: set<Tid>)
    requires a <= b
    ensures |a| <= |b|
  {
    if a != {} {
      var x :| x in a;
      Subset(a - {x}, b - {x});
    }
  }

  /** Every step keeps the semaphore's books: the count is what was there and posted less what was taken,
      and threads sleep only while every unit on offer has a signalled waiter to take it. */
  lemma SemStep(s: Sem, e: Step, initial: nat)
    requires SemInv(s, initial) && Enabled(s, e)
    ensures SemInv(Effect(s, e), initial)
  {
    match e
    case Wait(t) => LoopKeeps(s, t, initial);
    case Resume(t) => LoopKeeps(s, t, initial);
    case Post(wakes) => PostKeeps(s, wakes, initial);
    case TryWait =>
    case Spurious(t) =>
      var s' := Effect(s, e);
      assert Signalled(s'.pcs) == Signalled(s.pcs);
      assert Sleepers(s'.pcs) <= Sleepers(s.pcs);
  }

  // ----- the reference: an atomic counting semaphore -----

  datatype Atomic = Atomic(value: int, taken: nat, posts: nat)

  /** Take a unit that is there. */
  predicate Takes(a: Atomic, a': Atomic) {
    a.value > 0 && a' == a.(value := a.value - 1, taken := a.taken + 1)
  }

  /** Add a unit. */
  predicate Adds(a: Atomic, a': Atomic) {
    a' == a.(value := a.value + 1, posts := a.posts + 1)
  }

  function Abstract(s: Sem): Atomic {
    Atomic(s.count, s.taken, s.posts)
  }

  /** Each step is the operation of the atomic semaphore it stands for: a post adds a unit; a wait takes
      one exactly when one is there, and returns exactly when it has taken one; sem_trywait takes one and
      answers 0 exactly when one is there; a wake-up without a post changes nothing. */
  lemma SemRefines(s: Sem, e: Step, initial: nat)
    requires SemInv(s, initial) && Enabled(s, e)
    ensures var a, a' := Abstract(s), Abstract(Effect(s, e));
            match e
            case Post(_) => Adds(a, a')
            case Wait(t) => if a.value > 0 then Takes(a, a') && t !in Effect(s, e).pcs else a' == a && t in Effect(s, e).pcs
            case Resume(t) => if a.value > 0 then Takes(a, a') && t !in Effect(s, e).pcs else a' == a && t in Effect(s, e).pcs
            case TryWait => if a.value > 0 then Takes(a, a') && TryAnswer(s) == 0 else a' == a && TryAnswer(s) == -1
            case Spurious(_) => a' == a
  {
  }

  ghost predicate IsRun(s: Sem, run: seq<Step>)
    decreases |run|
  {
    run == [] || (Enabled(s, run[0]) && IsRun(Effect(s, run[0]), run[1..]))
  }

  function After(s: Sem, run: seq<Step>): Sem
    decreases |run|
  {
    if run == [] then s else After(Effect(s, run[0]), run[1..])
  }

  lemma {:induction false} RunKeepsSem(s: Sem, run: seq<Step>, initial: nat)
    requires SemInv(s, initial) && IsRun(s, run)
    ensures SemInv(After(s, run), initial)
    decreases |run|
  {
    hide SemInv;
    if run == [] {
    } else {
      SemStep(s, run[0], initial);
      RunKeepsSem(Effect(s, run[0]), run[1..], initial);
    }
  }

  /** After any run: never more waits completed than units supplied, and no lost wake-up, since a sleeper
      facing a positive count implies a signalled waiter about to run, which then passes. */
  lemma SemaphoreWorks(initial: nat, run: seq<Step>)
    requires IsRun(Sem(initial, map[], 0, 0), run)
    ensures var s := After(Sem(initial, map[], 0, 0), run);
            && s.count >= 0 && s.taken <= initial + s.posts
            && (Sleepers(s.pcs) != {} ==> s.count <= |Signalled(s.pcs)|)
            && (Sleepers(s.pcs) != {} && s.count > 0 ==>
                  exists t :: t in Signalled(s.pcs) && Enabled(s, Resume(t)) && t !in Effect(s, Resume(t)).pcs)
  {
    RunKeepsSem(Sem(initial, map[], 0, 0), run, initial);
    var s := After(Sem(initial, map[], 0, 0), run);
    if Sleepers(s.pcs) != {} && s.count > 0 {
      assert |Signalled(s.pcs)| > 0;
      var t :| t in Signalled(s.pcs);
      assert Enabled(s, Resume(t)) && t !in Effect(s, Resume(t)).pcs;
    }
  }
}
