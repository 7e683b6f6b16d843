/**
 The lock of a shared-memory buffer: a robust mutex in the segment, and in each
 handle a count that makes it recursive.
 */
module SharedBuffer {
  import opened Bytes

  /** A robust process-shared mutex; thread numbers stand for the handles, each used by one thread. */
  datatype Mutex =
    | Free
    | Held(owner: nat, consistent: bool)   // not consistent: taken over from a dead owner
    | Orphaned                          // its owner died
    | Lost                              // released without being made consistent

  /** What the pthread functions answer. */
  datatype Answer = Success | OwnerDied | Busy | NotRecoverable | NotOwner

  datatype Grant = Granted | Denied | Waits

  /** pthread_mutex_lock and trylock by `me`; Busy is where the first waits and the second fails. */
  function MutexLock(x: Mutex, me: nat): (Mutex, Answer) {
    match x
    case Free => (Held(me, true), Success)
    case Held(_, _) => (x, Busy)
    case Orphaned => (Held(me, false), OwnerDied)
    case Lost => (x, NotRecoverable)
  }

  function MakeConsistent(x: Mutex, me: nat): Mutex {
    if x == Held(me, false) then Held(me, true) else x
  }

  function MutexUnlock(x: Mutex, me: nat): (Mutex, Answer) {
    if x == Held(me, true) then (Free, Success)
    else if x == Held(me, false) then (Lost, Success)
    else (x, NotOwner)
  }

  /** The owner's thread ends. */
  function Die(x: Mutex, who: nat): Mutex {
    if x.Held? && x.owner == who then Orphaned else x
  }

  // ---- one handle --------------------------------------------------------------

  /** The mutex in the segment, shared by all handles. */
  class Shared {
    var mutex: Mutex

    constructor ()
      ensures mutex == Free
    {
      mutex := Free;
    }
  }

  class Handle {
    const me: nat
    const shared: Shared
    var lockCount: nat

    /** This handle counts exactly while it owns the mutex, and never rests with an inconsistent one. */
    ghost predicate Valid()
      reads this, shared
    {
      (lockCount > 0 <==> shared.mutex == Held(me, true)) && shared.mutex != Held(me, false)
    }

    constructor (me: nat, shared: Shared)
      requires !(shared.mutex.Held? && shared.mutex.owner == me)
      ensures Valid() && lockCount == 0 && this.me == me && this.shared == shared
    {
      this.me, this.shared, lockCount := me, shared, 0;
    }

    method TryLock() returns (ok: bool)
      requires Valid()
      modifies this, shared
      ensures Valid()
      ensures ok <==> old(lockCount) > 0 || old(shared.mutex).Free? || old(shared.mutex).Orphaned?
      ensures lockCount == old(lockCount) + if ok then 1 else 0
      ensures !ok ==> shared.mutex == old(shared.mutex)
    {
      if lockCount > 0 {
        lockCount := lockCount + 1;
        return true;
      }
      var (next, answer) := MutexLock(shared.mutex, me);
      shared.mutex := next;
      if answer == OwnerDied {
        shared.mutex := MakeConsistent(shared.mutex, me);
      } else if answer != Success {
        return false;
      }
      lockCount := lockCount + 1;
      return true;
    }

    /** While another thread owns the mutex the call does not return; that is Waits. */
    method Lock() returns (g: Grant)
      requires Valid()
      modifies this, shared
      ensures Valid()
      ensures g == Waits <==> old(lockCount) == 0 && old(shared.mutex).Held?
      ensures g == Granted <==> old(lockCount) > 0 || old(shared.mutex).Free? || old(shared.mutex).Orphaned?
      ensures lockCount == old(lockCount) + if g == Granted then 1 else 0
      ensures g != Granted ==> shared.mutex == old(shared.mutex)
    {
      if lockCount > 0 {
        lockCount := lockCount + 1;
        return Granted;
      }
      var (next, answer) := MutexLock(shared.mutex, me);
      shared.mutex := next;
      if answer == Busy {
        return Waits;
      } else if answer == OwnerDied {
        shared.mutex := MakeConsistent(shared.mutex, me);
      } else if answer != Success {
        return Denied;
      }
      lockCount := lockCount + 1;
      g := Granted;
    }

    method Unlock() returns (ok: bool)
      requires Valid()
      modifies this, shared
      ensures Valid()
      ensures ok <==> old(lockCount) > 0
      ensures lockCount == old(lockCount) - if ok then 1 else 0
      ensures shared.mutex == if old(lockCount) == 1 then Free else old(shared.mutex)
    {
      if lockCount == 0 { return false; }
      lockCount := lockCount - 1;
      if lockCount > 0 { return true; }
      var (next, answer) := MutexUnlock(shared.mutex, me);
      shared.mutex := next;
      return answer == Success;
    }

    /** The destructor unlocks once: what this handle holds is released if and only if it holds it once. */
    method Destroy()
      requires Valid()
      modifies this, shared
      ensures old(lockCount) > 0 ==> (shared.mutex == Free <==> old(lockCount) == 1)
      ensures old(lockCount) != 1 ==> shared.mutex == old(shared.mutex)
    {
      if lockCount > 0 {
        var ok := Unlock();
      }
    }
  }

  // ---- many handles -----------------------------------------------------------------

  /** What a thread does with its handle. */
  datatype Use =
    | Unused                       // between calls
    | Repairing                    // has got OwnerDied, has not yet made the mutex consistent
    | Gone                         // the handle was destroyed
    | Ended                        // the thread is dead

  datatype State = State(
    mutex: Mutex,
    use: map<nat, Use>,
    count: map<nat, nat>,
    taken: map<nat, nat>,          // successful lock and trylock calls of each handle
    given: map<nat, nat>)          // successful unlock calls

  datatype Event = Acquire(h: nat, try: bool) | Repair(h: nat) | Release(h: nat) | Drop(h: nat) | Kill(h: nat)

  function Of<T>(s: map<nat, T>, h: nat, default: T): T {
    if h in s then s[h] else default
  }

  function UseOf(s: State, h: nat): Use {
    Of(s.use, h, Unused)
  }

  function Count(s: State, h: nat): nat {
    Of(s.count, h, 0)
  }

  function Taken(s: State, h: nat): nat {
    Of(s.taken, h, 0)
  }

  function Given(s: State, h: nat): nat {
    Of(s.given, h, 0)
  }

  function Start(): State {
    State(Free, map[], map[], map[], map[])
  }

  predicate Can(s: State, e: Event) {
    match e
    case Acquire(h, try) => UseOf(s, h) == Unused && (try || Count(s, h) > 0 || !s.mutex.Held?)
    case Repair(h) => UseOf(s, h) == Repairing
    case Release(h) => UseOf(s, h) == Unused
    case Drop(h) => UseOf(s, h) == Unused
    case Kill(h) => UseOf(s, h) != Ended
  }

  /** One more successful acquisition. */
  function Counted(s: State, h: nat): State {
    s.(count := s.count[h := Count(s, h) + 1], taken := s.taken[h := Taken(s, h) + 1])
  }

  /** unlock with the count `c > 0`. */
  function Uncounted(s: State, h: nat): State
    requires Count(s, h) > 0
  {
    s.(count := s.count[h := Count(s, h) - 1], given := s.given[h := Given(s, h) + 1],
       mutex := if Count(s, h) == 1 then MutexUnlock(s.mutex, h).0 else s.mutex)
  }

  function Do(s: State, e: Event): State
    requires Can(s, e)
  {
    match e
    case Acquire(h, _) =>
      if Count(s, h) > 0 then Counted(s, h)
      else
        var r := MutexLock(s.mutex, h);
        if r.1 == Success then Counted(s.(mutex := r.0), h)
        else if r.1 == OwnerDied then s.(mutex := r.0, use := s.use[h := Repairing])
        else s
    case Repair(h) => Counted(s.(mutex := MakeConsistent(s.mutex, h), use := s.use[h := Unused]), h)
    case Release(h) => if Count(s, h) == 0 then s else Uncounted(s, h)
    case Drop(h) => (if Count(s, h) == 0 then s else Uncounted(s, h)).(use := s.use[h := Gone])
    case Kill(h) => s.(mutex := Die(s.mutex, h), use := s.use[h := Ended], count := s.count[h := 0])
  }

  /** A handle counts exactly while its thread owns a consistent mutex, and by as much as it has taken and not given back. */
  predicate HandleInv(s: State, h: nat) {
    && (Count(s, h) > 0 <==> s.mutex == Held(h, true))
    && (UseOf(s, h) == Repairing <==> s.mutex == Held(h, false))
    && (UseOf(s, h) == Ended ==> Count(s, h) == 0)
    && (UseOf(s, h) != Ended ==> Taken(s, h) == Given(s, h) + Count(s, h))
  }

  ghost predicate Inv(s: State) {
    s.mutex != Lost && forall h: nat :: HandleInv(s, h)
  }

  lemma InvStep(s: State, e: Event)
    requires Inv(s) && Can(s, e)
    ensures Inv(Do(s, e))
  {
    var t := Do(s, e);
    assert HandleInv(s, e.h);
    forall h: nat
      ensures HandleInv(t, h)
    {
      assert HandleInv(s, h);
    }
  }

  /** `es` is a run from a fresh segment. */
  ghost predicate ValidRun(es: seq<Event>)
    decreases |es|, 0
  {
    es == [] || (ValidRun(es[..|es| - 1]) && Can(After(es[..|es| - 1]), es[|es| - 1]))
  }

  ghost function After(es: seq<Event>): State
    requires ValidRun(es)
    decreases |es|, 1
  {
    if es == [] then Start() else Do(After(es[..|es| - 1]), es[|es| - 1])
  }

  /** Every interleaving of handles, deaths included, keeps the counts true to the mutex. */
  lemma {:induction false} RunInv(es: seq<Event>)
    requires ValidRun(es)
    ensures Inv(After(es))
  {
    if es == [] {
    } else {
      RunInv(es[..|es| - 1]);
      InvStep(After(es[..|es| - 1]), es[|es| - 1]);
    }
  }

  /** Mutual exclusion: of two handles in use at most one counts, and none does while another repairs. */
  lemma AtMostOneCounts(es: seq<Event>, g: nat, h: nat)
    requires ValidRun(es) && Count(After(es), g) > 0
    ensures Count(After(es), h) > 0 || UseOf(After(es), h) == Repairing ==> g == h
  {
    RunInv(es);
    assert HandleInv(After(es), g) && HandleInv(After(es), h);
  }

  /** Recursion: a live thread owns the mutex until its handle has been unlocked as often as it was locked. */
  lemma OwnsUntilBalanced(es: seq<Event>, h: nat)
    requires ValidRun(es) && UseOf(After(es), h) != Ended
    ensures After(es).mutex == Held(h, true) <==> Taken(After(es), h) > Given(After(es), h)
    ensures Taken(After(es), h) >= Given(After(es), h)
  {
    RunInv(es);
    assert HandleInv(After(es), h);
  }

  /** When the owner dies, even between taking over from a dead owner and repairing, any other handle can take the lock. */
  lemma DeadOwnersLockIsAcquirable(es: seq<Event>, h: nat, k: nat, try: bool)
    requires ValidRun(es) && After(es).mutex.Held? && After(es).mutex.owner == h
    requires k != h && UseOf(After(es), k) == Unused
    ensures Can(After(es), Kill(h))
    ensures var s := Do(After(es), Kill(h));
      Can(s, Acquire(k, try)) && Can(Do(s, Acquire(k, try)), Repair(k))
      && Count(Do(Do(s, Acquire(k, try)), Repair(k)), k) == 1
  {
    RunInv(es);
    assert HandleInv(After(es), h) && HandleInv(After(es), k);
  }

  /** A lock that is not owned is granted to whoever asks, and one that is owned to nobody else. */
  lemma GrantedIffNotOwned(es: seq<Event>, h: nat)
    requires ValidRun(es) && UseOf(After(es), h) == Unused
    ensures var s := After(es); var t := Do(s, Acquire(h, true));
      (t.mutex.Held? && t.mutex.owner == h) <==> (s.mutex.Held? ==> s.mutex.owner == h)
  {
    RunInv(es);
    assert HandleInv(After(es), h);
  }

  /** Destroying a handle releases what it holds exactly when it holds it once... */
  lemma DropReleasesOnce(es: seq<Event>, h: nat)
    requires ValidRun(es) && UseOf(After(es), h) == Unused && Count(After(es), h) > 0
    ensures Do(After(es), Drop(h)).mutex == Free <==> Count(After(es), h) == 1
  {
    RunInv(es);
    assert HandleInv(After(es), h);
  }

  /** ...and otherwise nobody else gets the lock before the thread dies. */
  lemma LeakedUntilDeath(s: State, h: nat, e: Event)
    requires Inv(s) && UseOf(s, h) == Gone && s.mutex == Held(h, true) && Can(s, e) && e != Kill(h)
    ensures Do(s, e).mutex == Held(h, true) && UseOf(Do(s, e), h) == Gone
  {
    assert HandleInv(s, h) && HandleInv(s, e.h);
  }

  // ---- the layout of the segment ----------------------------------------------------

  /** `x` with its low `k` bits cleared, as by masking with the complement of Pow2(k) - 1. */
  function ClearLow(x: nat, k: nat): nat {
    if k == 0 then x else 2 * ClearLow(x / 2, k - 1)
  }

  lemma {:induction false} ClearLowRounds(x: nat, k: nat)
    ensures ClearLow(x, k) == x - x % Pow2(k)
  {
    if k > 0 {
      ClearLowRounds(x / 2, k - 1);
      HalfRemainder(x, Pow2(k - 1));
    }
  }

  lemma HalfRemainder(x: nat, p: nat)
    requires p >= 1
    ensures x % (2 * p) == 2 * (x / 2 % p) + x % 2
  {
    var q, r := x / 2 / p, x / 2 % p;
    assert x / 2 == q * p + r;
    assert q * (2 * p) == 2 * (q * p);
    Remainder(x, 2 * p, q, 2 * r + x % 2);
  }

  lemma Remainder(x: nat, d: nat, q: nat, r: nat)
    requires d >= 1 && x == q * d + r && r < d
    ensures x % d == r
  {
    var e, f := x / d, x % d;
    assert x == e * d + f && 0 <= f < d;
    if q > e {
      Multiple(q - e, d);
      Distribute(q, e, d);
    } else if q < e {
      Multiple(e - q, d);
      Distribute(e, q, d);
    }
  }

  lemma Multiple(a: nat, d: nat)
    requires a >= 1
    ensures a * d >= d
  {
    assert a * d == d + (a - 1) * d;
  }

  lemma Distribute(a: int, b: int, d: nat)
    ensures (a - b) * d == a * d - b * d
  {}

  /** The user's address in a mapping at `data`: create and attach skip `skip` bytes, the size of the handle object, and round. */
  function UserAddress(data: nat, skip: nat, k: nat): nat {
    ClearLow(data + skip, k) + Pow2(k)
  }

  /** The size create asks for, computed in 32 bits. */
  function SegmentSize(size: nat, header: nat, page: nat): int {
    var n := (size + header + page) % TWO_TO_32;
    if n < TWO_TO_31 then n else n - TWO_TO_32
  }

  /**
   Every mapping of a segment puts the user's data at the same distance from
   its start, on a page boundary.  The data lie behind the header and inside the
   segment if and only if the size of the header lies between that of the handle
   object, rounded down to a page, and one page more; so they do when both are
   smaller than a page.
   */
  lemma UserRegionFits(data: nat, data': nat, skip: nat, header: nat, k: nat, size: nat)
    requires data % Pow2(k) == 0 && data' % Pow2(k) == 0
    requires header + Pow2(k) <= TWO_TO_31 && 0 < size < TWO_TO_31
    requires SegmentSize(size, header, Pow2(k)) > 0
    ensures UserAddress(data, skip, k) - data == UserAddress(data', skip, k) - data'
    ensures UserAddress(data, skip, k) % Pow2(k) == 0
    ensures data + header <= UserAddress(data, skip, k) && UserAddress(data, skip, k) + size <= data + SegmentSize(size, header, Pow2(k))
            <==> skip - skip % Pow2(k) <= header <= skip - skip % Pow2(k) + Pow2(k)
    ensures skip < Pow2(k) ==> skip - skip % Pow2(k) == 0
  {
    PagesIn(data, skip, k);
    PagesIn(data', skip, k);
    if skip < Pow2(k) { Remainder(skip, Pow2(k), 0, skip); }
  }

  lemma PagesIn(data: nat, skip: nat, k: nat)
    requires data % Pow2(k) == 0
    ensures UserAddress(data, skip, k) == data + (skip - skip % Pow2(k)) + Pow2(k)
    ensures UserAddress(data, skip, k) % Pow2(k) == 0
  {
    ClearLowRounds(data + skip, k);
    PageOffset(data, skip, Pow2(k));
  }

  lemma PageOffset(data: nat, skip: nat, page: nat)
    requires page >= 1 && data % page == 0
    ensures (data + skip) % page == skip % page
    ensures (data + (skip - skip % page) + page) % page == 0
  {
    var q, p := data / page, skip / page;
    assert data == q * page && skip == p * page + skip % page;
    Distribute(q + p, -p, page);
    Remainder(data + skip, page, q + p, skip % page);
    Distribute(q + p + 1, 1, page);
    Remainder(data + (skip - skip % page) + page, page, q + p + 1, 0);
  }
}
