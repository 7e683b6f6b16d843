/**
 The process-wide message-id generator: an int32_t counter that every message
 constructor advances under one mutex.
 */
module MessageIds {
  import opened Options

  const LAST_ID: int := 0x7FFF_FFFF

  /** The id of draw number `k`, counting from zero. */
  function IdAt(k: nat): (id: nat)
    ensures 0 < id <= LAST_ID
  {
    k % LAST_ID + 1
  }

  /** Any 2^31 - 1 consecutive draws are pairwise distinct, across the wrap. */
  lemma DistinctWithinPeriod(j: nat, k: nat)
    requires -LAST_ID < j - k < LAST_ID
    ensures IdAt(j) == IdAt(k) <==> j == k
  {}

  /** An int32_t increment. */
  function Increment(n: int): int {
    if n == LAST_ID then -LAST_ID - 1 else n + 1
  }

  /** Where a thread is inside the constructor, while it holds the mutex. */
  datatype Stage = Locked | Incremented | Corrected | Stored

  datatype Generator = Generator(last: int, holder: Option<nat>, stage: Stage, given: seq<int>)

  datatype Step = Lock | Advance | Correct | Assign | Unlock

  predicate Can(g: Generator, thread: nat, s: Step) {
    match s
    case Lock => g.holder == None
    case Advance => g.holder == Some(thread) && g.stage == Locked
    case Correct => g.holder == Some(thread) && g.stage == Incremented
    case Assign => g.holder == Some(thread) && g.stage == Corrected
    case Unlock => g.holder == Some(thread) && g.stage == Stored
  }

  function Do(g: Generator, thread: nat, s: Step): Generator
    requires Can(g, thread, s)
  {
    match s
    case Lock => g.(holder := Some(thread), stage := Locked)
    case Advance => g.(last := Increment(g.last), stage := Incremented)
    case Correct => g.(last := if g.last < 0 then 1 else g.last, stage := Corrected)
    case Assign => g.(given := g.given + [g.last], stage := Stored)
    case Unlock => g.(holder := None)
  }

  function Start(): Generator {
    Generator(0, None, Stored, [])
  }

  /** Any interleaving of any number of threads. */
  ghost predicate Run(ts: seq<(nat, Step)>)
    decreases |ts|, 0
  {
    ts == [] || (Run(ts[..|ts| - 1]) && Can(After(ts[..|ts| - 1]), ts[|ts| - 1].0, ts[|ts| - 1].1))
  }

  ghost function After(ts: seq<(nat, Step)>): Generator
    requires Run(ts)
    decreases |ts|, 1
  {
    if ts == [] then Start() else Do(After(ts[..|ts| - 1]), ts[|ts| - 1].0, ts[|ts| - 1].1)
  }

  /** The counter after `n` draws. */
  function Counter(n: nat): nat {
    if n == 0 then 0 else IdAt(n - 1)
  }

  ghost predicate Sound(g: Generator) {
    var n := |g.given|;
    && (forall k :: 0 <= k < n ==> g.given[k] == IdAt(k))
    && (if g.holder == None || g.stage == Locked || g.stage == Stored then g.last == Counter(n)
        else if g.stage == Incremented then g.last == Increment(Counter(n))
        else g.last == IdAt(n))
  }

  /** However threads interleave, the k-th id given is IdAt(k). */
  lemma {:induction false} AssignedInOrder(ts: seq<(nat, Step)>)
    requires Run(ts)
    ensures Sound(After(ts))
    decreases |ts|
  {
    if ts != [] {
      AssignedInOrder(ts[..|ts| - 1]);
      SoundStep(After(ts[..|ts| - 1]), ts[|ts| - 1].0, ts[|ts| - 1].1);
    }
  }

  lemma SoundStep(g: Generator, thread: nat, s: Step)
    requires Sound(g) && Can(g, thread, s)
    ensures Sound(Do(g, thread, s))
  {
    var n := |g.given|;
    if s == Correct {
      assert n > 0 ==> IdAt(n) == if IdAt(n - 1) == LAST_ID then 1 else IdAt(n - 1) + 1;
    }
  }

  /** The ids given out never contain zero, and repeat only 2^31 - 1 draws apart or more. */
  lemma IdsAreUsable(ts: seq<(nat, Step)>, j: nat, k: nat)
    requires Run(ts) && j < |After(ts).given| && k < |After(ts).given|
    ensures After(ts).given[j] != 0
    ensures j != k && After(ts).given[j] == After(ts).given[k] ==> j - k >= LAST_ID || k - j >= LAST_ID
  {
    AssignedInOrder(ts);
    if -LAST_ID < j - k < LAST_ID { DistinctWithinPeriod(j, k); }
  }
}
