/** The reader-writer latch of common/rwlatch.h: a step system over threads that run its
    critical sections, sleep on its two condition variables and are woken by notifications or
    spuriously. MAX_READERS is a parameter. */
module Latch {
  import opened Prelude

  /** Where a thread is. Waiting threads sleep un-notified; woken ones will re-check their loop. */
  datatype Pc =
    | Idle
    | WaitW | WokenW            // first loop of WLock, on reader_
    | Draining | WokenDraining  // second loop of WLock, on writer_
    | Writing
    | WaitR | WokenR            // loop of RLock, on reader_
    | Reading

  datatype State = State(readers: nat, entered: bool, pcs: seq<Pc>)

  predicate OnReaderCv(p: Pc) {
    p.WaitW? || p.WaitR?
  }

  predicate HoldsEntry(p: Pc) {
    p.Writing? || p.Draining? || p.WokenDraining?
  }

  predicate Asleep(p: Pc) {
    OnReaderCv(p) || p.Draining?
  }

  function Woken(p: Pc): Pc {
    match p
    case WaitW => WokenW
    case WaitR => WokenR
    case Draining => WokenDraining
    case _ => p
  }

  /** WLock from its start, or from a wakeup in its first loop. */
  function EnterW(readers: nat, entered: bool): (bool, Pc) {
    if entered then (true, WaitW) else (true, if readers > 0 then Draining else Writing)
  }

  /** RLock from its start or from a wakeup. */
  function EnterR(max: nat, readers: nat, entered: bool): (nat, Pc) {
    if entered || readers == max then (readers, WaitR) else (readers + 1, Reading)
  }

  /** Steps of thread t. `wake` is the thread a notify_one picks, if any sleeps there. */
  datatype Event =
    | LockW(t: nat) | Drain(t: nat) | UnlockW(t: nat)
    | LockR(t: nat) | UnlockR(t: nat, wake: Option<nat>)
    | Spurious(t: nat)

  /** The condition variable that RUnlock notifies, as a predicate on sleepers. */
  predicate Notified(max: nat, s: State, p: Pc)
    requires s.readers > 0
  {
    if s.entered then s.readers - 1 == 0 && p.Draining?
    else s.readers - 1 == max - 1 && OnReaderCv(p)
  }

  ghost predicate Enabled(max: nat, s: State, e: Event) {
    && e.t < |s.pcs|
    && match e
       case LockW(t) => s.pcs[t].Idle? || s.pcs[t].WokenW?
       case Drain(t) => s.pcs[t].WokenDraining?
       case UnlockW(t) => s.pcs[t].Writing?
       case LockR(t) => s.pcs[t].Idle? || s.pcs[t].WokenR?
       case UnlockR(t, wake) =>
         && s.pcs[t].Reading? && s.readers > 0
         && (wake.Some? ==> wake.value < |s.pcs| && Notified(max, s, s.pcs[wake.value]))
         && (wake.None? ==> forall u :: 0 <= u < |s.pcs| ==> !Notified(max, s, s.pcs[u]))
       case Spurious(t) => Asleep(s.pcs[t])
  }

  function Step(max: nat, s: State, e: Event): State
    requires Enabled(max, s, e)
  {
    match e
    case LockW(t) =>
      var (entered, pc) := EnterW(s.readers, s.entered);
      s.(entered := entered, pcs := s.pcs[t := pc])
    case Drain(t) => s.(pcs := s.pcs[t := if s.readers > 0 then Draining else Writing])
    case UnlockW(t) =>
      s.(entered := false, pcs := seq(|s.pcs|, u requires 0 <= u < |s.pcs| =>
        if u == t then Idle else if OnReaderCv(s.pcs[u]) then Woken(s.pcs[u]) else s.pcs[u]))
    case LockR(t) =>
      var (readers, pc) := EnterR(max, s.readers, s.entered);
      s.(readers := readers, pcs := s.pcs[t := pc])
    case UnlockR(t, wake) =>
      var pcs := if wake.Some? then s.pcs[wake.value := Woken(s.pcs[wake.value])] else s.pcs;
      s.(readers := s.readers - 1, pcs := pcs[t := Idle])
    case Spurious(t) => s.(pcs := s.pcs[t := Woken(s.pcs[t])])
  }

  function Init(n: nat): State {
    State(0, false, seq(n, _ => Idle))
  }

  // ---------------------------------------------------------------------
  // Exclusion
  // ---------------------------------------------------------------------

  function Readers(pcs: seq<Pc>): set<nat> {
    set t: nat | t < |pcs| && pcs[t].Reading?
  }

  ghost predicate OneEntry(s: State) {
    && (forall t, u :: 0 <= t < |s.pcs| && 0 <= u < |s.pcs| && HoldsEntry(s.pcs[t]) && HoldsEntry(s.pcs[u]) ==> t == u)
    && (s.entered <==> exists t :: 0 <= t < |s.pcs| && HoldsEntry(s.pcs[t]))
  }

  ghost predicate Counted(s: State) {
    && s.readers == |Readers(s.pcs)|
    && (forall t :: 0 <= t < |s.pcs| && s.pcs[t].Writing? ==> s.readers == 0)
    && (forall t :: 0 <= t < |s.pcs| && s.pcs[t].Draining? ==> s.readers > 0)
  }

  ghost predicate Inv(max: nat, s: State) {
    OneEntry(s) && Counted(s) && s.readers <= max
  }

  lemma InitInv(max: nat, n: nat)
    ensures Inv(max, Init(n))
  {
    assert Readers(Init(n).pcs) == {};
  }

  lemma ReaderIff(pcs: seq<Pc>, u: nat)
    ensures u in Readers(pcs) <==> u < |pcs| && pcs[u].Reading?
  {
  }

  /** Changing the state of one thread changes the set of readers by at most that thread. */
  lemma ReadersUpdate(pcs: seq<Pc>, t: nat, p: Pc)
    requires t < |pcs|
    ensures Readers(pcs[t := p]) == if p.Reading? then Readers(pcs) + {t} else Readers(pcs) - {t}
    ensures |Readers(pcs[t := p])| ==
      |Readers(pcs)| + (if p.Reading? then 1 else 0) - (if pcs[t].Reading? then 1 else 0)
  {
    hide Readers;
    var before, after := Readers(pcs), Readers(pcs[t := p]);
    forall u: nat ensures u in after <==> if u == t then p.Reading? else u in before {
      ReaderIff(pcs, u);
      ReaderIff(pcs[t := p], u);
    }
    ReaderIff(pcs, t);
    if p.Reading? {
      assert after == before + {t};
    } else {
      assert after == before - {t};
    }
    assert t in before ==> before + {t} == before;
    assert t !in before ==> before - {t} == before;
  }

  lemma StepEntry(max: nat, s: State, e: Event)
    requires Inv(max, s) && Enabled(max, s, e)
    ensures OneEntry(Step(max, s, e))
  {
    hide Counted;
    var s' := Step(max, s, e);
    if !e.UnlockW? && s.entered {
      var h :| 0 <= h < |s.pcs| && HoldsEntry(s.pcs[h]);
      assert HoldsEntry(s'.pcs[h]);
    }
    if e.LockW? && !s.entered {
      assert HoldsEntry(s'.pcs[e.t]);
    }
  }

  /** The set of threads below n, counted. */
  function Below(n: nat): (b: set<nat>)
    ensures forall t: nat :: t in b <==> t < n
    ensures |b| == n
  {
    if n == 0 then {} else Below(n - 1) + {n - 1}
  }

  lemma UnlockReaders(max: nat, s: State, t: nat, wake: Option<nat>)
    requires Inv(max, s) && Enabled(max, s, UnlockR(t, wake))
    ensures var s' := Step(max, s, UnlockR(t, wake)); s'.readers == |Readers(s'.pcs)|
  {
    hide Readers;
    var pcs := if wake.Some? then s.pcs[wake.value := Woken(s.pcs[wake.value])] else s.pcs;
    if wake.Some? {
      assert !s.pcs[wake.value].Reading? && wake.value != t;
      ReadersUpdate(s.pcs, wake.value, Woken(s.pcs[wake.value]));
    }
    assert pcs[t].Reading?;
    ReadersUpdate(pcs, t, Idle);
  }

  lemma UnlockWReaders(max: nat, s: State, t: nat)
    requires Inv(max, s) && Enabled(max, s, UnlockW(t))
    ensures var s' := Step(max, s, UnlockW(t)); s'.readers == |Readers(s'.pcs)|
  {
    hide Readers;
    SameReaders(s.pcs, Step(max, s, UnlockW(t)).pcs);
  }

  /** The other steps move one thread, and count it if it starts to read. */
  lemma StepSingle(max: nat, s: State, e: Event)
    requires Enabled(max, s, e) && !e.UnlockW? && !e.UnlockR?
    ensures var s' := Step(max, s, e);
      && |s'.pcs| == |s.pcs| && s'.pcs == s.pcs[e.t := s'.pcs[e.t]]
      && !s.pcs[e.t].Reading? && s'.readers == s.readers + if s'.pcs[e.t].Reading? then 1 else 0
  {
  }

  lemma StepReaders(max: nat, s: State, e: Event)
    requires Inv(max, s) && Enabled(max, s, e)
    ensures var s' := Step(max, s, e); s'.readers == |Readers(s'.pcs)|
  {
    hide Readers, Step, OneEntry, Enabled;
    if e.UnlockW? {
      UnlockWReaders(max, s, e.t);
    } else if e.UnlockR? {
      UnlockReaders(max, s, e.t, e.wake);
    } else {
      StepSingle(max, s, e);
      EventThread(max, s, e);
      ReadersUpdate(s.pcs, e.t, Step(max, s, e).pcs[e.t]);
    }
  }

  lemma EventThread(max: nat, s: State, e: Event)
    requires Enabled(max, s, e)
    ensures e.t < |s.pcs|
  {
  }

  lemma SameReaders(a: seq<Pc>, b: seq<Pc>)
    requires |a| == |b| && forall t :: 0 <= t < |a| ==> (a[t].Reading? <==> b[t].Reading?)
    ensures Readers(a) == Readers(b)
  {
  }

  lemma StepDrained(max: nat, s: State, e: Event)
    requires Inv(max, s) && Enabled(max, s, e)
    ensures var s' := Step(max, s, e);
      && s'.readers <= max
      && (forall t :: 0 <= t < |s'.pcs| && s'.pcs[t].Writing? ==> s'.readers == 0)
      && (forall t :: 0 <= t < |s'.pcs| && s'.pcs[t].Draining? ==> s'.readers > 0)
  {
    var s' := Step(max, s, e);
    forall u | 0 <= u < |s'.pcs| && (s'.pcs[u].Draining? || s'.pcs[u].Writing?)
      ensures s'.readers > 0 <==> s'.pcs[u].Draining?
    {
      assert u != e.t ==> HoldsEntry(s.pcs[u]) && s.pcs[u] == s'.pcs[u];
    }
  }

  lemma StepInv(max: nat, s: State, e: Event)
    requires Inv(max, s) && Enabled(max, s, e)
    ensures Inv(max, Step(max, s, e))
  {
    StepEntry(max, s, e);
    StepReaders(max, s, e);
    StepDrained(max, s, e);
  }

  // ---------------------------------------------------------------------
  // Wakeups
  // ---------------------------------------------------------------------

  /** Unless every thread is idle, some busy thread is awake and can take a step. */
  ghost predicate SomeoneAwake(s: State) {
    (exists t :: 0 <= t < |s.pcs| && !s.pcs[t].Idle?) ==>
      exists t :: 0 <= t < |s.pcs| && !s.pcs[t].Idle? && !Asleep(s.pcs[t])
  }

  /** Few enough threads that a full latch cannot turn two of them away. */
  predicate FewThreads(max: nat, n: nat) {
    max == 1 || n <= max + 1
  }

  /** A thread sleeps on reader_ only while the latch is entered or full or, when there is room
      for a single reader, while somebody already woken is on the way. */
  ghost predicate SleepersCovered(max: nat, s: State) {
    (exists t :: 0 <= t < |s.pcs| && OnReaderCv(s.pcs[t])) ==>
      || s.entered || s.readers == max
      || (max == 1 && exists t :: 0 <= t < |s.pcs| && (s.pcs[t].WokenR? || s.pcs[t].WokenW?))
  }

  lemma CoveredAwake(max: nat, s: State)
    requires 0 < max && Inv(max, s) && SleepersCovered(max, s)
    ensures SomeoneAwake(s)
  {
    if s.readers > 0 {
      var t :| t in Readers(s.pcs);
      assert !Asleep(s.pcs[t]);
    } else if s.entered {
      var h :| 0 <= h < |s.pcs| && HoldsEntry(s.pcs[h]);
      assert !Asleep(s.pcs[h]);
    }
  }

  /** With a full latch and at most max + 1 threads there is room for one non-reader only. */
  lemma OneOutside(max: nat, s: State, t: nat, u: nat)
    requires Counted(s) && s.readers == max && |s.pcs| <= max + 1
    requires t < |s.pcs| && u < |s.pcs| && !s.pcs[t].Reading? && !s.pcs[u].Reading?
    ensures t == u
  {
    var others := Below(|s.pcs|) - Readers(s.pcs);
    assert Below(|s.pcs|) == Readers(s.pcs) + others;
    assert |others| <= 1 && {t, u} <= others;
    assert others == {t} + (others - {t});
  }

  lemma StepCovered(max: nat, s: State, e: Event)
    requires Inv(max, s) && Enabled(max, s, e) && FewThreads(max, |s.pcs|) && SleepersCovered(max, s)
    ensures SleepersCovered(max, Step(max, s, e))
  {
    var s' := Step(max, s, e);
    match e
    case UnlockW(_) =>
    case UnlockR(x, wake) =>
      if t :| 0 <= t < |s'.pcs| && OnReaderCv(s'.pcs[t]) && !s.entered && s.readers == max {
        assert Notified(max, s, s.pcs[t]) && wake.Some?;
        var w := s'.pcs[wake.value];
        assert w.WokenR? || w.WokenW?;
        if max != 1 { OneOutside(max, s, t, wake.value); }
      }
    case _ =>
      assert forall t :: 0 <= t < |s'.pcs| && t != e.t ==> s'.pcs[t] == s.pcs[t];
  }

  lemma NotFull(max: nat, s: State, t: nat)
    requires Counted(s) && |s.pcs| <= max && t < |s.pcs| && !s.pcs[t].Reading?
    ensures s.readers < max
  {
    var others := Below(|s.pcs|) - Readers(s.pcs);
    assert Below(|s.pcs|) == Readers(s.pcs) + others && t in others;
  }

  /** With at most max threads, one asleep on reader_ means a writer has entered. */
  lemma AsleepMeansEntered(max: nat, s: State, t: nat)
    requires Inv(max, s) && SleepersCovered(max, s) && |s.pcs| <= max
    requires t < |s.pcs| && OnReaderCv(s.pcs[t])
    ensures s.entered
  {
    NotFull(max, s, t);
  }

  // ---------------------------------------------------------------------
  // Runs
  // ---------------------------------------------------------------------

  ghost predicate IsRun(max: nat, n: nat, states: seq<State>, events: seq<Event>) {
    && |states| == |events| + 1 && states[0] == Init(n)
    && forall i ::
      0 <= i < |events| ==> Enabled(max, states[i], events[i]) && states[i + 1] == Step(max, states[i], events[i])
  }

  ghost predicate Reachable(max: nat, n: nat, s: State) {
    exists states, events :: IsRun(max, n, states, events) && states[|events|] == s
  }

  lemma {:induction false} RunInv(max: nat, n: nat, states: seq<State>, events: seq<Event>, i: nat)
    requires IsRun(max, n, states, events) && i < |states|
    ensures Inv(max, states[i]) && |states[i].pcs| == n
    ensures FewThreads(max, n) ==> SleepersCovered(max, states[i])
  {
    if i == 0 {
      InitInv(max, n);
    } else {
      RunInv(max, n, states, events, i - 1);
      StepInv(max, states[i - 1], events[i - 1]);
      if FewThreads(max, n) { StepCovered(max, states[i - 1], events[i - 1]); }
    }
  }

  /** Mutual exclusion, for every number of threads and every schedule: a writer shares the
      latch with no other writer and no reader, and no more than max readers are in. */
  lemma MutualExclusion(max: nat, n: nat, s: State, t: nat, u: nat)
    requires Reachable(max, n, s) && t < u < n
    ensures |s.pcs| == n && |Readers(s.pcs)| <= max
    ensures s.pcs[t].Writing? ==> !s.pcs[u].Writing? && !s.pcs[u].Reading?
    ensures s.pcs[u].Writing? ==> !s.pcs[t].Writing? && !s.pcs[t].Reading?
  {
    var states, events :| IsRun(max, n, states, events) && states[|events|] == s;
    RunInv(max, n, states, events, |events|);
    assert s.pcs[t].Reading? ==> t in Readers(s.pcs);
    assert s.pcs[u].Reading? ==> u in Readers(s.pcs);
  }

  /** Below max threads a sleeper on reader_ waits for a writer, and one on writer_ for a reader. */
  lemma SleepersWaitForSomeone(max: nat, n: nat, s: State, t: nat)
    requires Reachable(max, n, s) && t < n <= max
    ensures |s.pcs| == n
    ensures OnReaderCv(s.pcs[t]) ==> s.entered
    ensures s.pcs[t].Draining? ==> |Readers(s.pcs)| > 0
  {
    var states, events :| IsRun(max, n, states, events) && states[|events|] == s;
    RunInv(max, n, states, events, |events|);
    if OnReaderCv(s.pcs[t]) { AsleepMeansEntered(max, s, t); }
  }

  lemma Extend(max: nat, n: nat, s: State, e: Event)
    requires Reachable(max, n, s) && Enabled(max, s, e)
    ensures Reachable(max, n, Step(max, s, e))
  {
    var states, events :| IsRun(max, n, states, events) && states[|events|] == s;
    assert IsRun(max, n, states + [Step(max, s, e)], events + [e]);
  }

  // A run that loses a wakeup. `Mix` lists threads 0..n: the first i are idle, those up to j
  // read, thread `max` is in state p, thread max + 1 in state q, the others are idle.

  function Mix(max: nat, n: nat, i: nat, j: nat, p: Pc, q: Pc): seq<Pc> {
    seq(n, t => if t == max then p else if t == max + 1 then q else if i <= t < j then Reading else Idle)
  }

  lemma {:induction false} FillUp(max: nat, n: nat, j: nat)
    requires max + 2 <= n && j <= max
    ensures Reachable(max, n, State(j, false, Mix(max, n, 0, j, Idle, Idle)))
  {
    if j == 0 {
      assert Mix(max, n, 0, 0, Idle, Idle) == Init(n).pcs;
      assert IsRun(max, n, [Init(n)], []);
    } else {
      FillUp(max, n, j - 1);
      Extend(max, n, State(j - 1, false, Mix(max, n, 0, j - 1, Idle, Idle)), LockR(j - 1));
      assert Mix(max, n, 0, j - 1, Idle, Idle)[j - 1 := Reading] == Mix(max, n, 0, j, Idle, Idle);
    }
  }

  lemma TurnTwoAway(max: nat, n: nat)
    requires max + 2 <= n
    ensures Reachable(max, n, State(max, false, Mix(max, n, 0, max, WaitR, WaitR)))
  {
    FillUp(max, n, max);
    Extend(max, n, State(max, false, Mix(max, n, 0, max, Idle, Idle)), LockR(max));
    assert Mix(max, n, 0, max, Idle, Idle)[max := WaitR] == Mix(max, n, 0, max, WaitR, Idle);
    Extend(max, n, State(max, false, Mix(max, n, 0, max, WaitR, Idle)), LockR(max + 1));
    assert Mix(max, n, 0, max, WaitR, Idle)[max + 1 := WaitR] == Mix(max, n, 0, max, WaitR, WaitR);
  }

  /** The readers leave; only the first to go notifies anybody. */
  lemma {:induction false} ReadersLeave(max: nat, n: nat, i: nat)
    requires max + 2 <= n && 1 <= i <= max
    ensures Reachable(max, n, State(max - i, false, Mix(max, n, i, max, WokenR, WaitR)))
  {
    if i == 1 {
      var s := State(max, false, Mix(max, n, 0, max, WaitR, WaitR));
      TurnTwoAway(max, n);
      Extend(max, n, s, UnlockR(0, Some(max)));
      assert s.pcs[max := WokenR][0 := Idle] == Mix(max, n, 1, max, WokenR, WaitR);
    } else {
      var s := State(max - i + 1, false, Mix(max, n, i - 1, max, WokenR, WaitR));
      ReadersLeave(max, n, i - 1);
      Extend(max, n, s, UnlockR(i - 1, None));
      assert s.pcs[i - 1 := Idle] == Mix(max, n, i, max, WokenR, WaitR);
    }
  }

  /** The woken reader comes and goes without a word; the other one sleeps on an idle latch. */
  lemma LostWakeup(max: nat, n: nat)
    requires 2 <= max && max + 2 <= n
    ensures Reachable(max, n, State(0, false, Mix(max, n, max, max, Idle, WaitR)))
  {
    ReadersLeave(max, n, max);
    var s := State(0, false, Mix(max, n, max, max, WokenR, WaitR));
    Extend(max, n, s, LockR(max));
    var r := State(1, false, Mix(max, n, max, max, Reading, WaitR));
    assert s.pcs[max := Reading] == r.pcs;
    Extend(max, n, r, UnlockR(max, None));
    assert r.pcs[max := Idle] == Mix(max, n, max, max, Idle, WaitR);
  }

  /** Exactly when no schedule can put every busy thread to sleep. */
  lemma NoLostWakeupIff(max: nat, n: nat)
    requires 0 < max
    ensures (forall s :: Reachable(max, n, s) ==> SomeoneAwake(s)) <==> FewThreads(max, n)
  {
    if FewThreads(max, n) {
      forall s | Reachable(max, n, s) ensures SomeoneAwake(s) {
        var states, events :| IsRun(max, n, states, events) && states[|events|] == s;
        RunInv(max, n, states, events, |events|);
        CoveredAwake(max, s);
      }
    } else {
      LostWakeup(max, n);
      var s := State(0, false, Mix(max, n, max, max, Idle, WaitR));
      assert s.pcs[max + 1].WaitR? && !SomeoneAwake(s);
    }
  }
}

/** The latch object: each method is one critical section, run from acquiring the mutex to
    releasing it or going to sleep. */
module LatchObjects {
  import opened Prelude
  import opened Latch

  class ReaderWriterLatch {
    const max: nat
    var readerCount: nat
    var writerEntered: bool

    constructor (max: nat)
      ensures this.max == max && readerCount == 0 && !writerEntered
    {
      this.max, readerCount, writerEntered := max, 0, false;
    }

    /** The object's part of a state whose threads are at pcs. */
    ghost function View(pcs: seq<Pc>): State
      reads this
    {
      State(readerCount, writerEntered, pcs)
    }

    method WLock(ghost pcs: seq<Pc>, ghost t: nat) returns (pc: Pc)
      requires Enabled(max, View(pcs), LockW(t))
      modifies this
      ensures View(pcs[t := pc]) == Step(max, old(View(pcs)), LockW(t))
    {
      if writerEntered { return WaitW; }
      writerEntered := true;
      pc := if readerCount > 0 then Draining else Writing;
    }

    method WLockDrain(ghost pcs: seq<Pc>, ghost t: nat) returns (pc: Pc)
      requires Enabled(max, View(pcs), Drain(t))
      ensures View(pcs[t := pc]) == Step(max, View(pcs), Drain(t))
    {
      pc := if readerCount > 0 then Draining else Writing;
    }

    /** The caller then wakes every sleeper on reader_. */
    method WUnlock(ghost pcs: seq<Pc>, ghost t: nat)
      requires Enabled(max, View(pcs), UnlockW(t))
      modifies this
      ensures var s := Step(max, old(View(pcs)), UnlockW(t)); View(s.pcs) == s
    {
      writerEntered := false;
    }

    method RLock(ghost pcs: seq<Pc>, ghost t: nat) returns (pc: Pc)
      requires Enabled(max, View(pcs), LockR(t))
      modifies this
      ensures View(pcs[t := pc]) == Step(max, old(View(pcs)), LockR(t))
    {
      if writerEntered || readerCount == max { return WaitR; }
      readerCount := readerCount + 1;
      pc := Reading;
    }

    /** Reports which condition variable to notify once. */
    method RUnlock(ghost pcs: seq<Pc>, ghost t: nat, ghost wake: Option<nat>)
        returns (wakeWriter: bool, wakeReader: bool)
      requires Enabled(max, View(pcs), UnlockR(t, wake))
      modifies this
      ensures var s := Step(max, old(View(pcs)), UnlockR(t, wake)); View(s.pcs) == s
      ensures forall p ::
        Notified(max, old(View(pcs)), p) <==> (wakeWriter && p.Draining?) || (wakeReader && OnReaderCv(p))
    {
      readerCount := readerCount - 1;
      wakeWriter, wakeReader := false, false;
      if writerEntered {
        if readerCount == 0 { wakeWriter := true; }
      } else {
        if readerCount == max - 1 { wakeReader := true; }
      }
    }
  }
}
