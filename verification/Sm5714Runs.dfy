/**
 * What holds in every run of the battery driver: any number of threads, any
 * interleaving of single accesses, any transfer failing.
 */
module Sm5714Runs {
  import opened Sm5714Codes
  import opened Sm5714Machine
  import opened Sm5714Battery
  import opened Sm5714Safety

  ghost const DRIVER: iset<Prog> := iset r: Routine :: Body(r)

  // After probe: nothing runs, the boost is off and the flag says so.
  ghost predicate Initial(s: State) {
    s.threads == map[] && s.shared.otgActive == 0 && !s.shared.Boosting()
  }

  ghost predicate Run(states: seq<State>, events: seq<Event>) {
    && |states| == |events| + 1
    && Initial(states[0])
    && forall i :: 0 <= i < |events| ==> Step(states[i], events[i], states[i + 1], DRIVER)
  }

  lemma BeginKeepsCoherent(s: State, t: nat, p: Prog, s': State)
    requires Coherent(s) && Step(s, Begin(t, p), s', DRIVER)
    ensures Coherent(s')
  {
    var r: Routine :| p == Body(r);
    BodySafe(r, s.shared);
    if t in s.threads {
      var n: nat :| Safe(n, s.threads[t].prog, s.threads[t].held, s.shared);
      assert s.threads[t].held == NO_LOCK;
    }
    assert Safe(92, p, NO_LOCK, s'.shared);
    forall u | u in s'.threads ensures ThreadSafe(s'.threads[u], s'.shared) {
      if u != t { assert ThreadSafe(s.threads[u], s.shared); }
    }
    if Free(s', Chg) {
      forall u | u in s.threads ensures !s.threads[u].held.Has(Chg) {
        if u != t { assert s'.threads[u] == s.threads[u]; }
      }
    }
  }

  lemma StepKeepsCoherent(s: State, e: Event, s': State)
    requires Coherent(s) && Step(s, e, s', DRIVER)
    ensures Coherent(s')
    ensures !s.shared.Q4Closed() && s'.shared.Q4Closed() ==> s.shared.vbusCntl == InputCurrentReg(500) as bv8
  {
    match e
    case Begin(t, p) => BeginKeepsCoherent(s, t, p, s');
    case Act(t, c) => ActKeepsCoherent(s, t, c);
  }

  lemma {:induction false} RunIsCoherent(states: seq<State>, events: seq<Event>, i: nat)
    requires Run(states, events) && i < |states|
    ensures Coherent(states[i])
  {
    if i == 0 {
      assert forall t :: t !in states[0].threads;
    } else {
      RunIsCoherent(states, events, i - 1);
      assert Step(states[i - 1], events[i - 1], states[i], DRIVER);
      StepKeepsCoherent(states[i - 1], events[i - 1], states[i]);
    }
  }

  // While the boost drives VBUS, Q4 is open and D-/D+ are on the manual USB path
  // with BC1.2 off; and when chg_lock is free, the flag tells whether it does.
  lemma BoostNeverMeetsQ4(states: seq<State>, events: seq<Event>, i: nat)
    requires Run(states, events) && i < |states|
    ensures states[i].shared.Boosting() ==> !states[i].shared.Q4Closed() && states[i].shared.OtgPath()
    ensures Free(states[i], Chg) ==> (states[i].shared.otgActive != 0 <==> states[i].shared.Boosting())
  {
    RunIsCoherent(states, events, i);
  }

  // Q4 goes from open to closed only while the input limit register holds 500 mA.
  lemma Q4ClosesAt500(states: seq<State>, events: seq<Event>, i: nat)
    requires Run(states, events) && i < |events|
    requires !states[i].shared.Q4Closed() && states[i + 1].shared.Q4Closed()
    ensures states[i].shared.vbusCntl == InputCurrentReg(500) as bv8
    ensures InputCurrentMa(InputCurrentReg(500)) == 500
  {
    RunIsCoherent(states, events, i);
    assert Step(states[i], events[i], states[i + 1], DRIVER);
    StepKeepsCoherent(states[i], events[i], states[i + 1]);
  }

  /** No deadlock, whole or partial. */

  // Thread t can move, or waits for one that can, or for one that waits for one ...
  ghost predicate CanProgress(s: State, t: nat, hops: nat)
    requires t in s.threads
    decreases hops
  {
    || (exists c :: Enabled(s, t, c))
    || (hops > 0 && s.threads[t].prog.Lock? &&
        exists u :: u in s.threads && s.threads[u].held.Has(s.threads[t].prog.m) && CanProgress(s, u, hops - 1))
  }

  function Rank(m: Mutex): nat {
    match m case Global => 0 case Chg => 1 case Sram => 2
  }

  lemma NotWaitingCanMove(s: State, t: nat)
    requires t in s.threads && !s.threads[t].prog.Done?
    requires s.threads[t].prog.Lock? ==> Free(s, s.threads[t].prog.m)
    ensures exists c :: Enabled(s, t, c)
  {
    assert Enabled(s, t, Choice(true, 0));
  }

  lemma {:induction false} WaitersProgress(s: State, t: nat, hops: nat)
    requires Coherent(s) && t in s.threads && !s.threads[t].prog.Done?
    requires s.threads[t].prog.Lock? ==> hops >= 3 - Rank(s.threads[t].prog.m)
    ensures CanProgress(s, t, hops)
    decreases hops
  {
    var p := s.threads[t].prog;
    if p.Lock? && !Free(s, p.m) {
      var u :| u in s.threads && s.threads[u].held.Has(p.m);
      HolderIsBusy(s, u, p.m);
      WaitersProgress(s, u, hops - 1);
    } else {
      NotWaitingCanMove(s, t);
    }
  }

  // A lock is held only by a thread inside a routine, which waits at most for a later lock.
  lemma HolderIsBusy(s: State, u: nat, m: Mutex)
    requires Coherent(s) && u in s.threads && s.threads[u].held.Has(m)
    ensures !s.threads[u].prog.Done?
    ensures s.threads[u].prog.Lock? ==> Rank(s.threads[u].prog.m) > Rank(m)
  {
    var th := s.threads[u];
    var n: nat :| Safe(n, th.prog, th.held, s.shared);
    if !th.prog.Done? {
      assert Rely(th.held, s.shared, s.shared);
      assert SafeStep(n, th.prog, th.held, s.shared);
    }
  }

  // In every reachable state every unfinished routine can move or waits, through
  // at most three locks, for one that can.
  lemma NoDeadlock(states: seq<State>, events: seq<Event>, i: nat, t: nat)
    requires Run(states, events) && i < |states|
    requires t in states[i].threads && !states[i].threads[t].prog.Done?
    ensures CanProgress(states[i], t, 3)
  {
    RunIsCoherent(states, events, i);
    WaitersProgress(states[i], t, 3);
  }

  /** Every call returns. */

  function Acts(events: seq<Event>, t: nat): nat {
    if events == [] then 0
    else Acts(events[..|events| - 1], t) + (if events[|events| - 1].Act? && events[|events| - 1].tid == t then 1 else 0)
  }

  // One event leaves thread t with its budget, less one if it was t that acted.
  lemma BudgetStep(s: State, e: Event, s': State, t: nat, n: nat)
    requires Coherent(s) && Step(s, e, s', DRIVER) && t in s.threads
    requires !(e.Begin? && e.tid == t)
    requires Safe(n, s.threads[t].prog, s.threads[t].held, s.shared)
    ensures t in s'.threads
    ensures var cost := if e.Act? && e.tid == t then 1 else 0;
            cost <= n && Safe(n - cost, s'.threads[t].prog, s'.threads[t].held, s'.shared)
  {
    if e.Act? {
      ActKeepsCoherent(s, e.tid, e.choice);
      if e.tid == t {
        if s.threads[t].prog.Lock? && s.threads[t].prog.m == Chg { assert Free(s, Chg); }
        OneStep(s.threads[t], s.shared, e.choice, n);
      } else {
        RelyFromGuarantee(s.threads[t].held, s.threads[e.tid].held, s.shared, s'.shared);
        SafeUnderRely(n, s.threads[t].prog, s.threads[t].held, s.shared, s'.shared);
      }
    }
  }

  // Thread t entered a routine at event i and is still in that call before event j.
  ghost predicate InCall(events: seq<Event>, i: nat, j: nat, t: nat) {
    && i < j <= |events|
    && events[i].Begin? && events[i].tid == t
    && forall k :: i < k < j ==> !(events[k].Begin? && events[k].tid == t)
  }

  ghost predicate HasBudget(s: State, t: nat, n: int) {
    n >= 0 && t in s.threads && Safe(n, s.threads[t].prog, s.threads[t].held, s.shared)
  }

  lemma BudgetAtBegin(states: seq<State>, events: seq<Event>, i: nat, t: nat)
    requires Run(states, events) && i < |events| && events[i].Begin? && events[i].tid == t
    ensures HasBudget(states[i + 1], t, 92)
  {
    assert Step(states[i], events[i], states[i + 1], DRIVER);
    var r: Routine :| events[i].routine == Body(r);
    BodySafe(r, states[i + 1].shared);
  }

  lemma BudgetOn(states: seq<State>, events: seq<Event>, j: nat, t: nat, n: nat)
    requires Run(states, events) && j < |events| && HasBudget(states[j], t, n)
    requires !(events[j].Begin? && events[j].tid == t)
    ensures HasBudget(states[j + 1], t, n - if events[j].Act? && events[j].tid == t then 1 else 0)
  {
    RunIsCoherent(states, events, j);
    assert Step(states[j], events[j], states[j + 1], DRIVER);
    BudgetStep(states[j], events[j], states[j + 1], t, n);
  }

  lemma {:induction false} BudgetLeft(states: seq<State>, events: seq<Event>, i: nat, j: nat, t: nat)
    requires Run(states, events) && InCall(events, i, j, t)
    ensures HasBudget(states[j], t, 92 - Acts(events[i + 1..j], t))
    decreases j
  {
    if j == i + 1 {
      BudgetAtBegin(states, events, i, t);
    } else {
      BudgetLeft(states, events, i, j - 1, t);
      BudgetOn(states, events, j - 1, t, 92 - Acts(events[i + 1..j - 1], t));
      assert events[i + 1..j][..|events[i + 1..j]| - 1] == events[i + 1..j - 1];
    }
  }

  // A call makes at most 92 accesses of its own before it returns, locks released.
  lemma EveryCallReturns(states: seq<State>, events: seq<Event>, i: nat, j: nat, t: nat)
    requires Run(states, events) && InCall(events, i, j, t)
    ensures t in states[j].threads && Acts(events[i + 1..j], t) <= 92
    ensures Acts(events[i + 1..j], t) == 92 ==> states[j].threads[t].prog.Done?
    ensures states[j].threads[t].prog.Done? ==> states[j].threads[t].held == NO_LOCK
  {
    BudgetLeft(states, events, i, j, t);
  }
}
