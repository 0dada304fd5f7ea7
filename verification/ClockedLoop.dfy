/** A periodic loop as one task of the simulated event loop, among any others.

    The loop's turn is one uninterrupted stretch: it reads the clock, runs its body and
    asks for its next sleep. Everything else, including when time moves, is the world's.
  */
module ClockedLoop {
  import opened RealMath
  import opened VirtualTime
  import opened SimDriver
  import L = PeriodicLoop

  /** The loop's deadline, the instants of its turns, and those its body ran at. */
  datatype Loop = Loop(started: bool, next: real, tops: seq<real>, runs: seq<real>)

  const Idle := Loop(false, 0.0, [], [])

  /** One turn at time `now`: the first only sets the deadline, every later one runs the body. */
  function Turn(l: Loop, now: real, p: real): Loop
    requires p > 0.0
  {
    if !l.started then Loop(true, now + p, l.tops + [now], l.runs)
    else Loop(true, L.Following(l.next, now, p), l.tops + [now], l.runs + [now])
  }

  /** The sleep a turn ends with. */
  function Requested(l: Loop, now: real, p: real): real
    requires p > 0.0
  {
    L.Delay(Turn(l, now, p).next, now, p)
  }

  /** The move is a turn of task i: it sleeps again, or it is done. */
  predicate IsTurn(w: World, i: nat, mv: Move) {
    && i < |w.tasks| && w.tasks[i] == Runnable
    && mv.Env? && ((mv.e.SleepEvent? && mv.e.i == i) || (mv.e.Finish? && mv.e.i == i))
  }

  /** The loop asks for the sleep its code computes, waits for nothing else, and nobody cancels it. */
  predicate Obeys(w: World, l: Loop, i: nat, p: real, mv: Move)
    requires p > 0.0
  {
    match mv
    case Jump => true
    case Env(e) =>
      match e
      case SleepEvent(j, s) => IsTurn(w, i, mv) ==> s == Requested(l, w.clock.t, p)
      case Block(j) => j != i
      case Cancel(j) => j != i
      case Finish(j) => true
      case Unblock(j) => true
      case Spawn => true
  }

  function LoopStep(w: World, l: Loop, i: nat, p: real, mv: Move): Loop
    requires p > 0.0
  {
    if IsTurn(w, i, mv) && (mv.e.SleepEvent? || l.started) then Turn(l, w.clock.t, p) else l
  }

  /** The loop after a history of the world. */
  function LoopAfter(w: World, i: nat, p: real, ms: seq<Move>): Loop
    requires p > 0.0
  {
    if ms == [] then Idle
    else LoopStep(Ran(w, ms[..|ms| - 1]), LoopAfter(w, i, p, ms[..|ms| - 1]), i, p, ms[|ms| - 1])
  }

  predicate Follows(w: World, i: nat, p: real, ms: seq<Move>)
    requires p > 0.0
  {
    forall n | 0 <= n < |ms| :: Obeys(Ran(w, ms[..n]), LoopAfter(w, i, p, ms[..n]), i, p, ms[n])
  }

  // ---------------------------------------------------------------------------- on time

  /** Body j ran at t0 + (j+1) p, and the turn before it was one period earlier. */
  predicate OnGrid(l: Loop, t0: real, p: real) {
    && (forall j | 0 <= j < |l.runs| :: l.runs[j] == t0 + L.Grid(p, j + 1))
    && (forall j | 0 <= j < |l.tops| :: l.tops[j] == t0 + L.Grid(p, j))
  }

  /** So far on time, and about to be: if runnable, exactly at its deadline; if asleep, due then. */
  predicate Timely(w: World, l: Loop, i: nat, t0: real, p: real) {
    && i < |w.tasks| && OnGrid(l, t0, p)
    && match w.tasks[i]
       case Runnable =>
         if l.started then w.clock.t == l.next && Scheduled(l, t0, p)
         else w.clock.t == t0 && l.runs == [] && l.tops == []
       case Parked(o) =>
         l.started && Scheduled(l, t0, p) && o < |w.due| && w.due[o] == l.next && w.clock.t < l.next
       case Finished => true
       case Awaiting => false
  }

  predicate Scheduled(l: Loop, t0: real, p: real) {
    && l.next == t0 + L.Grid(p, |l.runs| + 1)
    && |l.tops| == |l.runs| + 1
  }

  /** A turn taken exactly on time asks for exactly one period more. */
  lemma TurnOnTime(l: Loop, now: real, t0: real, p: real)
    requires p > 0.0 && OnGrid(l, t0, p)
    requires if l.started then now == l.next && Scheduled(l, t0, p) else now == t0 && l.runs == [] && l.tops == []
    ensures var n := Turn(l, now, p);
            && OnGrid(n, t0, p) && n.started && Scheduled(n, t0, p) && n.next == now + p
            && Requested(l, now, p) == p
  {
    hide L.Grid, L.Following, L.Missed;
    L.GridStep(p, |l.runs|);
    L.GridStep(p, |l.runs| + 1);
    L.NothingMissed(now, p);
  }

  lemma TurnTimely(w: World, l: Loop, i: nat, t0: real, p: real, mv: Move)
    requires p > 0.0 && Consistent(w) && Timely(w, l, i, t0, p) && Obeys(w, l, i, p, mv) && IsTurn(w, i, mv)
    ensures Timely(Moved(w, mv), LoopStep(w, l, i, p, mv), i, t0, p)
  {
    hide Turn, Requested, OnGrid, Scheduled, Insert;
    TurnOnTime(l, w.clock.t, t0, p);
  }

  /** Whatever the others do, and while time stands still. */
  lemma OthersTimely(w: World, l: Loop, i: nat, t0: real, p: real, mv: Move)
    requires p > 0.0 && Consistent(w) && Timely(w, l, i, t0, p) && Obeys(w, l, i, p, mv)
    requires mv.Env? && !IsTurn(w, i, mv)
    ensures Timely(Moved(w, mv), LoopStep(w, l, i, p, mv), i, t0, p)
  {
    hide OnGrid, Scheduled, Insert;
  }

  /** A jump leaves a sleeper asleep before its deadline, or wakes it exactly then. */
  lemma JumpOfSleeper(w: World, i: nat)
    requires Consistent(w) && w.clock.waiters != [] && i < |w.tasks| && w.tasks[i].Parked?
    ensures var n, o := Jumped(w), w.tasks[i].order;
            && o < |w.due|
            && ((n.tasks[i] == w.tasks[i] && n.clock.t < w.due[o])
                || (n.tasks[i] == Runnable && n.clock.t == w.due[o]))
  {
    hide Due, Before, Sorted, Advance, Popped, Woken, Matches, InHeap;
    var o := w.tasks[i].order;
    ParkedOrder(w, i);
    SleeperInHeap(w, i);
    HeapParts(w.clock, o);
    PartsDue(w, o);
    SleeperWoken(w, i);
    if Jumped(w).tasks[i].Parked? {
      JumpHolds(w, i);
      HoldsInHeap(Advance(w.clock).waiters, o, i);
    }
  }

  lemma SleeperInHeap(w: World, i: nat)
    requires Consistent(w) && i < |w.tasks| && w.tasks[i].Parked?
    ensures InHeap(w.clock.waiters, w.tasks[i].order) && w.tasks[i].order !in w.cancelled
  {
    assert Holds(w.clock.waiters, w.tasks[i].order, i);
  }

  lemma HoldsInHeap(ws: seq<Waiter>, o: nat, i: nat)
    requires Holds(ws, o, i)
    ensures InHeap(ws, o)
  {}

  /** A task a jump touches was asleep and due. */
  lemma SleeperWoken(w: World, i: nat)
    requires Consistent(w) && w.clock.waiters != [] && i < |w.tasks|
    ensures Jumped(w).tasks[i] == w.tasks[i]
            || (Jumped(w).tasks[i] == Runnable && w.tasks[i].Parked? && InHeap(Popped(w.clock), w.tasks[i].order))
  {
    hide Due, Before, Sorted, Advance, Popped, Woken, Matches;
    var ws := Woken(Popped(w.clock), w.cancelled);
    WokenParked(w);
    ResumeAt(w.tasks, ws, i);
    if k :| 0 <= k < |ws| && ws[k].task == i {
      var j :| 0 <= j < |Popped(w.clock)| && Popped(w.clock)[j] == ws[k];
      assert Popped(w.clock)[j].order == w.tasks[i].order;
    }
  }

  lemma JumpTimely(w: World, l: Loop, i: nat, t0: real, p: real)
    requires p > 0.0 && Consistent(w) && w.clock.waiters != [] && Timely(w, l, i, t0, p) && w.tasks[i] != Runnable
    ensures Timely(Jumped(w), l, i, t0, p)
  {
    hide OnGrid, Scheduled, Consistent, Jumped;
    if w.tasks[i].Parked? {
      JumpOfSleeper(w, i);
      JumpKeepsDue(w);
    } else {
      SleeperWoken(w, i);
      JumpKeepsDue(w);
    }
  }

  lemma JumpKeepsDue(w: World)
    requires w.clock.waiters != []
    ensures Jumped(w).due == w.due && |Jumped(w).tasks| == |w.tasks|
  {}

  /** Time that moves past a runnable loop makes it late. */
  lemma JumpMakesLate(w: World, l: Loop, i: nat, t0: real, p: real)
    requires p > 0.0 && Consistent(w) && w.clock.waiters != [] && Timely(w, l, i, t0, p) && w.tasks[i] == Runnable
    ensures !Timely(Jumped(w), l, i, t0, p)
  {
    hide OnGrid, Scheduled, Consistent, Jumped;
    JumpForward(w);
    SleeperWoken(w, i);
  }

  // -------------------------------------------------------------------------- every history

  /** The clock never moves while the loop has a turn to take. */
  predicate NeverPassedOver(w: World, i: nat, ms: seq<Move>) {
    forall n | 0 <= n < |ms| :: !PassedOver(Ran(w, ms[..n]), i, ms[n])
  }

  predicate PassedOver(w: World, i: nat, mv: Move) {
    mv.Jump? && w.clock.waiters != [] && i < |w.tasks| && w.tasks[i] == Runnable
  }

  predicate AlwaysTimely(w: World, i: nat, t0: real, p: real, ms: seq<Move>)
    requires p > 0.0
  {
    forall n | 0 <= n <= |ms| :: Timely(Ran(w, ms[..n]), LoopAfter(w, i, p, ms[..n]), i, t0, p)
  }

  lemma StepTimelyIff(w: World, l: Loop, i: nat, t0: real, p: real, mv: Move)
    requires p > 0.0 && Consistent(w) && Timely(w, l, i, t0, p) && Obeys(w, l, i, p, mv)
    ensures Timely(Moved(w, mv), LoopStep(w, l, i, p, mv), i, t0, p) <==> !PassedOver(w, i, mv)
  {
    hide Timely, Obeys, Consistent, Next, Jumped, Turn;
    match mv
    case Jump =>
      if w.clock.waiters != [] {
        TimelyTask(w, l, i, t0, p);
        if w.tasks[i] == Runnable {
          JumpMakesLate(w, l, i, t0, p);
        } else {
          JumpTimely(w, l, i, t0, p);
        }
      }
    case Env(_) =>
      if IsTurn(w, i, mv) {
        TurnTimely(w, l, i, t0, p, mv);
      } else {
        OthersTimely(w, l, i, t0, p, mv);
      }
  }

  lemma TimelyTask(w: World, l: Loop, i: nat, t0: real, p: real)
    requires Timely(w, l, i, t0, p)
    ensures i < |w.tasks|
  {}

  /** The exact condition: the loop is on time throughout a history if and only if the
      clock never moves while it has a turn to take. */
  lemma {:induction false} TimelyIff(w: World, i: nat, t0: real, p: real, ms: seq<Move>)
    requires p > 0.0 && Consistent(w) && Timely(w, Idle, i, t0, p) && Follows(w, i, p, ms)
    ensures AlwaysTimely(w, i, t0, p, ms) <==> NeverPassedOver(w, i, ms)
    decreases |ms|
  {
    hide Consistent, Timely, Obeys, Moved, LoopStep, PassedOver;
    if ms == [] {
      assert ms[..0] == [];
    } else {
      var k := |ms| - 1;
      Shorter(w, i, t0, p, ms);
      TimelyIff(w, i, t0, p, ms[..k]);
      RanConsistent(w, ms[..k]);
      if AlwaysTimely(w, i, t0, p, ms[..k]) {
        assert ms[..k][..k] == ms[..k];
        StepTimelyIff(Ran(w, ms[..k]), LoopAfter(w, i, p, ms[..k]), i, t0, p, ms[k]);
      }
    }
  }

  lemma Shorter(w: World, i: nat, t0: real, p: real, ms: seq<Move>)
    requires p > 0.0 && ms != []
    ensures var k := |ms| - 1;
            && (Follows(w, i, p, ms) ==> Follows(w, i, p, ms[..k]))
            && (AlwaysTimely(w, i, t0, p, ms) <==>
                  AlwaysTimely(w, i, t0, p, ms[..k]) && Timely(Ran(w, ms), LoopAfter(w, i, p, ms), i, t0, p))
            && (NeverPassedOver(w, i, ms) <==> NeverPassedOver(w, i, ms[..k]) && !PassedOver(Ran(w, ms[..k]), i, ms[k]))
  {
    hide Follows, AlwaysTimely, NeverPassedOver, Timely, PassedOver;
    if Follows(w, i, p, ms) {
      ShorterFollows(w, i, p, ms);
    }
    ShorterTimely(w, i, t0, p, ms);
    ShorterPassed(w, i, ms);
  }

  lemma Prefixes(ms: seq<Move>, k: nat)
    requires k <= |ms|
    ensures forall n | 0 <= n <= k :: ms[..k][..n] == ms[..n]
    ensures ms[..|ms|] == ms
  {}

  lemma ShorterFollows(w: World, i: nat, p: real, ms: seq<Move>)
    requires p > 0.0 && ms != [] && Follows(w, i, p, ms)
    ensures Follows(w, i, p, ms[..|ms| - 1])
  {
    hide Obeys, Ran, LoopAfter;
    Prefixes(ms, |ms| - 1);
  }

  lemma ShorterTimely(w: World, i: nat, t0: real, p: real, ms: seq<Move>)
    requires p > 0.0 && ms != []
    ensures AlwaysTimely(w, i, t0, p, ms) <==>
              AlwaysTimely(w, i, t0, p, ms[..|ms| - 1]) && Timely(Ran(w, ms), LoopAfter(w, i, p, ms), i, t0, p)
  {
    hide Timely, Ran, LoopAfter;
    var k := |ms| - 1;
    Prefixes(ms, k);
    if AlwaysTimely(w, i, t0, p, ms) {
      assert Timely(Ran(w, ms[..k + 1]), LoopAfter(w, i, p, ms[..k + 1]), i, t0, p);
    }
  }

  lemma ShorterPassed(w: World, i: nat, ms: seq<Move>)
    requires ms != []
    ensures NeverPassedOver(w, i, ms) <==>
              NeverPassedOver(w, i, ms[..|ms| - 1]) && !PassedOver(Ran(w, ms[..|ms| - 1]), i, ms[|ms| - 1])
  {
    hide PassedOver, Ran;
    Prefixes(ms, |ms| - 1);
  }

  lemma {:induction false} RanConsistent(w: World, ms: seq<Move>)
    requires Consistent(w)
    ensures Consistent(Ran(w, ms))
  {
    hide Consistent, Next, Jumped;
    if ms != [] {
      var was := Ran(w, ms[..|ms| - 1]);
      RanConsistent(w, ms[..|ms| - 1]);
      match ms[|ms| - 1]
      case Env(e) => NextConsistent(was, e);
      case Jump => if was.clock.waiters != [] { JumpConsistent(was); }
    }
  }

  // --------------------------------------------------------------------- under the driver

  /** Every advance passed the driver's test, with no cancelled sleep left in the heap. */
  predicate CleanlyDriven(w: World, ms: seq<Move>) {
    forall k | 0 <= k < |Advances(w, ms)| :: LooksParked(Advances(w, ms)[k]) && Stale(Advances(w, ms)[k]) == 0
  }

  lemma {:induction false} AdvanceListed(w: World, ms: seq<Move>, n: nat)
    requires n < |ms| && ms[n].Jump? && Ran(w, ms[..n]).clock.waiters != []
    ensures Ran(w, ms[..n]) in Advances(w, ms)
    decreases |ms|
  {
    hide Ran;
    var k := |ms| - 1;
    if n < k {
      assert ms[..k][..n] == ms[..n];
      AdvanceListed(w, ms[..k], n);
    }
  }

  /** The test, where it is exact, never passes over a runnable loop. */
  lemma DrivenNotPassedOver(w: World, i: nat, ms: seq<Move>)
    requires Consistent(w) && CleanlyDriven(w, ms)
    ensures NeverPassedOver(w, i, ms)
  {
    hide Ran, Advances, Consistent, LooksParked, Stale;
    forall n | 0 <= n < |ms| ensures !PassedOver(Ran(w, ms[..n]), i, ms[n]) {
      var was := Ran(w, ms[..n]);
      if ms[n].Jump? && was.clock.waiters != [] {
        AdvanceListed(w, ms, n);
        RanConsistent(w, ms[..n]);
        QuiescentIff(was);
      }
    }
  }

  /** Under the driver of simulated time, as long as no advance is made with a cancelled
      sleep in the heap, body j of a periodic task runs exactly at t0 + (j+1) p and the task
      goes back to sleep in the same instant, whatever the other tasks do: what the loop
      does against an exact clock. No body is missing: until the task ends, time is never
      past the next one. */
  lemma RunsExactly(t0: real, tasks: nat, i: nat, p: real, ms: seq<Move>)
    requires p > 0.0 && i < tasks
    requires Follows(Opening(t0, tasks), i, p, ms) && CleanlyDriven(Opening(t0, tasks), ms)
    ensures var l := LoopAfter(Opening(t0, tasks), i, p, ms);
            && (forall j | 0 <= j < |l.runs| ::
                  && l.runs[j] == t0 + L.Grid(p, j + 1)
                  && l.runs[j] == L.Now(t0, p, Exact(), j))
            && (forall j | 0 <= j < |l.tops| ::
                  && l.tops[j] == t0 + L.Grid(p, j)
                  && l.tops[j] == L.Top(t0, p, Exact(), j))
    ensures var n, l := Ran(Opening(t0, tasks), ms), LoopAfter(Opening(t0, tasks), i, p, ms);
            i < |n.tasks| && (n.tasks[i] != Finished ==>
              n.clock.t <= if l.started then t0 + L.Grid(p, |l.runs| + 1) else t0)
  {
    hide Consistent, LoopAfter, Follows, CleanlyDriven, NeverPassedOver, Ran, L.Grid, L.Now;
    var w := Opening(t0, tasks);
    OpeningRight(t0, tasks);
    DrivenNotPassedOver(w, i, ms);
    TimelyIff(w, i, t0, p, ms);
    var l := LoopAfter(w, i, p, ms);
    assert ms[..|ms|] == ms;
    assert OnGrid(l, t0, p);
    forall j | 0 <= j < |l.runs| ensures l.runs[j] == L.Now(t0, p, Exact(), j) {
      L.VirtualExact(t0, p, Exact(), j);
    }
    forall j | 0 <= j < |l.tops| ensures l.tops[j] == L.Top(t0, p, Exact(), j) {
      if j == 0 {
        L.GridStep(p, 0);
      } else {
        L.VirtualExact(t0, p, Exact(), j - 1);
      }
    }
  }

  /** The clock the driver amounts to: no sleep returns late and no body takes time. */
  function Exact(): L.Env {
    L.Env(_ => 0.0, _ => 0.0)
  }

  // ------------------------------------------------------------------------- passed over

  /** A loop of period 1 and another task that is cancelled out of a long sleep and ends. */
  function StaleHistory(): seq<Move> {
    [Env(SleepEvent(0, 1.0)), Env(SleepEvent(1, 100.0)), Env(Cancel(1)), Env(Finish(1)), Jump, Jump, Env(Finish(0))]
  }

  /** The worlds along it. */
  function StaleWorld(n: nat): World {
    if n == 0 then Opening(0.0, 2)
    else if n == 1 then World(Clock(0.0, [Waiter(1.0, 0, 0)], 1), [Parked(0), Runnable], {}, [1.0], [])
    else if n == 2 then World(Clock(0.0, [Waiter(1.0, 0, 0), Waiter(100.0, 1, 1)], 2), [Parked(0), Parked(1)], {}, [1.0, 100.0], [])
    else if n == 3 then World(Clock(0.0, [Waiter(1.0, 0, 0), Waiter(100.0, 1, 1)], 2), [Parked(0), Runnable], {1}, [1.0, 100.0], [])
    else if n == 4 then World(Clock(0.0, [Waiter(1.0, 0, 0), Waiter(100.0, 1, 1)], 2), [Parked(0), Finished], {1}, [1.0, 100.0], [])
    else if n == 5 then World(Clock(1.0, [Waiter(100.0, 1, 1)], 2), [Runnable, Finished], {1}, [1.0, 100.0], [Wake(0, 1.0)])
    else if n == 6 then World(Clock(100.0, [], 2), [Runnable, Finished], {1}, [1.0, 100.0], [Wake(0, 1.0)])
    else World(Clock(100.0, [], 2), [Finished, Finished], {1}, [1.0, 100.0], [Wake(0, 1.0)])
  }

  lemma StaleEvents(n: nat)
    requires n < 4
    ensures StaleHistory()[n].Env? && Next(StaleWorld(n), StaleHistory()[n].e) == StaleWorld(n + 1)
  {
    var w := StaleWorld(n);
    if n == 0 {
      assert w.tasks == [Runnable, Runnable];
    } else if n == 1 {
      assert Insert([Waiter(1.0, 0, 0)][1..], Waiter(100.0, 1, 1)) == [Waiter(100.0, 1, 1)];
    }
  }

  /** A jump that pops one waiter, the head. */
  lemma PopHead(c: Clock)
    requires c.waiters != [] && (|c.waiters| > 1 ==> c.waiters[1].deadline > c.waiters[0].deadline)
    ensures Popped(c) == [c.waiters[0]] && Advance(c) == Clock(c.waiters[0].deadline, c.waiters[1..], c.counter)
  {
    assert Due(c.waiters[1..], c.waiters[0].deadline) == 0;
    assert c.waiters[..1] == [c.waiters[0]];
  }

  lemma WokenOne(w: Waiter, cancelled: set<nat>)
    ensures Woken([w], cancelled) == if w.order in cancelled then [] else [w]
  {
    assert [w][..0] == [];
  }

  /** A jump over a cancelled sleep wakes nobody; over any other, its sleeper. */
  lemma JumpHead(w: World)
    requires w.clock.waiters != []
    requires |w.clock.waiters| > 1 ==> w.clock.waiters[1].deadline > w.clock.waiters[0].deadline
    requires w.clock.waiters[0].task < |w.tasks|
    ensures var k, rest := w.clock.waiters[0], w.clock.waiters[1..];
            Jumped(w) == if k.order in w.cancelled
              then w.(clock := Clock(k.deadline, rest, w.clock.counter))
              else w.(clock := Clock(k.deadline, rest, w.clock.counter), tasks := w.tasks[k.task := Runnable],
                      wakes := w.wakes + [Wake(k.order, k.deadline)])
  {
    hide Popped, Advance, Woken, Resume;
    var k := w.clock.waiters[0];
    PopHead(w.clock);
    WokenOne(k, w.cancelled);
    ResumeNone(w.tasks);
    ResumeOne(w.tasks, [k]);
    assert w.wakes + [] == w.wakes;
    assert WakesOf([k], k.deadline) == [Wake(k.order, k.deadline)];
    assert WakesOf([], k.deadline) == [];
  }

  lemma ResumeNone(tasks: seq<Status>)
    ensures Resume(tasks, []) == tasks
  {}

  lemma StaleJumps(n: nat)
    requires n == 4 || n == 5
    ensures StaleWorld(n).clock.waiters != [] && Jumped(StaleWorld(n)) == StaleWorld(n + 1)
    ensures LooksParked(StaleWorld(n)) && (AllParked(StaleWorld(n)) <==> n == 4)
  {
    hide Jumped, Live;
    var w := StaleWorld(n);
    StaleLive(w.tasks);
    JumpHead(w);
    if n == 4 {
      assert w.clock.waiters[1..] == [Waiter(100.0, 1, 1)];
      assert w.tasks[0 := Runnable] == [Runnable, Finished];
      assert w.wakes + [Wake(0, 1.0)] == [Wake(0, 1.0)];
    } else {
      assert w.clock.waiters[1..] == [];
      assert w.tasks[0] == Runnable;
    }
  }

  lemma StaleLive(tasks: seq<Status>)
    requires |tasks| == 2 && tasks[0] != Finished && tasks[1] == Finished
    ensures Live(tasks) == 1
  {
    assert Live(tasks[..1]) == 1 by {
      assert tasks[..1][..0] == [];
    }
  }

  lemma ResumeOne(tasks: seq<Status>, ws: seq<Waiter>)
    requires |ws| == 1 && ws[0].task < |tasks|
    ensures Resume(tasks, ws) == tasks[ws[0].task := Runnable]
  {
    assert ws[..0] == [];
    ResumeNone(tasks);
  }

  lemma {:induction false} StaleRan(n: nat)
    requires n <= 7
    ensures Ran(Opening(0.0, 2), StaleHistory()[..n]) == StaleWorld(n)
  {
    hide StaleWorld, Next, Jumped, Opening;
    if n == 0 {
      StaleStart();
    } else {
      StaleRan(n - 1);
      assert StaleHistory()[..n][..n - 1] == StaleHistory()[..n - 1];
      StaleMove(n - 1);
    }
  }

  lemma StaleStart()
    ensures StaleWorld(0) == Opening(0.0, 2)
  {}

  lemma StaleMove(n: nat)
    requires n < 7
    ensures Moved(StaleWorld(n), StaleHistory()[n]) == StaleWorld(n + 1)
  {
    if n < 4 {
      StaleEvents(n);
    } else if n < 6 {
      StaleJumps(n);
    }
  }

  /** The loop along it: asleep for 1.0 until the end, then one run at 100.0. */
  function StaleLoopAt(n: nat): Loop {
    if n == 0 then Idle
    else if n < 7 then Loop(true, 1.0, [0.0], [])
    else Loop(true, L.Following(1.0, 100.0, 1.0), [0.0, 100.0], [100.0])
  }

  lemma StaleTurn(n: nat)
    requires n < 7
    ensures LoopStep(StaleWorld(n), StaleLoopAt(n), 0, 1.0, StaleHistory()[n]) == StaleLoopAt(n + 1)
  {
    hide L.Following;
  }

  lemma LoopAfterStep(w: World, i: nat, p: real, ms: seq<Move>, n: nat)
    requires p > 0.0 && n < |ms|
    ensures LoopAfter(w, i, p, ms[..n + 1])
         == LoopStep(Ran(w, ms[..n]), LoopAfter(w, i, p, ms[..n]), i, p, ms[n])
  {
    hide LoopStep, Ran;
    assert ms[..n + 1][..n] == ms[..n];
  }

  lemma StaleLength()
    ensures |StaleHistory()| == 7 && StaleHistory()[..7] == StaleHistory() && StaleHistory()[..0] == []
  {}

  lemma {:induction false} StaleLoop(n: nat)
    requires n <= 7
    ensures LoopAfter(Opening(0.0, 2), 0, 1.0, StaleHistory()[..n]) == StaleLoopAt(n)
  {
    hide StaleHistory, StaleWorld, LoopStep, Ran, Opening, LoopAfter, StaleLoopAt;
    StaleLength();
    if n == 0 {
      NoLoop(Opening(0.0, 2), 0, 1.0);
    } else {
      StaleLoop(n - 1);
      StaleRan(n - 1);
      LoopAfterStep(Opening(0.0, 2), 0, 1.0, StaleHistory(), n - 1);
      StaleTurn(n - 1);
    }
  }

  lemma NoLoop(w: World, i: nat, p: real)
    requires p > 0.0
    ensures LoopAfter(w, i, p, []) == Idle == StaleLoopAt(0)
  {}

  /** The condition cannot be dropped. One cancelled sleep left in the heap, and the driver's
      own test lets it advance twice without a turn for the loop: a loop of period 1 started
      at 0 has its first run at 100. */
  lemma StaleSleepDelaysTheLoop()
    ensures var w, ms := Opening(0.0, 2), StaleHistory();
            && Follows(w, 0, 1.0, ms)
            && (forall k | 0 <= k < |Advances(w, ms)| :: LooksParked(Advances(w, ms)[k]))
            && !CleanlyDriven(w, ms)
            && LoopAfter(w, 0, 1.0, ms).runs == [100.0]
  {
    hide StaleWorld, StaleHistory, StaleLoopAt, Jumped, Ran, LoopAfter, Advances, Obeys, CleanlyDriven, LooksParked, Opening;
    var w, ms := Opening(0.0, 2), StaleHistory();
    StaleLength();
    forall n | 0 <= n < 7 ensures Obeys(Ran(w, ms[..n]), LoopAfter(w, 0, 1.0, ms[..n]), 0, 1.0, ms[n]) {
      StaleRan(n);
      StaleLoop(n);
      StaleObeys(n);
    }
    AdvancesUpTo(7);
    StaleDriven(w, ms);
    StaleLoop(7);
    StaleEnd();
  }

  lemma StaleEnd()
    ensures StaleLoopAt(7).runs == [100.0]
  {}

  lemma StaleObeys(n: nat)
    requires n < 7
    ensures Obeys(StaleWorld(n), StaleLoopAt(n), 0, 1.0, StaleHistory()[n])
  {
    hide L.Following;
  }

  /** Both advances pass the test, the second over a cancelled sleep. */
  lemma StaleDriven(w: World, ms: seq<Move>)
    requires Advances(w, ms) == [StaleWorld(4), StaleWorld(5)]
    ensures forall k | 0 <= k < |Advances(w, ms)| :: LooksParked(Advances(w, ms)[k])
    ensures !CleanlyDriven(w, ms)
  {
    hide StaleWorld, Advances, LooksParked, Stale, Jumped, AllParked;
    StaleJumps(4);
    StaleJumps(5);
    StaleCount();
    assert Advances(w, ms)[1] == StaleWorld(5);
  }

  lemma StaleCount()
    ensures Stale(StaleWorld(5)) == 1
  {
    assert StaleWorld(5).clock.waiters[1..] == [];
  }

  /** The world, where the move is an advance of its clock. */
  function Jumping(w: World, mv: Move): seq<World> {
    if mv.Jump? && w.clock.waiters != [] then [w] else []
  }

  lemma AdvancesStep(w: World, ms: seq<Move>, n: nat)
    requires n < |ms|
    ensures Advances(w, ms[..n + 1]) == Advances(w, ms[..n]) + Jumping(Ran(w, ms[..n]), ms[n])
  {
    hide Ran;
    assert ms[..n + 1][..n] == ms[..n];
  }

  lemma StaleKinds(n: nat)
    requires n < 7
    ensures StaleHistory()[n].Jump? <==> n == 4 || n == 5
    ensures n == 4 || n == 5 ==> StaleWorld(n).clock.waiters != []
  {}

  /** The advances of the first n moves. */
  function StaleLog(n: nat): seq<World> {
    if n <= 4 then [] else if n == 5 then [StaleWorld(4)] else [StaleWorld(4), StaleWorld(5)]
  }

  lemma StaleLogStep(n: nat)
    requires n < 7
    ensures StaleLog(n + 1) == StaleLog(n) + if n == 4 || n == 5 then [StaleWorld(n)] else []
  {
    hide StaleWorld;
  }

  lemma {:induction false} AdvancesUpTo(n: nat)
    requires n <= 7
    ensures Advances(Opening(0.0, 2), StaleHistory()[..n]) == StaleLog(n)
  {
    hide StaleHistory, StaleWorld, Ran, Opening, Advances, StaleLog;
    StaleLength();
    if n == 0 {
      NoAdvance(Opening(0.0, 2));
    } else {
      AdvancesUpTo(n - 1);
      StaleRan(n - 1);
      StaleKinds(n - 1);
      AdvancesStep(Opening(0.0, 2), StaleHistory(), n - 1);
      StaleLogStep(n - 1);
    }
  }

  lemma NoAdvance(w: World)
    ensures Advances(w, []) == [] == StaleLog(0)
  {}
}
