/** The driver of simulated time, over an event loop whose tasks do whatever they
    like between two looks of the driver.
  */
module SimDriver {
  import opened VirtualTime

  datatype Status = Runnable | Parked(order: nat) | Awaiting | Finished

  datatype Wake = Wake(order: nat, at: real)

  /** The loop's tasks, the sleeps cancelled while parked, and the run's ledger:
      the deadline of every sleep so far and every wake-up. */
  datatype World = World(clock: Clock, tasks: seq<Status>, cancelled: set<nat>, due: seq<real>, wakes: seq<Wake>)

  /** What tasks may do while the driver turns. `Block` is waiting for anything but the clock. */
  datatype Event =
    | SleepEvent(i: nat, seconds: real)
    | Finish(i: nat)
    | Spawn
    | Block(i: nat)
    | Unblock(i: nat)
    | Cancel(i: nat)

  function Opening(start: real, tasks: nat): World {
    World(Start(start), seq(tasks, _ => Runnable), {}, [], [])
  }

  function Next(w: World, e: Event): World {
    match e
    case SleepEvent(i, s) =>
      if i < |w.tasks| && w.tasks[i] == Runnable && s > 0.0
      then w.(clock := Sleep(w.clock, i, s), tasks := w.tasks[i := Parked(w.clock.counter)],
              due := w.due + [w.clock.t + s])
      else w
    case Finish(i) => if i < |w.tasks| && w.tasks[i] == Runnable then w.(tasks := w.tasks[i := Finished]) else w
    case Spawn => w.(tasks := w.tasks + [Runnable])
    case Block(i) => if i < |w.tasks| && w.tasks[i] == Runnable then w.(tasks := w.tasks[i := Awaiting]) else w
    case Unblock(i) => if i < |w.tasks| && w.tasks[i] == Awaiting then w.(tasks := w.tasks[i := Runnable]) else w
    case Cancel(i) =>
      if i < |w.tasks| && w.tasks[i].Parked?
      then w.(cancelled := w.cancelled + {w.tasks[i].order}, tasks := w.tasks[i := Runnable])
      else if i < |w.tasks| && w.tasks[i] == Awaiting then w.(tasks := w.tasks[i := Runnable])
      else w
  }

  function After(w: World, es: seq<Event>): World {
    if es == [] then w else Next(After(w, es[..|es| - 1]), es[|es| - 1])
  }

  function Resume(tasks: seq<Status>, ws: seq<Waiter>): (r: seq<Status>)
    ensures |r| == |tasks|
  {
    if ws == [] then tasks
    else
      var r := Resume(tasks, ws[..|ws| - 1]);
      if ws[|ws| - 1].task < |r| then r[ws[|ws| - 1].task := Runnable] else r
  }

  function WakesOf(ws: seq<Waiter>, t: real): seq<Wake> {
    seq(|ws|, k requires 0 <= k < |ws| => Wake(ws[k].order, t))
  }

  /** One advance of the clock. */
  function Jumped(w: World): World
    requires w.clock.waiters != []
  {
    var woken := Woken(Popped(w.clock), w.cancelled);
    w.(clock := Advance(w.clock), tasks := Resume(w.tasks, woken),
       wakes := w.wakes + WakesOf(woken, Advance(w.clock).t))
  }

  // ------------------------------------------------------------------------- quiescence

  function Live(tasks: seq<Status>): nat {
    if tasks == [] then 0 else Live(tasks[..|tasks| - 1]) + if tasks[|tasks| - 1] == Finished then 0 else 1
  }

  function CountParked(tasks: seq<Status>): nat {
    if tasks == [] then 0 else CountParked(tasks[..|tasks| - 1]) + if tasks[|tasks| - 1].Parked? then 1 else 0
  }

  /** Sleeps still in the heap whose sleeper was cancelled. */
  function CountStale(ws: seq<Waiter>, cancelled: set<nat>): nat {
    if ws == [] then 0 else CountStale(ws[1..], cancelled) + if ws[0].order in cancelled then 1 else 0
  }

  /** Live tasks not parked on the clock. */
  function Loose(w: World): int {
    Live(w.tasks) - CountParked(w.tasks)
  }

  /** The driver's test. */
  predicate LooksParked(w: World) {
    |w.clock.waiters| >= Live(w.tasks)
  }

  predicate AllParked(w: World) {
    forall i | 0 <= i < |w.tasks| :: w.tasks[i].Parked? || w.tasks[i] == Finished
  }

  predicate Matches(w: World, k: Waiter) {
    && k.task < |w.tasks| && k.order < |w.due| && w.due[k.order] == k.deadline
    && (k.order !in w.cancelled ==> w.tasks[k.task] == Parked(k.order))
  }

  predicate InHeap(ws: seq<Waiter>, o: nat) {
    exists k :: 0 <= k < |ws| && ws[k].order == o
  }

  predicate Holds(ws: seq<Waiter>, o: nat, task: nat) {
    exists k :: 0 <= k < |ws| && ws[k].order == o && ws[k].task == task
  }

  /** Heap and tasks agree. */
  predicate Consistent(w: World) {
    && Valid(w.clock) && |w.due| == w.clock.counter
    && (forall k | 0 <= k < |w.clock.waiters| :: Matches(w, w.clock.waiters[k]))
    && (forall o | o in w.cancelled :: o < w.clock.counter)
    && (forall i | 0 <= i < |w.tasks| && w.tasks[i].Parked? ::
          w.tasks[i].order !in w.cancelled && Holds(w.clock.waiters, w.tasks[i].order, i))
    && CountParked(w.tasks) + CountStale(w.clock.waiters, w.cancelled) == |w.clock.waiters|
  }

  lemma {:induction false} LooseIff(tasks: seq<Status>)
    ensures CountParked(tasks) <= Live(tasks)
    ensures CountParked(tasks) == Live(tasks)
       <==> forall i | 0 <= i < |tasks| :: tasks[i].Parked? || tasks[i] == Finished
  {
    if tasks != [] {
      LooseIff(tasks[..|tasks| - 1]);
    }
  }

  /** The test passes exactly when the live tasks not parked are no more than the
      cancelled sleeps still in the heap. */
  lemma QuiescenceExact(w: World)
    requires Consistent(w)
    ensures LooksParked(w) <==> Loose(w) <= CountStale(w.clock.waiters, w.cancelled)
    ensures Loose(w) == 0 <==> AllParked(w)
    ensures Loose(w) >= 0
  {
    LooseIff(w.tasks);
  }

  lemma {:induction false} NoneStale(ws: seq<Waiter>, cancelled: set<nat>)
    requires forall k | 0 <= k < |ws| :: ws[k].order !in cancelled
    ensures CountStale(ws, cancelled) == 0
  {
    if ws != [] {
      NoneStale(ws[1..], cancelled);
    }
  }

  function Stale(w: World): nat {
    CountStale(w.clock.waiters, w.cancelled)
  }

  /** While no cancelled sleep is in the heap, the test is exact. */
  lemma QuiescentIff(w: World)
    requires Consistent(w) && Stale(w) == 0
    ensures LooksParked(w) <==> AllParked(w)
  {
    QuiescenceExact(w);
  }

  /** The rule, that time moves only when every live task is parked, is kept by the test
      exactly where no live task is loose or more are than cancelled sleeps are left. */
  lemma RuleKeptIff(w: World)
    requires Consistent(w)
    ensures (LooksParked(w) ==> AllParked(w)) <==> Loose(w) == 0 || Loose(w) > Stale(w)
  {
    QuiescenceExact(w);
  }

  /** Every parked task as it is, every other finished, and one more runnable. */
  function Fooling(tasks: seq<Status>): (r: seq<Status>)
    ensures |r| == |tasks| + 1
  {
    seq(|tasks|, i requires 0 <= i < |tasks| => if tasks[i].Parked? then tasks[i] else Finished) + [Runnable]
  }

  /** Whenever a cancelled sleep is in the heap there are tasks that fool the test. */
  lemma StaleFools(w: World)
    requires Consistent(w) && Stale(w) > 0
    ensures var n := w.(tasks := Fooling(w.tasks));
            Consistent(n) && LooksParked(n) && !AllParked(n) && n.tasks[|w.tasks|] == Runnable
  {
    hide Valid, Holds;
    var n := w.(tasks := Fooling(w.tasks));
    FoolingCounts(w.tasks);
    forall k | 0 <= k < |w.clock.waiters| ensures Matches(n, w.clock.waiters[k]) {
      assert Matches(w, w.clock.waiters[k]);
    }
    assert n.tasks[|w.tasks|] == Runnable;
  }

  lemma FoolingCounts(tasks: seq<Status>)
    ensures CountParked(Fooling(tasks)) == CountParked(tasks)
    ensures Live(Fooling(tasks)) == CountParked(tasks) + 1
  {
    var rest := Fooling(tasks)[..|tasks|];
    assert Fooling(tasks) == rest + [Runnable];
    CountsAppend(rest, Runnable);
    SettledCounts(tasks, rest);
  }

  lemma {:induction false} SettledCounts(tasks: seq<Status>, rest: seq<Status>)
    requires |rest| == |tasks|
    requires forall i | 0 <= i < |tasks| :: rest[i] == if tasks[i].Parked? then tasks[i] else Finished
    ensures CountParked(rest) == CountParked(tasks) == Live(rest)
  {
    if tasks != [] {
      SettledCounts(tasks[..|tasks| - 1], rest[..|tasks| - 1]);
    }
  }

  // ------------------------------------------------------------------- counting under updates

  lemma {:induction false} CountsUpdate(tasks: seq<Status>, i: nat, s: Status)
    requires i < |tasks|
    ensures CountParked(tasks[i := s])
         == CountParked(tasks) - (if tasks[i].Parked? then 1 else 0) + (if s.Parked? then 1 else 0)
    ensures Live(tasks[i := s])
         == Live(tasks) - (if tasks[i] == Finished then 0 else 1) + (if s == Finished then 0 else 1)
  {
    var n := |tasks| - 1;
    if i == n {
      assert tasks[i := s][..n] == tasks[..n];
    } else {
      assert tasks[i := s][..n] == tasks[..n][i := s];
      CountsUpdate(tasks[..n], i, s);
    }
  }

  lemma CountsAppend(tasks: seq<Status>, s: Status)
    ensures CountParked(tasks + [s]) == CountParked(tasks) + if s.Parked? then 1 else 0
    ensures Live(tasks + [s]) == Live(tasks) + if s == Finished then 0 else 1
  {
    assert (tasks + [s])[..|tasks|] == tasks;
  }

  lemma {:induction false} StaleInsert(ws: seq<Waiter>, w: Waiter, cancelled: set<nat>)
    ensures CountStale(Insert(ws, w), cancelled) == CountStale(ws, cancelled) + if w.order in cancelled then 1 else 0
  {
    if ws != [] && !Before(w, ws[0]) {
      StaleInsert(ws[1..], w, cancelled);
      assert ([ws[0]] + Insert(ws[1..], w))[1..] == Insert(ws[1..], w);
    } else if ws != [] {
      assert ([w] + ws)[1..] == ws;
    }
  }

  /** Cancelling one parked sleep makes exactly one waiter stale. */
  lemma {:induction false} StaleCancel(ws: seq<Waiter>, cancelled: set<nat>, o: nat)
    requires Distinct(ws) && o !in cancelled
    ensures CountStale(ws, cancelled + {o}) == CountStale(ws, cancelled) + if InHeap(ws, o) then 1 else 0
  {
    if ws != [] {
      StaleCancel(ws[1..], cancelled, o);
      if ws[0].order == o {
        forall k | 0 <= k < |ws[1..]| ensures ws[1..][k].order != o {
          assert ws[1..][k] == ws[k + 1];
        }
      } else if InHeap(ws, o) {
        var k :| 0 <= k < |ws| && ws[k].order == o;
        assert ws[1..][k - 1].order == o;
      } else {
        forall k | 0 <= k < |ws[1..]| ensures ws[1..][k].order != o {
          assert ws[1..][k] == ws[k + 1];
        }
      }
    }
  }

  lemma {:induction false} StaleSplit(a: seq<Waiter>, b: seq<Waiter>, cancelled: set<nat>)
    ensures CountStale(a + b, cancelled) == CountStale(a, cancelled) + CountStale(b, cancelled)
  {
    if a == [] {
      assert a + b == b;
    } else {
      assert (a + b)[1..] == a[1..] + b;
      StaleSplit(a[1..], b, cancelled);
    }
  }

  lemma {:induction false} WokenCount(ws: seq<Waiter>, cancelled: set<nat>)
    ensures |Woken(ws, cancelled)| + CountStale(ws, cancelled) == |ws|
    decreases |ws|
  {
    if ws != [] {
      var n := |ws| - 1;
      WokenCount(ws[..n], cancelled);
      StaleSplit(ws[..n], ws[n..], cancelled);
      assert ws == ws[..n] + ws[n..] && ws[n..][1..] == [];
    }
  }

  // --------------------------------------------------------------- heap and tasks stay in step

  lemma OpeningConsistent(start: real, tasks: nat)
    ensures Consistent(Opening(start, tasks))
  {
    NoneParked(Opening(start, tasks).tasks);
  }

  lemma {:induction false} NoneParked(tasks: seq<Status>)
    requires forall i | 0 <= i < |tasks| :: tasks[i] == Runnable
    ensures CountParked(tasks) == 0
  {
    if tasks != [] {
      NoneParked(tasks[..|tasks| - 1]);
    }
  }

  lemma InsertHolds(ws: seq<Waiter>, x: Waiter, o: nat, i: nat)
    ensures Holds(Insert(ws, x), o, i) <==> Holds(ws, o, i) || (x.order == o && x.task == i)
    ensures InHeap(Insert(ws, x), o) <==> InHeap(ws, o) || x.order == o
  {
    InsertMembers(ws, x);
    var r := Insert(ws, x);
    if k :| 0 <= k < |ws| && ws[k].order == o {
      assert ws[k] in ws && ws[k] in r;
    }
    if k :| 0 <= k < |ws| && ws[k].order == o && ws[k].task == i {
      assert ws[k] in ws && ws[k] in r;
    }
    if k :| 0 <= k < |r| && r[k].order == o {
      assert r[k] in r;
    }
    if k :| 0 <= k < |r| && r[k].order == o && r[k].task == i {
      assert r[k] in r;
    }
    assert x in r;
  }

  lemma SleepConsistent(w: World, i: nat, s: real)
    requires Consistent(w) && i < |w.tasks| && w.tasks[i] == Runnable && s > 0.0
    ensures Consistent(Next(w, SleepEvent(i, s)))
  {
    hide Holds, Valid;
    var n, x := Next(w, SleepEvent(i, s)), Waiter(w.clock.t + s, w.clock.counter, i);
    SleepValid(w.clock, i, s);
    InsertMembers(w.clock.waiters, x);
    StaleInsert(w.clock.waiters, x, w.cancelled);
    CountsUpdate(w.tasks, i, Parked(w.clock.counter));
    forall k | 0 <= k < |n.clock.waiters| ensures Matches(n, n.clock.waiters[k]) {
      var y := n.clock.waiters[k];
      assert y in n.clock.waiters;
      if y != x {
        assert Matches(w, y);
      }
    }
    forall j | 0 <= j < |n.tasks| && n.tasks[j].Parked?
      ensures n.tasks[j].order !in n.cancelled && Holds(n.clock.waiters, n.tasks[j].order, j)
    {
      InsertHolds(w.clock.waiters, x, n.tasks[j].order, j);
    }
  }

  lemma CancelConsistent(w: World, i: nat)
    requires Consistent(w) && i < |w.tasks| && w.tasks[i].Parked?
    ensures Consistent(Next(w, Cancel(i))) && InHeap(w.clock.waiters, w.tasks[i].order)
  {
    hide Sorted, Before;
    var n, o := Next(w, Cancel(i)), w.tasks[i].order;
    CountsUpdate(w.tasks, i, Runnable);
    StaleCancel(w.clock.waiters, w.cancelled, o);
    forall k | 0 <= k < |n.clock.waiters| ensures Matches(n, n.clock.waiters[k]) {
      assert Matches(w, w.clock.waiters[k]);
    }
    forall j | 0 <= j < |n.tasks| && n.tasks[j].Parked?
      ensures n.tasks[j].order !in n.cancelled
    {
      if n.tasks[j].order == o {
        SameSleeper(w, i, j);
      }
    }
  }

  /** A sleep has one sleeper. */
  lemma SameSleeper(w: World, i: nat, j: nat)
    requires Consistent(w) && i < |w.tasks| && j < |w.tasks|
    requires w.tasks[i].Parked? && w.tasks[j] == w.tasks[i]
    ensures i == j
  {
    hide Sorted, Matches;
    var a :| 0 <= a < |w.clock.waiters| && w.clock.waiters[a].order == w.tasks[i].order && w.clock.waiters[a].task == i;
    var b :| 0 <= b < |w.clock.waiters| && w.clock.waiters[b].order == w.tasks[j].order && w.clock.waiters[b].task == j;
    assert a == b;
  }

  /** A task that neither leaves nor enters a sleep. */
  lemma FlipConsistent(w: World, i: nat, s: Status)
    requires Consistent(w) && i < |w.tasks| && !w.tasks[i].Parked? && !s.Parked?
    ensures Consistent(w.(tasks := w.tasks[i := s]))
  {
    hide Valid;
    CountsUpdate(w.tasks, i, s);
    forall k | 0 <= k < |w.clock.waiters| ensures Matches(w.(tasks := w.tasks[i := s]), w.clock.waiters[k]) {
      assert Matches(w, w.clock.waiters[k]);
    }
  }

  lemma SpawnConsistent(w: World)
    requires Consistent(w)
    ensures Consistent(Next(w, Spawn))
  {
    hide Valid;
    CountsAppend(w.tasks, Runnable);
    forall k | 0 <= k < |w.clock.waiters| ensures Matches(Next(w, Spawn), w.clock.waiters[k]) {
      assert Matches(w, w.clock.waiters[k]);
    }
  }

  lemma NextConsistent(w: World, e: Event)
    requires Consistent(w)
    ensures Consistent(Next(w, e))
  {
    hide Consistent;
    match e
    case SleepEvent(i, s) => if i < |w.tasks| && w.tasks[i] == Runnable && s > 0.0 { SleepConsistent(w, i, s); }
    case Finish(i) => if i < |w.tasks| && w.tasks[i] == Runnable { FlipConsistent(w, i, Finished); }
    case Spawn => SpawnConsistent(w);
    case Block(i) => if i < |w.tasks| && w.tasks[i] == Runnable { FlipConsistent(w, i, Awaiting); }
    case Unblock(i) => if i < |w.tasks| && w.tasks[i] == Awaiting { FlipConsistent(w, i, Runnable); }
    case Cancel(i) =>
      if i < |w.tasks| && w.tasks[i].Parked? { CancelConsistent(w, i); }
      else if i < |w.tasks| && w.tasks[i] == Awaiting { FlipConsistent(w, i, Runnable); }
  }

  // --------------------------------------------------------------------------- the jump

  lemma {:induction false} WokenMembers(ws: seq<Waiter>, done: set<nat>)
    ensures forall x :: x in Woken(ws, done) <==> x in ws && x.order !in done
    decreases |ws|
  {
    if ws != [] {
      var n := |ws| - 1;
      WokenMembers(ws[..n], done);
      assert ws == ws[..n] + [ws[n]];
    }
  }

  lemma {:induction false} WokenOrdered(ws: seq<Waiter>, done: set<nat>)
    requires forall i, j | 0 <= i < j < |ws| :: ws[i].order < ws[j].order
    ensures forall i, j | 0 <= i < j < |Woken(ws, done)| :: Woken(ws, done)[i].order < Woken(ws, done)[j].order
    decreases |ws|
  {
    if ws != [] {
      var n := |ws| - 1;
      WokenOrdered(ws[..n], done);
      WokenMembers(ws[..n], done);
      forall i | 0 <= i < |Woken(ws[..n], done)| ensures Woken(ws[..n], done)[i].order < ws[n].order {
        assert Woken(ws[..n], done)[i] in ws[..n];
      }
    }
  }

  lemma {:induction false} ResumeAt(tasks: seq<Status>, ws: seq<Waiter>, i: nat)
    requires i < |tasks|
    ensures (exists k :: 0 <= k < |ws| && ws[k].task == i) ==> Resume(tasks, ws)[i] == Runnable
    ensures (forall k | 0 <= k < |ws| :: ws[k].task != i) ==> Resume(tasks, ws)[i] == tasks[i]
    decreases |ws|
  {
    if ws != [] {
      var n := |ws| - 1;
      ResumeAt(tasks, ws[..n], i);
      if k :| 0 <= k < |ws| && ws[k].task == i && k < n {
        assert ws[..n][k].task == i;
      }
    }
  }

  lemma {:induction false} ResumeCount(tasks: seq<Status>, ws: seq<Waiter>)
    requires forall k | 0 <= k < |ws| :: ws[k].task < |tasks| && tasks[ws[k].task] == Parked(ws[k].order)
    requires Distinct(ws)
    ensures CountParked(Resume(tasks, ws)) + |ws| == CountParked(tasks)
    decreases |ws|
  {
    if ws != [] {
      var n := |ws| - 1;
      ResumeCount(tasks, ws[..n]);
      forall k | 0 <= k < n ensures ws[..n][k].task != ws[n].task {
        assert ws[k].order != ws[n].order;
      }
      ResumeAt(tasks, ws[..n], ws[n].task);
      CountsUpdate(Resume(tasks, ws[..n]), ws[n].task, Runnable);
    }
  }

  /** The popped sleepers whose future is not done are parked tasks, each once. */
  lemma WokenParked(w: World)
    requires Consistent(w) && w.clock.waiters != []
    ensures var ws := Woken(Popped(w.clock), w.cancelled);
            && Distinct(ws)
            && forall k | 0 <= k < |ws| ::
                 ws[k].task < |w.tasks| && w.tasks[ws[k].task] == Parked(ws[k].order) && ws[k] in Popped(w.clock)
  {
    hide Due, Before, Advance;
    var ps := Popped(w.clock);
    AdvanceExact(w.clock);
    WokenOrdered(ps, w.cancelled);
    WokenMembers(ps, w.cancelled);
    var ws := Woken(ps, w.cancelled);
    forall k | 0 <= k < |ws|
      ensures ws[k].task < |w.tasks| && w.tasks[ws[k].task] == Parked(ws[k].order) && ws[k] in ps
    {
      assert ws[k] in ws;
      var j :| 0 <= j < |ps| && ps[j] == ws[k];
      assert w.clock.waiters[j] == ps[j];
      assert Matches(w, w.clock.waiters[j]);
    }
  }

  lemma JumpMatches(w: World, k: nat)
    requires Consistent(w) && w.clock.waiters != [] && k < |Advance(w.clock).waiters|
    ensures Matches(Jumped(w), Advance(w.clock).waiters[k])
  {
    hide Due, Before, Sorted, Advance, Popped, Woken;
    AdvanceExact(w.clock);
    WokenParked(w);
    var ps, rest, ws := Popped(w.clock), Advance(w.clock).waiters, Woken(Popped(w.clock), w.cancelled);
    var y := rest[k];
    assert y == w.clock.waiters[|ps| + k];
    assert Matches(w, w.clock.waiters[|ps| + k]);
    if y.order !in w.cancelled {
      forall j | 0 <= j < |ws| ensures ws[j].task != y.task {
        var a :| 0 <= a < |ps| && ps[a] == ws[j];
        assert w.clock.waiters[a] == ps[a];
        assert w.clock.waiters[a].order != w.clock.waiters[|ps| + k].order;
      }
      ResumeAt(w.tasks, ws, y.task);
    }
  }

  lemma PoppedResume(w: World)
    requires Consistent(w) && w.clock.waiters != []
    ensures forall a | 0 <= a < |Popped(w.clock)| && Popped(w.clock)[a].order !in w.cancelled ::
              Popped(w.clock)[a].task < |w.tasks| && Jumped(w).tasks[Popped(w.clock)[a].task] == Runnable
  {
    hide Due, Before, Sorted, Advance, Popped, Woken;
    AdvanceExact(w.clock);
    var ps, ws := Popped(w.clock), Woken(Popped(w.clock), w.cancelled);
    WokenMembers(ps, w.cancelled);
    forall a | 0 <= a < |ps| && ps[a].order !in w.cancelled
      ensures ps[a].task < |w.tasks| && Jumped(w).tasks[ps[a].task] == Runnable
    {
      assert ps[a] in ps && w.clock.waiters[a] == ps[a];
      assert Matches(w, w.clock.waiters[a]);
      var k :| 0 <= k < |ws| && ws[k] == ps[a];
      ResumeAt(w.tasks, ws, ps[a].task);
    }
  }

  lemma JumpHolds(w: World, i: nat)
    requires Consistent(w) && w.clock.waiters != [] && i < |w.tasks| && Jumped(w).tasks[i].Parked?
    ensures Jumped(w).tasks[i] == w.tasks[i]
    ensures Holds(Advance(w.clock).waiters, w.tasks[i].order, i)
  {
    hide Due, Before, Sorted, Advance, Popped, Woken;
    AdvanceExact(w.clock);
    var ps, rest, ws := Popped(w.clock), Advance(w.clock).waiters, Woken(Popped(w.clock), w.cancelled);
    ResumeAt(w.tasks, ws, i);
    PoppedResume(w);
    var a :| 0 <= a < |w.clock.waiters| && w.clock.waiters[a].order == w.tasks[i].order && w.clock.waiters[a].task == i;
    assert a >= |ps|;
    assert rest[a - |ps|] == w.clock.waiters[a];
  }

  lemma JumpConsistent(w: World)
    requires Consistent(w) && w.clock.waiters != []
    ensures Consistent(Jumped(w))
  {
    hide Due, Before, Sorted, Advance, Popped, Woken, Matches, Holds;
    var n, ps, ws := Jumped(w), Popped(w.clock), Woken(Popped(w.clock), w.cancelled);
    AdvanceExact(w.clock);
    AdvanceCounter(w.clock);
    WokenParked(w);
    ResumeCount(w.tasks, ws);
    WokenCount(ps, w.cancelled);
    StaleSplit(ps, n.clock.waiters, w.cancelled);
    forall k | 0 <= k < |n.clock.waiters| ensures Matches(n, n.clock.waiters[k]) {
      JumpMatches(w, k);
    }
    forall i | 0 <= i < |n.tasks| && n.tasks[i].Parked?
      ensures n.tasks[i].order !in n.cancelled && Holds(n.clock.waiters, n.tasks[i].order, i)
    {
      JumpHolds(w, i);
    }
  }

  lemma AdvanceCounter(c: Clock)
    requires c.waiters != []
    ensures Advance(c).counter == c.counter && Advance(c).t == c.waiters[0].deadline
  {}

  // -------------------------------------------------------------------------- the ledger

  predicate Later(a: Wake, b: Wake) {
    a.at < b.at || (a.at == b.at && a.order < b.order)
  }

  predicate Recorded(wakes: seq<Wake>, o: nat) {
    exists k :: 0 <= k < |wakes| && wakes[k].order == o
  }

  predicate Right(w: World, k: Wake) {
    k.order < |w.due| && k.at == w.due[k.order] && k.at <= w.clock.t && k.order !in w.cancelled
  }

  /** A sleep is in the heap exactly until its deadline; it wakes exactly then unless it
      was cancelled before; and wake-ups happen in deadline order, ties in sleep order. */
  predicate Ledger(w: World) {
    && |w.due| == w.clock.counter
    && (forall o | 0 <= o < |w.due| :: InHeap(w.clock.waiters, o) <==> w.due[o] > w.clock.t)
    && (forall o | 0 <= o < |w.due| && w.due[o] <= w.clock.t && o !in w.cancelled :: Recorded(w.wakes, o))
    && (forall k | 0 <= k < |w.wakes| :: Right(w, w.wakes[k]))
    && (forall i, j | 0 <= i < j < |w.wakes| :: Later(w.wakes[i], w.wakes[j]))
  }

  lemma OpeningRight(start: real, tasks: nat)
    ensures Consistent(Opening(start, tasks)) && Ledger(Opening(start, tasks))
  {
    OpeningConsistent(start, tasks);
  }

  lemma NextLedger(w: World, e: Event)
    requires Consistent(w) && Ledger(w)
    ensures Ledger(Next(w, e))
  {
    hide Recorded, InHeap, Later, Valid, Matches, Holds, CountParked, CountStale;
    var n := Next(w, e);
    assert forall k | 0 <= k < |w.wakes| :: Right(w, w.wakes[k]);
    match e
    case SleepEvent(i, s) =>
      if i < |w.tasks| && w.tasks[i] == Runnable && s > 0.0 {
        var x := Waiter(w.clock.t + s, w.clock.counter, i);
        forall o | 0 <= o < |n.due| ensures InHeap(n.clock.waiters, o) <==> n.due[o] > n.clock.t {
          InsertHolds(w.clock.waiters, x, o, i);
        }
      }
    case Finish(i) =>
    case Spawn =>
    case Block(i) =>
    case Unblock(i) =>
    case Cancel(i) =>
      if i < |w.tasks| && w.tasks[i].Parked? {
        CancelConsistent(w, i);
        ParkedOrder(w, i);
      }
  }

  lemma ParkedOrder(w: World, i: nat)
    requires Consistent(w) && i < |w.tasks| && w.tasks[i].Parked?
    ensures w.tasks[i].order < w.clock.counter
  {
    assert Holds(w.clock.waiters, w.tasks[i].order, i);
  }

  lemma HeapParts(c: Clock, o: nat)
    requires Valid(c) && c.waiters != []
    ensures InHeap(c.waiters, o) <==> InHeap(Popped(c), o) || InHeap(Advance(c).waiters, o)
    ensures InHeap(Popped(c), o) ==> !InHeap(Advance(c).waiters, o)
  {
    hide Due, Before, Sorted, Advance, Popped;
    AdvanceExact(c);
    var ps, rest := Popped(c), Advance(c).waiters;
    if k :| 0 <= k < |c.waiters| && c.waiters[k].order == o {
      if k < |ps| {
        assert ps[k] == c.waiters[k];
      } else {
        assert rest[k - |ps|] == c.waiters[k];
      }
    }
    if k :| 0 <= k < |ps| && ps[k].order == o {
      assert ps[k] == c.waiters[k];
      forall j | 0 <= j < |rest| ensures rest[j].order != o {
        assert rest[j] == c.waiters[|ps| + j];
      }
    }
    if k :| 0 <= k < |rest| && rest[k].order == o {
      assert rest[k] == c.waiters[|ps| + k];
    }
  }

  /** Who is popped was due at the new time; who is left is due later. */
  lemma PartsDue(w: World, o: nat)
    requires Consistent(w) && w.clock.waiters != [] && o < |w.due|
    ensures InHeap(Popped(w.clock), o) ==> w.due[o] == Advance(w.clock).t
    ensures InHeap(Advance(w.clock).waiters, o) ==> w.due[o] > Advance(w.clock).t
  {
    hide Due, Before, Sorted, Advance, Popped;
    AdvanceExact(w.clock);
    var ps, rest := Popped(w.clock), Advance(w.clock).waiters;
    if k :| 0 <= k < |ps| && ps[k].order == o {
      assert ps[k] == w.clock.waiters[k] && Matches(w, w.clock.waiters[k]);
    }
    if k :| 0 <= k < |rest| && rest[k].order == o {
      assert rest[k] == w.clock.waiters[|ps| + k] && Matches(w, w.clock.waiters[|ps| + k]);
      RestLater(w.clock, k);
    }
  }

  lemma JumpHeap(w: World, o: nat)
    requires Consistent(w) && Ledger(w) && w.clock.waiters != [] && o < |w.due|
    ensures InHeap(Advance(w.clock).waiters, o) <==> w.due[o] > Advance(w.clock).t
    ensures Advance(w.clock).t >= w.due[o] > w.clock.t && o !in w.cancelled
            ==> Recorded(WakesOf(Woken(Popped(w.clock), w.cancelled), Advance(w.clock).t), o)
  {
    hide Due, Before, Sorted, Advance, Popped, Woken, Recorded, Later, Matches, InHeap;
    AdvanceExact(w.clock);
    HeapParts(w.clock, o);
    PartsDue(w, o);
    if InHeap(Popped(w.clock), o) && o !in w.cancelled {
      var k := IndexOf(Popped(w.clock), o);
      WokenRecorded(w, k);
    }
  }

  lemma IndexOf(ws: seq<Waiter>, o: nat) returns (k: nat)
    requires InHeap(ws, o)
    ensures k < |ws| && ws[k].order == o
  {
    k :| 0 <= k < |ws| && ws[k].order == o;
  }

  lemma RestLater(c: Clock, k: nat)
    requires Valid(c) && c.waiters != [] && k < |Advance(c).waiters|
    ensures Advance(c).waiters[k].deadline > Advance(c).t
  {
    hide Advance;
    AdvanceExact(c);
  }

  lemma WokenRecorded(w: World, k: nat)
    requires Consistent(w) && w.clock.waiters != [] && k < |Popped(w.clock)|
    requires Popped(w.clock)[k].order !in w.cancelled
    ensures Recorded(WakesOf(Woken(Popped(w.clock), w.cancelled), Advance(w.clock).t), Popped(w.clock)[k].order)
  {
    hide Popped, Woken, Advance;
    var ps, ws := Popped(w.clock), Woken(Popped(w.clock), w.cancelled);
    WokenMembers(ps, w.cancelled);
    assert ps[k] in ps && ps[k] in ws;
    var j :| 0 <= j < |ws| && ws[j] == ps[k];
    assert WakesOf(ws, Advance(w.clock).t)[j].order == ps[k].order;
  }

  lemma RecordedAppend(a: seq<Wake>, b: seq<Wake>, o: nat)
    ensures Recorded(a + b, o) <==> Recorded(a, o) || Recorded(b, o)
  {
    if k :| 0 <= k < |a| && a[k].order == o {
      assert (a + b)[k] == a[k];
    }
    if k :| 0 <= k < |b| && b[k].order == o {
      assert (a + b)[|a| + k] == b[k];
    }
  }

  /** The wakes of one jump: at the new time, for sleeps due then, in sleep order. */
  lemma JumpWakes(w: World, k: nat)
    requires Consistent(w) && w.clock.waiters != []
    requires k < |Woken(Popped(w.clock), w.cancelled)|
    ensures var b := WakesOf(Woken(Popped(w.clock), w.cancelled), Advance(w.clock).t);
            && Right(Jumped(w), b[k]) && b[k].at > w.clock.t
            && forall j | k < j < |b| :: Later(b[k], b[j])
  {
    hide Due, Before, Sorted, Advance, Popped, Woken;
    AdvanceExact(w.clock);
    AdvanceCounter(w.clock);
    var ps, ws := Popped(w.clock), Woken(Popped(w.clock), w.cancelled);
    WokenMembers(ps, w.cancelled);
    WokenOrdered(ps, w.cancelled);
    assert ws[k] in ws;
    var j :| 0 <= j < |ps| && ps[j] == ws[k];
    assert w.clock.waiters[j] == ps[j];
    assert Matches(w, w.clock.waiters[j]);
  }

  lemma JumpLedger(w: World)
    requires Consistent(w) && Ledger(w) && w.clock.waiters != []
    ensures Ledger(Jumped(w))
  {
    hide Due, Before, Sorted, Valid, Advance, Popped, Woken, Recorded, InHeap, Matches, Holds, CountParked, CountStale, WakesOf, Resume;
    AdvanceExact(w.clock);
    AdvanceCounter(w.clock);
    WakesLength(Woken(Popped(w.clock), w.cancelled), Advance(w.clock).t);
    var n, b := Jumped(w), WakesOf(Woken(Popped(w.clock), w.cancelled), Advance(w.clock).t);
    forall o | 0 <= o < |n.due|
      ensures InHeap(n.clock.waiters, o) <==> n.due[o] > n.clock.t
      ensures n.due[o] <= n.clock.t && o !in n.cancelled ==> Recorded(n.wakes, o)
    {
      JumpHeap(w, o);
      RecordedAppend(w.wakes, b, o);
    }
    forall k | 0 <= k < |b|
      ensures Right(n, b[k]) && b[k].at > w.clock.t && forall j | k < j < |b| :: Later(b[k], b[j])
    {
      JumpWakes(w, k);
    }
    assert forall k | 0 <= k < |w.wakes| :: Right(w, w.wakes[k]);
  }

  lemma WakesLength(ws: seq<Waiter>, t: real)
    ensures |WakesOf(ws, t)| == |ws|
  {}

  // ----------------------------------------------------------------------- every history

  datatype Move = Env(e: Event) | Jump

  function Moved(w: World, mv: Move): World {
    match mv
    case Env(e) => Next(w, e)
    case Jump => if w.clock.waiters == [] then w else Jumped(w)
  }

  function Ran(w: World, ms: seq<Move>): World {
    if ms == [] then w else Moved(Ran(w, ms[..|ms| - 1]), ms[|ms| - 1])
  }

  /** The worlds a history advances the clock in. */
  function Advances(w: World, ms: seq<Move>): seq<World> {
    if ms == [] then []
    else
      var was := Ran(w, ms[..|ms| - 1]);
      Advances(w, ms[..|ms| - 1]) + if ms[|ms| - 1].Jump? && was.clock.waiters != [] then [was] else []
  }

  lemma {:induction false} RanAppend(w: World, a: seq<Move>, b: seq<Move>)
    ensures Ran(w, a + b) == Ran(Ran(w, a), b)
    ensures Advances(w, a + b) == Advances(w, a) + Advances(Ran(w, a), b)
    decreases |b|
  {
    hide Moved;
    if b == [] {
      assert a + b == a;
    } else {
      assert (a + b)[..|a + b| - 1] == a + b[..|b| - 1];
      RanAppend(w, a, b[..|b| - 1]);
    }
  }

  function EnvMoves(es: seq<Event>): (ms: seq<Move>)
    ensures |ms| == |es|
  {
    seq(|es|, k requires 0 <= k < |es| => Env(es[k]))
  }

  /** A yield is a history without advances. */
  lemma {:induction false} AfterIsRan(w: World, es: seq<Event>)
    ensures Ran(w, EnvMoves(es)) == After(w, es) && Advances(w, EnvMoves(es)) == []
  {
    hide Next;
    if es != [] {
      assert EnvMoves(es)[..|es| - 1] == EnvMoves(es[..|es| - 1]);
      AfterIsRan(w, es[..|es| - 1]);
    }
  }

  lemma JumpIsRan(w: World, ms: seq<Move>)
    requires w.clock.waiters != [] && ms == [Jump]
    ensures Ran(w, ms) == Jumped(w) && Advances(w, ms) == [w]
  {
    assert ms[..0] == [];
  }

  lemma {:induction false} RanRight(w: World, ms: seq<Move>)
    requires Consistent(w) && Ledger(w)
    ensures Consistent(Ran(w, ms)) && Ledger(Ran(w, ms))
  {
    hide Consistent, Ledger, Next, Jumped;
    if ms != [] {
      var was := Ran(w, ms[..|ms| - 1]);
      RanRight(w, ms[..|ms| - 1]);
      match ms[|ms| - 1]
      case Env(e) =>
        NextConsistent(was, e);
        NextLedger(was, e);
      case Jump =>
        if was.clock.waiters != [] {
          JumpConsistent(was);
          JumpLedger(was);
        }
    }
  }

  /** In every history of sleeps, cancellations, other task activity and jumps: a sleep
      has woken its sleeper if and only if its deadline has come and it was not cancelled;
      it wakes once, exactly at the deadline; ties wake in the order they went to sleep. */
  lemma WakesExactly(start: real, tasks: nat, ms: seq<Move>)
    ensures var w := Ran(Opening(start, tasks), ms);
            && |w.due| == w.clock.counter
            && (forall o | 0 <= o < |w.due| :: Recorded(w.wakes, o) <==> w.due[o] <= w.clock.t && o !in w.cancelled)
            && (forall k | 0 <= k < |w.wakes| :: w.wakes[k].order < |w.due| && w.wakes[k].at == w.due[w.wakes[k].order])
            && (forall i, j | 0 <= i < j < |w.wakes| ::
                  Later(w.wakes[i], w.wakes[j]) && w.wakes[i].order != w.wakes[j].order)
  {
    hide Consistent, InHeap;
    OpeningRight(start, tasks);
    RanRight(Opening(start, tasks), ms);
    var w := Ran(Opening(start, tasks), ms);
    assert forall k | 0 <= k < |w.wakes| :: Right(w, w.wakes[k]);
  }

  // ------------------------------------------------------------ where the driver's test is wrong

  /** One cancelled sleep is enough: the test passes with a task still runnable, in a
      world every such loop can reach, and the clock would move past it. */
  lemma StaleSleepFoolsTheTest()
    ensures var w := After(Opening(0.0, 2), [SleepEvent(0, 1.0), SleepEvent(1, 2.0), Cancel(0)]);
            && LooksParked(w) && !AllParked(w) && w.tasks[0] == Runnable
            && w.clock.waiters != [] && Jumped(w).clock.t == 1.0
  {
    var w0 := Opening(0.0, 2);
    var es := [SleepEvent(0, 1.0), SleepEvent(1, 2.0), Cancel(0)];
    var w1, w2 := Next(w0, es[0]), Next(Next(w0, es[0]), es[1]);
    assert es[..2][..1][..0] == [] && es[..2][..1] == [es[0]] && es[..2] == [es[0], es[1]];
    assert After(w0, es[..2][..1]) == w1;
    assert After(w0, es[..2]) == w2;
    assert w1.tasks == [Parked(0), Runnable] && w1.clock.waiters == [Waiter(1.0, 0, 0)];
    assert Insert([Waiter(1.0, 0, 0)][1..], Waiter(2.0, 1, 1)) == [Waiter(2.0, 1, 1)];
    assert w2.clock.waiters == [Waiter(1.0, 0, 0), Waiter(2.0, 1, 1)];
    assert w2.tasks == [Parked(0), Parked(1)];
    var w := Next(w2, es[2]);
    assert w.tasks == [Runnable, Parked(1)];
    assert Live(w.tasks[..1]) == 1 && Live(w.tasks) == 2;
  }

  // -------------------------------------------------------------------------- the driver

  /** What the tasks do at each yield of the driver. */
  type Behaviour = nat -> seq<Event>

  predicate NoCancel(es: seq<Event>) {
    forall k | 0 <= k < |es| :: !es[k].Cancel?
  }

  /** The event loop: tasks and futures around one clock. */
  class EventLoop {
    const clock: VirtualClock
    const env: Behaviour
    var tasks: seq<Status>
    var cancelled: set<nat>
    var turns: nat
    ghost var due: seq<real>
    ghost var wakes: seq<Wake>

    ghost function Value(): World
      reads this, clock
    {
      World(clock.Value(), tasks, cancelled, due, wakes)
    }

    constructor (start: real, env: Behaviour, primary: nat)
      ensures Value() == Opening(start, primary) && turns == 0 && this.env == env && fresh(clock)
    {
      clock := new VirtualClock(start);
      this.env := env;
      tasks := seq(primary, _ => Runnable);
      cancelled, turns, due, wakes := {}, 0, [], [];
    }

    method Do(e: Event)
      modifies this, clock
      ensures Value() == Next(old(Value()), e) && turns == old(turns)
    {
      match e
      case SleepEvent(i, s) =>
        if i < |tasks| && tasks[i] == Runnable && s > 0.0 {
          due := due + [clock.t + s];
          var order := clock.SleepFor(i, s);
          tasks := tasks[i := Parked(order.value)];
        }
      case Finish(i) => if i < |tasks| && tasks[i] == Runnable { tasks := tasks[i := Finished]; }
      case Spawn => tasks := tasks + [Runnable];
      case Block(i) => if i < |tasks| && tasks[i] == Runnable { tasks := tasks[i := Awaiting]; }
      case Unblock(i) => if i < |tasks| && tasks[i] == Awaiting { tasks := tasks[i := Runnable]; }
      case Cancel(i) =>
        if i < |tasks| && tasks[i].Parked? {
          cancelled := cancelled + {tasks[i].order};
          tasks := tasks[i := Runnable];
        } else if i < |tasks| && tasks[i] == Awaiting {
          tasks := tasks[i := Runnable];
        }
    }

    /** One yield: every task gets its turn. */
    method Yield()
      modifies this, clock
      ensures Value() == After(old(Value()), env(old(turns))) && turns == old(turns) + 1
    {
      var es := env(turns);
      for k := 0 to |es|
        invariant Value() == After(old(Value()), es[..k]) && turns == old(turns)
      {
        assert es[..k + 1][..k] == es[..k];
        Do(es[k]);
      }
      assert es[..|es|] == es;
      turns := turns + 1;
    }

    /** Yield until every live task looks parked, or no primary task is left. */
    method ParkAll(primary: nat, maxSpins: nat) returns (alive: bool, parked: bool, ghost path: seq<Move>)
      requires Consistent(Value()) && primary <= |tasks|
      modifies this, clock
      ensures Value() == Ran(old(Value()), path) && Advances(old(Value()), path) == []
      ensures Consistent(Value()) && Steady(old(Value()), Value())
      ensures alive <==> AliveAmong(tasks, primary)
      ensures alive && parked ==> LooksParked(Value())
      ensures old(cancelled) == {} && Cancelless(env) ==> cancelled == {}
    {
      path := [];
      for spin := 0 to maxSpins
        invariant Value() == Ran(old(Value()), path) && Advances(old(Value()), path) == []
        invariant Consistent(Value()) && Steady(old(Value()), Value())
        invariant old(cancelled) == {} && Cancelless(env) ==> cancelled == {}
      {
        if !AliveAmong(tasks, primary) {
          return false, true, path;
        }
        if |clock.waiters| >= Live(tasks) {
          return true, true, path;
        }
        AfterSteady(Value(), env(turns));
        AfterIsRan(Value(), env(turns));
        RanAppend(old(Value()), path, EnvMoves(env(turns)));
        path := path + EnvMoves(env(turns));
        Yield();
      }
      return AliveAmong(tasks, primary), false, path;
    }

    /** Runs the loop to the horizon. `path` is everything that happened, and `log` holds
        the world at each advance. */
    method Drive(primary: nat, until: real, maxSteps: nat, spinLimit: nat)
      returns (r: Outcome, ghost log: seq<World>, ghost path: seq<Move>)
      requires Consistent(Value()) && primary <= |tasks|
      modifies this, clock
      ensures Value() == Ran(old(Value()), path) && Advances(old(Value()), path) == log
      ensures |log| == r.steps <= maxSteps
      ensures Advanced(log, primary, until, old(clock.t), r.end)
      ensures old(cancelled) == {} && Cancelless(env) ==> forall k | 0 <= k < |log| :: Stale(log[k]) == 0
      ensures r.end == clock.t && old(clock.t) <= r.end && (r.end <= until || r.end == old(clock.t))
      ensures !(r.completed && r.stalled)
      ensures r.completed ==> !AliveAmong(tasks, primary)
      ensures !r.completed && !r.stalled ==>
                LooksParked(Value()) && AliveAmong(tasks, primary)
                && clock.waiters != [] && clock.waiters[0].deadline > until
      ensures r.steps == maxSteps ==> r.stalled
    {
      hide Consistent, LooksParked, AllParked, After, Jumped, AliveAmong, Ran, Advances, Stale, Loose, Advanced, Cancelless;
      EmptyPath(Value());
      NoneAdvanced(primary, until, clock.t);
      var steps := 0;
      var completed, stalled := false, false;
      log, path := [], [];
      while true
        invariant Value() == Ran(old(Value()), path) && Advances(old(Value()), path) == log
        invariant |log| == steps <= maxSteps
        invariant Consistent(Value()) && Grown(old(Value()), Value())
        invariant Advanced(log, primary, until, old(clock.t), clock.t)
        invariant old(cancelled) == {} && Cancelless(env) ==> cancelled == {}
        invariant old(cancelled) == {} && Cancelless(env) ==> forall k | 0 <= k < |log| :: Stale(log[k]) == 0
        invariant old(clock.t) <= clock.t && (clock.t <= until || clock.t == old(clock.t))
        decreases maxSteps - steps
      {
        if steps == maxSteps {
          stalled := true;
          break;
        }
        ghost var more: seq<Move>;
        var alive, parked;
        alive, parked, more := ParkAll(primary, spinLimit);
        RanAppend(old(Value()), path, more);
        path := path + more;
        assert log + [] == log;
        if !alive {
          completed := true;
          break;
        }
        if !parked || clock.waiters == [] {
          stalled := true;
          break;
        }
        if clock.waiters[0].deadline > until {
          break;
        }
        ghost var w := Value();
        AdvanceFacts(w);
        JumpConsistent(w);
        JumpForward(w);
        OneAdvanced(log, primary, until, old(clock.t), w);
        JumpIsRan(w, [Jump]);
        RanAppend(old(Value()), path, [Jump]);
        path := path + [Jump];
        log := log + [w];
        AdvanceClock();
        steps := steps + 1;
      }
      r := Outcome(clock.t, steps, completed, stalled);
    }

    method AdvanceClock()
      requires clock.waiters != []
      modifies this, clock
      ensures Value() == Jumped(old(Value())) && turns == old(turns)
    {
      var woken := clock.Jump(cancelled);
      ghost var ws := woken.value;
      wakes := wakes + WakesOf(ws, clock.t);
      for k := 0 to |woken.value|
        invariant tasks == Resume(old(tasks), woken.value[..k])
        invariant clock.Value() == Advance(old(clock.Value())) && cancelled == old(cancelled) && due == old(due)
        invariant turns == old(turns) && wakes == old(wakes) + WakesOf(ws, clock.t)
      {
        assert woken.value[..k + 1][..k] == woken.value[..k];
        if woken.value[k].task < |tasks| {
          tasks := tasks[woken.value[k].task := Runnable];
        }
      }
      assert woken.value[..|woken.value|] == woken.value;
    }
  }

  datatype Outcome = Outcome(end: real, steps: nat, completed: bool, stalled: bool)

  predicate AliveAmong(tasks: seq<Status>, primary: nat) {
    exists i :: 0 <= i < primary && i < |tasks| && tasks[i] != Finished
  }

  ghost predicate Cancelless(env: Behaviour) {
    forall n: nat :: NoCancel(env(n))
  }

  /** Task activity alone: time stands still and no task disappears. */
  predicate Steady(w: World, n: World) {
    n.clock.t == w.clock.t && |n.tasks| >= |w.tasks|
  }

  predicate Grown(w: World, n: World) {
    n.clock.t >= w.clock.t && |n.tasks| >= |w.tasks|
  }

  lemma {:induction false} AfterSteady(w: World, es: seq<Event>)
    requires Consistent(w)
    ensures Consistent(After(w, es)) && Steady(w, After(w, es))
    ensures w.cancelled == {} && NoCancel(es) ==> After(w, es).cancelled == {}
  {
    hide Consistent;
    if es != [] {
      AfterSteady(w, es[..|es| - 1]);
      NextConsistent(After(w, es[..|es| - 1]), es[|es| - 1]);
    }
  }

  /** An advance the driver may make. */
  predicate MayAdvance(w: World, primary: nat, until: real) {
    && Consistent(w) && LooksParked(w) && AliveAmong(w.tasks, primary)
    && w.clock.waiters != [] && w.clock.waiters[0].deadline <= until
    && Loose(w) <= Stale(w) && (Stale(w) == 0 ==> AllParked(w))
  }

  /** Every advance was one, each strictly later than the one before, none late. */
  ghost predicate Advanced(log: seq<World>, primary: nat, until: real, start: real, now: real) {
    && (forall k | 0 <= k < |log| :: MayAdvance(log[k], primary, until) && start <= log[k].clock.t < now)
    && (forall i, j | 0 <= i < j < |log| :: log[i].clock.t < log[j].clock.t)
  }

  lemma NoneAdvanced(primary: nat, until: real, t: real)
    ensures Advanced([], primary, until, t, t)
  {}

  lemma OneAdvanced(log: seq<World>, primary: nat, until: real, start: real, w: World)
    requires Advanced(log, primary, until, start, w.clock.t) && start <= w.clock.t
    requires Consistent(w) && LooksParked(w) && AliveAmong(w.tasks, primary)
    requires w.clock.waiters != [] && w.clock.waiters[0].deadline <= until
    ensures Advanced(log + [w], primary, until, start, Jumped(w).clock.t)
  {
    hide Consistent, AliveAmong, LooksParked, Stale, Loose, AllParked, Jumped;
    AdvanceFacts(w);
    JumpForward(w);
  }

  lemma EmptyPath(w: World)
    ensures Ran(w, []) == w && Advances(w, []) == []
  {}

  /** What the test guarantees where it passes. */
  lemma AdvanceFacts(w: World)
    requires Consistent(w) && LooksParked(w)
    ensures Loose(w) <= Stale(w)
    ensures Stale(w) == 0 ==> AllParked(w)
    ensures w.cancelled == {} ==> Stale(w) == 0
  {
    QuiescenceExact(w);
    if w.cancelled == {} {
      NoneStale(w.clock.waiters, w.cancelled);
    }
  }

  lemma JumpForward(w: World)
    requires Consistent(w) && w.clock.waiters != []
    ensures Jumped(w).clock.t == w.clock.waiters[0].deadline > w.clock.t
    ensures |Jumped(w).tasks| == |w.tasks| && Jumped(w).cancelled == w.cancelled
  {
    hide Due, Popped, Woken;
    AdvanceExact(w.clock);
    AdvanceCounter(w.clock);
  }
}
