/** Simulated time: sleepers parked in deadline order, woken by jumps to the
    earliest deadline.
  */
module VirtualTime {
  import opened Options

  /** A parked sleeper; `order` numbers the sleeps of a run. */
  datatype Waiter = Waiter(deadline: real, order: nat, task: nat)

  /** The waiters are held in the order a heap keyed by (deadline, order) yields them. */
  datatype Clock = Clock(t: real, waiters: seq<Waiter>, counter: nat)

  function Start(t: real): Clock {
    Clock(t, [], 0)
  }

  predicate Before(a: Waiter, b: Waiter) {
    a.deadline < b.deadline || (a.deadline == b.deadline && a.order < b.order)
  }

  predicate Sorted(ws: seq<Waiter>) {
    forall i, j | 0 <= i < j < |ws| :: Before(ws[i], ws[j])
  }

  predicate Valid(c: Clock) {
    && Sorted(c.waiters)
    && (forall i | 0 <= i < |c.waiters| :: c.waiters[i].deadline > c.t && c.waiters[i].order < c.counter)
    && Distinct(c.waiters)
  }

  predicate Distinct(ws: seq<Waiter>) {
    forall i, j | 0 <= i < j < |ws| :: ws[i].order != ws[j].order
  }

  function Insert(ws: seq<Waiter>, w: Waiter): (r: seq<Waiter>)
    ensures |r| == |ws| + 1
  {
    if ws == [] then [w]
    else if Before(w, ws[0]) then [w] + ws
    else [ws[0]] + Insert(ws[1..], w)
  }

  /** A sleep of no duration only yields. */
  function Sleep(c: Clock, task: nat, seconds: real): Clock {
    if seconds <= 0.0 then c
    else Clock(c.t, Insert(c.waiters, Waiter(c.t + seconds, c.counter, task)), c.counter + 1)
  }

  /** How many leading waiters are due at d. */
  function Due(ws: seq<Waiter>, d: real): (n: nat)
    ensures n <= |ws|
  {
    if ws == [] || ws[0].deadline > d then 0 else 1 + Due(ws[1..], d)
  }

  function Popped(c: Clock): seq<Waiter>
    requires c.waiters != []
  {
    c.waiters[..Due(c.waiters, c.waiters[0].deadline)]
  }

  function Advance(c: Clock): Clock
    requires c.waiters != []
  {
    Clock(c.waiters[0].deadline, c.waiters[Due(c.waiters, c.waiters[0].deadline)..], c.counter)
  }

  /** The woken among the popped: a sleeper whose future is already done is skipped. */
  function Woken(ws: seq<Waiter>, done: set<nat>): seq<Waiter> {
    if ws == [] then []
    else Woken(ws[..|ws| - 1], done) + if ws[|ws| - 1].order in done then [] else [ws[|ws| - 1]]
  }

  // ------------------------------------------------------------------- order and jumps

  lemma {:induction false} InsertMembers(ws: seq<Waiter>, w: Waiter)
    ensures forall x :: x in Insert(ws, w) <==> x == w || x in ws
  {
    if ws != [] && !Before(w, ws[0]) {
      InsertMembers(ws[1..], w);
      assert ws == [ws[0]] + ws[1..];
    }
  }

  lemma {:induction false} InsertSorted(ws: seq<Waiter>, w: Waiter)
    requires Sorted(ws) && forall i | 0 <= i < |ws| :: ws[i].order < w.order
    ensures Sorted(Insert(ws, w)) && (Distinct(ws) ==> Distinct(Insert(ws, w)))
  {
    if ws == [] {
    } else if Before(w, ws[0]) {
    } else {
      var rest := Insert(ws[1..], w);
      InsertSorted(ws[1..], w);
      InsertMembers(ws[1..], w);
      forall i | 0 <= i < |rest| ensures Before(ws[0], rest[i]) {
        assert rest[i] in rest;
      }
      if Distinct(ws) {
        forall i | 0 <= i < |rest| ensures ws[0].order != rest[i].order {
          assert rest[i] in rest;
        }
      }
    }
  }

  lemma SleepValid(c: Clock, task: nat, seconds: real)
    requires Valid(c)
    ensures Valid(Sleep(c, task, seconds))
  {
    if seconds > 0.0 {
      var w := Waiter(c.t + seconds, c.counter, task);
      InsertSorted(c.waiters, w);
      InsertMembers(c.waiters, w);
      var ws := Insert(c.waiters, w);
      forall i | 0 <= i < |ws| ensures ws[i].deadline > c.t && ws[i].order < c.counter + 1 {
        assert ws[i] in ws;
      }
    }
  }

  lemma {:induction false} DueSplits(ws: seq<Waiter>, d: real)
    requires Sorted(ws)
    ensures forall i | 0 <= i < Due(ws, d) :: ws[i].deadline <= d
    ensures forall i | Due(ws, d) <= i < |ws| :: ws[i].deadline > d
  {
    if ws == [] {
    } else if ws[0].deadline > d {
    } else {
      DueSplits(ws[1..], d);
    }
  }

  lemma SortedHead(ws: seq<Waiter>, i: nat)
    requires Sorted(ws) && i < |ws|
    ensures ws[0].deadline <= ws[i].deadline
  {}

  lemma EqualInOrder(ws: seq<Waiter>, i: nat, j: nat)
    requires Sorted(ws) && i < j < |ws| && ws[i].deadline == ws[j].deadline
    ensures ws[i].order < ws[j].order
  {
    assert Before(ws[i], ws[j]);
  }

  lemma SuffixSorted(ws: seq<Waiter>, n: nat)
    requires Sorted(ws) && Distinct(ws) && n <= |ws|
    ensures Sorted(ws[n..]) && Distinct(ws[n..])
  {
    hide Before;
  }

  lemma DuePositive(ws: seq<Waiter>)
    requires ws != []
    ensures Due(ws, ws[0].deadline) >= 1
  {}

  /** A jump moves time strictly forward, pops exactly the sleepers whose deadline
      is the new time, in the order they went to sleep, and leaves only later ones. */
  lemma AdvanceExact(c: Clock)
    requires Valid(c) && c.waiters != []
    ensures Valid(Advance(c)) && Advance(c).t > c.t && Popped(c) != []
    ensures Popped(c) + Advance(c).waiters == c.waiters
    ensures forall i | 0 <= i < |Popped(c)| :: Popped(c)[i].deadline == Advance(c).t
    ensures forall i, j | 0 <= i < j < |Popped(c)| :: Popped(c)[i].order < Popped(c)[j].order
  {
    hide Due, Before, Sorted, Distinct;
    var ws, n := c.waiters, Due(c.waiters, c.waiters[0].deadline);
    DueSplits(ws, ws[0].deadline);
    DuePositive(ws);
    SuffixSorted(ws, n);
    forall i | 0 <= i < n ensures ws[i].deadline == ws[0].deadline {
      SortedHead(ws, i);
    }
    forall i, j | 0 <= i < j < n ensures ws[i].order < ws[j].order {
      EqualInOrder(ws, i, j);
    }
  }

  // ------------------------------------------------------------------------- the object

  class VirtualClock {
    var t: real
    var waiters: seq<Waiter>
    var counter: nat

    function Value(): Clock
      reads this
    {
      Clock(t, waiters, counter)
    }

    constructor (start: real)
      ensures Value() == Start(start)
    {
      t, waiters, counter := start, [], 0;
    }

    /** Parked, unless the delay is not positive. */
    method SleepFor(task: nat, seconds: real) returns (parked: Option<nat>)
      modifies this
      ensures Value() == Sleep(old(Value()), task, seconds)
      ensures parked == if seconds <= 0.0 then None else Some(old(counter))
    {
      if seconds <= 0.0 {
        return None;
      }
      waiters := Insert(waiters, Waiter(t + seconds, counter, task));
      parked := Some(counter);
      counter := counter + 1;
    }

    /** None when nothing is parked. */
    method Jump(done: set<nat>) returns (woken: Option<seq<Waiter>>)
      modifies this
      ensures old(waiters) == [] ==> woken == None && Value() == old(Value())
      ensures old(waiters) != [] ==> Value() == Advance(old(Value())) && woken == Some(Woken(Popped(old(Value())), done))
    {
      if waiters == [] {
        return None;
      }
      ghost var was := waiters;
      var deadline := waiters[0].deadline;
      t := deadline;
      var out: seq<Waiter> := [];
      ghost var n := 0;
      while waiters != [] && waiters[0].deadline <= deadline
        invariant n <= |was| && waiters == was[n..] && t == deadline && counter == old(counter)
        invariant Due(was, deadline) == n + Due(waiters, deadline)
        invariant out == Woken(was[..n], done)
        decreases |waiters|
      {
        assert was[..n + 1][..n] == was[..n];
        assert was[n..][1..] == was[n + 1..];
        var w := waiters[0];
        waiters := waiters[1..];
        n := n + 1;
        if w.order !in done {
          out := out + [w];
        }
      }
      woken := Some(out);
    }

    /** Every sleeper woken at once, for shutdown; time does not move. */
    method CancelAll(done: set<nat>) returns (woken: seq<Waiter>)
      modifies this`waiters
      ensures Value() == old(Value()).(waiters := []) && woken == Woken(old(waiters), done)
    {
      ghost var was := waiters;
      woken := [];
      ghost var n := 0;
      while waiters != []
        invariant n <= |was| && waiters == was[n..] && woken == Woken(was[..n], done)
        decreases |waiters|
      {
        assert was[..n + 1][..n] == was[..n];
        assert was[n..][1..] == was[n + 1..];
        var w := waiters[0];
        waiters := waiters[1..];
        n := n + 1;
        if w.order !in done {
          woken := woken + [w];
        }
      }
      assert was[..n] == was;
    }
  }
}
