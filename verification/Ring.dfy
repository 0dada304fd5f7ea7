/** Ring topologies: who reads whom. */
module Ring {
  import C = Convergence
  import Gf2
  import opened Options

  datatype Refusal = DuplicateIds | TooFewNodes | KTooSmall | KTooLarge | CycleTooShort

  datatype Result = Ok(order: seq<nat>, graph: map<nat, seq<nat>>) | Err(why: Refusal)

  predicate Distinct(ids: seq<nat>) {
    forall i, j | 0 <= i < j < |ids| :: ids[i] != ids[j]
  }

  /** The ids of a ring of n: those given, or 1 to n. */
  function Order(n: int, ids: Option<seq<nat>>): seq<nat> {
    match ids
    case Some(s) => s
    case None => if n < 1 then [] else seq(n, i requires 0 <= i < n => i + 1)
  }

  /** The first complaint, in the order they are checked. */
  function Complaint(n: int, k: int, directed: bool, ids: Option<seq<nat>>): Option<Refusal> {
    var m := |Order(n, ids)|;
    if ids.Some? && !Distinct(ids.value) then Some(DuplicateIds)
    else if ids.None? && n < 1 then Some(TooFewNodes)
    else if k < 1 then Some(KTooSmall)
    else if !directed && 2 * k >= m then Some(KTooLarge)
    else if directed && m < 2 then Some(CycleTooShort)
    else None
  }

  /** The ids a ring is built on. */
  lemma OrderIs(n: int, ids: Option<seq<nat>>)
    ensures ids.Some? ==> Order(n, ids) == ids.value
    ensures ids.None? && n >= 1 ==> |Order(n, ids)| == n && forall i | 0 <= i < n :: Order(n, ids)[i] == i + 1
  {}

  /** What is refused, and as what. */
  lemma RefusedIff(n: int, k: int, directed: bool, ids: Option<seq<nat>>)
    ensures var c, m := Complaint(n, k, directed, ids), if ids.Some? then |ids.value| else n;
            && (c == Some(DuplicateIds) <==> ids.Some? && exists i, j :: 0 <= i < j < |ids.value| && ids.value[i] == ids.value[j])
            && (c == Some(TooFewNodes) <==> ids.None? && n < 1)
            && (c == Some(KTooSmall) <==> k < 1 && c != Some(DuplicateIds) && c != Some(TooFewNodes))
            && (c == Some(KTooLarge) || c == Some(CycleTooShort) ==> k >= 1)
            && (c == None <==>
                  && (ids.Some? ==> Distinct(ids.value)) && (ids.None? ==> n >= 1)
                  && k >= 1 && if directed then m >= 2 else m > 2 * k)
  {
    OrderIs(n, ids);
  }

  /** Offsets -k..-1 and 1..k. */
  function Offset(k: nat, t: nat): int {
    if t < k then t - k else t - k + 1
  }

  function NbrsAt(order: seq<nat>, k: nat, directed: bool, i: nat): (r: seq<nat>)
    requires i < |order|
    ensures |r| == if directed then 1 else 2 * k
  {
    if directed then [order[(i - 1) % |order|]]
    else seq(2 * k, t requires 0 <= t < 2 * k => order[(i + Offset(k, t)) % |order|])
  }

  method NbrsOf(order: seq<nat>, k: nat, directed: bool, i: nat) returns (nbrs: seq<nat>)
    requires i < |order|
    ensures nbrs == NbrsAt(order, k, directed, i)
  {
    if directed {
      return [order[(i - 1) % |order|]];
    }
    nbrs := [];
    for t := 0 to 2 * k
      invariant nbrs == NbrsAt(order, k, false, i)[..t]
    {
      nbrs := nbrs + [order[(i + Offset(k, t)) % |order|]];
    }
  }

  method Generate(n: int, k: int, directed: bool, ids: Option<seq<nat>>) returns (r: Result)
    ensures Complaint(n, k, directed, ids).Some? ==> r == Err(Complaint(n, k, directed, ids).value)
    ensures Complaint(n, k, directed, ids).None? ==>
              && r.Ok? && r.order == Order(n, ids) && Distinct(r.order)
              && (forall x :: x in r.graph <==> x in r.order)
              && forall i | 0 <= i < |r.order| :: r.order[i] in r.graph && r.graph[r.order[i]] == NbrsAt(r.order, k, directed, i)
  {
    hide NbrsAt;
    var complaint := Complaint(n, k, directed, ids);
    if complaint.Some? {
      return Err(complaint.value);
    }
    var order := Order(n, ids);
    var graph: map<nat, seq<nat>> := map[];
    for i := 0 to |order|
      invariant forall x :: x in graph <==> x in order[..i]
      invariant forall j | 0 <= j < i :: order[j] in graph && graph[order[j]] == NbrsAt(order, k, directed, j)
    {
      assert order[..i + 1] == order[..i] + [order[i]];
      var nbrs := NbrsOf(order, k, directed, i);
      graph := graph[order[i] := nbrs];
    }
    assert order[..|order|] == order;
    r := Ok(order, graph);
  }

  // ------------------------------------------------------------------- around the circle

  /** x modulo m, one lap away at most. */
  function Wrap(x: int, m: int): int {
    if x < 0 then x + m else if x >= m then x - m else x
  }

  lemma WrapIsMod(x: int, m: int)
    requires m > 0 && -m <= x < 2 * m
    ensures x % m == Wrap(x, m) && 0 <= Wrap(x, m) < m
  {
    Gf2.DivModUnique(x, m, if x < 0 then -1 else if x >= m then 1 else 0, Wrap(x, m));
  }

  /** The neighbour at offset t. */
  lemma NbrAt(order: seq<nat>, k: nat, i: nat, t: nat)
    requires 2 * k < |order| && i < |order| && t < 2 * k
    ensures 0 <= Wrap(i + Offset(k, t), |order|) < |order|
    ensures NbrsAt(order, k, false, i)[t] == order[Wrap(i + Offset(k, t), |order|)]
  {
    WrapIsMod(i + Offset(k, t), |order|);
  }

  /** The order of the reads: the k behind, the farthest first, then the k ahead, the nearest
      first; position i's read of the agent d places away stands at d + k, or d + k - 1 ahead. */
  lemma ReadsInOrder(order: seq<nat>, k: nat, i: nat, d: int)
    requires 2 * k < |order| && i < |order| && d != 0 && -(k as int) <= d <= k
    ensures var t := if d < 0 then d + k else d + k - 1;
            && 0 <= t < |NbrsAt(order, k, false, i)|
            && NbrsAt(order, k, false, i)[t] == order[(i + d) % |order|]
  {}

  /** Two small rings in full. */
  lemma SmallRings(order: seq<nat>)
    requires order == [1, 2, 3, 4]
    ensures NbrsAt(order, 1, false, 0) == [4, 2] && NbrsAt(order, 1, false, 1) == [1, 3]
    ensures NbrsAt(order, 1, false, 2) == [2, 4] && NbrsAt(order, 1, false, 3) == [3, 1]
    ensures NbrsAt(order, 1, true, 0) == [4] && NbrsAt(order, 1, true, 3) == [3]
  {}

  /** Whether two positions are at most k apart, the short way round, and not the same. */
  predicate Near(m: nat, k: nat, i: nat, j: nat) {
    i != j && (-(k as int) <= i - j <= k || i - j >= m - k || j - i >= m - k)
  }

  /** Exactly 2k neighbours, all different, none of them oneself. */
  lemma Regular(order: seq<nat>, k: nat, i: nat)
    requires Distinct(order) && 2 * k < |order| && i < |order|
    ensures |NbrsAt(order, k, false, i)| == 2 * k
    ensures Distinct(NbrsAt(order, k, false, i))
    ensures order[i] !in NbrsAt(order, k, false, i)
  {
    var r, m := NbrsAt(order, k, false, i), |order|;
    forall s, t | 0 <= s < t < 2 * k ensures r[s] != r[t] {
      NbrAt(order, k, i, s);
      NbrAt(order, k, i, t);
      assert Wrap(i + Offset(k, s), m) != Wrap(i + Offset(k, t), m);
    }
    forall t | 0 <= t < 2 * k ensures r[t] != order[i] {
      NbrAt(order, k, i, t);
      assert Wrap(i + Offset(k, t), m) != i;
    }
  }

  /** Whom i reads: exactly those within k of it around the circle. */
  lemma ReadsIff(order: seq<nat>, k: nat, i: nat, j: nat)
    requires Distinct(order) && 2 * k < |order| && i < |order| && j < |order|
    ensures order[j] in NbrsAt(order, k, false, i) <==> Near(|order|, k, i, j)
  {
    var r, m := NbrsAt(order, k, false, i), |order|;
    if Near(m, k, i, j) {
      var d := if -(k as int) <= j - i <= k then j - i else if j > i then j - i - m else j - i + m;
      var t := if d < 0 then d + k else d + k - 1;
      NbrAt(order, k, i, t);
      assert Offset(k, t) == d;
      assert r[t] == order[j];
    }
    if t :| 0 <= t < 2 * k && r[t] == order[j] {
      NbrAt(order, k, i, t);
      assert Wrap(i + Offset(k, t), m) == j;
    }
  }

  /** Reading is mutual. */
  lemma Symmetric(order: seq<nat>, k: nat, i: nat, j: nat)
    requires Distinct(order) && 2 * k < |order| && i < |order| && j < |order|
    ensures order[j] in NbrsAt(order, k, false, i) <==> order[i] in NbrsAt(order, k, false, j)
  {
    ReadsIff(order, k, i, j);
    ReadsIff(order, k, j, i);
  }

  // ----------------------------------------------------------------------- connectivity

  predicate Path(graph: map<nat, seq<nat>>, p: seq<nat>) {
    && |p| > 0
    && forall s | 0 <= s < |p| - 1 :: p[s] in graph && p[s + 1] in graph[p[s]]
  }

  predicate IsRing(order: seq<nat>, k: nat, directed: bool, graph: map<nat, seq<nat>>) {
    && Distinct(order) && k >= 1
    && (if directed then |order| >= 2 else 2 * k < |order|)
    && forall i | 0 <= i < |order| :: order[i] in graph && graph[order[i]] == NbrsAt(order, k, directed, i)
  }

  /** Either form reads the predecessor. */
  lemma ReadsPredecessor(order: seq<nat>, k: nat, directed: bool, i: nat)
    requires k >= 1 && i < |order| && (if directed then |order| >= 2 else 2 * k < |order|)
    ensures 0 <= Wrap(i - 1, |order|) < |order|
    ensures order[Wrap(i - 1, |order|)] in NbrsAt(order, k, directed, i)
  {
    WrapIsMod(i - 1, |order|);
    if !directed {
      NbrAt(order, k, i, k - 1);
      assert NbrsAt(order, k, directed, i)[k - 1] in NbrsAt(order, k, directed, i);
    }
  }

  /** s steps back from i. */
  function Back(m: nat, i: nat, s: nat): int {
    Wrap(i - s, m)
  }

  function Walk(order: seq<nat>, i: nat, s: nat): (p: seq<nat>)
    requires i < |order| && s < |order|
    ensures |p| == s + 1
  {
    seq(s + 1, x requires 0 <= x < s + 1 => order[Back(|order|, i, x)])
  }

  lemma WalkIsPath(order: seq<nat>, k: nat, directed: bool, graph: map<nat, seq<nat>>, i: nat, s: nat)
    requires IsRing(order, k, directed, graph) && i < |order| && s < |order|
    ensures Path(graph, Walk(order, i, s))
    ensures Walk(order, i, s)[0] == order[i] && Walk(order, i, s)[s] == order[Back(|order|, i, s)]
  {
    var p := Walk(order, i, s);
    forall x | 0 <= x < s ensures p[x] in graph && p[x + 1] in graph[p[x]] {
      ReadsPredecessor(order, k, directed, Back(|order|, i, x));
    }
  }

  /** Both ring forms are strongly connected: from any agent a chain of at most n - 1
      reads leads to any other. */
  lemma StronglyConnected(order: seq<nat>, k: nat, directed: bool, graph: map<nat, seq<nat>>, i: nat, j: nat)
    requires IsRing(order, k, directed, graph) && i < |order| && j < |order|
    ensures exists p: seq<nat> :: Path(graph, p) && p[0] == order[i] && p[|p| - 1] == order[j] && |p| <= |order|
  {
    var s := Wrap(i - j, |order|);
    WalkIsPath(order, k, directed, graph, i, s);
    assert Back(|order|, i, s) == j;
    assert Path(graph, Walk(order, i, s));
  }

  // ------------------------------------------------------------------ one pin reaches all

  /** How many reads back agent i is from the pin. */
  function HopsTo(m: nat, pin: nat): (hops: seq<nat>)
    requires pin < m
    ensures |hops| == m
  {
    seq(m, i requires 0 <= i < m => if i >= pin then i - pin else i - pin + m)
  }

  /** Observers on a ring of positions, one of them pinned: the convergence theorem
      applies with L = n - 1. */
  lemma OnePinReachesAll(nodes: seq<C.Node>, pin: nat, b: real)
    requires pin < |nodes| && nodes[pin].layer.p.b >= b
    requires forall i | 0 <= i < |nodes| :: Wrap(i - 1, |nodes|) in nodes[i].nbrs
    ensures C.Reaches(nodes, HopsTo(|nodes|, pin), b, |nodes| - 1)
  {
    var m, hops := |nodes|, HopsTo(|nodes|, pin);
    forall i | 0 <= i < m
      ensures hops[i] <= m - 1
      ensures hops[i] == 0 ==> nodes[i].layer.p.b >= b
      ensures hops[i] > 0 ==> C.Closer(nodes[i], hops, hops[i])
    {
      if hops[i] > 0 {
        var j :| 0 <= j < |nodes[i].nbrs| && nodes[i].nbrs[j] == Wrap(i - 1, m);
        assert hops[nodes[i].nbrs[j]] + 1 == hops[i];
      }
    }
  }
}
