/** The soundness check of an op chain: a layered topological sort that refuses exactly the chains with a real
    dependency cycle, and accepts only chains whose reads are ordered by their needs. */
module OpChain {
  import opened Basics

  type Name = string

  /** A step with its needs and, for each input, the step it reads from, if it reads from one. */
  datatype Step = Step(id: Name, needs: seq<Name>, sources: seq<Option<Name>>)

  type Graph = map<Name, set<Name>>

  datatype Verdict = Sound | DuplicateId | Unknown(step: Name, name: Name) | Cyclic(stuck: set<Name>) | Race(step: Name)

  // ── walks and cycles ──

  ghost predicate Closed(g: Graph) {
    forall id :: id in g ==> g[id] <= g.Keys
  }

  /** Each step of a walk depends on the next one. */
  ghost predicate Walk(g: Graph, w: seq<Name>) {
    && w != []
    && (forall i :: 0 <= i < |w| ==> w[i] in g)
    && (forall i :: 0 < i < |w| ==> w[i] in g[w[i - 1]])
  }

  ghost predicate Cycle(g: Graph, c: seq<Name>) {
    Walk(g, c) && |c| >= 2 && c[0] == c[|c| - 1]
  }

  ghost predicate Leads(g: Graph, id: Name, w: seq<Name>, c: seq<Name>) {
    Walk(g, w) && Cycle(g, c) && w[0] == id && w[|w| - 1] == c[0]
  }

  ghost predicate ReachesCycle(g: Graph, id: Name) {
    exists w, c :: Leads(g, id, w, c)
  }

  /** An order of all steps in which each one comes after everything it depends on. */
  ghost predicate Topological(g: Graph, order: seq<Name>) {
    && (forall id :: id in g <==> id in order)
    && Ordered(g, order)
  }

  ghost predicate Ordered(g: Graph, order: seq<Name>) {
    && (forall i, j :: 0 <= i < j < |order| ==> order[i] != order[j])
    && (forall i :: 0 <= i < |order| ==> order[i] in g && forall d :: d in g[order[i]] ==> d in order[..i])
  }

  function Elements<T>(s: seq<T>): set<T> {
    set x | x in s
  }

  ghost predicate Distinct<T>(s: seq<T>) {
    forall i, j :: 0 <= i < j < |s| ==> s[i] != s[j]
  }

  /** Counting the elements tells whether a sequence repeats one. */
  lemma {:induction false} CountTellsDistinct<T>(s: seq<T>)
    ensures |Elements(s)| <= |s|
    ensures |Elements(s)| == |s| <==> Distinct(s)
  {
    if s != [] {
      var n := |s| - 1;
      var init := s[..n];
      CountTellsDistinct(init);
      assert Elements(s) == Elements(init) + {s[n]};
      if s[n] in init {
        var i :| 0 <= i < n && init[i] == s[n];
        assert s[i] == s[n];
        assert Elements(s) == Elements(init);
      } else {
        assert |Elements(s)| == |Elements(init)| + 1;
        assert forall i :: 0 <= i < n ==> s[i] == init[i];
        if Distinct(s) {
          assert Distinct(init);
        }
        if Distinct(init) {
          forall i, j | 0 <= i < j < |s| ensures s[i] != s[j] {
            assert j == n ==> s[i] in init;
          }
        }
      }
    }
  }

  /** Pigeonhole: a sequence longer than a set it draws from repeats an element. */
  lemma Repeats<T>(s: seq<T>, holes: set<T>) returns (i: nat, j: nat)
    requires |s| > |holes| && forall k :: 0 <= k < |s| ==> s[k] in holes
    ensures i < j < |s| && s[i] == s[j]
  {
    CountTellsDistinct(s);
    Fits(Elements(s), holes);
    i, j :| 0 <= i < j < |s| && s[i] == s[j];
  }

  lemma {:induction false} Fits<T>(a: set<T>, b: set<T>)
    requires a <= b
    ensures |a| <= |b|
  {
    if a != {} {
      var x :| x in a;
      Fits(a - {x}, b - {x});
    }
  }

  // ── nothing ready means a cycle ──

  /** Every step of `s` depends on a step of `s`. */
  ghost predicate Stuck(g: Graph, s: set<Name>) {
    s <= g.Keys && forall id {:trigger Held(g, s, id)} :: id in s ==> Held(g, s, id)
  }

  ghost predicate Held(g: Graph, s: set<Name>, id: Name) {
    id in g && exists d :: d in g[id] && d in s
  }

  lemma {:induction false} Stroll(g: Graph, s: set<Name>, id: Name, n: nat) returns (w: seq<Name>)
    requires Stuck(g, s) && id in s
    ensures Walk(g, w) && |w| == n + 1 && w[0] == id && forall k :: 0 <= k < |w| ==> w[k] in s
    decreases n
  {
    if n == 0 {
      w := [id];
    } else {
      assert Held(g, s, id);
      var d :| d in g[id] && d in s;
      var rest := Stroll(g, s, d, n - 1);
      w := [id] + rest;
    }
  }

  lemma StuckReachesACycle(g: Graph, s: set<Name>, id: Name)
    requires Stuck(g, s) && id in s
    ensures ReachesCycle(g, id)
  {
    var w := Stroll(g, s, id, |s|);
    var i, j := Repeats(w, s);
    assert Leads(g, id, w[..i + 1], w[i..j + 1]);
  }

  // ── an order rules cycles out ──

  lemma {:induction false} WalksFallBack(g: Graph, order: seq<Name>, w: seq<Name>, i: nat) returns (j: nat)
    requires Ordered(g, order) && Walk(g, w) && i < |order| && w[0] == order[i]
    ensures j <= i && order[j] == w[|w| - 1] && (|w| > 1 ==> j < i)
    decreases |w|
  {
    if |w| == 1 {
      j := i;
    } else {
      assert w[1] in order[..i];
      var k :| 0 <= k < i && order[k] == w[1];
      j := WalksFallBack(g, order, w[1..], k);
    }
  }

  /** What is ordered reaches no cycle. */
  lemma OrderedReachesNoCycle(g: Graph, order: seq<Name>, id: Name)
    requires Ordered(g, order) && id in order
    ensures !ReachesCycle(g, id)
  {
    if ReachesCycle(g, id) {
      var w, c :| Leads(g, id, w, c);
      var i :| 0 <= i < |order| && order[i] == id;
      var j := WalksFallBack(g, order, w, i);
      var k := WalksFallBack(g, order, c, j);
      assert false;
    }
  }

  // ── the sort ──

  ghost function SomeOrder(s: set<Name>): (r: seq<Name>)
    ensures Distinct(r) && Elements(r) == s
  {
    if s == {} then [] else
      var x :| x in s;
      var rest := SomeOrder(s - {x});
      assert x !in rest by { assert x !in Elements(rest); }
      assert Elements([x] + rest) == {x} + Elements(rest);
      [x] + rest
  }

  lemma LayerOrdered(g: Graph, order: seq<Name>, ready: set<Name>)
    requires Ordered(g, order) && ready <= g.Keys && ready !! Elements(order)
    requires forall id :: id in ready ==> g[id] <= Elements(order)
    ensures Ordered(g, order + SomeOrder(ready))
    ensures Elements(order + SomeOrder(ready)) == Elements(order) + ready
  {
    var layer := SomeOrder(ready);
    var all := order + layer;
    assert forall i :: 0 <= i < |layer| ==> layer[i] in Elements(layer);
    assert forall i :: 0 <= i < |order| ==> order[i] in Elements(order);
    forall i | 0 <= i < |all| ensures all[i] in g && forall d :: d in g[all[i]] ==> d in all[..i] {
      if i < |order| {
        assert all[..i] == order[..i];
      } else {
        assert all[i] == layer[i - |order|];
        assert order <= all[..i];
        forall d | d in g[all[i]] ensures d in all[..i] {
          assert d in Elements(order);
        }
      }
    }
  }

  lemma Shrinks(m: Graph, taken: set<Name>)
    requires taken <= m.Keys && taken != {}
    ensures |m - taken| < |m|
  {
    var x :| x in taken;
    Fits(m.Keys - taken, m.Keys - {x});
    assert (m - taken).Keys == m.Keys - taken;
    assert |m| == |m.Keys| && |m - taken| == |(m - taken).Keys|;
  }

  /** The steps that an order closed under dependencies leaves out, each waiting for another of them, are exactly
      those that depend on a cycle. */
  lemma LeftoversAreCyclic(g: Graph, order: seq<Name>, left: set<Name>)
    requires Closed(g) && Ordered(g, order) && left == g.Keys - Elements(order)
    requires forall id :: id in left ==> !(g[id] <= Elements(order))
    ensures CyclicExactly(g, left)
  {
    forall id | id in left ensures Held(g, left, id) {
      var d :| d in g[id] && d !in Elements(order);
    }
    forall id | id in g ensures id in left <==> ReachesCycle(g, id) {
      if id in left {
        StuckReachesACycle(g, left, id);
      } else {
        assert id in Elements(order);
        OrderedReachesNoCycle(g, order, id);
      }
    }
  }

  ghost predicate CyclicExactly(g: Graph, ids: set<Name>) {
    ids <= g.Keys && forall id :: id in g ==> (id in ids <==> ReachesCycle(g, id))
  }

  ghost predicate Sortable(g: Graph) {
    exists order :: Topological(g, order)
  }

  lemma AllSorted(g: Graph, order: seq<Name>)
    requires Closed(g) && Ordered(g, order) && Elements(order) == g.Keys
    ensures Sortable(g) && CyclicExactly(g, {})
  {
    LeftoversAreCyclic(g, order, {});
    assert forall id :: id in order <==> id in Elements(order);
    assert Topological(g, order);
  }

  /** The steps whose dependencies are all known. */
  function Ready(pending: Graph, known: set<Name>): set<Name> {
    set id | id in pending && pending[id] <= known
  }

  /** Halfway through: what is known has been ordered, and what is pending is the rest of the graph. */
  ghost predicate Halfway(g: Graph, order: seq<Name>, known: set<Name>, pending: Graph) {
    && Ordered(g, order) && Elements(order) == known
    && known <= g.Keys && pending == g - known
  }

  lemma LayerKeeps(g: Graph, order: seq<Name>, known: set<Name>, pending: Graph)
    requires Halfway(g, order, known, pending)
    ensures var ready := Ready(pending, known);
      Halfway(g, order + SomeOrder(ready), known + ready, pending - ready)
  {
    var ready := Ready(pending, known);
    assert ready <= g.Keys && ready !! known;
    LayerOrdered(g, order, ready);
    MinusMinus(g, known, ready);
  }

  lemma MinusMinus(g: Graph, a: set<Name>, b: set<Name>)
    ensures (g - a) - b == g - (a + b)
  {
  }

  lemma NothingLeft(g: Graph, order: seq<Name>, known: set<Name>, pending: Graph)
    requires Closed(g) && Halfway(g, order, known, pending) && pending == map[]
    ensures Sortable(g) && CyclicExactly(g, {})
  {
    forall id | id in g ensures id in known {
      assert id !in pending && pending == g - known;
    }
    AllSorted(g, order);
  }

  lemma NothingReady(g: Graph, order: seq<Name>, known: set<Name>, pending: Graph)
    requires Closed(g) && Halfway(g, order, known, pending) && Ready(pending, known) == {}
    ensures CyclicExactly(g, pending.Keys)
  {
    forall id | id in pending.Keys ensures !(g[id] <= known) {
      assert id !in Ready(pending, known);
    }
    LeftoversAreCyclic(g, order, pending.Keys);
  }

  /** Take away the steps whose dependencies are all known, layer by layer, until none is left or none is ready.
      The steps left are exactly those that depend, however indirectly, on a cycle. */
  method Sort(g: Graph) returns (stuck: set<Name>)
    requires Closed(g)
    ensures CyclicExactly(g, stuck)
    ensures stuck == {} ==> Sortable(g)
  {
    hide CyclicExactly;
    var pending, known := g, {};
    ghost var order := [];
    while pending != map[]
      invariant Halfway(g, order, known, pending)
      decreases |pending|
    {
      var ready := Ready(pending, known);
      if ready == {} {
        NothingReady(g, order, known, pending);
        return pending.Keys;
      }
      LayerKeeps(g, order, known, pending);
      Shrinks(pending, ready);
      order := order + SomeOrder(ready);
      known := known + ready;
      pending := pending - ready;
    }
    NothingLeft(g, order, known, pending);
    return {};
  }

  // ── the chain ──

  function Ids(steps: seq<Step>): (ids: seq<Name>)
    ensures |ids| == |steps| && forall i :: 0 <= i < |steps| ==> ids[i] == steps[i].id
  {
    seq(|steps|, i requires 0 <= i < |steps| => steps[i].id)
  }

  /** The steps a step reads from; an empty name counts as none. */
  function ReadNames(s: Step): set<Name> {
    set b | b in s.sources && b.Some? && b.value != "" :: b.value
  }

  /** Needs and reads together; of steps that share an id the last one counts. */
  function Dependencies(steps: seq<Step>): Graph {
    if steps == [] then map[] else
      var n := |steps| - 1;
      Dependencies(steps[..n])[steps[n].id := Elements(steps[n].needs) + ReadNames(steps[n])]
  }

  /** The first name a step mentions that no step has. */
  function UnknownNeed(needs: seq<Name>, seen: set<Name>): Option<Name> {
    if needs == [] then None else if needs[0] !in seen then Some(needs[0]) else UnknownNeed(needs[1..], seen)
  }

  function UnknownRead(from: seq<Option<Name>>, seen: set<Name>): Option<Name> {
    if from == [] then None
    else if from[0].Some? && from[0].value !in seen then from[0]
    else UnknownRead(from[1..], seen)
  }

  ghost predicate Resolved(s: Step, seen: set<Name>) {
    (forall n :: n in s.needs ==> n in seen) && (forall b :: b in s.sources && b.Some? ==> b.value in seen)
  }

  /** Every step listed a read as a need. */
  ghost predicate Listed(s: Step) {
    forall b :: b in s.sources && b.Some? ==> b.value in s.needs
  }

  ghost predicate WellNamed(steps: seq<Step>) {
    Distinct(Ids(steps)) && forall i :: 0 <= i < |steps| ==> Resolved(steps[i], Elements(Ids(steps)))
  }

  lemma {:induction false} UnknownNeedMeans(needs: seq<Name>, seen: set<Name>)
    ensures UnknownNeed(needs, seen) == None <==> forall n :: n in needs ==> n in seen
    ensures UnknownNeed(needs, seen).Some? ==> UnknownNeed(needs, seen).value in needs
    ensures UnknownNeed(needs, seen).Some? ==> UnknownNeed(needs, seen).value !in seen
  {
    if needs != [] {
      UnknownNeedMeans(needs[1..], seen);
      assert forall n :: n in needs <==> n == needs[0] || n in needs[1..];
    }
  }

  lemma {:induction false} UnknownReadMeans(from: seq<Option<Name>>, seen: set<Name>)
    ensures UnknownRead(from, seen) == None <==> forall b :: b in from && b.Some? ==> b.value in seen
    ensures UnknownRead(from, seen).Some? ==> UnknownRead(from, seen) in from
    ensures UnknownRead(from, seen).Some? ==> UnknownRead(from, seen).value !in seen
  {
    if from != [] {
      UnknownReadMeans(from[1..], seen);
      assert forall b :: b in from <==> b == from[0] || b in from[1..];
    }
  }

  lemma {:induction false} DependenciesOf(steps: seq<Step>, i: nat)
    requires i < |steps| && Distinct(Ids(steps))
    ensures Dependencies(steps).Keys == Elements(Ids(steps))
    ensures Dependencies(steps)[steps[i].id] == Elements(steps[i].needs) + ReadNames(steps[i])
    decreases |steps|
  {
    var n := |steps| - 1;
    var init := steps[..n];
    assert Ids(steps) == Ids(init) + [steps[n].id];
    assert forall j :: 0 <= j < n ==> Ids(init)[j] == Ids(steps)[j];
    if n > 0 {
      DependenciesOf(init, if i < n then i else 0);
    }
    if i < n {
      assert Ids(steps)[i] != Ids(steps)[n];
    }
  }

  lemma NamesClose(steps: seq<Step>)
    requires WellNamed(steps)
    ensures Closed(Dependencies(steps)) && Dependencies(steps).Keys == Elements(Ids(steps))
  {
    var g := Dependencies(steps);
    if steps != [] {
      DependenciesOf(steps, 0);
    }
    forall id | id in g ensures g[id] <= g.Keys {
      var i :| 0 <= i < |steps| && Ids(steps)[i] == id;
      DependenciesOf(steps, i);
      assert Resolved(steps[i], Elements(Ids(steps)));
    }
  }

  ghost predicate Mentions(steps: seq<Step>, id: Name, name: Name) {
    exists s :: s in steps && s.id == id && (name in s.needs || Some(name) in s.sources)
  }

  /** In a sound chain's order a step comes after every step it reads from, and it lists each as a need. */
  lemma ReadersFollowWriters(steps: seq<Step>, order: seq<Name>, s: Step, from: Name)
    requires WellNamed(steps) && Topological(Dependencies(steps), order)
    requires s in steps && Listed(s) && Some(from) in s.sources
    ensures from in s.needs
    ensures exists i, j :: 0 <= i < j < |order| && order[i] == from && order[j] == s.id
  {
    var k :| 0 <= k < |steps| && steps[k] == s;
    DependenciesOf(steps, k);
    assert from in Elements(s.needs);
    assert Ids(steps)[k] in Elements(Ids(steps));
    var j :| 0 <= j < |order| && order[j] == s.id;
    assert from in order[..j];
  }

  /** The first step that mentions a name no step has. */
  method FindUnknown(steps: seq<Step>, seen: set<Name>) returns (found: Option<(Name, Name)>)
    ensures found == None <==> forall i :: 0 <= i < |steps| ==> Resolved(steps[i], seen)
    ensures found.Some? ==> found.value.1 !in seen && Mentions(steps, found.value.0, found.value.1)
  {
    var i := 0;
    while i < |steps|
      invariant 0 <= i <= |steps|
      invariant forall k :: 0 <= k < i ==> Resolved(steps[k], seen)
    {
      UnknownNeedMeans(steps[i].needs, seen);
      UnknownReadMeans(steps[i].sources, seen);
      var need := UnknownNeed(steps[i].needs, seen);
      if need.Some? {
        return Some((steps[i].id, need.value));
      }
      var from := UnknownRead(steps[i].sources, seen);
      if from.Some? {
        return Some((steps[i].id, from.value));
      }
      i := i + 1;
    }
    return None;
  }

  /** The first step that reads a step it does not list as a need. */
  method FindRace(steps: seq<Step>) returns (found: Option<Name>)
    ensures found == None <==> forall s :: s in steps ==> Listed(s)
    ensures found.Some? ==> exists s :: s in steps && s.id == found.value && !Listed(s)
  {
    var i := 0;
    while i < |steps|
      invariant 0 <= i <= |steps|
      invariant forall k :: 0 <= k < i ==> Listed(steps[k])
    {
      UnknownReadMeans(steps[i].sources, Elements(steps[i].needs));
      if UnknownRead(steps[i].sources, Elements(steps[i].needs)).Some? {
        assert steps[i] in steps && !Listed(steps[i]);
        return Some(steps[i].id);
      }
      i := i + 1;
    }
    return None;
  }

  /** The validation of a chain: each refusal is raised exactly when it is true, checked in this order. */
  method Check(steps: seq<Step>) returns (v: Verdict)
    ensures v.DuplicateId? <==> !Distinct(Ids(steps))
    ensures v.Unknown? <==> Distinct(Ids(steps)) && !WellNamed(steps)
    ensures v.Unknown? ==> v.name !in Ids(steps) && Mentions(steps, v.step, v.name)
    ensures v.Cyclic? <==> WellNamed(steps) && exists id :: id in Ids(steps) && ReachesCycle(Dependencies(steps), id)
    ensures v.Cyclic? ==> CyclicExactly(Dependencies(steps), v.stuck)
    ensures v.Race? ==> exists s :: s in steps && s.id == v.step && !Listed(s)
    ensures v == Sound ==> WellNamed(steps) && Sortable(Dependencies(steps)) && forall s :: s in steps ==> Listed(s)
  {
    var ids := Ids(steps);
    CountTellsDistinct(ids);
    var seen := Elements(ids);
    if |seen| != |ids| {
      return DuplicateId;
    }
    var unknown := FindUnknown(steps, seen);
    if unknown.Some? {
      return Unknown(unknown.value.0, unknown.value.1);
    }
    NamesClose(steps);
    var stuck := Sort(Dependencies(steps));
    if stuck != {} {
      return Cyclic(stuck);
    }
    var race := FindRace(steps);
    if race.Some? {
      return Race(race.value);
    }
    return Sound;
  }
}
