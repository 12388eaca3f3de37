/** The state-graph mechanism both pipelines are configurations of: named
    nodes that turn the current state into a partial update, a merge that
    folds an update into the state, and an edge table that names the next
    node (or END) after each step. */
module StateGraph {
  import opened Common

  /** Where an edge leads: another node, or the terminal sentinel END. */
  datatype Target<N> = Goto(node: N) | End

  /** A graph over node names `N`, state `S` and partial updates `U`.
      `next` is given the state after the step's update was merged, which is
      what a conditional edge's routing function inspects. */
  datatype Graph<!N, !S, !U> = Graph(
    entry: N,
    run: (N, S) -> Result<U>,
    merge: (S, U) -> S,
    next: (N, S) -> Result<Target<N>>)

  /** One completed node: its name, the update it returned and the state
      after the update was merged (the snapshot a stream of values shows). */
  datatype Step<N, S, U> = Step(node: N, update: U, state: S)

  /** A run: the completed steps, in order, and the failure that ended it,
      if any (None means the run reached END). */
  datatype Trace<N, S, U> = Trace(steps: seq<Step<N, S, U>>, error: Option<Failure>)

  /** The run from node `n` in state `s` with at most `fuel` more steps. A
      failing node contributes no step: its update is never merged. */
  function RunFrom<N, S, U>(g: Graph<N, S, U>, n: N, s: S, fuel: nat): Trace<N, S, U>
    decreases fuel
  {
    if fuel == 0 then Trace([], Some(StepLimit))
    else match g.run(n, s)
      case Err(e) => Trace([], Some(e))
      case Ok(u) =>
        var s' := g.merge(s, u);
        var step := Step(n, u, s');
        match g.next(n, s')
        case Err(e) => Trace([step], Some(e))
        case Ok(End) => Trace([step], None)
        case Ok(Goto(m)) =>
          var rest := RunFrom(g, m, s', fuel - 1);
          Trace([step] + rest.steps, rest.error)
  }

  /** The executor: starts at the entry node, runs one node at a time,
      merges each update, records each snapshot and follows the edges
      until END, a failure or the step bound. */
  method Run<N, S, U>(g: Graph<N, S, U>, init: S, limit: nat) returns (t: Trace<N, S, U>)
    ensures t == RunFrom(g, g.entry, init, limit)
  {
    var steps: seq<Step<N, S, U>> := [];
    var node := g.entry;
    var state := init;
    var fuel := limit;
    assert RunFrom(g, g.entry, init, limit) == After(steps, RunFrom(g, node, state, fuel));
    while fuel > 0
      invariant RunFrom(g, g.entry, init, limit) == After(steps, RunFrom(g, node, state, fuel))
      decreases fuel
    {
      var r := g.run(node, state);
      if r.Err? {
        StepFails(g, node, state, fuel, r.error);
        return Trace(steps, Some(r.error));
      }
      var u := r.value;
      var state' := g.merge(state, u);
      var step := Step(node, u, state');
      var nx := g.next(node, state');
      if nx.Err? {
        RouteFails(g, node, state, fuel, u, nx.error);
        return Trace(steps + [step], Some(nx.error));
      }
      if nx.value.End? {
        StepToEnd(g, node, state, fuel, u);
        return Trace(steps + [step], None);
      }
      StepToNode(g, node, state, fuel, u, nx.value.node);
      AfterAssoc(steps, step, RunFrom(g, nx.value.node, state', fuel - 1));
      steps := steps + [step];
      node := nx.value.node;
      state := state';
      fuel := fuel - 1;
    }
    assert steps + [] == steps;
    return Trace(steps, Some(StepLimit));
  }

  /** The steps already taken, followed by the rest of a run. */
  function After<N, S, U>(steps: seq<Step<N, S, U>>, rest: Trace<N, S, U>): Trace<N, S, U> {
    Trace(steps + rest.steps, rest.error)
  }

  lemma AfterAssoc<N, S, U>(steps: seq<Step<N, S, U>>, step: Step<N, S, U>, rest: Trace<N, S, U>)
    ensures After(steps, Trace([step] + rest.steps, rest.error)) == After(steps + [step], rest)
  {
    assert steps + ([step] + rest.steps) == (steps + [step]) + rest.steps;
  }

  /** A node that raises ends the run before any step is recorded. */
  lemma StepFails<N, S, U>(g: Graph<N, S, U>, n: N, s: S, fuel: nat, e: Failure)
    requires fuel > 0 && g.run(n, s) == Err(e)
    ensures RunFrom(g, n, s, fuel) == Trace([], Some(e))
  {
  }

  /** A routing function that raises ends the run after the step. */
  lemma RouteFails<N, S, U>(g: Graph<N, S, U>, n: N, s: S, fuel: nat, u: U, e: Failure)
    requires fuel > 0 && g.run(n, s) == Ok(u) && g.next(n, g.merge(s, u)) == Err(e)
    ensures RunFrom(g, n, s, fuel) == Trace([Step(n, u, g.merge(s, u))], Some(e))
  {
  }

  /** The steps of every run form a chain along the edges, no longer than
      the step bound. */
  lemma RunChained<N, S, U>(g: Graph<N, S, U>, n: N, s: S, fuel: nat)
    ensures |RunFrom(g, n, s, fuel).steps| <= fuel
    ensures Chained(g, n, s, RunFrom(g, n, s, fuel).steps)
  {
    RunShape(g, n, s, fuel);
  }

  /** A run that reached END did so along the edge of its last snapshot. */
  lemma RunEnds<N, S, U>(g: Graph<N, S, U>, n: N, s: S, fuel: nat)
    requires RunFrom(g, n, s, fuel).error.None?
    ensures var t := RunFrom(g, n, s, fuel);
      |t.steps| > 0 && g.next(Last(t.steps).node, Last(t.steps).state) == Ok(End)
  {
    RunShape(g, n, s, fuel);
  }

  /** A failed run failed in the routing of its last snapshot, at the step
      bound, or in the node that was due. */
  lemma RunFails<N, S, U>(g: Graph<N, S, U>, n: N, s: S, fuel: nat)
    requires RunFrom(g, n, s, fuel).error.Some?
    ensures var t := RunFrom(g, n, s, fuel);
      (|t.steps| > 0 && g.next(Last(t.steps).node, Last(t.steps).state) == Err(t.error.value)) ||
      (Due(g, n, t.steps).Some? &&
       ((t.error.value == StepLimit && |t.steps| == fuel) ||
        g.run(Due(g, n, t.steps).value, Current(s, t.steps)) == Err(t.error.value)))
  {
    RunShape(g, n, s, fuel);
  }

  /** One step along an edge to another node, then the rest of the run. */
  lemma StepToNode<N, S, U>(g: Graph<N, S, U>, n: N, s: S, fuel: nat, u: U, m: N)
    requires fuel > 0 && g.run(n, s) == Ok(u) && g.next(n, g.merge(s, u)) == Ok(Goto(m))
    ensures var rest := RunFrom(g, m, g.merge(s, u), fuel - 1);
      RunFrom(g, n, s, fuel) == Trace([Step(n, u, g.merge(s, u))] + rest.steps, rest.error)
  {
  }

  /** One step whose edge leads to END ends the run. */
  lemma StepToEnd<N, S, U>(g: Graph<N, S, U>, n: N, s: S, fuel: nat, u: U)
    requires fuel > 0 && g.run(n, s) == Ok(u) && g.next(n, g.merge(s, u)) == Ok(End)
    ensures RunFrom(g, n, s, fuel) == Trace([Step(n, u, g.merge(s, u))], None)
  {
  }

  /** Conversely, a chain of steps that stays within the bound and whose
      last snapshot routes to END is exactly the run. */
  lemma {:induction false} ChainedRun<N, S, U>(g: Graph<N, S, U>, n: N, s: S, fuel: nat, steps: seq<Step<N, S, U>>)
    requires Chained(g, n, s, steps) && 0 < |steps| <= fuel
    requires g.next(Last(steps).node, Last(steps).state) == Ok(End)
    ensures RunFrom(g, n, s, fuel) == Trace(steps, None)
    decreases |steps|
  {
    var st := steps[0];
    if |steps| == 1 {
      StepToEnd(g, n, s, fuel, st.update);
    } else {
      var m := steps[1].node;
      var tail := steps[1..];
      assert g.next(n, st.state) == Ok(Goto(m));
      forall i | 0 < i < |tail|
        ensures Follows(g, tail[i - 1].state, tail[i]) &&
          g.next(tail[i - 1].node, tail[i - 1].state) == Ok(Goto(tail[i].node))
      {
        assert tail[i] == steps[i + 1] && tail[i - 1] == steps[i];
      }
      assert Last(tail) == Last(steps);
      ChainedRun(g, m, st.state, fuel - 1, tail);
      StepToNode(g, n, s, fuel, st.update, m);
      assert [st] + tail == steps;
    }
  }

  /** The state a pending node would run in: the input state, or the last
      snapshot. */
  function Current<N, S, U>(s: S, steps: seq<Step<N, S, U>>): S {
    if steps == [] then s else Last(steps).state
  }

  /** The node due to run after `steps`: the start node, or where the last
      snapshot routes (None when it routes to END or fails to route). */
  function Due<N, S, U>(g: Graph<N, S, U>, n: N, steps: seq<Step<N, S, U>>): Option<N> {
    if steps == [] then Some(n)
    else match g.next(Last(steps).node, Last(steps).state)
      case Ok(Goto(m)) => Some(m)
      case _ => None
  }

  /** `st` is what its node does in state `before`: the node returned
      `st.update`, and `st.state` is that update merged into `before`. */
  ghost predicate Follows<N, S, U>(g: Graph<N, S, U>, before: S, st: Step<N, S, U>) {
    g.run(st.node, before) == Ok(st.update) && st.state == g.merge(before, st.update)
  }

  /** The steps start at `n` in state `s`, each step follows from the
      previous snapshot, and consecutive steps follow the edge table. */
  ghost predicate Chained<N, S, U>(g: Graph<N, S, U>, n: N, s: S, steps: seq<Step<N, S, U>>) {
    (|steps| > 0 ==> steps[0].node == n && Follows(g, s, steps[0])) &&
    forall i :: 0 < i < |steps| ==>
      Follows(g, steps[i - 1].state, steps[i]) &&
      g.next(steps[i - 1].node, steps[i - 1].state) == Ok(Goto(steps[i].node))
  }

  /** Every run is a chain of steps along the edges; it ends at END exactly
      when the last snapshot routes there, and any failure is the step
      bound, the routing of the last snapshot, or the node that was due. */
  lemma {:induction false} RunShape<N, S, U>(g: Graph<N, S, U>, n: N, s: S, fuel: nat)
    ensures var t := RunFrom(g, n, s, fuel);
      |t.steps| <= fuel && Chained(g, n, s, t.steps)
    ensures var t := RunFrom(g, n, s, fuel);
      t.error.None? ==> |t.steps| > 0 && g.next(Last(t.steps).node, Last(t.steps).state) == Ok(End)
    ensures var t := RunFrom(g, n, s, fuel);
      t.error.Some? ==>
        (|t.steps| > 0 && g.next(Last(t.steps).node, Last(t.steps).state) == Err(t.error.value)) ||
        (Due(g, n, t.steps).Some? &&
         ((t.error.value == StepLimit && |t.steps| == fuel) ||
          g.run(Due(g, n, t.steps).value, Current(s, t.steps)) == Err(t.error.value)))
    decreases fuel
  {
    var t := RunFrom(g, n, s, fuel);
    if fuel == 0 || g.run(n, s).Err? {
      assert t.steps == [] && Current(s, t.steps) == s;
    } else {
      var u := g.run(n, s).value;
      var s' := g.merge(s, u);
      var step := Step(n, u, s');
      if g.next(n, s').Ok? && g.next(n, s').value.Goto? {
        var m := g.next(n, s').value.node;
        RunShape(g, m, s', fuel - 1);
        var rest := RunFrom(g, m, s', fuel - 1);
        assert t.steps == [step] + rest.steps;
        forall i | 0 < i < |t.steps|
          ensures Follows(g, t.steps[i - 1].state, t.steps[i]) &&
            g.next(t.steps[i - 1].node, t.steps[i - 1].state) == Ok(Goto(t.steps[i].node))
        {
          assert t.steps[i] == rest.steps[i - 1];
          if i > 1 {
            assert t.steps[i - 1] == rest.steps[i - 2];
          }
        }
        if rest.steps != [] {
          assert Last(t.steps) == Last(rest.steps);
        }
        assert Current(s', rest.steps) == Current(s, t.steps);
        assert rest.steps != [] ==> Due(g, m, rest.steps) == Due(g, n, t.steps);
      }
    }
  }
}
