/** Runs of the cluster grown one step at a time. */
module Traces {
  import opened RaftTypes
  import opened RaftNode
  import opened RaftNetwork

  /** A run; a guarded one delivers snapshots only where they throw no matching suffix away. */
  datatype Trace = Trace(nets: seq<Net>, steps: seq<Step>, guarded: bool)

  ghost predicate IsRun(t: Trace) {
    FreeRun(t.nets, t.steps) && (t.guarded ==> Run(t.nets, t.steps))
  }

  ghost function Now(t: Trace): Net
    requires IsRun(t)
  {
    t.nets[|t.nets| - 1]
  }

  /** `u` continues `t`. */
  ghost predicate Continues(t: Trace, u: Trace) {
    && IsRun(t) && IsRun(u) && t.nets <= u.nets && t.guarded == u.guarded
    && Now(t).requests <= Now(u).requests
  }

  lemma ContinuesTrans(t: Trace, u: Trace, w: Trace)
    requires Continues(t, u) && Continues(u, w)
    ensures Continues(t, w)
  {
    hide FreeRun;
    hide Run;
  }

  lemma ContinuesRefl(t: Trace)
    requires IsRun(t)
    ensures Continues(t, t)
  {
    hide FreeRun;
    hide Run;
  }

  /** The step may be taken next. */
  predicate Allowed(guarded: bool, n: Net, s: Step) {
    Possible(n, s) && (guarded ==> Enabled(n, s))
  }

  lemma NextRun(nets: seq<Net>, steps: seq<Step>, s: Step)
    requires FreeRun(nets, steps) && Possible(nets[|nets| - 1], s)
    ensures var next := Next(nets[|nets| - 1], s);
            && FreeRun(nets + [next], steps + [s])
            && (Run(nets, steps) && Enabled(nets[|nets| - 1], s) ==> Run(nets + [next], steps + [s]))
  {
    hide Possible;
    hide Enabled;
    hide Next;
    hide Initial;
    var ns, ss := nets + [Next(nets[|nets| - 1], s)], steps + [s];
    assert ns[0] == nets[0];
    forall i | 0 <= i < |ss|
      ensures Possible(ns[i], ss[i]) && ns[i + 1] == Next(ns[i], ss[i])
      ensures Run(nets, steps) && Enabled(nets[|nets| - 1], s) ==> Enabled(ns[i], ss[i])
    {
      if i < |steps| {
        assert ns[i] == nets[i] && ns[i + 1] == nets[i + 1] && ss[i] == steps[i];
      }
    }
  }

  lemma FlightGrows(n: Net, s: Step)
    requires Possible(n, s)
    ensures n.requests <= Next(n, s).requests && n.replies <= Next(n, s).replies
  {
    hide Tick;
    hide Handle;
    hide HandleReply;
    hide Propose;
    hide ReplicateNow;
    hide DrainApply;
    hide Perform;
  }

  lemma Take(t: Trace, s: Step) returns (u: Trace)
    requires IsRun(t) && Allowed(t.guarded, Now(t), s)
    ensures Continues(t, u) && Now(u) == Next(Now(t), s)
    ensures u.nets == t.nets + [Now(u)] && Now(t).replies <= Now(u).replies
  {
    hide FreeRun;
    hide Run;
    hide Possible;
    hide Enabled;
    hide Next;
    FreeLength(t.nets, t.steps);
    NextRun(t.nets, t.steps, s);
    FlightGrows(Now(t), s);
    u := Trace(t.nets + [Next(Now(t), s)], t.steps + [s], t.guarded);
  }

  lemma FreeLength(nets: seq<Net>, steps: seq<Step>)
    requires FreeRun(nets, steps)
    ensures |nets| == |steps| + 1
  {
  }
}
