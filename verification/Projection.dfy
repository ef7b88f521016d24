/** Each manager of the system, looked at alone, takes a run of its own: the sections it is
    scheduled for and the arrivals of what controllers and clients send it. */
module Projection {
  import opened Wrappers
  import opened Vdaf
  import opened Sections
  import opened System
  import opened Refinement

  /** What one step of the system is for the manager on `side`: at most one step. */
  function StepsOf(lib: Lib, w: World, step: WorldStep, side: Side): (ms: seq<Step>)
    ensures |ms| <= 1
  {
    if step.Handle? then
      if step.side == side && !step.step.Arrive? then [step.step] else []
    else
      var x, y := MachineOf(w, side), MachineOf(Next(lib, w, step), side);
      if |y.calls| > |x.calls| then [Arrive(y.calls[|x.calls|].from, y.calls[|x.calls|].call)] else []
  }

  function RunOf(lib: Lib, w: World, steps: seq<WorldStep>, side: Side): (ms: seq<Step>)
    decreases |steps|
  {
    if steps == [] then []
    else
      var init := steps[..|steps| - 1];
      RunOf(lib, w, init, side) + StepsOf(lib, System.Run(lib, w, init), steps[|steps| - 1], side)
  }

  predicate OnlySends(x: Machine, y: Machine)
  {
    y == x || (|y.calls| == |x.calls| + 1
               && var r := y.calls[|x.calls|];
                  y == Send(x, r.from, r.call))
  }

  lemma ProceedOnlySends(w: World, c: nat)
    requires c < |w.controllers|
    ensures OnlySends(w.leader, NextProceed(w, c).leader) && OnlySends(w.helper, NextProceed(w, c).helper)
  {
  }

  lemma PartiesOnlySend(lib: Lib, w: World, step: WorldStep)
    requires !step.Handle?
    ensures OnlySends(w.leader, Next(lib, w, step).leader) && OnlySends(w.helper, Next(lib, w, step).helper)
  {
    match step
    case Proceed(c) => if c < |w.controllers| { ProceedOnlySends(w, c); }
    case _ =>
  }

  lemma StepProjects(lib: Lib, w: World, step: WorldStep, side: Side)
    ensures var ms, x := StepsOf(lib, w, step, side), MachineOf(w, side);
            MachineOf(Next(lib, w, step), side) == if ms == [] then x else Apply(lib, x, ms[0])
  {
    if !step.Handle? { PartiesOnlySend(lib, w, step); }
  }

  lemma RunOn(lib: Lib, x: Machine, ms: seq<Step>, more: seq<Step>)
    requires |more| <= 1
    ensures var y := Sections.Run(lib, x, ms);
            Sections.Run(lib, x, ms + more) == if more == [] then y else Apply(lib, y, more[0])
  {
    if more == [] {
      assert ms + more == ms;
    } else {
      assert (ms + more)[..|ms|] == ms;
    }
  }

  /** In every run of the system, with repeated ids or not, each manager is where its own run takes
      it. */
  lemma {:induction false} RunProjects(lib: Lib, w: World, steps: seq<WorldStep>, side: Side)
    ensures Sections.Run(lib, MachineOf(w, side), RunOf(lib, w, steps, side))
         == MachineOf(System.Run(lib, w, steps), side)
    decreases |steps|
  {
    if steps == [] {
    } else {
      var init, last := steps[..|steps| - 1], steps[|steps| - 1];
      var v := System.Run(lib, w, init);
      RunProjects(lib, w, init, side);
      StepProjects(lib, v, last, side);
      RunOn(lib, MachineOf(w, side), RunOf(lib, w, init, side), StepsOf(lib, v, last, side));
    }
  }

  /** Refinement in the system, repeated ids or not: as long as a manager's creates in flight carry
      distinct ids, its table is what the requests served so far make of it one after another, and
      every finished request took effect exactly once, with the answer the handler gives. */
  lemma {:induction false} ManagerRefines(lib: Lib, w0: World, steps: seq<WorldStep>, side: Side)
    requires Initial(w0) && DistinctRun(lib, MachineOf(w0, side), RunOf(lib, w0, steps, side))
    ensures var x, y := MachineOf(w0, side), MachineOf(System.Run(lib, w0, steps), side);
            var es := Effects(lib, x, RunOf(lib, w0, steps, side));
            Replay(lib, x.m.config, false, View(x), es) == Some(View(y)) && Linearized(y, es)
  {
    var x, ms := MachineOf(w0, side), RunOf(lib, w0, steps, side);
    RunProjects(lib, w0, steps, side);
    RunRefines(lib, x, ms);
    EveryAnswerOnce(lib, x, ms);
  }
}
