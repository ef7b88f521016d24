/** The lock-granular manager refines an atomic one: every finished request takes effect at one
    instant between its arrival and its answer. */
module Refinement {
  import opened Wrappers
  import opened Vdaf
  import opened Handlers
  import opened Sections

  datatype Table = Table(sessions: Sessions, store: Store)

  /** Whole requests, served in one go, with the choices made while serving them. */
  datatype Op =
    | CreateOp(req: CreateRequest, drawn: SessionId, keypair: HpkeKeypair)
    | StartOp(startId: SessionId, taskEncoded: string, commit: bool)
    | EndOp(endId: SessionId)
    | QueryOp(queryEncoded: string)

  /** The handlers, uninterrupted. */
  function Atomic(lib: Lib, config: Config, a: Table, op: Op): (r: (Table, Reply))
  {
    match op
    case CreateOp(req, drawn, keypair) =>
      (match CheckRequest(lib, a.sessions, req, drawn)
       case Err => (a, Rejected)
       case Ok((id, setup)) => (a.(sessions := a.sessions[id := Session(setup, keypair, [])]), Created(id)))
    case StartOp(id, taskEncoded, commit) =>
      var (m, reply) := StartRound(lib, Manager(config, a.sessions, a.store, map[]), id, taskEncoded, commit);
      (Table(m.sessions, m.store), reply)
    case EndOp(id) =>
      var (m, reply) := EndSession(Manager(config, a.sessions, a.store, map[]), id);
      (Table(m.sessions, m.store), reply)
    case QueryOp(taskEncoded) => (a, AnswerQuery(a.sessions, taskEncoded))
  }

  /** The atomic operations are the handlers, a create given the keypair the keyring yields. */
  lemma AtomicsAreHandlers(lib: Lib, m: Manager, req: CreateRequest, d: Draws, id: SessionId, s: string, commit: bool)
    ensures var a := Table(m.sessions, m.store);
            && (var (n, reply) := CreateSession(lib, m, req, d);
                Atomic(lib, m.config, a, CreateOp(req, d.id, FetchKeypair(m.keyring, d.keyId, d.seed).1))
                == (Table(n.sessions, n.store), reply))
            && (var (n, reply) := StartRound(lib, m, id, s, commit);
                Atomic(lib, m.config, a, StartOp(id, s, commit)) == (Table(n.sessions, n.store), reply))
            && (var (n, reply) := EndSession(m, id);
                Atomic(lib, m.config, a, EndOp(id)) == (Table(n.sessions, n.store), reply))
            && Atomic(lib, m.config, a, QueryOp(s)) == (a, AnswerQuery(m.sessions, s))
  {
    StartIgnoresKeyring(lib, m, id, s, commit);
  }

  lemma StartIgnoresKeyring(lib: Lib, m: Manager, id: SessionId, s: string, commit: bool)
    ensures var (n, reply) := StartRound(lib, m, id, s, commit);
            StartRound(lib, m.(keyring := map[]), id, s, commit) == (n.(keyring := map[]), reply)
  {
  }

  function ChosenId(op: Op): (id: SessionId)
    requires op.CreateOp?
  {
    if op.req.id.Some? then op.req.id.value else op.drawn
  }

  /** A table that never replaces a session: it refuses drawn ids that are taken, too. */
  function InsertIfAbsent(lib: Lib, config: Config, a: Table, op: Op): (r: (Table, Reply))
  {
    if op.CreateOp? && ChosenId(op) in a.sessions then (a, Rejected) else Atomic(lib, config, a, op)
  }

  function Perform(lib: Lib, config: Config, strict: bool, a: Table, op: Op): (r: (Table, Reply))
  {
    if strict then InsertIfAbsent(lib, config, a, op) else Atomic(lib, config, a, op)
  }

  /** Request `i` takes effect as `op` and is answered `reply`. */
  datatype Event = Event(i: nat, op: Op, reply: Reply)

  function View(x: Machine): Table
  {
    Table(x.m.sessions, x.m.store)
  }

  /** The effect of a step, if it is the one at which its request takes effect: the insert for a
      successful create, the check for a refused one, the only section of the others. */
  function EffectOf(lib: Lib, x: Machine, step: Step): (es: seq<Event>)
    ensures |es| <= 1
  {
    match step
    case Arrive(_, _) => []
    case FetchKey(_, _, _) => []
    case Check(i, drawn) =>
      if Waiting(x, i) && x.calls[i].call.Create? && ApplyCheck(lib, x, i, drawn).calls[i].phase.Done?
      then [Event(i, CreateOp(x.calls[i].call.req, drawn, GenerateKeypair(0, Aes128Gcm, 0)), Rejected)]
      else []
    case Insert(i) =>
      if i < |x.calls| && x.calls[i].phase.Keyed? && x.calls[i].call.Create? then
        var p := x.calls[i].phase;
        [Event(i, CreateOp(x.calls[i].call.req, p.keyedId, p.session.keypair), Created(p.keyedId))]
      else []
    case RunStart(i, commit) =>
      if Waiting(x, i) && x.calls[i].call.Start? then
        var call := x.calls[i].call;
        [Event(i, StartOp(call.startId, call.taskEncoded, commit),
               StartRound(lib, x.m, call.startId, call.taskEncoded, commit).1)]
      else []
    case RunEnd(i) =>
      if Waiting(x, i) && x.calls[i].call.End? then
        [Event(i, EndOp(x.calls[i].call.endId), EndSession(x.m, x.calls[i].call.endId).1)]
      else []
    case RunQuery(i) =>
      if Waiting(x, i) && x.calls[i].call.Query? then
        var taskEncoded := x.calls[i].call.queryEncoded;
        [Event(i, QueryOp(taskEncoded), AnswerQuery(x.m.sessions, taskEncoded))]
      else []
  }

  /** An effect is the effect of its own request: of its kind, with its arguments. */
  lemma EffectIsOfItsRequest(lib: Lib, x: Machine, step: Step)
    requires EffectOf(lib, x, step) != []
    ensures var e := EffectOf(lib, x, step)[0];
            && e.i < |x.calls| && !step.Arrive? && e.i == step.i
            && (match x.calls[e.i].call
                case Create(req) => e.op.CreateOp? && e.op.req == req && (step.Check? ==> e.op.drawn == step.drawn)
                case Start(id, s) => step.RunStart? && e.op == StartOp(id, s, step.commit)
                case End(id) => e.op == EndOp(id)
                case Query(s) => e.op == QueryOp(s))
  {
  }

  function Effects(lib: Lib, x: Machine, steps: seq<Step>): (es: seq<Event>)
    decreases |steps|
  {
    if steps == [] then []
    else
      var init := steps[..|steps| - 1];
      Effects(lib, x, init) + EffectOf(lib, Run(lib, x, init), steps[|steps| - 1])
  }

  /** Replays events on an atomic table; `None` if some answer is not the atomic one. */
  function Replay(lib: Lib, config: Config, strict: bool, a: Table, es: seq<Event>): (r: Option<Table>)
    decreases |es|
  {
    if es == [] then Some(a)
    else
      var e := es[|es| - 1];
      match Replay(lib, config, strict, a, es[..|es| - 1])
      case None => None
      case Some(b) =>
        var (c, reply) := Perform(lib, config, strict, b, e.op);
        if reply == e.reply then Some(c) else None
  }

  // ---------------------------------------------------------------- what the proof keeps

  /** Creates in flight carry pairwise distinct ids. */
  predicate DistinctInFlight(x: Machine)
  {
    forall i, j :: 0 <= i < j < |x.calls| && Carried(x.calls[i]).Some? ==> Carried(x.calls[i]) != Carried(x.calls[j])
  }

  /** They do so in every state of the run. */
  ghost predicate DistinctRun(lib: Lib, x: Machine, steps: seq<Step>)
    decreases |steps|
  {
    && DistinctInFlight(Run(lib, x, steps))
    && (steps == [] || DistinctRun(lib, x, steps[..|steps| - 1]))
  }

  lemma {:induction false} DistinctRunMeans(lib: Lib, x: Machine, steps: seq<Step>)
    ensures DistinctRun(lib, x, steps) <==> forall k :: 0 <= k <= |steps| ==> DistinctInFlight(Run(lib, x, steps[..k]))
    decreases |steps|
  {
    assert steps[..|steps|] == steps;
    if steps == [] {
    } else {
      var init := steps[..|steps| - 1];
      DistinctRunMeans(lib, x, init);
      forall k | 0 <= k <= |init| ensures steps[..k] == init[..k] {}
    }
  }

  /** Requests that hold a decoded session hold the one their own terms decode to, under the id
      they asked for if they asked for one. */
  ghost predicate HeldInv(lib: Lib, x: Machine)
  {
    forall i :: 0 <= i < |x.calls| ==> Held(lib, x.calls[i])
  }

  predicate Held(lib: Lib, r: Request)
  {
    match r.phase
    case Checked(id, setup) => HeldAs(lib, r, id, setup)
    case Keyed(id, session) => HeldAs(lib, r, id, session.setup) && session.tasks == []
    case _ => true
  }

  predicate HeldAs(lib: Lib, r: Request, id: SessionId, setup: Setup)
  {
    && r.call.Create? && (r.call.req.id.Some? ==> r.call.req.id == Some(id))
    && DecodeTerms(lib, r.call.req.role, r.call.req.terms) == Ok(setup)
  }

  /** An id asked for and found free stays free until it is inserted. */
  predicate RequestedFree(x: Machine)
  {
    forall i :: 0 <= i < |x.calls| && x.calls[i].call.Create? && x.calls[i].call.req.id.Some? ==>
      Carried(x.calls[i]).Some? ==> Carried(x.calls[i]).value !in x.m.sessions
  }

  lemma HeldInvStep(lib: Lib, x: Machine, step: Step)
    requires HeldInv(lib, x)
    ensures HeldInv(lib, Apply(lib, x, step))
  {
    var y := Apply(lib, x, step);
    forall j | 0 <= j < |y.calls| ensures Held(lib, y.calls[j]) {
      if j < |x.calls| { assert Held(lib, x.calls[j]); }
    }
  }

  lemma RequestedFreeStep(lib: Lib, x: Machine, step: Step)
    requires RequestedFree(x) && DistinctInFlight(x)
    ensures RequestedFree(Apply(lib, x, step))
  {
  }

  // ---------------------------------------------------------------- one step, every run

  /** A step does to the table what its effect does atomically, with the same answer; and if ids
      in flight are free, drawn ones too, then even on a table that never replaces a session. */
  lemma StepRefines(lib: Lib, x: Machine, step: Step, strict: bool)
    requires HeldInv(lib, x) && RequestedFree(x) && (strict ==> InFlightInv(x))
    ensures var y, es := Apply(lib, x, step), EffectOf(lib, x, step);
            && y.m.config == x.m.config
            && (es == [] ==> View(y) == View(x))
            && (es != [] ==> Perform(lib, x.m.config, strict, View(x), es[0].op) == (View(y), es[0].reply))
  {
    match step
    case Insert(i) =>
      if i < |x.calls| && x.calls[i].phase.Keyed? {
        assert Held(lib, x.calls[i]);
        assert Carried(x.calls[i]) == Some(x.calls[i].phase.keyedId);
      }
    case _ =>
  }

  /** Exactly when an insert is an atomic create: when its id was drawn, or asked for and still
      free; and exactly when it replaces no session: when its id is still free. */
  lemma InsertNeedsFreeId(lib: Lib, x: Machine, i: nat)
    requires HeldInv(lib, x) && i < |x.calls| && x.calls[i].phase.Keyed?
    ensures var es, after := EffectOf(lib, x, Insert(i)), View(Apply(lib, x, Insert(i)));
            var free := x.calls[i].phase.keyedId !in x.m.sessions;
            && |es| == 1 && x.calls[i].call.Create?
            && (Atomic(lib, x.m.config, View(x), es[0].op) == (after, es[0].reply)
                <==> x.calls[i].call.req.id.None? || free)
            && (InsertIfAbsent(lib, x.m.config, View(x), es[0].op) == (after, es[0].reply) <==> free)
  {
    assert Held(lib, x.calls[i]);
  }

  /** One more effect, or none, replays on from where the effects so far led. */
  lemma ReplayOn(lib: Lib, config: Config, strict: bool, a: Table, es: seq<Event>, more: seq<Event>, b: Table, c: Table)
    requires Replay(lib, config, strict, a, es) == Some(b) && |more| <= 1
    requires if more == [] then c == b else Perform(lib, config, strict, b, more[0].op) == (c, more[0].reply)
    ensures Replay(lib, config, strict, a, es + more) == Some(c)
  {
    if more == [] {
      assert es + more == es;
    } else {
      assert (es + more)[..|es|] == es;
    }
  }

  lemma {:induction false} RunKeeps(lib: Lib, x: Machine, steps: seq<Step>)
    requires Booted(x) && DistinctRun(lib, x, steps)
    ensures var y := Run(lib, x, steps);
            HeldInv(lib, y) && RequestedFree(y) && y.m.config == x.m.config
    decreases |steps|
  {
    if steps == [] {
    } else {
      var init, last := steps[..|steps| - 1], steps[|steps| - 1];
      RunKeeps(lib, x, init);
      HeldInvStep(lib, Run(lib, x, init), last);
      RequestedFreeStep(lib, Run(lib, x, init), last);
      StepRefines(lib, Run(lib, x, init), last, false);
    }
  }

  lemma {:induction false} RunReplays(lib: Lib, x: Machine, steps: seq<Step>, strict: bool)
    requires Booted(x) && DistinctRun(lib, x, steps) && (strict ==> OrderlyRun(lib, x, steps))
    ensures Replay(lib, x.m.config, strict, View(x), Effects(lib, x, steps)) == Some(View(Run(lib, x, steps)))
    decreases |steps|
  {
    if steps == [] {
    } else {
      var init, last := steps[..|steps| - 1], steps[|steps| - 1];
      var y := Run(lib, x, init);
      RunReplays(lib, x, init, strict);
      RunKeeps(lib, x, init);
      if strict { Conservation(lib, x, init); }
      StepRefines(lib, y, last, strict);
      ReplayOn(lib, x.m.config, strict, View(x), Effects(lib, x, init), EffectOf(lib, y, last), View(y),
               View(Run(lib, x, steps)));
    }
  }

  /** Refinement: if creates in flight carry pairwise distinct ids, then along every interleaving of
      create, start, end and query handlers the table is what the effects so far make of it one
      after another, each with the answer the uninterrupted handler gives. Drawn ids may hit live
      sessions. */
  lemma {:induction false} RunRefines(lib: Lib, x: Machine, steps: seq<Step>)
    requires Booted(x) && DistinctRun(lib, x, steps)
    ensures Replay(lib, x.m.config, false, View(x), Effects(lib, x, steps)) == Some(View(Run(lib, x, steps)))
  {
    RunReplays(lib, x, steps, false);
  }

  lemma {:induction false} OrderlyIsDistinct(lib: Lib, x: Machine, steps: seq<Step>)
    requires Booted(x) && OrderlyRun(lib, x, steps)
    ensures DistinctRun(lib, x, steps)
    decreases |steps|
  {
    Conservation(lib, x, steps);
    if steps == [] {
    } else {
      OrderlyIsDistinct(lib, x, steps[..|steps| - 1]);
    }
  }

  /** If drawn ids are moreover free when they are drawn, no create ever replaces a session. */
  lemma {:induction false} RunInsertsIfAbsent(lib: Lib, x: Machine, steps: seq<Step>)
    requires Booted(x) && OrderlyRun(lib, x, steps)
    ensures Replay(lib, x.m.config, true, View(x), Effects(lib, x, steps)) == Some(View(Run(lib, x, steps)))
  {
    OrderlyIsDistinct(lib, x, steps);
    RunReplays(lib, x, steps, true);
  }

  // ---------------------------------------------------------------- one effect per finished request

  /** Every finished request has exactly one effect, with the answer it was given, and a request
      still under way has none. */
  ghost predicate Linearized(x: Machine, es: seq<Event>)
  {
    && (forall k :: 0 <= k < |es| ==> es[k].i < |x.calls| && x.calls[es[k].i].phase == Done(es[k].reply))
    && (forall k, l :: 0 <= k < l < |es| ==> es[k].i != es[l].i)
    && (forall i :: 0 <= i < |x.calls| && x.calls[i].phase.Done? ==> Affected(es, i))
  }

  ghost predicate Affected(es: seq<Event>, i: nat)
  {
    exists k :: 0 <= k < |es| && es[k].i == i
  }

  /** A step finishes a request iff it is the step at which that request takes effect. */
  lemma EffectFinishes(lib: Lib, x: Machine, step: Step)
    requires HeldInv(lib, x)
    ensures var y, es := Apply(lib, x, step), EffectOf(lib, x, step);
            && (es != [] ==> es[0].i < |x.calls| && !x.calls[es[0].i].phase.Done?
                             && y.calls[es[0].i].phase == Done(es[0].reply))
            && |x.calls| <= |y.calls|
            && (forall i :: 0 <= i < |x.calls| && (es == [] || i != es[0].i) ==>
                  (x.calls[i].phase.Done? || y.calls[i].phase.Done? ==> y.calls[i].phase == x.calls[i].phase))
            && (forall i :: |x.calls| <= i < |y.calls| ==> !y.calls[i].phase.Done?)
  {
    if step.Insert? && step.i < |x.calls| { assert Held(lib, x.calls[step.i]); }
  }

  lemma LinearizedStep(lib: Lib, x: Machine, step: Step, es: seq<Event>)
    requires HeldInv(lib, x) && Linearized(x, es)
    ensures Linearized(Apply(lib, x, step), es + EffectOf(lib, x, step))
  {
    var y, more := Apply(lib, x, step), EffectOf(lib, x, step);
    var all := es + more;
    EffectFinishes(lib, x, step);
    forall i | 0 <= i < |y.calls| && y.calls[i].phase.Done? ensures Affected(all, i) {
      if i < |x.calls| && x.calls[i].phase.Done? {
        var k :| 0 <= k < |es| && es[k].i == i;
        assert all[k].i == i;
      } else {
        assert more != [] && more[0].i == i;
        assert all[|es|].i == i;
      }
    }
  }

  lemma {:induction false} EveryAnswerOnce(lib: Lib, x: Machine, steps: seq<Step>)
    requires Booted(x)
    ensures HeldInv(lib, Run(lib, x, steps)) && Linearized(Run(lib, x, steps), Effects(lib, x, steps))
    decreases |steps|
  {
    if steps == [] {
    } else {
      var init, last := steps[..|steps| - 1], steps[|steps| - 1];
      EveryAnswerOnce(lib, x, init);
      HeldInvStep(lib, Run(lib, x, init), last);
      LinearizedStep(lib, Run(lib, x, init), last, Effects(lib, x, init));
    }
  }

  // ---------------------------------------------------------------- why distinct ids are needed

  /** Two creates that ask for one free id and overlap are both told they succeeded, and the
      second replaces the session of the first; atomically the second would be refused. */
  lemma OverlappingCreatesCollide(lib: Lib, x: Machine, i: nat, j: nat, d: Draws)
    requires i != j && Waiting(x, i) && Waiting(x, j) && x.calls[i].call.Create? && x.calls[j].call.Create?
    requires var p, q := x.calls[i].call.req, x.calls[j].call.req;
             && p.id.Some? && p.id == q.id && p.id.value !in x.m.sessions
             && DecodeTerms(lib, p.role, p.terms).Ok? && DecodeTerms(lib, q.role, q.terms).Ok?
    ensures var id := x.calls[i].call.req.id.value;
            var both := Apply(lib, Apply(lib, x, Check(i, d.id)), Check(j, d.id));
            var keyed := Apply(lib, Apply(lib, both, FetchKey(i, d.keyId, d.seed)), FetchKey(j, d.keyId, d.seed));
            var y := Apply(lib, Apply(lib, keyed, Insert(i)), Insert(j));
            && y.calls[i].phase == y.calls[j].phase == Done(Created(id))
            && Ok(y.m.sessions[id].setup) == DecodeTerms(lib, x.calls[j].call.req.role, x.calls[j].call.req.terms)
            && !OrderlyStep(lib, Apply(lib, x, Check(i, d.id)), Check(j, d.id))
            && !DistinctInFlight(both)
  {
    var id := x.calls[i].call.req.id.value;
    var first := Apply(lib, x, Check(i, d.id));
    assert Carried(first.calls[i]) == Some(id);
    var both := Apply(lib, first, Check(j, d.id));
    assert Carried(both.calls[i]) == Some(id) == Carried(both.calls[j]);
    var k1 := Apply(lib, both, FetchKey(i, d.keyId, d.seed));
    assert k1.calls[i].phase.Keyed? && k1.calls[j].phase.Checked?;
    var keyed := Apply(lib, k1, FetchKey(j, d.keyId, d.seed));
    assert keyed.calls[i].phase.Keyed? && keyed.calls[j].phase.Keyed?;
    var one := Apply(lib, keyed, Insert(i));
    assert one.calls[j].phase.Keyed?;
  }
}
