/** Every API call of a controller or a client is a run of the system: what is proved of all runs
    therefore holds of the objects in `Apis`, with any other activity before and after each call. */
module Simulation {
  import opened Wrappers
  import opened Base64Url
  import opened FixedPoint
  import opened Vdaf
  import opened Handlers
  import opened Sections
  import opened System
  import opened Apis

  // ---------------------------------------------------------------- composing runs

  /** `steps` lead from `w` to `v`; `novel` claims that their draws do not repeat. */
  ghost predicate Leads(lib: Lib, w: World, steps: seq<WorldStep>, v: World, novel: bool)
  {
    System.Run(lib, w, steps) == v && (novel ==> FreshRun(lib, w, steps))
  }

  lemma {:induction false} RunAppend(lib: Lib, w: World, a: seq<WorldStep>, b: seq<WorldStep>)
    ensures System.Run(lib, w, a + b) == System.Run(lib, System.Run(lib, w, a), b)
    ensures FreshRun(lib, w, a) && FreshRun(lib, System.Run(lib, w, a), b) ==> FreshRun(lib, w, a + b)
    decreases |b|
  {
    if b == [] {
      assert a + b == a;
    } else {
      var init := b[..|b| - 1];
      assert (a + b)[..|a + b| - 1] == a + init;
      RunAppend(lib, w, a, init);
    }
  }

  lemma LeadsOne(lib: Lib, w: World, step: WorldStep)
    ensures Leads(lib, w, [step], Next(lib, w, step), FreshStep(w, step))
  {
    assert [step][..0] == [];
    assert System.Run(lib, w, []) == w;
  }

  lemma LeadsOn(lib: Lib, w: World, a: seq<WorldStep>, v: World, b: seq<WorldStep>, u: World, novel: bool)
    requires Leads(lib, w, a, v, novel) && Leads(lib, v, b, u, novel)
    ensures Leads(lib, w, a + b, u, novel)
  {
    RunAppend(lib, w, a, b);
  }

  lemma LeadsNext(lib: Lib, w: World, a: seq<WorldStep>, v: World, step: WorldStep, novel: bool)
    requires Leads(lib, w, a, v, novel) && (novel ==> FreshStep(v, step))
    ensures Leads(lib, w, a + [step], Next(lib, v, step), novel)
  {
    LeadsOne(lib, v, step);
    RunAppend(lib, w, a, [step]);
  }

  // ---------------------------------------------------------------- serving one request

  /** The sections that serve request `i` without interruption. */
  function ServeSteps(side: Side, i: nat, call: Call, ch: Chance): (steps: seq<WorldStep>)
  {
    if ch.via.Lost? then []
    else match call
         case Create(_) =>
           [Handle(side, Check(i, ch.draws.id)), Handle(side, FetchKey(i, ch.draws.keyId, ch.draws.seed)),
            Handle(side, Insert(i))]
         case Start(_, _) => [Handle(side, RunStart(i, ch.commit))]
         case End(_) => [Handle(side, RunEnd(i))]
         case Query(_) => [Handle(side, RunQuery(i))]
  }

  /** The id that may be born meanwhile. */
  function BornIn(side: Side, call: Call, ch: Chance): (ids: set<SessionId>)
  {
    if side == LeaderSide && call.Create? then {if call.req.id.Some? then call.req.id.value else ch.draws.id} else {}
  }

  /** Nothing but the manager on `side` and the births changed, and there request `i` was served. */
  predicate Served(lib: Lib, w: World, v: World, side: Side, i: nat, ch: Chance)
    requires i < |MachineOf(w, side).calls|
  {
    var x, y := MachineOf(w, side), MachineOf(v, side);
    var (m, reply) := Serve(lib, x.m, x.calls[i].call, ch);
    && (if ch.via.Lost? then y == x
        else y.m == m && y.calls == x.calls[i := x.calls[i].(phase := Done(reply))])
    && (side == LeaderSide ==> v.helper == w.helper) && (side == HelperSide ==> v.leader == w.leader)
    && v.controllers == w.controllers && v.clients == w.clients && v.uploads == w.uploads
    && v.h == w.h.(born := v.h.born)
    && v.h.born.Keys <= w.h.born.Keys + BornIn(side, x.calls[i].call, ch)
  }

  lemma ServeLeads(lib: Lib, w: World, side: Side, i: nat, ch: Chance) returns (v: World)
    requires Waiting(MachineOf(w, side), i)
    ensures var call := MachineOf(w, side).calls[i].call;
            && Served(lib, w, v, side, i, ch)
            && Leads(lib, w, ServeSteps(side, i, call, ch), v,
                     side == LeaderSide && call.Create? ==> ch.draws.id !in w.h.born)
  {
    var call := MachineOf(w, side).calls[i].call;
    var novel := side == LeaderSide && call.Create? ==> ch.draws.id !in w.h.born;
    if ch.via.Lost? {
      v := w;
    } else if call.Create? {
      v := ServeCreateLeads(lib, w, side, i, ch);
    } else {
      var step := ServeSteps(side, i, call, ch)[0];
      v := Next(lib, w, step);
      LeadsOne(lib, w, step);
    }
  }

  lemma ServeCreateLeads(lib: Lib, w: World, side: Side, i: nat, ch: Chance) returns (v: World)
    requires Waiting(MachineOf(w, side), i) && MachineOf(w, side).calls[i].call.Create? && !ch.via.Lost?
    ensures Served(lib, w, v, side, i, ch)
    ensures Leads(lib, w, ServeSteps(side, i, MachineOf(w, side).calls[i].call, ch), v,
                  side == LeaderSide ==> ch.draws.id !in w.h.born)
  {
    var novel := side == LeaderSide ==> ch.draws.id !in w.h.born;
    var s1, s2, s3 := Check(i, ch.draws.id), FetchKey(i, ch.draws.keyId, ch.draws.seed), Insert(i);
    var w1 := HandleStep(lib, w, side, s1);
    var w2 := HandleStep(lib, w1, side, s2);
    v := HandleStep(lib, w2, side, s3);
    LeadsOne(lib, w, Handle(side, s1));
    LeadsNext(lib, w, [Handle(side, s1)], w1, Handle(side, s2), novel);
    LeadsNext(lib, w, [Handle(side, s1)] + [Handle(side, s2)], w2, Handle(side, s3), novel);
    assert ServeSteps(side, i, MachineOf(w, side).calls[i].call, ch)
        == [Handle(side, s1)] + [Handle(side, s2)] + [Handle(side, s3)];
    SectionsCompose(lib, MachineOf(w, side), i, ch.draws);
    assert w1.h.born.Keys <= w.h.born.Keys + BornIn(side, MachineOf(w, side).calls[i].call, ch);
    assert w2.h == w1.h && v.h == w2.h;
  }

  /** What the waiting controller can read afterwards is what the exchange let it hear. */
  lemma ServedAnswer(lib: Lib, w: World, v: World, side: Side, i: nat, ch: Chance)
    requires Waiting(MachineOf(w, side), i) && Served(lib, w, v, side, i, ch)
    ensures var x := MachineOf(w, side);
            var (m, heard) := Exchange(lib, x.m, x.calls[i].call, ch);
            && MachineOf(v, side).m == m
            && (heard.Some? ==> AnswerOf(MachineOf(v, side), i) == heard)
  {
  }

  // ---------------------------------------------------------------- the three calls

  /** Controller `c` finished its call: its driver is idle again, its round state is as given, and
      nobody else noticed anything. */
  predicate Finished(w: World, v: World, c: nat, sessionId: Option<SessionId>, taskId: Option<TaskId>)
    requires c < |w.controllers|
  {
    && v.controllers == w.controllers[c := w.controllers[c].(sessionId := sessionId, taskId := taskId, driver := Idle)]
    && v.clients == w.clients && v.uploads == w.uploads
  }

  /** The same before the driver is idle again. */
  predicate Finishing(w: World, v: World, c: nat, sessionId: Option<SessionId>, taskId: Option<TaskId>)
    requires c < |w.controllers|
  {
    && |v.controllers| == |w.controllers|
    && (forall d :: 0 <= d < |w.controllers| && d != c ==> v.controllers[d] == w.controllers[d])
    && v.controllers[c].cfg == w.controllers[c].cfg
    && v.controllers[c].sessionId == sessionId && v.controllers[c].taskId == taskId
    && v.clients == w.clients && v.uploads == w.uploads
  }

  /** Which ids were drawn meanwhile. */
  predicate Drew(w: World, v: World, sessions: set<SessionId>, tasks: map<TaskId, SessionId>)
  {
    v.h.born.Keys <= w.h.born.Keys + sessions && v.h.drawn == w.h.drawn + tasks
  }

  lemma GiveUp(lib: Lib, w: World, before: seq<WorldStep>, u: World, c: nat, novel: bool, sid: Option<SessionId>,
               tid: Option<TaskId>)
    returns (steps: seq<WorldStep>, v: World)
    requires c < |w.controllers| && Leads(lib, w, before, u, novel) && Finishing(w, u, c, sid, tid)
    ensures Leads(lib, w, steps, v, novel) && Finished(w, v, c, sid, tid)
    ensures v.leader == u.leader && v.helper == u.helper && v.h == u.h
  {
    LeadsNext(lib, w, before, u, Abort(c), novel);
    steps, v := before + [Abort(c)], SetController(u, c, u.controllers[c].(driver := Idle));
  }

  /** A controller's call begins with a request to the leader, which may serve it. */
  lemma LeaderTurn(lib: Lib, w: World, begin: WorldStep, a: Chance)
    returns (steps: seq<WorldStep>, w1: World, w2: World)
    requires Waiting(Next(lib, w, begin).leader, |w.leader.calls|)
    ensures w1 == Next(lib, w, begin)
    ensures var i := |w.leader.calls|;
            var novel := FreshStep(w, begin) && (w1.leader.calls[i].call.Create? ==> a.draws.id !in w1.h.born);
            var (l, heard) := Exchange(lib, w1.leader.m, w1.leader.calls[i].call, a);
            && Leads(lib, w, steps, w2, novel)
            && Served(lib, w1, w2, LeaderSide, i, a) && w2.leader.m == l
            && (heard.Some? ==> AnswerOf(w2.leader, i) == heard)
  {
    var i := |w.leader.calls|;
    w1 := Next(lib, w, begin);
    var call := w1.leader.calls[i].call;
    LeadsOne(lib, w, begin);
    w2 := ServeLeads(lib, w1, LeaderSide, i, a);
    ServedAnswer(lib, w1, w2, LeaderSide, i, a);
    LeadsOn(lib, w, [begin], w1, ServeSteps(LeaderSide, i, call, a), w2,
            FreshStep(w, begin) && (call.Create? ==> a.draws.id !in w1.h.born));
    steps := [begin] + ServeSteps(LeaderSide, i, call, a);
  }

  /** The helper serves the last request of a controller, which reads the answer if it hears one. */
  lemma HelperTurn(lib: Lib, w: World, before: seq<WorldStep>, w3: World, c: nat, hrid: nat, b: Chance, novel: bool)
    returns (steps: seq<WorldStep>, w4: World, v: World)
    requires Leads(lib, w, before, w3, novel) && c < |w3.controllers| && Waiting(w3.helper, hrid)
    ensures Leads(lib, w, steps, v, novel)
    ensures var (h, echoed) := Exchange(lib, w3.helper.m, w3.helper.calls[hrid].call, b);
            && Served(lib, w3, w4, HelperSide, hrid, b) && w4.helper.m == h
            && (echoed.Some? ==> AnswerOf(w4.helper, hrid) == echoed)
            && v == if echoed.Some? then NextProceed(w4, c) else w4
  {
    w4 := ServeLeads(lib, w3, HelperSide, hrid, b);
    ServedAnswer(lib, w3, w4, HelperSide, hrid, b);
    var serve := ServeSteps(HelperSide, hrid, w3.helper.calls[hrid].call, b);
    LeadsOn(lib, w, before, w3, serve, w4, novel);
    steps, v := before + serve, w4;
    if Exchange(lib, w3.helper.m, w3.helper.calls[hrid].call, b).1.Some? {
      LeadsNext(lib, w, steps, w4, Proceed(c), novel);
      steps, v := steps + [Proceed(c)], NextProceed(w4, c);
    }
  }

  /** `ApiCreateSession` is a run, and a novel one if the leader's draw is. */
  lemma CreateIsRun(lib: Lib, w: World, c: nat, key: Bytes, a: Chance, b: Chance)
    returns (steps: seq<WorldStep>, v: World)
    requires c < |w.controllers| && w.controllers[c].driver.Idle?
    ensures Leads(lib, w, steps, v, a.draws.id !in w.h.born)
    ensures var ctl := w.controllers[c];
            var (l, h, r) := DriveCreate(lib, ctl.cfg, w.leader.m, w.helper.m, key, a, b);
            && v.leader.m == l && v.helper.m == h
            && Finished(w, v, c, if r.Ok? then Some(r.value) else ctl.sessionId, ctl.taskId)
            && Drew(w, v, {a.draws.id}, map[])
  {
    var novel := a.draws.id !in w.h.born;
    var ctl, lrid := w.controllers[c], |w.leader.calls|;
    var w2;
    steps, w2 := CreateAtLeader(lib, w, c, key, a);
    v := w2;
    var heard := Exchange(lib, w.leader.m, LeaderCreate(ctl.cfg, key), a).1;
    var sid := ctl.sessionId;
    if heard.Some? && heard.value.Created? {
      steps, v := CreateAtHelper(lib, w, steps, w2, c, lrid, heard.value.id, key, b, novel);
      sid := v.controllers[c].sessionId;
    }
    steps, v := GiveUp(lib, w, steps, v, c, novel, sid, ctl.taskId);
  }

  function LeaderCreate(cfg: ControllerConfig, key: Bytes): (call: Call)
  {
    Create(CreateRequest(None, Leader, MakeTerms(cfg, Encode(key))))
  }

  lemma CreateAtLeader(lib: Lib, w: World, c: nat, key: Bytes, a: Chance)
    returns (steps: seq<WorldStep>, w2: World)
    requires c < |w.controllers| && w.controllers[c].driver.Idle?
    ensures Leads(lib, w, steps, w2, a.draws.id !in w.h.born)
    ensures var ctl := w.controllers[c];
            var (l, heard) := Exchange(lib, w.leader.m, LeaderCreate(ctl.cfg, key), a);
            && w2.leader.m == l && w2.helper == w.helper
            && (heard.Some? ==> AnswerOf(w2.leader, |w.leader.calls|) == heard)
            && Finishing(w, w2, c, ctl.sessionId, ctl.taskId)
            && w2.controllers[c].driver == CreatingLeader(Encode(key), |w.leader.calls|)
            && Drew(w, w2, {a.draws.id}, map[])
  {
    var w1;
    assert Next(lib, w, BeginCreate(c, key)) == NextBeginCreate(w, c, key);
    steps, w1, w2 := LeaderTurn(lib, w, BeginCreate(c, key), a);
  }

  lemma CreateAtHelper(lib: Lib, w: World, before: seq<WorldStep>, w2: World, c: nat, lrid: nat, id: SessionId,
                       key: Bytes, b: Chance, novel: bool)
    returns (steps: seq<WorldStep>, v: World)
    requires Leads(lib, w, before, w2, novel) && c < |w2.controllers|
    requires w2.controllers[c].driver == CreatingLeader(Encode(key), lrid)
    requires AnswerOf(w2.leader, lrid) == Some(Created(id))
    ensures Leads(lib, w, steps, v, novel)
    ensures var ctl := w2.controllers[c];
            var call := Create(CreateRequest(Some(id), Helper, MakeTerms(ctl.cfg, Encode(key))));
            var (h, echoed) := Exchange(lib, w2.helper.m, call, b);
            && v.leader.m == w2.leader.m && v.helper.m == h
            && Finishing(w2, v, c, if echoed == Some(Created(id)) then Some(id) else ctl.sessionId, ctl.taskId)
            && Drew(w2, v, {}, map[])
  {
    var w3 := AskHelperToCreate(w2, c, Encode(key), id);
    assert NextProceed(w2, c) == w3;
    LeadsNext(lib, w, before, w2, Proceed(c), novel);
    var w4;
    steps, w4, v := HelperTurn(lib, w, before + [Proceed(c)], w3, c, |w2.helper.calls|, b, novel);
  }

  /** `ApiEndSession` on an open session is a run. */
  lemma EndIsRun(lib: Lib, w: World, c: nat, a: Chance, b: Chance)
    returns (steps: seq<WorldStep>, v: World)
    requires c < |w.controllers| && w.controllers[c].driver.Idle? && w.controllers[c].sessionId.Some?
    ensures Leads(lib, w, steps, v, true)
    ensures var ctl := w.controllers[c];
            var (l, h, ok) := DriveBoth(lib, w.leader.m, w.helper.m, End(ctl.sessionId.value), a, b);
            && v.leader.m == l && v.helper.m == h
            && Finished(w, v, c, if ok then None else ctl.sessionId, ctl.taskId)
            && Drew(w, v, {}, map[])
  {
    var ctl, i := w.controllers[c], |w.leader.calls|;
    var id := ctl.sessionId.value;
    var w1, w2;
    steps, w1, w2 := LeaderTurn(lib, w, BeginEnd(c), a);
    v := w2;
    var sid := ctl.sessionId;
    if Exchange(lib, w.leader.m, End(id), a).1.Some? {
      steps, v := EndAtHelper(lib, w, steps, w2, c, id, i, b);
      sid := v.controllers[c].sessionId;
    }
    steps, v := GiveUp(lib, w, steps, v, c, true, sid, ctl.taskId);
  }

  lemma EndAtHelper(lib: Lib, w: World, before: seq<WorldStep>, w2: World, c: nat, id: SessionId, lrid: nat, b: Chance)
    returns (steps: seq<WorldStep>, v: World)
    requires Leads(lib, w, before, w2, true) && c < |w2.controllers|
    requires w2.controllers[c].driver == EndingLeader(id, lrid) && AnswerOf(w2.leader, lrid).Some?
    ensures Leads(lib, w, steps, v, true)
    ensures var ctl := w2.controllers[c];
            var (h, echoed) := Exchange(lib, w2.helper.m, End(id), b);
            var ok := AnswerOf(w2.leader, lrid) == Some(Accepted) == echoed;
            && v.leader.m == w2.leader.m && v.helper.m == h
            && Finishing(w2, v, c, if ok then None else ctl.sessionId, ctl.taskId)
            && Drew(w2, v, {}, map[])
  {
    var w3 := AskHelperToEnd(w2, c, id, lrid);
    assert NextProceed(w2, c) == w3;
    LeadsNext(lib, w, before, w2, Proceed(c), true);
    var w4;
    steps, w4, v := HelperTurn(lib, w, before + [Proceed(c)], w3, c, |w2.helper.calls|, b, true);
  }

  /** `ApiStartRound` in an open session is a run, and a novel one if the task id is. */
  lemma StartIsRun(lib: Lib, w: World, c: nat, t: TaskId, a: Chance, b: Chance)
    returns (steps: seq<WorldStep>, v: World)
    requires c < |w.controllers| && w.controllers[c].driver.Idle? && w.controllers[c].sessionId.Some?
    ensures Leads(lib, w, steps, v, t !in w.h.drawn && t !in w.leader.m.store && t !in w.helper.m.store)
    ensures var ctl := w.controllers[c];
            var call := Start(ctl.sessionId.value, TaskIdToString(t));
            var (l, h, ok) := DriveBoth(lib, w.leader.m, w.helper.m, call, a, b);
            && v.leader.m == l && v.helper.m == h
            && Finished(w, v, c, ctl.sessionId, if ok then Some(t) else ctl.taskId)
            && Drew(w, v, {}, map[t := ctl.sessionId.value])
  {
    var novel := FreshStep(w, BeginStart(c, t));
    var ctl, lrid := w.controllers[c], |w.leader.calls|;
    var id := ctl.sessionId.value;
    var w2;
    steps, w2 := StartAtLeader(lib, w, c, id, t, a);
    v := w2;
    var tid := ctl.taskId;
    if Exchange(lib, w.leader.m, Start(id, TaskIdToString(t)), a).1.Some? {
      steps, v := StartAtHelper(lib, w, steps, w2, c, id, t, lrid, b, novel);
      tid := v.controllers[c].taskId;
    }
    steps, v := GiveUp(lib, w, steps, v, c, novel, ctl.sessionId, tid);
  }

  lemma StartAtLeader(lib: Lib, w: World, c: nat, id: SessionId, t: TaskId, a: Chance)
    returns (steps: seq<WorldStep>, w2: World)
    requires c < |w.controllers| && w.controllers[c].driver.Idle? && w.controllers[c].sessionId == Some(id)
    ensures Leads(lib, w, steps, w2, FreshStep(w, BeginStart(c, t)))
    ensures var ctl := w.controllers[c];
            var (l, heard) := Exchange(lib, w.leader.m, Start(id, TaskIdToString(t)), a);
            && w2.leader.m == l && w2.helper == w.helper
            && (heard.Some? ==> AnswerOf(w2.leader, |w.leader.calls|) == heard)
            && Finishing(w, w2, c, ctl.sessionId, ctl.taskId)
            && w2.controllers[c].driver == StartingLeader(id, t, |w.leader.calls|)
            && Drew(w, w2, {}, map[t := id])
  {
    var w1;
    assert Next(lib, w, BeginStart(c, t)) == NextBeginStart(w, c, t);
    steps, w1, w2 := LeaderTurn(lib, w, BeginStart(c, t), a);
  }

  lemma StartAtHelper(lib: Lib, w: World, before: seq<WorldStep>, w2: World, c: nat, id: SessionId, t: TaskId,
                      lrid: nat, b: Chance, novel: bool)
    returns (steps: seq<WorldStep>, v: World)
    requires Leads(lib, w, before, w2, novel) && c < |w2.controllers|
    requires w2.controllers[c].driver == StartingLeader(id, t, lrid) && AnswerOf(w2.leader, lrid).Some?
    ensures Leads(lib, w, steps, v, novel)
    ensures var ctl := w2.controllers[c];
            var (h, echoed) := Exchange(lib, w2.helper.m, Start(id, TaskIdToString(t)), b);
            var ok := AnswerOf(w2.leader, lrid) == Some(Accepted) == echoed;
            && v.leader.m == w2.leader.m && v.helper.m == h
            && Finishing(w2, v, c, ctl.sessionId, if ok then Some(t) else ctl.taskId)
            && Drew(w2, v, {}, map[])
  {
    var w3 := AskHelperToStart(w2, c, id, t, lrid);
    assert NextProceed(w2, c) == w3;
    LeadsNext(lib, w, before, w2, Proceed(c), novel);
    var w4;
    steps, w4, v := HelperTurn(lib, w, before + [Proceed(c)], w3, c, |w2.helper.calls|, b, novel);
  }

  // ---------------------------------------------------------------- clients

  /** Nothing happened but questions: tables, stores, controllers and history are the same. */
  predicate Unmoved(w: World, v: World)
  {
    v.leader.m == w.leader.m && v.helper.m == w.helper.m && v.controllers == w.controllers && v.h == w.h
  }

  predicate OthersUnmoved(w: World, v: World, k: nat)
  {
    |v.clients| == |w.clients| && forall j :: 0 <= j < |w.clients| && j != k ==> v.clients[j] == w.clients[j]
  }

  function Prompt(): Chance
  {
    Chance(Answered, Draws(0, 0, 0), true)
  }

  /** A question waiting at a manager is answered. */
  lemma QueryServed(lib: Lib, w: World, before: seq<WorldStep>, u: World, side: Side, i: nat, t: TaskId)
    returns (steps: seq<WorldStep>, v: World)
    requires Leads(lib, w, before, u, true)
    requires Waiting(MachineOf(u, side), i) && MachineOf(u, side).calls[i].call == Query(TaskIdToString(t))
    ensures Leads(lib, w, steps, v, true) && Unmoved(u, v) && v.clients == u.clients && v.uploads == u.uploads
    ensures var answer := Lookup(MachineOf(u, side).m.sessions, t);
            AnswerOf(MachineOf(v, side), i) == Some(if answer.Ok? then Answer(answer.value) else Rejected)
  {
    TaskIdBijection(t, TaskIdToString(t));
    var call := MachineOf(u, side).calls[i].call;
    v := ServeLeads(lib, u, side, i, Prompt());
    ServedAnswer(lib, u, v, side, i, Prompt());
    LeadsOn(lib, w, before, u, ServeSteps(side, i, call, Prompt()), v, true);
    steps := before + ServeSteps(side, i, call, Prompt());
  }

  /** `ApiUpdateRoundSettings` is a run. */
  lemma UpdateIsRun(lib: Lib, w: World, k: nat, t: TaskId, ear: Hearing)
    returns (steps: seq<WorldStep>, v: World)
    requires k < |w.clients|
    ensures Leads(lib, w, steps, v, true) && Unmoved(w, v) && OthersUnmoved(w, v, k) && v.uploads == w.uploads
    ensures v.clients[k].state == Updated(w.clients[k].state, w.leader.m, w.helper.m, t, ear)
  {
    if w.clients[k].state.ValidState? {
      steps, v := [Update(k, t)], Next(lib, w, Update(k, t));
      LeadsOne(lib, w, Update(k, t));
    } else if Informed(w.leader.m, w.helper.m, t, ear) {
      steps, v := LeaderAsked(lib, w, k, t);
      steps, v := HelperAsked(lib, w, steps, v, k, t);
    } else {
      steps, v := [], w;
    }
  }

  lemma LeaderAsked(lib: Lib, w: World, k: nat, t: TaskId) returns (steps: seq<WorldStep>, v: World)
    requires k < |w.clients| && w.clients[k].state.InitState?
    requires w.leader.m.config.main == w.helper.m.config.main && Lookup(w.leader.m.sessions, t).Ok?
    ensures Leads(lib, w, steps, v, true) && Unmoved(w, v) && OthersUnmoved(w, v, k) && v.uploads == w.uploads
    ensures v.clients[k].state == w.clients[k].state
    ensures var asking := v.clients[k].asking;
            && asking.AskingHelper? && asking == AskingHelper(t, Lookup(w.leader.m.sessions, t).value, asking.hrid)
            && Waiting(v.helper, asking.hrid) && v.helper.calls[asking.hrid].call == Query(TaskIdToString(t))
  {
    var w1 := NextAskLeader(w, k, t);
    assert Next(lib, w, AskLeader(k, t)) == w1;
    LeadsOne(lib, w, AskLeader(k, t));
    var w2;
    steps, w2 := QueryServed(lib, w, [AskLeader(k, t)], w1, LeaderSide, |w.leader.calls|, t);
    v := NextAskHelper(w2, k, t, Lookup(w.leader.m.sessions, t).value);
    assert Next(lib, w2, Listen(k)) == v;
    LeadsNext(lib, w, steps, w2, Listen(k), true);
    steps := steps + [Listen(k)];
  }

  lemma HelperAsked(lib: Lib, w: World, before: seq<WorldStep>, u: World, k: nat, t: TaskId)
    returns (steps: seq<WorldStep>, v: World)
    requires Leads(lib, w, before, u, true) && k < |u.clients| && u.clients[k].state.InitState?
    requires u.clients[k].asking.AskingHelper? && u.clients[k].asking.task == t
    requires Lookup(u.helper.m.sessions, t) == Ok(u.clients[k].asking.leaderParam)
    requires var hrid := u.clients[k].asking.hrid;
             Waiting(u.helper, hrid) && u.helper.calls[hrid].call == Query(TaskIdToString(t))
    ensures Leads(lib, w, steps, v, true) && Unmoved(u, v) && OthersUnmoved(u, v, k) && v.uploads == u.uploads
    ensures v.clients[k].state == ValidState(u.leader.m.config.main, u.clients[k].asking.leaderParam, t, t)
  {
    var w3;
    steps, w3 := QueryServed(lib, w, before, u, HelperSide, u.clients[k].asking.hrid, t);
    v := NextListen(w3, k);
    LeadsNext(lib, w, steps, w3, Listen(k), true);
    steps := steps + [Listen(k)];
  }

  /** `ApiSubmitWith` is a run. */
  lemma SubmitIsRun(lib: Lib, w: World, k: nat, t: TaskId, ear: Hearing, getData: VdafParameter -> VecFixedAny)
    returns (steps: seq<WorldStep>, v: World)
    requires k < |w.clients|
    ensures Leads(lib, w, steps, v, true) && Unmoved(w, v) && OthersUnmoved(w, v, k)
    ensures var s := Updated(w.clients[k].state, w.leader.m, w.helper.m, t, ear);
            && v.clients[k].state == s
            && v.uploads == w.uploads + if s.ValidState? && MayUpload(s.cached, getData(s.cached)) && ear.upload
                                        then [Upload(s.first, t, getData(s.cached))] else []
  {
    steps, v := UpdateIsRun(lib, w, k, t, ear);
    var s := v.clients[k].state;
    if s.ValidState? && MayUpload(s.cached, getData(s.cached)) && ear.upload {
      LeadsNext(lib, w, steps, v, Submit(k, getData(s.cached)), true);
      steps, v := steps + [Submit(k, getData(s.cached))], Next(lib, v, Submit(k, getData(s.cached)));
    }
  }
}
