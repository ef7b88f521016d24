/** What the parties of the system agree on, over every run: first with drawn ids that do not
    repeat, then what remains without that assumption. */
module Agreement {
  import opened Wrappers
  import opened Base64Url
  import opened FixedPoint
  import opened Vdaf
  import opened Handlers
  import opened HandlerFacts
  import opened Sections
  import opened System
  import opened Projection
  import opened Refinement
  import opened ManagerAgreement
  import opened SystemInvariant

  // ---------------------------------------------------------------- sessions

  /** The session controller `c` meant, as one manager holds it. */
  predicate MeantBy(lib: Lib, cfg: ControllerConfig, role: Role, s: Setup)
  {
    && s.role == role
    && s.vdaf == cfg.vdaf
    && s.collectorConfig == cfg.keypair.config
    && s.collectorToken == cfg.collectorToken
    && s.leaderToken == lib.utf8(Encode(cfg.leaderToken))
  }

  /** What a controller's terms decode to: its own tokens and parameters, whatever the verify key. */
  lemma TermsDecodeToMeaning(lib: Lib, cfg: ControllerConfig, key: string, role: Role)
    ensures var r := DecodeTerms(lib, role, MakeTerms(cfg, key));
            r.Ok? ==> MeantBy(lib, cfg, role, r.value) && Decode(key) == Ok(r.value.verifyKey)
  {
    DecodeEncode(cfg.collectorToken);
  }

  /** Create agreement: a session both managers created for a controller is live on both until
      someone begins to end it; the two copies have complementary roles and agree on verify key,
      tokens, collector configuration and parameter, which are the controller's own. */
  lemma {:induction false} CreateAgreement(lib: Lib, w0: World, steps: seq<WorldStep>, c: nat, id: SessionId)
    requires Initial(w0) && FreshRun(lib, w0, steps)
    requires var w := System.Run(lib, w0, steps);
             c < |w.controllers| && (w.controllers[c].sessionId == Some(id) || Owned(w, c, id))
    ensures var w := System.Run(lib, w0, steps);
            && (id !in w.h.endAsked ==> id in w.leader.m.sessions && id in w.helper.m.sessions)
            && (id in w.leader.m.sessions ==> MeantBy(lib, w.controllers[c].cfg, Leader, w.leader.m.sessions[id].setup))
            && (id in w.helper.m.sessions ==> MeantBy(lib, w.controllers[c].cfg, Helper, w.helper.m.sessions[id].setup))
            && (id in w.leader.m.sessions && id in w.helper.m.sessions ==>
                  w.leader.m.sessions[id].setup.verifyKey == w.helper.m.sessions[id].setup.verifyKey)
  {
    var w := System.Run(lib, w0, steps);
    SystemInvHolds(lib, w0, steps);
    assert ControllerInv(w, c);
    assert BirthOk(Cfgs(w), w.h.born[id]);
    var key := w.h.born[id].terms.verifyKeyEncoded;
    TermsDecodeToMeaning(lib, w.controllers[c].cfg, key, Leader);
    TermsDecodeToMeaning(lib, w.controllers[c].cfg, key, Helper);
    if id in w.leader.m.sessions { assert SessionOk(lib, LeaderSide, w.leader, w.h, id); }
    if id in w.helper.m.sessions { assert SessionOk(lib, HelperSide, w.helper, w.h, id); }
  }

  // ---------------------------------------------------------------- tasks

  /** A stored task as its owner's configuration prescribes it, at a manager whose peer is at
      `endpoint`. */
  predicate TaskMeantBy(lib: Lib, endpoint: string, cfg: ControllerConfig, role: Role, task: Task)
  {
    && RoundConstants(endpoint, task) && task.reportExpiryAge == None && task.tolerableClockSkew == 1000
    && InstanceFor(lib, task.vdaf, cfg.vdaf)
    && (task.params.LeaderParams? <==> role == Leader)
    && CollectorOf(task.params) == cfg.keypair.config
    && (match task.params
        case LeaderParams(token, hash, _) =>
          token == lib.utf8(Encode(cfg.leaderToken)) && hash == lib.hash(cfg.collectorToken)
        case HelperParams(hash, _) => hash == lib.hash(lib.utf8(Encode(cfg.leaderToken))))
  }

  lemma TaskOkMeans(lib: Lib, side: Side, config: Config, task: Task, t: TaskId, cfg: ControllerConfig, key: string)
    requires TaskOk(lib, side, config, task, t, MakeTerms(cfg, key))
    ensures TaskMeantBy(lib, config.helperEndpoint, cfg, RoleOf(side), task) && Decode(key) == Ok(task.verifyKey)
  {
    TermsDecodeToMeaning(lib, cfg, key, RoleOf(side));
    var setup := DecodeTerms(lib, RoleOf(side), MakeTerms(cfg, key)).value;
    BuildTaskProvisions(lib, config.helperEndpoint, setup, task.hpkeKeys[0], t);
  }

  /** Whoever the task was drawn for owns it on either manager. */
  lemma {:induction false} StoredTaskMeaning(lib: Lib, w: World, side: Side, t: TaskId)
    requires SystemInv(lib, w) && t in w.h.drawn
    requires t in (if side == LeaderSide then w.leader else w.helper).m.store
    ensures var x := if side == LeaderSide then w.leader else w.helper;
            var b := w.h.born[w.h.drawn[t]];
            && b.from < |w.controllers|
            && TaskMeantBy(lib, x.m.config.helperEndpoint, w.controllers[b.from].cfg, RoleOf(side), x.m.store[t])
            && Decode(b.terms.verifyKeyEncoded) == Ok(x.m.store[t].verifyKey)
            && b.terms.vdaf == w.controllers[b.from].cfg.vdaf
  {
    var x := if side == LeaderSide then w.leader else w.helper;
    var b := w.h.born[w.h.drawn[t]];
    assert BirthOk(Cfgs(w), b);
    assert TaskOk(lib, side, x.m.config, x.m.store[t], t, b.terms);
    TaskOkMeans(lib, side, x.m.config, x.m.store[t], t, w.controllers[b.from].cfg, b.terms.verifyKeyEncoded);
  }

  /** Collect safety: whenever a controller has a task to collect, after failed rounds and ended
      sessions too, both aggregators store it with equal VDAF, verify key and collector
      configuration in the roles leader and helper; the VDAF is the one `collect` instantiates,
      and the leader expects the token the controller presents. */
  lemma {:induction false} CollectSafety(lib: Lib, w0: World, steps: seq<WorldStep>, c: nat)
    requires Initial(w0) && FreshRun(lib, w0, steps)
    requires c < |System.Run(lib, w0, steps).controllers| && System.Run(lib, w0, steps).controllers[c].taskId.Some?
    ensures var w := System.Run(lib, w0, steps);
            var cfg, t := w.controllers[c].cfg, w.controllers[c].taskId.value;
            && t in w.leader.m.store && t in w.helper.m.store
            && TaskMeantBy(lib, w.leader.m.config.helperEndpoint, cfg, Leader, w.leader.m.store[t])
            && TaskMeantBy(lib, w.helper.m.config.helperEndpoint, cfg, Helper, w.helper.m.store[t])
            && w.leader.m.store[t].verifyKey == w.helper.m.store[t].verifyKey
            && w.leader.m.store[t].vdaf == w.helper.m.store[t].vdaf
            && CollectsAs(cfg, w.leader.m.store[t].vdaf)
  {
    var w := System.Run(lib, w0, steps);
    SystemInvHolds(lib, w0, steps);
    assert ControllerInv(w, c);
    StoredTaskMeaning(lib, w, LeaderSide, w.controllers[c].taskId.value);
    StoredTaskMeaning(lib, w, HelperSide, w.controllers[c].taskId.value);
  }

  // ---------------------------------------------------------------- clients

  predicate SameShape(p: VdafParameter, q: VdafParameter)
  {
    p.gradientLen == q.gradientLen && p.submissionType == q.submissionType
  }

  /** The parameter of the session a task was drawn for. */
  function ParameterOf(h: History, t: TaskId): (p: VdafParameter)
    requires t in h.drawn && h.drawn[t] in h.born
  {
    h.born[h.drawn[t]].terms.vdaf
  }

  /** End-to-end agreement: an upload fits the VDAF instance an aggregator stores for its task, and
      hence the one the task's owner collects with, iff the session of the task has the shape of
      the session the client first updated in; in particular whenever that is the same session. */
  lemma {:induction false} UploadAgreement(lib: Lib, w0: World, steps: seq<WorldStep>, i: nat, side: Side)
    requires Initial(w0) && FreshRun(lib, w0, steps)
    requires var w := System.Run(lib, w0, steps);
             i < |w.uploads| && w.uploads[i].task in w.h.drawn
             && w.uploads[i].task in (if side == LeaderSide then w.leader else w.helper).m.store
    ensures var w := System.Run(lib, w0, steps);
            var u := w.uploads[i];
            var task := (if side == LeaderSide then w.leader else w.helper).m.store[u.task];
            && u.first in w.h.drawn && w.h.drawn[u.first] in w.h.born && w.h.drawn[u.task] in w.h.born
            && (FitsInstance(u.data, task.vdaf) <==> SameShape(ParameterOf(w.h, u.first), ParameterOf(w.h, u.task)))
            && (w.h.drawn[u.first] == w.h.drawn[u.task] ==> FitsInstance(u.data, task.vdaf))
            && w.h.born[w.h.drawn[u.task]].from < |w.controllers|
            && CollectsAs(w.controllers[w.h.born[w.h.drawn[u.task]].from].cfg, task.vdaf)
  {
    var w := System.Run(lib, w0, steps);
    SystemInvHolds(lib, w0, steps);
    assert UploadInv(w, w.uploads[i]);
    StoredTaskMeaning(lib, w, side, w.uploads[i].task);
  }

  /** Data that passed the guards for one parameter fits the instance for another iff the shapes
      are the same. */
  lemma FitsIffSameShape(lib: Lib, data: VecFixedAny, cached: VdafParameter, p: VdafParameter, v: VdafInstance)
    requires MayUpload(cached, data) && InstanceFor(lib, v, p)
    ensures FitsInstance(data, v) <==> SameShape(cached, p)
  {
  }

  /** A task a manager finds is stored there for the parameter it answers. */
  lemma FoundTaskStored(lib: Lib, w: World, side: Side, t: TaskId)
    requires SystemInv(lib, w) && Lookup(MachineOf(w, side).m.sessions, t).Ok?
    ensures var x := MachineOf(w, side);
            t in x.m.store && InstanceFor(lib, x.m.store[t].vdaf, Lookup(x.m.sessions, t).value)
  {
    var x := MachineOf(w, side);
    LookupFindsBirth(lib, Cfgs(w), side, x, w.h, t);
    assert SessionOk(lib, side, x, w.h, w.h.drawn[t]);
    StoredTaskMeaning(lib, w, side, t);
  }

  /** The same, put so that a client can decide before it uploads: ask either manager for the task;
      if it answers, the data fits iff the answer has the shape of the cached parameter. */
  lemma {:induction false} AskedShapeDecides(lib: Lib, w0: World, steps: seq<WorldStep>, k: nat, side: Side,
                                             t: TaskId, data: VecFixedAny)
    requires Initial(w0) && FreshRun(lib, w0, steps)
    requires var w := System.Run(lib, w0, steps);
             && k < |w.clients| && w.clients[k].state.ValidState? && MayUpload(w.clients[k].state.cached, data)
             && Lookup(MachineOf(w, side).m.sessions, t).Ok?
    ensures var w := System.Run(lib, w0, steps);
            var x := MachineOf(w, side);
            && t in x.m.store
            && (FitsInstance(data, x.m.store[t].vdaf)
                <==> SameShape(w.clients[k].state.cached, Lookup(x.m.sessions, t).value))
  {
    var w := System.Run(lib, w0, steps);
    SystemInvHolds(lib, w0, steps);
    FoundTaskStored(lib, w, side, t);
    FitsIffSameShape(lib, data, w.clients[k].state.cached, Lookup(MachineOf(w, side).m.sessions, t).value,
                     MachineOf(w, side).m.store[t].vdaf);
  }

  /** Two managers never give a client different parameters for one task, and what a client
      caches is what its first task's session was created with. */
  lemma ManagersAnswerAlike(lib: Lib, w0: World, steps: seq<WorldStep>, t: TaskId)
    requires Initial(w0) && FreshRun(lib, w0, steps)
    ensures var w := System.Run(lib, w0, steps);
            var l, h := Lookup(w.leader.m.sessions, t), Lookup(w.helper.m.sessions, t);
            l.Ok? && h.Ok? ==> l == h
  {
    var w := System.Run(lib, w0, steps);
    SystemInvHolds(lib, w0, steps);
    LookupFindsBirth(lib, Cfgs(w), LeaderSide, w.leader, w.h, t);
    LookupFindsBirth(lib, Cfgs(w), HelperSide, w.helper, w.h, t);
  }

  lemma {:induction false} SubseqMember<T>(a: seq<T>, b: seq<T>, x: T)
    requires IsSubseq(a, b) && x in a
    ensures x in b
  {
    var at := SubseqPositions(a, b);
    var i :| 0 <= i < |a| && a[i] == x;
    assert b[at[i]] == x;
  }

  /** Lookups are complete: every acknowledged round of a session live on a manager is found there,
      with the session's parameter. */
  lemma {:induction false} AcknowledgedIsFound(lib: Lib, w: World, id: SessionId, t: TaskId)
    requires SystemInv(lib, w) && t in AckedOf(w.h, id)
    ensures var answer := Lookup(w.leader.m.sessions, t);
            id in w.leader.m.sessions ==> answer.Ok? && DrawnFor(w.h, t, answer.value)
    ensures var answer := Lookup(w.helper.m.sessions, t);
            id in w.helper.m.sessions ==> answer.Ok? && DrawnFor(w.h, t, answer.value)
    ensures t in w.h.drawn && w.h.drawn[t] == id
  {
    assert AckedSound(w.leader, w.helper, w.h, id);
    if id in w.leader.m.sessions { SubseqMember(AckedOf(w.h, id), w.leader.m.sessions[id].tasks, t); }
    if id in w.helper.m.sessions { SubseqMember(AckedOf(w.h, id), w.helper.m.sessions[id].tasks, t); }
    LookupFindsBirth(lib, Cfgs(w), LeaderSide, w.leader, w.h, t);
    LookupFindsBirth(lib, Cfgs(w), HelperSide, w.helper, w.h, t);
  }

  /** Cache refinement: after its first update a client never needs to ask again. For every
      acknowledged task of the same session, while that is live on both managers, asking again
      would succeed and bring the cached parameter and locations. */
  lemma {:induction false} CacheRefinement(lib: Lib, w0: World, steps: seq<WorldStep>, k: nat, t: TaskId)
    requires Initial(w0) && FreshRun(lib, w0, steps)
    requires var w := System.Run(lib, w0, steps); k < |w.clients| && w.clients[k].state.ValidState?
    ensures var w := System.Run(lib, w0, steps);
            var cl := w.clients[k].state;
            && cl.first in w.h.drawn
            && var id := w.h.drawn[cl.first];
               id in w.leader.m.sessions && id in w.helper.m.sessions && t in AckedOf(w.h, id) ==>
                 && Lookup(w.leader.m.sessions, t) == Ok(cl.cached) == Lookup(w.helper.m.sessions, t)
                 && w.leader.m.config.main == w.helper.m.config.main == cl.main
  {
    var w := System.Run(lib, w0, steps);
    SystemInvHolds(lib, w0, steps);
    assert ClientInv(w, w.clients[k]);
    var id := w.h.drawn[w.clients[k].state.first];
    if t in AckedOf(w.h, id) { AcknowledgedIsFound(lib, w, id, t); }
  }

  /** Round order: on each manager where a session is live, its acknowledged rounds are found among
      its tasks in the order of acknowledgement, whatever unacknowledged requests were served late. */
  lemma RoundOrder(lib: Lib, w0: World, steps: seq<WorldStep>, id: SessionId)
    requires Initial(w0) && FreshRun(lib, w0, steps)
    ensures var w := System.Run(lib, w0, steps);
            && (id in w.leader.m.sessions ==> IsSubseq(AckedOf(w.h, id), w.leader.m.sessions[id].tasks))
            && (id in w.helper.m.sessions ==> IsSubseq(AckedOf(w.h, id), w.helper.m.sessions[id].tasks))
  {
    SystemInvHolds(lib, w0, steps);
  }

  // ---------------------------------------------------------------- the managers of the system

  /** No section of a manager of the system lets two creates in flight carry one id. */
  lemma {:induction false} ManagersAreOrderly(lib: Lib, w: World, side: Side, s: Step)
    requires SystemInv(lib, w) && FreshStep(w, Handle(side, s)) && !s.Arrive?
    ensures OrderlyStep(lib, MachineOf(w, side), s)
  {
    var x := MachineOf(w, side);
    IdsMakeOrder(lib, Cfgs(w), side, x, w.h);
    if s.Check? && Waiting(x, s.i) && x.calls[s.i].call.Create? {
      CheckIsOrderly(lib, Cfgs(w), side, x, w.h, s.i, s.drawn);
    }
  }

  lemma CarriedIsId(lib: Lib, cfgs: seq<ControllerConfig>, side: Side, x: Machine, h: History, i: nat)
    requires CallsInv(lib, cfgs, side, x, h) && i < |x.calls| && Carried(x.calls[i]).Some?
    ensures IdOf(x.calls[i]) == Carried(x.calls[i]) && IdOf(x.calls[i]).value in KnownIds(side, h)
  {
    assert CallInv(lib, cfgs, side, x, x.calls[i], h);
  }

  lemma IdsMakeOrder(lib: Lib, cfgs: seq<ControllerConfig>, side: Side, x: Machine, h: History)
    requires MachineInv(lib, cfgs, side, x, h)
    ensures InFlightInv(x)
  {
    forall i | 0 <= i < |x.calls| && Carried(x.calls[i]).Some? ensures IdOf(x.calls[i]) == Carried(x.calls[i]) {
      CarriedIsId(lib, cfgs, side, x, h, i);
    }
  }

  lemma CheckIsOrderly(lib: Lib, cfgs: seq<ControllerConfig>, side: Side, x: Machine, h: History, i: nat,
                       drawn: SessionId)
    requires MachineInv(lib, cfgs, side, x, h) && Waiting(x, i) && x.calls[i].call.Create?
    requires side == LeaderSide ==> drawn !in h.born
    ensures OrderlyStep(lib, x, Check(i, drawn))
  {
    assert CallInv(lib, cfgs, side, x, x.calls[i], h);
    var id := if side == LeaderSide then drawn else x.calls[i].call.req.id.value;
    forall j | 0 <= j < |x.calls| ensures Carried(x.calls[j]) != Some(id) {
      if Carried(x.calls[j]).Some? { CarriedIsId(lib, cfgs, side, x, h, j); }
    }
  }

  lemma OrderlyOn(lib: Lib, x: Machine, ms: seq<Step>, more: seq<Step>)
    requires OrderlyRun(lib, x, ms) && |more| <= 1
    requires more != [] ==> OrderlyStep(lib, Sections.Run(lib, x, ms), more[0])
    ensures OrderlyRun(lib, x, ms + more)
  {
    if more == [] {
      assert ms + more == ms;
    } else {
      assert (ms + more)[..|ms|] == ms;
    }
  }

  /** In every run whose drawn ids do not repeat, each manager's own run is orderly. */
  lemma {:induction false} ManagerRunsAreOrderly(lib: Lib, w0: World, steps: seq<WorldStep>, side: Side)
    requires Initial(w0) && FreshRun(lib, w0, steps)
    ensures OrderlyRun(lib, MachineOf(w0, side), RunOf(lib, w0, steps, side))
    decreases |steps|
  {
    if steps == [] {
    } else {
      var init, last := steps[..|steps| - 1], steps[|steps| - 1];
      var w := System.Run(lib, w0, init);
      var more := StepsOf(lib, w, last, side);
      ManagerRunsAreOrderly(lib, w0, init, side);
      SystemInvHolds(lib, w0, init);
      RunProjects(lib, w0, init, side);
      if last.Handle? && more != [] { ManagersAreOrderly(lib, w, side, last.step); }
      OrderlyOn(lib, MachineOf(w0, side), RunOf(lib, w0, init, side), more);
    }
  }

  /** Refinement in the system: without repeated ids creates in flight never share one, and each
      manager's table is even one that never replaces a session. */
  lemma {:induction false} ManagersRefine(lib: Lib, w0: World, steps: seq<WorldStep>, side: Side)
    requires Initial(w0) && FreshRun(lib, w0, steps)
    ensures var x, y := MachineOf(w0, side), MachineOf(System.Run(lib, w0, steps), side);
            var es := Effects(lib, x, RunOf(lib, w0, steps, side));
            && DistinctRun(lib, x, RunOf(lib, w0, steps, side))
            && Replay(lib, x.m.config, true, View(x), es) == Some(View(y))
            && Linearized(y, es)
  {
    var x, ms := MachineOf(w0, side), RunOf(lib, w0, steps, side);
    RunProjects(lib, w0, steps, side);
    ManagerRunsAreOrderly(lib, w0, steps, side);
    RunInsertsIfAbsent(lib, x, ms);
    OrderlyIsDistinct(lib, x, ms);
    ManagerRefines(lib, w0, steps, side);
  }

  /** Conservation in the system: on both managers the live sessions number the successful creates
      minus the successful ends. */
  lemma SessionsConserved(lib: Lib, w0: World, steps: seq<WorldStep>, side: Side)
    requires Initial(w0) && FreshRun(lib, w0, steps)
    ensures Balanced(MachineOf(System.Run(lib, w0, steps), side))
  {
    RunProjects(lib, w0, steps, side);
    ManagerRunsAreOrderly(lib, w0, steps, side);
    Conservation(lib, MachineOf(w0, side), RunOf(lib, w0, steps, side));
  }
}
