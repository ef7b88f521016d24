/** When the controllers' calls succeed, what a failed one leaves behind, and a run in which a
    client's cached parameter is stale. */
module Outcomes {
  import opened Wrappers
  import opened Base64Url
  import opened FixedPoint
  import opened Vdaf
  import opened Handlers
  import opened HandlerFacts
  import opened Sections
  import opened System
  import opened Agreement
  import opened Apis
  import opened Simulation

  // ---------------------------------------------------------------- creating

  predicate TokensOk(lib: Lib, cfg: ControllerConfig)
  {
    lib.bearerOk(cfg.collectorToken) && lib.bearerOk(lib.utf8(Encode(cfg.leaderToken)))
  }

  /** A live session as its controller meant it. */
  predicate Holds(lib: Lib, m: Manager, role: Role, cfg: ControllerConfig, id: SessionId, tasks: seq<TaskId>)
  {
    && id in m.sessions && MeantBy(lib, cfg, role, m.sessions[id].setup)
    && m.sessions[id].tasks == tasks
  }

  /** What a manager that got a controller's create request makes of it. */
  predicate CreatedAt(lib: Lib, m: Manager, n: Manager, role: Role, cfg: ControllerConfig, key: Bytes, id: SessionId,
                      d: Draws, created: bool)
  {
    if !created then n == m
    else
      && Holds(lib, n, role, cfg, id, []) && n.sessions[id].setup.verifyKey == key
      && d.keyId in n.keyring && n.sessions[id].keypair == n.keyring[d.keyId]
      && (d.keyId in m.keyring ==> n.keyring == m.keyring)
      && n.keyring - {d.keyId} == m.keyring - {d.keyId}
      && n.sessions - {id} == m.sessions - {id} && n.store == m.store && n.config == m.config
  }

  lemma CreateEffect(lib: Lib, cfg: ControllerConfig, m: Manager, requested: Option<SessionId>, role: Role,
                     key: Bytes, d: Draws)
    ensures var (n, reply) := CreateSession(lib, m, CreateRequest(requested, role, MakeTerms(cfg, Encode(key))), d);
            var id := if requested.Some? then requested.value else d.id;
            var ok := TokensOk(lib, cfg) && (requested.Some? ==> id !in m.sessions);
            && reply == (if ok then Created(id) else Rejected)
            && CreatedAt(lib, m, n, role, cfg, key, id, d, ok)
  {
    var req := CreateRequest(requested, role, MakeTerms(cfg, Encode(key)));
    CreateDecides(lib, m, req, d);
    DecodeEncode(cfg.collectorToken);
    DecodeEncode(key);
    TermsDecodeToMeaning(lib, cfg, Encode(key), role);
  }

  /** Creating succeeds iff the tokens are acceptable, both answers arrive, and the id the leader
      drew is free at the helper; it then is the session meant, on both. Once the leader served
      its request its session stays, whatever becomes of the rest; the helper is asked iff the
      leader's answer arrived, and never replaces a session. */
  lemma CreateOutcome(lib: Lib, cfg: ControllerConfig, l: Manager, h: Manager, key: Bytes, a: Chance, b: Chance)
    ensures var (l1, h1, r) := DriveCreate(lib, cfg, l, h, key, a, b);
            var id := a.draws.id;
            && (r.Ok? <==> TokensOk(lib, cfg) && a.via.Answered? && b.via.Answered? && id !in h.sessions)
            && (r.Ok? ==> r.value == id)
            && CreatedAt(lib, l, l1, Leader, cfg, key, id, a.draws, TokensOk(lib, cfg) && !a.via.Lost?)
            && CreatedAt(lib, h, h1, Helper, cfg, key, id, b.draws,
                         TokensOk(lib, cfg) && a.via.Answered? && !b.via.Lost? && id !in h.sessions)
  {
    CreateEffect(lib, cfg, l, None, Leader, key, a.draws);
    CreateEffect(lib, cfg, h, Some(a.draws.id), Helper, key, b.draws);
  }

  // ---------------------------------------------------------------- starting

  lemma StartEffect(lib: Lib, m: Manager, id: SessionId, t: TaskId, commit: bool)
    ensures var (n, reply) := StartRound(lib, m, id, TaskIdToString(t), commit);
            && (reply == Accepted <==> Startable(lib, m, id, t, commit))
            && (reply == Crashed <==> id in m.sessions && !AggregatorRole(m.sessions[id].setup.role))
            && Started(lib, m, n, id, t, reply == Accepted)
  {
    TaskIdBijection(t, TaskIdToString(t));
    StartDecides(lib, m, id, TaskIdToString(t), commit);
  }

  /** A round starts iff both answers arrive and it is startable on both managers. The helper is
      asked iff the leader answers at all, be it a refusal; and each manager that got the request
      and can start keeps the round, whatever the other one does. */
  lemma StartOutcome(lib: Lib, l: Manager, h: Manager, id: SessionId, t: TaskId, a: Chance, b: Chance)
    ensures var (l1, h1, ok) := DriveBoth(lib, l, h, Start(id, TaskIdToString(t)), a, b);
            var asked := a.via.Answered? && (id in l.sessions ==> AggregatorRole(l.sessions[id].setup.role));
            && (ok <==> a.via.Answered? && b.via.Answered?
                        && Startable(lib, l, id, t, a.commit) && Startable(lib, h, id, t, b.commit))
            && Started(lib, l, l1, id, t, !a.via.Lost? && Startable(lib, l, id, t, a.commit))
            && Started(lib, h, h1, id, t, asked && !b.via.Lost? && Startable(lib, h, id, t, b.commit))
  {
    StartEffect(lib, l, id, t, a.commit);
    StartEffect(lib, h, id, t, b.commit);
  }

  // ---------------------------------------------------------------- ending

  /** Ending succeeds iff both answers arrive and both managers still hold the session: after an
      end that reached only the leader, trying again is refused for as long as the id is not in
      use there again. The helper is asked iff the leader answers at all. */
  lemma EndOutcome(lib: Lib, l: Manager, h: Manager, id: SessionId, a: Chance, b: Chance)
    ensures var (l1, h1, ok) := DriveBoth(lib, l, h, End(id), a, b);
            && (ok <==> a.via.Answered? && b.via.Answered? && id in l.sessions && id in h.sessions)
            && l1 == l.(sessions := if a.via.Lost? then l.sessions else l.sessions - {id})
            && h1 == h.(sessions := if a.via.Answered? && !b.via.Lost? then h.sessions - {id} else h.sessions)
  {
    EndDecides(l, id);
    EndDecides(h, id);
  }

  // ---------------------------------------------------------------- a stale cache

  function AnyLib(): Lib
  {
    Lib(_ => ZCdpDiscreteGaussian(0.0), _ => TokenHash([]), _ => true, _ => [], (_, _) => true)
  }

  function ConfigFor(len: nat): (cfg: ControllerConfig)
  {
    ControllerConfig(VdafParameter(len, Budget(1, 1), FixedType16Bit), AggregatorUrl(None, None),
                     GenerateKeypair(0, Aes256Gcm, 0), [], [])
  }

  function TwoControllers(): (w: World)
  {
    var m := Manager(Config("", "", MainLocations("", "")), map[], map[], map[]);
    var x := Machine(m, [], {}, {});
    World(x, x, [Controller(ConfigFor(1), None, None, Idle), Controller(ConfigFor(2), None, None, Idle)],
          [Client.Client(NotAsking, InitState)], [], History(map[], {}, map[], map[], {}))
  }

  function TaskNo(n: byte): (t: TaskId)
  {
    seq(32, _ => n)
  }

  function Fine(id: SessionId): (ch: Chance)
  {
    Chance(Answered, Draws(id, 0, 0), true)
  }

  /** A manager holds exactly sessions 0 and 1, for gradients of length 1 and 2, with these rounds. */
  predicate TwoAt(m: Manager, role: Role, first: seq<TaskId>, second: seq<TaskId>)
  {
    && Holds(AnyLib(), m, role, ConfigFor(1), 0, first)
    && Holds(AnyLib(), m, role, ConfigFor(2), 1, second)
    && m.sessions.Keys == {0, 1} && m.config == TwoControllers().leader.m.config
  }

  predicate TwoSessions(w: World, first: seq<TaskId>, second: seq<TaskId>)
  {
    && TwoAt(w.leader.m, Leader, first, second) && TwoAt(w.helper.m, Helper, first, second)
    && w.clients == TwoControllers().clients && w.uploads == []
    && |w.controllers| == 2
    && (forall c :: 0 <= c < 2 ==> w.controllers[c].sessionId == Some(c) && w.controllers[c].driver == Idle)
  }

  lemma TwoCreated() returns (steps: seq<WorldStep>, w: World)
    ensures Leads(AnyLib(), TwoControllers(), steps, w, true)
    ensures TwoSessions(w, [], [])
    ensures w.leader.m.store == map[] == w.helper.m.store && w.h.drawn == map[]
  {
    var lib, w0 := AnyLib(), TwoControllers();
    var one, two, w1;
    one, w1 := CreateIsRun(lib, w0, 0, [], Fine(0), Fine(0));
    CreateOutcome(lib, ConfigFor(1), w0.leader.m, w0.helper.m, [], Fine(0), Fine(0));
    two, w := CreateIsRun(lib, w1, 1, [], Fine(1), Fine(1));
    CreateOutcome(lib, ConfigFor(2), w1.leader.m, w1.helper.m, [], Fine(1), Fine(1));
    LeadsOn(lib, w0, one, w1, two, w, true);
    steps := one + two;
  }

  lemma PushAt(m: Manager, n: Manager, role: Role, c: nat, t: TaskId, first: seq<TaskId>, second: seq<TaskId>)
    requires TwoAt(m, role, first, second) && c < 2 && Started(AnyLib(), m, n, c, t, true)
    ensures TwoAt(n, role, if c == 0 then first + [t] else first, if c == 1 then second + [t] else second)
    ensures t in n.store && InstanceFor(AnyLib(), n.store[t].vdaf, ConfigFor(c + 1).vdaf)
    ensures n.store - {t} == m.store - {t}
  {
    forall id ensures id in n.sessions <==> id in m.sessions {
      assert id != c ==> (id in n.sessions - {c} <==> id in m.sessions - {c});
    }
    assert 1 - c in m.sessions - {c};
    assert 1 - c in n.sessions - {c};
  }

  lemma RoundStartedAt(l: Manager, h: Manager, c: nat, t: TaskId, first: seq<TaskId>, second: seq<TaskId>)
    requires TwoAt(l, Leader, first, second) && TwoAt(h, Helper, first, second) && c < 2
    requires t !in l.store && t !in h.store
    ensures var (l1, h1, ok) := DriveBoth(AnyLib(), l, h, Start(c, TaskIdToString(t)), Fine(0), Fine(0));
            ok && Started(AnyLib(), l, l1, c, t, true) && Started(AnyLib(), h, h1, c, t, true)
  {
    StartOutcome(AnyLib(), l, h, c, t, Fine(0), Fine(0));
    assert Startable(AnyLib(), l, c, t, true) && Startable(AnyLib(), h, c, t, true);
  }

  lemma RoundStarted(w: World, c: nat, t: TaskId, first: seq<TaskId>, second: seq<TaskId>)
    returns (steps: seq<WorldStep>, v: World)
    requires TwoSessions(w, first, second) && c < 2
    requires t !in w.h.drawn && t !in w.leader.m.store && t !in w.helper.m.store
    ensures Leads(AnyLib(), w, steps, v, true)
    ensures TwoSessions(v, if c == 0 then first + [t] else first, if c == 1 then second + [t] else second)
    ensures v.h.drawn == w.h.drawn + map[t := c]
    ensures t in v.leader.m.store && InstanceFor(AnyLib(), v.leader.m.store[t].vdaf, ConfigFor(c + 1).vdaf)
    ensures v.leader.m.store - {t} == w.leader.m.store - {t} && v.helper.m.store - {t} == w.helper.m.store - {t}
  {
    steps, v := StartIsRun(AnyLib(), w, c, t, Fine(0), Fine(0));
    RoundStartedAt(w.leader.m, w.helper.m, c, t, first, second);
    PushAt(w.leader.m, v.leader.m, Leader, c, t, first, second);
    PushAt(w.helper.m, v.helper.m, Helper, c, t, first, second);
  }

  lemma TwoRounds() returns (steps: seq<WorldStep>, w: World)
    ensures Leads(AnyLib(), TwoControllers(), steps, w, true)
    ensures TwoSessions(w, [TaskNo(0)], [TaskNo(1)])
    ensures TaskNo(1) in w.leader.m.store
         && InstanceFor(AnyLib(), w.leader.m.store[TaskNo(1)].vdaf, ConfigFor(2).vdaf)
  {
    var w1, w2, one, two;
    steps, w1 := TwoCreated();
    one, w2 := RoundStarted(w1, 0, TaskNo(0), [], []);
    assert TaskNo(0)[0] != TaskNo(1)[0];
    assert TaskNo(1) !in w2.leader.m.store - {TaskNo(0)} && TaskNo(1) !in w2.helper.m.store - {TaskNo(0)};
    assert [] + [TaskNo(0)] == [TaskNo(0)];
    two, w := RoundStarted(w2, 1, TaskNo(1), [TaskNo(0)], []);
    LeadsOn(AnyLib(), TwoControllers(), steps, w1, one, w2, true);
    LeadsOn(AnyLib(), TwoControllers(), steps + one, w2, two, w, true);
    steps := steps + one + two;
  }

  /** Task 0 is listed by session 0 alone. */
  lemma FirstIsFound(w: World)
    requires TwoSessions(w, [TaskNo(0)], [TaskNo(1)])
    ensures Lookup(w.leader.m.sessions, TaskNo(0)) == Ok(ConfigFor(1).vdaf) == Lookup(w.helper.m.sessions, TaskNo(0))
  {
    assert TaskNo(0)[0] != TaskNo(1)[0];
    assert OnlyLister(w.leader.m.sessions, TaskNo(0), 0) && OnlyLister(w.helper.m.sessions, TaskNo(0), 0);
    LookupCorrect(w.leader.m.sessions, TaskNo(0));
    LookupCorrect(w.helper.m.sessions, TaskNo(0));
  }

  /** `UploadAgreement` cannot do without its condition: a client that first worked on a task of
      one session and goes on with a task of another uploads, past both guards, data of the wrong
      length for the VDAF instance stored for that task. All draws are novel, nothing is lost. */
  lemma StaleCacheUploads() returns (lib: Lib, w0: World, steps: seq<WorldStep>)
    ensures Initial(w0) && FreshRun(lib, w0, steps)
    ensures var w := System.Run(lib, w0, steps);
            && |w.uploads| == 1
            && var u := w.uploads[0];
               u.task in w.leader.m.store && !FitsInstance(u.data, w.leader.m.store[u.task].vdaf)
  {
    lib, w0 := AnyLib(), TwoControllers();
    var w1, w2, w, update, submit;
    steps, w1 := TwoRounds();
    FirstIsFound(w1);
    update, w2 := UpdateIsRun(lib, w1, 0, TaskNo(0), Hearing(true, true, true, true));
    submit, w := SubmitIsRun(lib, w2, 0, TaskNo(1), Hearing(true, true, true, true), _ => VecFixed16([0]));
    LeadsOn(lib, w0, steps, w1, update, w2, true);
    LeadsOn(lib, w0, steps + update, w2, submit, w, true);
    steps := steps + update + submit;
  }

  /** `CreateAgreement` cannot do without drawn ids that do not repeat: the leader does not check
      the id it draws, so a second controller's refused attempt replaces the first one's session
      there, and the two managers then hold different sessions under one id. */
  lemma RepeatedIdReplaces() returns (lib: Lib, w0: World, steps: seq<WorldStep>)
    ensures Initial(w0)
    ensures var w := System.Run(lib, w0, steps);
            && |w.controllers| == 2 && w.controllers[0].sessionId == Some(0) && w.controllers[1].sessionId == None
            && Holds(lib, w.leader.m, Leader, w.controllers[1].cfg, 0, [])
            && Holds(lib, w.helper.m, Helper, w.controllers[0].cfg, 0, [])
            && w.leader.m.sessions[0].setup.vdaf != w.helper.m.sessions[0].setup.vdaf
  {
    lib, w0 := AnyLib(), TwoControllers();
    var one, two, w1, w;
    one, w1 := CreateIsRun(lib, w0, 0, [], Fine(0), Fine(0));
    CreateOutcome(lib, ConfigFor(1), w0.leader.m, w0.helper.m, [], Fine(0), Fine(0));
    two, w := CreateIsRun(lib, w1, 1, [], Fine(0), Fine(0));
    CreateOutcome(lib, ConfigFor(2), w1.leader.m, w1.helper.m, [], Fine(0), Fine(0));
    LeadsOn(lib, w0, one, w1, two, w, false);
    steps := one + two;
  }
}
