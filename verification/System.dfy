/** The whole system: two managers, any number of controllers driving both with one request
    after another, and any number of clients. A request may be served at any later time or
    never, its answer may be lost, and everything interleaves one mutex section at a time. */
module System {
  import opened Wrappers
  import opened Base64Url
  import opened FixedPoint
  import opened Vdaf
  import opened Handlers
  import opened Sections

  // ---------------------------------------------------------------- controllers

  /** What a URL says about the server: its host, and its port unless that is the scheme's own. */
  datatype AggregatorUrl = AggregatorUrl(host: Option<string>, port: Option<nat>)

  /** What a `JanusManagerClient` is created with and never changes. */
  datatype ControllerConfig = ControllerConfig(
    vdaf: VdafParameter,
    collectFrom: AggregatorUrl,
    keypair: HpkeKeypair,
    leaderToken: Bytes,
    collectorToken: Bytes)

  /** The terms a controller sends to both managers; the verify key is drawn per session. */
  function MakeTerms(cfg: ControllerConfig, verifyKeyEncoded: string): (t: Terms)
  {
    Terms(verifyKeyEncoded, cfg.keypair.config, Encode(cfg.collectorToken), Encode(cfg.leaderToken), cfg.vdaf)
  }

  /** Where a controller's current API call waits; numbers are positions in a manager's list of
      requests. */
  datatype Driver =
    | Idle
    | CreatingLeader(verifyKeyEncoded: string, lrid: nat)
    | CreatingHelper(id: SessionId, hrid: nat)
    | EndingLeader(id: SessionId, lrid: nat)
    | EndingHelper(id: SessionId, lrid: nat, hrid: nat)
    | StartingLeader(id: SessionId, task: TaskId, lrid: nat)
    | StartingHelper(id: SessionId, task: TaskId, lrid: nat, hrid: nat)

  datatype Controller = Controller(
    cfg: ControllerConfig,
    sessionId: Option<SessionId>,
    taskId: Option<TaskId>,
    driver: Driver)

  /** The VDAF `collect` instantiates for a controller: element type and vector length. */
  predicate CollectsAs(cfg: ControllerConfig, v: VdafInstance)
  {
    && v.length == cfg.vdaf.gradientLen
    && v.bitsize == (match cfg.vdaf.submissionType
                     case FixedType16Bit => BitSize16
                     case FixedType32Bit => BitSize32)
  }

  // ---------------------------------------------------------------- clients

  /** `first` remembers the task of the first successful update. */
  datatype ClientStatePU =
    | InitState
    | ValidState(main: MainLocations, cached: VdafParameter, first: TaskId, task: TaskId)

  /** Where a client's questions about a task wait, as for controllers. */
  datatype Inquiry =
    | NotAsking
    | AskingLeader(task: TaskId, lrid: nat)
    | AskingHelper(task: TaskId, leaderParam: VdafParameter, hrid: nat)

  datatype Client = Client(asking: Inquiry, state: ClientStatePU)

  /** The guards of `get_submission_result`. */
  predicate MayUpload(cached: VdafParameter, data: VecFixedAny)
  {
    data.Length() == cached.gradientLen && data.Tag() == cached.submissionType
  }

  /** Exactly the vectors of the cached length, in the type the cached parameter names, get past. */
  lemma GuardsAdmit(cached: VdafParameter, v16: seq<Bits16>, v32: seq<Bits32>)
    ensures MayUpload(cached, VecFixed16(v16))
       <==> |v16| == cached.gradientLen && cached.submissionType == FixedType16Bit
    ensures MayUpload(cached, VecFixed32(v32))
       <==> |v32| == cached.gradientLen && cached.submissionType == FixedType32Bit
  {
  }

  datatype Upload = Upload(first: TaskId, task: TaskId, data: VecFixedAny)

  // ---------------------------------------------------------------- the state

  /** Who had a session id drawn, and for which terms. */
  datatype Birth = Birth(from: nat, terms: Terms)

  /** What happened so far: the births of session ids, the ids the helper was asked to create,
      the session each task id was drawn for, the acknowledged rounds of each session in order,
      and the ids some controller began to end. */
  datatype History = History(
    born: map<SessionId, Birth>,
    asked: set<SessionId>,
    drawn: map<TaskId, SessionId>,
    acked: map<SessionId, seq<TaskId>>,
    endAsked: set<SessionId>)

  datatype World = World(
    leader: Machine,
    helper: Machine,
    controllers: seq<Controller>,
    clients: seq<Client>,
    uploads: seq<Upload>,
    h: History)

  function AckedOf(h: History, id: SessionId): (s: seq<TaskId>)
  {
    if id in h.acked then h.acked[id] else []
  }

  predicate Initial(w: World)
  {
    && Booted(w.leader) && Booted(w.helper)
    && (forall c :: 0 <= c < |w.controllers| ==>
          w.controllers[c].sessionId == None && w.controllers[c].taskId == None && w.controllers[c].driver == Idle)
    && (forall k :: 0 <= k < |w.clients| ==> w.clients[k] == Client.Client(NotAsking, InitState))
    && w.uploads == []
    && w.h == History(map[], {}, map[], map[], {})
  }

  /** The system just started: any configurations and numbers of parties, on whatever is stored. */
  function Startup(leader: Config, helper: Config, leaderStore: Store, helperStore: Store,
                 cfgs: seq<ControllerConfig>, clients: nat): (w: World)
  {
    World(Machine(Manager(leader, map[], leaderStore, map[]), [], {}, {}),
          Machine(Manager(helper, map[], helperStore, map[]), [], {}, {}),
          seq(|cfgs|, c requires 0 <= c < |cfgs| => Controller(cfgs[c], None, None, Idle)),
          seq(clients, _ => Client.Client(NotAsking, InitState)),
          [], History(map[], {}, map[], map[], {}))
  }

  /** The initial states are exactly those. */
  lemma InitialMeans(w: World, leader: Config, helper: Config, leaderStore: Store, helperStore: Store,
                     cfgs: seq<ControllerConfig>, clients: nat)
    ensures Initial(Startup(leader, helper, leaderStore, helperStore, cfgs, clients))
    ensures Initial(w) ==>
              w == Startup(w.leader.m.config, w.helper.m.config, w.leader.m.store, w.helper.m.store,
                         seq(|w.controllers|, c requires 0 <= c < |w.controllers| => w.controllers[c].cfg), |w.clients|)
  {
    if Initial(w) {
      var s := Startup(w.leader.m.config, w.helper.m.config, w.leader.m.store, w.helper.m.store,
                     seq(|w.controllers|, c requires 0 <= c < |w.controllers| => w.controllers[c].cfg), |w.clients|);
      assert s.controllers == w.controllers && s.clients == w.clients;
    }
  }

  // ---------------------------------------------------------------- steps

  datatype Side = LeaderSide | HelperSide

  function RoleOf(side: Side): (r: Role)
  {
    if side == LeaderSide then Leader else Helper
  }

  datatype WorldStep =
    | Handle(side: Side, step: Step)
    | BeginCreate(c: nat, verifyKey: Bytes)
    | BeginStart(c: nat, task: TaskId)
    | BeginEnd(c: nat)
    | Proceed(c: nat)
    | Abort(c: nat)
    | AskLeader(k: nat, asked: TaskId)
    | Listen(k: nat)
    | Update(k: nat, next: TaskId)
    | Submit(k: nat, data: VecFixedAny)

  function MachineOf(w: World, side: Side): (x: Machine)
  {
    if side == LeaderSide then w.leader else w.helper
  }

  /** The answer a sender can read; a panicking handler sends none. */
  function AnswerOf(x: Machine, i: nat): (r: Option<Reply>)
  {
    if i < |x.calls| && x.calls[i].phase.Done? && !x.calls[i].phase.reply.Crashed? then Some(x.calls[i].phase.reply)
    else None
  }

  function Send(x: Machine, from: nat, call: Call): (y: Machine)
  {
    x.(calls := x.calls + [Request(from, call, Sent)])
  }

  function SetController(w: World, c: nat, ctl: Controller): (v: World)
    requires c < |w.controllers|
  {
    w.(controllers := w.controllers[c := ctl])
  }

  function SetClient(w: World, k: nat, cl: Client): (v: World)
    requires k < |w.clients|
  {
    w.(clients := w.clients[k := cl])
  }

  function Next(lib: Lib, w: World, step: WorldStep): (v: World)
  {
    match step
    case Handle(side, s) => if s.Arrive? then w else HandleStep(lib, w, side, s)
    case BeginCreate(c, key) =>
      if c < |w.controllers| && w.controllers[c].driver.Idle? then NextBeginCreate(w, c, key) else w
    case BeginStart(c, t) =>
      if c < |w.controllers| && w.controllers[c].driver.Idle? && w.controllers[c].sessionId.Some?
      then NextBeginStart(w, c, t) else w
    case BeginEnd(c) =>
      if c < |w.controllers| && w.controllers[c].driver.Idle? && w.controllers[c].sessionId.Some?
      then NextBeginEnd(w, c) else w
    case Proceed(c) =>
      if c < |w.controllers| then NextProceed(w, c) else w
    case Abort(c) =>
      if c < |w.controllers| then SetController(w, c, w.controllers[c].(driver := Idle)) else w
    case AskLeader(k, t) =>
      if k < |w.clients| && w.clients[k].state.InitState? then NextAskLeader(w, k, t) else w
    case Listen(k) =>
      if k < |w.clients| && w.clients[k].state.InitState? then NextListen(w, k) else w
    case Update(k, t) =>
      if k < |w.clients| && w.clients[k].state.ValidState?
      then SetClient(w, k, w.clients[k].(state := w.clients[k].state.(task := t))) else w
    case Submit(k, data) =>
      if k < |w.clients| && w.clients[k].state.ValidState? && MayUpload(w.clients[k].state.cached, data)
      then w.(uploads := w.uploads + [Upload(w.clients[k].state.first, w.clients[k].state.task, data)]) else w
  }

  /** One mutex section of one manager. A leader that draws an id gives it its birth. */
  function HandleStep(lib: Lib, w: World, side: Side, s: Step): (v: World)
    requires !s.Arrive?
  {
    match side
    case LeaderSide =>
      var x := Apply(lib, w.leader, s);
      w.(leader := x, h := w.h.(born := BornBy(w.leader, x, s, w.h.born)))
    case HelperSide => w.(helper := Apply(lib, w.helper, s))
  }

  function BornBy(x: Machine, y: Machine, s: Step, born: map<SessionId, Birth>): (b: map<SessionId, Birth>)
  {
    if s.Check? && Waiting(x, s.i) && s.i < |y.calls| && y.calls[s.i].phase.Checked? && x.calls[s.i].call.Create?
    then born[y.calls[s.i].phase.id := Birth(x.calls[s.i].from, x.calls[s.i].call.req.terms)]
    else born
  }

  /** `create_session` asks the leader first, without an id. */
  function NextBeginCreate(w: World, c: nat, key: Bytes): (v: World)
    requires c < |w.controllers|
  {
    var ctl := w.controllers[c];
    var call := Create(CreateRequest(None, Leader, MakeTerms(ctl.cfg, Encode(key))));
    SetController(w.(leader := Send(w.leader, c, call)), c,
                  ctl.(driver := CreatingLeader(Encode(key), |w.leader.calls|)))
  }

  function NextBeginStart(w: World, c: nat, t: TaskId): (v: World)
    requires c < |w.controllers| && w.controllers[c].sessionId.Some?
  {
    var ctl := w.controllers[c];
    var id := ctl.sessionId.value;
    SetController(w.(leader := Send(w.leader, c, Start(id, TaskIdToString(t))), h := w.h.(drawn := w.h.drawn[t := id])),
                  c, ctl.(driver := StartingLeader(id, t, |w.leader.calls|)))
  }

  function NextBeginEnd(w: World, c: nat): (v: World)
    requires c < |w.controllers| && w.controllers[c].sessionId.Some?
  {
    var ctl := w.controllers[c];
    var id := ctl.sessionId.value;
    SetController(w.(leader := Send(w.leader, c, End(id)), h := w.h.(endAsked := w.h.endAsked + {id})),
                  c, ctl.(driver := EndingLeader(id, |w.leader.calls|)))
  }

  /** The leader created `id`: ask the helper to create the same. */
  function AskHelperToCreate(w: World, c: nat, key: string, id: SessionId): (v: World)
    requires c < |w.controllers|
  {
    var ctl := w.controllers[c];
    var call := Create(CreateRequest(Some(id), Helper, MakeTerms(ctl.cfg, key)));
    SetController(w.(helper := Send(w.helper, c, call), h := w.h.(asked := w.h.asked + {id})), c,
                  ctl.(driver := CreatingHelper(id, |w.helper.calls|)))
  }

  function AskHelperToEnd(w: World, c: nat, id: SessionId, lrid: nat): (v: World)
    requires c < |w.controllers|
  {
    SetController(w.(helper := Send(w.helper, c, End(id))), c,
                  w.controllers[c].(driver := EndingHelper(id, lrid, |w.helper.calls|)))
  }

  function AskHelperToStart(w: World, c: nat, id: SessionId, t: TaskId, lrid: nat): (v: World)
    requires c < |w.controllers|
  {
    SetController(w.(helper := Send(w.helper, c, Start(id, TaskIdToString(t)))), c,
                  w.controllers[c].(driver := StartingHelper(id, t, lrid, |w.helper.calls|)))
  }

  function Acknowledge(h: History, id: SessionId, t: TaskId): (g: History)
  {
    h.(acked := h.acked[id := AckedOf(h, id) + [t]])
  }

  /** Both managers accepted the round: the controller takes the task id. */
  function FinishStart(w: World, c: nat, id: SessionId, t: TaskId): (v: World)
    requires c < |w.controllers|
  {
    SetController(w.(h := Acknowledge(w.h, id, t)), c, w.controllers[c].(driver := Idle, taskId := Some(t)))
  }

  /** A controller reads the answer it waits for. Creating stops at the first refusal; starting
      and ending ask the helper whatever the leader answered, and need both to agree. */
  function NextProceed(w: World, c: nat): (v: World)
    requires c < |w.controllers|
  {
    var ctl := w.controllers[c];
    var idle := ctl.(driver := Idle);
    match ctl.driver
    case Idle => w
    case CreatingLeader(key, lrid) =>
      (match AnswerOf(w.leader, lrid)
       case None => w
       case Some(Created(id)) => AskHelperToCreate(w, c, key, id)
       case Some(_) => SetController(w, c, idle))
    case CreatingHelper(id, hrid) =>
      (match AnswerOf(w.helper, hrid)
       case None => w
       case Some(Created(other)) => SetController(w, c, if other == id then idle.(sessionId := Some(id)) else idle)
       case Some(_) => SetController(w, c, idle))
    case EndingLeader(id, lrid) =>
      if AnswerOf(w.leader, lrid).None? then w else AskHelperToEnd(w, c, id, lrid)
    case EndingHelper(id, lrid, hrid) =>
      if AnswerOf(w.helper, hrid).None? then w
      else if AnswerOf(w.leader, lrid) == Some(Accepted) && AnswerOf(w.helper, hrid) == Some(Accepted)
      then SetController(w, c, idle.(sessionId := None))
      else SetController(w, c, idle)
    case StartingLeader(id, t, lrid) =>
      if AnswerOf(w.leader, lrid).None? then w else AskHelperToStart(w, c, id, t, lrid)
    case StartingHelper(id, t, lrid, hrid) =>
      if AnswerOf(w.helper, hrid).None? then w
      else if AnswerOf(w.leader, lrid) == Some(Accepted) && AnswerOf(w.helper, hrid) == Some(Accepted)
      then FinishStart(w, c, id, t)
      else SetController(w, c, idle)
  }

  /** `ClientState::new` compares the managers' locations, which never change, and then asks the
      leader manager; a client may also give up an earlier inquiry this way. */
  function NextAskLeader(w: World, k: nat, t: TaskId): (v: World)
    requires k < |w.clients|
  {
    if w.leader.m.config.main != w.helper.m.config.main then SetClient(w, k, w.clients[k].(asking := NotAsking))
    else
      SetClient(w.(leader := Send(w.leader, k, Query(TaskIdToString(t)))), k,
                w.clients[k].(asking := AskingLeader(t, |w.leader.calls|)))
  }

  /** A client reads the answer it waits for: the leader's makes it ask the helper manager, and
      only an equal one of the helper's is accepted and cached. */
  function NextListen(w: World, k: nat): (v: World)
    requires k < |w.clients|
  {
    var cl := w.clients[k];
    match cl.asking
    case NotAsking => w
    case AskingLeader(t, lrid) =>
      (match AnswerOf(w.leader, lrid)
       case None => w
       case Some(Answer(p)) => NextAskHelper(w, k, t, p)
       case Some(_) => SetClient(w, k, cl.(asking := NotAsking)))
    case AskingHelper(t, p, hrid) =>
      (match AnswerOf(w.helper, hrid)
       case None => w
       case Some(reply) =>
         var valid := ValidState(w.leader.m.config.main, p, t, t);
         SetClient(w, k, cl.(asking := NotAsking, state := if reply == Answer(p) then valid else cl.state)))
  }

  function NextAskHelper(w: World, k: nat, t: TaskId, p: VdafParameter): (v: World)
    requires k < |w.clients|
  {
    SetClient(w.(helper := Send(w.helper, k, Query(TaskIdToString(t)))), k,
              w.clients[k].(asking := AskingHelper(t, p, |w.helper.calls|)))
  }

  // ---------------------------------------------------------------- runs

  function Run(lib: Lib, w: World, steps: seq<WorldStep>): (v: World)
    decreases |steps|
  {
    if steps == [] then w else Next(lib, Run(lib, w, steps[..|steps| - 1]), steps[|steps| - 1])
  }

  /** Drawn ids do not repeat: the leader draws a session id never drawn before, and a controller
      a task id neither drawn nor stored before. Sixteen bits do not ensure the former. */
  predicate FreshStep(w: World, step: WorldStep)
  {
    match step
    case Handle(LeaderSide, Check(_, drawn)) => drawn !in w.h.born
    case BeginStart(_, t) => t !in w.h.drawn && t !in w.leader.m.store && t !in w.helper.m.store
    case _ => true
  }

  ghost predicate FreshRun(lib: Lib, w: World, steps: seq<WorldStep>)
    decreases |steps|
  {
    steps == []
    || (FreshRun(lib, w, steps[..|steps| - 1])
        && FreshStep(Run(lib, w, steps[..|steps| - 1]), steps[|steps| - 1]))
  }

  /** Exactly the steps that are not fresh: a leader's draw of a session id that was born before, and
      a controller's draw of a task id that was drawn or stored before. Lateness never matters. */
  lemma FreshMeans(w: World, step: WorldStep)
    ensures !FreshStep(w, step) <==>
              || (step.Handle? && step.side == LeaderSide && step.step.Check? && step.step.drawn in w.h.born)
              || (step.BeginStart?
                  && (step.task in w.h.drawn || step.task in w.leader.m.store || step.task in w.helper.m.store))
  {
  }

  predicate FreshAt(lib: Lib, w: World, steps: seq<WorldStep>, k: nat)
    requires k < |steps|
  {
    FreshStep(Run(lib, w, steps[..k]), steps[k])
  }

  lemma FreshAtPrefix(lib: Lib, w: World, steps: seq<WorldStep>, init: seq<WorldStep>, k: nat)
    requires init <= steps && k < |init|
    ensures FreshAt(lib, w, steps, k) == FreshAt(lib, w, init, k)
  {
    assert steps[..k] == init[..k];
  }

  lemma FreshAtLast(lib: Lib, w: World, steps: seq<WorldStep>)
    requires steps != []
    ensures FreshRun(lib, w, steps)
       <==> FreshRun(lib, w, steps[..|steps| - 1]) && FreshAt(lib, w, steps, |steps| - 1)
  {
  }

  /** A run is fresh iff each of its steps is. */
  lemma {:induction false} FreshRunMeans(lib: Lib, w: World, steps: seq<WorldStep>)
    ensures FreshRun(lib, w, steps) <==> forall k :: 0 <= k < |steps| ==> FreshAt(lib, w, steps, k)
    decreases |steps|
  {
    if steps == [] {
    } else {
      var init := steps[..|steps| - 1];
      FreshRunMeans(lib, w, init);
      FreshAtLast(lib, w, steps);
      forall k | 0 <= k < |init| ensures FreshAt(lib, w, steps, k) == FreshAt(lib, w, init, k) {
        FreshAtPrefix(lib, w, steps, init, k);
      }
    }
  }

  // ---------------------------------------------------------------- what the history records

  /** Controller `c` reads the second of two acceptances of a round. */
  predicate RoundDone(w: World, step: WorldStep)
  {
    && step.Proceed? && step.c < |w.controllers|
    && var d := w.controllers[step.c].driver;
       && d.StartingHelper?
       && AnswerOf(w.leader, d.lrid) == Some(Accepted) && AnswerOf(w.helper, d.hrid) == Some(Accepted)
  }

  predicate MayBegin(w: World, c: nat)
  {
    c < |w.controllers| && w.controllers[c].driver.Idle? && w.controllers[c].sessionId.Some?
  }

  /** The history is a record and nothing else: a round is acknowledged exactly when its controller
      takes its task id, a session's end is begun exactly when its controller asks for it, a task
      id is drawn exactly at the start of a round, and an id is born exactly at the leader's check. */
  lemma HistoryRecords(lib: Lib, w: World, step: WorldStep)
    ensures var v := Next(lib, w, step);
            if RoundDone(w, step) then
              var id, t := w.controllers[step.c].driver.id, w.controllers[step.c].driver.task;
              v.h.acked == w.h.acked[id := AckedOf(w.h, id) + [t]] && v.controllers[step.c].taskId == Some(t)
            else
              && v.h.acked == w.h.acked
              && forall c :: 0 <= c < |w.controllers| ==> v.controllers[c].taskId == w.controllers[c].taskId
    ensures Next(lib, w, step).h.endAsked == w.h.endAsked
              + if step.BeginEnd? && MayBegin(w, step.c) then {w.controllers[step.c].sessionId.value} else {}
    ensures Next(lib, w, step).h.drawn
         == if step.BeginStart? && MayBegin(w, step.c)
            then w.h.drawn[step.task := w.controllers[step.c].sessionId.value] else w.h.drawn
    ensures var v := Next(lib, w, step);
            if step.Handle? && step.side == LeaderSide && step.step.Check? && v.leader != w.leader
               && v.leader.calls[step.step.i].phase.Checked?
            then
              var r := w.leader.calls[step.step.i];
              v.h.born == w.h.born[v.leader.calls[step.step.i].phase.id := Birth(r.from, r.call.req.terms)]
            else v.h.born == w.h.born
  {
    match step
    case Proceed(c) => if c < |w.controllers| { ProceedRecords(w, c); }
    case _ =>
  }

  lemma ProceedRecords(w: World, c: nat)
    requires c < |w.controllers|
    ensures var v := NextProceed(w, c);
            && v.h.endAsked == w.h.endAsked && v.h.drawn == w.h.drawn && v.h.born == w.h.born
            && (forall b :: 0 <= b < |w.controllers| && b != c ==> v.controllers[b] == w.controllers[b])
            && (!RoundDone(w, Proceed(c)) ==>
                  v.h.acked == w.h.acked && v.controllers[c].taskId == w.controllers[c].taskId)
  {
  }

  // ---------------------------------------------------------------- subsequences

  /** `a` can be read off `b` by skipping elements. */
  ghost predicate IsSubseq<T>(a: seq<T>, b: seq<T>)
    decreases |b|
  {
    a == []
    || (b != [] && (IsSubseq(a, b[..|b| - 1])
                    || (a[|a| - 1] == b[|b| - 1] && IsSubseq(a[..|a| - 1], b[..|b| - 1]))))
  }

  lemma SubseqPush<T>(a: seq<T>, b: seq<T>, x: T)
    requires IsSubseq(a, b)
    ensures IsSubseq(a, b + [x]) && IsSubseq(a + [x], b + [x])
  {
    assert (b + [x])[..|b|] == b && (a + [x])[..|a|] == a;
  }

  /** The positions in `b` at which `a` is found, in order. */
  lemma {:induction false} SubseqPositions<T>(a: seq<T>, b: seq<T>) returns (at: seq<nat>)
    requires IsSubseq(a, b)
    ensures |at| == |a|
    ensures forall i :: 0 <= i < |a| ==> at[i] < |b| && a[i] == b[at[i]]
    ensures forall i, j :: 0 <= i < j < |a| ==> at[i] < at[j]
    decreases |b|
  {
    if a == [] {
      at := [];
    } else {
      var init := b[..|b| - 1];
      if IsSubseq(a, init) {
        at := SubseqPositions(a, init);
      } else {
        var front := SubseqPositions(a[..|a| - 1], init);
        at := front + [|b| - 1];
      }
    }
  }
}
