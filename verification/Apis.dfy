/** The API calls of controllers and clients as the source writes them: objects that talk to two
    managers one request at a time, over a network that may lose requests and answers. */
module Apis {
  import opened Wrappers
  import opened Base64Url
  import opened FixedPoint
  import opened Vdaf
  import opened Handlers
  import opened Sections
  import opened System
  import opened Collecting
  import opened Provisioner

  // ---------------------------------------------------------------- one request

  datatype Delivery = Lost | Unanswered | Answered

  /** What chance decides about one request: its delivery, the manager's draws, and whether the
      datastore works. */
  datatype Chance = Chance(via: Delivery, draws: Draws, commit: bool)

  function Serve(lib: Lib, m: Manager, call: Call, ch: Chance): (r: (Manager, Reply))
  {
    match call
    case Create(req) => CreateSession(lib, m, req, ch.draws)
    case Start(id, taskEncoded) => StartRound(lib, m, id, taskEncoded, ch.commit)
    case End(id) => EndSession(m, id)
    case Query(taskEncoded) => (m, AnswerQuery(m.sessions, taskEncoded))
  }

  /** What becomes of the manager, and what the caller hears. */
  function Exchange(lib: Lib, m: Manager, call: Call, ch: Chance): (r: (Manager, Option<Reply>))
  {
    if ch.via.Lost? then (m, None)
    else
      var (n, reply) := Serve(lib, m, call, ch);
      (n, if ch.via.Answered? && !reply.Crashed? then Some(reply) else None)
  }

  method Post(p: TaskProvisioner, call: Call, ch: Chance) returns (answer: Option<Reply>)
    modifies p, p.keyring
    ensures (p.Value(), answer) == Exchange(p.lib, old(p.Value()), call, ch)
  {
    if ch.via.Lost? { return None; }
    var reply: Reply;
    match call {
      case Create(req) => reply := p.HandleCreateSession(req, ch.draws);
      case Start(id, taskEncoded) => reply := p.HandleStartRound(id, taskEncoded, ch.commit);
      case End(id) => reply := p.HandleEndSession(id);
      case Query(taskEncoded) =>
        var param := p.HandleGetVdafParameter(taskEncoded);
        reply := if param.Ok? then Answer(param.value) else Rejected;
    }
    answer := if ch.via.Answered? && !reply.Crashed? then Some(reply) else None;
  }

  // ---------------------------------------------------------------- two requests

  function DriveCreate(lib: Lib, cfg: ControllerConfig, l: Manager, h: Manager, key: Bytes, a: Chance, b: Chance)
    : (r: (Manager, Manager, Result<SessionId>))
  {
    var terms := MakeTerms(cfg, Encode(key));
    var (l1, heard) := Exchange(lib, l, Create(CreateRequest(None, Leader, terms)), a);
    match heard
    case Some(Created(id)) =>
      var (h1, echoed) := Exchange(lib, h, Create(CreateRequest(Some(id), Helper, terms)), b);
      (l1, h1, if echoed == Some(Created(id)) then Ok(id) else Err)
    case _ => (l1, h, Err)
  }

  /** Both managers are told in turn, the helper even if the leader refuses; `Ok` needs both. */
  function DriveBoth(lib: Lib, l: Manager, h: Manager, call: Call, a: Chance, b: Chance): (r: (Manager, Manager, bool))
  {
    var (l1, heard) := Exchange(lib, l, call, a);
    if heard.None? then (l1, h, false)
    else
      var (h1, echoed) := Exchange(lib, h, call, b);
      (l1, h1, heard == Some(Accepted) && echoed == Some(Accepted))
  }

  class JanusManagerClient {
    const cfg: ControllerConfig
    const leader: TaskProvisioner
    const helper: TaskProvisioner

    constructor (cfg: ControllerConfig, leader: TaskProvisioner, helper: TaskProvisioner)
      ensures this.cfg == cfg && this.leader == leader && this.helper == helper
    {
      this.cfg, this.leader, this.helper := cfg, leader, helper;
    }

    /** The managers are different servers running the same software. */
    ghost predicate Apart()
    {
      leader != helper && leader.keyring != helper.keyring && leader.lib == helper.lib
    }

    method CreateSession(key: Bytes, a: Chance, b: Chance) returns (r: Result<SessionId>)
      requires Apart()
      modifies leader, leader.keyring, helper, helper.keyring
      ensures (leader.Value(), helper.Value(), r)
           == DriveCreate(leader.lib, cfg, old(leader.Value()), old(helper.Value()), key, a, b)
    {
      var terms := MakeTerms(cfg, Encode(key));
      var leaderAnswer := Post(leader, Create(CreateRequest(None, Leader, terms)), a);
      if leaderAnswer.None? || !leaderAnswer.value.Created? { return Err; }
      var id := leaderAnswer.value.id;
      var helperAnswer := Post(helper, Create(CreateRequest(Some(id), Helper, terms)), b);
      if helperAnswer.None? || !helperAnswer.value.Created? { return Err; }
      assert helperAnswer.value.id == id;
      r := Ok(id);
    }

    method EndSession(id: SessionId, a: Chance, b: Chance) returns (ok: bool)
      requires Apart()
      modifies leader, leader.keyring, helper, helper.keyring
      ensures (leader.Value(), helper.Value(), ok)
           == DriveBoth(leader.lib, old(leader.Value()), old(helper.Value()), End(id), a, b)
    {
      var leaderAnswer := Post(leader, End(id), a);
      if leaderAnswer.None? { return false; }
      var helperAnswer := Post(helper, End(id), b);
      if helperAnswer.None? { return false; }
      ok := leaderAnswer.value == Accepted && helperAnswer.value == Accepted;
    }

    /** `t` is the drawn task id. */
    method StartRound(id: SessionId, t: TaskId, a: Chance, b: Chance) returns (r: Result<TaskId>)
      requires Apart()
      modifies leader, leader.keyring, helper, helper.keyring
      ensures (leader.Value(), helper.Value(), r.Ok?)
           == DriveBoth(leader.lib, old(leader.Value()), old(helper.Value()), Start(id, TaskIdToString(t)), a, b)
      ensures r.Ok? ==> r.value == t
    {
      var call := Start(id, TaskIdToString(t));
      var leaderAnswer := Post(leader, call, a);
      if leaderAnswer.None? { return Err; }
      var helperAnswer := Post(helper, call, b);
      if helperAnswer.None? { return Err; }
      r := if leaderAnswer.value == Accepted && helperAnswer.value == Accepted then Ok(t) else Err;
    }
  }

  // ---------------------------------------------------------------- the controller

  /** What a collection asks the leader aggregator for, and with which credentials. */
  datatype Collection = Collection(
    task: TaskId,
    bitsize: BitSize,
    length: nat,
    token: Bytes,
    keypair: HpkeKeypair,
    interval: Interval)

  class ControllerState {
    const client: JanusManagerClient
    var sessionId: Option<SessionId>
    var taskId: Option<TaskId>

    constructor (client: JanusManagerClient)
      ensures this.client == client && sessionId == None && taskId == None
    {
      this.client := client;
      this.sessionId, this.taskId := None, None;
    }

    method ApiCreateSession(key: Bytes, a: Chance, b: Chance) returns (r: Result<SessionId>)
      requires client.Apart()
      modifies this`sessionId, client.leader, client.leader.keyring, client.helper, client.helper.keyring
      ensures (client.leader.Value(), client.helper.Value(), r)
           == DriveCreate(client.leader.lib, client.cfg, old(client.leader.Value()), old(client.helper.Value()),
                          key, a, b)
      ensures sessionId == if r.Ok? then Some(r.value) else old(sessionId)
    {
      r := client.CreateSession(key, a, b);
      if r.Ok? { sessionId := Some(r.value); }
    }

    method ApiEndSession(a: Chance, b: Chance) returns (ok: bool)
      requires client.Apart()
      modifies this`sessionId, client.leader, client.leader.keyring, client.helper, client.helper.keyring
      ensures old(sessionId).None? ==>
                && !ok
                && client.leader.Value() == old(client.leader.Value())
                && client.helper.Value() == old(client.helper.Value())
      ensures old(sessionId).Some? ==>
                (client.leader.Value(), client.helper.Value(), ok)
                == DriveBoth(client.leader.lib, old(client.leader.Value()), old(client.helper.Value()),
                             End(old(sessionId).value), a, b)
      ensures sessionId == if ok then None else old(sessionId)
    {
      if sessionId.None? { return false; }
      ok := client.EndSession(sessionId.value, a, b);
      if ok { sessionId := None; }
    }

    method ApiStartRound(t: TaskId, a: Chance, b: Chance) returns (r: Result<string>)
      requires client.Apart()
      modifies this`taskId, client.leader, client.leader.keyring, client.helper, client.helper.keyring
      ensures sessionId.None? ==>
                && r.Err?
                && client.leader.Value() == old(client.leader.Value())
                && client.helper.Value() == old(client.helper.Value())
      ensures sessionId.Some? ==>
                (client.leader.Value(), client.helper.Value(), r.Ok?)
                == DriveBoth(client.leader.lib, old(client.leader.Value()), old(client.helper.Value()),
                             Start(sessionId.value, TaskIdToString(t)), a, b)
      ensures r.Ok? ==> TaskIdFromString(r.value) == Ok(t)
      ensures taskId == if r.Ok? then Some(t) else old(taskId)
    {
      if sessionId.None? { return Err; }
      var started := client.StartRound(sessionId.value, t, a, b);
      if started.Err? { return Err; }
      taskId := Some(started.value);
      TaskIdBijection(t, TaskIdToString(t));
      r := Ok(TaskIdToString(t));
    }

    /** The request a collection makes; the answer is the aggregators' business. The libraries may
        refuse to build the VDAF or the collector (`built`), and the leader's URL must name a host
        and a port. */
    method ApiCollect(now: nat, built: bool) returns (r: Result<Collection>)
      requires now < U64
      ensures var url := client.cfg.collectFrom;
              r.Ok? <==> taskId.Some? && built && url.host.Some? && url.port.Some? && CollectInterval(now).Ok?
      ensures r.Ok? ==>
                && r.value.task == taskId.value && Ok(r.value.interval) == CollectInterval(now)
                && r.value.token == client.cfg.collectorToken && r.value.keypair == client.cfg.keypair
                && forall v: VdafInstance ::
                     CollectsAs(client.cfg, v) <==> v.bitsize == r.value.bitsize && v.length == r.value.length
    {
      if taskId.None? { return Err; }
      if !built { return Err; }
      if client.cfg.collectFrom.host.None? { return Err; }
      if client.cfg.collectFrom.port.None? { return Err; }
      var interval := CollectInterval(now);
      if interval.Err? { return Err; }
      var bitsize;
      match client.cfg.vdaf.submissionType {
        case FixedType16Bit => bitsize := BitSize16;
        case FixedType32Bit => bitsize := BitSize32;
      }
      r := Ok(Collection(taskId.value, bitsize, client.cfg.vdaf.gradientLen, client.cfg.collectorToken,
                         client.cfg.keypair, interval.value));
    }
  }

  // ---------------------------------------------------------------- the client

  /** Which of a client's three kinds of questions get through, and whether the Janus client that
      uploads can be built and reaches the aggregators. */
  datatype Hearing = Hearing(locations: bool, leader: bool, helper: bool, upload: bool)

  /** When a client that knows nothing yet obtains a parametrization. */
  ghost predicate Informed(l: Manager, h: Manager, t: TaskId, ear: Hearing)
  {
    && ear.locations && ear.leader && ear.helper
    && l.config.main == h.config.main
    && Lookup(l.sessions, t).Ok? && Lookup(h.sessions, t) == Lookup(l.sessions, t)
  }

  /** A client's state after it was told to work on task `t`. */
  ghost function Updated(s: ClientStatePU, l: Manager, h: Manager, t: TaskId, ear: Hearing): ClientStatePU
  {
    if s.ValidState? then s.(task := t)
    else if Informed(l, h, t, ear) then ValidState(l.config.main, Lookup(l.sessions, t).value, t, t)
    else s
  }

  class ClientNode {
    var state: ClientStatePU

    constructor ()
      ensures state == InitState
    {
      state := InitState;
    }

    method GetParametrization(leader: TaskProvisioner, helper: TaskProvisioner, t: TaskId, ear: Hearing)
      returns (r: Result<VdafParameter>)
      ensures r.Ok? <==> ear.leader && ear.helper && Lookup(leader.sessions, t).Ok?
                         && Lookup(helper.sessions, t) == Lookup(leader.sessions, t)
      ensures r.Ok? ==> r == Lookup(leader.sessions, t)
    {
      TaskIdBijection(t, TaskIdToString(t));
      if !ear.leader { return Err; }
      var leaderParam := leader.HandleGetVdafParameter(TaskIdToString(t));
      if leaderParam.Err? || !ear.helper { return Err; }
      var helperParam := helper.HandleGetVdafParameter(TaskIdToString(t));
      r := if helperParam == leaderParam then leaderParam else Err;
    }

    /** The first update asks both managers; every later one only replaces the round settings. */
    method ApiUpdateRoundSettings(leader: TaskProvisioner, helper: TaskProvisioner, t: TaskId, ear: Hearing)
      returns (ok: bool)
      modifies this
      ensures old(state).ValidState? ==> ok && state == old(state).(task := t)
      ensures old(state).InitState? ==>
                (ok <==> ear.locations && ear.leader && ear.helper && leader.config.main == helper.config.main
                         && Lookup(leader.sessions, t).Ok? && Lookup(helper.sessions, t) == Lookup(leader.sessions, t))
      ensures old(state).InitState? && ok ==>
                state == ValidState(leader.config.main, Lookup(leader.sessions, t).value, t, t)
      ensures !ok ==> state == old(state)
      ensures state == Updated(old(state), leader.Value(), helper.Value(), t, ear)
    {
      match state {
        case InitState =>
          if !ear.locations || leader.config.main != helper.config.main { return false; }
          var param := GetParametrization(leader, helper, t, ear);
          if param.Err? { return false; }
          state := ValidState(leader.config.main, param.value, t, t);
        case ValidState(_, _, _, _) =>
          state := state.(task := t);
      }
      ok := true;
    }

    /** Updates, computes the data from the cached parameter, and uploads it if it has the length
        and type that parameter asks for. */
    method ApiSubmitWith(leader: TaskProvisioner, helper: TaskProvisioner, t: TaskId, ear: Hearing,
                         getData: VdafParameter -> VecFixedAny)
      returns (upload: Option<Upload>)
      modifies this
      ensures state == Updated(old(state), leader.Value(), helper.Value(), t, ear)
      ensures upload.Some? <==> state.ValidState? && MayUpload(state.cached, getData(state.cached)) && ear.upload
      ensures upload.Some? ==> upload.value == Upload(state.first, t, getData(state.cached))
    {
      var ok := ApiUpdateRoundSettings(leader, helper, t, ear);
      if !ok { return None; }
      var data := getData(state.cached);
      if data.Length() != state.cached.gradientLen { return None; }
      if data.Tag() != state.cached.submissionType { return None; }
      if !ear.upload { return None; }
      upload := Some(Upload(state.first, state.task, data));
    }
  }
}
