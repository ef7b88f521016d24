/** What one janus manager computes: the session table, the durable task store, the HPKE
    keyring, and the handlers as functions of them. Every function here runs inside one mutex
    section of the source, or between two of them on local data only. */
module Handlers {
  import opened Wrappers
  import opened Base64Url
  import opened Vdaf

  // ---------------------------------------------------------------- data

  type SessionId = x: int | 0 <= x < 65536

  datatype Role = Collector | Client | Leader | Helper

  predicate AggregatorRole(role: Role)
  {
    role.Leader? || role.Helper?
  }

  datatype Aead = Aes128Gcm | Aes256Gcm

  /** Key material is opaque. */
  datatype HpkeConfig = HpkeConfig(id: byte, aead: Aead, publicKey: nat)

  datatype HpkeKeypair = HpkeKeypair(config: HpkeConfig, privateKey: nat)

  function GenerateKeypair(id: byte, aead: Aead, seed: nat): (k: HpkeKeypair)
  {
    HpkeKeypair(HpkeConfig(id, aead, seed), seed)
  }

  /** What a controller wants both managers to agree on, as sent. */
  datatype Terms = Terms(
    verifyKeyEncoded: string,
    collectorConfig: HpkeConfig,
    collectorTokenEncoded: string,
    leaderTokenEncoded: string,
    vdaf: VdafParameter)

  datatype CreateRequest = CreateRequest(id: Option<SessionId>, role: Role, terms: Terms)

  /** The decoded, immutable part of a training session. */
  datatype Setup = Setup(
    role: Role,
    verifyKey: Bytes,
    collectorConfig: HpkeConfig,
    collectorToken: Bytes,
    leaderToken: Bytes,
    vdaf: VdafParameter)

  datatype Session = Session(setup: Setup, keypair: HpkeKeypair, tasks: seq<TaskId>)

  datatype TaskParams =
    | LeaderParams(aggregatorToken: Bytes, collectorTokenHash: TokenHash, leaderCollectorConfig: HpkeConfig)
    | HelperParams(aggregatorTokenHash: TokenHash, helperCollectorConfig: HpkeConfig)

  datatype QueryType = TimeInterval | FixedSize

  datatype Task = Task(
    id: TaskId,
    peerEndpoint: string,
    queryType: QueryType,
    vdaf: VdafInstance,
    verifyKey: Bytes,
    maxBatchQueryCount: nat,
    taskExpiration: Option<nat>,
    reportExpiryAge: Option<nat>,
    minBatchSize: nat,
    timePrecision: nat,
    tolerableClockSkew: nat,
    hpkeKeys: seq<HpkeKeypair>,
    params: TaskParams)
  {
    function Role(): Role
    {
      if params.LeaderParams? then Leader else Helper
    }

    function CollectorConfig(): HpkeConfig
    {
      match params
      case LeaderParams(_, _, c) => c
      case HelperParams(_, c) => c
    }
  }

  datatype MainLocations = MainLocations(externalLeader: string, externalHelper: string)

  datatype Config = Config(leaderEndpoint: string, helperEndpoint: string, main: MainLocations)

  type Sessions = map<SessionId, Session>

  type Store = map<TaskId, Task>

  type Keyring = map<byte, HpkeKeypair>

  datatype Manager = Manager(config: Config, sessions: Sessions, store: Store, keyring: Keyring)

  /** A handler's answer; `Crashed` is the panic on a role that is neither leader nor helper. */
  datatype Reply = Created(id: SessionId) | Answer(parameter: VdafParameter) | Accepted | Rejected | Crashed

  const TIME_PRECISION: nat := 3600

  // ---------------------------------------------------------------- creating a session

  /** First section: the requested id must be free, and a drawn one is used unchecked. */
  function ChooseId(sessions: Sessions, requested: Option<SessionId>, drawn: SessionId): (r: Result<SessionId>)
  {
    match requested
    case None => Ok(drawn)
    case Some(id) => if id in sessions then Err else Ok(id)
  }

  /** The collector token and the verify key travel in base64url; the leader token is used as
      the bytes of its encoded form. */
  function DecodeTerms(lib: Lib, role: Role, t: Terms): (r: Result<Setup>)
  {
    match Decode(t.collectorTokenEncoded)
    case Err => Err
    case Ok(collectorToken) =>
      if !lib.bearerOk(collectorToken) then Err
      else if !lib.bearerOk(lib.utf8(t.leaderTokenEncoded)) then Err
      else match Decode(t.verifyKeyEncoded)
           case Err => Err
           case Ok(verifyKey) =>
             Ok(Setup(role, verifyKey, t.collectorConfig, collectorToken, lib.utf8(t.leaderTokenEncoded), t.vdaf))
  }

  /** What becomes of a create request up to the end of its first section and the decoding after
      it, neither of which changes anything. */
  function CheckRequest(lib: Lib, sessions: Sessions, req: CreateRequest, drawn: SessionId)
    : (r: Result<(SessionId, Setup)>)
  {
    match ChooseId(sessions, req.id, drawn)
    case Err => Err
    case Ok(id) =>
      match DecodeTerms(lib, req.role, req.terms)
      case Err => Err
      case Ok(setup) => Ok((id, setup))
  }

  /** Second section: the keypair of a configuration id is generated once and then kept. */
  function FetchKeypair(keyring: Keyring, id: byte, seed: nat): (r: (Keyring, HpkeKeypair))
  {
    if id in keyring then (keyring, keyring[id])
    else
      var k := GenerateKeypair(id, Aes128Gcm, seed);
      (keyring[id := k], k)
  }

  /** The random choices one `handle_create_session` makes. */
  datatype Draws = Draws(id: SessionId, keyId: byte, seed: nat)

  /** `handle_create_session` when nothing runs in between its sections. */
  function CreateSession(lib: Lib, m: Manager, req: CreateRequest, d: Draws): (r: (Manager, Reply))
  {
    match CheckRequest(lib, m.sessions, req, d.id)
    case Err => (m, Rejected)
    case Ok((id, setup)) =>
      var (keyring, keypair) := FetchKeypair(m.keyring, d.keyId, d.seed);
      (m.(sessions := m.sessions[id := Session(setup, keypair, [])], keyring := keyring), Created(id))
  }

  // ---------------------------------------------------------------- rounds

  function BuildParams(lib: Lib, s: Setup): (p: Option<TaskParams>)
  {
    match s.role
    case Leader => Some(LeaderParams(s.leaderToken, lib.hash(s.collectorToken), s.collectorConfig))
    case Helper => Some(HelperParams(lib.hash(s.leaderToken), s.collectorConfig))
    case _ => None
  }

  /** The aggregator task of a round: everything but the id and the HPKE keypair is fixed by
      the session's setup and the manager's configuration. */
  function BuildTask(lib: Lib, endpoint: string, s: Setup, keypair: HpkeKeypair, t: TaskId): (r: Option<Task>)
  {
    match BuildParams(lib, s)
    case None => None
    case Some(params) =>
      Some(Task(t, endpoint, TimeInterval, ToVdafInstance(lib, s.vdaf), s.verifyKey, 10, None, None, 2,
                TIME_PRECISION, 1000, [keypair], params))
  }

  /** The ten fields compared when a task with the same id is already stored. */
  predicate SameTask(a: Task, b: Task)
  {
    && a.peerEndpoint == b.peerEndpoint
    && a.queryType == b.queryType
    && a.vdaf == b.vdaf
    && a.verifyKey == b.verifyKey
    && a.Role() == b.Role()
    && a.maxBatchQueryCount == b.maxBatchQueryCount
    && a.taskExpiration == b.taskExpiration
    && a.minBatchSize == b.minBatchSize
    && a.timePrecision == b.timePrecision
    && a.CollectorConfig() == b.CollectorConfig()
  }

  /** One datastore transaction. */
  function ProvisionTask(store: Store, task: Task): (r: Result<Store>)
  {
    if task.id in store then
      if SameTask(store[task.id], task) then Ok(store) else Err
    else Ok(store[task.id := task])
  }

  /** `handle_start_round`; `commit` is false when the datastore itself fails. The session lock
      is held throughout. */
  function StartRound(lib: Lib, m: Manager, id: SessionId, taskEncoded: string, commit: bool): (r: (Manager, Reply))
  {
    if id !in m.sessions then (m, Rejected)
    else
      var s := m.sessions[id];
      match TaskIdFromString(taskEncoded)
      case Err => (m, Rejected)
      case Ok(t) =>
        match BuildTask(lib, m.config.helperEndpoint, s.setup, s.keypair, t)
        case None => (m, Crashed)
        case Some(task) =>
          if !lib.taskOk(task.vdaf, task.verifyKey) || !commit then (m, Rejected)
          else match ProvisionTask(m.store, task)
               case Err => (m, Rejected)
               case Ok(store) =>
                 (m.(store := store, sessions := m.sessions[id := s.(tasks := s.tasks + [t])]), Accepted)
  }

  function EndSession(m: Manager, id: SessionId): (r: (Manager, Reply))
  {
    if id in m.sessions then (m.(sessions := m.sessions - {id}), Accepted) else (m, Rejected)
  }

  // ---------------------------------------------------------------- looking a task up

  function Listing(sessions: Sessions, t: TaskId): (ids: set<SessionId>)
  {
    set id | id in sessions && t in sessions[id].tasks
  }

  /** `handle_get_vdaf_parameter` on a decoded task id: exactly one session must list it. */
  function Lookup(sessions: Sessions, t: TaskId): (r: Result<VdafParameter>)
  {
    var ids := Listing(sessions, t);
    if |ids| == 1 then
      SingletonUnique(ids);
      var id :| id in ids;
      Ok(sessions[id].setup.vdaf)
    else Err
  }

  lemma SingletonUnique<T>(s: set<T>)
    requires |s| == 1
    ensures forall x, y :: x in s && y in s ==> x == y
  {
    forall x, y | x in s && y in s ensures x == y {
      SingletonIs(s, x);
    }
  }

  function GetVdafParameter(sessions: Sessions, taskEncoded: string): (r: Result<VdafParameter>)
  {
    match TaskIdFromString(taskEncoded)
    case Err => Err
    case Ok(t) => Lookup(sessions, t)
  }

  function AnswerQuery(sessions: Sessions, taskEncoded: string): (r: Reply)
  {
    match GetVdafParameter(sessions, taskEncoded)
    case Err => Rejected
    case Ok(p) => Answer(p)
  }

  ghost predicate OnlyLister(sessions: Sessions, t: TaskId, id: SessionId)
  {
    && id in sessions && t in sessions[id].tasks
    && forall other :: other in sessions && t in sessions[other].tasks ==> other == id
  }

  /** The lookup succeeds iff exactly one live session lists the task, and then answers with that
      session's parameter: no iteration order can show. */
  lemma LookupCorrect(sessions: Sessions, t: TaskId)
    ensures Lookup(sessions, t).Ok? <==> exists id :: OnlyLister(sessions, t, id)
    ensures forall id :: OnlyLister(sessions, t, id) ==> Lookup(sessions, t) == Ok(sessions[id].setup.vdaf)
  {
    var ids := Listing(sessions, t);
    if |ids| == 1 {
      var id :| id in ids;
      SingletonIs(ids, id);
      assert OnlyLister(sessions, t, id) by {
        forall other | other in sessions && t in sessions[other].tasks ensures other == id {
          assert other in ids;
        }
      }
    }
    forall id: SessionId | OnlyLister(sessions, t, id) ensures ids == {id} {
      assert id in ids;
    }
  }

  lemma SingletonIs<T>(s: set<T>, x: T)
    requires |s| == 1 && x in s
    ensures s == {x}
  {
    assert |s - {x}| == 0;
    assert s == (s - {x}) + {x};
  }

  // ---------------------------------------------------------------- provisioning: the first writer wins

  /** The store after a sequence of provisioning calls, refused ones included. */
  function ProvisionAll(store: Store, tasks: seq<Task>): (r: Store)
    decreases |tasks|
  {
    if tasks == [] then store
    else
      var before := ProvisionAll(store, tasks[..|tasks| - 1]);
      match ProvisionTask(before, tasks[|tasks| - 1])
      case Err => before
      case Ok(after) => after
  }

  function FirstWith(tasks: seq<Task>, t: TaskId): (r: Option<Task>)
  {
    if tasks == [] then None else if tasks[0].id == t then Some(tasks[0]) else FirstWith(tasks[1..], t)
  }

  /** Over any sequence of calls an existing entry never changes, and every other id holds the
      first task ever written for it. */
  lemma {:induction false} FirstWriterWins(store: Store, tasks: seq<Task>, t: TaskId)
    ensures var final := ProvisionAll(store, tasks);
            if t in store then t in final && final[t] == store[t]
            else match FirstWith(tasks, t)
                 case None => t !in final
                 case Some(task) => t in final && final[t] == task
    decreases |tasks|
  {
    if tasks == [] {
    } else {
      var init, last := tasks[..|tasks| - 1], tasks[|tasks| - 1];
      FirstWriterWins(store, init, t);
      FirstWithAppend(init, last, t);
      assert tasks == init + [last];
    }
  }

  lemma {:induction false} FirstWithAppend(tasks: seq<Task>, task: Task, t: TaskId)
    ensures FirstWith(tasks + [task], t)
         == if FirstWith(tasks, t).Some? then FirstWith(tasks, t)
            else if task.id == t then Some(task) else None
  {
    if tasks == [] {
      assert (tasks + [task])[1..] == [];
    } else {
      assert (tasks + [task])[1..] == tasks[1..] + [task];
      FirstWithAppend(tasks[1..], task, t);
    }
  }

  /** Repeating a call changes nothing and is accepted again; calls on distinct ids commute. */
  lemma ProvisioningCommutes(store: Store, a: Task, b: Task)
    ensures ProvisionTask(store, a).Ok?
            ==> ProvisionTask(ProvisionTask(store, a).value, a) == Ok(ProvisionTask(store, a).value)
    ensures a.id != b.id ==> ProvisionAll(store, [a, b]) == ProvisionAll(store, [b, a])
  {
    ProvisionTwo(store, a, b);
    ProvisionTwo(store, b, a);
    if a.id != b.id && a.id !in store && b.id !in store {
      assert store[a.id := a][b.id := b] == store[b.id := b][a.id := a];
    }
  }

  lemma ProvisionTwo(store: Store, a: Task, b: Task)
    ensures var one := if ProvisionTask(store, a).Ok? then ProvisionTask(store, a).value else store;
            ProvisionAll(store, [a, b])
            == if ProvisionTask(one, b).Ok? then ProvisionTask(one, b).value else one
  {
    assert [a, b][..1] == [a] && [a][..0] == [];
    assert ProvisionAll(store, []) == store;
    assert ProvisionAll(store, [a])
        == if ProvisionTask(store, a).Ok? then ProvisionTask(store, a).value else store;
  }

  // ---------------------------------------------------------------- what every handler keeps

  /** The stored entry agrees with the session on all ten compared fields. */
  predicate Conforms(lib: Lib, endpoint: string, task: Task, s: Setup, t: TaskId)
  {
    var keypair := GenerateKeypair(0, Aes128Gcm, 0);
    && BuildTask(lib, endpoint, s, keypair, t).Some?
    && SameTask(task, BuildTask(lib, endpoint, s, keypair, t).value)
  }

  ghost predicate StoreInv(lib: Lib, m: Manager)
  {
    forall id :: id in m.sessions ==> SessionStored(lib, m, m.sessions[id])
  }

  ghost predicate SessionStored(lib: Lib, m: Manager, s: Session)
  {
    forall t :: t in s.tasks ==> t in m.store && Conforms(lib, m.config.helperEndpoint, m.store[t], s.setup, t)
  }

  /** Every task of every live session is durably stored with an entry that matches the session;
      this survives each handler, whatever the request. */
  lemma StoreInvStart(lib: Lib, m: Manager, id: SessionId, taskEncoded: string, commit: bool)
    requires StoreInv(lib, m)
    ensures StoreInv(lib, StartRound(lib, m, id, taskEncoded, commit).0)
  {
    var n := StartRound(lib, m, id, taskEncoded, commit).0;
    forall i | i in n.sessions ensures SessionStored(lib, n, n.sessions[i]) {
      assert SessionStored(lib, m, m.sessions[i]);
    }
  }

  lemma StoreInvInsert(lib: Lib, m: Manager, id: SessionId, s: Session)
    requires StoreInv(lib, m) && s.tasks == []
    ensures StoreInv(lib, m.(sessions := m.sessions[id := s]))
  {
    var n := m.(sessions := m.sessions[id := s]);
    forall i | i in n.sessions ensures SessionStored(lib, n, n.sessions[i]) {
      if i != id { assert SessionStored(lib, m, m.sessions[i]); }
    }
  }

  lemma StoreInvEnd(lib: Lib, m: Manager, id: SessionId)
    requires StoreInv(lib, m)
    ensures StoreInv(lib, EndSession(m, id).0)
  {
    var n := EndSession(m, id).0;
    forall i | i in n.sessions ensures SessionStored(lib, n, n.sessions[i]) {
      assert SessionStored(lib, m, m.sessions[i]);
    }
  }

  /** Two live sessions that list one task agree on everything a client or the collector can
      see, so a lookup refused for several sessions was refused between equal answers. */
  lemma SharedTasksAgree(lib: Lib, m: Manager, a: SessionId, b: SessionId, t: TaskId)
    requires StoreInv(lib, m) && BudgetInjective(lib)
    requires a in m.sessions && b in m.sessions && t in m.sessions[a].tasks && t in m.sessions[b].tasks
    ensures var x, y := m.sessions[a].setup, m.sessions[b].setup;
            && x.vdaf == y.vdaf && x.verifyKey == y.verifyKey
            && x.role == y.role && x.collectorConfig == y.collectorConfig
  {
    assert SessionStored(lib, m, m.sessions[a]) && SessionStored(lib, m, m.sessions[b]);
    InstanceDeterminesParameter(lib, m.sessions[a].setup.vdaf, m.sessions[b].setup.vdaf);
  }

  /** The id drawn for a leader is not checked: creating keeps every live session iff the chosen
      id was free, which holds for requested ids but not for drawn ones. */
  lemma CreateKeepsSessions(lib: Lib, m: Manager, req: CreateRequest, d: Draws)
    requires CreateSession(lib, m, req, d).1.Created?
    ensures var n, id := CreateSession(lib, m, req, d).0, CreateSession(lib, m, req, d).1.id;
            && id == (if req.id.Some? then req.id.value else d.id)
            && (req.id.Some? ==> id !in m.sessions)
            && (|n.sessions| == |m.sessions| + 1 <==> req.id.Some? || d.id !in m.sessions)
            && n.sessions - {id} == m.sessions - {id}
            && id in n.sessions && n.sessions[id].tasks == []
  {
    var n, id := CreateSession(lib, m, req, d).0, CreateSession(lib, m, req, d).1.id;
    assert n.sessions.Keys == m.sessions.Keys + {id};
    SameSize(n.sessions);
    SameSize(m.sessions);
  }

  lemma SameSize<K, V>(m: map<K, V>)
    ensures |m| == |m.Keys|
  {
  }
}
