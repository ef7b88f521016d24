/** What each handler accepts, answers and writes, spelled out field by field and for any request,
    however malformed. */
module HandlerFacts {
  import opened Wrappers
  import opened Base64Url
  import opened FixedPoint
  import opened Vdaf
  import opened Handlers

  // ---------------------------------------------------------------- creating a session

  /** What the code decodes and checks before it creates a session. */
  predicate Acceptable(lib: Lib, t: Terms)
  {
    && Canonical(t.collectorTokenEncoded) && Canonical(t.verifyKeyEncoded)
    && (EncodeDecode(t.collectorTokenEncoded); lib.bearerOk(Decode(t.collectorTokenEncoded).value))
    && lib.bearerOk(lib.utf8(t.leaderTokenEncoded))
  }

  /** Terms are refused iff a token or the key is not canonical base64url or a token is no bearer
      token; otherwise token and key are the bytes whose encoding was sent. */
  lemma TermsDecode(lib: Lib, role: Role, t: Terms)
    ensures DecodeTerms(lib, role, t).Ok? <==> Acceptable(lib, t)
    ensures DecodeTerms(lib, role, t).Ok? ==>
              var s := DecodeTerms(lib, role, t).value;
              && Encode(s.collectorToken) == t.collectorTokenEncoded && Encode(s.verifyKey) == t.verifyKeyEncoded
              && s.leaderToken == lib.utf8(t.leaderTokenEncoded)
              && s.role == role && s.collectorConfig == t.collectorConfig && s.vdaf == t.vdaf
  {
    EncodeDecode(t.collectorTokenEncoded);
    EncodeDecode(t.verifyKeyEncoded);
  }

  /** Creating is refused iff a requested id is taken or the terms are; a refusal changes nothing.
      Otherwise the new session has the terms' contents, no tasks, and the keyring's keypair. */
  lemma CreateDecides(lib: Lib, m: Manager, req: CreateRequest, d: Draws)
    ensures var (n, reply) := CreateSession(lib, m, req, d);
            var id := if req.id.Some? then req.id.value else d.id;
            var ok := (req.id.Some? ==> id !in m.sessions) && DecodeTerms(lib, req.role, req.terms).Ok?;
            && reply == (if ok then Created(id) else Rejected)
            && (!ok ==> n == m)
            && (ok ==>
                  && id in n.sessions && d.keyId in n.keyring
                  && Ok(n.sessions[id].setup) == DecodeTerms(lib, req.role, req.terms)
                  && n.sessions[id].keypair == n.keyring[d.keyId] && n.sessions[id].tasks == []
                  && (d.keyId in m.keyring ==> n.keyring == m.keyring)
                  && (d.keyId !in m.keyring ==> n.keyring[d.keyId].config.id == d.keyId))
            && n.sessions - {id} == m.sessions - {id} && n.keyring - {d.keyId} == m.keyring - {d.keyId}
            && n.store == m.store && n.config == m.config
  {
  }

  // ---------------------------------------------------------------- provisioning

  /** Provisioning is refused iff the id is stored with another value of one of these ten fields;
      otherwise it writes exactly the given task, and only if the id is new. */
  lemma ProvisionDecides(store: Store, task: Task)
    ensures ProvisionTask(store, task).Err? <==>
              task.id in store
              && var k := store[task.id];
                 || k.peerEndpoint != task.peerEndpoint
                 || k.queryType != task.queryType
                 || k.vdaf != task.vdaf
                 || k.verifyKey != task.verifyKey
                 || (k.params.LeaderParams? <==> !task.params.LeaderParams?)
                 || k.maxBatchQueryCount != task.maxBatchQueryCount
                 || k.taskExpiration != task.taskExpiration
                 || k.minBatchSize != task.minBatchSize
                 || k.timePrecision != task.timePrecision
                 || CollectorOf(k.params) != CollectorOf(task.params)
    ensures ProvisionTask(store, task).Ok? ==>
              ProvisionTask(store, task).value == if task.id in store then store else store[task.id := task]
  {
  }

  function CollectorOf(p: TaskParams): (c: HpkeConfig)
  {
    if p.LeaderParams? then p.leaderCollectorConfig else p.helperCollectorConfig
  }

  // ---------------------------------------------------------------- starting a round

  /** What every round's task is set to, whatever its session. */
  predicate RoundConstants(endpoint: string, k: Task)
  {
    && k.peerEndpoint == endpoint
    && k.queryType == TimeInterval
    && k.maxBatchQueryCount == 10
    && k.taskExpiration == None
    && k.minBatchSize == 2
    && k.timePrecision == 3600
  }

  /** A stored task with which a round of the session may share its id. */
  predicate Matches(lib: Lib, endpoint: string, s: Setup, k: Task)
  {
    && RoundConstants(endpoint, k)
    && InstanceFor(lib, k.vdaf, s.vdaf)
    && k.verifyKey == s.verifyKey
    && (k.params.LeaderParams? <==> s.role == Leader)
    && CollectorOf(k.params) == s.collectorConfig
  }

  /** The task a round of the session provisions. */
  predicate ProvisionedFor(lib: Lib, endpoint: string, s: Setup, keypair: HpkeKeypair, t: TaskId, k: Task)
  {
    && k.id == t && Matches(lib, endpoint, s, k)
    && k.reportExpiryAge == None && k.tolerableClockSkew == 1000
    && k.hpkeKeys == [keypair]
    && (match k.params
        case LeaderParams(token, hash, _) => token == s.leaderToken && hash == lib.hash(s.collectorToken)
        case HelperParams(hash, _) => hash == lib.hash(s.leaderToken))
  }

  lemma BuildTaskProvisions(lib: Lib, endpoint: string, s: Setup, keypair: HpkeKeypair, t: TaskId)
    ensures var r := BuildTask(lib, endpoint, s, keypair, t);
            && (r.Some? <==> AggregatorRole(s.role))
            && (r.Some? ==> ProvisionedFor(lib, endpoint, s, keypair, t, r.value))
  {
  }

  /** The comparison that provisioning makes for a round, whatever its keypair. */
  lemma ConformsIsMatches(lib: Lib, endpoint: string, k: Task, s: Setup, t: TaskId)
    ensures Conforms(lib, endpoint, k, s, t) <==> AggregatorRole(s.role) && Matches(lib, endpoint, s, k)
  {
  }

  /** A round of session `id` for task `t` can start. */
  predicate Startable(lib: Lib, m: Manager, id: SessionId, t: TaskId, commit: bool)
  {
    && id in m.sessions && commit
    && AggregatorRole(m.sessions[id].setup.role)
    && TaskAllowed(lib, m.sessions[id].setup)
    && (t in m.store ==> Matches(lib, m.config.helperEndpoint, m.sessions[id].setup, m.store[t]))
  }

  /** The library's own checks when a task of the session is built. */
  predicate TaskAllowed(lib: Lib, s: Setup)
  {
    var bitsize := if s.vdaf.submissionType == FixedType16Bit then BitSize16 else BitSize32;
    lib.taskOk(Prio3FixedPointBoundedL2VecSum(s.vdaf.gradientLen, bitsize, lib.fromBudget(s.vdaf.privacy)), s.verifyKey)
  }

  /** The only change: the task joins the session's list, and the store if its id is new there. */
  predicate Started(lib: Lib, m: Manager, n: Manager, id: SessionId, t: TaskId, started: bool)
  {
    if !started then n == m
    else
      && id in m.sessions && id in n.sessions
      && n.sessions[id] == m.sessions[id].(tasks := m.sessions[id].tasks + [t])
      && n.sessions - {id} == m.sessions - {id}
      && t in n.store && n.store - {t} == m.store - {t}
      && (var endpoint, session := m.config.helperEndpoint, m.sessions[id];
          if t in m.store then n.store[t] == m.store[t] && Matches(lib, endpoint, session.setup, n.store[t])
          else ProvisionedFor(lib, endpoint, session.setup, session.keypair, t, n.store[t]))
      && n.keyring == m.keyring && n.config == m.config
  }

  /** Starting panics iff the session is of neither aggregator and the task id can be read; it is
      accepted iff the task id can be read and the round can start; nothing else changes anything. */
  lemma StartDecides(lib: Lib, m: Manager, id: SessionId, s: string, commit: bool)
    ensures var (n, reply) := StartRound(lib, m, id, s, commit);
            var r := TaskIdFromString(s);
            && (reply == Accepted <==> r.Ok? && Startable(lib, m, id, r.value, commit))
            && (reply == Crashed <==> r.Ok? && id in m.sessions && !AggregatorRole(m.sessions[id].setup.role))
            && (reply == Accepted || reply == Crashed || reply == Rejected)
            && (reply == Accepted ==> Started(lib, m, n, id, r.value, true))
            && (reply != Accepted ==> n == m)
  {
    var r := TaskIdFromString(s);
    if id in m.sessions && r.Ok? {
      var setup := m.sessions[id].setup;
      BuildTaskProvisions(lib, m.config.helperEndpoint, setup, m.sessions[id].keypair, r.value);
      if AggregatorRole(setup.role) {
        var task := BuildTask(lib, m.config.helperEndpoint, setup, m.sessions[id].keypair, r.value).value;
        if r.value in m.store { SameIsMatches(lib, m.config.helperEndpoint, setup, m.store[r.value], task); }
      }
    }
  }

  lemma SameIsMatches(lib: Lib, endpoint: string, s: Setup, k: Task, task: Task)
    requires Matches(lib, endpoint, s, task) && AggregatorRole(s.role)
    ensures SameTask(k, task) <==> Matches(lib, endpoint, s, k)
  {
  }

  // ---------------------------------------------------------------- looking up, ending

  /** A question is answered iff its text names a task that exactly one session lists. */
  lemma QueryDecides(sessions: Sessions, s: string)
    ensures var r := TaskIdFromString(s);
            && (AnswerQuery(sessions, s) != Rejected <==> r.Ok? && exists id :: OnlyLister(sessions, r.value, id))
            && (r.Ok? ==> forall id :: OnlyLister(sessions, r.value, id) ==>
                  AnswerQuery(sessions, s) == Answer(sessions[id].setup.vdaf))
  {
    var r := TaskIdFromString(s);
    if r.Ok? { LookupCorrect(sessions, r.value); }
  }

  /** Ending is accepted iff there is such a session, which is then gone; nothing else changes. */
  lemma EndDecides(m: Manager, id: SessionId)
    ensures var (n, reply) := EndSession(m, id);
            && reply == (if id in m.sessions then Accepted else Rejected)
            && n.sessions == m.sessions - {id}
            && n.store == m.store && n.keyring == m.keyring && n.config == m.config
  {
    if id !in m.sessions { assert m.sessions - {id} == m.sessions; }
  }
}
