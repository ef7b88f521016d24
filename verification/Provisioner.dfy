/** The manager as the source writes it: an object whose handlers update its session table, task
    store and keyring. Each is proved to do what the handler functions say. */
module Provisioner {
  import opened Wrappers
  import opened Base64Url
  import opened Vdaf
  import opened Handlers

  class HpkeConfigRegistry {
    var keypairs: Keyring

    constructor ()
      ensures keypairs == map[]
    {
      keypairs := map[];
    }

    /** The keypair of an id is generated on first use and the same ever after. */
    method FetchKeypair(id: byte, seed: nat) returns (k: HpkeKeypair)
      modifies this
      ensures id in keypairs && keypairs[id] == k
      ensures keypairs - {id} == old(keypairs) - {id}
      ensures k == if id in old(keypairs) then old(keypairs)[id] else GenerateKeypair(id, Aes128Gcm, seed)
      ensures (keypairs, k) == Handlers.FetchKeypair(old(keypairs), id, seed)
    {
      if id !in keypairs {
        keypairs := keypairs[id := GenerateKeypair(id, Aes128Gcm, seed)];
      }
      k := keypairs[id];
    }
  }

  ghost predicate Distinct<T>(s: seq<T>)
  {
    forall i, j :: 0 <= i < j < |s| ==> s[i] != s[j]
  }

  lemma {:induction false} DistinctLength<T>(s: seq<T>, all: set<T>)
    requires Distinct(s) && forall x :: x in s <==> x in all
    ensures |s| == |all|
  {
    if s == [] {
      assert all == {};
    } else {
      var last := s[|s| - 1];
      var init := s[..|s| - 1];
      forall x ensures x in init <==> x in all - {last} {
        assert x in s <==> x in init || x == last;
      }
      DistinctLength(init, all - {last});
    }
  }

  /** References to the sessions that list `t`, in whatever order the table yields them. */
  method SessionsWith(sessions: Sessions, t: TaskId) returns (found: seq<SessionId>)
    ensures |found| == |Listing(sessions, t)|
    ensures forall id :: id in found <==> id in Listing(sessions, t)
  {
    found := [];
    var rest := sessions.Keys;
    while rest != {}
      invariant rest <= sessions.Keys && Distinct(found)
      invariant forall id :: id in found <==> id in sessions && id !in rest && t in sessions[id].tasks
      decreases rest
    {
      var id :| id in rest;
      if t in sessions[id].tasks { found := found + [id]; }
      rest := rest - {id};
    }
    DistinctLength(found, Listing(sessions, t));
  }

  class TaskProvisioner {
    const lib: Lib
    const config: Config
    const keyring: HpkeConfigRegistry
    var sessions: Sessions
    var store: Store

    ghost function Value(): Manager
      reads this, keyring
    {
      Manager(config, sessions, store, keyring.keypairs)
    }

    constructor (lib: Lib, config: Config, datastore: Store)
      ensures this.lib == lib && fresh(keyring)
      ensures Value() == Manager(config, map[], datastore, map[])
    {
      this.lib := lib;
      this.config := config;
      this.keyring := new HpkeConfigRegistry();
      this.sessions := map[];
      this.store := datastore;
    }

    /** One transaction: an id that is taken is fine if the task is the same up to the fields that
        are drawn at random, and nothing is ever overwritten. */
    method Provision(task: Task, commit: bool) returns (ok: bool)
      modifies this`store
      ensures ok <==> commit && (task.id !in old(store) || SameTask(old(store)[task.id], task))
      ensures store == if ok && task.id !in old(store) then old(store)[task.id := task] else old(store)
    {
      if !commit { return false; }
      if task.id in store { return SameTask(store[task.id], task); }
      store := store[task.id := task];
      ok := true;
    }

    method HandleStartRound(id: SessionId, taskEncoded: string, commit: bool) returns (reply: Reply)
      modifies this
      ensures (Value(), reply) == StartRound(lib, old(Value()), id, taskEncoded, commit)
    {
      if id !in sessions { return Rejected; }
      var session := sessions[id];
      var decoded := TaskIdFromString(taskEncoded);
      if decoded.Err? { return Rejected; }
      var t := decoded.value;
      var params: TaskParams;
      match session.setup.role {
        case Leader =>
          params := LeaderParams(session.setup.leaderToken, lib.hash(session.setup.collectorToken),
                                 session.setup.collectorConfig);
        case Helper =>
          params := HelperParams(lib.hash(session.setup.leaderToken), session.setup.collectorConfig);
        case _ => return Crashed;
      }
      var task := Task(t, config.helperEndpoint, TimeInterval, ToVdafInstance(lib, session.setup.vdaf),
                       session.setup.verifyKey, 10, None, None, 2, TIME_PRECISION, 1000, [session.keypair], params);
      if !lib.taskOk(task.vdaf, task.verifyKey) { return Rejected; }
      var ok := Provision(task, commit);
      if !ok { return Rejected; }
      sessions := sessions[id := session.(tasks := session.tasks + [t])];
      reply := Accepted;
    }

    /** First section of `HandleCreateSession` and the decoding after it: looks at the table only. */
    method Check(req: CreateRequest, drawn: SessionId) returns (r: Result<(SessionId, Setup)>)
      ensures r == CheckRequest(lib, sessions, req, drawn)
    {
      var id := drawn;
      if req.id.Some? {
        if req.id.value in sessions { return Err; }
        id := req.id.value;
      }
      var collectorToken := Decode(req.terms.collectorTokenEncoded);
      if collectorToken.Err? || !lib.bearerOk(collectorToken.value) { return Err; }
      var leaderToken := lib.utf8(req.terms.leaderTokenEncoded);
      if !lib.bearerOk(leaderToken) { return Err; }
      var verifyKey := Decode(req.terms.verifyKeyEncoded);
      if verifyKey.Err? { return Err; }
      r := Ok((id, Setup(req.role, verifyKey.value, req.terms.collectorConfig, collectorToken.value, leaderToken,
                         req.terms.vdaf)));
    }

    /** Last section: whatever was there under the id is replaced. */
    method Insert(id: SessionId, session: Session)
      modifies this`sessions
      ensures Value() == old(Value()).(sessions := old(sessions)[id := session])
    {
      sessions := sessions[id := session];
    }

    method HandleCreateSession(req: CreateRequest, d: Draws) returns (reply: Reply)
      modifies this, keyring
      ensures (Value(), reply) == CreateSession(lib, old(Value()), req, d)
    {
      var checked := Check(req, d.id);
      if checked.Err? { return Rejected; }
      var keypair := keyring.FetchKeypair(d.keyId, d.seed);
      Insert(checked.value.0, Session(checked.value.1, keypair, []));
      reply := Created(checked.value.0);
    }

    method HandleEndSession(id: SessionId) returns (reply: Reply)
      modifies this`sessions
      ensures (Value(), reply) == EndSession(old(Value()), id)
    {
      if id in sessions {
        sessions := sessions - {id};
        reply := Accepted;
      } else {
        reply := Rejected;
      }
    }

    method HandleGetVdafParameter(taskEncoded: string) returns (r: Result<VdafParameter>)
      ensures r == GetVdafParameter(sessions, taskEncoded)
    {
      var decoded := TaskIdFromString(taskEncoded);
      if decoded.Err? { return Err; }
      var found := SessionsWith(sessions, decoded.value);
      if |found| != 1 { return Err; }
      SingletonIs(Listing(sessions, decoded.value), found[0]);
      r := Ok(sessions[found[0]].setup.vdaf);
    }
  }
}
