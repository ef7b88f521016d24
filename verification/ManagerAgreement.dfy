/** What each manager keeps true of its own requests, sessions and stored tasks in a system where
    drawn ids do not repeat: everything can be traced to the birth of its session id. */
module ManagerAgreement {
  import opened Wrappers
  import opened Base64Url
  import opened Vdaf
  import opened Handlers
  import opened Sections
  import opened System

  // ---------------------------------------------------------------- the invariant

  /** Session ids that have been put into circulation at a manager. */
  function KnownIds(side: Side, h: History): (ids: set<SessionId>)
  {
    if side == LeaderSide then h.born.Keys else h.asked
  }

  /** The session id a create request stands for, once it stands for one. */
  function IdOf(r: Request): (id: Option<SessionId>)
  {
    if !r.call.Create? then None
    else if r.call.req.id.Some? then r.call.req.id
    else match r.phase
         case Checked(id, _) => Some(id)
         case Keyed(id, _) => Some(id)
         case Done(Created(id)) => Some(id)
         case _ => None
  }

  predicate BornAs(h: History, id: SessionId, r: Request)
    requires r.call.Create?
  {
    id in h.born && h.born[id] == Birth(r.from, r.call.req.terms)
  }

  predicate OneSection(p: Phase)
  {
    p.Sent? || p == Done(Accepted) || p == Done(Rejected)
  }

  predicate CallInv(lib: Lib, cfgs: seq<ControllerConfig>, side: Side, x: Machine, r: Request, h: History)
  {
    match r.call
    case Create(req) =>
      && r.from < |cfgs| && req.terms == MakeTerms(cfgs[r.from], req.terms.verifyKeyEncoded)
      && req.role == RoleOf(side) && (req.id.Some? <==> side == HelperSide)
      && (IdOf(r).Some? ==> IdOf(r).value in KnownIds(side, h) && BornAs(h, IdOf(r).value, r))
      && CreatePhaseInv(lib, x, r)
    case Start(id, s) =>
      && TaskIdFromString(s).Ok? && OneSection(r.phase)
      && (var t := TaskIdFromString(s).value;
          t in h.drawn && h.drawn[t] == id && (r.phase == Done(Accepted) ==> t in x.m.store))
    case End(id) => id in h.endAsked && OneSection(r.phase)
    case Query(s) => QueryPhaseInv(r.phase, s, h)
  }

  /** An answered question got the parameter its task was drawn for. */
  predicate QueryPhaseInv(p: Phase, s: string, h: History)
  {
    match p
    case Sent => true
    case Done(Answer(v)) => TaskIdFromString(s).Ok? && DrawnFor(h, TaskIdFromString(s).value, v)
    case Done(reply) => reply == Rejected
    case _ => false
  }

  /** The parameter a drawn task was drawn for. */
  predicate DrawnFor(h: History, t: TaskId, p: VdafParameter)
  {
    t in h.drawn && h.drawn[t] in h.born && h.born[h.drawn[t]].terms.vdaf == p
  }

  predicate CreatePhaseInv(lib: Lib, x: Machine, r: Request)
    requires r.call.Create?
  {
    match r.phase
    case Sent => true
    case Checked(id, setup) => IdOf(r) == Some(id) && DecodeTerms(lib, r.call.req.role, r.call.req.terms) == Ok(setup)
    case Keyed(id, s) =>
      IdOf(r) == Some(id) && s.tasks == [] && DecodeTerms(lib, r.call.req.role, r.call.req.terms) == Ok(s.setup)
    case Done(reply) => reply == Rejected || (reply.Created? && IdOf(r) == Some(reply.id) && reply.id in x.created)
  }

  ghost predicate CallsInv(lib: Lib, cfgs: seq<ControllerConfig>, side: Side, x: Machine, h: History)
  {
    forall i :: 0 <= i < |x.calls| ==> CallInv(lib, cfgs, side, x, x.calls[i], h)
  }

  /** A live session is what its birth terms decode to, and lists only tasks drawn for it. */
  ghost predicate SessionOk(lib: Lib, side: Side, x: Machine, h: History, id: SessionId)
    requires id in x.m.sessions
  {
    && id in h.born
    && DecodeTerms(lib, RoleOf(side), h.born[id].terms) == Ok(x.m.sessions[id].setup)
    && forall t :: t in x.m.sessions[id].tasks ==> t in h.drawn && h.drawn[t] == id && t in x.m.store
  }

  ghost predicate SessionsOk(lib: Lib, side: Side, x: Machine, h: History)
  {
    forall id :: id in x.m.sessions ==> SessionOk(lib, side, x, h, id)
  }

  /** A stored task with a drawn id is the one its session's birth terms prescribe; only its HPKE
      keypair is the manager's own choice. */
  predicate TaskOk(lib: Lib, side: Side, config: Config, task: Task, t: TaskId, terms: Terms)
  {
    match DecodeTerms(lib, RoleOf(side), terms)
    case Err => false
    case Ok(setup) =>
      |task.hpkeKeys| == 1 && BuildTask(lib, config.helperEndpoint, setup, task.hpkeKeys[0], t) == Some(task)
  }

  ghost predicate StoreOk(lib: Lib, side: Side, x: Machine, h: History)
  {
    forall t :: t in x.m.store && t in h.drawn ==>
      h.drawn[t] in h.born && TaskOk(lib, side, x.m.config, x.m.store[t], t, h.born[h.drawn[t]].terms)
  }

  /** Ids are inserted once and removed once, and no two requests create the same one. */
  ghost predicate IdsInv(side: Side, x: Machine, h: History)
  {
    && x.created <= KnownIds(side, h)
    && x.ended <= x.created && x.ended <= h.endAsked
    && x.m.sessions.Keys == x.created - x.ended
    && (forall i :: 0 <= i < |x.calls| && IdOf(x.calls[i]).Some? && !x.calls[i].phase.Done?
          ==> IdOf(x.calls[i]).value !in x.created)
    && (forall i, j :: 0 <= i < j < |x.calls| && IdOf(x.calls[i]).Some? ==> IdOf(x.calls[i]) != IdOf(x.calls[j]))
  }

  ghost predicate MachineInv(lib: Lib, cfgs: seq<ControllerConfig>, side: Side, x: Machine, h: History)
  {
    && CallsInv(lib, cfgs, side, x, h)
    && SessionsOk(lib, side, x, h)
    && StoreOk(lib, side, x, h)
    && IdsInv(side, x, h)
  }

  // ---------------------------------------------------------------- histories only grow

  predicate HistoryGrows(g: History, h: History)
  {
    && (forall id :: id in g.born ==> id in h.born && h.born[id] == g.born[id])
    && g.asked <= h.asked
    && (forall t :: t in g.drawn ==> t in h.drawn && h.drawn[t] == g.drawn[t])
    && g.endAsked <= h.endAsked
  }

  lemma MachineInvMono(lib: Lib, cfgs: seq<ControllerConfig>, side: Side, x: Machine, g: History, h: History)
    requires MachineInv(lib, cfgs, side, x, g) && HistoryGrows(g, h)
    requires forall t :: t in h.drawn && t !in g.drawn ==> t !in x.m.store
    ensures MachineInv(lib, cfgs, side, x, h)
  {
    forall i | 0 <= i < |x.calls| ensures CallInv(lib, cfgs, side, x, x.calls[i], h) {
      assert CallInv(lib, cfgs, side, x, x.calls[i], g);
    }
    forall id | id in x.m.sessions ensures SessionOk(lib, side, x, h, id) {
      assert SessionOk(lib, side, x, g, id);
    }
  }

  // ---------------------------------------------------------------- each section keeps it

  lemma SendKeeps(lib: Lib, cfgs: seq<ControllerConfig>, side: Side, x: Machine, h: History, from: nat, call: Call)
    requires MachineInv(lib, cfgs, side, x, h)
    requires CallInv(lib, cfgs, side, x, Request(from, call, Sent), h)
    requires var id := IdOf(Request(from, call, Sent));
             id.Some? ==> id.value !in x.created && forall j :: 0 <= j < |x.calls| ==> IdOf(x.calls[j]) != id
    ensures MachineInv(lib, cfgs, side, Send(x, from, call), h)
  {
    var y := Send(x, from, call);
    forall i | 0 <= i < |y.calls| ensures CallInv(lib, cfgs, side, y, y.calls[i], h) {
      if i < |x.calls| { assert CallInv(lib, cfgs, side, x, x.calls[i], h); }
    }
    forall id | id in y.m.sessions ensures SessionOk(lib, side, y, h, id) {
      assert SessionOk(lib, side, x, h, id);
    }
  }

  /** The requests not touched by a step stay as they were, as long as ids and stored tasks only
      accumulate. */
  lemma CallsInvUpdate(lib: Lib, cfgs: seq<ControllerConfig>, side: Side, x: Machine, y: Machine, i: nat, h: History)
    requires CallsInv(lib, cfgs, side, x, h) && i < |x.calls| == |y.calls| && y.calls == x.calls[i := y.calls[i]]
    requires x.created <= y.created && x.m.store.Keys <= y.m.store.Keys
    requires CallInv(lib, cfgs, side, y, y.calls[i], h)
    ensures CallsInv(lib, cfgs, side, y, h)
  {
    forall j | 0 <= j < |y.calls| ensures CallInv(lib, cfgs, side, y, y.calls[j], h) {
      if j != i { assert CallInv(lib, cfgs, side, x, x.calls[j], h); }
    }
  }

  lemma SessionsOkSame(lib: Lib, side: Side, x: Machine, y: Machine, h: History)
    requires SessionsOk(lib, side, x, h) && y.m.sessions == x.m.sessions && x.m.store.Keys <= y.m.store.Keys
    ensures SessionsOk(lib, side, y, h)
  {
    forall id | id in y.m.sessions ensures SessionOk(lib, side, y, h, id) {
      assert SessionOk(lib, side, x, h, id);
    }
  }

  lemma CheckKeeps(lib: Lib, cfgs: seq<ControllerConfig>, side: Side, x: Machine, h: History, i: nat, drawn: SessionId)
    requires MachineInv(lib, cfgs, side, x, h) && Waiting(x, i) && x.calls[i].call.Create?
    requires side == LeaderSide && ApplyCheck(lib, x, i, drawn).calls[i].phase.Checked? ==>
               && BornAs(h, drawn, x.calls[i]) && drawn !in x.created
               && forall j :: 0 <= j < |x.calls| ==> IdOf(x.calls[j]) != Some(drawn)
    ensures MachineInv(lib, cfgs, side, ApplyCheck(lib, x, i, drawn), h)
  {
    var y := ApplyCheck(lib, x, i, drawn);
    assert CallInv(lib, cfgs, side, x, x.calls[i], h);
    CallsInvUpdate(lib, cfgs, side, x, y, i, h);
    SessionsOkSame(lib, side, x, y, h);
    IdsSame(side, x, y, i, h);
  }

  /** Nothing but the phase of one request moved, and that request's id is its own. */
  lemma IdsSame(side: Side, x: Machine, y: Machine, i: nat, h: History)
    requires IdsInv(side, x, h) && i < |x.calls| == |y.calls| && y.calls == x.calls[i := y.calls[i]]
    requires x.created == y.created && x.ended == y.ended && x.m.sessions.Keys == y.m.sessions.Keys
    requires var id := IdOf(y.calls[i]);
             id.Some? ==> id == IdOf(x.calls[i])
                          || (id.value !in x.created && forall j :: 0 <= j < |x.calls| ==> IdOf(x.calls[j]) != id)
    requires y.calls[i].phase.Done? || !x.calls[i].phase.Done?
    ensures IdsInv(side, y, h)
  {
  }

  lemma FetchKeyKeeps(lib: Lib, cfgs: seq<ControllerConfig>, side: Side, x: Machine, h: History, i: nat, keyId: byte,
                      seed: nat)
    requires MachineInv(lib, cfgs, side, x, h) && i < |x.calls| && x.calls[i].phase.Checked?
    ensures MachineInv(lib, cfgs, side, ApplyFetchKey(x, i, keyId, seed), h)
  {
    var y := ApplyFetchKey(x, i, keyId, seed);
    assert CallInv(lib, cfgs, side, x, x.calls[i], h);
    CallsInvUpdate(lib, cfgs, side, x, y, i, h);
    SessionsOkSame(lib, side, x, y, h);
    IdsSame(side, x, y, i, h);
  }

  lemma InsertKeeps(lib: Lib, cfgs: seq<ControllerConfig>, side: Side, x: Machine, h: History, i: nat)
    requires MachineInv(lib, cfgs, side, x, h) && i < |x.calls| && x.calls[i].phase.Keyed?
    ensures MachineInv(lib, cfgs, side, ApplyInsert(x, i), h)
    ensures x.calls[i].phase.keyedId !in x.created
  {
    var y := ApplyInsert(x, i);
    var id := x.calls[i].phase.keyedId;
    assert CallInv(lib, cfgs, side, x, x.calls[i], h);
    assert IdOf(x.calls[i]) == Some(id);
    CallsInvUpdate(lib, cfgs, side, x, y, i, h);
    forall a | a in y.m.sessions ensures SessionOk(lib, side, y, h, a) {
      if a != id { assert SessionOk(lib, side, x, h, a); }
    }
    assert y.m.sessions.Keys == x.m.sessions.Keys + {id};
    assert IdOf(y.calls[i]) == Some(id);
  }

  lemma EndKeeps(lib: Lib, cfgs: seq<ControllerConfig>, side: Side, x: Machine, h: History, i: nat)
    requires MachineInv(lib, cfgs, side, x, h) && Waiting(x, i) && x.calls[i].call.End?
    ensures MachineInv(lib, cfgs, side, ApplyEnd(x, i), h)
  {
    var y := ApplyEnd(x, i);
    assert CallInv(lib, cfgs, side, x, x.calls[i], h);
    CallsInvUpdate(lib, cfgs, side, x, y, i, h);
    forall a | a in y.m.sessions ensures SessionOk(lib, side, y, h, a) {
      assert SessionOk(lib, side, x, h, a);
    }
  }

  lemma StartKeeps(lib: Lib, cfgs: seq<ControllerConfig>, side: Side, x: Machine, h: History, i: nat, commit: bool)
    requires MachineInv(lib, cfgs, side, x, h) && Waiting(x, i) && x.calls[i].call.Start?
    ensures MachineInv(lib, cfgs, side, ApplyStart(lib, x, i, commit), h)
  {
    var y := ApplyStart(lib, x, i, commit);
    var call := x.calls[i].call;
    assert CallInv(lib, cfgs, side, x, x.calls[i], h);
    if call.startId in x.m.sessions { assert SessionOk(lib, side, x, h, call.startId); }
    CallsInvUpdate(lib, cfgs, side, x, y, i, h);
    forall a | a in y.m.sessions ensures SessionOk(lib, side, y, h, a) {
      assert SessionOk(lib, side, x, h, a);
    }
    assert y.m.sessions.Keys == x.m.sessions.Keys;
    IdsSame(side, x, y, i, h);
  }

  /** On either manager a successful lookup names the session the task was drawn for. */
  lemma {:induction false} LookupFindsBirth(lib: Lib, cfgs: seq<ControllerConfig>, side: Side, x: Machine, h: History,
                                            t: TaskId)
    requires MachineInv(lib, cfgs, side, x, h)
    ensures Lookup(x.m.sessions, t).Ok?
       <==> t in h.drawn && h.drawn[t] in x.m.sessions && t in x.m.sessions[h.drawn[t]].tasks
    ensures Lookup(x.m.sessions, t).Ok? ==> DrawnFor(h, t, Lookup(x.m.sessions, t).value)
  {
    LookupCorrect(x.m.sessions, t);
    forall id | id in x.m.sessions && t in x.m.sessions[id].tasks
      ensures t in h.drawn && h.drawn[t] == id && DrawnFor(h, t, x.m.sessions[id].setup.vdaf)
    {
      assert SessionOk(lib, side, x, h, id);
    }
    if t in h.drawn && h.drawn[t] in x.m.sessions && t in x.m.sessions[h.drawn[t]].tasks {
      assert OnlyLister(x.m.sessions, t, h.drawn[t]);
    }
  }

  lemma QueryKeeps(lib: Lib, cfgs: seq<ControllerConfig>, side: Side, x: Machine, h: History, i: nat)
    requires MachineInv(lib, cfgs, side, x, h) && Waiting(x, i) && x.calls[i].call.Query?
    ensures MachineInv(lib, cfgs, side, ApplyQuery(x, i), h)
  {
    var y := ApplyQuery(x, i);
    var decoded := TaskIdFromString(x.calls[i].call.queryEncoded);
    if decoded.Ok? { LookupFindsBirth(lib, cfgs, side, x, h, decoded.value); }
    CallsInvUpdate(lib, cfgs, side, x, y, i, h);
    SessionsOkSame(lib, side, x, y, h);
    IdsSame(side, x, y, i, h);
  }
}
