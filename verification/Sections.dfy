/** A manager serving many requests at once, one mutex section per step. Requests are kept in
    the order they arrived and never forgotten; each is served at most once, as late as the
    schedule likes, or never. */
module Sections {
  import opened Wrappers
  import opened Vdaf
  import opened Handlers

  datatype Call =
    | Create(req: CreateRequest)
    | Start(startId: SessionId, taskEncoded: string)
    | End(endId: SessionId)
    | Query(queryEncoded: string)

  /** How far the handler of a request has come. Creating a session stops between its three
      sections, holding no lock. */
  datatype Phase =
    | Sent
    | Checked(id: SessionId, setup: Setup)
    | Keyed(keyedId: SessionId, session: Session)
    | Done(reply: Reply)

  datatype Request = Request(from: nat, call: Call, phase: Phase)

  /** `created` and `ended` record which ids were ever inserted and ever removed. */
  datatype Machine = Machine(m: Manager, calls: seq<Request>, created: set<SessionId>, ended: set<SessionId>)

  /** One step, with the random choices and datastore faults that happen in it. */
  datatype Step =
    | Arrive(from: nat, call: Call)
    | Check(i: nat, drawn: SessionId)
    | FetchKey(i: nat, keyId: byte, seed: nat)
    | Insert(i: nat)
    | RunStart(i: nat, commit: bool)
    | RunEnd(i: nat)
    | RunQuery(i: nat)

  predicate Waiting(x: Machine, i: nat)
  {
    i < |x.calls| && x.calls[i].phase.Sent?
  }

  function SetPhase(x: Machine, i: nat, p: Phase): (y: Machine)
    requires i < |x.calls|
  {
    x.(calls := x.calls[i := x.calls[i].(phase := p)])
  }

  /** A step that is not enabled changes nothing. */
  function Apply(lib: Lib, x: Machine, step: Step): (y: Machine)
  {
    match step
    case Arrive(from, call) => x.(calls := x.calls + [Request(from, call, Sent)])
    case Check(i, drawn) =>
      if Waiting(x, i) && x.calls[i].call.Create? then ApplyCheck(lib, x, i, drawn) else x
    case FetchKey(i, keyId, seed) =>
      if i < |x.calls| && x.calls[i].phase.Checked? then ApplyFetchKey(x, i, keyId, seed) else x
    case Insert(i) =>
      if i < |x.calls| && x.calls[i].phase.Keyed? then ApplyInsert(x, i) else x
    case RunStart(i, commit) =>
      if Waiting(x, i) && x.calls[i].call.Start? then ApplyStart(lib, x, i, commit) else x
    case RunEnd(i) =>
      if Waiting(x, i) && x.calls[i].call.End? then ApplyEnd(x, i) else x
    case RunQuery(i) =>
      if Waiting(x, i) && x.calls[i].call.Query? then ApplyQuery(x, i) else x
  }

  function ApplyCheck(lib: Lib, x: Machine, i: nat, drawn: SessionId): (y: Machine)
    requires Waiting(x, i) && x.calls[i].call.Create?
  {
    match CheckRequest(lib, x.m.sessions, x.calls[i].call.req, drawn)
    case Err => SetPhase(x, i, Done(Rejected))
    case Ok((id, setup)) => SetPhase(x, i, Checked(id, setup))
  }

  function ApplyFetchKey(x: Machine, i: nat, keyId: byte, seed: nat): (y: Machine)
    requires i < |x.calls| && x.calls[i].phase.Checked?
  {
    var (keyring, keypair) := FetchKeypair(x.m.keyring, keyId, seed);
    var p := x.calls[i].phase;
    SetPhase(x.(m := x.m.(keyring := keyring)), i, Keyed(p.id, Session(p.setup, keypair, [])))
  }

  function ApplyInsert(x: Machine, i: nat): (y: Machine)
    requires i < |x.calls| && x.calls[i].phase.Keyed?
  {
    var id, session := x.calls[i].phase.keyedId, x.calls[i].phase.session;
    SetPhase(x.(m := x.m.(sessions := x.m.sessions[id := session]), created := x.created + {id}), i, Done(Created(id)))
  }

  function ApplyStart(lib: Lib, x: Machine, i: nat, commit: bool): (y: Machine)
    requires Waiting(x, i) && x.calls[i].call.Start?
  {
    var call := x.calls[i].call;
    var (m, reply) := StartRound(lib, x.m, call.startId, call.taskEncoded, commit);
    SetPhase(x.(m := m), i, Done(reply))
  }

  function ApplyEnd(x: Machine, i: nat): (y: Machine)
    requires Waiting(x, i) && x.calls[i].call.End?
  {
    var id := x.calls[i].call.endId;
    var (m, reply) := EndSession(x.m, id);
    SetPhase(x.(m := m, ended := x.ended + if reply.Accepted? then {id} else {}), i, Done(reply))
  }

  function ApplyQuery(x: Machine, i: nat): (y: Machine)
    requires Waiting(x, i) && x.calls[i].call.Query?
  {
    SetPhase(x, i, Done(AnswerQuery(x.m.sessions, x.calls[i].call.queryEncoded)))
  }

  function Run(lib: Lib, x: Machine, steps: seq<Step>): (y: Machine)
    decreases |steps|
  {
    if steps == [] then x else Apply(lib, Run(lib, x, steps[..|steps| - 1]), steps[|steps| - 1])
  }

  /** A manager process starting on whatever the durable store already holds. */
  predicate Booted(x: Machine)
  {
    && x.m.sessions == map[] && x.m.keyring == map[]
    && x.calls == [] && x.created == {} && x.ended == {}
  }

  // ---------------------------------------------------------------- the uninterrupted handler

  /** Undisturbed, the sections of `handle_create_session` add up to the whole handler. */
  lemma SectionsCompose(lib: Lib, x: Machine, i: nat, d: Draws)
    requires Waiting(x, i) && x.calls[i].call.Create?
    ensures var (m, reply) := CreateSession(lib, x.m, x.calls[i].call.req, d);
            var y := Apply(lib, Apply(lib, Apply(lib, x, Check(i, d.id)), FetchKey(i, d.keyId, d.seed)), Insert(i));
            y.m == m && y.calls == x.calls[i := x.calls[i].(phase := Done(reply))]
  {
    var y := Apply(lib, x, Check(i, d.id));
    if y.calls[i].phase.Checked? {
      var z := Apply(lib, y, FetchKey(i, d.keyId, d.seed));
      assert z.calls[i].phase.Keyed?;
      assert z.calls == x.calls[i := x.calls[i].(phase := z.calls[i].phase)];
    }
  }

  // ---------------------------------------------------------------- what every step keeps, for any requests

  predicate KeptKeypair(keyring: Keyring, k: HpkeKeypair)
  {
    k.config.id in keyring && keyring[k.config.id] == k
  }

  predicate KeyringInv(keyring: Keyring)
  {
    forall id :: id in keyring ==> keyring[id].config.id == id
  }

  ghost predicate TableInv(lib: Lib, x: Machine)
  {
    && StoreInv(lib, x.m)
    && KeyringInv(x.m.keyring)
    && (forall id :: id in x.m.sessions ==> KeptKeypair(x.m.keyring, x.m.sessions[id].keypair))
    && (forall i :: 0 <= i < |x.calls| && x.calls[i].phase.Keyed?
          ==> x.calls[i].phase.session.tasks == [] && KeptKeypair(x.m.keyring, x.calls[i].phase.session.keypair))
  }

  predicate Grows(x: Manager, y: Manager)
  {
    && y.config == x.config
    && (forall t :: t in x.store ==> t in y.store && y.store[t] == x.store[t])
    && (forall id :: id in x.keyring ==> id in y.keyring && y.keyring[id] == x.keyring[id])
  }

  lemma {:induction false} TableInvStep(lib: Lib, x: Machine, step: Step)
    requires TableInv(lib, x)
    ensures TableInv(lib, Apply(lib, x, step)) && Grows(x.m, Apply(lib, x, step).m)
  {
    var y := Apply(lib, x, step);
    match step
    case Arrive(_, _) =>
    case Check(i, drawn) =>
    case FetchKey(i, keyId, seed) => if y != x { TableInvFetchKey(lib, x, i, keyId, seed); }
    case Insert(i) =>
      if y != x { StoreInvInsert(lib, x.m, x.calls[i].phase.keyedId, x.calls[i].phase.session); }
    case RunStart(i, commit) => if y != x { TableInvStart(lib, x, i, commit); }
    case RunEnd(i) =>
      if y != x { StoreInvEnd(lib, x.m, x.calls[i].call.endId); }
    case RunQuery(i) =>
  }

  lemma TableInvFetchKey(lib: Lib, x: Machine, i: nat, keyId: byte, seed: nat)
    requires TableInv(lib, x) && i < |x.calls| && x.calls[i].phase.Checked?
    ensures TableInv(lib, ApplyFetchKey(x, i, keyId, seed)) && Grows(x.m, ApplyFetchKey(x, i, keyId, seed).m)
  {
    var y := ApplyFetchKey(x, i, keyId, seed);
    forall id | id in y.m.sessions ensures SessionStored(lib, y.m, y.m.sessions[id]) {
      assert SessionStored(lib, x.m, x.m.sessions[id]);
    }
  }

  lemma TableInvStart(lib: Lib, x: Machine, i: nat, commit: bool)
    requires TableInv(lib, x) && Waiting(x, i) && x.calls[i].call.Start?
    ensures TableInv(lib, ApplyStart(lib, x, i, commit)) && Grows(x.m, ApplyStart(lib, x, i, commit).m)
  {
    StoreInvStart(lib, x.m, x.calls[i].call.startId, x.calls[i].call.taskEncoded, commit);
  }

  /** Over every run of any requests: each live session's tasks are durably stored with matching
      entries, each live session's keypair is the keyring's own at its configuration id, and
      neither stored tasks nor keyring entries ever change once written. */
  lemma {:induction false} TableSafety(lib: Lib, x: Machine, steps: seq<Step>)
    requires Booted(x)
    ensures TableInv(lib, Run(lib, x, steps)) && Grows(x.m, Run(lib, x, steps).m)
    ensures |Run(lib, x, steps).m.keyring| <= 256
    decreases |steps|
  {
    if steps == [] {
    } else {
      TableSafety(lib, x, steps[..|steps| - 1]);
      TableInvStep(lib, Run(lib, x, steps[..|steps| - 1]), steps[|steps| - 1]);
    }
    KeyringBounded(Run(lib, x, steps).m.keyring);
  }

  /** Entries written by one point of a run are still the same at every later point. */
  lemma {:induction false} EntriesNeverChange(lib: Lib, x: Machine, early: seq<Step>, late: seq<Step>)
    requires Booted(x)
    ensures Grows(Run(lib, x, early).m, Run(lib, x, early + late).m)
    decreases |late|
  {
    if late == [] {
      assert early + late == early;
    } else {
      var steps := early + late;
      var init := late[..|late| - 1];
      assert steps[..|steps| - 1] == early + init;
      EntriesNeverChange(lib, x, early, init);
      TableSafety(lib, x, early + init);
      TableInvStep(lib, Run(lib, x, early + init), steps[|steps| - 1]);
    }
  }

  lemma KeyringBounded(keyring: Keyring)
    ensures |keyring| <= 256
  {
    BytesBelow(keyring.Keys, 256);
  }

  lemma {:induction false} BytesBelow(s: set<byte>, n: nat)
    requires forall b :: b in s ==> b < n
    ensures |s| <= n
  {
    if n == 0 {
      assert s == {};
    } else if n - 1 < 256 && n - 1 in s {
      BytesBelow(s - {n - 1}, n - 1);
    } else {
      BytesBelow(s, n - 1);
    }
  }

  // ---------------------------------------------------------------- orderly schedules

  /** The id an unfinished create is going to insert. */
  function Carried(r: Request): (id: Option<SessionId>)
  {
    match r.phase
    case Checked(id, _) => Some(id)
    case Keyed(id, _) => Some(id)
    case _ => None
  }

  /** Creates in flight carry different ids, and a drawn id is not in use. */
  predicate OrderlyStep(lib: Lib, x: Machine, step: Step)
  {
    step.Check? && Waiting(x, step.i) && x.calls[step.i].call.Create? ==>
      match CheckRequest(lib, x.m.sessions, x.calls[step.i].call.req, step.drawn)
      case Err => true
      case Ok((id, _)) => id !in x.m.sessions && forall j :: 0 <= j < |x.calls| ==> Carried(x.calls[j]) != Some(id)
  }

  ghost predicate OrderlyRun(lib: Lib, x: Machine, steps: seq<Step>)
    decreases |steps|
  {
    steps == []
    || (OrderlyRun(lib, x, steps[..|steps| - 1])
        && OrderlyStep(lib, Run(lib, x, steps[..|steps| - 1]), steps[|steps| - 1]))
  }

  ghost predicate InFlightInv(x: Machine)
  {
    && (forall i :: 0 <= i < |x.calls| && Carried(x.calls[i]).Some? ==> Carried(x.calls[i]).value !in x.m.sessions)
    && (forall i, j :: 0 <= i < j < |x.calls| && Carried(x.calls[i]).Some?
          ==> Carried(x.calls[i]) != Carried(x.calls[j]))
  }

  lemma InFlightInvStep(lib: Lib, x: Machine, step: Step)
    requires InFlightInv(x) && OrderlyStep(lib, x, step)
    ensures InFlightInv(Apply(lib, x, step))
  {
  }

  // ---------------------------------------------------------------- conservation

  function CountCreated(calls: seq<Request>): (n: nat)
  {
    if calls == [] then 0
    else CountCreated(calls[..|calls| - 1])
         + if calls[|calls| - 1].phase.Done? && calls[|calls| - 1].phase.reply.Created? then 1 else 0
  }

  function CountEnded(calls: seq<Request>): (n: nat)
  {
    if calls == [] then 0
    else CountEnded(calls[..|calls| - 1])
         + if calls[|calls| - 1].call.End? && calls[|calls| - 1].phase == Done(Accepted) then 1 else 0
  }

  lemma {:induction false} CountUpdate(calls: seq<Request>, i: nat, r: Request)
    requires i < |calls|
    ensures CountCreated(calls[i := r]) == CountCreated(calls) - CountCreated([calls[i]]) + CountCreated([r])
    ensures CountEnded(calls[i := r]) == CountEnded(calls) - CountEnded([calls[i]]) + CountEnded([r])
    decreases |calls|
  {
    var last := |calls| - 1;
    CountOne(r);
    CountOne(calls[i]);
    if i < last {
      CountUpdate(calls[..last], i, r);
      assert calls[i := r][..last] == calls[..last][i := r];
    } else {
      assert calls[i := r][..last] == calls[..last];
    }
  }

  lemma CountOne(r: Request)
    ensures CountCreated([r]) == if r.phase.Done? && r.phase.reply.Created? then 1 else 0
    ensures CountEnded([r]) == if r.call.End? && r.phase == Done(Accepted) then 1 else 0
  {
    assert [r][..0] == [];
  }

  predicate Balanced(x: Machine)
  {
    |x.m.sessions| == CountCreated(x.calls) - CountEnded(x.calls)
  }

  /** Whether a step inserts a session, or ends one. */
  predicate Inserts(lib: Lib, x: Machine, step: Step)
  {
    step.Insert? && Apply(lib, x, step) != x
  }

  predicate Ends(lib: Lib, x: Machine, step: Step)
  {
    && step.RunEnd? && step.i < |x.calls| && x.calls[step.i].phase != Done(Accepted)
    && Apply(lib, x, step).calls[step.i].phase == Done(Accepted)
  }

  lemma CountsChange(lib: Lib, x: Machine, step: Step)
    ensures var y := Apply(lib, x, step);
            && CountCreated(y.calls) == CountCreated(x.calls) + (if Inserts(lib, x, step) then 1 else 0)
            && CountEnded(y.calls) == CountEnded(x.calls) + (if Ends(lib, x, step) then 1 else 0)
  {
    var y := Apply(lib, x, step);
    if step.Arrive? {
      assert y.calls[..|y.calls| - 1] == x.calls;
    } else if step.i < |x.calls| {
      var i := step.i;
      CountUpdate(x.calls, i, y.calls[i]);
      CountOne(x.calls[i]);
      CountOne(y.calls[i]);
      assert y.calls == x.calls[i := y.calls[i]];
    }
  }

  /** How one step moves the number of live sessions. */
  lemma SessionsChange(lib: Lib, x: Machine, step: Step)
    requires InFlightInv(x)
    ensures |Apply(lib, x, step).m.sessions| == |x.m.sessions| + (if Inserts(lib, x, step) then 1 else 0)
                                                               - (if Ends(lib, x, step) then 1 else 0)
  {
    var y := Apply(lib, x, step);
    match step
    case Insert(i) =>
      if y != x {
        var id := x.calls[i].phase.keyedId;
        assert Carried(x.calls[i]) == Some(id);
        assert y.m.sessions.Keys == x.m.sessions.Keys + {id};
      }
    case RunEnd(i) =>
      if y.m.sessions != x.m.sessions {
        assert y.m.sessions.Keys == x.m.sessions.Keys - {x.calls[i].call.endId};
      }
    case RunStart(i, _) => assert y.m.sessions.Keys == x.m.sessions.Keys;
    case _ =>
  }

  lemma BalancedStep(lib: Lib, x: Machine, step: Step)
    requires InFlightInv(x) && Balanced(x)
    ensures Balanced(Apply(lib, x, step))
  {
    CountsChange(lib, x, step);
    SessionsChange(lib, x, step);
  }

  /** On every orderly run the live sessions number the successful creates minus the successful
      ends, whatever is still in flight. */
  lemma {:induction false} Conservation(lib: Lib, x: Machine, steps: seq<Step>)
    requires Booted(x) && OrderlyRun(lib, x, steps)
    ensures InFlightInv(Run(lib, x, steps)) && Balanced(Run(lib, x, steps))
    decreases |steps|
  {
    if steps == [] {
    } else {
      var init := steps[..|steps| - 1];
      Conservation(lib, x, init);
      InFlightInvStep(lib, Run(lib, x, init), steps[|steps| - 1]);
      BalancedStep(lib, Run(lib, x, init), steps[|steps| - 1]);
    }
  }
}
