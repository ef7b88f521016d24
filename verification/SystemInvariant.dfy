/** The invariant of the whole system along runs whose drawn ids do not repeat. */
module SystemInvariant {
  import opened Wrappers
  import opened Base64Url
  import opened FixedPoint
  import opened Vdaf
  import opened Handlers
  import opened Sections
  import opened System
  import opened ManagerAgreement

  // ---------------------------------------------------------------- the invariant

  function Cfgs(w: World): (cfgs: seq<ControllerConfig>)
    ensures |cfgs| == |w.controllers|
  {
    seq(|w.controllers|, c requires 0 <= c < |w.controllers| => w.controllers[c].cfg)
  }

  /** Controller `c` had `id` drawn, and both managers inserted it. */
  predicate Owned(w: World, c: nat, id: SessionId)
  {
    id in w.h.born && w.h.born[id].from == c && id in w.leader.created && id in w.helper.created
  }

  predicate OwnedTask(w: World, c: nat, t: TaskId)
  {
    && t in w.h.drawn && w.h.drawn[t] in w.h.born && w.h.born[w.h.drawn[t]].from == c
    && t in w.leader.m.store && t in w.helper.m.store
  }

  /** A round was requested; once accepted it stands behind every acknowledged round. */
  ghost predicate StartSent(x: Machine, h: History, i: nat, id: SessionId, t: TaskId)
  {
    && i < |x.calls| && x.calls[i].call == Start(id, TaskIdToString(t))
    && (x.calls[i].phase == Done(Accepted) && id in x.m.sessions ==>
          IsSubseq(AckedOf(h, id) + [t], x.m.sessions[id].tasks))
  }

  ghost predicate DriverInv(w: World, c: nat)
    requires c < |w.controllers|
  {
    var ctl := w.controllers[c];
    match ctl.driver
    case Idle => true
    case CreatingLeader(key, lrid) =>
      && lrid < |w.leader.calls| && w.leader.calls[lrid].from == c
      && w.leader.calls[lrid].call == Create(CreateRequest(None, Leader, MakeTerms(ctl.cfg, key)))
      && (IdOf(w.leader.calls[lrid]).Some? ==> IdOf(w.leader.calls[lrid]).value !in w.h.asked)
    case CreatingHelper(id, hrid) =>
      && id in w.h.born && w.h.born[id].from == c && id in w.leader.created
      && hrid < |w.helper.calls| && w.helper.calls[hrid].call.Create? && w.helper.calls[hrid].call.req.id == Some(id)
    case EndingLeader(id, _) => Owned(w, c, id) && id in w.h.endAsked
    case EndingHelper(id, _, _) => Owned(w, c, id)
    case StartingLeader(id, t, lrid) =>
      Owned(w, c, id) && t in w.h.drawn && w.h.drawn[t] == id && StartSent(w.leader, w.h, lrid, id, t)
    case StartingHelper(id, t, lrid, hrid) =>
      && Owned(w, c, id) && t in w.h.drawn && w.h.drawn[t] == id
      && StartSent(w.leader, w.h, lrid, id, t) && StartSent(w.helper, w.h, hrid, id, t)
  }

  ghost predicate ControllerInv(w: World, c: nat)
    requires c < |w.controllers|
  {
    && (w.controllers[c].sessionId.Some? ==> Owned(w, c, w.controllers[c].sessionId.value))
    && (w.controllers[c].taskId.Some? ==> OwnedTask(w, c, w.controllers[c].taskId.value))
    && DriverInv(w, c)
  }

  predicate ClientInv(w: World, cl: Client)
  {
    && (cl.asking != NotAsking ==> w.leader.m.config.main == w.helper.m.config.main)
    && (match cl.asking
        case NotAsking => true
        case AskingLeader(t, lrid) => lrid < |w.leader.calls| && w.leader.calls[lrid].call == Query(TaskIdToString(t))
        case AskingHelper(t, p, _) => DrawnFor(w.h, t, p))
    && (cl.state.ValidState? ==>
          DrawnFor(w.h, cl.state.first, cl.state.cached)
          && cl.state.main == w.leader.m.config.main == w.helper.m.config.main)
  }

  predicate UploadInv(w: World, u: Upload)
  {
    && u.first in w.h.drawn && w.h.drawn[u.first] in w.h.born
    && MayUpload(w.h.born[w.h.drawn[u.first]].terms.vdaf, u.data)
  }

  /** Ids are born to existing controllers, for the terms these would send; helpers are only asked
      for born ids, and task ids are only drawn for them. */
  ghost predicate BirthsInv(cfgs: seq<ControllerConfig>, h: History)
  {
    && (forall id :: id in h.born ==> BirthOk(cfgs, h.born[id]))
    && h.asked <= h.born.Keys
    && (forall t :: t in h.drawn ==> h.drawn[t] in h.born)
  }

  predicate BirthOk(cfgs: seq<ControllerConfig>, b: Birth)
  {
    b.from < |cfgs| && b.terms == MakeTerms(cfgs[b.from], b.terms.verifyKeyEncoded)
  }

  ghost predicate HistoryInv(w: World)
  {
    BirthsInv(Cfgs(w), w.h) && AckedOk(w.leader, w.helper, w.h)
  }

  ghost predicate AckedOk(leader: Machine, helper: Machine, h: History)
  {
    forall id :: id in h.acked ==> AckedSound(leader, helper, h, id)
  }

  ghost predicate AckedSound(leader: Machine, helper: Machine, h: History, id: SessionId)
  {
    id in h.acked ==>
      && id in leader.created && id in helper.created
      && forall t :: t in h.acked[id] ==> t in h.drawn && h.drawn[t] == id
  }

  /** Histories and created ids only grow, so what was acknowledged stays sound. */
  lemma HistoryInvMono(w: World, v: World)
    requires HistoryInv(w) && HistoryGrows(w.h, v.h) && Cfgs(v) == Cfgs(w) && v.h.acked == w.h.acked
    requires w.leader.created <= v.leader.created && w.helper.created <= v.helper.created
    requires BirthsInv(Cfgs(v), v.h)
    ensures HistoryInv(v)
  {
    forall id | id in v.h.acked ensures AckedSound(v.leader, v.helper, v.h, id) {
      assert AckedSound(w.leader, w.helper, w.h, id);
    }
  }

  /** Acknowledged rounds are a subsequence of a live session's tasks. */
  ghost predicate AckInv(x: Machine, h: History)
  {
    forall id :: id in x.m.sessions ==> IsSubseq(AckedOf(h, id), x.m.sessions[id].tasks)
  }

  ghost predicate ManagersInv(lib: Lib, w: World)
  {
    && MachineInv(lib, Cfgs(w), LeaderSide, w.leader, w.h) && MachineInv(lib, Cfgs(w), HelperSide, w.helper, w.h)
    && HistoryInv(w)
    && AckInv(w.leader, w.h) && AckInv(w.helper, w.h)
  }

  ghost predicate SystemInv(lib: Lib, w: World)
  {
    && ManagersInv(lib, w)
    && (forall c :: 0 <= c < |w.controllers| ==> ControllerInv(w, c))
    && (forall k :: 0 <= k < |w.clients| ==> ClientInv(w, w.clients[k]))
    && (forall i :: 0 <= i < |w.uploads| ==> UploadInv(w, w.uploads[i]))
  }

  lemma InitialInv(lib: Lib, w: World)
    requires Initial(w)
    ensures SystemInv(lib, w)
  {
  }

  // ---------------------------------------------------------------- one mutex section of a manager

  /** A requested round that is accepted is appended, so it follows what was acknowledged. */
  lemma StartSentKept(lib: Lib, cfgs: seq<ControllerConfig>, side: Side, x: Machine, h: History, s: Step, i: nat,
                      id: SessionId, t: TaskId)
    requires MachineInv(lib, cfgs, side, x, h) && AckInv(x, h) && StartSent(x, h, i, id, t) && id in x.created
    requires !s.Arrive?
    ensures StartSent(Apply(lib, x, s), h, i, id, t)
  {
    if s.RunStart? {
      if Waiting(x, s.i) && x.calls[s.i].call.Start? { StartSentPush(lib, x, h, s.i, s.commit, i, id, t); }
    } else {
      SessionsElsewhere(lib, cfgs, side, x, h, s, id);
    }
  }

  /** Only starting a round changes the tasks of a session that was already created. */
  lemma SessionsElsewhere(lib: Lib, cfgs: seq<ControllerConfig>, side: Side, x: Machine, h: History, s: Step,
                          id: SessionId)
    requires MachineInv(lib, cfgs, side, x, h) && id in x.created && !s.RunStart? && !s.Arrive?
    ensures var y := Apply(lib, x, s);
            && (id in y.m.sessions ==> id in x.m.sessions && y.m.sessions[id] == x.m.sessions[id])
            && |y.calls| == |x.calls|
            && forall i :: 0 <= i < |x.calls| && x.calls[i].call.Start? ==> y.calls[i] == x.calls[i]
  {
    if s.Insert? && s.i < |x.calls| && x.calls[s.i].phase.Keyed? { InsertKeeps(lib, cfgs, side, x, h, s.i); }
    RoundsElsewhere(lib, cfgs, side, x, h, s);
  }

  lemma RoundsElsewhere(lib: Lib, cfgs: seq<ControllerConfig>, side: Side, x: Machine, h: History, s: Step)
    requires CallsInv(lib, cfgs, side, x, h) && !s.RunStart? && !s.Arrive?
    ensures var y := Apply(lib, x, s);
            && |y.calls| == |x.calls|
            && forall i :: 0 <= i < |x.calls| && x.calls[i].call.Start? ==> y.calls[i] == x.calls[i]
  {
    forall i | 0 <= i < |x.calls| && x.calls[i].call.Start? ensures Apply(lib, x, s).calls[i] == x.calls[i] {
      assert CallInv(lib, cfgs, side, x, x.calls[i], h);
    }
  }

  lemma StartSentPush(lib: Lib, x: Machine, h: History, j: nat, commit: bool, i: nat, id: SessionId, t: TaskId)
    requires AckInv(x, h) && StartSent(x, h, i, id, t) && Waiting(x, j) && x.calls[j].call.Start?
    ensures StartSent(ApplyStart(lib, x, j, commit), h, i, id, t)
  {
    if x.calls[j].call.startId == id && id in x.m.sessions { PushKept(lib, x, h, j, commit, id, t); }
  }

  lemma PushKept(lib: Lib, x: Machine, h: History, j: nat, commit: bool, id: SessionId, t: TaskId)
    requires Waiting(x, j) && x.calls[j].call.Start? && x.calls[j].call.startId == id && id in x.m.sessions
    requires IsSubseq(AckedOf(h, id), x.m.sessions[id].tasks)
    ensures var y := ApplyStart(lib, x, j, commit);
            && id in y.m.sessions
            && IsSubseq(AckedOf(h, id), y.m.sessions[id].tasks)
            && (IsSubseq(AckedOf(h, id) + [t], x.m.sessions[id].tasks) ==>
                  IsSubseq(AckedOf(h, id) + [t], y.m.sessions[id].tasks))
            && (y.calls[j].phase == Done(Accepted) && x.calls[j].call.taskEncoded == TaskIdToString(t) ==>
                  IsSubseq(AckedOf(h, id) + [t], y.m.sessions[id].tasks))
  {
    TaskIdBijection(t, TaskIdToString(t));
    var y := ApplyStart(lib, x, j, commit);
    if y.calls[j].phase == Done(Accepted) {
      var tasks := x.m.sessions[id].tasks;
      var pushed := TaskIdFromString(x.calls[j].call.taskEncoded).value;
      assert y.m.sessions[id].tasks == tasks + [pushed];
      SubseqPush(AckedOf(h, id), tasks, pushed);
      if IsSubseq(AckedOf(h, id) + [t], tasks) { SubseqPush(AckedOf(h, id) + [t], tasks, pushed); }
    }
  }

  lemma AckInvKept(lib: Lib, cfgs: seq<ControllerConfig>, side: Side, x: Machine, h: History, s: Step)
    requires MachineInv(lib, cfgs, side, x, h) && AckInv(x, h) && !s.Arrive?
    requires forall id :: id in h.acked ==> id in x.created
    ensures AckInv(Apply(lib, x, s), h)
  {
    var y := Apply(lib, x, s);
    forall id | id in y.m.sessions ensures IsSubseq(AckedOf(h, id), y.m.sessions[id].tasks) {
      if id !in x.created {
        assert AckedOf(h, id) == [];
      } else if s.RunStart? {
        if Waiting(x, s.i) && x.calls[s.i].call.Start? { AckInvPush(lib, x, h, s.i, s.commit, id); }
      } else {
        SessionsElsewhere(lib, cfgs, side, x, h, s, id);
      }
    }
  }

  lemma AckInvPush(lib: Lib, x: Machine, h: History, j: nat, commit: bool, id: SessionId)
    requires AckInv(x, h) && Waiting(x, j) && x.calls[j].call.Start?
    ensures var y := ApplyStart(lib, x, j, commit);
            id in y.m.sessions ==> IsSubseq(AckedOf(h, id), y.m.sessions[id].tasks)
  {
    if x.calls[j].call.startId == id && id in x.m.sessions { PushKept(lib, x, h, j, commit, id, seq(32, _ => 0)); }
  }

  lemma SectionKeeps(lib: Lib, cfgs: seq<ControllerConfig>, side: Side, x: Machine, h: History, s: Step)
    requires MachineInv(lib, cfgs, side, x, h) && !s.Arrive? && !s.Check?
    ensures MachineInv(lib, cfgs, side, Apply(lib, x, s), h)
  {
    match s
    case FetchKey(i, keyId, seed) =>
      if i < |x.calls| && x.calls[i].phase.Checked? { FetchKeyKeeps(lib, cfgs, side, x, h, i, keyId, seed); }
    case Insert(i) => if i < |x.calls| && x.calls[i].phase.Keyed? { InsertKeeps(lib, cfgs, side, x, h, i); }
    case RunStart(i, commit) =>
      if Waiting(x, i) && x.calls[i].call.Start? { StartKeeps(lib, cfgs, side, x, h, i, commit); }
    case RunEnd(i) => if Waiting(x, i) && x.calls[i].call.End? { EndKeeps(lib, cfgs, side, x, h, i); }
    case RunQuery(i) => if Waiting(x, i) && x.calls[i].call.Query? { QueryKeeps(lib, cfgs, side, x, h, i); }
  }

  /** Steps only add: requests keep their text, answers stay, ids and stored tasks accumulate. */
  predicate Evolves(x: Machine, y: Machine)
  {
    && |x.calls| <= |y.calls|
    && (forall i :: 0 <= i < |x.calls| ==> y.calls[i].from == x.calls[i].from && y.calls[i].call == x.calls[i].call)
    && x.created <= y.created && x.m.store.Keys <= y.m.store.Keys
    && x.m.config == y.m.config
  }

  lemma ApplyEvolves(lib: Lib, x: Machine, s: Step)
    ensures Evolves(x, Apply(lib, x, s))
  {
  }

  lemma HandleKeepsManagers(lib: Lib, w: World, side: Side, s: Step)
    requires ManagersInv(lib, w) && !s.Arrive? && FreshStep(w, Handle(side, s))
    ensures var v := HandleStep(lib, w, side, s);
            && MachineInv(lib, Cfgs(w), LeaderSide, v.leader, v.h)
            && MachineInv(lib, Cfgs(w), HelperSide, v.helper, v.h)
            && HistoryGrows(w.h, v.h) && HistoryInv(v)
  {
    if side == LeaderSide { LeaderSectionKeeps(lib, w, s); } else { HelperSectionKeeps(lib, w, s); }
  }

  lemma HelperSectionKeeps(lib: Lib, w: World, s: Step)
    requires ManagersInv(lib, w) && !s.Arrive?
    ensures var v := HandleStep(lib, w, HelperSide, s);
            MachineInv(lib, Cfgs(w), HelperSide, v.helper, w.h) && HistoryInv(v)
  {
    var v := HandleStep(lib, w, HelperSide, s);
    ApplyEvolves(lib, w.helper, s);
    assert Cfgs(v) == Cfgs(w);
    HistoryInvMono(w, v);
    if !s.Check? {
      SectionKeeps(lib, Cfgs(w), HelperSide, w.helper, w.h, s);
    } else if Waiting(w.helper, s.i) && w.helper.calls[s.i].call.Create? {
      CheckKeeps(lib, Cfgs(w), HelperSide, w.helper, w.h, s.i, s.drawn);
    }
  }

  lemma LeaderSectionKeeps(lib: Lib, w: World, s: Step)
    requires ManagersInv(lib, w) && !s.Arrive? && FreshStep(w, Handle(LeaderSide, s))
    ensures var v := HandleStep(lib, w, LeaderSide, s);
            && MachineInv(lib, Cfgs(w), LeaderSide, v.leader, v.h)
            && MachineInv(lib, Cfgs(w), HelperSide, v.helper, v.h)
            && HistoryGrows(w.h, v.h) && HistoryInv(v)
  {
    var v := HandleStep(lib, w, LeaderSide, s);
    if !s.Check? {
      ApplyEvolves(lib, w.leader, s);
      assert Cfgs(v) == Cfgs(w);
      HistoryInvMono(w, v);
      SectionKeeps(lib, Cfgs(w), LeaderSide, w.leader, w.h, s);
    } else if Waiting(w.leader, s.i) && w.leader.calls[s.i].call.Create? {
      BirthKeeps(lib, w, s.i, s.drawn);
    }
  }

  /** The leader draws a new id: it is unknown everywhere, so nothing about old ids changes. */
  lemma BirthKeeps(lib: Lib, w: World, i: nat, drawn: SessionId)
    requires ManagersInv(lib, w) && drawn !in w.h.born && Waiting(w.leader, i) && w.leader.calls[i].call.Create?
    ensures var v := HandleStep(lib, w, LeaderSide, Check(i, drawn));
            && MachineInv(lib, Cfgs(w), LeaderSide, v.leader, v.h)
            && MachineInv(lib, Cfgs(w), HelperSide, v.helper, v.h)
            && HistoryGrows(w.h, v.h) && HistoryInv(v)
  {
    var v := HandleStep(lib, w, LeaderSide, Check(i, drawn));
    BirthRecorded(lib, w, i, drawn);
    BirthHistory(lib, w, i, drawn);
    MachineInvMono(lib, Cfgs(w), LeaderSide, w.leader, w.h, v.h);
    MachineInvMono(lib, Cfgs(w), HelperSide, w.helper, w.h, v.h);
    CheckKeeps(lib, Cfgs(w), LeaderSide, w.leader, v.h, i, drawn);
  }

  /** A passed check at the leader records the birth of the drawn id, which no request had. */
  lemma BirthRecorded(lib: Lib, w: World, i: nat, drawn: SessionId)
    requires ManagersInv(lib, w) && drawn !in w.h.born && Waiting(w.leader, i) && w.leader.calls[i].call.Create?
    ensures var v := HandleStep(lib, w, LeaderSide, Check(i, drawn));
            && (if v.leader.calls[i].phase.Checked?
                then v.h == w.h.(born := w.h.born[drawn := Birth(w.leader.calls[i].from,
                                                                 w.leader.calls[i].call.req.terms)])
                else v.h == w.h)
            && (IdOf(v.leader.calls[i]).Some? ==> IdOf(v.leader.calls[i]).value == drawn)
            && v.controllers == w.controllers && v.leader.created == w.leader.created && v.helper == w.helper
    ensures forall j :: 0 <= j < |w.leader.calls| ==> IdOf(w.leader.calls[j]) != Some(drawn)
    ensures drawn !in w.leader.created
  {
    assert CallInv(lib, Cfgs(w), LeaderSide, w.leader, w.leader.calls[i], w.h);
    forall j | 0 <= j < |w.leader.calls| ensures IdOf(w.leader.calls[j]) != Some(drawn) {
      assert CallInv(lib, Cfgs(w), LeaderSide, w.leader, w.leader.calls[j], w.h);
    }
  }

  lemma BirthHistory(lib: Lib, w: World, i: nat, drawn: SessionId)
    requires ManagersInv(lib, w) && drawn !in w.h.born && Waiting(w.leader, i) && w.leader.calls[i].call.Create?
    ensures var v := HandleStep(lib, w, LeaderSide, Check(i, drawn));
            HistoryGrows(w.h, v.h) && HistoryInv(v)
  {
    var v := HandleStep(lib, w, LeaderSide, Check(i, drawn));
    BirthRecorded(lib, w, i, drawn);
    assert CallInv(lib, Cfgs(w), LeaderSide, w.leader, w.leader.calls[i], w.h);
    assert Cfgs(v) == Cfgs(w);
    HistoryInvMono(w, v);
  }

  /** A helper section leaves leader and history alone. */
  lemma HelperKeepsDriver(lib: Lib, w: World, s: Step, c: nat)
    requires ManagersInv(lib, w) && !s.Arrive? && c < |w.controllers| && ControllerInv(w, c)
    ensures ControllerInv(HandleStep(lib, w, HelperSide, s), c)
  {
    ApplyEvolves(lib, w.helper, s);
    var d := w.controllers[c].driver;
    if d.StartingHelper? { StartSentKept(lib, Cfgs(w), HelperSide, w.helper, w.h, s, d.hrid, d.id, d.task); }
  }

  /** A leader section leaves the helper alone, and can only add a birth. */
  lemma LeaderKeepsDriver(lib: Lib, w: World, s: Step, c: nat)
    requires ManagersInv(lib, w) && !s.Arrive? && FreshStep(w, Handle(LeaderSide, s)) && c < |w.controllers|
    requires ControllerInv(w, c)
    ensures ControllerInv(HandleStep(lib, w, LeaderSide, s), c)
  {
    var v := HandleStep(lib, w, LeaderSide, s);
    ApplyEvolves(lib, w.leader, s);
    LeaderHistory(lib, w, s);
    match w.controllers[c].driver
    case CreatingLeader(key, lrid) => AskedStaysNew(lib, w, s, lrid);
    case StartingLeader(id, t, lrid) =>
      StartSentKept(lib, Cfgs(w), LeaderSide, w.leader, w.h, s, lrid, id, t);
      SameAcks(v.leader, w.h, v.h, lrid, id, t);
    case StartingHelper(id, t, lrid, hrid) =>
      StartSentKept(lib, Cfgs(w), LeaderSide, w.leader, w.h, s, lrid, id, t);
      SameAcks(v.leader, w.h, v.h, lrid, id, t);
      SameAcks(v.helper, w.h, v.h, hrid, id, t);
    case _ =>
  }

  /** A leader section changes no history but births, and those only by adding. */
  lemma LeaderHistory(lib: Lib, w: World, s: Step)
    requires ManagersInv(lib, w) && !s.Arrive? && FreshStep(w, Handle(LeaderSide, s))
    ensures var v := HandleStep(lib, w, LeaderSide, s);
            && v.h == w.h.(born := v.h.born)
            && (forall id :: id in w.h.born ==> id in v.h.born && v.h.born[id] == w.h.born[id])
  {
    if s.Check? && Waiting(w.leader, s.i) && w.leader.calls[s.i].call.Create? { BirthRecorded(lib, w, s.i, s.drawn); }
  }

  lemma SameAcks(x: Machine, g: History, h: History, i: nat, id: SessionId, t: TaskId)
    requires StartSent(x, g, i, id, t) && h.acked == g.acked
    ensures StartSent(x, h, i, id, t)
  {
  }

  lemma AskedStaysNew(lib: Lib, w: World, s: Step, lrid: nat)
    requires ManagersInv(lib, w) && !s.Arrive? && FreshStep(w, Handle(LeaderSide, s)) && lrid < |w.leader.calls|
    requires IdOf(w.leader.calls[lrid]).Some? ==> IdOf(w.leader.calls[lrid]).value !in w.h.asked
    ensures var y := Apply(lib, w.leader, s);
            lrid < |y.calls| && (IdOf(y.calls[lrid]).Some? ==> IdOf(y.calls[lrid]).value !in w.h.asked)
  {
    var r := w.leader.calls[lrid];
    assert CallInv(lib, Cfgs(w), LeaderSide, w.leader, r, w.h);
    if s.Check? {
      if s.i == lrid && Waiting(w.leader, s.i) && r.call.Create? { BirthRecorded(lib, w, s.i, s.drawn); }
    } else {
      IdStays(lib, Cfgs(w), w.leader, w.h, s, lrid);
    }
  }

  lemma IdStays(lib: Lib, cfgs: seq<ControllerConfig>, x: Machine, h: History, s: Step, i: nat)
    requires i < |x.calls| && CallInv(lib, cfgs, LeaderSide, x, x.calls[i], h) && !s.Arrive? && !s.Check?
    ensures i < |Apply(lib, x, s).calls| && IdOf(Apply(lib, x, s).calls[i]) == IdOf(x.calls[i])
  {
  }

  lemma HandleKeeps(lib: Lib, w: World, side: Side, s: Step)
    requires SystemInv(lib, w) && !s.Arrive? && FreshStep(w, Handle(side, s))
    ensures SystemInv(lib, HandleStep(lib, w, side, s))
  {
    var v := HandleStep(lib, w, side, s);
    assert Cfgs(v) == Cfgs(w);
    HandleKeepsManagers(lib, w, side, s);
    HandleKeepsAcks(lib, w, side, s);
    forall c | 0 <= c < |v.controllers| ensures ControllerInv(v, c) {
      assert ControllerInv(w, c);
      if side == LeaderSide { LeaderKeepsDriver(lib, w, s, c); } else { HelperKeepsDriver(lib, w, s, c); }
    }
    AudienceKeeps(lib, w, v);
  }

  lemma HandleKeepsAcks(lib: Lib, w: World, side: Side, s: Step)
    requires ManagersInv(lib, w) && !s.Arrive?
    ensures var v := HandleStep(lib, w, side, s);
            && AckInv(v.leader, v.h) && AckInv(v.helper, v.h)
            && Evolves(w.leader, v.leader) && Evolves(w.helper, v.helper)
  {
    ApplyEvolves(lib, w.leader, s);
    ApplyEvolves(lib, w.helper, s);
    AckInvKept(lib, Cfgs(w), LeaderSide, w.leader, w.h, s);
    AckInvKept(lib, Cfgs(w), HelperSide, w.helper, w.h, s);
  }

  /** Clients and uploads depend on the history, the configurations and the text of requests only. */
  lemma AudienceKeeps(lib: Lib, w: World, v: World)
    requires SystemInv(lib, w) && HistoryGrows(w.h, v.h) && v.clients == w.clients && v.uploads == w.uploads
    requires Evolves(w.leader, v.leader) && Evolves(w.helper, v.helper)
    ensures forall k :: 0 <= k < |v.clients| ==> ClientInv(v, v.clients[k])
    ensures forall i :: 0 <= i < |v.uploads| ==> UploadInv(v, v.uploads[i])
  {
    forall k | 0 <= k < |v.clients| ensures ClientInv(v, v.clients[k]) { assert ClientInv(w, w.clients[k]); }
    forall i | 0 <= i < |v.uploads| ensures UploadInv(v, v.uploads[i]) { assert UploadInv(w, w.uploads[i]); }
  }

  // ---------------------------------------------------------------- controllers

  /** Requests may be added, nothing else about a manager moves. */
  predicate Quiet(x: Machine, y: Machine)
  {
    y.m == x.m && y.created == x.created && y.ended == x.ended && x.calls <= y.calls
  }

  /** Everything a step of controller `c` leaves alone; it is nobody's step if there is no such
      controller. */
  ghost predicate StepOf(w: World, v: World, c: nat)
  {
    && |w.controllers| == |v.controllers|
    && Quiet(w.leader, v.leader) && Quiet(w.helper, v.helper) && HistoryGrows(w.h, v.h)
    && v.clients == w.clients && v.uploads == w.uploads
    && (forall b :: 0 <= b < |w.controllers| && b != c ==> v.controllers[b] == w.controllers[b])
    && (c < |w.controllers| ==> v.controllers[c].cfg == w.controllers[c].cfg)
    && (forall id :: AckedOf(v.h, id) == AckedOf(w.h, id) || (id in w.h.born && w.h.born[id].from == c))
    && (forall b, id :: 0 <= b < |w.controllers| && b != c && id in v.h.asked && id !in w.h.asked ==>
          AwaitedId(w, b) != Some(id))
  }

  /** What a controller step does to everyone but the controller that takes it. */
  lemma BystandersKeep(lib: Lib, w: World, v: World, c: nat)
    requires SystemInv(lib, w) && StepOf(w, v, c)
    requires MachineInv(lib, Cfgs(w), LeaderSide, v.leader, v.h) && MachineInv(lib, Cfgs(w), HelperSide, v.helper, v.h)
    requires v.h.acked != w.h.acked ==>
               AckedOk(v.leader, v.helper, v.h) && AckInv(v.leader, v.h) && AckInv(v.helper, v.h)
    requires BirthsInv(Cfgs(w), v.h)
    requires c < |w.controllers| ==> ControllerInv(v, c)
    ensures SystemInv(lib, v)
  {
    assert Cfgs(v) == Cfgs(w);
    BystandingHistory(w, v, c);
    forall b | 0 <= b < |v.controllers| ensures ControllerInv(v, b) {
      if b != c {
        assert ControllerInv(w, b);
        BystanderKeeps(w, v, c, b);
      }
    }
    AudienceKeeps(lib, w, v);
  }

  lemma BystandingHistory(w: World, v: World, c: nat)
    requires HistoryInv(w) && AckInv(w.leader, w.h) && AckInv(w.helper, w.h)
    requires StepOf(w, v, c) && Cfgs(v) == Cfgs(w)
    requires v.h.acked != w.h.acked ==>
               AckedOk(v.leader, v.helper, v.h) && AckInv(v.leader, v.h) && AckInv(v.helper, v.h)
    requires BirthsInv(Cfgs(w), v.h)
    ensures HistoryInv(v) && AckInv(v.leader, v.h) && AckInv(v.helper, v.h)
  {
    if v.h.acked == w.h.acked { HistoryInvMono(w, v); }
  }

  lemma BystanderKeeps(w: World, v: World, c: nat, b: nat)
    requires StepOf(w, v, c) && b < |w.controllers| && b != c && ControllerInv(w, b)
    ensures ControllerInv(v, b)
  {
    assert v.controllers[b] == w.controllers[b];
    match w.controllers[b].driver
    case CreatingLeader(_, lrid) =>
      assert v.leader.calls[lrid] == w.leader.calls[lrid];
      assert AwaitedId(w, b) == IdOf(w.leader.calls[lrid]);
    case CreatingHelper(_, hrid) => assert v.helper.calls[hrid] == w.helper.calls[hrid];
    case StartingLeader(id, t, lrid) => QuietStartSent(w.leader, v.leader, w.h, v.h, lrid, id, t);
    case StartingHelper(id, t, lrid, hrid) =>
      QuietStartSent(w.leader, v.leader, w.h, v.h, lrid, id, t);
      QuietStartSent(w.helper, v.helper, w.h, v.h, hrid, id, t);
    case _ =>
  }

  lemma QuietStartSent(x: Machine, y: Machine, g: History, h: History, i: nat, id: SessionId, t: TaskId)
    requires Quiet(x, y) && StartSent(x, g, i, id, t) && AckedOf(h, id) == AckedOf(g, id)
    ensures StartSent(y, h, i, id, t)
  {
    assert y.calls[i] == x.calls[i];
  }

  /** The id the leader is creating for a controller that has not yet asked the helper. */
  function AwaitedId(w: World, b: nat): (id: Option<SessionId>)
    requires b < |w.controllers|
  {
    match w.controllers[b].driver
    case CreatingLeader(_, lrid) => if lrid < |w.leader.calls| then IdOf(w.leader.calls[lrid]) else None
    case _ => None
  }

  /** Nothing but controller `c` itself changes. */
  lemma OwnStepKeeps(lib: Lib, w: World, c: nat, ctl: Controller)
    requires SystemInv(lib, w) && c < |w.controllers| && ctl.cfg == w.controllers[c].cfg
    requires ControllerInv(SetController(w, c, ctl), c)
    ensures SystemInv(lib, SetController(w, c, ctl))
  {
    BystandersKeep(lib, w, SetController(w, c, ctl), c);
  }

  lemma BeginCreateKeeps(lib: Lib, w: World, c: nat, key: Bytes)
    requires SystemInv(lib, w) && c < |w.controllers|
    ensures SystemInv(lib, NextBeginCreate(w, c, key))
  {
    var v := NextBeginCreate(w, c, key);
    assert ControllerInv(w, c);
    SendKeeps(lib, Cfgs(w), LeaderSide, w.leader, w.h, c,
              Create(CreateRequest(None, Leader, MakeTerms(w.controllers[c].cfg, Encode(key)))));
    BystandersKeep(lib, w, v, c);
  }

  /** A round request names its task by the printed id, which the manager reads back. */
  lemma StartCallOk(lib: Lib, cfgs: seq<ControllerConfig>, side: Side, x: Machine, h: History, from: nat,
                    id: SessionId, t: TaskId)
    requires MachineInv(lib, cfgs, side, x, h) && t in h.drawn && h.drawn[t] == id
    ensures MachineInv(lib, cfgs, side, Send(x, from, Start(id, TaskIdToString(t))), h)
  {
    TaskIdBijection(t, TaskIdToString(t));
    SendKeeps(lib, cfgs, side, x, h, from, Start(id, TaskIdToString(t)));
  }

  lemma BeginStartKeeps(lib: Lib, w: World, c: nat, t: TaskId)
    requires SystemInv(lib, w) && c < |w.controllers| && w.controllers[c].sessionId.Some?
    requires FreshStep(w, BeginStart(c, t))
    ensures SystemInv(lib, NextBeginStart(w, c, t))
  {
    var v := NextBeginStart(w, c, t);
    assert ControllerInv(w, c);
    BeginStartStep(w, c, t);
    BeginStartOwn(w, c, t);
    assert && MachineInv(lib, Cfgs(w), LeaderSide, v.leader, v.h)
           && MachineInv(lib, Cfgs(w), HelperSide, v.helper, v.h) by {
      MachineInvMono(lib, Cfgs(w), LeaderSide, w.leader, w.h, v.h);
      MachineInvMono(lib, Cfgs(w), HelperSide, w.helper, w.h, v.h);
      StartCallOk(lib, Cfgs(w), LeaderSide, w.leader, v.h, c, w.controllers[c].sessionId.value, t);
    }
    BystandersKeep(lib, w, v, c);
  }

  lemma BeginStartStep(w: World, c: nat, t: TaskId)
    requires c < |w.controllers| && w.controllers[c].sessionId.Some? && t !in w.h.drawn
    ensures StepOf(w, NextBeginStart(w, c, t), c)
  {
  }

  lemma BeginStartOwn(w: World, c: nat, t: TaskId)
    requires c < |w.controllers| && w.controllers[c].sessionId.Some? && t !in w.h.drawn && ControllerInv(w, c)
    ensures ControllerInv(NextBeginStart(w, c, t), c)
  {
  }

  lemma BeginEndKeeps(lib: Lib, w: World, c: nat)
    requires SystemInv(lib, w) && c < |w.controllers| && w.controllers[c].sessionId.Some?
    ensures SystemInv(lib, NextBeginEnd(w, c))
  {
    var v := NextBeginEnd(w, c);
    assert ControllerInv(w, c);
    BeginEndDriver(w, c);
    assert && MachineInv(lib, Cfgs(w), LeaderSide, v.leader, v.h)
           && MachineInv(lib, Cfgs(w), HelperSide, v.helper, v.h) by {
      MachineInvMono(lib, Cfgs(w), LeaderSide, w.leader, w.h, v.h);
      MachineInvMono(lib, Cfgs(w), HelperSide, w.helper, w.h, v.h);
      SendKeeps(lib, Cfgs(w), LeaderSide, w.leader, v.h, c, End(w.controllers[c].sessionId.value));
    }
    BystandersKeep(lib, w, v, c);
  }

  lemma BeginEndDriver(w: World, c: nat)
    requires c < |w.controllers| && w.controllers[c].sessionId.Some? && ControllerInv(w, c)
    ensures StepOf(w, NextBeginEnd(w, c), c) && ControllerInv(NextBeginEnd(w, c), c)
  {
  }

  lemma AskHelperToCreateKeeps(lib: Lib, w: World, c: nat, id: SessionId)
    requires SystemInv(lib, w) && c < |w.controllers| && w.controllers[c].driver.CreatingLeader?
    requires AnswerOf(w.leader, w.controllers[c].driver.lrid) == Some(Created(id))
    ensures SystemInv(lib, AskHelperToCreate(w, c, w.controllers[c].driver.verifyKeyEncoded, id))
  {
    var key := w.controllers[c].driver.verifyKeyEncoded;
    var v := AskHelperToCreate(w, c, key, id);
    assert ControllerInv(w, c);
    CreatedIsNew(lib, w, c, id);
    AskedStep(w, c, key, id);
    AskedOwn(w, c, key, id);
    assert && MachineInv(lib, Cfgs(w), LeaderSide, v.leader, v.h)
           && MachineInv(lib, Cfgs(w), HelperSide, v.helper, v.h) by {
      MachineInvMono(lib, Cfgs(w), LeaderSide, w.leader, w.h, v.h);
      MachineInvMono(lib, Cfgs(w), HelperSide, w.helper, w.h, v.h);
      SendKeeps(lib, Cfgs(w), HelperSide, w.helper, v.h, c,
                Create(CreateRequest(Some(id), Helper, MakeTerms(w.controllers[c].cfg, key))));
    }
    BystandersKeep(lib, w, v, c);
  }

  lemma AskedStep(w: World, c: nat, key: string, id: SessionId)
    requires c < |w.controllers|
    requires forall b :: 0 <= b < |w.controllers| && b != c ==> AwaitedId(w, b) != Some(id)
    ensures StepOf(w, AskHelperToCreate(w, c, key, id), c)
  {
  }

  lemma AskedOwn(w: World, c: nat, key: string, id: SessionId)
    requires c < |w.controllers| && ControllerInv(w, c)
    requires id in w.h.born && w.h.born[id].from == c && id in w.leader.created
    ensures ControllerInv(AskHelperToCreate(w, c, key, id), c)
  {
  }

  /** The id a leader answers with belongs to the asking controller alone, and the helper has not
      heard of it. */
  lemma CreatedIsNew(lib: Lib, w: World, c: nat, id: SessionId)
    requires SystemInv(lib, w) && c < |w.controllers| && w.controllers[c].driver.CreatingLeader?
    requires AnswerOf(w.leader, w.controllers[c].driver.lrid) == Some(Created(id))
    ensures id !in w.h.asked && id !in w.helper.created && id in w.leader.created
    ensures var ctl := w.controllers[c];
            id in w.h.born && w.h.born[id] == Birth(c, MakeTerms(ctl.cfg, ctl.driver.verifyKeyEncoded))
    ensures forall j :: 0 <= j < |w.helper.calls| ==> IdOf(w.helper.calls[j]) != Some(id)
    ensures forall b :: 0 <= b < |w.controllers| && b != c ==> AwaitedId(w, b) != Some(id)
  {
    var lrid := w.controllers[c].driver.lrid;
    assert ControllerInv(w, c);
    assert CallInv(lib, Cfgs(w), LeaderSide, w.leader, w.leader.calls[lrid], w.h);
    assert IdOf(w.leader.calls[lrid]) == Some(id);
    forall j | 0 <= j < |w.helper.calls| ensures IdOf(w.helper.calls[j]) != Some(id) {
      assert CallInv(lib, Cfgs(w), HelperSide, w.helper, w.helper.calls[j], w.h);
    }
    forall b | 0 <= b < |w.controllers| && b != c ensures AwaitedId(w, b) != Some(id) {
      assert ControllerInv(w, b);
    }
  }

  /** The helper only ever answers with the id it was asked for, so the controller's assertion
      that the two ids agree never fails. */
  lemma CreatedNamesAskedId(lib: Lib, w: World, c: nat)
    requires SystemInv(lib, w) && c < |w.controllers| && w.controllers[c].driver.CreatingHelper?
    ensures var d := w.controllers[c].driver;
            var answer := AnswerOf(w.helper, d.hrid);
            answer.Some? ==> answer == Some(Rejected) || (answer == Some(Created(d.id)) && Owned(w, c, d.id))
  {
    var d := w.controllers[c].driver;
    assert ControllerInv(w, c);
    assert CallInv(lib, Cfgs(w), HelperSide, w.helper, w.helper.calls[d.hrid], w.h);
  }

  lemma ProceedCreatingKeeps(lib: Lib, w: World, c: nat)
    requires SystemInv(lib, w) && c < |w.controllers|
    requires w.controllers[c].driver.CreatingLeader? || w.controllers[c].driver.CreatingHelper?
    ensures SystemInv(lib, NextProceed(w, c))
  {
    GiveUpKeeps(lib, w, c);
    match w.controllers[c].driver
    case CreatingLeader(_, lrid) =>
      var answer := AnswerOf(w.leader, lrid);
      if answer.Some? && answer.value.Created? { AskHelperToCreateKeeps(lib, w, c, answer.value.id); }
    case CreatingHelper(id, hrid) =>
      CreatedNamesAskedId(lib, w, c);
      if AnswerOf(w.helper, hrid) == Some(Created(id)) { TakeSessionKeeps(lib, w, c, id); }
  }

  lemma TakeSessionKeeps(lib: Lib, w: World, c: nat, id: SessionId)
    requires SystemInv(lib, w) && c < |w.controllers| && Owned(w, c, id)
    ensures SystemInv(lib, SetController(w, c, w.controllers[c].(driver := Idle, sessionId := Some(id))))
  {
    assert ControllerInv(w, c);
    OwnStepKeeps(lib, w, c, w.controllers[c].(driver := Idle, sessionId := Some(id)));
  }

  lemma AskHelperToEndKeeps(lib: Lib, w: World, c: nat, id: SessionId, lrid: nat)
    requires SystemInv(lib, w) && c < |w.controllers| && Owned(w, c, id) && id in w.h.endAsked
    ensures SystemInv(lib, AskHelperToEnd(w, c, id, lrid))
  {
    var v := AskHelperToEnd(w, c, id, lrid);
    assert ControllerInv(w, c);
    assert MachineInv(lib, Cfgs(w), HelperSide, v.helper, v.h) by {
      SendKeeps(lib, Cfgs(w), HelperSide, w.helper, w.h, c, End(id));
    }
    AskedToEndDriver(w, c, id, lrid);
    BystandersKeep(lib, w, v, c);
  }

  lemma AskedToEndDriver(w: World, c: nat, id: SessionId, lrid: nat)
    requires c < |w.controllers| && ControllerInv(w, c) && Owned(w, c, id)
    ensures var v := AskHelperToEnd(w, c, id, lrid); StepOf(w, v, c) && ControllerInv(v, c)
  {
  }

  lemma AskHelperToStartKeeps(lib: Lib, w: World, c: nat)
    requires SystemInv(lib, w) && c < |w.controllers| && w.controllers[c].driver.StartingLeader?
    ensures var d := w.controllers[c].driver; SystemInv(lib, AskHelperToStart(w, c, d.id, d.task, d.lrid))
  {
    var d := w.controllers[c].driver;
    var v := AskHelperToStart(w, c, d.id, d.task, d.lrid);
    assert ControllerInv(w, c);
    StartCallOk(lib, Cfgs(w), HelperSide, w.helper, w.h, c, d.id, d.task);
    AskedToStartDriver(w, c);
    BystandersKeep(lib, w, v, c);
  }

  lemma AskedToStartDriver(w: World, c: nat)
    requires c < |w.controllers| && ControllerInv(w, c) && w.controllers[c].driver.StartingLeader?
    ensures var d := w.controllers[c].driver;
            var v := AskHelperToStart(w, c, d.id, d.task, d.lrid);
            StepOf(w, v, c) && ControllerInv(v, c)
  {
  }

  lemma FinishStartKeeps(lib: Lib, w: World, c: nat)
    requires SystemInv(lib, w) && c < |w.controllers| && w.controllers[c].driver.StartingHelper?
    requires var d := w.controllers[c].driver;
             AnswerOf(w.leader, d.lrid) == Some(Accepted) == AnswerOf(w.helper, d.hrid)
    ensures var d := w.controllers[c].driver; SystemInv(lib, FinishStart(w, c, d.id, d.task))
  {
    var d := w.controllers[c].driver;
    var v := FinishStart(w, c, d.id, d.task);
    assert ControllerInv(w, c);
    StartStored(lib, Cfgs(w), LeaderSide, w.leader, w.h, d.lrid, d.id, d.task);
    StartStored(lib, Cfgs(w), HelperSide, w.helper, w.h, d.hrid, d.id, d.task);
    AckExtends(w.leader, w.h, d.lrid, d.id, d.task);
    AckExtends(w.helper, w.h, d.hrid, d.id, d.task);
    MachineInvMono(lib, Cfgs(w), LeaderSide, w.leader, w.h, v.h);
    MachineInvMono(lib, Cfgs(w), HelperSide, w.helper, w.h, v.h);
    FinishedStep(w, c, d.id, d.task);
    FinishedHistory(w, c, d.id, d.task);
    BystandersKeep(lib, w, v, c);
  }

  lemma FinishedStep(w: World, c: nat, id: SessionId, t: TaskId)
    requires c < |w.controllers| && ControllerInv(w, c) && Owned(w, c, id) && OwnedTask(w, c, t)
    ensures StepOf(w, FinishStart(w, c, id, t), c) && ControllerInv(FinishStart(w, c, id, t), c)
  {
  }

  lemma FinishedHistory(w: World, c: nat, id: SessionId, t: TaskId)
    requires c < |w.controllers| && AckedOk(w.leader, w.helper, w.h)
    requires Owned(w, c, id) && t in w.h.drawn && w.h.drawn[t] == id
    ensures var v := FinishStart(w, c, id, t); AckedOk(v.leader, v.helper, v.h)
  {
    var v := FinishStart(w, c, id, t);
    assert AckedSound(w.leader, w.helper, w.h, id);
    forall a | a in v.h.acked ensures AckedSound(v.leader, v.helper, v.h, a) {
      assert a != id ==> AckedSound(w.leader, w.helper, w.h, a);
    }
  }

  lemma StartStored(lib: Lib, cfgs: seq<ControllerConfig>, side: Side, x: Machine, h: History, i: nat, id: SessionId,
                    t: TaskId)
    requires MachineInv(lib, cfgs, side, x, h) && i < |x.calls|
    requires x.calls[i].call == Start(id, TaskIdToString(t)) && x.calls[i].phase == Done(Accepted)
    ensures t in x.m.store
  {
    TaskIdBijection(t, TaskIdToString(t));
    assert CallInv(lib, cfgs, side, x, x.calls[i], h);
  }

  /** Acknowledging an accepted round keeps the acknowledged rounds a subsequence of the tasks. */
  lemma AckExtends(x: Machine, h: History, i: nat, id: SessionId, t: TaskId)
    requires AckInv(x, h) && StartSent(x, h, i, id, t) && x.calls[i].phase == Done(Accepted)
    ensures AckInv(x, Acknowledge(h, id, t))
  {
  }

  lemma ProceedStartingKeeps(lib: Lib, w: World, c: nat)
    requires SystemInv(lib, w) && c < |w.controllers|
    requires w.controllers[c].driver.StartingLeader? || w.controllers[c].driver.StartingHelper?
    ensures SystemInv(lib, NextProceed(w, c))
  {
    GiveUpKeeps(lib, w, c);
    match w.controllers[c].driver
    case StartingLeader(id, t, lrid) =>
      if AnswerOf(w.leader, lrid).Some? {
        assert NextProceed(w, c) == AskHelperToStart(w, c, id, t, lrid);
        AskHelperToStartKeeps(lib, w, c);
      }
    case StartingHelper(id, t, lrid, hrid) =>
      if AnswerOf(w.leader, lrid) == Some(Accepted) == AnswerOf(w.helper, hrid) {
        assert NextProceed(w, c) == FinishStart(w, c, id, t);
        FinishStartKeeps(lib, w, c);
      }
  }

  lemma ProceedEndingKeeps(lib: Lib, w: World, c: nat)
    requires SystemInv(lib, w) && c < |w.controllers|
    requires w.controllers[c].driver.EndingLeader? || w.controllers[c].driver.EndingHelper?
    ensures SystemInv(lib, NextProceed(w, c))
  {
    assert ControllerInv(w, c);
    match w.controllers[c].driver
    case EndingLeader(id, lrid) =>
      if AnswerOf(w.leader, lrid).Some? {
        assert NextProceed(w, c) == AskHelperToEnd(w, c, id, lrid);
        AskHelperToEndKeeps(lib, w, c, id, lrid);
      }
    case EndingHelper(_, lrid, hrid) =>
      var idle := w.controllers[c].(driver := Idle);
      assert NextProceed(w, c) == w || NextProceed(w, c) == SetController(w, c, idle)
          || NextProceed(w, c) == SetController(w, c, idle.(sessionId := None));
      GiveUpKeeps(lib, w, c);
      ForgetSessionKeeps(lib, w, c);
  }

  lemma ProceedKeeps(lib: Lib, w: World, c: nat)
    requires SystemInv(lib, w) && c < |w.controllers|
    ensures SystemInv(lib, NextProceed(w, c))
  {
    var d := w.controllers[c].driver;
    if d.CreatingLeader? || d.CreatingHelper? {
      ProceedCreatingKeeps(lib, w, c);
    } else if d.EndingLeader? || d.EndingHelper? {
      ProceedEndingKeeps(lib, w, c);
    } else if d.StartingLeader? || d.StartingHelper? {
      ProceedStartingKeeps(lib, w, c);
    }
  }

  lemma GiveUpKeeps(lib: Lib, w: World, c: nat)
    requires SystemInv(lib, w) && c < |w.controllers|
    ensures SystemInv(lib, SetController(w, c, w.controllers[c].(driver := Idle)))
  {
    assert ControllerInv(w, c);
    OwnStepKeeps(lib, w, c, w.controllers[c].(driver := Idle));
  }

  lemma ForgetSessionKeeps(lib: Lib, w: World, c: nat)
    requires SystemInv(lib, w) && c < |w.controllers|
    ensures SystemInv(lib, SetController(w, c, w.controllers[c].(driver := Idle, sessionId := None)))
  {
    assert ControllerInv(w, c);
    OwnStepKeeps(lib, w, c, w.controllers[c].(driver := Idle, sessionId := None));
  }

  // ---------------------------------------------------------------- clients

  lemma ClientKeeps(lib: Lib, w: World, k: nat, cl: Client)
    requires SystemInv(lib, w) && k < |w.clients| && ClientInv(w, cl)
    ensures SystemInv(lib, SetClient(w, k, cl))
  {
    var v := SetClient(w, k, cl);
    assert Cfgs(v) == Cfgs(w);
    forall c | 0 <= c < |v.controllers| ensures ControllerInv(v, c) { assert ControllerInv(w, c); }
    forall i | 0 <= i < |v.uploads| ensures UploadInv(v, v.uploads[i]) { assert UploadInv(w, w.uploads[i]); }
  }

  lemma SubmitKeeps(lib: Lib, w: World, k: nat, data: VecFixedAny)
    requires SystemInv(lib, w) && k < |w.clients|
    ensures SystemInv(lib, Next(lib, w, Submit(k, data)))
  {
    var v := Next(lib, w, Submit(k, data));
    assert Cfgs(v) == Cfgs(w);
    assert ClientInv(w, w.clients[k]);
    forall c | 0 <= c < |v.controllers| ensures ControllerInv(v, c) { assert ControllerInv(w, c); }
    forall k | 0 <= k < |v.clients| ensures ClientInv(v, v.clients[k]) { assert ClientInv(w, w.clients[k]); }
    forall i | 0 <= i < |v.uploads| ensures UploadInv(v, v.uploads[i]) {
      if i < |w.uploads| { assert UploadInv(w, w.uploads[i]); }
    }
  }

  // ---------------------------------------------------------------- every step, every run

  lemma StepKeeps(lib: Lib, w: World, step: WorldStep)
    requires SystemInv(lib, w) && FreshStep(w, step)
    ensures SystemInv(lib, Next(lib, w, step))
  {
    match step
    case Handle(side, s) => if !s.Arrive? { HandleKeeps(lib, w, side, s); }
    case BeginCreate(c, key) => if c < |w.controllers| { BeginCreateKeeps(lib, w, c, key); }
    case BeginStart(c, t) =>
      if c < |w.controllers| && w.controllers[c].sessionId.Some? { BeginStartKeeps(lib, w, c, t); }
    case BeginEnd(c) => if c < |w.controllers| && w.controllers[c].sessionId.Some? { BeginEndKeeps(lib, w, c); }
    case Proceed(c) => if c < |w.controllers| { ProceedKeeps(lib, w, c); }
    case Abort(c) => if c < |w.controllers| { GiveUpKeeps(lib, w, c); }
    case Submit(k, data) => if k < |w.clients| { SubmitKeeps(lib, w, k, data); }
    case _ => ClientStepKeeps(lib, w, step);
  }

  /** A client's question is one more request to a manager, on which nothing else depends. */
  lemma QuerySent(lib: Lib, w: World, side: Side, from: nat, t: TaskId) returns (v: World)
    requires SystemInv(lib, w)
    ensures SystemInv(lib, v)
    ensures v == if side == LeaderSide then w.(leader := Send(w.leader, from, Query(TaskIdToString(t))))
                 else w.(helper := Send(w.helper, from, Query(TaskIdToString(t))))
  {
    var call := Query(TaskIdToString(t));
    if side == LeaderSide {
      v := w.(leader := Send(w.leader, from, call));
      SendKeeps(lib, Cfgs(w), LeaderSide, w.leader, w.h, from, call);
    } else {
      v := w.(helper := Send(w.helper, from, call));
      SendKeeps(lib, Cfgs(w), HelperSide, w.helper, w.h, from, call);
    }
    BystandersKeep(lib, w, v, |w.controllers|);
  }

  lemma AskLeaderKeeps(lib: Lib, w: World, k: nat, t: TaskId)
    requires SystemInv(lib, w) && k < |w.clients|
    ensures SystemInv(lib, NextAskLeader(w, k, t))
  {
    assert ClientInv(w, w.clients[k]);
    if w.leader.m.config.main != w.helper.m.config.main {
      ClientKeeps(lib, w, k, w.clients[k].(asking := NotAsking));
    } else {
      var v := QuerySent(lib, w, LeaderSide, k, t);
      assert ClientInv(v, v.clients[k]);
      ClientKeeps(lib, v, k, w.clients[k].(asking := AskingLeader(t, |w.leader.calls|)));
    }
  }

  lemma AskHelperKeeps(lib: Lib, w: World, k: nat, t: TaskId, p: VdafParameter)
    requires SystemInv(lib, w) && k < |w.clients| && w.clients[k].asking.AskingLeader?
    requires w.clients[k].asking.task == t && AnswerOf(w.leader, w.clients[k].asking.lrid) == Some(Answer(p))
    ensures SystemInv(lib, NextAskHelper(w, k, t, p))
  {
    var lrid := w.clients[k].asking.lrid;
    assert ClientInv(w, w.clients[k]);
    assert CallInv(lib, Cfgs(w), LeaderSide, w.leader, w.leader.calls[lrid], w.h);
    TaskIdBijection(t, TaskIdToString(t));
    var v := QuerySent(lib, w, HelperSide, k, t);
    assert ClientInv(v, v.clients[k]);
    ClientKeeps(lib, v, k, w.clients[k].(asking := AskingHelper(t, p, |w.helper.calls|)));
  }

  lemma ListenKeeps(lib: Lib, w: World, k: nat)
    requires SystemInv(lib, w) && k < |w.clients|
    ensures SystemInv(lib, NextListen(w, k))
  {
    var cl := w.clients[k];
    assert ClientInv(w, cl);
    ClientKeeps(lib, w, k, cl.(asking := NotAsking));
    match cl.asking
    case NotAsking =>
    case AskingLeader(t, lrid) =>
      if AnswerOf(w.leader, lrid).Some? && AnswerOf(w.leader, lrid).value.Answer? {
        AskHelperKeeps(lib, w, k, t, AnswerOf(w.leader, lrid).value.parameter);
      }
    case AskingHelper(t, p, hrid) =>
      ClientKeeps(lib, w, k, Client.Client(NotAsking, ValidState(w.leader.m.config.main, p, t, t)));
  }

  lemma UpdateKeeps(lib: Lib, w: World, k: nat, t: TaskId)
    requires SystemInv(lib, w) && k < |w.clients| && w.clients[k].state.ValidState?
    ensures SystemInv(lib, SetClient(w, k, w.clients[k].(state := w.clients[k].state.(task := t))))
  {
    assert ClientInv(w, w.clients[k]);
    ClientKeeps(lib, w, k, w.clients[k].(state := w.clients[k].state.(task := t)));
  }

  lemma ClientStepKeeps(lib: Lib, w: World, step: WorldStep)
    requires SystemInv(lib, w) && (step.AskLeader? || step.Listen? || step.Update?)
    ensures SystemInv(lib, Next(lib, w, step))
  {
    if step.k < |w.clients| {
      match step
      case AskLeader(k, t) => AskLeaderKeeps(lib, w, k, t);
      case Listen(k) => ListenKeeps(lib, w, k);
      case Update(k, t) => if w.clients[k].state.ValidState? { UpdateKeeps(lib, w, k, t); }
    }
  }

  /** Every state of every run whose drawn ids do not repeat satisfies the invariant. */
  lemma {:induction false} SystemInvHolds(lib: Lib, w: World, steps: seq<WorldStep>)
    requires Initial(w) && FreshRun(lib, w, steps)
    ensures SystemInv(lib, System.Run(lib, w, steps))
    decreases |steps|
  {
    if steps == [] {
      InitialInv(lib, w);
    } else {
      SystemInvHolds(lib, w, steps[..|steps| - 1]);
      StepKeeps(lib, System.Run(lib, w, steps[..|steps| - 1]), steps[|steps| - 1]);
    }
  }
}
