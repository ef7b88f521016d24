/** What holds of the whole system even if drawn session and task ids repeat. */
module AnyIds {
  import opened Wrappers
  import opened Base64Url
  import opened Vdaf
  import opened Handlers
  import opened Sections
  import opened System
  import opened Projection

  // ---------------------------------------------------------------- one manager

  /** Every accepted round's task is stored. */
  ghost predicate RoundsStored(x: Machine)
  {
    forall i :: 0 <= i < |x.calls| && x.calls[i].call.Start? && x.calls[i].phase == Done(Accepted) ==>
      var r := TaskIdFromString(x.calls[i].call.taskEncoded);
      r.Ok? && r.value in x.m.store
  }

  predicate ForAggregator(call: Call)
  {
    call.Create? ==> AggregatorRole(call.req.role)
  }

  /** A create that names its id is about no other one. */
  predicate About(call: Call, id: SessionId)
  {
    call.Create? && (call.req.id.Some? ==> call.req.id == Some(id))
  }

  predicate TameCall(r: Request)
  {
    && ForAggregator(r.call)
    && (match r.phase
        case Checked(id, setup) => About(r.call, id) && AggregatorRole(setup.role)
        case Keyed(id, session) => About(r.call, id) && AggregatorRole(session.setup.role)
        case Done(Created(id)) => About(r.call, id)
        case Done(Crashed) => false
        case _ => true)
  }

  /** No request and no session has a role a handler would panic on. */
  ghost predicate Tame(x: Machine)
  {
    && (forall i :: 0 <= i < |x.calls| ==> TameCall(x.calls[i]))
    && (forall id :: id in x.m.sessions ==> AggregatorRole(x.m.sessions[id].setup.role))
  }

  lemma TameStep(lib: Lib, x: Machine, s: Step)
    requires Tame(x) && (s.Arrive? ==> ForAggregator(s.call))
    ensures Tame(Apply(lib, x, s))
  {
    var y := Apply(lib, x, s);
    forall i | 0 <= i < |y.calls| ensures TameCall(y.calls[i]) {
      if i < |x.calls| { assert TameCall(x.calls[i]); }
    }
    if s.Insert? && s.i < |x.calls| { assert TameCall(x.calls[s.i]); }
  }

  ghost predicate Sound(lib: Lib, x: Machine)
  {
    TableInv(lib, x) && RoundsStored(x) && Tame(x)
  }

  predicate KeepsRequests(x: Machine, y: Machine)
  {
    && |x.calls| <= |y.calls|
    && (forall i :: 0 <= i < |x.calls| ==>
          y.calls[i].call == x.calls[i].call && (x.calls[i].phase.Done? ==> y.calls[i].phase == x.calls[i].phase))
    && x.m.store.Keys <= y.m.store.Keys && x.m.config == y.m.config
  }

  lemma SoundStep(lib: Lib, x: Machine, s: Step)
    requires Sound(lib, x) && (s.Arrive? ==> ForAggregator(s.call))
    ensures Sound(lib, Apply(lib, x, s)) && KeepsRequests(x, Apply(lib, x, s))
  {
    TableInvStep(lib, x, s);
    TameStep(lib, x, s);
  }

  // ---------------------------------------------------------------- the system

  predicate RequestedRound(x: Machine, i: nat, t: TaskId)
  {
    i < |x.calls| && x.calls[i].call.Start? && x.calls[i].call.taskEncoded == TaskIdToString(t)
  }

  predicate ControllerStored(w: World, ctl: Controller)
  {
    && (ctl.taskId.Some? ==> ctl.taskId.value in w.leader.m.store && ctl.taskId.value in w.helper.m.store)
    && (match ctl.driver
        case CreatingHelper(id, hrid) =>
          hrid < |w.helper.calls| && w.helper.calls[hrid].call.Create? && w.helper.calls[hrid].call.req.id == Some(id)
        case StartingLeader(_, t, lrid) => RequestedRound(w.leader, lrid, t)
        case StartingHelper(_, t, lrid, hrid) => RequestedRound(w.leader, lrid, t) && RequestedRound(w.helper, hrid, t)
        case _ => true)
  }

  /** The manager was asked about task `t` and answered `p`. */
  ghost predicate Told(x: Machine, t: TaskId, p: VdafParameter)
  {
    exists i :: 0 <= i < |x.calls| && x.calls[i] == Request(x.calls[i].from, Query(TaskIdToString(t)), Done(Answer(p)))
  }

  predicate Questioned(x: Machine, i: nat, t: TaskId)
  {
    i < |x.calls| && x.calls[i].call == Query(TaskIdToString(t))
  }

  /** What a client believes it was told, by both managers alike. */
  ghost predicate ClientTold(w: World, cl: Client)
  {
    && (cl.asking != NotAsking ==> w.leader.m.config.main == w.helper.m.config.main)
    && (match cl.asking
        case NotAsking => true
        case AskingLeader(t, lrid) => Questioned(w.leader, lrid, t)
        case AskingHelper(t, p, hrid) => Questioned(w.helper, hrid, t) && Told(w.leader, t, p))
    && (match cl.state
        case InitState => true
        case ValidState(main, cached, first, _) =>
          && Told(w.leader, first, cached) && Told(w.helper, first, cached)
          && main == w.leader.m.config.main == w.helper.m.config.main)
  }

  ghost predicate UploadTold(w: World, u: Upload)
  {
    exists p :: Told(w.leader, u.first, p) && Told(w.helper, u.first, p) && MayUpload(p, u.data)
  }

  ghost predicate AnyIdsInv(lib: Lib, w: World)
  {
    && Sound(lib, w.leader) && Sound(lib, w.helper)
    && (forall c :: 0 <= c < |w.controllers| ==> ControllerStored(w, w.controllers[c]))
    && (forall k :: 0 <= k < |w.clients| ==> ClientTold(w, w.clients[k]))
    && (forall i :: 0 <= i < |w.uploads| ==> UploadTold(w, w.uploads[i]))
  }

  /** Controllers only ever ask for sessions of a leader and of a helper. */
  lemma ArrivalsTame(lib: Lib, w: World, step: WorldStep, side: Side)
    ensures forall s :: s in StepsOf(lib, w, step, side) && s.Arrive? ==> ForAggregator(s.call)
  {
    match step
    case Proceed(c) => if c < |w.controllers| { ProceedOnlySends(w, c); }
    case _ =>
  }

  lemma ManagerKeeps(lib: Lib, w: World, step: WorldStep, side: Side)
    requires Sound(lib, MachineOf(w, side))
    ensures var y := MachineOf(Next(lib, w, step), side);
            Sound(lib, y) && KeepsRequests(MachineOf(w, side), y)
  {
    var ms := StepsOf(lib, w, step, side);
    StepProjects(lib, w, step, side);
    ArrivalsTame(lib, w, step, side);
    if ms != [] { SoundStep(lib, MachineOf(w, side), ms[0]); }
  }

  lemma StoredKept(w: World, v: World, ctl: Controller)
    requires KeepsRequests(w.leader, v.leader) && KeepsRequests(w.helper, v.helper) && ControllerStored(w, ctl)
    ensures ControllerStored(v, ctl)
  {
  }

  /** A controller takes a task id only after both managers accepted it. */
  lemma ProceedStores(w: World, c: nat)
    requires c < |w.controllers| && ControllerStored(w, w.controllers[c])
    requires RoundsStored(w.leader) && RoundsStored(w.helper)
    ensures ControllerStored(NextProceed(w, c), NextProceed(w, c).controllers[c])
  {
    var d := w.controllers[c].driver;
    if d.StartingHelper? { TaskIdBijection(d.task, TaskIdToString(d.task)); }
  }

  lemma ControllerKeeps(lib: Lib, w: World, step: WorldStep, b: nat)
    requires AnyIdsInv(lib, w) && b < |w.controllers|
    requires KeepsRequests(w.leader, Next(lib, w, step).leader) && KeepsRequests(w.helper, Next(lib, w, step).helper)
    ensures var v := Next(lib, w, step);
            |v.controllers| == |w.controllers| && ControllerStored(v, v.controllers[b])
  {
    assert ControllerStored(w, w.controllers[b]);
    StoredKept(w, Next(lib, w, step), w.controllers[b]);
    match step
    case Proceed(c) => if c == b { ProceedStores(w, c); }
    case _ =>
  }

  lemma ToldKept(x: Machine, y: Machine, t: TaskId, p: VdafParameter)
    requires KeepsRequests(x, y) && Told(x, t, p)
    ensures Told(y, t, p)
  {
    var i :| 0 <= i < |x.calls| && x.calls[i] == Request(x.calls[i].from, Query(TaskIdToString(t)), Done(Answer(p)));
    assert y.calls[i] == Request(y.calls[i].from, Query(TaskIdToString(t)), Done(Answer(p)));
  }

  lemma ClientToldKept(w: World, v: World, cl: Client)
    requires KeepsRequests(w.leader, v.leader) && KeepsRequests(w.helper, v.helper) && ClientTold(w, cl)
    ensures ClientTold(v, cl)
  {
    if cl.asking.AskingHelper? { ToldKept(w.leader, v.leader, cl.asking.task, cl.asking.leaderParam); }
    if cl.state.ValidState? {
      ToldKept(w.leader, v.leader, cl.state.first, cl.state.cached);
      ToldKept(w.helper, v.helper, cl.state.first, cl.state.cached);
    }
  }

  lemma AnswerTold(x: Machine, i: nat, t: TaskId, p: VdafParameter)
    requires Questioned(x, i, t) && AnswerOf(x, i) == Some(Answer(p))
    ensures Told(x, t, p)
  {
    assert x.calls[i] == Request(x.calls[i].from, Query(TaskIdToString(t)), Done(Answer(p)));
  }

  /** A client takes a parameter only after both managers answered it. */
  lemma ListenTold(w: World, k: nat)
    requires k < |w.clients| && ClientTold(w, w.clients[k])
    requires KeepsRequests(w.leader, NextListen(w, k).leader) && KeepsRequests(w.helper, NextListen(w, k).helper)
    ensures ClientTold(NextListen(w, k), NextListen(w, k).clients[k])
  {
    var cl, v := w.clients[k], NextListen(w, k);
    ClientToldKept(w, v, cl);
    match cl.asking
    case NotAsking =>
    case AskingLeader(t, lrid) =>
      if AnswerOf(w.leader, lrid).Some? && AnswerOf(w.leader, lrid).value.Answer? {
        AnswerTold(w.leader, lrid, t, AnswerOf(w.leader, lrid).value.parameter);
        ToldKept(w.leader, v.leader, t, AnswerOf(w.leader, lrid).value.parameter);
      }
    case AskingHelper(t, p, hrid) =>
      if AnswerOf(w.helper, hrid) == Some(Answer(p)) { AnswerTold(w.helper, hrid, t, p); }
  }

  lemma ClientKeepsTold(lib: Lib, w: World, step: WorldStep, k: nat)
    requires AnyIdsInv(lib, w) && k < |w.clients|
    requires KeepsRequests(w.leader, Next(lib, w, step).leader) && KeepsRequests(w.helper, Next(lib, w, step).helper)
    ensures var v := Next(lib, w, step);
            |v.clients| == |w.clients| && ClientTold(v, v.clients[k])
  {
    assert ClientTold(w, w.clients[k]);
    ClientToldKept(w, Next(lib, w, step), w.clients[k]);
    match step
    case Listen(j) => if j == k && w.clients[k].state.InitState? { ListenTold(w, k); }
    case Proceed(c) => if c < |w.controllers| { ClientsStay(w, c); }
    case _ =>
  }

  lemma ClientsStay(w: World, c: nat)
    requires c < |w.controllers|
    ensures NextProceed(w, c).clients == w.clients && NextProceed(w, c).uploads == w.uploads
  {
  }

  lemma UploadKeepsTold(w: World, v: World, u: Upload)
    requires KeepsRequests(w.leader, v.leader) && KeepsRequests(w.helper, v.helper) && UploadTold(w, u)
    ensures UploadTold(v, u)
  {
    var p :| Told(w.leader, u.first, p) && Told(w.helper, u.first, p) && MayUpload(p, u.data);
    ToldKept(w.leader, v.leader, u.first, p);
    ToldKept(w.helper, v.helper, u.first, p);
  }

  /** Only `Submit` adds an upload, by a client that knows what it was told. */
  lemma UploadsAdded(lib: Lib, w: World, step: WorldStep)
    ensures var v := Next(lib, w, step);
            || v.uploads == w.uploads
            || (step.Submit? && v == w.(uploads := v.uploads) && step.k < |w.clients|
                && var s := w.clients[step.k].state;
                   s.ValidState? && MayUpload(s.cached, step.data)
                   && v.uploads == w.uploads + [Upload(s.first, s.task, step.data)])
  {
    match step
    case Proceed(c) => if c < |w.controllers| { ClientsStay(w, c); }
    case _ =>
  }

  lemma UploadsKeepTold(lib: Lib, w: World, step: WorldStep)
    requires AnyIdsInv(lib, w)
    requires KeepsRequests(w.leader, Next(lib, w, step).leader) && KeepsRequests(w.helper, Next(lib, w, step).helper)
    ensures var v := Next(lib, w, step);
            forall i :: 0 <= i < |v.uploads| ==> UploadTold(v, v.uploads[i])
  {
    var v := Next(lib, w, step);
    UploadsAdded(lib, w, step);
    forall i | 0 <= i < |v.uploads| ensures UploadTold(v, v.uploads[i]) {
      if i < |w.uploads| {
        assert UploadTold(w, w.uploads[i]);
        UploadKeepsTold(w, v, w.uploads[i]);
      } else {
        assert ClientTold(w, w.clients[step.k]);
        assert Told(v.leader, v.uploads[i].first, w.clients[step.k].state.cached);
      }
    }
  }

  lemma AnyIdsStep(lib: Lib, w: World, step: WorldStep)
    requires AnyIdsInv(lib, w)
    ensures AnyIdsInv(lib, Next(lib, w, step))
  {
    var v := Next(lib, w, step);
    ManagerKeeps(lib, w, step, LeaderSide);
    ManagerKeeps(lib, w, step, HelperSide);
    PartiesStay(lib, w, step);
    forall b | 0 <= b < |v.controllers| ensures ControllerStored(v, v.controllers[b]) {
      ControllerKeeps(lib, w, step, b);
    }
    forall k | 0 <= k < |v.clients| ensures ClientTold(v, v.clients[k]) {
      ClientKeepsTold(lib, w, step, k);
    }
    UploadsKeepTold(lib, w, step);
  }

  lemma PartiesStay(lib: Lib, w: World, step: WorldStep)
    ensures |Next(lib, w, step).controllers| == |w.controllers| && |Next(lib, w, step).clients| == |w.clients|
  {
  }

  // ---------------------------------------------------------------- every run

  /** Over every run: each manager's live sessions have their tasks stored with matching entries,
      their keypairs in the keyring, and a task a controller would collect is stored on both. */
  lemma {:induction false} StoredWhateverIds(lib: Lib, w: World, steps: seq<WorldStep>)
    requires Initial(w)
    ensures AnyIdsInv(lib, System.Run(lib, w, steps))
    decreases |steps|
  {
    if steps == [] {
    } else {
      StoredWhateverIds(lib, w, steps[..|steps| - 1]);
      AnyIdsStep(lib, System.Run(lib, w, steps[..|steps| - 1]), steps[|steps| - 1]);
    }
  }

  /** In particular no task a controller would collect is missing from a store. */
  lemma CollectableIsStored(lib: Lib, w0: World, steps: seq<WorldStep>, c: nat)
    requires Initial(w0)
    ensures var w := System.Run(lib, w0, steps);
            c < |w.controllers| && w.controllers[c].taskId.Some? ==>
              w.controllers[c].taskId.value in w.leader.m.store && w.controllers[c].taskId.value in w.helper.m.store
  {
    StoredWhateverIds(lib, w0, steps);
  }

  /** Whatever a client uploads past its guards is of the length and type of a parameter that both
      managers answered it for the task of its first update; and so is what it caches. */
  lemma {:induction false} CachedWasTold(lib: Lib, w0: World, steps: seq<WorldStep>, k: nat, i: nat)
    requires Initial(w0)
    ensures var w := System.Run(lib, w0, steps);
            && (k < |w.clients| && w.clients[k].state.ValidState? ==>
                  var s := w.clients[k].state;
                  && Told(w.leader, s.first, s.cached) && Told(w.helper, s.first, s.cached)
                  && s.main == w.leader.m.config.main == w.helper.m.config.main)
            && (i < |w.uploads| ==>
                  var u := w.uploads[i];
                  exists p :: Told(w.leader, u.first, p) && Told(w.helper, u.first, p) && MayUpload(p, u.data))
  {
    var w := System.Run(lib, w0, steps);
    StoredWhateverIds(lib, w0, steps);
    if k < |w.clients| { assert ClientTold(w, w.clients[k]); }
    if i < |w.uploads| { assert UploadTold(w, w.uploads[i]); }
  }

  /** No handler ever panics on a role, and the controller's check that both managers name the
      same session never fails. */
  lemma {:induction false} NoPanics(lib: Lib, w0: World, steps: seq<WorldStep>, i: nat, c: nat)
    requires Initial(w0)
    ensures var w := System.Run(lib, w0, steps);
            && (i < |w.leader.calls| ==> w.leader.calls[i].phase != Done(Crashed))
            && (i < |w.helper.calls| ==> w.helper.calls[i].phase != Done(Crashed))
            && (c < |w.controllers| && w.controllers[c].driver.CreatingHelper? ==>
                  var d := w.controllers[c].driver;
                  forall other :: AnswerOf(w.helper, d.hrid) == Some(Created(other)) ==> other == d.id)
  {
    var w := System.Run(lib, w0, steps);
    StoredWhateverIds(lib, w0, steps);
    if i < |w.leader.calls| { assert TameCall(w.leader.calls[i]); }
    if i < |w.helper.calls| { assert TameCall(w.helper.calls[i]); }
    if c < |w.controllers| && w.controllers[c].driver.CreatingHelper? {
      assert ControllerStored(w, w.controllers[c]);
      assert TameCall(w.helper.calls[w.controllers[c].driver.hrid]);
    }
  }
}
