# dpsa4fl: sessions, rounds and fixed point gradients, verified in Dafny

dpsa4fl lets a controller run federated learning over two Janus aggregators. Next to each
aggregator runs a *manager* that creates training sessions and provisions one aggregation task
per round. A controller drives both managers with single HTTP requests, leader first, and there is
no two-phase commit. Clients ask both managers for a task's parameters once, cache the answer, and
upload fixed point gradients. This project models these parties and proves what they agree on
although requests and answers get lost, requests are served late, and the managers serve many
requests at once.

| file | what it holds |
|---|---|
| `Wrappers.dfy` | options, results, bytes |
| `Base64Url.dfy` | the strict unpadded base64url codec (sections 3.5 and 5 of RFC 4648) and the task ids printed with it |
| `Dyadic.dfy` | binary floats as NaN, infinities and bounded significands times powers of two; product with 2^k, rounding to integral values, cast |
| `FixedPoint.dfy` | the float to fixed conversions: exactness, accepted intervals, rounding laws, 16 and 32 bits compared |
| `Vdaf.dfy` | session parameters, their translation to a VDAF instance, the uninterpreted library functions (`Lib`) |
| `Handlers.dfy` | a manager's data, the handlers as functions, provisioning, the session/store invariant |
| `HandlerFacts.dfy` | what each handler accepts, answers and writes, field by field and for any request |
| `Sections.dfy` | a manager serving any number of create, start, end and query requests, one mutex section per step |
| `Refinement.dfy` | that manager refines the uninterrupted handlers |
| `System.dfy` | two managers, any number of controllers and clients, as one transition system |
| `Projection.dfy` | each manager of the system takes a run of its own, to which the refinement applies |
| `ManagerAgreement.dfy`, `SystemInvariant.dfy` | the inductive invariant of the system |
| `Agreement.dfy` | what the parties agree on, over all runs whose drawn ids do not repeat |
| `AnyIds.dfy` | what holds even if drawn ids repeat |
| `Collecting.dfy` | the interval a collection asks for |
| `Provisioner.dfy` | the manager as objects that update their fields, proved to be the handler functions |
| `Apis.dfy` | the controller's and the client's API calls as objects driving two such managers |
| `Simulation.dfy` | every one of those API calls is a run of the transition system |
| `Outcomes.dfy` | when the calls succeed, what failed ones leave behind, and two concrete runs that show the theorems' conditions are needed |

How the model is arranged:

- A request, once sent, stays in its manager's list with the phase its handler has reached. A
  lost request is one that is never served, a late one is served after its sender gave up
  (`Abort`), and a lost answer is one that nobody reads. `handle_create_session` has three phases
  because it releases its locks between the id check, the keyring and the insert. The other
  handlers hold the session lock throughout and have one. Clients' questions are requests like any other.
- A step that is not enabled changes nothing, so a run is any sequence of steps whatsoever.
- Random choices are parameters of the steps. That drawn ids do not repeat is never built in. It
  is the predicate `FreshRun`, a precondition of the theorems in `Agreement.dfy`: session ids have 16 bits and
  the leader does not compare the one it draws with its table (`src/janus_manager/implementation/mod.rs:204`).
  What holds without it is in `Refinement.dfy`, `Projection.dfy` and `AnyIds.dfy`.
- `World.h` records what happened (who had which id drawn, which rounds were acknowledged in which
  order, which sessions somebody began to end). No step reads it.

Results where the code and its promises differ:

- *The client's cached parameter.* `src/client/implementation/mod.rs:233-234` assumes that parameters
  do not change between the tasks of one session. That assumption holds (`Agreement.CacheRefinement`).
  But nothing keeps a client within one session: an upload fits the instance stored for its task if
  and only if the task's session asks for the same length and type as the session of the client's first update
  (`Agreement.UploadAgreement`), and `Outcomes.StaleCacheUploads` is a run in which it does not. A client can
  decide this before it uploads: it asks either manager for the new task, and if that answers, the data fits if and
  only if the answer has the length and type of the cached parameter (`Agreement.AskedShapeDecides`).
- *Session ids.* Creating keeps all live sessions if and only if the chosen id is free. This holds
  for requested ids but not for drawn ones (`Handlers.CreateKeepsSessions`).
  `Outcomes.RepeatedIdReplaces` is a run in which the two managers end up with different sessions under one id,
  `Refinement.InsertNeedsFreeId` says exactly when an insert is an atomic create, and `Refinement.OverlappingCreatesCollide` shows two overlapping creates for one requested id both succeeding.
- *The range of the conversion.* The comment at `src/core/fixed.rs:105-108` speaks of floats in
  [-1, 1]. The code refuses 1 in both directions, and its ceiling accepts values less than
  one unit below -1 (`FixedPoint.EndpointsOfTheUnitInterval`). The exact intervals are in
  `FixedPoint.ConversionExact`.
- *Ending a session.* An end that reached only one manager is not completed by trying again: the
  manager that no longer holds the session refuses (`Outcomes.EndOutcome`).
- *Tokens.* The collector token is decoded from base64url before use, the leader token is used as
  the bytes of its encoded form (`src/janus_manager/implementation/mod.rs:208-218`); both managers do the same,
  so they agree.

## Model

| member | source | states |
|---|---|---|
| Base64Url.SymbolsAreTheAlphabet | src/core/helpers.rs:9 | the alphabet is that of table 2 of RFC 4648: upper case, lower case, digits, '-' and '_', in this order |
| Base64Url.DecodeEncode | src/core/helpers.rs:7-9 | printing is undone by parsing, for byte strings of every length |
| Base64Url.EncodeDecode | src/core/helpers.rs:15-17 | the parser accepts exactly the canonical strings (alphabet only, possible length, zero trailing bits), and printing what it read restores the string |
| Base64Url.EncodeIsNumeral | src/core/helpers.rs:9 | independent meaning of the text: its symbols are the base 64 digits of the bytes' big-endian number followed by padding bits, in the fewest symbols |
| Base64Url.TaskIdBijection | src/core/helpers.rs:7-22 | task ids and canonical strings of 43 symbols correspond one to one; any other string is refused |
| Dyadic.Times2kIsProduct | src/core/fixed.rs:109-111 | multiplying by the float 2^k is the correctly rounded product, and exact unless it overflows to the infinity of its sign |
| Dyadic.RoundToIntegralExact | src/core/fixed.rs:113-115 | floor and ceil of a float are the real floor and ceiling, again floats of the format |
| Dyadic.ToSignedExact | src/core/fixed.rs:117-118 | the cast of an integral float is exact within the signed range and refuses everything outside it |
| FixedPoint.FactorIsFloat | src/core/fixed.rs:109-111 | in every usable format 2^(n-1) is a float of the format, exactly |
| FixedPoint.StandardFormatsUsable | src/core/fixed.rs:109-111 | 2^(n-1) is exactly a float of binary32 and of binary64 for both widths, so the "should not happen" error does not |
| Dyadic.StandardParameters | src/core/fixed.rs:95-111 | the two formats have the precision, overflow bound and smallest number of binary32 and binary64 |
| FixedPoint.ConversionExact | src/core/fixed.rs:77-124 | both conversions are the real floor and ceiling of x * 2^(n-1), with no floating point error; floor accepts exactly -1 <= x < 1, ceil exactly -1 - ulp < x <= 1 - ulp; NaN and infinities are refused |
| FixedPoint.AcceptRanges | src/core/fixed.rs:105-118 | the accepted real intervals are exactly those whose rounded multiple of 2^(n-1) fits n signed bits |
| FixedPoint.Bracketing | src/core/fixed.rs:77-93 | floor <= x <= ceil, each within strictly less than one unit; equal on the grid and neighbours off it |
| FixedPoint.Monotone | src/core/fixed.rs:77-93 | larger floats never convert to smaller fixed point numbers |
| FixedPoint.Mirror | src/core/fixed.rs:77-93 | ceil(x) = -floor(-x) where both exist, and exactly where only one of them does |
| FixedPoint.GridFixpoint | src/core/fixed.rs:120-123 | every float that is a representable fixed point number converts to it, both ways |
| FixedPoint.ConversionsOntoTypes | src/core/fixed.rs:15-16 | conversions fit the 16 and 32 bit element types, and from binary64 every value of either type is obtained |
| FixedPoint.FloorCoherence | src/core/fixed.rs:77-84 | flooring to n+k bits and flooring away k of them is flooring to n bits, on the same accepted inputs |
| FixedPoint.CeilCoherence | src/core/fixed.rs:86-93 | the same for ceilings, with the exact intervals that one width accepts and the other refuses |
| FixedPoint.EndpointsOfTheUnitInterval | src/core/fixed.rs:105-108 | where the code departs from its comment: 1 is refused by both conversions, -1 accepted, and values less than a unit below -1 pass the ceiling |
| Vdaf.InstanceMeans | src/core/types.rs:75-88 | the instance has the parameter's length, the width of its type, and exactly the noise its budget translates to |
| Vdaf.FitsExactly | src/core/types.rs:77-86 | which vectors fit an instance: its length, in the type of its width |
| Vdaf.InstanceDeterminesParameter | src/core/types.rs:75-88 | two parameters have one VDAF instance iff they agree on length, type and translated budget; hence injectivity if the budget translation is injective |
| Handlers.LookupCorrect | src/janus_manager/implementation/mod.rs:279-296 | the lookup succeeds iff exactly one live session lists the task, and then gives that session's parameter, so map order cannot show |
| Handlers.FirstWriterWins | src/janus_manager/implementation/mod.rs:303-338 | over any sequence of provisioning calls no entry ever changes, and each id holds the first task written for it |
| Handlers.ProvisioningCommutes | src/janus_manager/implementation/mod.rs:309-336 | a repeated call is accepted and changes nothing; calls on distinct ids commute |
| Handlers.StoreInvStart | src/janus_manager/implementation/mod.rs:97-172 | starting a round, accepted or refused, keeps: every task of every live session is stored with an entry equal to the session's on the ten compared fields |
| Handlers.StoreInvInsert | src/janus_manager/implementation/mod.rs:241-247 | inserting a new session keeps the same, even when it replaces one |
| Handlers.StoreInvEnd | src/janus_manager/implementation/mod.rs:250-267 | ending a session keeps the same |
| Handlers.SharedTasksAgree | src/janus_manager/implementation/mod.rs:280-294 | two live sessions listing one task agree on parameter, verify key, role and collector configuration: the "multiple sessions" error only arises between equal answers |
| Handlers.CreateKeepsSessions | src/janus_manager/implementation/mod.rs:190-206 | creating adds a session iff the chosen id was free; requested ids are, drawn ids are not checked; nothing else changes |
| HandlerFacts.TermsDecode | src/janus_manager/implementation/mod.rs:208-224 | terms are refused iff a token or the key is not canonical base64url or a token is no bearer token; otherwise each field is what was sent |
| HandlerFacts.CreateDecides | src/janus_manager/implementation/mod.rs:174-248 | for any request: refused iff a requested id is taken or the terms are refused, and then nothing changes; otherwise the session's every field, and all that stays |
| HandlerFacts.ProvisionDecides | src/janus_manager/implementation/mod.rs:312-334 | refused iff the id is stored with a different value of one of the ten fields listed; otherwise the task is written iff its id is new |
| HandlerFacts.BuildTaskProvisions | src/janus_manager/implementation/mod.rs:120-163 | every field of a round's task: constants 10, 2, 3600 and 1000, no expirations, the peer, the keypair, and tokens and hashes by role |
| HandlerFacts.ConformsIsMatches | src/janus_manager/implementation/mod.rs:315-324 | the store invariant's comparison, field by field |
| HandlerFacts.StartDecides | src/janus_manager/implementation/mod.rs:97-172 | for any text: accepted iff it names a task and the round can start, panicking iff the role is no aggregator's; what is stored and listed then, and that a refusal changes nothing |
| HandlerFacts.QueryDecides | src/janus_manager/implementation/mod.rs:269-297 | a question is answered iff its text names a task that exactly one session lists, with that session's parameter |
| HandlerFacts.EndDecides | src/janus_manager/implementation/mod.rs:250-267 | accepted iff there is such a session; exactly it goes |
| Sections.SectionsCompose | src/janus_manager/implementation/mod.rs:174-248 | undisturbed, the three lock sections add up to the whole handler, refusals included |
| Sections.TableInvStep | src/janus_manager/implementation/mod.rs:97-267 | every lock section of every handler keeps the store invariant, keeps each session's keypair in the keyring, and only adds to store and keyring |
| Sections.TableSafety | src/janus_manager/implementation/mod.rs:97-267 | the same over every run of any requests; the keyring never exceeds 256 entries |
| Sections.EntriesNeverChange | src/janus_manager/interface/types.rs:74-90 | entries of keyring and store present at any point of a run are the same at every later point |
| Sections.KeyringBounded | src/janus_manager/interface/types.rs:58-64 | at most 256 keypairs, one per configuration id |
| Sections.InFlightInvStep | src/janus_manager/implementation/mod.rs:192-206 | if creates in flight carry distinct free ids, every section keeps that so |
| Sections.SessionsChange | src/janus_manager/implementation/mod.rs:241-253 | only an insert adds a live session and only an accepted end removes one, each exactly one |
| Sections.Conservation | src/janus_manager/implementation/mod.rs:241-253 | on every orderly run the live sessions number successful creates minus successful ends, whatever is in flight |
| Refinement.AtomicsAreHandlers | src/janus_manager/implementation/mod.rs:97-297 | the atomic operations of the refinement are the uninterrupted handlers themselves |
| Refinement.EffectIsOfItsRequest | src/janus_manager/implementation/mod.rs:97-297 | the operation a request takes effect as is of its kind and has its arguments |
| Refinement.DistinctRunMeans | src/janus_manager/implementation/mod.rs:192-244 | the refinement's condition is that in every state of the run creates in flight carry distinct ids, and nothing more |
| Refinement.StepRefines | src/janus_manager/implementation/mod.rs:97-297 | each lock section is either invisible or one uninterrupted handler with the same answer, as long as ids asked for stay free; where drawn ids are free, too, it never replaces a session |
| Refinement.InsertNeedsFreeId | src/janus_manager/implementation/mod.rs:241-247 | an insert is an atomic create iff its id was drawn or is still free, and replaces no session iff it is still free |
| Refinement.RunRefines | src/janus_manager/implementation/mod.rs:97-297 | if creates in flight carry pairwise distinct ids, every interleaving of create, start, end and query handlers refines the uninterrupted handlers, drawn ids that hit live sessions included: a successful create takes effect at its insert, a refused one at its check |
| Refinement.RunInsertsIfAbsent | src/janus_manager/implementation/mod.rs:192-247 | if drawn ids are moreover free when drawn, the table refined is one that never replaces a session |
| Refinement.EveryAnswerOnce | src/janus_manager/implementation/mod.rs:97-297 | every finished request took effect exactly once with the answer it was given; unfinished ones did not |
| Refinement.OverlappingCreatesCollide | src/janus_manager/implementation/mod.rs:192-201 | why distinct ids are needed: two overlapping creates for one free id both succeed and the second replaces the first |
| Projection.RunProjects | src/janus_manager/implementation/mod.rs:97-297 | in every run of the system each manager is where its own run of arrivals and sections takes it |
| Projection.ManagerRefines | src/janus_manager/implementation/mod.rs:97-297 | hence each manager of the system refines the handlers, with one effect per finished request, as long as its creates in flight carry distinct ids |
| System.GuardsAdmit | src/client/implementation/mod.rs:254-292 | exactly the 16 or 32 bit vectors of the cached length and type get past the submission guards |
| System.InitialMeans | src/janus_manager/implementation/mod.rs:87-95 | the initial states are those of any configurations, stores and numbers of parties |
| System.FreshMeans | src/janus_manager/implementation/mod.rs:202-206 | the only steps that are not fresh are draws of a used session id or task id; lateness never matters |
| System.HistoryRecords | src/controller/interface/embedded.rs:44-83 | the recorded history is exact: a round is acknowledged exactly when its controller takes the task id, an end begun exactly when its controller asks for it |
| SystemInvariant.SystemInvHolds | src/janus_manager/interface/network/consumer.rs:82-253 | the invariant of managers, controllers, clients and uploads holds after every run whose drawn ids do not repeat |
| SystemInvariant.StepKeeps | src/janus_manager/interface/network/consumer.rs:82-253 | each step of any party keeps it, including giving up in the middle of a call |
| SystemInvariant.LookupFindsBirth | src/janus_manager/implementation/mod.rs:269-297 | on either manager a lookup succeeds iff the session the task was drawn for lists it, and answers with that session's parameter |
| SystemInvariant.CreatedNamesAskedId | src/janus_manager/interface/network/consumer.rs:163-166 | the helper only ever answers with the id the leader gave |
| Agreement.TermsDecodeToMeaning | src/janus_manager/interface/network/consumer.rs:86-105 | what a controller sends decodes to its own tokens, collector configuration, parameter and verify key |
| Agreement.CreateAgreement | src/janus_manager/interface/network/consumer.rs:97-168 | a session created on both is live on both until somebody begins to end it, with complementary roles and equal verify key, tokens, configuration and parameter, which are the controller's own |
| Agreement.StoredTaskMeaning | src/janus_manager/implementation/mod.rs:117-166 | whatever is stored under a drawn task id is field by field what its owner's configuration prescribes, on either manager |
| Agreement.CollectSafety | src/controller/interface/embedded.rs:92-101 | a task a controller can collect is stored on both aggregators with equal VDAF, verify key and collector configuration, as leader and helper; the VDAF is the one `collect` instantiates and the leader expects the token presented |
| Agreement.UploadAgreement | src/client/implementation/mod.rs:254-292 | an upload fits the instance stored for its task on either aggregator iff that task's session has the length and type of the session first updated in; always within one session; the instance is the one its owner collects with |
| Agreement.AskedShapeDecides | src/client/implementation/mod.rs:227-292 | what a client can check: for data past both guards and a task either manager answers for, the task is stored there and the data fits its instance iff answer and cached parameter have one length and type |
| Agreement.ManagersAnswerAlike | src/client/implementation/mod.rs:117-138 | the managers never give two different parameters for one task |
| Agreement.AcknowledgedIsFound | src/janus_manager/implementation/mod.rs:279-296 | the lookup succeeds for every acknowledged task on each manager where its session is live |
| Agreement.CacheRefinement | src/client/implementation/mod.rs:227-235 | for every acknowledged task of a session live on both managers, asking again would bring just the cached parameter and locations |
| Agreement.RoundOrder | src/janus_manager/implementation/mod.rs:166-169 | acknowledged rounds are, in acknowledgement order, a common subsequence of both managers' task lists |
| Agreement.ManagersAreOrderly | src/janus_manager/implementation/mod.rs:192-206 | driven by controllers whose drawn ids do not repeat, no check lets two creates in flight share an id, or use a live one |
| Agreement.ManagerRunsAreOrderly | src/janus_manager/implementation/mod.rs:192-206 | hence each manager's whole run is orderly |
| Agreement.ManagersRefine | src/janus_manager/implementation/mod.rs:97-297 | hence each manager of the system refines an atomic table that never replaces a session |
| Agreement.SessionsConserved | src/janus_manager/implementation/mod.rs:241-267 | and both managers conserve sessions |
| AnyIds.StoredWhateverIds | src/janus_manager/implementation/mod.rs:165-169 | store and keyring invariants hold on both managers in every run, repeated ids or not |
| AnyIds.CollectableIsStored | src/controller/interface/embedded.rs:83-101 | a controller's task is stored on both aggregators in every run, after failed rounds and ended sessions too |
| AnyIds.CachedWasTold | src/client/implementation/mod.rs:117-138 | in every run, what a client caches was answered by both managers alike for the task of its first update, and every upload is of such a parameter's length and type |
| AnyIds.NoPanics | src/janus_manager/implementation/mod.rs:120-136 | in every run the `todo!()` on other roles is never reached, and the controller's id assertion (`consumer.rs:163-166`) never fails |
| Collecting.CollectWindow | src/janus_manager/interface/network/consumer.rs:306-309 | an interval is obtained iff five periods have passed and its end fits in 64 bits; it is aligned at both ends and covers [now - 5T, now + 9T], ending at most 10T after now; it is 15T long and starts less than one period before now - 5T |
| Provisioner.HpkeConfigRegistry.FetchKeypair | src/janus_manager/interface/types.rs:74-90 | a keypair is made at first use, returned ever after, and no other entry changes |
| Provisioner.SessionsWith | src/janus_manager/implementation/mod.rs:279-283 | the loop over the table finds each listing session exactly once, in whatever order |
| Provisioner.TaskProvisioner.constructor | src/janus_manager/implementation/mod.rs:87-95 | a manager starts with no session and no keypair on the store it is given |
| Provisioner.TaskProvisioner.Provision | src/janus_manager/implementation/mod.rs:303-338 | accepted iff the id is new or its entry agrees on the compared fields; writes only new ids |
| Provisioner.TaskProvisioner.HandleStartRound | src/janus_manager/implementation/mod.rs:97-172 | new state and answer are those of `Handlers.StartRound`, about which the theorems speak |
| Provisioner.TaskProvisioner.Check | src/janus_manager/implementation/mod.rs:179-224 | the first section and the decoding: refuses taken requested ids and bad encodings or tokens, changes nothing |
| Provisioner.TaskProvisioner.Insert | src/janus_manager/implementation/mod.rs:241-244 | the last section: replaces whatever the id had, and changes nothing else |
| Provisioner.TaskProvisioner.HandleCreateSession | src/janus_manager/implementation/mod.rs:174-248 | new state and answer are those of `Handlers.CreateSession` |
| Provisioner.TaskProvisioner.HandleEndSession | src/janus_manager/implementation/mod.rs:250-267 | new state and answer are those of `Handlers.EndSession` |
| Provisioner.TaskProvisioner.HandleGetVdafParameter | src/janus_manager/implementation/mod.rs:269-297 | the answer is that of the exactly-one-session lookup on the decoded task id |
| Apis.Post | src/janus_manager/interface/network/consumer.rs:109-132 | one request over a lossy network: what becomes of the manager and what the caller hears |
| Apis.JanusManagerClient.CreateSession | src/janus_manager/interface/network/consumer.rs:82-169 | both managers' new states and the result, for every loss and draw; the id assertion never fails |
| Apis.JanusManagerClient.EndSession | src/janus_manager/interface/network/consumer.rs:172-207 | the same for ending: the helper is asked whatever the leader answered, success needs both |
| Apis.JanusManagerClient.StartRound | src/janus_manager/interface/network/consumer.rs:212-253 | the same for starting a round; the returned id is the one drawn |
| Apis.ControllerState.ApiCreateSession | src/controller/interface/embedded.rs:22-33 | the controller's session id changes iff the call succeeds |
| Apis.ControllerState.ApiEndSession | src/controller/interface/embedded.rs:38-60 | the session id is cleared iff both managers ended it; without a session no request is made |
| Apis.ControllerState.ApiStartRound | src/controller/interface/embedded.rs:66-86 | the task id changes iff both managers started the round; the returned text parses back to it |
| Apis.ControllerState.ApiCollect | src/janus_manager/interface/network/consumer.rs:255-341 | a collection is asked for iff there is a task, the libraries build the collector, the leader's URL has a host and an explicit port, and there is an interval; it is asked for with the controller's own token, keypair, length and element type |
| Apis.ClientNode.GetParametrization | src/client/implementation/mod.rs:117-138 | succeeds iff both managers answer, and alike |
| Apis.ClientNode.ApiUpdateRoundSettings | src/client/interface/embedded.rs:30-50 | the first success needs equal locations and parameters and caches them; later updates replace only the task |
| Apis.ClientNode.ApiSubmitWith | src/client/interface/embedded.rs:57-78 | data is uploaded iff the update succeeded and the data, computed from the cached parameter, passes both guards, and the Janus client can be built and reaches the aggregators |
| Simulation.CreateIsRun | src/controller/interface/embedded.rs:22-33 | the call is a run of the system with the same effect on managers and controller, and draws novel ids if the leader does |
| Simulation.EndIsRun | src/controller/interface/embedded.rs:38-60 | the same for ending |
| Simulation.StartIsRun | src/controller/interface/embedded.rs:66-86 | the same for starting a round |
| Simulation.UpdateIsRun | src/client/interface/embedded.rs:30-50 | the same for a client's update |
| Simulation.SubmitIsRun | src/client/interface/embedded.rs:57-78 | the same for a client's submission |
| Outcomes.CreateOutcome | src/janus_manager/interface/network/consumer.rs:82-169 | success iff tokens are acceptable, both answers arrive and the drawn id is free at the helper; what each manager holds afterwards in every case: a session the leader made stays as an orphan if the rest fails, the helper is asked iff the leader's answer arrived and never replaces a session |
| Outcomes.StartOutcome | src/janus_manager/interface/network/consumer.rs:212-253 | success iff both answers arrive and the round is startable on both; the helper is asked iff the leader answers, be it a refusal, and each manager that got the request and can start keeps the round whatever the other does |
| Outcomes.EndOutcome | src/janus_manager/interface/network/consumer.rs:172-207 | success iff both answers arrive and both still hold the session, and both managers' whole new states; so a retry after a partial end is refused |
| Outcomes.StaleCacheUploads | src/client/implementation/mod.rs:227-235 | a concrete run with novel ids and no losses in which a client uploads data that does not fit the task's stored instance |
| Outcomes.RepeatedIdReplaces | src/janus_manager/implementation/mod.rs:202-206 | a concrete run with a repeated drawn id after which the managers hold different sessions under one id |

## Left out

- HTTP, routing, CORS, metrics, tracing, command line and configuration files: plumbing around the handlers; a handler's `Ok` or error becomes an accepting or refusing reply.
- HPKE, bearer tokens, token hashing and secret sharing: keys and tokens are opaque values, the hash is an arbitrary function.
- The syntax check of bearer tokens, the checks made when an aggregator task is built, the budget translation and the bytes of a string: arbitrary functions in `Lib`; the only assumption ever made about them is `BudgetInjective`, where it is a precondition.
- Prio3, differential privacy noise, aggregation and the answer to a collection: library code. A collection is modelled up to the request it makes, and whether the libraries build the VDAF and the collector is a parameter; a failing clock is not modelled.
- Datastore internals: a map with atomic transactions that may fail; its type checks and its other writers are not part of this model.
- The upload itself: an upload is recorded when a client makes one; whether the Janus client is built and reaches the aggregators is a parameter.
- Duplicated requests: each request is served at most once.
- Restarts of a manager in the middle of a run: a run starts with managers that have just booted on arbitrary stores.
- Which message an error carries, and the handlers' console output.
- The task deadline (`src/janus_manager/implementation/mod.rs:118`): computed and not used.
- The byte codec of `TrainingSessionId`: two bytes, would only add easy members.
- The sign of zero: no operation modelled can observe it.
- Commented-out code: 64 bit variants, the old round configuration, renewed HPKE requests.
- Eventually ending a session: only safety is claimed; see `Outcomes.EndOutcome` for why a retry does not help.
- Collecting.CollectWindow: a release build's wrapping subtraction is modelled, under which a time less than five periods after the epoch is refused by the interval check; a debug build panics there instead.
- Apis.ClientNode.GetParametrization: reads both managers at one moment; questions served late and apart are the requests of `System.dfy`, of which this call is a run.
- Apis.JanusManagerClient.CreateSession: serves each request at once or never; late and interleaved service is in `System.dfy`, of which this call is a run.
- Apis.JanusManagerClient.EndSession: the same.
- Apis.JanusManagerClient.StartRound: the same.
- Provisioner.TaskProvisioner.HandleCreateSession: runs its three sections without interruption, which `Check`, `HpkeConfigRegistry.FetchKeypair` and `Insert` are one by one; interleaved sections are in `Sections.dfy`.
- Sections.Conservation: is about orderly runs, in which drawn session ids are not in use; without that a create can replace a live session.
