/** All requests of the command endpoint together, as a state machine around the semaphore. */
module Requests {
  import opened Text
  import opened KeyList
  import opened Output
  import opened Responses

  /** A request as it arrives. body is None when it is not one JSON object with a list of arguments. */
  datatype Request = Request(namespace: string, header: string, body: Option<seq<string>>)

  /** What a request has to pass, where its command runs, and what the runner's outcome is answered with. */
  datatype Gate = Gate(
    authentic: (Request, seq<Key>) -> bool,
    acceptable: seq<string> -> bool,
    directories: string -> Option<(string, string)>,
    respond: (Result, Option<RunError>) -> Option<Response>)

  datatype Phase =
    | Arrived
    | Authenticated                     // the key was accepted; next: the body and its arguments
    | Waiting                           // for a permit
    | Running                           // holds a permit; the runner has been called
    | Answered                          // the answer is sent; the permit is still held
    | Finished

  /** What the runner is called with. */
  datatype Call = Call(rid: nat, dir: string, contextqRoot: string, args: seq<string>)

  /** stores holds the current keys of the namespaces that exist; admitted remembers the keys that a
      request was authenticated against, returned what the runner returned for it, and sent what it was
      answered with. */
  datatype Server = Server(
    capacity: nat,
    stores: map<string, seq<Key>>,
    requests: map<nat, Request>, phases: map<nat, Phase>,
    permits: nat,
    admitted: map<nat, seq<Key>>,
    calls: seq<Call>,
    returned: map<nat, (Result, Option<RunError>)>,
    sent: map<nat, seq<Response>>)

  datatype Event =
    | Change(stores: map<string, seq<Key>>)            // keys are issued and revoked at any time
    | Arrive(rid: nat, request: Request)
    | Authenticate(rid: nat, readable: bool)            // the key file may be unreadable
    | Check(rid: nat)
    | Acquire(rid: nat)
    | GiveUp(rid: nat)                                 // the deadline passes before a permit is free
    | Return(rid: nat, result: Result, err: Option<RunError>)
    | Release(rid: nat)

  function Idle(capacity: nat): Server {
    Server(capacity, map[], map[], map[], 0, map[], [], map[], map[])
  }

  function Send(s: Server, rid: nat, response: Response): Server {
    s.(sent := s.sent[rid := Sent(s, rid) + [response]])
  }

  function Sent(s: Server, rid: nat): seq<Response> {
    if rid in s.sent then s.sent[rid] else []
  }

  function Goto(s: Server, rid: nat, phase: Phase): Server {
    s.(phases := s.phases[rid := phase])
  }

  predicate InPhase(s: Server, rid: nat, phase: Phase) {
    rid in s.phases && rid in s.requests && s.phases[rid] == phase
  }

  function CallFor(g: Gate, request: Request, rid: nat): Option<Call> {
    match (g.directories(request.namespace), request.body)
    case (Some(dirs), Some(args)) => Some(Call(rid, dirs.0, dirs.1, args))
    case _ => None
  }

  /** One step of one request; None when the event cannot happen. */
  function Next(g: Gate, s: Server, event: Event): (r: Option<Server>)
    ensures r.Some? ==> r.value.capacity == s.capacity
  {
    match event
    case Change(stores) => Some(s.(stores := stores))
    case Arrive(rid, request) =>
      if rid in s.phases || rid in s.requests then None
      else Some(Goto(s.(requests := s.requests[rid := request]), rid, Arrived))
    case Authenticate(rid, readable) =>
      if !InPhase(s, rid, Arrived) then None
      else
        var request := s.requests[rid];
        if readable && request.namespace in s.stores && g.authentic(request, s.stores[request.namespace])
        then Some(Goto(s.(admitted := s.admitted[rid := s.stores[request.namespace]]), rid, Authenticated))
        else Some(Goto(Send(s, rid, UNAUTHORIZED), rid, Finished))
    case Check(rid) =>
      if !InPhase(s, rid, Authenticated) then None
      else
        var body := s.requests[rid].body;
        if body.None? then Some(Goto(Send(s, rid, INVALID_REQUEST), rid, Finished))
        else if !g.acceptable(body.value) then Some(Goto(Send(s, rid, INVALID_ARGUMENTS), rid, Finished))
        else if CallFor(g, s.requests[rid], rid).None? then Some(Goto(Send(s, rid, UNAUTHORIZED), rid, Finished))
        else Some(Goto(s, rid, Waiting))
    case Acquire(rid) =>
      if !InPhase(s, rid, Waiting) || s.permits >= s.capacity || CallFor(g, s.requests[rid], rid).None? then None
      else Some(Goto(s.(permits := s.permits + 1, calls := s.calls + [CallFor(g, s.requests[rid], rid).value]), rid, Running))
    case GiveUp(rid) => if !InPhase(s, rid, Waiting) then None else Some(Goto(Send(s, rid, SERVER_BUSY), rid, Finished))
    case Return(rid, result, err) =>
      if !InPhase(s, rid, Running) then None
      else
        var s' := s.(returned := s.returned[rid := (result, err)]);
        var response := g.respond(result, err);
        Some(Goto(if response.Some? then Send(s', rid, response.value) else s', rid, Answered))
    case Release(rid) =>
      if !InPhase(s, rid, Answered) || s.permits == 0 then None
      else Some(Goto(s.(permits := s.permits - 1), rid, Finished))
  }

  function Run(g: Gate, s: Server, events: seq<Event>): (r: Option<Server>)
    ensures r.Some? ==> r.value.capacity == s.capacity
  {
    if events == [] then Some(s)
    else
      match Run(g, s, events[..|events| - 1])
      case None => None
      case Some(m) => Next(g, m, events[|events| - 1])
  }

  lemma RunSnoc(g: Gate, s: Server, events: seq<Event>, event: Event, m: Server)
    requires Run(g, s, events) == Some(m)
    ensures Run(g, s, events + [event]) == Next(g, m, event)
  {
    var all := events + [event];
    assert all[..|all| - 1] == events;
  }

  lemma RunFour(g: Gate, s: Server, events: seq<Event>, s1: Server, s2: Server, s3: Server)
    requires |events| == 4 && Next(g, s, events[0]) == Some(s1) && Next(g, s1, events[1]) == Some(s2)
    requires Next(g, s2, events[2]) == Some(s3)
    ensures Run(g, s, events) == Next(g, s3, events[3])
  {
    RunSnoc(g, s, [], events[0], s);
    RunSnoc(g, s, [] + [events[0]], events[1], s1);
    RunSnoc(g, s, [] + [events[0]] + [events[1]], events[2], s2);
    RunSnoc(g, s, [] + [events[0]] + [events[1]] + [events[2]], events[3], s3);
    assert [] + [events[0]] + [events[1]] + [events[2]] + [events[3]] == events;
  }

  /** The steps of one request, up to its command. */
  function UpToCall(rid: nat, request: Request): seq<Event> {
    [Arrive(rid, request), Authenticate(rid, true), Check(rid), Acquire(rid)]
  }

  lemma RunUpToCall(g: Gate, s: Server, rid: nat, request: Request, s1: Server, s2: Server, s3: Server, s4: Server)
    requires Next(g, s, Arrive(rid, request)) == Some(s1) && Next(g, s1, Authenticate(rid, true)) == Some(s2)
    requires Next(g, s2, Check(rid)) == Some(s3) && Next(g, s3, Acquire(rid)) == Some(s4)
    ensures Run(g, s, UpToCall(rid, request)) == Some(s4)
  {
    RunFour(g, s, UpToCall(rid, request), s1, s2, s3);
  }

  // ---- The invariant ----

  function Holders(phases: map<nat, Phase>): set<nat> {
    set rid | rid in phases && (phases[rid] == Running || phases[rid] == Answered)
  }

  /** The permits in use are exactly the requests between acquiring and returning theirs. */
  ghost predicate PermitsOk(s: Server) {
    s.permits == |Holders(s.phases)| && s.permits <= s.capacity
  }

  /** What the runner's outcome is answered with. */
  function Answer(g: Gate, outcome: (Result, Option<RunError>)): seq<Response> {
    match g.respond(outcome.0, outcome.1)
    case None => []
    case Some(response) => [response]
  }

  predicate IsRefusal(response: Response) {
    response == UNAUTHORIZED || response == INVALID_REQUEST || response == INVALID_ARGUMENTS || response == SERVER_BUSY
  }

  /** No answer before its time; then the one for the runner's outcome, or one refusal. */
  predicate AnswersOk(g: Gate, s: Server, rid: nat, phase: Phase) {
    match phase
    case Answered => rid in s.returned && Sent(s, rid) == Answer(g, s.returned[rid])
    case Finished =>
      if rid in s.returned then rid in s.admitted && Sent(s, rid) == Answer(g, s.returned[rid])
      else |Sent(s, rid)| == 1 && IsRefusal(Sent(s, rid)[0]) && (rid !in s.admitted ==> Sent(s, rid)[0] == UNAUTHORIZED)
    case _ => Sent(s, rid) == [] && rid !in s.returned
  }

  predicate AdmissionOk(g: Gate, s: Server, rid: nat) {
    rid in s.requests && rid in s.admitted && g.authentic(s.requests[rid], s.admitted[rid])
  }

  predicate GateOk(g: Gate, s: Server, rid: nat, phase: Phase) {
    && (phase == Arrived ==> rid !in s.admitted)
    && (phase == Authenticated || phase == Waiting || phase == Running || phase == Answered ==> AdmissionOk(g, s, rid))
    && (phase == Waiting || phase == Running || phase == Answered ==>
          rid in s.requests && s.requests[rid].body.Some? && g.acceptable(s.requests[rid].body.value))
  }

  /** A call of the runner belongs to a request that was authenticated for its own namespace and whose
      arguments passed the check, and is made in the directory of that namespace. */
  ghost predicate CallOk(g: Gate, s: Server, call: Call) {
    && AdmissionOk(g, s, call.rid)
    && s.requests[call.rid].body == Some(call.args) && g.acceptable(call.args)
    && g.directories(s.requests[call.rid].namespace) == Some((call.dir, call.contextqRoot))
  }

  ghost predicate Called(s: Server, rid: nat) {
    exists call :: call in s.calls && call.rid == rid
  }

  ghost predicate RequestOk(g: Gate, s: Server, rid: nat) {
    if rid in s.phases then
      && rid in s.requests && AnswersOk(g, s, rid, s.phases[rid]) && GateOk(g, s, rid, s.phases[rid])
      && (s.phases[rid] == Running || rid in s.returned ==> Called(s, rid))
    else Sent(s, rid) == [] && rid !in s.returned && rid !in s.admitted
  }

  ghost predicate Inv(g: Gate, s: Server) {
    && PermitsOk(s)
    && (forall rid :: RequestOk(g, s, rid))
    && (forall call :: call in s.calls ==> CallOk(g, s, call))
  }

  lemma HoldersMove(phases: map<nat, Phase>, rid: nat, phase: Phase)
    ensures var h, h' := Holders(phases), Holders(phases[rid := phase]);
            h' == if phase == Running || phase == Answered then h + {rid} else h - {rid}
  {
  }

  lemma HoldersCount(s: Server, rid: nat, phase: Phase)
    requires PermitsOk(s)
    ensures var held := rid in s.phases && (s.phases[rid] == Running || s.phases[rid] == Answered);
            var holds := phase == Running || phase == Answered;
            |Holders(s.phases[rid := phase])| == s.permits + (if holds then 1 else 0) - (if held then 1 else 0)
  {
    HoldersMove(s.phases, rid, phase);
  }

  /** Requests and the keys they were admitted with do not change once they are there. */
  predicate Grows(s: Server, s': Server) {
    && (forall rid :: rid in s.requests ==> rid in s'.requests && s'.requests[rid] == s.requests[rid])
    && (forall rid :: rid in s.admitted && rid in s.requests ==>
          rid in s'.admitted && (s'.admitted[rid] == s.admitted[rid]))
  }

  lemma CallsKept(g: Gate, s: Server, s': Server)
    requires Grows(s, s') && forall call :: call in s.calls ==> CallOk(g, s, call)
    ensures forall call :: call in s.calls ==> CallOk(g, s', call)
  {
  }

  lemma CalledKept(s: Server, s': Server)
    requires s.calls <= s'.calls
    ensures forall rid :: Called(s, rid) ==> Called(s', rid)
  {
    forall rid | Called(s, rid) ensures Called(s', rid) {
      var call :| call in s.calls && call.rid == rid;
      assert call in s'.calls;
    }
  }

  /** A step that concerns one request only. */
  ghost predicate Local(s: Server, s': Server, rid: nat, phase: Phase) {
    && s'.phases == s.phases[rid := phase] && s'.capacity == s.capacity
    && (forall r :: r != rid ==>
          && Sent(s', r) == Sent(s, r)
          && (r in s'.returned <==> r in s.returned) && (r in s'.returned ==> s'.returned[r] == s.returned[r])
          && (r in s'.admitted <==> r in s.admitted) && (r in s'.admitted ==> s'.admitted[r] == s.admitted[r]))
    && s.calls <= s'.calls && Grows(s, s')
  }

  lemma OthersKept(g: Gate, s: Server, s': Server, rid: nat, phase: Phase, r: nat)
    requires Local(s, s', rid, phase) && RequestOk(g, s, r) && r != rid
    ensures RequestOk(g, s', r)
  {
    CalledKept(s, s');
  }

  /** A local step keeps the invariant when its own request stays in order, the permits are counted, and a
      new call passed the gate. */
  lemma LocalInv(g: Gate, s: Server, s': Server, rid: nat, phase: Phase)
    requires Inv(g, s) && Local(s, s', rid, phase) && PermitsOk(s') && RequestOk(g, s', rid)
    requires forall i :: |s.calls| <= i < |s'.calls| ==> CallOk(g, s', s'.calls[i])
    ensures Inv(g, s')
  {
    forall r ensures RequestOk(g, s', r) {
      assert RequestOk(g, s, r);
      if r != rid {
        OthersKept(g, s, s', rid, phase, r);
      }
    }
    CallsKept(g, s, s');
    forall i | 0 <= i < |s'.calls| ensures CallOk(g, s', s'.calls[i]) {
      if i < |s.calls| {
        assert s'.calls[i] == s.calls[i];
      }
    }
  }

  lemma ArriveInv(g: Gate, s: Server, rid: nat, request: Request)
    requires Inv(g, s) && Next(g, s, Arrive(rid, request)).Some?
    ensures Inv(g, Next(g, s, Arrive(rid, request)).value)
  {
    var s' := Next(g, s, Arrive(rid, request)).value;
    assert RequestOk(g, s, rid);
    HoldersCount(s, rid, s'.phases[rid]);
    LocalInv(g, s, s', rid, s'.phases[rid]);
  }

  lemma AuthenticateInv(g: Gate, s: Server, rid: nat, readable: bool)
    requires Inv(g, s) && Next(g, s, Authenticate(rid, readable)).Some?
    ensures Inv(g, Next(g, s, Authenticate(rid, readable)).value)
  {
    var s' := Next(g, s, Authenticate(rid, readable)).value;
    assert RequestOk(g, s, rid);
    HoldersCount(s, rid, s'.phases[rid]);
    LocalInv(g, s, s', rid, s'.phases[rid]);
  }

  lemma CheckInv(g: Gate, s: Server, rid: nat)
    requires Inv(g, s) && Next(g, s, Check(rid)).Some?
    ensures Inv(g, Next(g, s, Check(rid)).value)
  {
    var body := s.requests[rid].body;
    if body.None? {
      RefuseInv(g, s, rid, INVALID_REQUEST);
    } else if !g.acceptable(body.value) {
      RefuseInv(g, s, rid, INVALID_ARGUMENTS);
    } else if CallFor(g, s.requests[rid], rid).None? {
      RefuseInv(g, s, rid, UNAUTHORIZED);
    } else {
      WaitInv(g, s, rid);
    }
  }

  lemma RefuseInv(g: Gate, s: Server, rid: nat, response: Response)
    requires Inv(g, s) && InPhase(s, rid, Authenticated) && IsRefusal(response)
    ensures Inv(g, Goto(Send(s, rid, response), rid, Finished))
  {
    var s' := Goto(Send(s, rid, response), rid, Finished);
    assert RequestOk(g, s, rid);
    HoldersCount(s, rid, Finished);
    LocalInv(g, s, s', rid, Finished);
  }

  lemma WaitInv(g: Gate, s: Server, rid: nat)
    requires Inv(g, s) && InPhase(s, rid, Authenticated)
    requires var body := s.requests[rid].body;
             body.Some? && g.acceptable(body.value) && CallFor(g, s.requests[rid], rid).Some?
    ensures Inv(g, Goto(s, rid, Waiting))
  {
    assert RequestOk(g, s, rid);
    HoldersCount(s, rid, Waiting);
    LocalInv(g, s, Goto(s, rid, Waiting), rid, Waiting);
  }

  lemma AcquireInv(g: Gate, s: Server, rid: nat)
    requires Inv(g, s) && Next(g, s, Acquire(rid)).Some?
    ensures Inv(g, Next(g, s, Acquire(rid)).value)
  {
    var s' := Next(g, s, Acquire(rid)).value;
    assert RequestOk(g, s, rid);
    assert s'.calls[|s.calls|].rid == rid;
    HoldersCount(s, rid, s'.phases[rid]);
    LocalInv(g, s, s', rid, s'.phases[rid]);
  }

  lemma GiveUpInv(g: Gate, s: Server, rid: nat)
    requires Inv(g, s) && Next(g, s, GiveUp(rid)).Some?
    ensures Inv(g, Next(g, s, GiveUp(rid)).value)
  {
    var s' := Next(g, s, GiveUp(rid)).value;
    assert RequestOk(g, s, rid);
    HoldersCount(s, rid, s'.phases[rid]);
    LocalInv(g, s, s', rid, s'.phases[rid]);
  }

  lemma ReturnInv(g: Gate, s: Server, rid: nat, result: Result, err: Option<RunError>)
    requires Inv(g, s) && Next(g, s, Return(rid, result, err)).Some?
    ensures Inv(g, Next(g, s, Return(rid, result, err)).value)
  {
    assert RequestOk(g, s, rid);
    var m := s.(returned := s.returned[rid := (result, err)]);
    var response := g.respond(result, err);
    if response.Some? {
      AnsweredInv(g, s, Send(m, rid, response.value), rid, (result, err));
    } else {
      AnsweredInv(g, s, m, rid, (result, err));
    }
  }

  lemma AnsweredInv(g: Gate, s: Server, m: Server, rid: nat, outcome: (Result, Option<RunError>))
    requires Inv(g, s) && InPhase(s, rid, Running)
    requires m == s.(returned := s.returned[rid := outcome], sent := m.sent)
    requires Sent(m, rid) == Answer(g, outcome) && forall r :: r != rid ==> Sent(m, r) == Sent(s, r)
    ensures Inv(g, Goto(m, rid, Answered))
  {
    var s' := Goto(m, rid, Answered);
    assert RequestOk(g, s, rid);
    assert Called(s, rid);
    CalledKept(s, s');
    HoldersCount(s, rid, Answered);
    LocalInv(g, s, s', rid, Answered);
  }

  lemma ReleaseInv(g: Gate, s: Server, rid: nat)
    requires Inv(g, s) && Next(g, s, Release(rid)).Some?
    ensures Inv(g, Next(g, s, Release(rid)).value)
  {
    var s' := Next(g, s, Release(rid)).value;
    assert RequestOk(g, s, rid);
    HoldersCount(s, rid, s'.phases[rid]);
    LocalInv(g, s, s', rid, s'.phases[rid]);
  }

  lemma NextInv(g: Gate, s: Server, event: Event)
    requires Inv(g, s) && Next(g, s, event).Some?
    ensures Inv(g, Next(g, s, event).value)
  {
    match event
    case Change(stores) =>
      var s' := Next(g, s, event).value;
      forall rid ensures RequestOk(g, s', rid) {
        assert RequestOk(g, s, rid);
      }
      CallsKept(g, s, s');
    case Arrive(rid, request) => ArriveInv(g, s, rid, request);
    case Authenticate(rid, readable) => AuthenticateInv(g, s, rid, readable);
    case Check(rid) => CheckInv(g, s, rid);
    case Acquire(rid) => AcquireInv(g, s, rid);
    case GiveUp(rid) => GiveUpInv(g, s, rid);
    case Return(rid, result, err) => ReturnInv(g, s, rid, result, err);
    case Release(rid) => ReleaseInv(g, s, rid);
  }

  lemma {:induction false} RunInv(g: Gate, capacity: nat, events: seq<Event>)
    requires Run(g, Idle(capacity), events).Some?
    ensures Inv(g, Run(g, Idle(capacity), events).value)
    decreases |events|
  {
    if events == [] {
      assert Holders(map[]) == {};
    } else {
      var n := |events| - 1;
      RunInv(g, capacity, events[..n]);
      NextInv(g, Run(g, Idle(capacity), events[..n]).value, events[n]);
    }
  }

  /** Over every interleaving the semaphore counts the requests between acquiring and returning a permit,
      stays within its capacity, and is free when all requests are finished. */
  lemma SemaphoreBounds(g: Gate, capacity: nat, events: seq<Event>)
    requires Run(g, Idle(capacity), events).Some?
    ensures var s := Run(g, Idle(capacity), events).value;
            && s.permits == |Holders(s.phases)| && s.permits <= capacity
            && ((forall rid :: rid in s.phases ==> s.phases[rid] == Finished) ==> s.permits == 0)
  {
    RunInv(g, capacity, events);
    var s := Run(g, Idle(capacity), events).value;
    if forall rid :: rid in s.phases ==> s.phases[rid] == Finished {
      assert Holders(s.phases) == {};
    }
  }

  /** Where the keys of an admission come from: at some event of the run the request was authenticated, and
      they were then the keys of the namespace that the request names. */
  ghost predicate AdmittedBy(g: Gate, capacity: nat, events: seq<Event>, rid: nat, request: Request, keys: seq<Key>) {
    exists i :: 0 <= i < |events| && events[i] == Authenticate(rid, true) && Run(g, Idle(capacity), events[..i]).Some?
      && OwnKeys(Run(g, Idle(capacity), events[..i]).value, rid, request, keys)
  }

  predicate OwnKeys(s: Server, rid: nat, request: Request, keys: seq<Key>) {
    && rid in s.requests && s.requests[rid] == request
    && request.namespace in s.stores && s.stores[request.namespace] == keys
  }

  lemma AdmittedSnoc(g: Gate, capacity: nat, events: seq<Event>, rid: nat, request: Request, keys: seq<Key>)
    requires events != [] && Run(g, Idle(capacity), events).Some?
    requires var n := |events| - 1;
             || AdmittedBy(g, capacity, events[..n], rid, request, keys)
             || (events[n] == Authenticate(rid, true) && OwnKeys(Run(g, Idle(capacity), events[..n]).value, rid, request, keys))
    ensures AdmittedBy(g, capacity, events, rid, request, keys)
  {
    var n := |events| - 1;
    var init := events[..n];
    if AdmittedBy(g, capacity, init, rid, request, keys) {
      var i :| 0 <= i < n && init[i] == Authenticate(rid, true) && Run(g, Idle(capacity), init[..i]).Some?
               && OwnKeys(Run(g, Idle(capacity), init[..i]).value, rid, request, keys);
      assert events[..i] == init[..i] && events[i] == init[i];
    }
  }

  lemma AdmissionStep(g: Gate, s: Server, event: Event, rid: nat)
    requires Inv(g, s) && Next(g, s, event).Some? && rid in Next(g, s, event).value.admitted
    ensures var s' := Next(g, s, event).value;
            && rid in s'.requests
            && (|| (rid in s.admitted && rid in s.requests && s.requests[rid] == s'.requests[rid] && s.admitted[rid] == s'.admitted[rid])
                || (event == Authenticate(rid, true) && OwnKeys(s, rid, s'.requests[rid], s'.admitted[rid])))
  {
    assert RequestOk(g, s, rid);
  }

  lemma {:induction false} AdmissionsAreOwn(g: Gate, capacity: nat, events: seq<Event>, rid: nat)
    requires Run(g, Idle(capacity), events).Some? && rid in Run(g, Idle(capacity), events).value.admitted
    ensures var s := Run(g, Idle(capacity), events).value;
            rid in s.requests && AdmittedBy(g, capacity, events, rid, s.requests[rid], s.admitted[rid])
    decreases |events|
  {
    if events != [] {
      var n := |events| - 1;
      var m := Run(g, Idle(capacity), events[..n]).value;
      RunInv(g, capacity, events[..n]);
      AdmissionStep(g, m, events[n], rid);
      if rid in m.admitted {
        AdmissionsAreOwn(g, capacity, events[..n], rid);
      }
      var s := Run(g, Idle(capacity), events).value;
      AdmittedSnoc(g, capacity, events, rid, s.requests[rid], s.admitted[rid]);
    }
  }

  /** The runner is only called for requests that were authenticated against the keys which their own
      namespace had at that moment, with arguments that passed the check, in that namespace's directory. */
  lemma CallsAreGated(g: Gate, capacity: nat, events: seq<Event>, call: Call)
    requires Run(g, Idle(capacity), events).Some?
    requires call in Run(g, Idle(capacity), events).value.calls
    ensures var s := Run(g, Idle(capacity), events).value;
            && AdmissionOk(g, s, call.rid) && g.acceptable(call.args) && s.requests[call.rid].body == Some(call.args)
            && AdmittedBy(g, capacity, events, call.rid, s.requests[call.rid], s.admitted[call.rid])
            && g.directories(s.requests[call.rid].namespace) == Some((call.dir, call.contextqRoot))
  {
    RunInv(g, capacity, events);
    AdmissionsAreOwn(g, capacity, events, call.rid);
  }

  /** A finished request for which the runner was called has had exactly the answer that belongs to what the
      runner returned; any other one has had exactly one refusal, and 401 when it was not authenticated. No
      request ever has two answers. */
  lemma OneAnswerEach(g: Gate, capacity: nat, events: seq<Event>, rid: nat)
    requires Run(g, Idle(capacity), events).Some?
    ensures var s := Run(g, Idle(capacity), events).value;
            && (rid in s.phases && s.phases[rid] == Finished ==>
                  if rid in s.returned then Sent(s, rid) == Answer(g, s.returned[rid])
                  else |Sent(s, rid)| == 1 && IsRefusal(Sent(s, rid)[0]) && (rid !in s.admitted ==> Sent(s, rid)[0] == UNAUTHORIZED))
            && (rid in s.returned ==> Called(s, rid))
            && |Sent(s, rid)| <= 1
  {
    RunInv(g, capacity, events);
    assert RequestOk(g, Run(g, Idle(capacity), events).value, rid);
  }
}
