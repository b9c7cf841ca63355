/** The command endpoint: the gate in front of the runner, and what a command's output becomes. */
module Exec {
  import opened Text
  import opened Token
  import opened KeyList
  import opened Paths
  import opened Output
  import opened Responses
  import Requests
  import Store

  // ---- validateArgs ----

  const MAX_REQUEST_BODY := 0x1_0000

  datatype ArgsError = WrongCount | Unsupported | HasNul | Controlled(index: nat) | TooLarge

  predicate AllowedCommand(family: string, sub: string) {
    || (family == "queue" && sub in ["create", "list", "read", "destroy"])
    || (family == "item" && sub in ["push", "pop", "list", "read", "update", "history"])
  }

  predicate ControlledFlag(arg: string) {
    || arg == "--root" || "--root=" <= arg
    || arg == "--config" || "--config=" <= arg
    || arg == "--json" || "--json=" <= arg
    || arg == "--help" || arg == "-h" || arg == "--version"
  }

  /** Exactly these ten commands are offered. */
  lemma CommandsOffered(family: string, sub: string)
    ensures AllowedCommand(family, sub) <==>
            (family, sub) in {("queue", "create"), ("queue", "list"), ("queue", "read"), ("queue", "destroy"),
                              ("item", "push"), ("item", "pop"), ("item", "list"), ("item", "read"), ("item", "update"),
                              ("item", "history")}
  {
  }

  /** Exactly these flags belong to the server, bare or with a value. */
  lemma ControlledFlags(arg: string)
    ensures ControlledFlag(arg) <==>
            || arg in {"--root", "--config", "--json", "--help", "-h", "--version"}
            || exists v: string :: arg == "--root=" + v || arg == "--config=" + v || arg == "--json=" + v
  {
    if "--root=" <= arg {
      assert arg == "--root=" + arg[7..];
    } else if "--config=" <= arg {
      assert arg == "--config=" + arg[9..];
    } else if "--json=" <= arg {
      assert arg == "--json=" + arg[7..];
    }
  }

  /** Whatever its value, such a flag in front of the terminator is refused. */
  lemma ControlledValuesRefused(args: seq<string>, i: nat, v: string)
    requires i < |args| && DASHES !in args[..i]
    requires args[i] == "--root=" + v || args[i] == "--config=" + v || args[i] == "--json=" + v
             || args[i] in {"--root", "--config", "--json", "--help", "-h", "--version"}
    ensures !Acceptable(args)
  {
    ControlledFlags(args[i]);
    assert !Ended(args, i);
  }

  const DASHES := "--"

  /** Whether a flag terminator precedes argument i. */
  predicate Ended(args: seq<string>, i: nat)
    requires i <= |args|
  {
    DASHES in args[..i]
  }

  /** Argument i stops the scan. */
  predicate Offends(args: seq<string>, i: nat)
    requires i < |args|
  {
    '\0' in args[i] || (args[i] != DASHES && !Ended(args, i) && ControlledFlag(args[i]))
  }

  function TotalLength(args: seq<string>): nat {
    if args == [] then 0 else TotalLength(args[..|args| - 1]) + ByteLen(args[|args| - 1])
  }

  /** The arguments that may reach the command. */
  predicate Acceptable(args: seq<string>) {
    && 2 <= |args| <= 64 && AllowedCommand(args[0], args[1])
    && (forall i :: 0 <= i < |args| ==> '\0' !in args[i])
    && (forall i :: 0 <= i < |args| && !Ended(args, i) ==> !ControlledFlag(args[i]))
    && TotalLength(args) <= MAX_REQUEST_BODY / 2
  }

  method ValidateArgs(args: seq<string>) returns (err: Option<ArgsError>)
    ensures err.None? <==> Acceptable(args)
    ensures err == Some(WrongCount) <==> !(2 <= |args| <= 64)
    ensures err == Some(Unsupported) <==> 2 <= |args| <= 64 && !AllowedCommand(args[0], args[1])
    ensures err.Some? && err.value.Controlled? ==>
              && err.value.index < |args| && ControlledFlag(args[err.value.index]) && !Ended(args, err.value.index)
              && forall j :: 0 <= j < err.value.index ==> !Offends(args, j)
    ensures err == Some(HasNul) ==>
              exists i :: 0 <= i < |args| && '\0' in args[i] && forall j :: 0 <= j < i ==> !Offends(args, j)
    ensures err == Some(TooLarge) ==> TotalLength(args) > MAX_REQUEST_BODY / 2 && forall i :: 0 <= i < |args| ==> !Offends(args, i)
    ensures err.None? ==>
              (args[0] == "queue" || args[0] == "item") && TotalLength(args) <= 32768
    ensures err == Some(TooLarge) ==> TotalLength(args) > 32768
  {
    if |args| < 2 || |args| > 64 {
      return Some(WrongCount);
    }
    if !AllowedCommand(args[0], args[1]) {
      return Some(Unsupported);
    }
    var flagsEnded, totalLength := false, 0;
    NothingOffends(args);
    for i := 0 to |args|
      invariant flagsEnded <==> Ended(args, i)
      invariant totalLength == TotalLength(args[..i])
      invariant forall j :: 0 <= j < i ==> !Offends(args, j)
    {
      var arg := args[i];
      assert args[..i + 1] == args[..i] + [arg];
      totalLength := totalLength + ByteLen(arg);
      if '\0' in arg {
        return Some(HasNul);
      }
      if arg == DASHES && !flagsEnded {
        flagsEnded := true;
        continue;
      }
      if flagsEnded {
        continue;
      }
      if ControlledFlag(arg) {
        DashesNotControlled();
        return Some(Controlled(i));
      }
    }
    assert args[..|args|] == args;
    if totalLength > MAX_REQUEST_BODY / 2 {
      return Some(TooLarge);
    }
    return None;
  }

  lemma DashesNotControlled()
    ensures !ControlledFlag(DASHES)
  {
    assert |DASHES| == 2;
  }

  lemma NothingOffends(args: seq<string>)
    ensures (forall i :: 0 <= i < |args| ==> !Offends(args, i)) <==>
            (forall i :: 0 <= i < |args| ==> '\0' !in args[i]) &&
            (forall i :: 0 <= i < |args| && !Ended(args, i) ==> !ControlledFlag(args[i]))
  {
    DashesNotControlled();
    if forall i :: 0 <= i < |args| ==> !Offends(args, i) {
      forall i | 0 <= i < |args| ensures '\0' !in args[i] && (Ended(args, i) || !ControlledFlag(args[i])) {
        assert !Offends(args, i);
      }
    }
  }

  // ---- End to end ----

  const CLIENT_LIMIT := 0x40_0000

  /** What the client writes to its standard output for a response: nothing unless the status is a
      success, and no more than it is willing to read. */
  function ClientPrints(r: Response): Option<seq<byte>> {
    if 200 <= r.status < 300 && r.body.Raw? then Some(Take(r.body.bytes, CLIENT_LIMIT)) else None
  }

  /** No silent truncation from end to end: for a command whose response is a success, the client prints
      the command's standard output byte for byte exactly if that fits the client's own limit, and it
      always fits when the server's output limit is no larger. */
  method ExecuteAndPrint(json: Json, binary: string, outputLimit: int, contextqRoot: string, args: seq<string>, child: Child)
    returns (response: Option<Response>, printed: Option<seq<byte>>)
    ensures printed.Some? <==>
              && binary != "" && child.interruption == NotInterrupted && child.ending == Success
              && |Flatten(child.stdout)| <= Normalised(outputLimit) && |Flatten(child.stderr)| <= Normalised(outputLimit)
              && json.valid(Flatten(child.stdout))
    ensures printed.Some? ==> (printed.value == Flatten(child.stdout) <==> |Flatten(child.stdout)| <= CLIENT_LIMIT)
    ensures printed.Some? && Normalised(outputLimit) <= CLIENT_LIMIT ==> printed.value == Flatten(child.stdout)
    ensures response.None? <==>
              && binary != "" && child.interruption == ClientGone
              && |Flatten(child.stdout)| <= Normalised(outputLimit) && |Flatten(child.stderr)| <= Normalised(outputLimit)
    ensures response.Some? && 200 <= response.value.status < 300 <==> printed.Some?
    ensures (response.Some? && response.value.status == 504) <==>
              && binary != "" && child.interruption == DeadlinePassed
              && |Flatten(child.stdout)| <= Normalised(outputLimit) && |Flatten(child.stderr)| <= Normalised(outputLimit)
    ensures (response.Some? && response.value.body.Raw? && printed.None?) <==>
              && binary != "" && child.interruption == NotInterrupted && child.ending.ExitStatus?
              && |Flatten(child.stdout)| <= Normalised(outputLimit) && |Flatten(child.stderr)| <= Normalised(outputLimit)
              && json.valid(Flatten(child.stderr))
    ensures response.Some? && response.value.body.Raw? && printed.None? ==>
              response.value.body.bytes == Flatten(child.stderr) &&
              match json.errorCode(Flatten(child.stderr))
              case None => response.value.status == 502
              case Some(code) =>
                && (response.value.status == 404 <==> code == "queue_not_found")
                && (response.value.status == 409 <==>
                      || code == "queue_name_ambiguous" || code == "duplicate_available_key" || code == "no_available_items"
                      || code == "invalid_state_transition" || code == "no_active_lifecycle")
                && (response.value.status == 400 <==> code == "force_required" || code == "error")
                && response.value.status in {400, 404, 409, 502}
    ensures response.Some? && response.value.body.ApiError? ==> response.value.status == 504 || response.value.status == 502
    ensures printed.Some? ==> |printed.value| == if |Flatten(child.stdout)| <= 4194304 then |Flatten(child.stdout)| else 4194304
    ensures printed.Some? && outputLimit <= 0 ==> printed.value == Flatten(child.stdout)
    ensures printed.Some? && outputLimit > 0 ==> |Flatten(child.stdout)| <= outputLimit && |Flatten(child.stderr)| <= outputLimit
    ensures response.Some? && response.value.body == ApiError("output_limit") ==>
              var limit := if outputLimit <= 0 then 4194304 else outputLimit;
              |Flatten(child.stdout)| > limit || |Flatten(child.stderr)| > limit
  {
    var _, result, err := RunCommand(binary, outputLimit, contextqRoot, args, child);
    response := Respond(json, result, err);
    printed := if response.Some? then ClientPrints(response.value) else None;
  }

  // ---- All requests ----

  /** Whether the store accepts the request's key for the request's own namespace. */
  predicate Authentic(e: Primitives, request: Requests.Request, keys: seq<Key>) {
    && Accepted(request.namespace) && BearerToken(request.header).Some?
    && StoreKeyId(BearerToken(request.header).value).Some?
    && Verdict(e, keys, StoreKeyId(BearerToken(request.header).value).value, BearerToken(request.header).value).Some?
  }

  function Directories(root: string, name: string): Option<(string, string)>
    requires root != ""
  {
    match (NamespaceDir(root, name), ContextqRoot(root, name))
    case (Some(dir), Some(contextqRoot)) => Some((dir, contextqRoot))
    case _ => None
  }

  function ServerGate(e: Primitives, json: Json, root: string): Requests.Gate
    requires root != ""
  {
    Requests.Gate(
      (request, keys) => Authentic(e, request, keys),
      args => Acceptable(args),
      name => Directories(root, name),
      (result, err) => Respond(json, result, err))
  }

  /** NewServer replaces a missing or negative limit. */
  function Capacity(maxConcurrent: int): nat {
    if maxConcurrent <= 0 then 32 else maxConcurrent
  }

  /** The request carries a token whose ID is bound, in the map of the keys, to a record with the token's digest. */
  predicate CarriesKey(e: Primitives, request: Requests.Request, keys: seq<Key>) {
    match BearerToken(request.header)
    case None => false
    case Some(token) =>
      match StoreKeyId(token)
      case None => false
      case Some(id) =>
        Accepted(request.namespace) && id in Bindings(keys) && HexDecode(Bindings(keys)[id].digest) == Some(e.sha256(token))
  }

  lemma AuthenticMeans(e: Primitives, request: Requests.Request, keys: seq<Key>)
    ensures Authentic(e, request, keys) <==> CarriesKey(e, request, keys)
  {
    if BearerToken(request.header).Some? && StoreKeyId(BearerToken(request.header).value).Some? {
      var token := BearerToken(request.header).value;
      VerdictIsLookup(e, keys, StoreKeyId(token).value, token);
    }
  }

  /** The files show a namespace with these keys. */
  predicate Shows(files: Store.Files, root: string, name: string, keys: seq<Key>)
    requires root != "" && Accepted(name)
  {
    Store.NsPath(root, name) in files && Store.ReadKeys(files, Store.KeysPath(root, name)) == Store.Ok(keys)
  }

  /** A request carries a key exactly if the store's own Authenticate accepts its token, on the files that show
      those keys. */
  lemma CarriesKeyIsAuthenticate(e: Primitives, request: Requests.Request, keys: seq<Key>, files: Store.Files, root: string)
    requires root != "" && Accepted(request.namespace) && Shows(files, root, request.namespace, keys)
    ensures CarriesKey(e, request, keys) <==>
            BearerToken(request.header).Some?
            && Store.AuthAnswer(e, files, root, request.namespace, BearerToken(request.header).value).Ok?
  {
    AuthenticMeans(e, request, keys);
  }

  /** Over every run of the server the runner is only called for requests that carried a key of that same
      namespace, as the namespace was at that moment, with arguments that passed the check, in that
      namespace's own directory. */
  lemma RunnerIsGated(e: Primitives, json: Json, root: string, maxConcurrent: int, events: seq<Requests.Event>, call: Requests.Call)
    requires root != ""
    requires Requests.Run(ServerGate(e, json, root), Requests.Idle(Capacity(maxConcurrent)), events).Some?
    requires call in Requests.Run(ServerGate(e, json, root), Requests.Idle(Capacity(maxConcurrent)), events).value.calls
    ensures var g, capacity := ServerGate(e, json, root), Capacity(maxConcurrent);
            var s := Requests.Run(g, Requests.Idle(capacity), events).value;
            && call.rid in s.requests && call.rid in s.admitted
            && CarriesKey(e, s.requests[call.rid], s.admitted[call.rid])
            && Requests.AdmittedBy(g, capacity, events, call.rid, s.requests[call.rid], s.admitted[call.rid])
            && s.requests[call.rid].body == Some(call.args) && Acceptable(call.args)
            && NamespaceDir(root, s.requests[call.rid].namespace) == Some(call.dir)
            && ContextqRoot(root, s.requests[call.rid].namespace) == Some(call.contextqRoot)
  {
    var g, capacity := ServerGate(e, json, root), Capacity(maxConcurrent);
    var s := Requests.Run(g, Requests.Idle(capacity), events).value;
    Requests.CallsAreGated(g, capacity, events, call);
    AuthenticMeans(e, s.requests[call.rid], s.admitted[call.rid]);
  }

  // ---- What each step of a request comes to ----

  /** A request that carries a key of its namespace is admitted; every other one, and one whose key file cannot be
      read, is answered with 401 and ends. */
  lemma AuthenticationDecides(e: Primitives, json: Json, root: string, s: Requests.Server, rid: nat, readable: bool)
    requires root != "" && Requests.InPhase(s, rid, Requests.Arrived)
    ensures var request, next := s.requests[rid], Requests.Next(ServerGate(e, json, root), s, Requests.Authenticate(rid, readable));
            next.Some? &&
            if readable && request.namespace in s.stores && CarriesKey(e, request, s.stores[request.namespace]) then
              && next.value.phases[rid] == Requests.Authenticated && next.value.sent == s.sent
              && rid in next.value.admitted && next.value.admitted[rid] == s.stores[request.namespace]
            else
              && next.value.phases[rid] == Requests.Finished && next.value.admitted == s.admitted
              && |Requests.Sent(next.value, rid)| == |Requests.Sent(s, rid)| + 1
              && Requests.Sent(next.value, rid)[|Requests.Sent(s, rid)|].status == 401
  {
    var request := s.requests[rid];
    if request.namespace in s.stores {
      AuthenticMeans(e, request, s.stores[request.namespace]);
    }
  }

  /** An admitted request goes on to wait for a permit exactly if its body was read and its arguments are
      acceptable; otherwise it is answered with 400. */
  lemma CheckDecides(e: Primitives, json: Json, root: string, s: Requests.Server, rid: nat)
    requires root != "" && Requests.InPhase(s, rid, Requests.Authenticated) && Accepted(s.requests[rid].namespace)
    ensures var body, next := s.requests[rid].body, Requests.Next(ServerGate(e, json, root), s, Requests.Check(rid));
            next.Some? &&
            if body.Some? && Acceptable(body.value) then
              next.value.phases[rid] == Requests.Waiting && next.value.sent == s.sent
            else
              && next.value.phases[rid] == Requests.Finished
              && |Requests.Sent(next.value, rid)| == |Requests.Sent(s, rid)| + 1
              && Requests.Sent(next.value, rid)[|Requests.Sent(s, rid)|].status == 400
  {
  }

  /** A waiting request gets a permit and its command is started whenever a permit is free; a request that gives
      up is answered with 503. */
  lemma WaitingStarts(e: Primitives, json: Json, root: string, s: Requests.Server, rid: nat)
    requires root != "" && Requests.InPhase(s, rid, Requests.Waiting)
    requires Accepted(s.requests[rid].namespace) && s.requests[rid].body.Some?
    ensures var g := ServerGate(e, json, root);
            var start, leave := Requests.Next(g, s, Requests.Acquire(rid)), Requests.Next(g, s, Requests.GiveUp(rid));
            && (start.Some? <==> s.permits < s.capacity)
            && (start.Some? ==>
                  && start.value.phases[rid] == Requests.Running && start.value.permits == s.permits + 1
                  && start.value.calls == s.calls + [Requests.Call(rid, NamespaceDir(root, s.requests[rid].namespace).value,
                       ContextqRoot(root, s.requests[rid].namespace).value, s.requests[rid].body.value)])
            && leave.Some? && leave.value.calls == s.calls
            && |Requests.Sent(leave.value, rid)| == |Requests.Sent(s, rid)| + 1
            && Requests.Sent(leave.value, rid)[|Requests.Sent(s, rid)|].status == 503
  {
  }

  /** A request that carries a key of its namespace and has acceptable arguments reaches the runner, when a permit
      is free. */
  lemma GoodRequestRuns(e: Primitives, json: Json, root: string, s: Requests.Server, rid: nat, request: Requests.Request)
    requires root != "" && rid !in s.phases && rid !in s.requests && s.permits < s.capacity
    requires request.namespace in s.stores && CarriesKey(e, request, s.stores[request.namespace])
    requires Accepted(request.namespace) && request.body.Some? && Acceptable(request.body.value)
    ensures var r := Requests.Run(ServerGate(e, json, root), s, Requests.UpToCall(rid, request));
            && r.Some? && r.value.sent == s.sent
            && r.value.calls == s.calls + [Requests.Call(rid, NamespaceDir(root, request.namespace).value,
                 ContextqRoot(root, request.namespace).value, request.body.value)]
  {
    var s1 := GoodRequestArrives(e, json, root, s, rid, request);
    var s2 := GoodRequestIsAdmitted(e, json, root, s1, rid, request);
    var s3 := GoodRequestWaits(e, json, root, s2, rid, request);
    var s4 := GoodRequestStarts(e, json, root, s3, rid, request);
    Requests.RunUpToCall(ServerGate(e, json, root), s, rid, request, s1, s2, s3, s4);
  }

  lemma GoodRequestArrives(e: Primitives, json: Json, root: string, s: Requests.Server, rid: nat, request: Requests.Request)
    returns (t: Requests.Server)
    requires root != "" && rid !in s.phases && rid !in s.requests
    ensures Requests.Next(ServerGate(e, json, root), s, Requests.Arrive(rid, request)) == Some(t)
    ensures Requests.InPhase(t, rid, Requests.Arrived) && t.requests[rid] == request && t.sent == s.sent
    ensures t.calls == s.calls && t.permits == s.permits && t.capacity == s.capacity && t.stores == s.stores
  {
    t := Requests.Next(ServerGate(e, json, root), s, Requests.Arrive(rid, request)).value;
  }

  lemma GoodRequestStarts(e: Primitives, json: Json, root: string, s: Requests.Server, rid: nat, request: Requests.Request)
    returns (t: Requests.Server)
    requires root != "" && Requests.InPhase(s, rid, Requests.Waiting) && s.requests[rid] == request && s.permits < s.capacity
    requires Accepted(request.namespace) && request.body.Some?
    ensures Requests.Next(ServerGate(e, json, root), s, Requests.Acquire(rid)) == Some(t) && t.sent == s.sent
    ensures t.calls == s.calls + [Requests.Call(rid, NamespaceDir(root, request.namespace).value,
                                                ContextqRoot(root, request.namespace).value, request.body.value)]
  {
    WaitingStarts(e, json, root, s, rid);
    t := Requests.Next(ServerGate(e, json, root), s, Requests.Acquire(rid)).value;
  }

  lemma GoodRequestIsAdmitted(e: Primitives, json: Json, root: string, s: Requests.Server, rid: nat, request: Requests.Request)
    returns (t: Requests.Server)
    requires root != "" && Requests.InPhase(s, rid, Requests.Arrived) && s.requests[rid] == request
    requires request.namespace in s.stores && CarriesKey(e, request, s.stores[request.namespace])
    ensures Requests.Next(ServerGate(e, json, root), s, Requests.Authenticate(rid, true)) == Some(t)
    ensures Requests.InPhase(t, rid, Requests.Authenticated) && t.requests == s.requests && t.sent == s.sent
    ensures t.calls == s.calls && t.permits == s.permits && t.capacity == s.capacity
  {
    AuthenticMeans(e, request, s.stores[request.namespace]);
    t := Requests.Next(ServerGate(e, json, root), s, Requests.Authenticate(rid, true)).value;
  }

  lemma GoodRequestWaits(e: Primitives, json: Json, root: string, s: Requests.Server, rid: nat, request: Requests.Request)
    returns (t: Requests.Server)
    requires root != "" && Requests.InPhase(s, rid, Requests.Authenticated) && s.requests[rid] == request
    requires Accepted(request.namespace) && request.body.Some? && Acceptable(request.body.value)
    ensures Requests.Next(ServerGate(e, json, root), s, Requests.Check(rid)) == Some(t)
    ensures Requests.InPhase(t, rid, Requests.Waiting) && t.requests == s.requests && t.sent == s.sent
    ensures t.calls == s.calls && t.permits == s.permits && t.capacity == s.capacity
  {
    t := Requests.Next(ServerGate(e, json, root), s, Requests.Check(rid)).value;
  }

  /** No more commands run at once than configured, or 32. */
  lemma PermitsWithin(e: Primitives, json: Json, root: string, maxConcurrent: int, events: seq<Requests.Event>)
    requires root != ""
    requires Requests.Run(ServerGate(e, json, root), Requests.Idle(Capacity(maxConcurrent)), events).Some?
    ensures var s := Requests.Run(ServerGate(e, json, root), Requests.Idle(Capacity(maxConcurrent)), events).value;
            && |Requests.Holders(s.phases)| <= (if maxConcurrent <= 0 then 32 else maxConcurrent)
            && s.capacity == (if maxConcurrent <= 0 then 32 else maxConcurrent)
  {
    Requests.SemaphoreBounds(ServerGate(e, json, root), Capacity(maxConcurrent), events);
  }

  /** Over every run of the server a finished request has had exactly one response, or none if and only if the
      runner was called for it and reported cancellation. */
  lemma SilentOnlyForTheGone(e: Primitives, json: Json, root: string, maxConcurrent: int, events: seq<Requests.Event>, rid: nat)
    requires root != ""
    requires Requests.Run(ServerGate(e, json, root), Requests.Idle(Capacity(maxConcurrent)), events).Some?
    requires var s := Requests.Run(ServerGate(e, json, root), Requests.Idle(Capacity(maxConcurrent)), events).value;
             rid in s.phases && s.phases[rid] == Requests.Finished
    ensures var s := Requests.Run(ServerGate(e, json, root), Requests.Idle(Capacity(maxConcurrent)), events).value;
            && |Requests.Sent(s, rid)| <= 1
            && (Requests.Sent(s, rid) == [] <==> rid in s.returned && s.returned[rid].1 == Some(Canceled))
            && (rid in s.returned ==> Requests.Called(s, rid))
  {
    var g, capacity := ServerGate(e, json, root), Capacity(maxConcurrent);
    var s := Requests.Run(g, Requests.Idle(capacity), events).value;
    Requests.OneAnswerEach(g, capacity, events, rid);
    if rid in s.returned {
      SilentOnlyWhenCanceled(json, s.returned[rid].0, s.returned[rid].1);
    }
  }
}
