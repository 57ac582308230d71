/**
  What the handlers of web-api/main.py promise, proved about the value model of
  module Requests: the credential guards come before any radio traffic, a
  request makes its whole session or stops at the first exception, the
  dispatch makes only the action the model and operation ask for, a request
  that fails does not disconnect, and every reply carries the outcome of its
  run.
 */
module Properties {
  import opened Wrappers
  import opened Ble
  import opened Execution
  import opened Requests
  import Configuration

  /** The calls `get_device_instance` makes when the guards pass and the device is found. */
  function InstanceCalls(s: Settings): seq<Call> {
    [Scan(s.bleUuid, s.scanDuration), SetKey(KeyOf(s))]
  }

  const LoginCalls: seq<Call> := [Connect, WaitForLogin]
  const ClosingCalls: seq<Call> := [GetMechStatus, Call.GetDeviceStatus, Disconnect]

  /**
    The operations the API accepts for a model: toggle, lock and unlock for
    the SESAME 2 and 4, click for the Bot, and anything for a model the
    dispatch does not name.
   */
  predicate Supported(m: ProductModel, operation: string) {
    (IsLockFamily(m) ==> operation == "toggle" || operation == "lock" || operation == "unlock") &&
    (m == SesameBot1 ==> operation == "click")
  }

  /** The product family named in the "not supported" message. */
  function Family(m: ProductModel): string {
    if IsLockFamily(m) then LockFamilyName else BotFamilyName
  }

  /** The action call, if any, of an accepted operation. */
  function ActionCalls(m: ProductModel, operation: string, tag: string): seq<Call> {
    match ActionCall(m, operation, tag)
    case None => []
    case Some(c) => [c]
  }

  /** Every call an accepted operation makes, in order, when nothing raises. */
  function SessionCalls(s: Settings, p: Peripheral, operation: string, tag: string): seq<Call> {
    InstanceCalls(s) + LoginCalls + ActionCalls(p.model, operation, tag) + ClosingCalls
  }

  /** Every call a status request makes, in order, when nothing raises. */
  function StatusCalls(s: Settings): seq<Call> {
    InstanceCalls(s) + LoginCalls + ClosingCalls
  }

  predicate NoneRaises(calls: seq<Call>, faults: map<Call, string>) {
    forall c :: c in calls ==> c !in faults
  }

  lemma InstanceInvokes(s: Settings, inRange: Option<Peripheral>)
    requires Located(s, inRange).Some?
    ensures InstancePlan(s, inRange) == Invokes(InstanceCalls(s))
  {
  }

  lemma SessionInvokes(s: Settings, p: Peripheral, operation: string, tag: string)
    requires Supported(p.model, operation)
    ensures Login + ActionSteps(p.model, operation, tag) + Closing
         == Invokes(LoginCalls + ActionCalls(p.model, operation, tag) + ClosingCalls)
  {
    var action := ActionCalls(p.model, operation, tag);
    assert ActionSteps(p.model, operation, tag) == Invokes(action);
    var calls := LoginCalls + action + ClosingCalls;
    assert |calls| == 5 + |action|;
    assert forall i :: 0 <= i < |calls| ==>
      (Login + Invokes(action) + Closing)[i] == Invoke(calls[i]);
  }

  lemma StatusSessionInvokes()
    ensures Login + Closing == Invokes(LoginCalls + ClosingCalls)
  {
    var calls := LoginCalls + ClosingCalls;
    assert forall i :: 0 <= i < |calls| ==> (Login + Closing)[i] == Invoke(calls[i]);
  }

  lemma InvokesAppend(a: seq<Call>, b: seq<Call>)
    ensures Invokes(a + b) == Invokes(a) + Invokes(b)
  {
    assert forall i :: 0 <= i < |a + b| ==> (Invokes(a) + Invokes(b))[i] == Invoke((a + b)[i]);
  }

  lemma NoneRaisesIndexed(calls: seq<Call>, faults: map<Call, string>)
    ensures NoneRaises(calls, faults) <==> forall i :: 0 <= i < |calls| ==> calls[i] !in faults
  {
  }

  /** An accepted operation on a located device plans exactly its session calls. */
  lemma OperationPlanOfSession(s: Settings, w: World, operation: string, tag: string)
    requires Located(s, w.inRange).Some? && Supported(Located(s, w.inRange).value.model, operation)
    ensures OperationPlan(s, w.inRange, operation, tag)
         == Invokes(SessionCalls(s, Located(s, w.inRange).value, operation, tag))
  {
    var p := Located(s, w.inRange).value;
    var rest := LoginCalls + ActionCalls(p.model, operation, tag) + ClosingCalls;
    InstanceInvokes(s, w.inRange);
    SessionInvokes(s, p, operation, tag);
    InvokesAppend(InstanceCalls(s), rest);
    assert InstanceCalls(s) + rest == SessionCalls(s, p, operation, tag);
    assert Login + ActionSteps(p.model, operation, tag) + Closing == Invokes(rest);
  }

  /**
    `perform_device_operation` ends without an exception exactly when the
    guards pass, the device is found, the operation is one its model accepts
    and none of the calls of the session raises; it then has made all of them,
    in order, and returns the success dict of that device.
   */
  lemma OperationSucceedsExactly(s: Settings, w: World, operation: string, tag: string)
    ensures var r := OperationRun(s, w, operation, tag);
      r.error.None? <==>
        Located(s, w.inRange).Some? &&
        Supported(Located(s, w.inRange).value.model, operation) &&
        NoneRaises(SessionCalls(s, Located(s, w.inRange).value, operation, tag), w.faults)
    ensures var r := OperationRun(s, w, operation, tag);
      r.error.None? ==>
        Located(s, w.inRange).Some? &&
        r.made == SessionCalls(s, Located(s, w.inRange).value, operation, tag) &&
        OperationResult(s, w, operation, tag) == Report(SuccessMessage(operation), Located(s, w.inRange).value)
  {
    var found := Located(s, w.inRange);
    var plan := OperationPlan(s, w.inRange, operation, tag);
    if found.None? {
      UnlocatedRaises(s, w, []);
    } else if Supported(found.value.model, operation) {
      var calls := SessionCalls(s, found.value, operation, tag);
      OperationPlanOfSession(s, w, operation, tag);
      InvokesRun(calls, w.faults);
      NoneRaisesIndexed(calls, w.faults);
    } else {
      var p := found.value;
      InstanceInvokes(s, w.inRange);
      assert ActionSteps(p.model, operation, tag) == [Raise(Unsupported(operation, Family(p.model)))];
      assert plan[4] == Raise(Unsupported(operation, Family(p.model)));
      CleanIffNoBreak(plan, w.faults);
    }
  }

  /** `get_device_status` ends without an exception exactly when the guards pass, the device is found and none of its calls raises. */
  lemma StatusSucceedsExactly(s: Settings, w: World)
    ensures var r := StatusRun(s, w);
      r.error.None? <==> Located(s, w.inRange).Some? && NoneRaises(StatusCalls(s), w.faults)
    ensures var r := StatusRun(s, w);
      r.error.None? ==> Located(s, w.inRange).Some? && r.made == StatusCalls(s)
  {
    if Located(s, w.inRange).None? {
      UnlocatedRaises(s, w, []);
    } else {
      InstanceInvokes(s, w.inRange);
      StatusSessionInvokes();
      InvokesAppend(InstanceCalls(s), LoginCalls + ClosingCalls);
      assert InstanceCalls(s) + (LoginCalls + ClosingCalls) == StatusCalls(s);
      assert StatusPlan(s, w.inRange) == Invokes(StatusCalls(s));
      InvokesRun(StatusCalls(s), w.faults);
      NoneRaisesIndexed(StatusCalls(s), w.faults);
    }
  }

  /** How a plan that opens with one of the handler's own `raise`s runs. */
  lemma RaisesFirst(message: string, faults: map<Call, string>)
    ensures Execute([Raise(message)] + [], faults) == Run([], Some(message))
  {
    RaiseEnds([], message, [], faults);
  }

  /**
    The credential guards run before any radio traffic: with no BLE UUID, or
    with either key missing, both kinds of request make no call at all and
    fail with the guard's message, the UUID being checked first.
   */
  lemma GuardsComeFirst(s: Settings, w: World, operation: string, tag: string)
    ensures s.bleUuid == "" ==>
      OperationRun(s, w, operation, tag) == Run([], Some(UuidNotSet)) &&
      StatusRun(s, w) == Run([], Some(UuidNotSet))
    ensures s.bleUuid != "" && (s.secretKey == "" || s.publicKey == "") ==>
      OperationRun(s, w, operation, tag) == Run([], Some(KeysNotSet)) &&
      StatusRun(s, w) == Run([], Some(KeysNotSet))
  {
    if !CredentialsSet(s) {
      var message := if s.bleUuid == "" then UuidNotSet else KeysNotSet;
      assert OperationPlan(s, w.inRange, operation, tag) == [Raise(message)] + [];
      assert StatusPlan(s, w.inRange) == [Raise(message)] + [];
      RaisesFirst(message, w.faults);
    }
  }

  /**
    A scan that does not find the configured device ends the request right
    after the scan: no key is bound and no connection is made.
   */
  lemma NotFoundEndsAfterScan(s: Settings, w: World, operation: string, tag: string)
    requires CredentialsSet(s) && Discover(w.inRange, s.bleUuid).None?
    ensures var scan := Scan(s.bleUuid, s.scanDuration);
      var run := Run([scan], Some(if scan in w.faults then w.faults[scan] else NotFound(s.bleUuid)));
      OperationRun(s, w, operation, tag) == run && StatusRun(s, w) == run
  {
    var scan := Scan(s.bleUuid, s.scanDuration);
    var rest := [Raise(NotFound(s.bleUuid))] + [];
    assert OperationPlan(s, w.inRange, operation, tag) == [Invoke(scan)] + rest;
    assert StatusPlan(s, w.inRange) == [Invoke(scan)] + rest;
    Advance([], scan, rest, w.faults);
    RaiseEnds([scan], NotFound(s.bleUuid), [], w.faults);
  }

  /**
    An operation the device's model does not accept is refused after logging
    in, with the family's "not supported" message, before any action and
    without reading the statuses or disconnecting.
   */
  lemma UnsupportedRefusedAfterLogin(s: Settings, w: World, operation: string, tag: string)
    requires Located(s, w.inRange).Some?
    requires !Supported(Located(s, w.inRange).value.model, operation)
    requires NoneRaises(InstanceCalls(s) + LoginCalls, w.faults)
    ensures OperationRun(s, w, operation, tag) ==
      Run(InstanceCalls(s) + LoginCalls, Some(Unsupported(operation, Family(Located(s, w.inRange).value.model))))
  {
    var p := Located(s, w.inRange).value;
    var message := Unsupported(operation, Family(p.model));
    var prefix := InstanceCalls(s) + LoginCalls;
    assert ActionSteps(p.model, operation, tag) == [Raise(message)];
    InstanceInvokes(s, w.inRange);
    StatusSessionInvokes();
    InvokesAppend(InstanceCalls(s), LoginCalls + ClosingCalls);
    InvokesAppend(InstanceCalls(s), LoginCalls);
    var head := Invokes(prefix);
    assert Invokes(LoginCalls) == Login;
    assert OperationPlan(s, w.inRange, operation, tag) == head + ([Raise(message)] + Closing);
    InvokesRun(prefix, w.faults);
    NoneRaisesIndexed(prefix, w.faults);
    ExecuteAppend(head, [Raise(message)] + Closing, w.faults);
    RaiseEnds(prefix, message, Closing, w.faults);
  }

  /**
    Every action call a request makes is the one its operation asks of the
    located device's model, carrying the request's history tag: toggle,
    lock and unlock only on a SESAME 2 or 4, click only on a Bot.
   */
  lemma OnlyTheAskedAction(s: Settings, w: World, operation: string, tag: string)
    ensures forall c :: c in OperationRun(s, w, operation, tag).made && IsAction(c) ==>
      Located(s, w.inRange).Some? && ActionCall(Located(s, w.inRange).value.model, operation, tag) == Some(c)
  {
    MadeFromPlan(OperationPlan(s, w.inRange, operation, tag), w.faults);
  }

  /** A model the dispatch does not name gets no action call, yet a run without exception reports the operation as completed. */
  lemma UnknownModelGetsNoAction(s: Settings, w: World, operation: string, tag: string)
    requires Located(s, w.inRange).Some? && Located(s, w.inRange).value.model.Other?
    ensures forall c :: c in OperationRun(s, w, operation, tag).made ==> !IsAction(c)
    ensures OperationRun(s, w, operation, tag).error.None? ==>
      OperationResult(s, w, operation, tag)["message"] == Text(SuccessMessage(operation))
  {
    OnlyTheAskedAction(s, w, operation, tag);
    if OperationRun(s, w, operation, tag).error.None? {
      ReportSucceeds(SuccessMessage(operation), Located(s, w.inRange).value);
    }
  }

  /** The status endpoint never moves the device. */
  lemma StatusMakesNoAction(s: Settings, w: World)
    ensures forall c :: c in StatusRun(s, w).made ==> !IsAction(c)
  {
    MadeFromPlan(StatusPlan(s, w.inRange), w.faults);
  }

  /**
    The `except` clauses do not disconnect: a request that ends with an
    exception has called disconnect only when disconnect itself raised.
   */
  lemma FailureLeavesConnected(s: Settings, w: World, operation: string, tag: string)
    ensures var r := OperationRun(s, w, operation, tag);
      r.error.Some? && Disconnect in r.made ==> Disconnect in w.faults && r.error == Some(w.faults[Disconnect])
    ensures var r := StatusRun(s, w);
      r.error.Some? && Disconnect in r.made ==> Disconnect in w.faults && r.error == Some(w.faults[Disconnect])
  {
    var statusReads := [Invoke(GetMechStatus), Invoke(Call.GetDeviceStatus)];
    assert Closing == statusReads + [Invoke(Disconnect)];
    match Located(s, w.inRange)
    case None =>
      MadeFromPlan(OperationPlan(s, w.inRange, operation, tag), w.faults);
      MadeFromPlan(StatusPlan(s, w.inRange), w.faults);
    case Some(p) =>
      var action := ActionSteps(p.model, operation, tag);
      var pre := InstancePlan(s, w.inRange) + Login + action + statusReads;
      assert OperationPlan(s, w.inRange, operation, tag) == pre + [Invoke(Disconnect)];
      LastCallOnlyWhenReached(pre, Disconnect, w.faults);
      var statusPre := InstancePlan(s, w.inRange) + Login + statusReads;
      assert StatusPlan(s, w.inRange) == statusPre + [Invoke(Disconnect)];
      LastCallOnlyWhenReached(statusPre, Disconnect, w.faults);
  }

  /**
    A request that raised returns the two-key error dict, whose message is
    "Error: " and the exception's text; one that did not returns a dict that
    reports success.
   */
  lemma OperationResultFollowsRun(s: Settings, w: World, operation: string, tag: string)
    ensures var r, d := OperationRun(s, w, operation, tag), OperationResult(s, w, operation, tag);
      && (r.error.Some? ==>
            d.Keys == {"success", "message"} && d["success"] == Flag(false) &&
            d["message"] == Text("Error: " + r.error.value))
      && (r.error.None? ==> "success" in d && d["success"] == Flag(true))
  {
    if OperationRun(s, w, operation, tag).error.None? {
      OperationSucceedsExactly(s, w, operation, tag);
      ReportSucceeds(SuccessMessage(operation), Located(s, w.inRange).value);
    }
  }

  /**
    The reply of an action endpoint: 200 exactly when the run ended without an
    exception, with the device's identity and status; otherwise HTTP 500 whose
    detail is "Error: " and the exception's text.
   */
  lemma ActionReplyFollowsRun(s: Settings, w: World, route: Route)
    ensures var r := OperationRun(s, w, OperationName(route), HistoryTag(route));
      var reply := ActionReply(s, w, route);
      && (reply.Ok? <==> r.error.None?)
      && (reply.HttpError? ==> r.error.Some? && reply.statusCode == 500 && reply.detail == "Error: " + r.error.value)
      && (reply.Ok? ==>
            Located(s, w.inRange).Some? &&
            var p := Located(s, w.inRange).value;
            reply.body == ToggleResponse(true, SuccessMessage(OperationName(route)),
                                         Some(p.uuid), Some(ModelText(p.model)), Some(p.deviceStatus)))
  {
    var operation, tag := OperationName(route), HistoryTag(route);
    var r := OperationRun(s, w, operation, tag);
    if r.error.None? {
      OperationSucceedsExactly(s, w, operation, tag);
      ReportSucceeds(SuccessMessage(operation), Located(s, w.inRange).value);
      ReportNamesDevice(SuccessMessage(operation), Located(s, w.inRange).value);
    }
  }

  /** The status reply's body for device `p`: every field the device reports, None where it has no mechanical status or no position. */
  function StatusBody(p: Peripheral): StatusResponse {
    var m := p.mechStatus;
    StatusResponse(true, StatusMessage, Some(p.uuid), Some(ModelText(p.model)), Some(p.deviceStatus),
      if m.Some? then Some(m.value.batteryPercentage) else None,
      if m.Some? then Some(m.value.batteryVoltage) else None,
      if m.Some? then Some(m.value.inLockRange) else None,
      if m.Some? then Some(m.value.inUnlockRange) else None,
      if m.Some? then m.value.position else None)
  }

  /**
    The reply of `get_device_status`: 200 with everything the device reports
    exactly when the run ended without an exception, otherwise HTTP 500 with
    "Error: " and the exception's text.
   */
  lemma StatusReplyFollowsRun(s: Settings, w: World)
    ensures var r := StatusRun(s, w);
      var reply := StatusReply(s, w);
      && (reply.Ok? <==> r.error.None?)
      && (reply.HttpError? ==> r.error.Some? && reply.statusCode == 500 && reply.detail == "Error: " + r.error.value)
      && (reply.Ok? ==> Located(s, w.inRange).Some? && reply.body == StatusBody(Located(s, w.inRange).value))
  {
    if StatusRun(s, w).error.None? {
      StatusSucceedsExactly(s, w);
      StatusBodyOfReport(Located(s, w.inRange).value);
    }
  }

  /** `StatusResponse(**result)` of the success dict is the body `StatusBody` describes. */
  lemma StatusBodyOfReport(p: Peripheral)
    ensures WellTyped(Report(StatusMessage, p))
    ensures StatusResponseOf(Report(StatusMessage, p)) == StatusBody(p)
  {
    var r := Report(StatusMessage, p);
    ReportHasKeys(StatusMessage, p);
    ReportSucceeds(StatusMessage, p);
    ReportNamesDevice(StatusMessage, p);
    if p.mechStatus.Some? {
      ReportCarriesMechStatus(StatusMessage, p);
      if p.mechStatus.value.position.None? {
        assert "position" !in r;
      }
    } else {
      assert r.Keys == BaseKeys;
      assert "battery_percentage" !in r && "battery_voltage" !in r && "position" !in r;
      assert "is_in_lock_range" !in r && "is_in_unlock_range" !in r;
    }
  }

  /**
    The settings web-api/main.py reads are the ones `Config` reads, and its
    guards pass exactly when `Config.validate` does.
   */
  lemma MainSettingsMatchConfig(env: Configuration.Environment)
    ensures var c := Configuration.Load(env);
      MainSettings(env) == Settings(c.bleUuid, c.secretKey, c.publicKey, c.scanDuration)
    ensures CredentialsSet(MainSettings(env)) <==> Configuration.Validate(Configuration.Load(env)).Success?
  {
  }
}
