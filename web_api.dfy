/**
  The request handlers of web-api/main.py, step by step: each scans for the
  configured device, binds its keys, connects, logs in, acts, reads the statuses
  and disconnects, and turns any exception into an error result or HTTP 500.
  Each method is proved to make exactly the calls, and give exactly the result,
  that the value model in module Requests describes.
 */
module WebApi {
  import opened Wrappers
  import opened Ble
  import opened Execution
  import opened Requests

  /** `get_device_instance` */
  method GetDeviceInstance(radio: Radio, s: Settings) returns (r: Result<Device, string>)
    modifies radio
    ensures var run := Execute(InstancePlan(s, radio.world.inRange), radio.world.faults);
      && radio.log == old(radio.log) + run.made
      && (r.Failure? <==> run.error.Some?)
      && (r.Failure? ==> r.error == run.error.value)
      && (r.Success? ==>
            fresh(r.value) && r.value.radio == radio &&
            Located(s, radio.world.inRange) == Some(r.value.peripheral) &&
            r.value.key == Some(KeyOf(s)))
  {
    if s.bleUuid == "" {
      return Failure(UuidNotSet);
    }
    if s.secretKey == "" || s.publicKey == "" {
      return Failure(KeysNotSet);
    }
    ghost var plan := InstancePlan(s, radio.world.inRange);
    assert plan == [plan[0]] + [plan[1]];
    Advance([], Scan(s.bleUuid, s.scanDuration), [plan[1]], radio.world.faults);
    var found :- radio.ScanByAddress(s.bleUuid, s.scanDuration);
    if found.None? {
      RaiseEnds([Scan(s.bleUuid, s.scanDuration)], NotFound(s.bleUuid), [], radio.world.faults);
      return Failure(NotFound(s.bleUuid));
    }
    var device := found.value;
    var key := DeviceKey(s.secretKey, s.publicKey);
    Advance([Scan(s.bleUuid, s.scanDuration)], SetKey(key), [], radio.world.faults);
    :- device.SetKey(key);
    return Success(device);
  }

  /** `device.connect()` then `device.wait_for_login()` */
  method LogIn(device: Device) returns (o: Outcome<string>)
    modifies device.radio
    ensures var run := Execute(Login, device.radio.world.faults);
      && device.radio.log == old(device.radio.log) + run.made
      && (o.Fail? <==> run.error.Some?)
      && (o.Fail? ==> o.error == run.error.value)
  {
    ghost var faults := device.radio.world.faults;
    assert Login == [Invoke(Connect)] + [Invoke(WaitForLogin)];
    Advance([], Connect, [Invoke(WaitForLogin)], faults);
    Advance([Connect], WaitForLogin, [], faults);
    o := device.Connect();
    if o.Fail? {
      return;
    }
    o := device.WaitForLogin();
  }

  /** The model/operation dispatch of `perform_device_operation`. */
  method Dispatch(device: Device, operation: string, tag: string) returns (o: Outcome<string>)
    modifies device.radio
    ensures var run := Execute(ActionSteps(device.peripheral.model, operation, tag), device.radio.world.faults);
      && device.radio.log == old(device.radio.log) + run.made
      && (o.Fail? <==> run.error.Some?)
      && (o.Fail? ==> o.error == run.error.value)
  {
    ghost var faults := device.radio.world.faults;
    var model := device.peripheral.model;
    if model == SS2 || model == SS4 {
      if operation == "toggle" {
        Advance([], Toggle(tag), [], faults);
        o := device.Toggle(tag);
      } else if operation == "lock" {
        Advance([], Lock(tag), [], faults);
        o := device.Lock(tag);
      } else if operation == "unlock" {
        Advance([], Unlock(tag), [], faults);
        o := device.Unlock(tag);
      } else {
        RaiseEnds([], Unsupported(operation, LockFamilyName), [], faults);
        o := Fail(Unsupported(operation, LockFamilyName));
      }
    } else if model == SesameBot1 {
      if operation == "click" {
        Advance([], Click(tag), [], faults);
        o := device.Click(tag);
      } else {
        RaiseEnds([], Unsupported(operation, BotFamilyName), [], faults);
        o := Fail(Unsupported(operation, BotFamilyName));
      }
    } else {
      o := Pass;
    }
  }

  /**
    The tail both handlers share: read the mechanical and device status,
    assemble the result dict, disconnect.
   */
  method ReadAndClose(device: Device, message: string) returns (r: Result<Dict, string>)
    modifies device.radio
    ensures var run := Execute(Closing, device.radio.world.faults);
      && device.radio.log == old(device.radio.log) + run.made
      && (r.Failure? <==> run.error.Some?)
      && (r.Failure? ==> r.error == run.error.value)
      && (r.Success? ==> r.value == Report(message, device.peripheral))
  {
    ghost var faults := device.radio.world.faults;
    assert Closing == [Invoke(GetMechStatus)] + ([Invoke(Call.GetDeviceStatus)] + [Invoke(Disconnect)]);
    Advance([], GetMechStatus, [Invoke(Call.GetDeviceStatus), Invoke(Disconnect)], faults);
    Advance([GetMechStatus], Call.GetDeviceStatus, [Invoke(Disconnect)], faults);
    Advance([GetMechStatus, Call.GetDeviceStatus], Disconnect, [], faults);

    var mechStatus :- device.GetMechStatus();
    var deviceStatus :- device.GetDeviceStatus();

    var result := map[
      "success" := Flag(true),
      "message" := Text(message),
      "device_id" := Text(device.peripheral.uuid),
      "product_model" := Text(ModelText(device.peripheral.model)),
      "device_status" := Text(deviceStatus)];
    if mechStatus.Some? {
      var m := mechStatus.value;
      result := result + map[
        "battery_percentage" := Number(m.batteryPercentage),
        "battery_voltage" := Decimal(m.batteryVoltage),
        "is_in_lock_range" := Flag(m.inLockRange),
        "is_in_unlock_range" := Flag(m.inUnlockRange)];
      if m.position.Some? {
        result := result["position" := Number(m.position.value)];
      }
    }

    :- device.Disconnect();
    return Success(result);
  }

  /** The `try` block of `perform_device_operation`: the result dict, or the exception that ended it. */
  method TryOperation(radio: Radio, s: Settings, operation: string, tag: string) returns (r: Result<Dict, string>)
    modifies radio
    ensures var run := OperationRun(s, radio.world, operation, tag);
      && radio.log == old(radio.log) + run.made
      && (r.Failure? <==> run.error.Some?)
      && (r.Failure? ==> r.error == run.error.value)
      && (r.Success? ==> r.value == OperationResult(s, radio.world, operation, tag))
  {
    ghost var w := radio.world;
    ghost var log0 := radio.log;
    OperationRunSplits(s, w, operation, tag);
    var device :- GetDeviceInstance(radio, s);
    ghost var action := ActionSteps(device.peripheral.model, operation, tag);
    ghost var made := Execute(InstancePlan(s, w.inRange), w.faults).made;
    ghost var run := OperationRun(s, w, operation, tag);
    assert run == Follow(made, Execute(Login + (action + Closing), w.faults));

    AdvanceBy(made, Login, action + Closing, w.faults);
    AppendAssociates(log0, made, Execute(Login, w.faults).made);
    :- LogIn(device);
    made := made + Execute(Login, w.faults).made;
    assert run == Follow(made, Execute(action + Closing, w.faults));

    ghost var dispatched := Execute(action, w.faults);
    AdvanceBy(made, action, Closing, w.faults);
    :- Dispatch(device, operation, tag);
    AppendAssociates(log0, made, dispatched.made);
    made := made + dispatched.made;
    assert run == Follow(made, Execute(Closing, w.faults));

    r := ReadAndClose(device, SuccessMessage(operation));
    AppendAssociates(log0, made, Execute(Closing, w.faults).made);
  }

  /** `perform_device_operation`: every exception becomes a failure dict. */
  method PerformDeviceOperation(radio: Radio, s: Settings, operation: string, tag: string) returns (result: Dict)
    modifies radio
    ensures radio.log == old(radio.log) + OperationRun(s, radio.world, operation, tag).made
    ensures result == OperationResult(s, radio.world, operation, tag)
  {
    var attempt := TryOperation(radio, s, operation, tag);
    match attempt
    case Success(r) =>
      result := r;
    case Failure(e) =>
      result := ErrorResult(e);
  }

  /** `toggle_lock`, `lock_device`, `unlock_device` and `click_bot` */
  method ActionEndpoint(radio: Radio, s: Settings, route: Route) returns (reply: Reply<ToggleResponse>)
    modifies radio
    ensures radio.log == old(radio.log) + OperationRun(s, radio.world, OperationName(route), HistoryTag(route)).made
    ensures reply == ActionReply(s, radio.world, route)
  {
    var result := PerformDeviceOperation(radio, s, OperationName(route), HistoryTag(route));
    OperationResultWellTyped(s, radio.world, OperationName(route), HistoryTag(route));
    if result["success"].flag {
      reply := Ok(ToggleResponseOf(result));
    } else {
      reply := HttpError(500, result["message"].text);
    }
  }

  /** The `try` block of `get_device_status`: the result dict, or the exception that ended it. */
  method TryStatus(radio: Radio, s: Settings) returns (r: Result<Dict, string>)
    modifies radio
    ensures var run := StatusRun(s, radio.world);
      && radio.log == old(radio.log) + run.made
      && (r.Failure? <==> run.error.Some?)
      && (r.Failure? ==> r.error == run.error.value)
      && (r.Success? ==>
            Located(s, radio.world.inRange).Some? &&
            r.value == Report(StatusMessage, Located(s, radio.world.inRange).value))
  {
    ghost var w := radio.world;
    ghost var log0 := radio.log;
    StatusRunSplits(s, w);
    var device :- GetDeviceInstance(radio, s);
    ghost var made := Execute(InstancePlan(s, w.inRange), w.faults).made;

    AdvanceBy(made, Login, Closing, w.faults);
    AppendAssociates(log0, made, Execute(Login, w.faults).made);
    :- LogIn(device);
    made := made + Execute(Login, w.faults).made;

    r := ReadAndClose(device, StatusMessage);
    AppendAssociates(log0, made, Execute(Closing, w.faults).made);
  }

  /** `get_device_status`: the status as the body, or HTTP 500 with "Error: " and the exception's text. */
  method GetDeviceStatus(radio: Radio, s: Settings) returns (reply: Reply<StatusResponse>)
    modifies radio
    ensures radio.log == old(radio.log) + StatusRun(s, radio.world).made
    ensures reply == StatusReply(s, radio.world)
  {
    var attempt := TryStatus(radio, s);
    match attempt
    case Success(r) =>
      reply := Ok(StatusResponseOf(r));
    case Failure(e) =>
      reply := HttpError(500, "Error: " + e);
  }
}
