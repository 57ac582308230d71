/**
  The request pipeline of web-api/main.py as values: the settings the module
  reads at import, the calls each handler plans, the result dict it assembles
  and the HTTP reply it makes of it.
 */
module Requests {
  import opened Wrappers
  import opened Ble
  import opened Execution
  import Configuration

  /** `BLE_UUID`, `SECRET_KEY`, `PUBLIC_KEY` and `SCAN_DURATION` of web-api/main.py */
  datatype Settings = Settings(bleUuid: string, secretKey: string, publicKey: string, scanDuration: int)

  /** The module-level settings of web-api/main.py, read from `env`. */
  function MainSettings(env: Configuration.Environment): Settings {
    Settings(
      Configuration.GetEnv(env, "SESAME_BLE_UUID", ""),
      Configuration.GetEnv(env, "SESAME_SECRET_KEY", ""),
      Configuration.GetEnv(env, "SESAME_PUBLIC_KEY", ""),
      Configuration.GetIntEnv(env, "SESAME_SCAN_DURATION", 15))
  }

  /** The credential guards of `get_device_instance` pass. */
  predicate CredentialsSet(s: Settings) {
    s.bleUuid != "" && s.secretKey != "" && s.publicKey != ""
  }

  /** The key `get_device_instance` builds from the settings. */
  function KeyOf(s: Settings): DeviceKey {
    DeviceKey(s.secretKey, s.publicKey)
  }

  /** The device `get_device_instance` returns, if the guards pass and the scan finds it. */
  function Located(s: Settings, inRange: Option<Peripheral>): (found: Option<Peripheral>)
    ensures found.Some? <==> CredentialsSet(s) && inRange.Some? && inRange.value.address == s.bleUuid
    ensures found.Some? ==> found == inRange
  {
    if CredentialsSet(s) then Discover(inRange, s.bleUuid) else None
  }

  const UuidNotSet := "SESAME_BLE_UUID environment variable not set"
  const KeysNotSet := "SESAME_SECRET_KEY and SESAME_PUBLIC_KEY environment variables must be set"
  const LockFamilyName := "SESAME 2/4"
  const BotFamilyName := "SESAME Bot"
  const StatusMessage := "Device status retrieved successfully"

  function NotFound(address: string): string {
    "Device " + address + " not found during scan"
  }

  function Unsupported(operation: string, family: string): string {
    "Operation '" + operation + "' not supported for " + family
  }

  function SuccessMessage(operation: string): string {
    "Operation '" + operation + "' completed successfully"
  }

  /** `get_device_instance`: the two guards, the scan, the not-found check and the key binding. */
  function InstancePlan(s: Settings, inRange: Option<Peripheral>): seq<Step> {
    if s.bleUuid == "" then [Raise(UuidNotSet)]
    else if s.secretKey == "" || s.publicKey == "" then [Raise(KeysNotSet)]
    else
      [Invoke(Scan(s.bleUuid, s.scanDuration)),
       if Discover(inRange, s.bleUuid).None? then Raise(NotFound(s.bleUuid)) else Invoke(SetKey(KeyOf(s)))]
  }

  /** The lock models, for which the API offers toggle, lock and unlock. */
  predicate IsLockFamily(m: ProductModel) {
    m == SS2 || m == SS4
  }

  /** The action call operation `operation` asks of a device of model `m`, if it has one. */
  function ActionCall(m: ProductModel, operation: string, tag: string): Option<Call> {
    if IsLockFamily(m) then
      if operation == "toggle" then Some(Toggle(tag))
      else if operation == "lock" then Some(Lock(tag))
      else if operation == "unlock" then Some(Unlock(tag))
      else None
    else if m == SesameBot1 && operation == "click" then Some(Click(tag))
    else None
  }

  /** The model/operation dispatch of `perform_device_operation`. */
  function ActionSteps(m: ProductModel, operation: string, tag: string): seq<Step> {
    if IsLockFamily(m) then
      if operation == "toggle" then [Invoke(Toggle(tag))]
      else if operation == "lock" then [Invoke(Lock(tag))]
      else if operation == "unlock" then [Invoke(Unlock(tag))]
      else [Raise(Unsupported(operation, LockFamilyName))]
    else if m == SesameBot1 then
      if operation == "click" then [Invoke(Click(tag))]
      else [Raise(Unsupported(operation, BotFamilyName))]
    else []
  }

  const Login: seq<Step> := [Invoke(Connect), Invoke(WaitForLogin)]
  const Closing: seq<Step> := [Invoke(GetMechStatus), Invoke(GetDeviceStatus), Invoke(Disconnect)]

  /** Every step of `perform_device_operation`'s try block. */
  function OperationPlan(s: Settings, inRange: Option<Peripheral>, operation: string, tag: string): seq<Step> {
    InstancePlan(s, inRange) +
    match Located(s, inRange)
    case None => []
    case Some(p) => Login + ActionSteps(p.model, operation, tag) + Closing
  }

  /** Every step of `get_device_status`'s try block. */
  function StatusPlan(s: Settings, inRange: Option<Peripheral>): seq<Step> {
    InstancePlan(s, inRange) +
    match Located(s, inRange)
    case None => []
    case Some(p) => Login + Closing
  }

  /** The calls `perform_device_operation` makes and the exception that ends it. */
  function OperationRun(s: Settings, w: World, operation: string, tag: string): Run {
    Execute(OperationPlan(s, w.inRange, operation, tag), w.faults)
  }

  /** The calls `get_device_status` makes and the exception that ends it. */
  function StatusRun(s: Settings, w: World): Run {
    Execute(StatusPlan(s, w.inRange), w.faults)
  }

  /** `get_device_instance` raises whenever it returns no device. */
  lemma {:induction false} UnlocatedRaises(s: Settings, w: World, rest: seq<Step>)
    requires Located(s, w.inRange).None?
    ensures Execute(InstancePlan(s, w.inRange) + rest, w.faults).error.Some?
  {
    var plan := InstancePlan(s, w.inRange);
    ExecuteAppend(plan, rest, w.faults);
    if CredentialsSet(s) {
      Unfold(plan[0], [plan[1]], w.faults);
      Unfold(plan[1], [], w.faults);
      assert plan == [plan[0]] + [plan[1]];
    }
  }

  /**
    A handler's try block is `get_device_instance` followed, only when that
    returns a device, by the session steps on that device.
   */
  lemma {:induction false} RunSplitsAtInstance(s: Settings, w: World, session: Peripheral -> seq<Step>)
    ensures var instance := Execute(InstancePlan(s, w.inRange), w.faults);
      var plan := InstancePlan(s, w.inRange) + match Located(s, w.inRange) case None => [] case Some(p) => session(p);
      && (instance.error.None? ==> Located(s, w.inRange).Some?)
      && Execute(plan, w.faults) ==
           if instance.error.Some? then instance
           else Follow(instance.made, Execute(session(Located(s, w.inRange).value), w.faults))
  {
    var tail := match Located(s, w.inRange) case None => [] case Some(p) => session(p);
    ExecuteAppend(InstancePlan(s, w.inRange), tail, w.faults);
    if Located(s, w.inRange).None? {
      UnlocatedRaises(s, w, []);
      assert InstancePlan(s, w.inRange) + [] == InstancePlan(s, w.inRange);
    }
  }

  /** The session of `perform_device_operation` is logging in, then the dispatch, then the closing reads. */
  lemma OperationRunSplits(s: Settings, w: World, operation: string, tag: string)
    ensures var instance := Execute(InstancePlan(s, w.inRange), w.faults);
      && (instance.error.None? ==> Located(s, w.inRange).Some?)
      && OperationRun(s, w, operation, tag) ==
           if instance.error.Some? then instance
           else Follow(instance.made,
                  Execute(Login + (ActionSteps(Located(s, w.inRange).value.model, operation, tag) + Closing), w.faults))
  {
    var session := (p: Peripheral) => Login + ActionSteps(p.model, operation, tag) + Closing;
    RunSplitsAtInstance(s, w, session);
    var found := Located(s, w.inRange);
    if found.Some? {
      var action := ActionSteps(found.value.model, operation, tag);
      assert Login + action + Closing == Login + (action + Closing);
    }
  }

  /** The session of `get_device_status` is logging in, then the closing reads. */
  lemma StatusRunSplits(s: Settings, w: World)
    ensures var instance := Execute(InstancePlan(s, w.inRange), w.faults);
      && (instance.error.None? ==> Located(s, w.inRange).Some?)
      && StatusRun(s, w) ==
           if instance.error.Some? then instance
           else Follow(instance.made, Execute(Login + Closing, w.faults))
  {
    RunSplitsAtInstance(s, w, (p: Peripheral) => Login + Closing);
  }

  // ----- result dicts

  /** A value of the result dict. */
  datatype Value = Flag(flag: bool) | Text(text: string) | Number(number: int) | Decimal(decimal: real)

  type Dict = map<string, Value>

  /** `str(device.productModel)`, the member's qualified name. */
  function ModelText(m: ProductModel): string {
    match m
    case SS2 => "CHProductModel.SS2"
    case SS4 => "CHProductModel.SS4"
    case SesameBot1 => "CHProductModel.SesameBot1"
    case Other(name) => "CHProductModel." + name
  }

  const BaseKeys: set<string> := {"success", "message", "device_id", "product_model", "device_status"}
  const MechKeys: set<string> := {"battery_percentage", "battery_voltage", "is_in_lock_range", "is_in_unlock_range"}

  /** The keys the success dict of device `p` has. */
  function ReportKeys(p: Peripheral): set<string> {
    BaseKeys +
    (if p.mechStatus.Some? then MechKeys else {}) +
    (if p.mechStatus.Some? && p.mechStatus.value.position.Some? then {"position"} else {})
  }

  /** The success dict both handlers assemble after reading the statuses of device `p`. */
  function Report(message: string, p: Peripheral): Dict {
    var base := map[
      "success" := Flag(true),
      "message" := Text(message),
      "device_id" := Text(p.uuid),
      "product_model" := Text(ModelText(p.model)),
      "device_status" := Text(p.deviceStatus)];
    match p.mechStatus
    case None => base
    case Some(m) =>
      var withMech := base + map[
        "battery_percentage" := Number(m.batteryPercentage),
        "battery_voltage" := Decimal(m.batteryVoltage),
        "is_in_lock_range" := Flag(m.inLockRange),
        "is_in_unlock_range" := Flag(m.inUnlockRange)];
      if m.position.Some? then withMech["position" := Number(m.position.value)] else withMech
  }

  /** The success dict has the five base keys, the four battery and range keys when there is a mechanical status, and `position` when that status has one. */
  lemma ReportHasKeys(message: string, p: Peripheral)
    ensures Report(message, p).Keys == ReportKeys(p)
  {
  }

  /** The success dict reports success with the handler's message. */
  lemma ReportSucceeds(message: string, p: Peripheral)
    ensures var r := Report(message, p);
      r.Keys >= {"success", "message"} && r["success"] == Flag(true) && r["message"] == Text(message)
  {
    ReportHasKeys(message, p);
  }

  /** The success dict names the device, its model and its status. */
  lemma ReportNamesDevice(message: string, p: Peripheral)
    ensures var r := Report(message, p);
      && r["device_id"] == Text(p.uuid) && r["product_model"] == Text(ModelText(p.model))
      && r["device_status"] == Text(p.deviceStatus)
  {
    ReportHasKeys(message, p);
  }

  /** The success dict carries every field of the mechanical status there is. */
  lemma ReportCarriesMechStatus(message: string, p: Peripheral)
    requires p.mechStatus.Some?
    ensures var r, m := Report(message, p), p.mechStatus.value;
      && r["battery_percentage"] == Number(m.batteryPercentage)
      && r["battery_voltage"] == Decimal(m.batteryVoltage)
      && r["is_in_lock_range"] == Flag(m.inLockRange)
      && r["is_in_unlock_range"] == Flag(m.inUnlockRange)
      && (m.position.Some? ==> r["position"] == Number(m.position.value))
  {
    ReportHasKeys(message, p);
  }

  /** The dict the `except` clause returns. */
  function ErrorResult(error: string): (r: Dict)
    ensures r.Keys == {"success", "message"}
    ensures r["success"] == Flag(false) && r["message"] == Text("Error: " + error)
  {
    map["success" := Flag(false), "message" := Text("Error: " + error)]
  }

  /** What `perform_device_operation` returns. */
  function OperationResult(s: Settings, w: World, operation: string, tag: string): Dict {
    var run := OperationRun(s, w, operation, tag);
    if run.error.Some? then ErrorResult(run.error.value)
    else
      var found := Located(s, w.inRange);
      if found.None? then UnlocatedRaises(s, w, []); assert false; map[]
      else Report(SuccessMessage(operation), found.value)
  }

  // ----- HTTP replies

  /** The body of a 200 reply from the action endpoints. */
  datatype ToggleResponse = ToggleResponse(
    success: bool,
    message: string,
    deviceId: Option<string>,
    productModel: Option<string>,
    deviceStatus: Option<string>)

  /** The body of a 200 reply from the status endpoint. */
  datatype StatusResponse = StatusResponse(
    success: bool,
    message: string,
    deviceId: Option<string>,
    productModel: Option<string>,
    deviceStatus: Option<string>,
    batteryPercentage: Option<int>,
    batteryVoltage: Option<real>,
    isInLockRange: Option<bool>,
    isInUnlockRange: Option<bool>,
    position: Option<int>)

  /** A 200 reply with a body, or an `HTTPException` with its status code and detail. */
  datatype Reply<T> = Ok(body: T) | HttpError(statusCode: int, detail: string)

  /** The result dict carries the two required fields with the declared types. */
  predicate WellTyped(r: Dict) {
    "success" in r && r["success"].Flag? && "message" in r && r["message"].Text?
  }

  function TextField(r: Dict, key: string): Option<string> {
    if key in r && r[key].Text? then Some(r[key].text) else None
  }

  function NumberField(r: Dict, key: string): Option<int> {
    if key in r && r[key].Number? then Some(r[key].number) else None
  }

  function DecimalField(r: Dict, key: string): Option<real> {
    if key in r && r[key].Decimal? then Some(r[key].decimal) else None
  }

  function FlagField(r: Dict, key: string): Option<bool> {
    if key in r && r[key].Flag? then Some(r[key].flag) else None
  }

  /** `ToggleResponse(**result)`: the declared fields, absent ones None, other keys ignored. */
  function ToggleResponseOf(r: Dict): ToggleResponse
    requires WellTyped(r)
  {
    ToggleResponse(r["success"].flag, r["message"].text,
      TextField(r, "device_id"), TextField(r, "product_model"), TextField(r, "device_status"))
  }

  /** `StatusResponse(**result)` */
  function StatusResponseOf(r: Dict): StatusResponse
    requires WellTyped(r)
  {
    StatusResponse(r["success"].flag, r["message"].text,
      TextField(r, "device_id"), TextField(r, "product_model"), TextField(r, "device_status"),
      NumberField(r, "battery_percentage"), DecimalField(r, "battery_voltage"),
      FlagField(r, "is_in_lock_range"), FlagField(r, "is_in_unlock_range"),
      NumberField(r, "position"))
  }

  /** The tail of every action handler: the result as the body on success, HTTP 500 with its message otherwise. */
  function Respond(r: Dict): (reply: Reply<ToggleResponse>)
    requires WellTyped(r)
    ensures reply.Ok? <==> r["success"] == Flag(true)
    ensures reply.Ok? ==> reply.body.success && Text(reply.body.message) == r["message"]
    ensures reply.HttpError? ==> reply.statusCode == 500 && Text(reply.detail) == r["message"]
  {
    if r["success"].flag then Ok(ToggleResponseOf(r)) else HttpError(500, r["message"].text)
  }

  /** The four action endpoints. */
  datatype Route = ToggleRoute | LockRoute | UnlockRoute | ClickRoute

  function OperationName(route: Route): string {
    match route
    case ToggleRoute => "toggle"
    case LockRoute => "lock"
    case UnlockRoute => "unlock"
    case ClickRoute => "click"
  }

  function HistoryTag(route: Route): string {
    match route
    case ToggleRoute => "Web API Toggle"
    case LockRoute => "Web API Lock"
    case UnlockRoute => "Web API Unlock"
    case ClickRoute => "Web API Click"
  }

  /** Every dict `perform_device_operation` returns has a boolean `success` and a text `message`. */
  lemma OperationResultWellTyped(s: Settings, w: World, operation: string, tag: string)
    ensures WellTyped(OperationResult(s, w, operation, tag))
  {
    var found := Located(s, w.inRange);
    if found.None? {
      UnlocatedRaises(s, w, []);
    } else {
      ReportSucceeds(SuccessMessage(operation), found.value);
    }
  }

  /** The reply of an action endpoint. */
  function ActionReply(s: Settings, w: World, route: Route): Reply<ToggleResponse> {
    OperationResultWellTyped(s, w, OperationName(route), HistoryTag(route));
    Respond(OperationResult(s, w, OperationName(route), HistoryTag(route)))
  }

  /** The reply of `get_device_status`. */
  function StatusReply(s: Settings, w: World): Reply<StatusResponse> {
    var run := StatusRun(s, w);
    if run.error.Some? then HttpError(500, "Error: " + run.error.value)
    else
      var found := Located(s, w.inRange);
      if found.None? then UnlocatedRaises(s, w, []); assert false; HttpError(500, "")
      else Ok(StatusResponseOf(Report(StatusMessage, found.value)))
  }
}
