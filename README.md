# SESAME Web API — a Dafny model of the request pipeline

The SESAME Web API is a small FastAPI server in front of a BLE smart-lock
library. Each HTTP request works through the same steps:
- It checks that the device's BLE UUID and both keys are configured.
- It scans for the device by address and binds its keys.
- It connects and waits for the login to finish.
- It performs the requested action: toggle, lock or unlock on a SESAME 2 or 4, click on a SESAME Bot.
- It reads the mechanical and device status and builds a result dict.
- It disconnects.

Any exception on the way becomes an error result (for the action endpoints)
or an HTTP 500 (for the status endpoint). A separate `Config` class reads the
same settings from the environment and validates the three credentials.

This project models that pipeline and the configuration class, and proves
properties of the model:
- the order of the calls;
- where each kind of failure stops a request;
- which device action a request may make;
- what the result dict and the HTTP reply contain.

Modules:

- `Wrappers` — `Option`, `Result` (a value or an exception's text) and
  `Outcome` (a call that returns nothing or raises).
- `Configuration` — `Config` of web-api/config.py: the attributes read
  from the environment, the `DEBUG` rule, and `validate`.
- `Ble` — the device library as the API uses it. A `Radio` class holds the
  device in range, a fault map and a log of every call made. A `Device`
  class holds the scanned device and its key. Each library call appends to
  the log. The library's behaviour is assumed, not proved: `Discover` says a
  scan finds the device in range exactly when its address is the one asked
  for, and `OutcomeOf` says a call raises exactly when the fault map names
  it, with the mapped text. Any pattern of failures can be expressed this way, because a
  request makes each call at most once.
- `Execution` — how a `try` block runs a sequence of steps. A step is a
  library call or the handler's own `raise`. The first step that raises
  ends the block. `Execute` gives the calls actually made and the exception
  that ended the block.
- `Requests` — the handlers of web-api/main.py as values:
  - the settings;
  - the plan of steps of `get_device_instance`, `perform_device_operation` and `get_device_status`;
  - the model/operation dispatch table;
  - the success and error dicts;
  - the pydantic response bodies and the HTTP replies.
- `WebApi` — the handlers as imperative methods on a `Radio`. Each method
  is proved to leave exactly the calls of the value model in the log, and
  to return exactly its result.
- `Properties` — lemmas about the value model that state what the handlers
  promise.

## Model

| member | source | states |
|---|---|---|
| Configuration.Lower | web-api/config.py:21 | `str.lower` on ASCII letters: keeps the length and lower-cases each character on its own |
| Configuration.DefaultsWhenUnset | web-api/config.py:13-24 | with a variable unset: the credentials are "", the scan duration 15, the host "0.0.0.0", the port 8000, DEBUG false, the log level "INFO" |
| Configuration.SetValuesTaken | web-api/config.py:13-24 | a variable that is set is taken as it is, even when empty |
| Configuration.DebugMeansTrueInAnyCase | web-api/config.py:21 | DEBUG is on iff the variable is set to a four-character value that lower-cases to "true"; unset means off |
| Configuration.FirstMissing | web-api/config.py:29-36 | returns None iff every entry has a value; otherwise returns the name of an empty entry with no empty entry before it |
| Configuration.Validate | web-api/config.py:26-38 | succeeds iff all three credentials are non-empty; never returns False (it returns True or raises); reads the attributes and changes nothing |
| Configuration.ValidateNamesFirstMissing | web-api/config.py:29-36 | `validate` raises iff a credential is missing. Its message names the first missing credential in the order BLE UUID, secret key, public key, so the UUID is reported when several are missing |
| Ble.Radio.Perform | web-api/main.py:107-172 | appends the call to the log and raises as `OutcomeOf` says |
| Ble.Radio.ScanByAddress | web-api/main.py:78-81 | logs the scan. Raises when the scan is faulted. Otherwise returns a fresh device with no key if the address matches, and no device if not |
| Ble.Device.SetKey | web-api/main.py:87-90 | logs the key binding; the device holds the key unless the call raised |
| Ble.Device.Connect | web-api/main.py:113 | logs `connect` and raises as the fault map says |
| Ble.Device.WaitForLogin | web-api/main.py:116 | logs `wait_for_login` and raises as the fault map says |
| Ble.Device.Toggle | web-api/main.py:122 | logs `toggle` with its history tag and raises as the fault map says |
| Ble.Device.Lock | web-api/main.py:124 | logs `lock` with its history tag and raises as the fault map says |
| Ble.Device.Unlock | web-api/main.py:126 | logs `unlock` with its history tag and raises as the fault map says |
| Ble.Device.Click | web-api/main.py:132 | logs `click` with its history tag and raises as the fault map says |
| Ble.Device.GetMechStatus | web-api/main.py:137 | logs the read and returns the device's mechanical status, or raises |
| Ble.Device.GetDeviceStatus | web-api/main.py:138 | logs the read and returns the device status text, or raises |
| Ble.Device.Disconnect | web-api/main.py:162 | logs `disconnect` and raises as the fault map says |
| Execution.Execute | web-api/main.py:107-172 | a `try` block makes no more calls than it has steps |
| Execution.FirstBreak | web-api/main.py:107-172 | the index of the first step that raises: no step before it raises |
| Execution.ExecuteStopsAtFirstBreak | web-api/main.py:107-172 | a block makes every call before the first raising step, plus that step's own call, and ends with its exception. With no raising step it makes every call and ends normally |
| Execution.ExecuteAppend | web-api/main.py:107-172 | running two parts in sequence is running the first and, only when it ends normally, the second |
| Execution.CleanIffNoBreak | web-api/main.py:107-172 | a block ends normally iff none of its steps raises, and then it has made all its calls |
| Execution.MadeFromPlan | web-api/main.py:107-172 | every call a block makes is the call of one of its steps |
| Execution.InvokesRun | web-api/main.py:107-172 | a block of library calls ends normally iff none of them is faulted, and then it makes them all in order |
| Execution.LastCallOnlyWhenReached | web-api/main.py:162-172 | when only the last step makes a call, a block that raised made that call only if that call itself raised |
| Requests.Located | web-api/main.py:64-93 | `get_device_instance` returns a device exactly when all credentials are set and the device in range has the configured address, and then it is that device |
| Requests.UnlocatedRaises | web-api/main.py:69-84 | when `get_device_instance` returns no device it has raised, whatever follows it |
| Requests.RunSplitsAtInstance | web-api/main.py:107-109 | a handler's try block is `get_device_instance` followed, only when that returns a device, by the session on that device |
| Requests.ReportHasKeys | web-api/main.py:140-159 | the success dict has the five base keys. It has the four battery and range keys iff there is a mechanical status, and `position` iff that status has one |
| Requests.ReportSucceeds | web-api/main.py:140-142 | the success dict has `success` True and the handler's message |
| Requests.ReportNamesDevice | web-api/main.py:143-145 | the success dict names the device's UUID, its model as `str(productModel)`, and its status text |
| Requests.ReportCarriesMechStatus | web-api/main.py:149-159 | the success dict carries the battery percentage, battery voltage, both range flags and the position (when there is one) of the mechanical status |
| Requests.ErrorResult | web-api/main.py:167-172 | the error dict has exactly the keys `success` and `message`: False, and "Error: " followed by the exception's text |
| Requests.Respond | web-api/main.py:206-211 | the reply is 200 iff `success` is true, with the dict's message in the body; otherwise HTTP 500 whose detail is the dict's message |
| Requests.OperationResultWellTyped | web-api/main.py:96-172 | every dict `perform_device_operation` returns has a boolean `success` and a text `message` |
| WebApi.GetDeviceInstance | web-api/main.py:64-93 | makes exactly the calls of the guards, scan, not-found check and key binding, and raises exactly that plan's exception. On success it returns a fresh device that is the one in range and holds the configured key |
| WebApi.LogIn | web-api/main.py:113-116 | makes `connect` and then, if that did not raise, `wait_for_login` |
| WebApi.Dispatch | web-api/main.py:120-134 | makes exactly the calls of the dispatch table for the device's model and the operation, and raises what the table raises |
| WebApi.ReadAndClose | web-api/main.py:137-165 | reads both statuses, assembles the dict in place and disconnects. Makes exactly those calls up to the first that raises, and on success returns the success dict of the device |
| WebApi.TryOperation | web-api/main.py:107-165 | the try block of `perform_device_operation` makes exactly the calls of the value model, and ends with its exception or with its success dict |
| WebApi.PerformDeviceOperation | web-api/main.py:96-172 | the log grows by exactly the calls of the value model, and the returned dict is the value model's result |
| WebApi.ActionEndpoint | web-api/main.py:198-250 | each action endpoint makes the calls of its operation and history tag, and replies as the value model says |
| WebApi.TryStatus | web-api/main.py:260-295 | the try block of `get_device_status` makes exactly the calls of the value model, and ends with its exception or with the success dict of the device |
| WebApi.GetDeviceStatus | web-api/main.py:253-299 | the status endpoint makes the calls of the value model and replies as the value model says |
| Properties.OperationSucceedsExactly | web-api/main.py:96-165 | a request ends without exception iff the credentials are set, the device is found, the model accepts the operation and none of the session calls raises. It then made scan, set key, connect, wait for login, the action (if any), both status reads and disconnect, in that order, and returns the success dict |
| Properties.StatusSucceedsExactly | web-api/main.py:260-295 | a status request ends without exception iff the credentials are set, the device is found and none of its calls raises. It then made scan, set key, connect, wait for login, both reads and disconnect, in that order |
| Properties.GuardsComeFirst | web-api/main.py:69-73 | with no BLE UUID, or with either key empty, a request makes no call at all and fails with the guard's message. The UUID is checked first, and the keys share one message |
| Properties.NotFoundEndsAfterScan | web-api/main.py:78-84 | when the scan finds nothing, a request has made only the scan and fails with "Device … not found during scan" (or the scan's own exception); no key is bound |
| Properties.UnsupportedRefusedAfterLogin | web-api/main.py:120-134 | an operation the model does not accept fails with the family's "not supported" message after scan, key binding, connect and login. It makes no action, no status read and no disconnect |
| Properties.OnlyTheAskedAction | web-api/main.py:120-134 | every action call a request makes is the one the dispatch table gives for the device's model and the operation, carrying the request's history tag |
| Properties.UnknownModelGetsNoAction | web-api/main.py:120-146 | on a model that is neither SESAME 2/4 nor Bot, a request makes no action call, yet its result says the operation completed successfully |
| Properties.StatusMakesNoAction | web-api/main.py:253-299 | the status endpoint never makes an action call |
| Properties.FailureLeavesConnected | web-api/main.py:162-172 | a request that ends with an exception called disconnect only when disconnect itself raised. The same holds for the status endpoint (main.py:293-299) |
| Properties.OperationResultFollowsRun | web-api/main.py:107-172 | a request that raised returns the two-key dict (`success` False, message "Error: " + exception). A request that did not raise returns a dict with `success` True |
| Properties.ActionReplyFollowsRun | web-api/main.py:198-250 | an action endpoint replies 200 iff the request raised nothing. The body then holds `success` True, the operation's message, and the device's UUID, model and status. Otherwise the reply is HTTP 500 with detail "Error: " + exception |
| Properties.StatusBodyOfReport | web-api/main.py:272-295 | `StatusResponse(**result)` of the success dict carries every field the device reports, and None for the mechanical fields it lacks |
| Properties.StatusReplyFollowsRun | web-api/main.py:253-299 | the status endpoint replies 200 iff the request raised nothing, with everything the device reports. Otherwise it replies HTTP 500 with detail "Error: " + exception |
| Properties.MainSettingsMatchConfig | web-api/main.py:31-34 | the settings main.py reads are the ones `Config` reads (web-api/config.py:13-16), and its guards pass iff `Config.validate` does |

## Left out

- Connection pooling, reuse, reconnection and retry: web-api/main.py has none. Every request scans, connects, acts and disconnects once. The model follows the code.
- Disconnect failures are not swallowed. An exception from `disconnect` fails the request like any other exception.
- web-api/daemon.py, web-api/run.py, discover.py and web-api/test_api.py are not part of this model. They hold process management, server start-up, a scan printer and mocked tests.
- The `__main__` block of web-api/main.py (lines 302-323) is not modelled. It prints the same credential checks and starts uvicorn.
- The `GET /` and `GET /health` endpoints are not modelled. They return constant dicts.
- The BLE transport, the key exchange and the internals of `CHBleManager`, `CHSesame2` and `CHSesameBot` are not modelled. The library is a log of calls and a fault map. `getMechStatus` and `getDeviceStatus` may raise like any other call.
- `device.getDeviceUUID()`, `str(...)` of the product model and the status, and the getters of the mechanical status object are taken not to raise.
- `str(device.productModel)` is taken to be the enum's default text, "CHProductModel." followed by the member name.
- `hasattr(mech_status, 'getPosition')` is modelled as the mechanical status having a position or not.
- A status object is truthy iff it is present.
- `battery_voltage` is a float in the library. Here it is a `real` that is only passed through.
- Logging, async/await scheduling, concurrency between requests, and FastAPI and pydantic serialisation are not modelled. Validation errors for the declared field types are part of that serialisation.
- Configuration.Load: `int(...)` of `SESAME_SCAN_DURATION` and `PORT` is taken as given. Integer-valued variables are already converted, so parse failures are not modelled.
- Configuration.Lower: `str.lower` is modelled for ASCII letters only. DEBUG values with other cased letters are outside the model.
