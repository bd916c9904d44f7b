# Windows service control commands: a Dafny model

This project models the service-control layer of a desktop app that
manages Windows services. The layer has five commands:

- `enumerate_services` lists every driver and Win32 service. Each entry has
  its name, display name, lifecycle state, category and a `can_interact`
  flag.
- `start_service`, `stop_service`, `pause_service` and `resume_service`
  send a request to one named service, but only when its category allows
  control.

The model has five modules, one per component of
`src-tauri/src/commands/services.rs`:

- `Wrappers` (`wrappers.dfy`): `Option` and `Result`.
- `Win32` (`win32.dfy`): the service control manager (SCM) API the commands
  call. A fixed `Env` value answers each call: can the manager be opened,
  which services exist and what each one reports, which rights are granted,
  and what the two-phase enumeration returns. A `System` object holds the
  state the commands change. Its `live` set is the handle ledger: every
  handle acquired and not yet closed. Its `issued` log lists every start or
  control request that reached a service.
- `Classifier` (`classifier.dfy`): the state-code map, the ordered
  first-match scan of the type bitmask over six `(bits, label)` pairs, and
  the eligibility test. The Win32 constants are exact: kernel driver 0x1,
  file system driver 0x2, Win32 own 0x10, Win32 share 0x20, user own 0x50,
  user share 0x60.
- `Guards` (`guards.dfy`): the scope guards `ServiceManager` and
  `OpenService`. Each one takes a handle into the ledger when it is opened.
  Its `Drop` closes the handle, and `Drop` requires the guard to be open.
  Closing requires a live handle, so no handle can be closed twice.
- `Services` (`services.dfy`): `pwstr_to_string`, `query_service_state`,
  `enumerate_services` and the four control commands, written as methods.
  Beside each method is a function of the oracle's answers that says what
  it returns and which requests it sends. Each method is proved to match
  its function and to leave the ledger as it found it. The one exception
  is `stop_service`, described below.

Two consequences of the code are proved and worth knowing.

- **Classification order.** "User Share Process" never wins, and "User
  Own Process" wins only for bit 0x40 with no driver or Win32 bit. USER_OWN
  (0x50) contains the Win32-own bit 0x10, and USER_SHARE (0x60) contains
  the Win32-share bit 0x20. Both Win32 entries are tested first.
  - "User Share Process" is never the outcome, for any flag
    (`Classifier.UserShareUnreachable`).
  - "User Own Process" is the outcome only when bit 0x40 is set and no
    driver or Win32 bit is (`Classifier.UserOwnOnlyForBareUserBit`). No
    real user service has such a flag.
  - A real per-user service is classified as a Win32 process. That makes
    it eligible for control (`Classifier.UserServicesClassifiedAsWin32`).

  The comment at `services.rs:233` limits control to Win32 process types.
  Yet per-user services (0x50 and 0x60) are classified as Win32 processes
  and so become eligible. The model keeps this behaviour, because it is
  what the code does.
- **stop_service leaks a handle.** It opens the service with a raw
  `OpenServiceW` instead of the guard. It closes that handle only after a
  stop that was sent and accepted. See "## Findings".

Errors are the text that `e.to_string()` produces. The only fixed wording
is the prefix "Failed to open service manager: " on enumeration. A failed
status query for a listed service aborts the whole listing, as the `?` at
line 156 does.

A record whose service name is null, empty or undecodable is shown as
"unknown". The same placeholder is also passed to `query_service_state`
as the name to open. Unless a service really called "unknown" is
installed, that open fails and aborts the whole listing
(`Services.PlaceholderNameAbortsListing`). When a service called "unknown"
is installed, the nameless record is listed under that name with the
installed service's state, category and `can_interact`; only its display
name is its own (`Services.PlaceholderBorrowsInstalledService`).

## Model

| member | source | states |
|---|---|---|
| `Win32.System.OpenSCManager` | src-tauri/src/commands/services.rs:61 | Opening the manager either fails with the system's error and takes no handle, or adds one fresh handle on the manager to the ledger |
| `Win32.System.OpenService` | src-tauri/src/commands/services.rs:79 | Opening a service fails with "does not exist" or "access denied" when the system says so; otherwise it adds one fresh handle on that service, with those rights, to the ledger |
| `Win32.System.CloseServiceHandle` | src-tauri/src/commands/services.rs:70 | Closing needs a live handle and removes exactly that handle from the ledger |
| `Win32.System.QueryServiceStatus` | src-tauri/src/commands/services.rs:199 | Reading a status needs a live service handle; it returns the service's record, or the system's error |
| `Win32.System.SendRequest` | src-tauri/src/commands/services.rs:276 | A start or control call is logged as reaching the service; the service may refuse it; the ledger is unchanged |
| `Win32.System.EnumServicesStatus` | src-tauri/src/commands/services.rs:106-129 | With no buffer the call only reports a size; with a buffer it returns the records when the buffer is large enough, and "more data" otherwise |
| `Classifier.StateLabel` | src-tauri/src/commands/services.rs:201-210 | Codes 1 to 7 map in order to Stopped, Start Pending, Stop Pending, Running, Continue Pending, Pause Pending, Paused; the label is "Unknown" exactly for every other code |
| `Classifier.StateLabelRoundTrip` | src-tauri/src/commands/services.rs:201-210 | Every known code can be read back from its label, so no two known codes share a label; "Unknown" gives back no code |
| `Classifier.FirstMatch` | src-tauri/src/commands/services.rs:225-231 | The scan's result is an entry whose bits meet the flag with no earlier entry meeting it, or none when no entry meets it |
| `Classifier.FirstMatchAt` | src-tauri/src/commands/services.rs:225-231 | An entry that meets the flag, with none before it, is the one the scan stops at |
| `Classifier.NoMatch` | src-tauri/src/commands/services.rs:225-231 | A flag that meets no entry leaves the scan without a match |
| `Classifier.Classify` | src-tauri/src/commands/services.rs:212-231 | The first-match rule: an "unknown" label keeps the raw flag as its type; any other label and type form an entry of the category table whose bits meet the flag |
| `Classifier.ClassifyServiceType` | src-tauri/src/commands/services.rs:212-231 | The for-loop with break ends with the label and type value of the first-match rule, and keeps "unknown" and the raw flag when nothing matches |
| `Classifier.IsWin32Process` | src-tauri/src/commands/services.rs:233-236 | Only the two Win32 process types are eligible, so an eligible type has no driver bit and is neither the user-own nor the user-share value |
| `Classifier.ClassifyCases` | src-tauri/src/commands/services.rs:216-231 | The table scan equals an explicit chain of tests in the fixed order File System Driver, Kernel Driver, Win32 Own, Win32 Share, User Own, User Share |
| `Classifier.UnclassifiedKeepsRawType` | src-tauri/src/commands/services.rs:212-213 | The label is "unknown" exactly when no tested bit is set, and then the type value is the raw dwServiceType |
| `Classifier.EligibleIffWin32Label` | src-tauri/src/commands/services.rs:233-236 | `can_interact` holds exactly when the label is one of the two Win32 process labels; an unclassified service is never eligible |
| `Classifier.DriversNeverEligible` | src-tauri/src/commands/services.rs:216-218 | Any driver bit decides a driver label before the process bits are tested, so a driver is never eligible |
| `Classifier.CategoryValues` | src-tauri/src/commands/services.rs:216-222 | The four driver and Win32 values classify as themselves; the user-own and user-share values classify as Win32 own and Win32 share |
| `Classifier.UserShareUnreachable` | src-tauri/src/commands/services.rs:221-222 | No flag is ever labelled "User Share Process" |
| `Classifier.UserOwnOnlyForBareUserBit` | src-tauri/src/commands/services.rs:221 | "User Own Process" is the label exactly when bit 0x40 is set and no driver or Win32 bit is |
| `Classifier.UserServicesClassifiedAsWin32` | src-tauri/src/commands/services.rs:216-236 | A flag holding the whole user-own (or user-share) mask and no earlier bit is classified as Win32 own (or share) and is eligible |
| `Guards.ServiceManager.New` | src-tauri/src/commands/services.rs:57-65 | The guard exists exactly when the manager opens; it owns the fresh handle, which is the only change to the ledger |
| `Guards.ServiceManager.Drop` | src-tauri/src/commands/services.rs:67-73 | Dropping an open guard closes its handle, removes exactly that handle from the ledger and leaves the guard closed |
| `Guards.OpenService.New` | src-tauri/src/commands/services.rs:75-83 | The guard exists exactly when the service opens with the requested rights; it owns the fresh handle, which is the only change to the ledger |
| `Guards.OpenService.Drop` | src-tauri/src/commands/services.rs:85-91 | Dropping an open guard closes its handle, removes exactly that handle from the ledger and leaves the guard closed |
| `Services.PwstrToString` | src-tauri/src/commands/services.rs:13-28 | None exactly for a null pointer, text that does not decode or an empty string; otherwise the decoded text, which is non-empty |
| `Services.NameOrPlaceholder` | src-tauri/src/commands/services.rs:150-153 | A listed name is never empty: the decoded text when there is one, "unknown" otherwise |
| `Services.Snapshot` | src-tauri/src/commands/services.rs:201-244 | A snapshot keeps the status record, labels its state, and is eligible exactly when its type label is a Win32 process label (never for a driver); its type label is "unknown" exactly when no tested bit is set |
| `Services.QueryOutcome` | src-tauri/src/commands/services.rs:193-199 | The query succeeds exactly when the manager opens, the service exists, query rights are granted and the status reads; it then returns that status's snapshot |
| `Services.QueryServiceState` | src-tauri/src/commands/services.rs:193-246 | The method returns the query's outcome, drops both of its guards on every path, and sends no request |
| `Services.RecordFor` | src-tauri/src/commands/services.rs:148-179 | A record exists exactly when its service's query succeeds; its names are the decoded names or "unknown"; its state, type label and `can_interact` are the query's |
| `Services.Assemble` | src-tauri/src/commands/services.rs:145-180 | An assembled list has one record per entry; a failed assembly carries the query error of one of the entries |
| `Services.AssembleOk` | src-tauri/src/commands/services.rs:145-180 | Assembly succeeds exactly when every entry's query does |
| `Services.AssembleAt` | src-tauri/src/commands/services.rs:145-180 | In a successful assembly, the record at any one position is the one built from the entry at that position |
| `Services.AssembleInOrder` | src-tauri/src/commands/services.rs:145-180 | A successful assembly holds at each position the record built from the entry at that position, so records keep slice order |
| `Services.AssembleFirstFailure` | src-tauri/src/commands/services.rs:156 | The first entry whose query fails decides the error of the whole call, and no partial list is returned |
| `Services.AssembleExtend` | src-tauri/src/commands/services.rs:148-176 | One loop step: given a successful prefix, a failing entry fails the whole assembly with its error, and a succeeding entry appends its record to the prefix's list |
| `Services.EnumerateServices` | src-tauri/src/commands/services.rs:94-187 | The two-phase call and the loop return the enumeration outcome; the manager guard is dropped on every path; the ledger and the request log are unchanged |
| `Services.EnumerateOutcome` | src-tauri/src/commands/services.rs:94-187 | A manager failure gives an error with the fixed prefix; a success has one record per returned entry and means the size from the first call was still enough at the second |
| `Services.EnumerateManagerFailure` | src-tauri/src/commands/services.rs:99 | A manager that cannot be opened gives an error starting "Failed to open service manager: " |
| `Services.EnumerateRecords` | src-tauri/src/commands/services.rs:118-182 | With a buffer sized by the first call that is still big enough, the listing succeeds exactly when every query does; it has one record per returned entry, in order; zero entries give an empty list |
| `Services.EnumerateBufferTooSmall` | src-tauri/src/commands/services.rs:118-129 | If the list grows between the two calls, the second call fails and so does the whole listing; the size is not asked for again |
| `Services.ListedEligibilityFromType` | src-tauri/src/commands/services.rs:159-164 | A listed service's `can_interact` is the eligibility of its own type bits, and a listed driver is never eligible |
| `Services.PlaceholderNameAbortsListing` | src-tauri/src/commands/services.rs:150-156 | A record with no usable service name is queried as "unknown"; with no such service installed its query fails with "does not exist", and so does the whole listing |
| `Services.PlaceholderBorrowsInstalledService` | src-tauri/src/commands/services.rs:150-179 | With a service called "unknown" installed and readable, a record with no usable service name is listed as "unknown" with that service's state, type label and `can_interact`, and its own display name |
| `Services.RunningWin32ServiceListed` | src-tauri/src/commands/services.rs:148-179 | A Win32 own-process service with state 4 is listed as "Running", "Win32 Own Process", controllable |
| `Services.ControlIssued` | src-tauri/src/commands/services.rs:251-330 | A request is only ever sent to an installed service that granted the needed right and has no driver bit |
| `Services.ControlOutcome` | src-tauri/src/commands/services.rs:251-330 | Once a request is sent, the command succeeds exactly when the service accepts it; without a request it fails only when opening or querying failed, and otherwise succeeds because the service is ineligible |
| `Services.ControlIssuedIffEligible` | src-tauri/src/commands/services.rs:293-295 | A request is sent exactly when the manager and service open, the status reads and the type bits classify as a Win32 process |
| `Services.IneligibleIsSilentSuccess` | src-tauri/src/commands/services.rs:309-312 | A service that may not be controlled gets no request, and the command still returns success |
| `Services.DriversNeverControlled` | src-tauri/src/commands/services.rs:274-280 | No request ever reaches a driver; once its handles open and its status reads, the command returns success |
| `Services.SentRequestOutcome` | src-tauri/src/commands/services.rs:323-327 | Once a request is sent, the service's refusal is returned as the error, never masked |
| `Services.ControlThroughGuards` | src-tauri/src/commands/services.rs:284-330 | Both guards are dropped on every path, so the ledger is unchanged; the request is logged exactly when it is sent; the result is the control outcome |
| `Services.StartService` | src-tauri/src/commands/services.rs:284-300 | StartServiceW is sent only when the fresh query says eligible; no handle stays open |
| `Services.PauseService` | src-tauri/src/commands/services.rs:302-314 | A pause control is sent only when the fresh query says eligible; no handle stays open |
| `Services.ResumeService` | src-tauri/src/commands/services.rs:316-330 | A continue control is sent only when the fresh query says eligible; no handle stays open |
| `Services.StopLeaks` | src-tauri/src/commands/services.rs:255-277 | The raw handle is left open exactly when the manager and the service open and the command does not both send the stop and return success |
| `Services.StopService` | src-tauri/src/commands/services.rs:251-282 | Same result and requests as the other commands, but the raw handle from OpenServiceW stays in the ledger on every path except an accepted stop |
| `Services.StopLeaksOnIneligibleService` | src-tauri/src/commands/services.rs:255-280 | Stopping a kernel driver that can be opened returns success, sends nothing, and leaves the raw handle open |
| `Services.StopServiceScoped` | src-tauri/src/commands/services.rs:251-282 | The stop command with its service handle held by a guard: same result and requests, and the ledger is unchanged |

## Findings

| source | as written | input that shows it | evidently intended | confidence | as-written member | corrected member |
|---|---|---|---|---|---|---|
| src-tauri/src/commands/services.rs:255-277 | `stop_service` opens the service with a raw `OpenServiceW` and calls `CloseServiceHandle` only after `ControlService` succeeded for an eligible service | stopping an existing kernel driver (type 0x1) opened with SERVICE_STOP: the call returns `Ok(())` and its service handle is never closed; a failed status query or a refused stop also leaves it open | the handle is released on every path, as the `OpenService` guard does in the other three commands | not executed | `Services.StopService` (shown by `Services.StopLeaksOnIneligibleService`) | `Services.StopServiceScoped` |

## Left out

- `src-tauri/src/lib.rs` is not part of this model. It only registers the plugins and dispatches the five commands.
- The real Win32 calls are not modelled. The fixed `Env` oracle answers them, and the `System` ledger tracks their handles. Because the oracle is fixed, a question asked twice within one command gets the same answer. So the nested `OpenSCManagerW` in `query_service_state` cannot fail after the command's own call succeeded. A service cannot be deleted between `OpenServiceW` and the nested query. And the eligibility the control commands read "freshly" cannot differ from an earlier reading.
- Service state never changes in the model. A sent request is logged, but the status that later queries read stays the same. So "pause twice" gets the same answer both times by construction.
- The byte buffer is not reinterpreted as `ENUM_SERVICE_STATUS_PROCESSW` records with `from_raw_parts`, and UTF-16 is not decoded. The oracle returns the decoded records. Each name pointer is null, text that failed to decode, or a decoded string.
- The `SERVICE_STATUS` record is cut down to `dwServiceType` and `dwCurrentState`. So the status buffer that `ControlService` fills in is not modelled.
- The enumeration call's type and state filters, `resume_handle`, and `services_returned` are not modelled. The count of returned records is the length of the oracle's listing.
- Service names are looked up in the oracle's map by exact string. The real service manager compares names without regard to case, so "Unknown" and "unknown" would name the same service there.
- `bytes_needed` is an unbounded natural number, not a `u32`.
- The manager's own access mask, SC_MANAGER_ENUMERATE_SERVICE, is not checked when a service is opened through it.
- Win32.System.CloseServiceHandle: never fails in the model. So the `?` after it in `stop_service` (line 277) never returns early.
- Win32.Describe: gives the standard system message for each error kind, without the HRESULT code that `windows::core::Error` prints.
- The `println!` of the list (line 181) and the serde serialisation of `ServiceInfo` are not modelled.
