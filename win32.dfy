/** The part of the Windows service control manager (SCM) API that the
    service commands call, as an oracle plus a handle table.

    The SCM's answers are fixed by an `Env` value: whether the manager can
    be opened, which services are installed and what each one reports,
    which rights this process is granted, and what the two-phase
    enumeration returns.  The `System` object keeps the state the commands
    can change: the set of open handles (the ledger that every
    acquire/release is checked against) and the log of start and control
    requests that reached a service. */
module Win32 {
  import opened Wrappers

  // dwServiceType bits, as winsvc.h defines them.
  const KernelDriver: bv32 := 0x1        // SERVICE_KERNEL_DRIVER
  const FileSystemDriver: bv32 := 0x2    // SERVICE_FILE_SYSTEM_DRIVER
  const Win32OwnProcess: bv32 := 0x10    // SERVICE_WIN32_OWN_PROCESS
  const Win32ShareProcess: bv32 := 0x20  // SERVICE_WIN32_SHARE_PROCESS
  const UserOwnProcess: bv32 := 0x50     // SERVICE_USER_OWN_PROCESS
  const UserShareProcess: bv32 := 0x60   // SERVICE_USER_SHARE_PROCESS

  /** The failures the commands pass on.  `Failed` stands for any other
      system error and carries its message. */
  datatype OsError =
    | AccessDenied          // ERROR_ACCESS_DENIED
    | ServiceDoesNotExist   // ERROR_SERVICE_DOES_NOT_EXIST
    | MoreData              // ERROR_MORE_DATA
    | Failed(message: string)

  /** The text a command returns for a system error (`e.to_string()`). */
  function Describe(e: OsError): string
  {
    match e
    case AccessDenied => "Access is denied."
    case ServiceDoesNotExist => "The specified service does not exist as an installed service."
    case MoreData => "More data is available."
    case Failed(message) => message
  }

  /** Access rights requested from OpenServiceW. */
  datatype Right = QueryStatusRight | StartRight | StopRight | PauseContinueRight

  /** What a command asks of a service: StartServiceW, or ControlService
      with SERVICE_CONTROL_STOP, _PAUSE or _CONTINUE. */
  datatype Request = StartRequest | StopControl | PauseControl | ContinueControl

  /** The right a handle must hold for the system to accept a request. */
  function RightFor(req: Request): Right
  {
    match req
    case StartRequest => StartRight
    case StopControl => StopRight
    case PauseControl => PauseContinueRight
    case ContinueControl => PauseContinueRight
  }

  /** SERVICE_STATUS, reduced to the two fields the commands read. */
  datatype ServiceStatus = ServiceStatus(serviceType: bv32, currentState: bv32)

  /** How one installed service answers: its status record, the rights
      OpenServiceW grants, whether reading its status fails, and the
      requests it refuses (an already paused service refusing a pause, a
      stopped one refusing a stop), each with the error it gives. */
  datatype Installed = Installed(
    status: ServiceStatus,
    granted: set<Right>,
    statusError: Option<OsError>,
    rejects: map<Request, OsError>)

  /** A PWSTR field of ENUM_SERVICE_STATUS_PROCESSW: null, or a pointer
      whose UTF-16 text decodes to a string or fails to decode (None). */
  datatype Pwstr = Null | Points(decoded: Option<string>)

  /** One decoded ENUM_SERVICE_STATUS_PROCESSW record: the two name fields
      are all the commands read from it. */
  datatype RawEntry = RawEntry(serviceName: Pwstr, displayName: Pwstr)

  /** The system's answers.  The buffer size the sizing call reports and
      the size the data call needs are separate, because the list can
      change between the two calls. */
  datatype Env = Env(
    managerError: Option<OsError>,
    services: map<string, Installed>,
    sizeAtFirstCall: nat,
    sizeAtSecondCall: nat,
    enumError: Option<OsError>,
    listing: seq<RawEntry>)

  /** What a handle was opened on. */
  datatype Target = ManagerTarget | ServiceTarget(name: string, right: Right)

  /** An SC_HANDLE: a fresh identity and what it refers to. */
  datatype Handle = Handle(id: nat, target: Target)

  /** One request that reached a service. */
  datatype Issued = Issued(service: string, request: Request)

  /** OpenSCManagerW(None, None, SC_MANAGER_ENUMERATE_SERVICE). */
  function OpenManagerAnswer(env: Env): Result<(), OsError>
  {
    match env.managerError
    case Some(e) => Err(e)
    case None => Ok(())
  }

  /** OpenServiceW(manager, name, right). */
  function OpenServiceAnswer(env: Env, name: string, right: Right): Result<(), OsError>
  {
    if name !in env.services then Err(ServiceDoesNotExist)
    else if right !in env.services[name].granted then Err(AccessDenied)
    else Ok(())
  }

  /** QueryServiceStatus on a handle opened on `t`. */
  function StatusAnswer(env: Env, t: Target): Result<ServiceStatus, OsError>
    requires t.ServiceTarget?
  {
    if t.name !in env.services then Err(ServiceDoesNotExist)
    else if t.right != QueryStatusRight then Err(AccessDenied)
    else match env.services[t.name].statusError
      case Some(e) => Err(e)
      case None => Ok(env.services[t.name].status)
  }

  /** StartServiceW or ControlService on a handle opened on `t`. */
  function RequestAnswer(env: Env, t: Target, req: Request): Result<(), OsError>
    requires t.ServiceTarget?
  {
    if t.name !in env.services then Err(ServiceDoesNotExist)
    else if t.right != RightFor(req) then Err(AccessDenied)
    else if req in env.services[t.name].rejects then Err(env.services[t.name].rejects[req])
    else Ok(())
  }

  /** EnumServicesStatusExW: with no buffer it only reports the size it
      needs; with a buffer of `bufferLen` bytes it fills it when the buffer
      is large enough.  Returns the size written to pcbBytesNeeded and the
      records. */
  function EnumAnswer(env: Env, bufferLen: Option<nat>): (nat, Result<seq<RawEntry>, OsError>)
  {
    match bufferLen
    case None => (env.sizeAtFirstCall, Err(MoreData))
    case Some(len) =>
      match env.enumError
      case Some(e) => (env.sizeAtSecondCall, Err(e))
      case None =>
        if len < env.sizeAtSecondCall then (env.sizeAtSecondCall, Err(MoreData))
        else (env.sizeAtSecondCall, Ok(env.listing))
  }

  /** The operating system as the commands see it. */
  class System {
    const env: Env
    /** The handles acquired and not yet closed. */
    var live: set<Handle>
    /** The identity the next acquired handle receives. */
    var next: nat
    /** The start and control requests issued so far, in order. */
    var issued: seq<Issued>

    /** Every open handle was issued before `next`, so a fresh one is not open. */
    ghost predicate Valid()
      reads this
    {
      forall h :: h in live ==> h.id < next
    }

    constructor (env: Env)
      ensures this.env == env && live == {} && next == 0 && issued == []
      ensures Valid()
    {
      this.env := env;
      live := {};
      next := 0;
      issued := [];
    }

    /** Takes a fresh handle on `t` into the ledger. */
    method Acquire(t: Target) returns (h: Handle)
      requires Valid()
      modifies this
      ensures Valid() && issued == old(issued)
      ensures h == Handle(old(next), t) && h !in old(live)
      ensures live == old(live) + {h} && next == old(next) + 1
    {
      h := Handle(next, t);
      live := live + {h};
      next := next + 1;
    }

    method OpenSCManager() returns (r: Result<Handle, OsError>)
      requires Valid()
      modifies this
      ensures Valid() && issued == old(issued)
      ensures r.Ok? <==> OpenManagerAnswer(env).Ok?
      ensures r.Err? ==> r.error == OpenManagerAnswer(env).error
      ensures r.Ok? ==> r.value == Handle(old(next), ManagerTarget) && r.value !in old(live)
      ensures live == (if r.Ok? then old(live) + {r.value} else old(live))
      ensures next == (if r.Ok? then old(next) + 1 else old(next))
    {
      match OpenManagerAnswer(env)
      case Err(e) => r := Err(e);
      case Ok(_) =>
        var h := Acquire(ManagerTarget);
        r := Ok(h);
    }

    method OpenService(manager: Handle, name: string, right: Right) returns (r: Result<Handle, OsError>)
      requires Valid() && manager in live && manager.target == ManagerTarget
      modifies this
      ensures Valid() && issued == old(issued)
      ensures r.Ok? <==> OpenServiceAnswer(env, name, right).Ok?
      ensures r.Err? ==> r.error == OpenServiceAnswer(env, name, right).error
      ensures r.Ok? ==> r.value == Handle(old(next), ServiceTarget(name, right)) && r.value !in old(live)
      ensures live == (if r.Ok? then old(live) + {r.value} else old(live))
      ensures next == (if r.Ok? then old(next) + 1 else old(next))
    {
      match OpenServiceAnswer(env, name, right)
      case Err(e) => r := Err(e);
      case Ok(_) =>
        var h := Acquire(ServiceTarget(name, right));
        r := Ok(h);
    }

    /** Closing requires an open handle, so no handle is closed twice. */
    method CloseServiceHandle(h: Handle)
      requires Valid() && h in live
      modifies this
      ensures Valid() && issued == old(issued) && next == old(next)
      ensures live == old(live) - {h}
    {
      live := live - {h};
    }

    method QueryServiceStatus(h: Handle) returns (r: Result<ServiceStatus, OsError>)
      requires h in live && h.target.ServiceTarget?
      ensures r == StatusAnswer(env, h.target)
    {
      r := StatusAnswer(env, h.target);
    }

    /** StartServiceW (`req == StartRequest`) or ControlService: the
        request reaches the service, which may refuse it. */
    method SendRequest(h: Handle, req: Request) returns (r: Result<(), OsError>)
      requires Valid() && h in live && h.target.ServiceTarget?
      modifies this
      ensures Valid() && live == old(live) && next == old(next)
      ensures issued == old(issued) + [Issued(h.target.name, req)]
      ensures r == RequestAnswer(env, h.target, req)
    {
      issued := issued + [Issued(h.target.name, req)];
      r := RequestAnswer(env, h.target, req);
    }

    method EnumServicesStatus(manager: Handle, bufferLen: Option<nat>) returns (bytesNeeded: nat, r: Result<seq<RawEntry>, OsError>)
      requires manager in live && manager.target == ManagerTarget
      ensures (bytesNeeded, r) == EnumAnswer(env, bufferLen)
    {
      bytesNeeded, r := EnumAnswer(env, bufferLen).0, EnumAnswer(env, bufferLen).1;
    }
  }
}
