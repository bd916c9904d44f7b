/** The service commands: listing every service with its state, category
    and eligibility, and starting, stopping, pausing or resuming one
    service when its category allows it.

    Each command is a method over the `System` oracle.  Beside it stands a
    function of the oracle's answers (`QueryOutcome`, `EnumerateOutcome`,
    `ControlOutcome`, `ControlIssued`) that says what the command returns
    and which requests it sends; the methods are proved to agree with
    these functions and, all but `StopService`, whose leak is stated in
    its own contract, to leave the handle ledger as they found it.  The
    lemmas below state what the functions promise. */
module Services {
  import opened Wrappers
  import opened Win32
  import opened Classifier
  import opened Guards

  /** A listed service, as the front end receives it. */
  datatype ServiceInfo = ServiceInfo(
    name: string,
    displayName: string,
    status: string,
    serviceType: string,
    canInteract: bool)

  /** What one status query learns about a service. */
  datatype QueryInfo = QueryInfo(
    currentState: string,
    stringType: string,
    enumType: bv32,
    serviceStatus: ServiceStatus,
    canInteract: bool)

  /** The stand-in for a name that is null, empty or undecodable. */
  const Placeholder: string := "unknown"

  /** The prefix of the error enumeration returns when the manager cannot be opened. */
  const ManagerOpenFailure: string := "Failed to open service manager: "

  // ---------------------------------------------------------------------
  // Name decoding
  // ---------------------------------------------------------------------

  /** pwstr_to_string: a null pointer, text that does not decode and the
      empty string all give None; any other text is returned as it is. */
  function PwstrToString(p: Pwstr): (r: Option<string>)
    ensures r.None? <==> p.Null? || p.decoded == None || p.decoded == Some("")
    ensures r.Some? ==> r.value != "" && p == Points(Some(r.value))
  {
    match p
    case Null => None
    case Points(decoded) =>
      match decoded
      case None => None
      case Some(s) => if s == "" then None else Some(s)
  }

  /** The name the listing shows: the decoded text, or the placeholder. */
  function NameOrPlaceholder(p: Pwstr): (s: string)
    ensures s != ""
    ensures s == (if PwstrToString(p).Some? then PwstrToString(p).value else Placeholder)
  {
    match PwstrToString(p)
    case Some(n) => n
    case None => Placeholder
  }

  // ---------------------------------------------------------------------
  // Status query
  // ---------------------------------------------------------------------

  /** What a successful status query derives from a status record. */
  function Snapshot(st: ServiceStatus): (q: QueryInfo)
    ensures q.serviceStatus == st
    ensures q.currentState == StateLabel(st.currentState)
    ensures q.canInteract <==> q.stringType == "Win32 Own Process" || q.stringType == "Win32 Share Process"
    ensures q.canInteract ==> st.serviceType & (FileSystemDriver | KernelDriver) == 0
    ensures q.stringType == "unknown" <==> st.serviceType & TestedBits == 0
  {
    var c := Classify(st.serviceType);
    EligibleIffWin32Label(st.serviceType);
    UnclassifiedKeepsRawType(st.serviceType);
    DriversNeverEligible(st.serviceType);
    QueryInfo(StateLabel(st.currentState), c.text, c.serviceType, st, IsWin32Process(c.serviceType))
  }

  /** What query_service_state returns for `name`. */
  function QueryOutcome(env: Env, name: string): (r: Result<QueryInfo, OsError>)
    ensures r.Ok? <==>
      env.managerError.None? && name in env.services &&
      QueryStatusRight in env.services[name].granted && env.services[name].statusError.None?
    ensures r.Ok? ==> r.value == Snapshot(env.services[name].status)
  {
    match OpenManagerAnswer(env)
    case Err(e) => Err(e)
    case Ok(_) =>
      match OpenServiceAnswer(env, name, QueryStatusRight)
      case Err(e) => Err(e)
      case Ok(_) =>
        match StatusAnswer(env, ServiceTarget(name, QueryStatusRight))
        case Err(e) => Err(e)
        case Ok(st) => Ok(Snapshot(st))
  }

  /** query_service_state: opens its own manager and a query-only service
      handle, reads the status, classifies it, and drops both guards. */
  method QueryServiceState(sys: System, name: string) returns (r: Result<QueryInfo, OsError>)
    requires sys.Valid()
    modifies sys
    ensures sys.Valid() && sys.live == old(sys.live) && sys.issued == old(sys.issued)
    ensures sys.next >= old(sys.next)
    ensures r == QueryOutcome(sys.env, name)
  {
    var m := ServiceManager.New(sys);
    if m.Err? {
      return Err(m.error);
    }
    var scm := m.value;
    var s := OpenService.New(sys, scm.handle, name, QueryStatusRight);
    if s.Err? {
      scm.Drop();
      return Err(s.error);
    }
    var service := s.value;
    var status := sys.QueryServiceStatus(service.handle);
    if status.Err? {
      service.Drop();
      scm.Drop();
      return Err(status.error);
    }
    var st := status.value;
    var state := StateLabel(st.currentState);
    var stringType, serType := ClassifyServiceType(st.serviceType);
    var interact := IsWin32Process(serType);
    service.Drop();
    scm.Drop();
    return Ok(QueryInfo(state, stringType, serType, st, interact));
  }

  // ---------------------------------------------------------------------
  // Enumeration
  // ---------------------------------------------------------------------

  /** The listing entry built from one returned record, or the error of
      its status query. */
  function RecordFor(env: Env, entry: RawEntry): (r: Result<ServiceInfo, OsError>)
    ensures r.Ok? <==> QueryOutcome(env, NameOrPlaceholder(entry.serviceName)).Ok?
    ensures r.Err? ==> r.error == QueryOutcome(env, NameOrPlaceholder(entry.serviceName)).error
    ensures r.Ok? ==> r.value.name == NameOrPlaceholder(entry.serviceName) && r.value.name != ""
    ensures r.Ok? ==> r.value.displayName == NameOrPlaceholder(entry.displayName) && r.value.displayName != ""
    ensures r.Ok? ==>
      var q := QueryOutcome(env, r.value.name).value;
      r.value.status == q.currentState && r.value.serviceType == q.stringType && r.value.canInteract == q.canInteract
  {
    var name := NameOrPlaceholder(entry.serviceName);
    match QueryOutcome(env, name)
    case Err(e) => Err(e)
    case Ok(q) =>
      Ok(ServiceInfo(name, NameOrPlaceholder(entry.displayName), q.currentState, q.stringType, IsWin32Process(q.enumType)))
  }

  /** The records built from `entries` in order, stopping at the first
      entry whose query fails. */
  function Assemble(env: Env, entries: seq<RawEntry>): (r: Result<seq<ServiceInfo>, OsError>)
    ensures r.Ok? ==> |r.value| == |entries|
    ensures r.Err? ==> exists k :: 0 <= k < |entries| && RecordFor(env, entries[k]) == Err(r.error)
    decreases |entries|
  {
    if entries == [] then Ok([])
    else
      match Assemble(env, entries[..|entries| - 1])
      case Err(e) => Err(e)
      case Ok(xs) =>
        match RecordFor(env, entries[|entries| - 1])
        case Err(e) => Err(e)
        case Ok(x) => Ok(xs + [x])
  }

  /** What enumerate_services returns.  A manager failure carries the
      fixed prefix; a success has one record per returned entry and means
      the size reported by the first call was still enough at the second. */
  function EnumerateOutcome(env: Env): (r: Result<seq<ServiceInfo>, string>)
    ensures env.managerError.Some? ==> r.Err? && ManagerOpenFailure <= r.error
    ensures r.Ok? ==>
      env.managerError.None? && env.enumError.None? &&
      env.sizeAtFirstCall >= env.sizeAtSecondCall && |r.value| == |env.listing|
  {
    match OpenManagerAnswer(env)
    case Err(e) => Err(ManagerOpenFailure + Describe(e))
    case Ok(_) =>
      var bytesNeeded := EnumAnswer(env, None).0;
      match EnumAnswer(env, Some(bytesNeeded)).1
      case Err(e) => Err(Describe(e))
      case Ok(listing) =>
        match Assemble(env, listing)
        case Err(e) => Err(Describe(e))
        case Ok(xs) => Ok(xs)
  }

  /** One step of assembly: the error of all but the last entry, else the
      last entry's error, else the records so far followed by its record. */
  lemma AssembleStep(env: Env, entries: seq<RawEntry>)
    requires entries != []
    ensures
      var init, last := entries[..|entries| - 1], entries[|entries| - 1];
      Assemble(env, entries) ==
        if Assemble(env, init).Err? then Err(Assemble(env, init).error)
        else if RecordFor(env, last).Err? then Err(RecordFor(env, last).error)
        else Ok(Assemble(env, init).value + [RecordFor(env, last).value])
  {
  }

  /** Assembly succeeds exactly when every entry's query does.  A failed
      assembly names a failing entry by Assemble's own contract; in a
      successful one each position holds its entry's record. */
  lemma {:induction false} AssembleOk(env: Env, entries: seq<RawEntry>)
    ensures Assemble(env, entries).Ok? <==> forall k :: 0 <= k < |entries| ==> RecordFor(env, entries[k]).Ok?
  {
    if Assemble(env, entries).Ok? {
      forall k | 0 <= k < |entries|
        ensures RecordFor(env, entries[k]).Ok?
      {
        AssembleAt(env, entries, k);
      }
    }
  }

  /** The record at one position of a successful assembly is the one built
      from the entry at that position. */
  lemma {:induction false} AssembleAt(env: Env, entries: seq<RawEntry>, k: nat)
    requires Assemble(env, entries).Ok? && k < |entries|
    ensures RecordFor(env, entries[k]) == Ok(Assemble(env, entries).value[k])
    decreases |entries|
  {
    var init := entries[..|entries| - 1];
    AssembleStep(env, entries);
    if k < |init| {
      AssembleAt(env, init, k);
      assert init[k] == entries[k];
    }
  }

  /** A successful assembly holds, at each position, the record built from
      the entry at that position. */
  lemma {:induction false} AssembleInOrder(env: Env, entries: seq<RawEntry>)
    requires Assemble(env, entries).Ok?
    ensures forall k :: 0 <= k < |entries| ==> RecordFor(env, entries[k]) == Ok(Assemble(env, entries).value[k])
  {
    forall k | 0 <= k < |entries|
      ensures RecordFor(env, entries[k]) == Ok(Assemble(env, entries).value[k])
    {
      AssembleAt(env, entries, k);
    }
  }

  /** The first entry whose query fails decides the error of the whole
      assembly: nothing assembled before it is returned. */
  lemma {:induction false} AssembleFirstFailure(env: Env, entries: seq<RawEntry>, k: nat)
    requires k < |entries| && RecordFor(env, entries[k]).Err?
    requires forall j :: 0 <= j < k ==> RecordFor(env, entries[j]).Ok?
    ensures Assemble(env, entries) == Err(RecordFor(env, entries[k]).error)
    decreases |entries|
  {
    var init, last := entries[..|entries| - 1], entries[|entries| - 1];
    AssembleStep(env, entries);
    if k == |entries| - 1 {
      forall j | 0 <= j < |init|
        ensures RecordFor(env, init[j]).Ok?
      {
        assert init[j] == entries[j];
      }
      AssembleOk(env, init);
      assert Assemble(env, init).Ok? && last == entries[k];
    } else {
      assert init[k] == entries[k];
      forall j | 0 <= j < k
        ensures RecordFor(env, init[j]).Ok?
      {
        assert init[j] == entries[j];
      }
      AssembleFirstFailure(env, init, k);
      assert Assemble(env, init) == Err(RecordFor(env, entries[k]).error);
    }
  }

  /** Extending a successful assembly of a prefix by one entry: the entry's
      failure fails the whole assembly, its record extends the prefix's. */
  lemma AssembleExtend(env: Env, entries: seq<RawEntry>, i: nat)
    requires i < |entries| && Assemble(env, entries[..i]).Ok?
    ensures RecordFor(env, entries[i]).Err? ==> Assemble(env, entries) == Err(RecordFor(env, entries[i]).error)
    ensures RecordFor(env, entries[i]).Ok? ==>
      Assemble(env, entries[..i + 1]) == Ok(Assemble(env, entries[..i]).value + [RecordFor(env, entries[i]).value])
  {
    var prefix := entries[..i + 1];
    assert prefix[..i] == entries[..i] && prefix[i] == entries[i];
    AssembleStep(env, prefix);
    if RecordFor(env, entries[i]).Err? {
      AssembleOk(env, entries[..i]);
      forall j | 0 <= j < i
        ensures RecordFor(env, entries[j]).Ok?
      {
        assert entries[..i][j] == entries[j];
      }
      AssembleFirstFailure(env, entries, i);
    }
  }

  /** enumerate_services: sizes the buffer with a first call, fills it with
      a second, and builds one record per returned entry, querying each
      service's status on the way. */
  method EnumerateServices(sys: System) returns (r: Result<seq<ServiceInfo>, string>)
    requires sys.Valid()
    modifies sys
    ensures sys.Valid() && sys.live == old(sys.live) && sys.issued == old(sys.issued)
    ensures r == EnumerateOutcome(sys.env)
  {
    var m := ServiceManager.New(sys);
    if m.Err? {
      return Err(ManagerOpenFailure + Describe(m.error));
    }
    var manager := m.value;
    var bytesNeeded, probe := sys.EnumServicesStatus(manager.handle, None);
    var buffer: seq<bv8> := seq(bytesNeeded, _ => 0);
    var filled, listed := sys.EnumServicesStatus(manager.handle, Some(|buffer|));
    if listed.Err? {
      manager.Drop();
      return Err(Describe(listed.error));
    }
    var services := listed.value;
    var servicesInfo: seq<ServiceInfo> := [];
    for i := 0 to |services|
      invariant sys.Valid() && sys.issued == old(sys.issued)
      invariant sys.live == old(sys.live) + {manager.handle} && manager.open
      invariant Assemble(sys.env, services[..i]) == Ok(servicesInfo)
    {
      var serviceName := NameOrPlaceholder(services[i].serviceName);
      var query := QueryServiceState(sys, serviceName);
      AssembleExtend(sys.env, services, i);
      if query.Err? {
        manager.Drop();
        return Err(Describe(query.error));
      }
      var q := query.value;
      var interact := IsWin32Process(q.enumType);
      servicesInfo := servicesInfo + [ServiceInfo(serviceName, NameOrPlaceholder(services[i].displayName), q.currentState, q.stringType, interact)];
    }
    assert services[..|services|] == services;
    manager.Drop();
    return Ok(servicesInfo);
  }

  /** The manager failure is reported with its fixed prefix. */
  lemma EnumerateManagerFailure(env: Env)
    requires env.managerError.Some?
    ensures EnumerateOutcome(env) == Err(ManagerOpenFailure + Describe(env.managerError.value))
  {
  }

  /** When the size reported by the first call still suffices at the
      second, the listing is decided by the records alone: one per returned
      entry, in order, or the error of the first entry whose query fails.
      An empty listing gives an empty list. */
  lemma EnumerateRecords(env: Env)
    requires env.managerError.None? && env.enumError.None? && env.sizeAtFirstCall >= env.sizeAtSecondCall
    ensures EnumerateOutcome(env).Ok? <==> forall k :: 0 <= k < |env.listing| ==> RecordFor(env, env.listing[k]).Ok?
    ensures EnumerateOutcome(env).Ok? ==>
      |EnumerateOutcome(env).value| == |env.listing| &&
      forall k :: 0 <= k < |env.listing| ==> RecordFor(env, env.listing[k]) == Ok(EnumerateOutcome(env).value[k])
    ensures env.listing == [] ==> EnumerateOutcome(env) == Ok([])
  {
    AssembleOk(env, env.listing);
    if Assemble(env, env.listing).Ok? {
      AssembleInOrder(env, env.listing);
    }
  }

  /** A listing that grows between the sizing call and the data call makes
      the whole enumeration fail; the size is not asked for again. */
  lemma EnumerateBufferTooSmall(env: Env)
    requires env.managerError.None? && env.enumError.None? && env.sizeAtFirstCall < env.sizeAtSecondCall
    ensures EnumerateOutcome(env) == Err(Describe(MoreData))
  {
  }

  /** Each listed service's eligibility is the one its status query
      computed from the service's own type bits, and a listed driver is
      never eligible. */
  lemma ListedEligibilityFromType(env: Env, k: nat)
    requires EnumerateOutcome(env).Ok?
    requires k < |env.listing|
    ensures |EnumerateOutcome(env).value| == |env.listing|
    ensures
      var x := EnumerateOutcome(env).value[k];
      x.name in env.services &&
      x.canInteract == IsWin32Process(Classify(env.services[x.name].status.serviceType).serviceType) &&
      (env.services[x.name].status.serviceType & (FileSystemDriver | KernelDriver) != 0 ==> !x.canInteract)
  {
    EnumerateRecords(env);
    var x := EnumerateOutcome(env).value[k];
    assert RecordFor(env, env.listing[k]) == Ok(x);
  }

  /** A record whose service name is null, empty or undecodable is queried
      under the placeholder "unknown": unless a service of that name is
      installed, its query fails, and with it the whole listing.  When a
      service of that name is installed, the record is listed under it
      instead (`PlaceholderBorrowsInstalledService`). */
  lemma PlaceholderNameAbortsListing(env: Env, k: nat)
    requires env.managerError.None? && env.enumError.None? && env.sizeAtFirstCall >= env.sizeAtSecondCall
    requires k < |env.listing| && PwstrToString(env.listing[k].serviceName).None?
    requires Placeholder !in env.services
    ensures RecordFor(env, env.listing[k]) == Err(ServiceDoesNotExist)
    ensures EnumerateOutcome(env).Err?
    ensures (forall j :: 0 <= j < k ==> RecordFor(env, env.listing[j]).Ok?) ==>
      EnumerateOutcome(env) == Err(Describe(ServiceDoesNotExist))
  {
    EnumerateRecords(env);
    if forall j :: 0 <= j < k ==> RecordFor(env, env.listing[j]).Ok? {
      AssembleFirstFailure(env, env.listing, k);
    }
  }

  /** When a service called "unknown" is installed and its status reads,
      a record with no usable service name is listed under that name with
      the installed service's state, category and eligibility; only its
      display name is its own. */
  lemma PlaceholderBorrowsInstalledService(env: Env, entry: RawEntry)
    requires PwstrToString(entry.serviceName).None? && QueryOutcome(env, Placeholder).Ok?
    ensures
      var q := Snapshot(env.services[Placeholder].status);
      RecordFor(env, entry) ==
        Ok(ServiceInfo(Placeholder, NameOrPlaceholder(entry.displayName), q.currentState, q.stringType, q.canInteract))
  {
  }

  /** A Win32 own-process service in the running state is listed as
      "Running", "Win32 Own Process", and may be controlled. */
  lemma RunningWin32ServiceListed()
    ensures
      var spooler := Installed(ServiceStatus(Win32OwnProcess, 4), {QueryStatusRight}, None, map[]);
      var env := Env(None, map["Spooler" := spooler], 64, 64, None,
                     [RawEntry(Points(Some("Spooler")), Points(Some("Print Spooler")))]);
      EnumerateOutcome(env) == Ok([ServiceInfo("Spooler", "Print Spooler", "Running", "Win32 Own Process", true)])
  {
    var spooler := Installed(ServiceStatus(Win32OwnProcess, 4), {QueryStatusRight}, None, map[]);
    var env := Env(None, map["Spooler" := spooler], 64, 64, None,
                   [RawEntry(Points(Some("Spooler")), Points(Some("Print Spooler")))]);
    var q := Snapshot(spooler.status);
    assert q.currentState == "Running" && q.stringType == "Win32 Own Process" && q.canInteract by {
      CategoryValues();
    }
    assert QueryOutcome(env, "Spooler") == Ok(q);
    var x := ServiceInfo("Spooler", "Print Spooler", "Running", "Win32 Own Process", true);
    assert RecordFor(env, env.listing[0]) == Ok(x);
    EnumerateRecords(env);
    assert EnumerateOutcome(env).value == [x];
  }

  // ---------------------------------------------------------------------
  // Control operations
  // ---------------------------------------------------------------------

  /** Whether a command for `req` on `name` sends the request: the manager
      and the service open, the fresh status query succeeds, and the
      service it describes may be controlled. */
  predicate ControlIssued(env: Env, name: string, req: Request)
    ensures ControlIssued(env, name, req) ==>
      name in env.services && RightFor(req) in env.services[name].granted &&
      env.services[name].status.serviceType & (FileSystemDriver | KernelDriver) == 0
  {
    && OpenManagerAnswer(env).Ok?
    && OpenServiceAnswer(env, name, RightFor(req)).Ok?
    && QueryOutcome(env, name).Ok?
    && QueryOutcome(env, name).value.canInteract
  }

  /** What start_service, stop_service, pause_service and resume_service
      return for `req` on `name`.  Once the request is sent, success means
      the service accepted it; a command that sends nothing fails only
      when opening or querying failed, and otherwise succeeds because the
      service may not be controlled. */
  function ControlOutcome(env: Env, name: string, req: Request): (r: Result<(), string>)
    ensures ControlIssued(env, name, req) ==> (r.Ok? <==> req !in env.services[name].rejects)
    ensures !ControlIssued(env, name, req) && r.Err? ==>
      OpenManagerAnswer(env).Err? || OpenServiceAnswer(env, name, RightFor(req)).Err? || QueryOutcome(env, name).Err?
    ensures !ControlIssued(env, name, req) && r.Ok? ==>
      QueryOutcome(env, name).Ok? && !QueryOutcome(env, name).value.canInteract
  {
    match OpenManagerAnswer(env)
    case Err(e) => Err(Describe(e))
    case Ok(_) =>
      match OpenServiceAnswer(env, name, RightFor(req))
      case Err(e) => Err(Describe(e))
      case Ok(_) =>
        match QueryOutcome(env, name)
        case Err(e) => Err(Describe(e))
        case Ok(q) =>
          if !q.canInteract then Ok(())
          else match RequestAnswer(env, ServiceTarget(name, RightFor(req)), req)
            case Err(e) => Err(Describe(e))
            case Ok(_) => Ok(())
  }

  /** A request is sent exactly when the service exists, both handles open,
      its status reads, and its type bits classify as a Win32 process. */
  lemma ControlIssuedIffEligible(env: Env, name: string, req: Request)
    ensures ControlIssued(env, name, req) <==>
      && env.managerError.None?
      && name in env.services
      && RightFor(req) in env.services[name].granted
      && QueryStatusRight in env.services[name].granted
      && env.services[name].statusError.None?
      && IsWin32Process(Classify(env.services[name].status.serviceType).serviceType)
    ensures ControlIssued(env, name, req) ==>
      var t := Classify(env.services[name].status.serviceType).text;
      t == "Win32 Own Process" || t == "Win32 Share Process"
  {
  }

  /** A service that may not be controlled is left alone and the command
      still reports success. */
  lemma IneligibleIsSilentSuccess(env: Env, name: string, req: Request)
    requires OpenManagerAnswer(env).Ok? && OpenServiceAnswer(env, name, RightFor(req)).Ok?
    requires QueryOutcome(env, name).Ok? && !QueryOutcome(env, name).value.canInteract
    ensures ControlOutcome(env, name, req) == Ok(())
    ensures !ControlIssued(env, name, req)
  {
  }

  /** No request is ever sent to a driver; once its handles open and its
      status reads, the command reports success. */
  lemma DriversNeverControlled(env: Env, name: string, req: Request)
    requires name in env.services
    requires env.services[name].status.serviceType & (FileSystemDriver | KernelDriver) != 0
    ensures !ControlIssued(env, name, req)
    ensures OpenManagerAnswer(env).Ok? && OpenServiceAnswer(env, name, RightFor(req)).Ok? && QueryOutcome(env, name).Ok? ==>
      ControlOutcome(env, name, req) == Ok(())
  {
  }

  /** Once a request is sent, the service's own refusal (a pause of a
      paused service, say) is returned as the error, never masked. */
  lemma SentRequestOutcome(env: Env, name: string, req: Request)
    requires ControlIssued(env, name, req)
    ensures ControlOutcome(env, name, req) ==
      if req in env.services[name].rejects then Err(Describe(env.services[name].rejects[req])) else Ok(())
  {
  }

  /** The shared body of start, pause and resume: both handles are held by
      guards and dropped on every path. */
  method ControlThroughGuards(sys: System, name: string, req: Request) returns (r: Result<(), string>)
    requires sys.Valid()
    modifies sys
    ensures sys.Valid() && sys.live == old(sys.live)
    ensures sys.issued == old(sys.issued) + (if ControlIssued(sys.env, name, req) then [Issued(name, req)] else [])
    ensures r == ControlOutcome(sys.env, name, req)
  {
    var m := ServiceManager.New(sys);
    if m.Err? {
      return Err(Describe(m.error));
    }
    var scm := m.value;
    var s := OpenService.New(sys, scm.handle, name, RightFor(req));
    if s.Err? {
      scm.Drop();
      return Err(Describe(s.error));
    }
    var service := s.value;
    var query := QueryServiceState(sys, name);
    if query.Err? {
      service.Drop();
      scm.Drop();
      return Err(Describe(query.error));
    }
    if query.value.canInteract {
      var sent := sys.SendRequest(service.handle, req);
      if sent.Err? {
        service.Drop();
        scm.Drop();
        return Err(Describe(sent.error));
      }
    }
    service.Drop();
    scm.Drop();
    return Ok(());
  }

  /** start_service: StartServiceW with no arguments, only when eligible. */
  method StartService(sys: System, name: string) returns (r: Result<(), string>)
    requires sys.Valid()
    modifies sys
    ensures sys.Valid() && sys.live == old(sys.live)
    ensures sys.issued == old(sys.issued) + (if ControlIssued(sys.env, name, StartRequest) then [Issued(name, StartRequest)] else [])
    ensures r == ControlOutcome(sys.env, name, StartRequest)
  {
    r := ControlThroughGuards(sys, name, StartRequest);
  }

  /** pause_service: SERVICE_CONTROL_PAUSE, only when eligible. */
  method PauseService(sys: System, name: string) returns (r: Result<(), string>)
    requires sys.Valid()
    modifies sys
    ensures sys.Valid() && sys.live == old(sys.live)
    ensures sys.issued == old(sys.issued) + (if ControlIssued(sys.env, name, PauseControl) then [Issued(name, PauseControl)] else [])
    ensures r == ControlOutcome(sys.env, name, PauseControl)
  {
    r := ControlThroughGuards(sys, name, PauseControl);
  }

  /** resume_service: SERVICE_CONTROL_CONTINUE, only when eligible. */
  method ResumeService(sys: System, name: string) returns (r: Result<(), string>)
    requires sys.Valid()
    modifies sys
    ensures sys.Valid() && sys.live == old(sys.live)
    ensures sys.issued == old(sys.issued) + (if ControlIssued(sys.env, name, ContinueControl) then [Issued(name, ContinueControl)] else [])
    ensures r == ControlOutcome(sys.env, name, ContinueControl)
  {
    r := ControlThroughGuards(sys, name, ContinueControl);
  }

  /** Whether stop_service, as written, leaves its raw service handle open:
      every path after OpenServiceW succeeds except the one where the stop
      is sent and accepted. */
  predicate StopLeaks(env: Env, name: string)
    ensures StopLeaks(env, name) <==>
      && env.managerError.None? && name in env.services && StopRight in env.services[name].granted
      && !(ControlIssued(env, name, StopControl) && ControlOutcome(env, name, StopControl).Ok?)
  {
    && OpenManagerAnswer(env).Ok?
    && OpenServiceAnswer(env, name, StopRight).Ok?
    && !(ControlIssued(env, name, StopControl) && StopControl !in env.services[name].rejects)
  }

  /** stop_service as written: the service handle comes from OpenServiceW
      directly, not from a guard, and is closed only after a stop that was
      sent and accepted.  Its result and its requests are those of the
      other commands; the ledger gains the raw handle whenever StopLeaks. */
  method StopService(sys: System, name: string) returns (r: Result<(), string>)
    requires sys.Valid()
    modifies sys
    ensures sys.Valid()
    ensures sys.issued == old(sys.issued) + (if ControlIssued(sys.env, name, StopControl) then [Issued(name, StopControl)] else [])
    ensures r == ControlOutcome(sys.env, name, StopControl)
    ensures sys.live == old(sys.live) +
      (if StopLeaks(sys.env, name) then {Handle(old(sys.next) + 1, ServiceTarget(name, StopRight))} else {})
  {
    var m := ServiceManager.New(sys);
    if m.Err? {
      return Err(Describe(m.error));
    }
    var scm := m.value;
    var raw := sys.OpenService(scm.handle, name, StopRight);
    if raw.Err? {
      scm.Drop();
      return Err(Describe(raw.error));
    }
    var service := raw.value;
    var query := QueryServiceState(sys, name);
    if query.Err? {
      scm.Drop();
      return Err(Describe(query.error));
    }
    if query.value.canInteract {
      var sent := sys.SendRequest(service, StopControl);
      if sent.Err? {
        scm.Drop();
        return Err(Describe(sent.error));
      }
      sys.CloseServiceHandle(service);
    }
    scm.Drop();
    return Ok(());
  }

  /** A kernel driver that exists and may be opened for stopping: the stop
      command reports success, sends nothing, and leaves its raw handle
      open. */
  lemma StopLeaksOnIneligibleService()
    ensures
      var beep := Installed(ServiceStatus(KernelDriver, 4), {QueryStatusRight, StopRight}, None, map[]);
      var env := Env(None, map["Beep" := beep], 0, 0, None, []);
      ControlOutcome(env, "Beep", StopControl) == Ok(()) &&
      !ControlIssued(env, "Beep", StopControl) &&
      StopLeaks(env, "Beep")
  {
  }

  /** stop_service with the service handle held by an OpenService guard,
      as the other three commands hold theirs: the same result and the
      same requests, and no handle is left open. */
  method StopServiceScoped(sys: System, name: string) returns (r: Result<(), string>)
    requires sys.Valid()
    modifies sys
    ensures sys.Valid() && sys.live == old(sys.live)
    ensures sys.issued == old(sys.issued) + (if ControlIssued(sys.env, name, StopControl) then [Issued(name, StopControl)] else [])
    ensures r == ControlOutcome(sys.env, name, StopControl)
  {
    r := ControlThroughGuards(sys, name, StopControl);
  }
}
