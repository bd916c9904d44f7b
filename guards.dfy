/** The two scope guards that own an SC_HANDLE: `ServiceManager` for a
    handle on the service control manager and `OpenService` for a handle
    on one service.  Opening one takes a handle into the system's ledger;
    `Drop`, which Rust runs when the guard leaves scope, closes it.  `Drop`
    requires the guard to be open and leaves it closed, so a guard
    releases its handle at most once; the commands that use the guards
    prove that every guard they open is dropped on every path. */
module Guards {
  import opened Wrappers
  import opened Win32

  class ServiceManager {
    const sys: System
    const handle: Handle
    /** True until the guard is dropped. */
    var open: bool

    constructor (sys: System, handle: Handle)
      ensures this.sys == sys && this.handle == handle && open
    {
      this.sys := sys;
      this.handle := handle;
      open := true;
    }

    /** ServiceManager::new: opens the manager with SC_MANAGER_ENUMERATE_SERVICE. */
    static method New(sys: System) returns (r: Result<ServiceManager, OsError>)
      requires sys.Valid()
      modifies sys
      ensures sys.Valid() && sys.issued == old(sys.issued)
      ensures r.Ok? <==> OpenManagerAnswer(sys.env).Ok?
      ensures r.Err? ==> r.error == OpenManagerAnswer(sys.env).error
      ensures r.Err? ==> sys.live == old(sys.live) && sys.next == old(sys.next)
      ensures r.Ok? ==> fresh(r.value) && r.value.open && r.value.sys == sys
      ensures r.Ok? ==> r.value.handle == Handle(old(sys.next), ManagerTarget) && r.value.handle !in old(sys.live)
      ensures r.Ok? ==> sys.live == old(sys.live) + {r.value.handle} && sys.next == old(sys.next) + 1
    {
      var h := sys.OpenSCManager();
      match h
      case Err(e) => r := Err(e);
      case Ok(handle) =>
        var guard := new ServiceManager(sys, handle);
        r := Ok(guard);
    }

    /** Drop: closes the manager handle. */
    method Drop()
      requires open && sys.Valid() && handle in sys.live
      modifies this, sys
      ensures !open
      ensures sys.Valid() && sys.issued == old(sys.issued) && sys.next == old(sys.next)
      ensures sys.live == old(sys.live) - {handle}
    {
      sys.CloseServiceHandle(handle);
      open := false;
    }
  }

  class OpenService {
    const sys: System
    const handle: Handle
    /** True until the guard is dropped. */
    var open: bool

    constructor (sys: System, handle: Handle)
      ensures this.sys == sys && this.handle == handle && open
    {
      this.sys := sys;
      this.handle := handle;
      open := true;
    }

    /** OpenService::new: opens the named service through a live manager
        handle with the requested rights. */
    static method New(sys: System, manager: Handle, name: string, right: Right) returns (r: Result<OpenService, OsError>)
      requires sys.Valid() && manager in sys.live && manager.target == ManagerTarget
      modifies sys
      ensures sys.Valid() && sys.issued == old(sys.issued)
      ensures r.Ok? <==> OpenServiceAnswer(sys.env, name, right).Ok?
      ensures r.Err? ==> r.error == OpenServiceAnswer(sys.env, name, right).error
      ensures r.Err? ==> sys.live == old(sys.live) && sys.next == old(sys.next)
      ensures r.Ok? ==> fresh(r.value) && r.value.open && r.value.sys == sys
      ensures r.Ok? ==> r.value.handle == Handle(old(sys.next), ServiceTarget(name, right)) && r.value.handle !in old(sys.live)
      ensures r.Ok? ==> sys.live == old(sys.live) + {r.value.handle} && sys.next == old(sys.next) + 1
    {
      var h := sys.OpenService(manager, name, right);
      match h
      case Err(e) => r := Err(e);
      case Ok(handle) =>
        var guard := new OpenService(sys, handle);
        r := Ok(guard);
    }

    /** Drop: closes the service handle. */
    method Drop()
      requires open && sys.Valid() && handle in sys.live
      modifies this, sys
      ensures !open
      ensures sys.Valid() && sys.issued == old(sys.issued) && sys.next == old(sys.next)
      ensures sys.live == old(sys.live) - {handle}
    {
      sys.CloseServiceHandle(handle);
      open := false;
    }
  }
}
