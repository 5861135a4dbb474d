/** Registering keadm's Windows service (service_windows.go): the service
    manager's registry of services and the table of event-log sources. What
    the manager and the event log answer is given as fault inputs. */
module WindowsService {
  import opened KubeEdgeTypes
  import opened Text

  datatype StartType = StartAutomatic | StartManual | StartDisabled

  /** The configuration a service is created with. */
  datatype ServiceConfig = ServiceConfig(
    exePath: string,
    displayName: string,
    description: string,
    startType: StartType,
    args: seq<string>)

  /** The registered services by name, and the names with an event-log source. */
  datatype Registry = Registry(services: map<string, ServiceConfig>, eventSources: set<string>)

  /** The errors the service manager and the event log report during an
      install, if any: connecting, creating the service, creating the
      event-log source, and deleting the service again on rollback. */
  datatype InstallFaults = InstallFaults(
    connect: Option<string>,
    create: Option<string>,
    eventLog: Option<string>,
    rollback: Option<string>)

  /** The errors reported during an uninstall: connecting, deleting the
      service, removing its event-log source. */
  datatype UninstallFaults = UninstallFaults(
    connect: Option<string>,
    delete: Option<string>,
    eventLogRemove: Option<string>)

  datatype ServiceError =
    | ConnectFailed(msg: string)
    | AlreadyExists(name: string)
    | CreateFailed(msg: string)
    | EventLogSetupFailed(msg: string)
    | NotInstalled(name: string)
    | DeleteFailed(msg: string)
    | EventLogRemoveFailed(msg: string)

  /** The text of each error; the manager's own errors are returned as they are. */
  function ServiceErrorMessage(e: ServiceError): string {
    match e
    case ConnectFailed(msg) => msg
    case AlreadyExists(name) => "service " + name + " already exists"
    case CreateFailed(msg) => msg
    case EventLogSetupFailed(msg) => "SetupEventLogSource() failed: " + msg
    case NotInstalled(name) => "service " + name + " is not installed"
    case DeleteFailed(msg) => msg
    case EventLogRemoveFailed(msg) => "RemoveEventLogSource() failed: " + msg
  }

  /** The registry after an operation, and its error. */
  datatype Outcome = Outcome(registry: Registry, err: Option<ServiceError>)

  /** InstallWindowsService on a registry: reject an existing name, create
      the service with automatic start, then create its event-log source;
      an event-log error that does not mention "exists" deletes the service
      again (whose own error is ignored) and fails. */
  function Install(reg: Registry, exePath: string, name: string, displayName: string, description: string,
                   params: seq<string>, faults: InstallFaults): Outcome
  {
    if faults.connect.Some? then Outcome(reg, Some(ConnectFailed(faults.connect.value)))
    else if name in reg.services then Outcome(reg, Some(AlreadyExists(name)))
    else if faults.create.Some? then Outcome(reg, Some(CreateFailed(faults.create.value)))
    else
      var created := reg.(services := reg.services[name := ServiceConfig(exePath, displayName, description,
                                                                         StartAutomatic, params)]);
      match faults.eventLog
      case None => Outcome(created.(eventSources := created.eventSources + {name}), None)
      case Some(msg) =>
        if Contains(msg, "exists") then Outcome(created, None)
        else if faults.rollback.None? then Outcome(reg, Some(EventLogSetupFailed(msg)))
        else Outcome(created, Some(EventLogSetupFailed(msg)))
  }

  /** UninstallWindowsService on a registry: reject an unknown name, delete
      the service, then remove its event-log source. */
  function Uninstall(reg: Registry, name: string, faults: UninstallFaults): Outcome {
    if faults.connect.Some? then Outcome(reg, Some(ConnectFailed(faults.connect.value)))
    else if name !in reg.services then Outcome(reg, Some(NotInstalled(name)))
    else if faults.delete.Some? then Outcome(reg, Some(DeleteFailed(faults.delete.value)))
    else
      var deleted := reg.(services := reg.services - {name});
      if faults.eventLogRemove.Some? then Outcome(deleted, Some(EventLogRemoveFailed(faults.eventLogRemove.value)))
      else Outcome(deleted.(eventSources := deleted.eventSources - {name}), None)
  }

  const NO_INSTALL_FAULTS := InstallFaults(None, None, None, None)
  const NO_UNINSTALL_FAULTS := UninstallFaults(None, None, None)

  // ---------------------------------------------------------------------
  // Properties

  /** When the service manager cannot be reached, both operations return
      its error and change nothing. */
  lemma ConnectFailureChangesNothing(reg: Registry, exePath: string, name: string, displayName: string,
                                     description: string, params: seq<string>, msg: string,
                                     installFaults: InstallFaults, uninstallFaults: UninstallFaults)
    requires installFaults.connect == Some(msg) && uninstallFaults.connect == Some(msg)
    ensures Install(reg, exePath, name, displayName, description, params, installFaults)
            == Outcome(reg, Some(ConnectFailed(msg)))
    ensures Uninstall(reg, name, uninstallFaults) == Outcome(reg, Some(ConnectFailed(msg)))
    ensures ServiceErrorMessage(ConnectFailed(msg)) == msg
  {
  }

  /** Installing a name that is already registered fails with "service <name>
      already exists" and changes nothing. */
  lemma InstallRejectsDuplicate(reg: Registry, exePath: string, name: string, displayName: string,
                                description: string, params: seq<string>, faults: InstallFaults)
    requires faults.connect.None?
    requires name in reg.services
    ensures var o := Install(reg, exePath, name, displayName, description, params, faults);
      && o.registry == reg
      && o.err.Some?
      && ServiceErrorMessage(o.err.value) == "service " + name + " already exists"
  {
  }

  /** An install succeeds exactly when the manager is reachable, the name is
      new, creation works and the event-log source is created or reported
      as existing; it then registers exactly the given service, with
      automatic start and the given arguments, and nothing else. */
  lemma InstallSucceeds(reg: Registry, exePath: string, name: string, displayName: string,
                        description: string, params: seq<string>, faults: InstallFaults)
    ensures var o := Install(reg, exePath, name, displayName, description, params, faults);
      && (o.err.None? <==>
            && faults.connect.None? && name !in reg.services && faults.create.None?
            && (faults.eventLog.None? || Contains(faults.eventLog.value, "exists")))
      && (o.err.None? ==>
            && o.registry.services.Keys == reg.services.Keys + {name}
            && o.registry.services[name] == ServiceConfig(exePath, displayName, description, StartAutomatic, params)
            && (forall other :: other in reg.services ==> o.registry.services[other] == reg.services[other])
            && o.registry.eventSources == reg.eventSources + (if faults.eventLog.None? then {name} else {}))
  {
    var o := Install(reg, exePath, name, displayName, description, params, faults);
    if o.err.None? {
      assert o.registry.services == reg.services[name := ServiceConfig(exePath, displayName, description,
                                                                       StartAutomatic, params)];
    }
  }

  /** An event-log error that does not mention "exists" fails the install
      with "SetupEventLogSource() failed: <error>"; the created service is
      deleted again, so the registry is as before, unless that deletion
      itself failed, in which case the new service stays registered. */
  lemma InstallRollsBack(reg: Registry, exePath: string, name: string, displayName: string,
                         description: string, params: seq<string>, faults: InstallFaults, msg: string)
    requires faults.connect.None? && faults.create.None?
    requires name !in reg.services
    requires faults.eventLog == Some(msg) && !Contains(msg, "exists")
    ensures var o := Install(reg, exePath, name, displayName, description, params, faults);
      && o.err == Some(EventLogSetupFailed(msg))
      && ServiceErrorMessage(o.err.value) == "SetupEventLogSource() failed: " + msg
      && (faults.rollback.None? ==> o.registry == reg)
      && (faults.rollback.Some? ==> name in o.registry.services && o.registry.eventSources == reg.eventSources)
  {
  }

  /** Whatever happens, an install leaves every other service and every
      other event-log source as it was. */
  lemma InstallTouchesOnlyItsName(reg: Registry, exePath: string, name: string, displayName: string,
                                  description: string, params: seq<string>, faults: InstallFaults, other: string)
    requires other != name
    ensures var o := Install(reg, exePath, name, displayName, description, params, faults);
      && (other in o.registry.services <==> other in reg.services)
      && (other in reg.services ==> o.registry.services[other] == reg.services[other])
      && (other in o.registry.eventSources <==> other in reg.eventSources)
  {
  }

  /** Uninstalling a name that is not registered fails with "service <name>
      is not installed" and changes nothing. */
  lemma UninstallRejectsAbsent(reg: Registry, name: string, faults: UninstallFaults)
    requires faults.connect.None?
    requires name !in reg.services
    ensures var o := Uninstall(reg, name, faults);
      && o.registry == reg
      && o.err.Some?
      && ServiceErrorMessage(o.err.value) == "service " + name + " is not installed"
  {
  }

  /** The failure paths of an uninstall of a registered service: a failed
      deletion changes nothing (the event-log source is not touched); a
      failed source removal after the deletion still fails, with the
      service gone and the source left behind. */
  lemma UninstallFailures(reg: Registry, name: string, faults: UninstallFaults)
    requires faults.connect.None?
    requires name in reg.services
    ensures var o := Uninstall(reg, name, faults);
      && (faults.delete.Some? ==> o == Outcome(reg, Some(DeleteFailed(faults.delete.value))))
      && (faults.delete.None? && faults.eventLogRemove.Some? ==>
            && o.err == Some(EventLogRemoveFailed(faults.eventLogRemove.value))
            && ServiceErrorMessage(o.err.value) == "RemoveEventLogSource() failed: " + faults.eventLogRemove.value
            && name !in o.registry.services
            && o.registry.eventSources == reg.eventSources)
      && (o.err.None? <==> faults.delete.None? && faults.eventLogRemove.None?)
      && (o.err.None? ==> o.registry == Registry(reg.services - {name}, reg.eventSources - {name}))
  {
  }

  /** Installing a new service and uninstalling it again, with no faults,
      restores the registry exactly. */
  lemma InstallThenUninstall(reg: Registry, exePath: string, name: string, displayName: string,
                             description: string, params: seq<string>)
    requires name !in reg.services && name !in reg.eventSources
    ensures var o := Install(reg, exePath, name, displayName, description, params, NO_INSTALL_FAULTS);
      && o.err.None?
      && Uninstall(o.registry, name, NO_UNINSTALL_FAULTS) == Outcome(reg, None)
  {
    var o := Install(reg, exePath, name, displayName, description, params, NO_INSTALL_FAULTS);
    assert o.registry.services - {name} == reg.services;
    assert o.registry.eventSources - {name} == reg.eventSources;
  }

  // ---------------------------------------------------------------------
  // The service manager

  /** The service manager of the machine, changed in place by installs and
      uninstalls. */
  class ServiceControlManager {
    var services: map<string, ServiceConfig>
    var eventSources: set<string>

    function Snapshot(): Registry
      reads this
    {
      Registry(services, eventSources)
    }

    constructor(reg: Registry)
      ensures Snapshot() == reg
    {
      services := reg.services;
      eventSources := reg.eventSources;
    }

    /** InstallWindowsService. */
    method InstallWindowsService(exePath: string, serviceName: string, displayName: string, description: string,
                                 params: seq<string>, faults: InstallFaults) returns (err: Option<ServiceError>)
      modifies this
      ensures Outcome(Snapshot(), err)
              == Install(old(Snapshot()), exePath, serviceName, displayName, description, params, faults)
    {
      if faults.connect.Some? {
        return Some(ConnectFailed(faults.connect.value));
      }
      if serviceName in services {
        return Some(AlreadyExists(serviceName));
      }
      if faults.create.Some? {
        return Some(CreateFailed(faults.create.value));
      }
      services := services[serviceName := ServiceConfig(exePath, displayName, description, StartAutomatic, params)];
      if faults.eventLog.None? {
        eventSources := eventSources + {serviceName};
        return None;
      }
      var msg := faults.eventLog.value;
      if !Contains(msg, "exists") {
        if faults.rollback.None? {
          services := services - {serviceName};
          assert services == old(services);
        }
        return Some(EventLogSetupFailed(msg));
      }
      return None;
    }

    /** UninstallWindowsService. */
    method UninstallWindowsService(serviceName: string, faults: UninstallFaults) returns (err: Option<ServiceError>)
      modifies this
      ensures Outcome(Snapshot(), err) == Uninstall(old(Snapshot()), serviceName, faults)
    {
      if faults.connect.Some? {
        return Some(ConnectFailed(faults.connect.value));
      }
      if serviceName !in services {
        return Some(NotInstalled(serviceName));
      }
      if faults.delete.Some? {
        return Some(DeleteFailed(faults.delete.value));
      }
      services := services - {serviceName};
      if faults.eventLogRemove.Some? {
        return Some(EventLogRemoveFailed(faults.eventLogRemove.value));
      }
      eventSources := eventSources - {serviceName};
      return None;
    }
  }
}
