/** The Windows probes of keadm (common_windows.go): "running" means the
    service manager can open a service of that name. */
module WindowsProbe {
  import opened KubeEdgeTypes

  const KUBE_EDGE_SERVICE_NAME := "edgecore"

  /** What the service manager answers: the error of connecting, if any,
      and for each service name the error of opening it, if any. */
  datatype ServiceManagerView = ServiceManagerView(connect: Option<string>, open: string -> Option<string>)

  /** IsKubeEdgeProcessRunning: connect, then open the service. */
  function IsKubeEdgeProcessRunning(m: ServiceManagerView, service: string): (p: Probe)
    // Exactly one of "running" and "error": unlike the Linux probe there is
    // no (false, no error) answer.
    ensures p.running <==> p.err.None?
    ensures p.running <==> m.connect.None? && m.open(service).None?
    ensures m.connect.Some? ==> p.err == m.connect
    ensures m.connect.None? && m.open(service).Some? ==> p.err == m.open(service)
  {
    match m.connect
    case Some(e) => Probe(false, Some(e))
    case None =>
      match m.open(service)
      case Some(e) => Probe(false, Some(e))
      case None => Probe(true, None)
  }

  /** RunningModuleV2 as written: the "edgecore" service being found is
      reported as nothing running, and its absence (or any error) as edge
      running. The options are not read. */
  function RunningModuleV2(m: ServiceManagerView, opts: ResetOptions): (r: ModuleRunning)
    ensures r != CloudRunning
    ensures r == NoneRunning <==> m.connect.None? && m.open(KUBE_EDGE_SERVICE_NAME).None?
    ensures r == EdgeRunning <==> IsKubeEdgeProcessRunning(m, KUBE_EDGE_SERVICE_NAME).err.Some?
  {
    if IsKubeEdgeProcessRunning(m, KUBE_EDGE_SERVICE_NAME).running then NoneRunning else EdgeRunning
  }

  /** The answer depends only on the service manager, never on the options. */
  lemma RunningModuleV2IgnoresOptions(m: ServiceManagerView, o1: ResetOptions, o2: ResetOptions)
    ensures RunningModuleV2(m, o1) == RunningModuleV2(m, o2)
  {
  }

  /** Only the edgecore service is probed: the other services do not change
      the answer. */
  lemma RunningModuleV2OnlyProbesEdgeCore(m1: ServiceManagerView, m2: ServiceManagerView, opts: ResetOptions)
    requires m1.connect == m2.connect
    requires m1.open(KUBE_EDGE_SERVICE_NAME) == m2.open(KUBE_EDGE_SERVICE_NAME)
    ensures RunningModuleV2(m1, opts) == RunningModuleV2(m2, opts)
  {
  }
}
