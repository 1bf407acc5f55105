/** The instruction set: the operations that mutate the graph, with their operands. */
module Isa {
  import opened Base
  import opened Ternary
  import opened Rules
  import opened Time

  type Byte = b: nat | b < 256

  /** A UTF-8 string as its bytes. */
  type Text = seq<Byte>

  /** Partition identifiers share the identifier space of nodes. */
  type PartitionId = Uid

  datatype ExecMode = Eager | Lazy | Stabilizing
  datatype NodeKind = Input | Computed(rule: ComputeRule)

  /** Floats are their 64-bit patterns. */
  datatype Val = TernaryVal(t: T) | IntVal(i: int) | FloatVal(bits: nat) | TextVal(s: Text) | BoolVal(b: bool)
  type Attrs = map<Text, Val>

  datatype PortKind = Effort | Flow | Bond | Signal
  datatype Port = Port(name: Text, kind: PortKind)
  datatype ZeroKind = Conflict | Incomplete | Ambiguous | Retracted | BoundaryViolation | VersionSkew
  datatype PayloadKind = Definite | TypedZero(kind: ZeroKind)
  datatype CausalScope = CausalScope(scopeBits: nat, root: PartitionId)
  datatype ProjectionMask = ProjectionMask(dims: set<TimeDim>, attrs: set<Text>, shape: Option<nat>)

  const ALL_DIMS: set<TimeDim> := {TimeDim.Identity, Attribute, Dependency, Egraph, Boundary}
  const WILDCARD := ProjectionMask(ALL_DIMS, {}, None)

  datatype RemoteDep = RemoteDep(
    sourcePartition: PartitionId, sourceUid: Uid, sourceVersion: nat, portKind: PortKind,
    causalFrontier: map<PartitionId, nat>, payloadKind: PayloadKind,
    sourceAuthority: PartitionId, emittedClass: nat, capability: nat, causalScope: CausalScope)

  datatype DepKind = Local(port: Option<Port>) | Remote(dep: RemoteDep)

  datatype EdgeLabel = EdgeLabel(capability: nat, latticeClass: nat, projectionMask: ProjectionMask, causalScope: CausalScope)

  datatype RewriteStrategy = FullL3 | Restricted(mask: nat)
  datatype StabilizationDomain = LocalOnly | Federated | Inherit
  datatype ConvergencePolicy = Canonical | Witness | BudgetExhausted
  datatype StabilizationConfig = StabilizationConfig(
    strategy: RewriteStrategy, domain: StabilizationDomain, maxIterations: nat, convergence: ConvergencePolicy)

  datatype QueuePriority = Normal | High | Low
  datatype RetryPolicy = Fail | Retry(maxAttempts: nat)
  datatype ExecutionPolicy = ExecutionPolicy(priority: QueuePriority, retry: RetryPolicy)

  datatype RegionBoundary = DepClosure(maxDepth: nat) | ExplicitSet(ids: seq<Uid>) | PartitionScoped(pid: PartitionId)
  datatype StabilityContract = Pinned | EpochTracked
  datatype CompilePolicy = CompileEager | CompileLazy | CompileNever

  datatype IsaOp =
    | NodeCreate(id: Uid, typ: Text, kind: NodeKind, attrs: Attrs)
    | EdgeConnect(id: Uid, typ: Text, src: Uid, tgt: Uid, dep: DepKind)
    | SetValue(node: Uid, val: T)
    | Propagate(node: Uid)
    | Subscribe(source: Uid, subscriber: Uid)
    | DelNode(id: Uid)
    | DelEdge(id: Uid)
    | Demand(node: Uid)
    | SetMode(node: Uid, mode: ExecMode)
    | Reflect(node: Uid)
    | Stabilize(region: Option<seq<Uid>>)
    | PartitionCreate(pid: PartitionId, authorityRoot: PartitionId, latticeClass: nat, causalDomain: CausalScope)
    | PartitionBind(node: Uid, partition: PartitionId)
    | SetPartitionAuthority(partition: PartitionId, latticeClass: nat, causalDomain: CausalScope)
    | SetEdgeLabel(source: Uid, target: Uid, edgeLabel: EdgeLabel)
    | SetStabilizationConfig(node: Uid, config: StabilizationConfig)
    | SetExecutionPolicy(node: Uid, policy: ExecutionPolicy)
    | RegionDeclare(root: Uid, boundary: RegionBoundary, stability: StabilityContract, compile: CompilePolicy)

  /** The mode a port kind prefers for the node that reads through it. */
  function PreferredMode(k: PortKind): Option<ExecMode> {
    match k
    case Effort => Some(Lazy)
    case Flow => Some(Eager)
    case Bond => Some(Stabilizing)
    case Signal => None
  }

  function PortPreference(dep: DepKind): Option<ExecMode> {
    match dep
    case Local(p) => if p.Some? then PreferredMode(p.value.kind) else None
    case Remote(r) => PreferredMode(r.portKind)
  }
}
