/** The wire format of the instruction payloads: what is printed for an operation, in front of any
    bytes that follow, and what is parsed from the front of a byte string. */
module WireFormat {
  import opened Base
  import opened Ternary
  import opened Rules
  import opened Isa
  import opened WireBytes

  type Bytes = seq<Byte>

  // ---- printing ---------------------------------------------------------------------------

  function PutU8(x: Byte, rest: Bytes): Bytes { [x] + rest }

  function PutU16(x: int, rest: Bytes): Bytes { LE(2, x) + rest }

  function PutU32(x: int, rest: Bytes): Bytes { LE(4, x) + rest }

  function PutU64(x: int, rest: Bytes): Bytes { LE(8, x) + rest }

  /** A length prefix of two bytes, then the text. */
  function PutStr(s: Text, rest: Bytes): Bytes { PutU16(|s|, s + rest) }

  /** -1, 0 or 1 as one signed byte. */
  function PutT(t: T, rest: Bytes): Bytes {
    PutU8(match t case Neg => 0xFF case Zero => 0 case Pos => 1, rest)
  }

  function PutVal(v: Val, rest: Bytes): Bytes {
    match v
    case BoolVal(b) => PutU8(0x01, PutU8(if b then 1 else 0, rest))
    case IntVal(i) => PutU8(0x02, PutU64(i, rest))
    case FloatVal(bits) => PutU8(0x03, PutU64(CanonicalFloat(bits % U64), rest))
    case TextVal(s) => PutU8(0x04, PutStr(s, rest))
    case TernaryVal(t) => PutU8(0x06, PutT(t, rest))
  }

  function PutEntry(key: Text, v: Val, rest: Bytes): Bytes { PutStr(key, PutVal(v, rest)) }

  function PutEntries(keys: seq<Text>, attrs: Attrs, rest: Bytes): Bytes
    requires forall k :: k in keys ==> k in attrs
  {
    if keys == [] then rest else PutEntry(keys[0], attrs[keys[0]], PutEntries(keys[1..], attrs, rest))
  }

  /** The attribute map: a count, then the entries in key order. */
  function PutAttrs(attrs: Attrs, rest: Bytes): Bytes {
    SortedElements(attrs.Keys);
    PutU16(|attrs|, PutEntries(Sorted(attrs.Keys), attrs, rest))
  }

  function PutIds(ids: seq<Uid>, rest: Bytes): Bytes {
    if ids == [] then rest else PutU64(ids[0], PutIds(ids[1..], rest))
  }

  function PutClocks(pids: seq<PartitionId>, clocks: map<PartitionId, nat>, rest: Bytes): Bytes
    requires forall p :: p in pids ==> p in clocks
  {
    if pids == [] then rest else PutU64(pids[0], PutU64(clocks[pids[0]], PutClocks(pids[1..], clocks, rest)))
  }

  /** The frontier: a count, then the entries in ascending order of their partition. */
  function PutFrontier(frontier: map<PartitionId, nat>, rest: Bytes): Bytes {
    AscendingElements(frontier.Keys);
    PutU16(|frontier|, PutClocks(Ascending(frontier.Keys), frontier, rest))
  }

  function RuleByte(kind: NodeKind): Byte {
    match kind
    case Input => 0x00
    case Computed(rule) =>
      match rule
      case Identity => 0x01
      case MvNegRule => 0x02
      case MvAddRule => 0x03
      case MvMulRule => 0x04
      case MvSubRule => 0x05
      case MergeRule => 0x06
      case MeetAllRule => 0x07
      case JoinAnyRule => 0x08
      case BochvarFold => 0x09
      case PowerProduct => 0x0A
  }

  function PortByte(k: PortKind): Byte {
    match k case Signal => 0x00 case Effort => 0x01 case Flow => 0x02 case Bond => 0x03
  }

  function ZeroByte(k: ZeroKind): Byte {
    match k
    case Conflict => 0x00
    case Incomplete => 0x01
    case Ambiguous => 0x02
    case Retracted => 0x03
    case BoundaryViolation => 0x04
    case VersionSkew => 0x05
  }

  function ModeByte(m: ExecMode): Byte {
    match m case Eager => 0x00 case Lazy => 0x01 case Stabilizing => 0x02
  }

  function PutPayloadKind(k: PayloadKind, rest: Bytes): Bytes {
    match k
    case Definite => PutU8(0x00, rest)
    case TypedZero(z) => PutU8(0x01, PutU8(ZeroByte(z), rest))
  }

  /** The fields of a remote dependency, after the port kind and the empty port name. */
  function PutRemote(r: RemoteDep, rest: Bytes): Bytes {
    PutU64(r.sourcePartition, PutU64(r.sourceUid, PutU64(r.sourceVersion, PutPayloadKind(r.payloadKind,
      PutFrontier(r.causalFrontier, PutU64(r.sourceAuthority, PutU64(r.emittedClass,
        PutU8(r.capability % 256, PutU64(r.causalScope.scopeBits, rest)))))))))
  }

  function PutDep(dep: DepKind, rest: Bytes): Bytes {
    match dep
    case Local(None) => PutU8(0x00, PutU8(0x00, PutStr([], rest)))
    case Local(Some(port)) => PutU8(0x00, PutU8(PortByte(port.kind), PutStr(port.name, rest)))
    case Remote(r) => PutU8(0x01, PutU8(PortByte(r.portKind), PutStr([], PutRemote(r, rest))))
  }

  function PutConfig(c: StabilizationConfig, rest: Bytes): Bytes {
    PutU8(match c.strategy case FullL3 => 0x00 case Restricted(v) => v % 256,
      PutU8(match c.domain case LocalOnly => 0x00 case Federated => 0x01 case Inherit => 0x02,
        PutU32(c.maxIterations,
          PutU8(match c.convergence case Canonical => 0x00 case Witness => 0x01 case BudgetExhausted => 0x02, rest))))
  }

  function PutPolicy(p: ExecutionPolicy, rest: Bytes): Bytes {
    PutU8(match p.priority case Normal => 0x00 case High => 0x01 case Low => 0x02,
      PutU8(match p.retry case Fail => 0x00 case Retry(_) => 0x01, rest))
  }

  function PutBoundary(b: RegionBoundary, rest: Bytes): Bytes {
    match b
    case DepClosure(maxDepth) => PutU8(0x00, PutU32(maxDepth, rest))
    case ExplicitSet(ids) => PutU8(0x01, PutU32(|ids|, PutIds(ids, rest)))
    case PartitionScoped(pid) => PutU8(0x02, PutU64(pid, rest))
  }

  function PutDeclare(boundary: RegionBoundary, stability: StabilityContract, compile: CompilePolicy, rest: Bytes): Bytes {
    PutBoundary(boundary,
      PutU8(match stability case Pinned => 0x00 case EpochTracked => 0x01,
        PutU8(match compile case CompileEager => 0x00 case CompileLazy => 0x01 case CompileNever => 0x02, rest)))
  }

  function PutRegion(region: Option<seq<Uid>>, rest: Bytes): Bytes {
    match region
    case None => PutU32(0, rest)
    case Some(ids) => PutU32(|ids|, PutIds(ids, rest))
  }

  function PutAuthority(latticeClass: nat, domain: CausalScope, rest: Bytes): Bytes {
    PutU64(latticeClass, PutU64(domain.scopeBits, rest))
  }

  function PutLabel(l: EdgeLabel, rest: Bytes): Bytes {
    PutU64(l.latticeClass, PutU8(l.capability % 256, PutU64(l.causalScope.scopeBits, rest)))
  }

  /** The payload of an operation in front of the bytes that follow it. */
  function PutPayload(op: IsaOp, rest: Bytes): Bytes {
    match op
    case NodeCreate(id, typ, kind, attrs) => PutU64(id, PutStr(typ, PutU8(RuleByte(kind), PutAttrs(attrs, rest))))
    case EdgeConnect(id, _, src, tgt, dep) => PutU64(id, PutU64(src, PutU64(tgt, PutDep(dep, rest))))
    case SetValue(node, v) => PutU64(node, PutT(v, rest))
    case Propagate(node) => PutU64(node, rest)
    case Subscribe(source, subscriber) => PutU64(source, PutU64(subscriber, rest))
    case DelNode(id) => PutU64(id, rest)
    case DelEdge(id) => PutU64(id, rest)
    case Demand(node) => PutU64(node, rest)
    case SetMode(node, mode) => PutU64(node, PutU8(ModeByte(mode), rest))
    case Reflect(node) => PutU64(node, rest)
    case Stabilize(region) => PutRegion(region, rest)
    case PartitionCreate(pid, root, lattice, domain) => PutU64(pid, PutU64(root, PutAuthority(lattice, domain, rest)))
    case PartitionBind(node, partition) => PutU64(node, PutU64(partition, rest))
    case SetPartitionAuthority(partition, lattice, domain) => PutU64(partition, PutAuthority(lattice, domain, rest))
    case SetEdgeLabel(source, target, edgeLabel) => PutU64(source, PutU64(target, PutLabel(edgeLabel, rest)))
    case SetStabilizationConfig(node, config) => PutU64(node, PutConfig(config, rest))
    case SetExecutionPolicy(node, policy) => PutU64(node, PutPolicy(policy, rest))
    case RegionDeclare(root, boundary, stability, compile) => PutU64(root, PutDeclare(boundary, stability, compile, rest))
  }

  /** `write_payload` into an empty buffer. */
  function Payload(op: IsaOp): Bytes { PutPayload(op, []) }

  function OpcodeFor(op: IsaOp): nat {
    match op
    case NodeCreate(_, _, _, _) => 0x0001
    case EdgeConnect(_, _, _, _, _) => 0x0002
    case SetValue(_, _) => 0x0003
    case Propagate(_) => 0x0004
    case Subscribe(_, _) => 0x0005
    case DelNode(_) => 0x0006
    case DelEdge(_) => 0x0007
    case Demand(_) => 0x0008
    case SetMode(_, _) => 0x0009
    case Reflect(_) => 0x000A
    case Stabilize(_) => 0x000B
    case PartitionCreate(_, _, _, _) => 0x000C
    case PartitionBind(_, _) => 0x000D
    case SetPartitionAuthority(_, _, _) => 0x000E
    case SetEdgeLabel(_, _, _) => 0x000F
    case SetStabilizationConfig(_, _) => 0x0010
    case SetExecutionPolicy(_, _) => 0x0011
    case RegionDeclare(_, _, _, _) => 0x0012
  }

  // ---- parsing ----------------------------------------------------------------------------

  datatype DispatchError =
    | PayloadTruncated(needed: nat, available: nat)
    | InvalidUtf8
    | InvalidTernaryValue(v: int)
    | UnknownOpcode(opcode: nat)
    | UnknownNodeRule(b: Byte)
    | UnknownPortKind(b: Byte)
    | UnknownDepKind(b: Byte)
    | UnknownExecMode(b: Byte)
    | UnsupportedAttrTag(b: Byte)
    | UnknownZeroKind(b: Byte)
    | UnknownPayloadKind(b: Byte)
    | UnknownRegionBoundaryTag(b: Byte)
    | UnknownStabilityContract(b: Byte)
    | UnknownCompilePolicy(b: Byte)

  /** A parsed value with the bytes after it, or the error. */
  type Parsed<A> = Result<(A, Bytes), DispatchError>

  function TakeBytes(n: nat, b: Bytes): Parsed<Bytes> {
    if |b| < n then Err(PayloadTruncated(n, |b|)) else Ok((b[..n], b[n..]))
  }

  function TakeU8(b: Bytes): Parsed<Byte> {
    if |b| < 1 then Err(PayloadTruncated(1, |b|)) else Ok((b[0], b[1..]))
  }

  function TakeLE(n: nat, b: Bytes): Parsed<nat> {
    var p :- TakeBytes(n, b);
    Ok((FromLE(p.0), p.1))
  }

  function TakeU16(b: Bytes): Parsed<nat> { TakeLE(2, b) }

  function TakeU32(b: Bytes): Parsed<nat> { TakeLE(4, b) }

  function TakeU64(b: Bytes): Parsed<nat> { TakeLE(8, b) }

  function TakeStr(b: Bytes): Parsed<Text> {
    var n :- TakeU16(b);
    var s :- TakeBytes(n.0, n.1);
    if Utf8(s.0) then Ok(s) else Err(InvalidUtf8)
  }

  function TernaryOf(v: int): Result<T, DispatchError> {
    if v == -1 then Ok(Neg) else if v == 0 then Ok(Zero) else if v == 1 then Ok(Pos) else Err(InvalidTernaryValue(v))
  }

  function TakeT(b: Bytes): Parsed<T> {
    var v :- TakeU8(b);
    var t :- TernaryOf(Signed8(v.0));
    Ok((t, v.1))
  }

  lemma TakeU64Bound(b: Bytes)
    ensures TakeU64(b).Ok? ==> TakeU64(b).value.0 < U64
  {
    if |b| >= 8 {
      FromLEBound(b[..8]);
      Widths();
    }
  }

  /** One attribute value by its tag. Byte strings are read and refused; identifiers become
      integers. */
  function TakeVal(tag: Byte, b: Bytes): Parsed<Val> {
    if tag == 0x01 then
      var v :- TakeU8(b); Ok((BoolVal(v.0 != 0), v.1))
    else if tag == 0x02 then
      TakeU64Bound(b); var v :- TakeU64(b); Ok((IntVal(Signed64(v.0)), v.1))
    else if tag == 0x03 then
      TakeU64Bound(b); var v :- TakeU64(b); Ok((FloatVal(CanonicalFloat(v.0)), v.1))
    else if tag == 0x04 then
      var s :- TakeStr(b); Ok((TextVal(s.0), s.1))
    else if tag == 0x05 then
      var n :- TakeU32(b);
      var skipped :- TakeBytes(n.0, n.1);
      Err(UnsupportedAttrTag(0x05))
    else if tag == 0x06 then
      var t :- TakeT(b); Ok((TernaryVal(t.0), t.1))
    else if tag == 0x07 then
      TakeU64Bound(b); var v :- TakeU64(b); Ok((IntVal(Signed64(v.0)), v.1))
    else Err(UnsupportedAttrTag(tag))
  }

  function TakeEntry(b: Bytes): Parsed<(Text, Val)> {
    var key :- TakeStr(b);
    var tag :- TakeU8(key.1);
    var v :- TakeVal(tag.0, tag.1);
    Ok(((key.0, v.0), v.1))
  }

  /** n entries, each set in the map read so far. */
  function TakeEntries(n: nat, b: Bytes, attrs: Attrs): Parsed<Attrs> {
    if n == 0 then Ok((attrs, b))
    else
      var entry :- TakeEntry(b);
      TakeEntries(n - 1, entry.1, attrs[entry.0.0 := entry.0.1])
  }

  function TakeAttrs(b: Bytes): Parsed<Attrs> {
    var n :- TakeU16(b);
    TakeEntries(n.0, n.1, map[])
  }

  /** n identifiers, each appended to those read so far. */
  function TakeIds(n: nat, b: Bytes, ids: seq<Uid>): Parsed<seq<Uid>> {
    if n == 0 then Ok((ids, b))
    else
      var id :- TakeU64(b);
      TakeIds(n - 1, id.1, ids + [id.0])
  }

  /** n frontier entries, each set in the clock read so far. */
  function TakeClocks(n: nat, b: Bytes, clocks: map<PartitionId, nat>): Parsed<map<PartitionId, nat>> {
    if n == 0 then Ok((clocks, b))
    else
      var pid :- TakeU64(b);
      var clock :- TakeU64(pid.1);
      TakeClocks(n - 1, clock.1, clocks[pid.0 := clock.0])
  }

  function TakeFrontier(b: Bytes): Parsed<map<PartitionId, nat>> {
    var n :- TakeU16(b);
    TakeClocks(n.0, n.1, map[])
  }

  function KindOf(b: Byte): Result<NodeKind, DispatchError> {
    if b == 0x00 then Ok(Input)
    else if b == 0x01 then Ok(Computed(Identity))
    else if b == 0x02 then Ok(Computed(MvNegRule))
    else if b == 0x03 then Ok(Computed(MvAddRule))
    else if b == 0x04 then Ok(Computed(MvMulRule))
    else if b == 0x05 then Ok(Computed(MvSubRule))
    else if b == 0x06 then Ok(Computed(MergeRule))
    else if b == 0x07 then Ok(Computed(MeetAllRule))
    else if b == 0x08 then Ok(Computed(JoinAnyRule))
    else if b == 0x09 then Ok(Computed(BochvarFold))
    else if b == 0x0A then Ok(Computed(PowerProduct))
    else Err(UnknownNodeRule(b))
  }

  function PortOf(b: Byte): Result<PortKind, DispatchError> {
    if b == 0x00 then Ok(Signal)
    else if b == 0x01 then Ok(Effort)
    else if b == 0x02 then Ok(Flow)
    else if b == 0x03 then Ok(Bond)
    else Err(UnknownPortKind(b))
  }

  function ZeroOf(b: Byte): Result<ZeroKind, DispatchError> {
    if b == 0x00 then Ok(Conflict)
    else if b == 0x01 then Ok(Incomplete)
    else if b == 0x02 then Ok(Ambiguous)
    else if b == 0x03 then Ok(Retracted)
    else if b == 0x04 then Ok(BoundaryViolation)
    else if b == 0x05 then Ok(VersionSkew)
    else Err(UnknownZeroKind(b))
  }

  function ModeOfByte(b: Byte): Result<ExecMode, DispatchError> {
    if b == 0x00 then Ok(Eager) else if b == 0x01 then Ok(Lazy) else if b == 0x02 then Ok(Stabilizing)
    else Err(UnknownExecMode(b))
  }

  function StabilityOf(b: Byte): Result<StabilityContract, DispatchError> {
    if b == 0x00 then Ok(Pinned) else if b == 0x01 then Ok(EpochTracked) else Err(UnknownStabilityContract(b))
  }

  function CompileOf(b: Byte): Result<CompilePolicy, DispatchError> {
    if b == 0x00 then Ok(CompileEager) else if b == 0x01 then Ok(CompileLazy) else if b == 0x02 then Ok(CompileNever)
    else Err(UnknownCompilePolicy(b))
  }

  function TakePayloadKind(b: Bytes): Parsed<PayloadKind> {
    var k :- TakeU8(b);
    if k.0 == 0x00 then Ok((Definite, k.1))
    else if k.0 == 0x01 then
      var z :- TakeU8(k.1);
      var zero :- ZeroOf(z.0);
      Ok((TypedZero(zero), z.1))
    else Err(UnknownPayloadKind(k.0))
  }

  const NIL: PartitionId := 0

  function TakeRemote(kind: PortKind, b: Bytes): Parsed<RemoteDep> {
    var partition :- TakeU64(b);
    var source :- TakeU64(partition.1);
    var version :- TakeU64(source.1);
    var payload :- TakePayloadKind(version.1);
    var frontier :- TakeFrontier(payload.1);
    var authority :- TakeU64(frontier.1);
    var emitted :- TakeU64(authority.1);
    var capability :- TakeU8(emitted.1);
    var scope :- TakeU64(capability.1);
    Ok((RemoteDep(partition.0, source.0, version.0, kind, frontier.0, payload.0, authority.0, emitted.0, capability.0,
                  CausalScope(scope.0, NIL)), scope.1))
  }

  function TakeDep(b: Bytes): Parsed<DepKind> {
    var dep :- TakeU8(b);
    var port :- TakeU8(dep.1);
    var name :- TakeStr(port.1);
    var kind :- PortOf(port.0);
    if dep.0 == 0x00 then Ok((Local(if name.0 == [] then None else Some(Port(name.0, kind))), name.1))
    else if dep.0 == 0x01 then
      var r :- TakeRemote(kind, name.1);
      Ok((Remote(r.0), r.1))
    else Err(UnknownDepKind(dep.0))
  }

  function TakeConfig(b: Bytes): Parsed<StabilizationConfig> {
    var strategy :- TakeU8(b);
    var domain :- TakeU8(strategy.1);
    var iterations :- TakeU32(domain.1);
    var convergence :- TakeU8(iterations.1);
    Ok((StabilizationConfig(
          if strategy.0 == 0x00 then FullL3 else Restricted(strategy.0),
          if domain.0 == 0x00 then LocalOnly else if domain.0 == 0x01 then Federated else Inherit,
          iterations.0,
          if convergence.0 == 0x00 then Canonical else if convergence.0 == 0x01 then Witness else BudgetExhausted),
        convergence.1))
  }

  function TakePolicy(b: Bytes): Parsed<ExecutionPolicy> {
    var priority :- TakeU8(b);
    var retry :- TakeU8(priority.1);
    Ok((ExecutionPolicy(if priority.0 == 0x01 then High else if priority.0 == 0x02 then Low else Normal,
                        if retry.0 == 0x01 then Retry(3) else Fail), retry.1))
  }

  function TakeBoundary(b: Bytes): Parsed<RegionBoundary> {
    var tag :- TakeU8(b);
    if tag.0 == 0x00 then
      var depth :- TakeU32(tag.1);
      Ok((DepClosure(depth.0), depth.1))
    else if tag.0 == 0x01 then
      var n :- TakeU32(tag.1);
      var ids :- TakeIds(n.0, n.1, []);
      Ok((ExplicitSet(ids.0), ids.1))
    else if tag.0 == 0x02 then
      var pid :- TakeU64(tag.1);
      Ok((PartitionScoped(pid.0), pid.1))
    else Err(UnknownRegionBoundaryTag(tag.0))
  }

  function TakeRegion(b: Bytes): Parsed<Option<seq<Uid>>> {
    var n :- TakeU32(b);
    if n.0 == 0 then Ok((None, n.1))
    else
      var ids :- TakeIds(n.0, n.1, []);
      Ok((Some(ids.0), ids.1))
  }

  // ---- the operands of each opcode -----------------------------------------------------------

  function TakeNodeCreate(b: Bytes): Parsed<IsaOp> {
    var id :- TakeU64(b);
    var typ :- TakeStr(id.1);
    var rule :- TakeU8(typ.1);
    var kind :- KindOf(rule.0);
    var attrs :- TakeAttrs(rule.1);
    Ok((NodeCreate(id.0, typ.0, kind, attrs.0), attrs.1))
  }

  /** The type every parsed edge gets: "dep". */
  const DEP_TYPE: Text := [100, 101, 112]

  function TakeEdgeConnect(b: Bytes): Parsed<IsaOp> {
    var id :- TakeU64(b);
    var src :- TakeU64(id.1);
    var tgt :- TakeU64(src.1);
    var dep :- TakeDep(tgt.1);
    Ok((EdgeConnect(id.0, DEP_TYPE, src.0, tgt.0, dep.0), dep.1))
  }

  function TakeSetValue(b: Bytes): Parsed<IsaOp> {
    var node :- TakeU64(b);
    var v :- TakeT(node.1);
    Ok((SetValue(node.0, v.0), v.1))
  }

  function TakeSubscribe(b: Bytes): Parsed<IsaOp> {
    var source :- TakeU64(b);
    var subscriber :- TakeU64(source.1);
    Ok((Subscribe(source.0, subscriber.0), subscriber.1))
  }

  function TakeSetMode(b: Bytes): Parsed<IsaOp> {
    var node :- TakeU64(b);
    var m :- TakeU8(node.1);
    var mode :- ModeOfByte(m.0);
    Ok((SetMode(node.0, mode), m.1))
  }

  function TakePartitionCreate(b: Bytes): Parsed<IsaOp> {
    var pid :- TakeU64(b);
    var root :- TakeU64(pid.1);
    var lattice :- TakeU64(root.1);
    var domain :- TakeU64(lattice.1);
    Ok((PartitionCreate(pid.0, root.0, lattice.0, CausalScope(domain.0, pid.0)), domain.1))
  }

  function TakePartitionBind(b: Bytes): Parsed<IsaOp> {
    var node :- TakeU64(b);
    var partition :- TakeU64(node.1);
    Ok((PartitionBind(node.0, partition.0), partition.1))
  }

  function TakeSetPartitionAuthority(b: Bytes): Parsed<IsaOp> {
    var partition :- TakeU64(b);
    var lattice :- TakeU64(partition.1);
    var domain :- TakeU64(lattice.1);
    Ok((SetPartitionAuthority(partition.0, lattice.0, CausalScope(domain.0, NIL)), domain.1))
  }

  function TakeSetEdgeLabel(b: Bytes): Parsed<IsaOp> {
    var src :- TakeU64(b);
    var tgt :- TakeU64(src.1);
    var lattice :- TakeU64(tgt.1);
    var capability :- TakeU8(lattice.1);
    var scope :- TakeU64(capability.1);
    Ok((SetEdgeLabel(src.0, tgt.0, EdgeLabel(capability.0, lattice.0, WILDCARD, CausalScope(scope.0, NIL))), scope.1))
  }

  function TakeSetStabilizationConfig(b: Bytes): Parsed<IsaOp> {
    var node :- TakeU64(b);
    var config :- TakeConfig(node.1);
    Ok((SetStabilizationConfig(node.0, config.0), config.1))
  }

  function TakeSetExecutionPolicy(b: Bytes): Parsed<IsaOp> {
    var node :- TakeU64(b);
    var policy :- TakePolicy(node.1);
    Ok((SetExecutionPolicy(node.0, policy.0), policy.1))
  }

  function TakeRegionDeclare(b: Bytes): Parsed<IsaOp> {
    var root :- TakeU64(b);
    var boundary :- TakeBoundary(root.1);
    var s :- TakeU8(boundary.1);
    var stability :- StabilityOf(s.0);
    var c :- TakeU8(s.1);
    var compile :- CompileOf(c.0);
    Ok((RegionDeclare(root.0, boundary.0, stability, compile), c.1))
  }

  /** The operation of an opcode, with the bytes left over. */
  function TakeOp(opcode: nat, b: Bytes): Parsed<IsaOp> {
    match opcode
    case 0x0001 => TakeNodeCreate(b)
    case 0x0002 => TakeEdgeConnect(b)
    case 0x0003 => TakeSetValue(b)
    case 0x0004 => var node :- TakeU64(b); Ok((Propagate(node.0), node.1))
    case 0x0005 => TakeSubscribe(b)
    case 0x0006 => var id :- TakeU64(b); Ok((DelNode(id.0), id.1))
    case 0x0007 => var id :- TakeU64(b); Ok((DelEdge(id.0), id.1))
    case 0x0008 => var node :- TakeU64(b); Ok((Demand(node.0), node.1))
    case 0x0009 => TakeSetMode(b)
    case 0x000A => var node :- TakeU64(b); Ok((Reflect(node.0), node.1))
    case 0x000B => var region :- TakeRegion(b); Ok((Stabilize(region.0), region.1))
    case 0x000C => TakePartitionCreate(b)
    case 0x000D => TakePartitionBind(b)
    case 0x000E => TakeSetPartitionAuthority(b)
    case 0x000F => TakeSetEdgeLabel(b)
    case 0x0010 => TakeSetStabilizationConfig(b)
    case 0x0011 => TakeSetExecutionPolicy(b)
    case 0x0012 => TakeRegionDeclare(b)
    case _ => Err(UnknownOpcode(opcode))
  }

  /** `parse_payload`: bytes after the operands are ignored. */
  function ParsePayload(opcode: nat, payload: Bytes): Result<IsaOp, DispatchError> {
    var op :- TakeOp(opcode, payload);
    Ok(op.0)
  }
}
