/** What crosses the wire unchanged: every operation whose scalars fit their width, float patterns that
    are no NaN among them. */
module CodecIdentity {
  import opened Base
  import opened Ternary
  import opened Isa
  import opened WireBytes
  import opened WireFormat
  import opened CodecRoundTrip

  // ---- floats --------------------------------------------------------------------------

  const SIGN := 0x8000_0000_0000_0000
  const EXPONENT := 0x7FF0_0000_0000_0000
  const MANTISSAS := 0x10_0000_0000_0000
  const QUIET_NAN := 0x7FF8_0000_0000_0000

  /** Exponent bits all set and a mantissa that is not zero, with either sign (section 3.4 of IEEE 754-2008). */
  predicate IsNaN(bits: nat) {
    EXPONENT < bits < EXPONENT + MANTISSAS || SIGN + EXPONENT < bits < SIGN + EXPONENT + MANTISSAS
  }

  lemma NaNByParts(bits: nat)
    requires bits < U64
    ensures IsNaN(bits) <==> bits / MANTISSAS % 0x800 == 0x7FF && bits % MANTISSAS != 0
  {
    assert bits == bits / MANTISSAS * MANTISSAS + bits % MANTISSAS;
  }

  /** A NaN becomes the quiet NaN; every other pattern stays, the infinities and signed zeros included. */
  lemma CanonicalMeans(bits: nat)
    requires bits < U64
    ensures CanonicalFloat(bits) == if IsNaN(bits) then QUIET_NAN else bits
    ensures !IsNaN(EXPONENT) && !IsNaN(SIGN + EXPONENT) && IsNaN(QUIET_NAN)
  {
    NaNByParts(bits);
  }

  /** What a value reads back as. */
  predicate ReadsAs(v: Val, out: Val) {
    match v
    case FloatVal(bits) => bits < U64 ==> out == FloatVal(if IsNaN(bits) then QUIET_NAN else bits)
    case IntVal(i) => -I64_LIMIT <= i < I64_LIMIT ==> out == v
    case _ => out == v
  }

  lemma NormalReads(v: Val)
    ensures ReadsAs(v, NormalVal(v))
  {
    if v.FloatVal? && v.bits < U64 { CanonicalMeans(v.bits); }
  }

  /** A printed attribute map parses to the same keys: every float that is no NaN as itself, every NaN as
      the quiet NaN, every integer in range and every other value as itself. */
  lemma AttributesCross(id: Uid, typ: Text, kind: NodeKind, attrs: Attrs)
    requires Fits(NodeCreate(id, typ, kind, attrs))
    ensures var op := NodeCreate(id, typ, kind, attrs);
      var parsed := ParsePayload(OpcodeFor(op), Payload(op));
      && parsed.Ok? && parsed.value.NodeCreate? && parsed.value.attrs.Keys == attrs.Keys
      && forall k :: k in attrs ==> ReadsAs(attrs[k], parsed.value.attrs[k])
  {
    RoundTrip(NodeCreate(id, typ, kind, attrs));
    hide Payload, OpcodeFor, ParsePayload, Fits;
    forall k | k in attrs ensures ReadsAs(attrs[k], NormalVal(attrs[k])) { NormalReads(attrs[k]); }
    hide ReadsAs, NormalVal;
  }

  // ---- whole operations ------------------------------------------------------------------

  predicate Wire(x: nat) { x < U64 }

  /** The value is one the wire can carry. */
  predicate PortableVal(v: Val) {
    && (v.IntVal? ==> -I64_LIMIT <= v.i < I64_LIMIT)
    && (v.FloatVal? ==> v.bits < U64 && (IsNaN(v.bits) ==> v.bits == QUIET_NAN))
  }

  predicate PortableDep(dep: DepKind) {
    match dep
    case Local(port) => port.Some? ==> port.value.name != []
    case Remote(r) =>
      && Wire(r.sourcePartition) && Wire(r.sourceUid) && Wire(r.sourceVersion) && Wire(r.sourceAuthority) && Wire(r.emittedClass)
      && r.capability < 256 && Wire(r.causalScope.scopeBits) && r.causalScope.root == NIL && WireClocks(r.causalFrontier)
  }

  /** Identifiers and classes below 2^64, capabilities below 2^8, counts below 2^32; what the format has no
      place for holds the value the parser puts there. */
  predicate Portable(op: IsaOp) {
    match op
    case NodeCreate(id, _, _, attrs) => Wire(id) && forall k :: k in attrs ==> PortableVal(attrs[k])
    case EdgeConnect(id, typ, src, tgt, dep) => Wire(id) && typ == DEP_TYPE && Wire(src) && Wire(tgt) && PortableDep(dep)
    case SetValue(node, _) => Wire(node)
    case Propagate(node) => Wire(node)
    case Subscribe(source, subscriber) => Wire(source) && Wire(subscriber)
    case DelNode(id) => Wire(id)
    case DelEdge(id) => Wire(id)
    case Demand(node) => Wire(node)
    case SetMode(node, _) => Wire(node)
    case Reflect(node) => Wire(node)
    case Stabilize(region) => region.Some? ==> region.value != [] && forall k :: 0 <= k < |region.value| ==> Wire(region.value[k])
    case PartitionCreate(pid, root, lattice, domain) =>
      Wire(pid) && Wire(root) && Wire(lattice) && Wire(domain.scopeBits) && domain.root == pid
    case PartitionBind(node, partition) => Wire(node) && Wire(partition)
    case SetPartitionAuthority(partition, lattice, domain) =>
      Wire(partition) && Wire(lattice) && Wire(domain.scopeBits) && domain.root == NIL
    case SetEdgeLabel(source, target, l) =>
      && Wire(source) && Wire(target) && l.capability < 256 && Wire(l.latticeClass) && l.projectionMask == WILDCARD
      && Wire(l.causalScope.scopeBits) && l.causalScope.root == NIL
    case SetStabilizationConfig(node, config) =>
      && Wire(node) && config.maxIterations < U32
      && (config.strategy.Restricted? ==> 0 < config.strategy.mask < 256)
    case SetExecutionPolicy(node, policy) => Wire(node) && (policy.retry.Retry? ==> policy.retry.maxAttempts == 3)
    case RegionDeclare(root, boundary, _, _) =>
      && Wire(root)
      && match boundary
         case DepClosure(maxDepth) => maxDepth < U32
         case ExplicitSet(ids) => forall k :: 0 <= k < |ids| ==> Wire(ids[k])
         case PartitionScoped(pid) => Wire(pid)
  }

  lemma PortableAttrs(attrs: Attrs)
    requires forall k :: k in attrs ==> PortableVal(attrs[k])
    ensures NormalAttrs(attrs) == attrs
  {
    forall k | k in attrs ensures NormalVal(attrs[k]) == attrs[k] { NormalReads(attrs[k]); }
    hide NormalVal;
  }

  lemma PortableIds(ids: seq<Uid>)
    requires forall k :: 0 <= k < |ids| ==> Wire(ids[k])
    ensures LowAll(ids) == ids
  {}

  lemma PortableDepStays(dep: DepKind)
    requires PortableDep(dep)
    ensures NormalDep(dep) == dep
  {
    if dep.Remote? { WireClocksNormal(dep.dep.causalFrontier); }
    hide NormalFrontier;
  }

  lemma PortableStays(op: IsaOp)
    requires Portable(op)
    ensures NormalForm(op) == op
  {
    match op {
      case NodeCreate(_, _, _, attrs) => PortableAttrs(attrs);
      case EdgeConnect(_, _, _, _, dep) => PortableDepStays(dep);
      case Stabilize(region) => if region.Some? { PortableIds(region.value); }
      case RegionDeclare(_, boundary, _, _) => if boundary.ExplicitSet? { PortableIds(boundary.ids); }
      case _ =>
    }
    hide NormalAttrs, NormalDep, LowAll, PortableDep, PortableVal;
  }

  /** A portable operation whose texts and lengths fit parses back as exactly itself. */
  lemma PortableBack(op: IsaOp)
    requires Fits(op) && Portable(op)
    ensures ParsePayload(OpcodeFor(op), Payload(op)) == Ok(op)
  {
    RoundTrip(op);
    PortableStays(op);
    hide *;
  }
}
