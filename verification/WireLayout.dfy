/** The documented layout of the wire: which byte of a number comes where, and what the bytes of every payload are. */
module WireLayout {
  import opened Base
  import opened Ternary
  import opened Rules
  import opened Isa
  import opened WireBytes
  import opened WireFormat

  // ---- little-endian ---------------------------------------------------------------------------

  lemma DivUnique(x: nat, m: nat, a: nat, c: nat)
    requires m > 0 && x == m * a + c && c < m
    ensures x / m == a
  {
    ModUnique(x, m, a, c);
    assert m * (x / m) == m * a;
  }

  lemma DivTwice(x: nat, p: nat)
    requires p > 0
    ensures x / 256 / p == x / (256 * p)
  {
    var q, r, s := x / 256 / p, x / 256 % p, x % 256;
    assert x == 256 * (p * q + r) + s;
    assert 256 * (p * q) == 256 * p * q;
    DivUnique(x, 256 * p, q, 256 * r + s);
  }

  /** The k-th byte of an unsigned number is its k-th digit to the base 256, the least first. */
  lemma {:induction false} LeastByteFirst(n: nat, x: nat, k: nat)
    requires k < n
    ensures LE(n, x)[k] == x / Pow256(k) % 256
    decreases k
  {
    if k > 0 {
      LeastByteFirst(n - 1, x / 256, k - 1);
      DivTwice(x, Pow256(k - 1));
    }
  }

  /** A negative number is written as its two's complement: as itself plus 256 to the width. */
  lemma {:induction false} TwosComplement(n: nat, x: int)
    ensures LE(n, x) == LE(n, x + Pow256(n))
    decreases n
  {
    if n > 0 {
      TwosComplement(n - 1, x / 256);
      assert (x + 256 * Pow256(n - 1)) / 256 == x / 256 + Pow256(n - 1);
    }
  }

  // ---- tables --------------------------------------------------------------------------------------

  const RULE_TABLE: seq<NodeKind> :=
    [Input, Computed(Rules.Identity), Computed(MvNegRule), Computed(MvAddRule), Computed(MvMulRule), Computed(MvSubRule),
     Computed(MergeRule), Computed(MeetAllRule), Computed(JoinAnyRule), Computed(BochvarFold), Computed(PowerProduct)]

  /** The discriminants count up from zero in the documented order. */
  lemma RulesInOrder(kind: NodeKind)
    ensures |RULE_TABLE| == 11 && RuleByte(kind) < 11 && RULE_TABLE[RuleByte(kind)] == kind
  {
    match kind {
      case Input =>
      case Computed(rule) =>
        match rule {
          case Identity => assert RULE_TABLE[1] == kind;
          case MvNegRule => assert RULE_TABLE[2] == kind;
          case MvAddRule => assert RULE_TABLE[3] == kind;
          case MvMulRule => assert RULE_TABLE[4] == kind;
          case MvSubRule => assert RULE_TABLE[5] == kind;
          case MergeRule => assert RULE_TABLE[6] == kind;
          case MeetAllRule => assert RULE_TABLE[7] == kind;
          case JoinAnyRule => assert RULE_TABLE[8] == kind;
          case BochvarFold => assert RULE_TABLE[9] == kind;
          case PowerProduct => assert RULE_TABLE[10] == kind;
        }
    }
  }

  /** A value as a signed byte: -1, 0 or 1, which is its rank less one. */
  function SignedByte(v: T): nat { (Rank(v) - 1) % 256 }

  /** The number of an instruction: those that extend the graph, then those that inhibit, reflect, administer, and compile. */
  function Number(op: IsaOp): nat {
    if op.NodeCreate? then 1 else if op.EdgeConnect? then 2 else if op.SetValue? then 3 else if op.Propagate? then 4
    else if op.Subscribe? then 5 else if op.DelNode? then 6 else if op.DelEdge? then 7 else if op.Demand? then 8
    else if op.SetMode? then 9 else if op.Reflect? then 10 else if op.Stabilize? then 11 else if op.PartitionCreate? then 12
    else if op.PartitionBind? then 13 else if op.SetPartitionAuthority? then 14 else if op.SetEdgeLabel? then 15
    else if op.SetStabilizationConfig? then 16 else if op.SetExecutionPolicy? then 17 else 18
  }

  lemma OpcodeIsNumber(op: IsaOp)
    ensures OpcodeFor(op) == Number(op)
  {}

  // ---- payloads ----------------------------------------------------------------------------------------

  /** The bytes of the identifiers, each in eight. */
  function Words(ids: seq<nat>): Bytes { if ids == [] then [] else LE(8, ids[0]) + Words(ids[1..]) }

  lemma {:induction false} IdsAreWords(ids: seq<Uid>, rest: Bytes)
    ensures PutIds(ids, rest) == Words(ids) + rest
  {
    if ids == [] {
      assert [] + rest == rest;
    } else {
      IdsAreWords(ids[1..], rest);
      assert (LE(8, ids[0]) + Words(ids[1..])) + rest == LE(8, ids[0]) + (Words(ids[1..]) + rest);
    }
  }

  /** The fields an instruction's payload starts with, eight bytes each, in order. */
  function Leading(op: IsaOp): seq<nat> {
    match op
    case NodeCreate(id, _, _, _) => [id]
    case EdgeConnect(id, _, src, tgt, _) => [id, src, tgt]
    case SetValue(node, _) => [node]
    case Propagate(node) => [node]
    case Subscribe(source, subscriber) => [source, subscriber]
    case DelNode(id) => [id]
    case DelEdge(id) => [id]
    case Demand(node) => [node]
    case SetMode(node, _) => [node]
    case Reflect(node) => [node]
    case Stabilize(_) => []
    case PartitionCreate(pid, root, lattice, domain) => [pid, root, lattice, domain.scopeBits]
    case PartitionBind(node, partition) => [node, partition]
    case SetPartitionAuthority(partition, lattice, domain) => [partition, lattice, domain.scopeBits]
    case SetEdgeLabel(source, target, edgeLabel) => [source, target, edgeLabel.latticeClass]
    case SetStabilizationConfig(node, _) => [node]
    case SetExecutionPolicy(node, _) => [node]
    case RegionDeclare(root, _, _, _) => [root]
  }

  /** Nothing follows the leading fields. */
  predicate OnlyWords(op: IsaOp) {
    op.Propagate? || op.Subscribe? || op.DelNode? || op.DelEdge? || op.Demand? || op.Reflect? || op.PartitionCreate? || op.PartitionBind? || op.SetPartitionAuthority?
  }

  /** Identifiers and other eight-byte fields only. */
  lemma WordsLayout(op: IsaOp)
    requires OnlyWords(op)
    ensures Payload(op) == Words(Leading(op))
  {
    hide LE;
    var q := Leading(op);
    assert q[1..] == q[1..] && (|q| >= 2 ==> q[1..][1..] == q[2..]) && (|q| >= 3 ==> q[2..][1..] == q[3..]) && (|q| >= 4 ==> q[3..][1..] == q[4..]);
    WordsTail(q, |q|);
  }

  lemma WordsTail(q: seq<nat>, n: nat)
    requires n == |q| <= 4
    ensures n == 1 ==> Words(q) == LE(8, q[0])
    ensures n == 2 ==> Words(q) == LE(8, q[0]) + LE(8, q[1])
    ensures n == 3 ==> Words(q) == LE(8, q[0]) + (LE(8, q[1]) + LE(8, q[2]))
    ensures n == 4 ==> Words(q) == LE(8, q[0]) + (LE(8, q[1]) + (LE(8, q[2]) + LE(8, q[3])))
  {
    hide LE;
    if n > 0 { assert q[1..] == [] || Words(q[1..]) == LE(8, q[1]) + Words(q[2..]) by { assert n > 1 ==> q[1..][1..] == q[2..]; } }
    if n > 1 { assert q[2..] == [] || Words(q[2..]) == LE(8, q[2]) + Words(q[3..]) by { assert n > 2 ==> q[2..][1..] == q[3..]; } }
    if n > 2 { assert q[3..] == [] || Words(q[3..]) == LE(8, q[3]) + Words(q[4..]) by { assert n > 3 ==> q[3..][1..] == q[4..]; } }
    assert Words([]) == [];
  }

  lemma OneWord(a: nat, tail: Bytes)
    ensures LE(8, a) + tail == Words([a]) + tail
  {
    assert Words([a]) == LE(8, a) by { WordsTail([a], 1); }
  }

  function ModeNumber(m: ExecMode): Byte { if m == Eager then 0 else if m == Lazy then 1 else 2 }

  /** A value or a mode behind its node. */
  lemma NodeByteLayout(op: IsaOp)
    ensures op.SetValue? ==> Payload(op) == Words([op.node]) + [SignedByte(op.val)]
    ensures op.SetMode? ==> Payload(op) == Words([op.node]) + [ModeNumber(op.mode)]
  {
    if op.SetValue? {
      OneWord(op.node, [SignedByte(op.val)]);
      assert LE(1, SignedByte(op.val)) == [SignedByte(op.val)];
    } else if op.SetMode? {
      OneWord(op.node, [ModeNumber(op.mode)]);
    }
    hide Words;
  }

  function StrategyNumber(s: RewriteStrategy): Byte { if s.FullL3? then 0 else s.mask % 256 }
  function DomainNumber(d: StabilizationDomain): Byte { if d == LocalOnly then 0 else if d == Federated then 1 else 2 }
  function ConvergenceNumber(c: ConvergencePolicy): Byte { if c == Canonical then 0 else if c == Witness then 1 else 2 }
  function PriorityNumber(p: QueuePriority): Byte { if p == Normal then 0 else if p == High then 1 else 2 }

  /** A label, a configuration and a policy behind theirs. */
  lemma TableLayout(op: IsaOp)
    ensures op.SetEdgeLabel? ==> var l := op.edgeLabel;
      Payload(op) == Words(Leading(op)) + [l.capability % 256] + LE(8, l.causalScope.scopeBits)
    ensures op.SetStabilizationConfig? ==> var c := op.config;
      Payload(op) == Words([op.node]) + [StrategyNumber(c.strategy), DomainNumber(c.domain)] + LE(4, c.maxIterations) + [ConvergenceNumber(c.convergence)]
    ensures op.SetExecutionPolicy? ==>
      Payload(op) == Words([op.node]) + [PriorityNumber(op.policy.priority), if op.policy.retry.Fail? then 0 else 1]
  {
    match op {
      case SetEdgeLabel(_, _, _) => LabelLayout(op);
      case SetStabilizationConfig(_, _) => ConfigLayout(op);
      case SetExecutionPolicy(node, policy) =>
        OneWord(node, [PriorityNumber(policy.priority), if policy.retry.Fail? then 0 else 1]);
      case _ =>
    }
    hide Words;
  }

  lemma LabelLayout(op: IsaOp)
    requires op.SetEdgeLabel?
    ensures var l := op.edgeLabel; Payload(op) == Words(Leading(op)) + [l.capability % 256] + LE(8, l.causalScope.scopeBits)
  {
    var l := op.edgeLabel;
    WordsTail(Leading(op), 3);
    hide Words, LE;
    assert LE(1, l.capability % 256) == [l.capability % 256] by { OneByte(l.capability % 256); }
    assert LE(8, l.causalScope.scopeBits) + [] == LE(8, l.causalScope.scopeBits);
  }

  lemma OneByte(b: Byte)
    ensures LE(1, b) == [b]
  {}

  lemma ConfigLayout(op: IsaOp)
    requires op.SetStabilizationConfig?
    ensures var c := op.config;
      Payload(op) == Words([op.node]) + [StrategyNumber(c.strategy), DomainNumber(c.domain)] + LE(4, c.maxIterations) + [ConvergenceNumber(c.convergence)]
  {
    var c := op.config;
    OneByte(StrategyNumber(c.strategy));
    OneByte(DomainNumber(c.domain));
    OneByte(ConvergenceNumber(c.convergence));
    WordsTail([op.node], 1);
    hide Words, LE;
  }

  // ---- regions, edges and nodes

  lemma RegionLayout(op: IsaOp)
    requires op.Stabilize?
    ensures Payload(op) == (if op.region.None? then LE(4, 0) else LE(4, |op.region.value|) + Words(op.region.value))
  {
    if op.region.Some? {
      IdsAreWords(op.region.value, []);
      assert Words(op.region.value) + [] == Words(op.region.value);
    }
    hide Words, LE;
  }

  function BoundaryBytes(b: RegionBoundary): Bytes {
    match b
    case DepClosure(depth) => [0] + LE(4, depth)
    case ExplicitSet(ids) => [1] + LE(4, |ids|) + Words(ids)
    case PartitionScoped(pid) => [2] + LE(8, pid)
  }

  function StabilityNumber(s: StabilityContract): Byte { if s == Pinned then 0 else 1 }
  function CompileNumber(c: CompilePolicy): Byte { if c == CompileEager then 0 else if c == CompileLazy then 1 else 2 }

  lemma Regroup(a: Bytes, b: Bytes, c: Bytes)
    ensures (a + b) + c == a + (b + c)
  {}

  lemma BoundaryLayout(b: RegionBoundary, rest: Bytes)
    ensures PutBoundary(b, rest) == BoundaryBytes(b) + rest
  {
    hide LE, Words, PutIds;
    match b {
      case DepClosure(depth) =>
        OneByte(0);
        Regroup([0], LE(4, depth), rest);
      case ExplicitSet(ids) =>
        OneByte(1);
        IdsAreWords(ids, rest);
        Regroup([1] + LE(4, |ids|), Words(ids), rest);
        Regroup([1], LE(4, |ids|), Words(ids) + rest);
      case PartitionScoped(pid) =>
        OneByte(2);
        Regroup([2], LE(8, pid), rest);
    }
  }

  lemma ContractLayout(boundary: RegionBoundary, stability: StabilityContract, compile: CompilePolicy)
    ensures PutDeclare(boundary, stability, compile, []) == PutBoundary(boundary, [StabilityNumber(stability), CompileNumber(compile)])
  {
    OneByte(StabilityNumber(stability));
    OneByte(CompileNumber(compile));
    assert LE(1, StabilityNumber(stability)) + (LE(1, CompileNumber(compile)) + []) == [StabilityNumber(stability), CompileNumber(compile)];
    hide LE, PutBoundary;
  }

  /** A declared region: the root, the boundary under its tag, the contract and the compile policy. */
  lemma DeclareLayout(op: IsaOp)
    requires op.RegionDeclare?
    ensures Payload(op) == Words([op.root]) + BoundaryBytes(op.boundary) + [StabilityNumber(op.stability), CompileNumber(op.compile)]
  {
    WordsTail([op.root], 1);
    ContractLayout(op.boundary, op.stability, op.compile);
    BoundaryLayout(op.boundary, [StabilityNumber(op.stability), CompileNumber(op.compile)]);
    hide LE, Words, PutBoundary, PutDeclare, BoundaryBytes, StabilityNumber, CompileNumber;
  }

  function PortNumber(k: PortKind): Byte { if k == Signal then 0 else if k == Effort then 1 else if k == Flow then 2 else 3 }

  /** A local edge: its identifiers, a zero tag, the kind of its port and the port's name; no port is an unnamed signal. */
  lemma EdgeLayout(op: IsaOp)
    requires op.EdgeConnect? && op.dep.Local?
    ensures var name := if op.dep.port.Some? then op.dep.port.value.name else [];
      Payload(op) == Words([op.id, op.src, op.tgt])
        + [0, if op.dep.port.Some? then PortNumber(op.dep.port.value.kind) else 0] + LE(2, |name|) + name
  {
    var kind: Byte := if op.dep.port.Some? then PortNumber(op.dep.port.value.kind) else 0;
    var name := if op.dep.port.Some? then op.dep.port.value.name else [];
    PortLayout(op.dep);
    WordsTail([op.id, op.src, op.tgt], 3);
    hide LE, Words, PutDep, PortNumber;
    var w, tail := Words([op.id, op.src, op.tgt]), [0, kind] + LE(2, |name|) + name;
    Regroup(LE(8, op.id), LE(8, op.src) + LE(8, op.tgt), tail);
    Regroup(LE(8, op.src), LE(8, op.tgt), tail);
    Regroup(w, [0, kind] + LE(2, |name|), name);
    Regroup(w, [0, kind], LE(2, |name|));
  }

  lemma PortLayout(dep: DepKind)
    requires dep.Local?
    ensures var name := if dep.port.Some? then dep.port.value.name else [];
      PutDep(dep, []) == [0, if dep.port.Some? then PortNumber(dep.port.value.kind) else 0] + LE(2, |name|) + name
  {
    var kind: Byte := if dep.port.Some? then PortNumber(dep.port.value.kind) else 0;
    var name := if dep.port.Some? then dep.port.value.name else [];
    OneByte(0);
    OneByte(kind);
    assert name + [] == name;
    Regroup([0], [kind], LE(2, |name|) + name);
    assert [0] + [kind] == [0, kind];
    Regroup([0, kind], LE(2, |name|), name);
    hide LE;
  }

  /** A node: its identifier, its type, its rule and its attributes. */
  lemma NodeLayout(op: IsaOp)
    requires op.NodeCreate?
    ensures Payload(op) == Words([op.id]) + LE(2, |op.typ|) + op.typ + [RuleByte(op.kind)] + PutAttrs(op.attrs, [])
  {
    WordsTail([op.id], 1);
    OneByte(RuleByte(op.kind));
    hide LE, Words, PutAttrs, RuleByte;
  }
}
