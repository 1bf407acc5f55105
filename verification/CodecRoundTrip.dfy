/** Printing an operation and parsing it back: an explicit normal form, reached in one round. */
module CodecRoundTrip {
  import opened Base
  import opened Ternary
  import opened Rules
  import opened Isa
  import opened WireBytes
  import opened WireFormat

  // ---- the normal form -----------------------------------------------------------------

  function Low64(x: int): nat { x % U64 }

  /** The two's complement value of the low 64 bits. */
  function Wrap64(i: int): int { Signed64(i % U64) }

  function NormalVal(v: Val): Val {
    match v
    case IntVal(i) => IntVal(Wrap64(i))
    case FloatVal(bits) => FloatVal(CanonicalFloat(bits % U64))
    case TernaryVal(_) => v
    case TextVal(_) => v
    case BoolVal(_) => v
  }

  function NormalAttrs(attrs: Attrs): Attrs { map k | k in attrs :: NormalVal(attrs[k]) }

  function LowAll(ids: seq<Uid>): seq<Uid> { seq(|ids|, i requires 0 <= i < |ids| => Low64(ids[i])) }

  /** p is the largest partition in the clock with the low half c. */
  predicate Speaks(p: PartitionId, c: nat, clocks: map<PartitionId, nat>) {
    p in clocks && Low64(p) == c && forall q :: q in clocks && Low64(q) == c ==> q <= p
  }

  /** The clock set entry by entry in the listed order. */
  function SetClocks(clocks: map<PartitionId, nat>, pids: seq<PartitionId>, from: map<PartitionId, nat>): map<PartitionId, nat>
    requires forall p :: p in pids ==> p in from
    decreases |pids|
  {
    if pids == [] then clocks else SetClocks(clocks[Low64(pids[0]) := Low64(from[pids[0]])], pids[1..], from)
  }

  function NormalFrontier(clocks: map<PartitionId, nat>): map<PartitionId, nat> {
    AscendingElements(clocks.Keys);
    SetClocks(map[], Ascending(clocks.Keys), clocks)
  }

  function NormalDep(dep: DepKind): DepKind {
    match dep
    case Local(None) => Local(None)
    case Local(Some(port)) => if port.name == [] then Local(None) else dep
    case Remote(r) =>
      Remote(RemoteDep(Low64(r.sourcePartition), Low64(r.sourceUid), Low64(r.sourceVersion), r.portKind,
                       NormalFrontier(r.causalFrontier), r.payloadKind, Low64(r.sourceAuthority), Low64(r.emittedClass),
                       r.capability % 256, CausalScope(Low64(r.causalScope.scopeBits), NIL)))
  }

  function NormalConfig(c: StabilizationConfig): StabilizationConfig {
    c.(strategy := match c.strategy
                   case FullL3 => FullL3
                   case Restricted(v) => if v % 256 == 0 then FullL3 else Restricted(v % 256),
       maxIterations := c.maxIterations % U32)
  }

  function NormalPolicy(p: ExecutionPolicy): ExecutionPolicy { if p.retry.Retry? then p.(retry := Retry(3)) else p }

  function NormalBoundary(b: RegionBoundary): RegionBoundary {
    match b
    case DepClosure(maxDepth) => DepClosure(maxDepth % U32)
    case ExplicitSet(ids) => ExplicitSet(LowAll(ids))
    case PartitionScoped(pid) => PartitionScoped(Low64(pid))
  }

  function NormalRegion(region: Option<seq<Uid>>): Option<seq<Uid>> {
    if region.Some? && region.value != [] then Some(LowAll(region.value)) else None
  }

  /** What survives the wire: identifiers and scalars at their width, edge types and scope roots
      replaced by constants, empty port names and empty seed lists as absent. */
  function NormalForm(op: IsaOp): IsaOp {
    match op
    case NodeCreate(id, typ, kind, attrs) => NodeCreate(Low64(id), typ, kind, NormalAttrs(attrs))
    case EdgeConnect(id, _, src, tgt, dep) => EdgeConnect(Low64(id), DEP_TYPE, Low64(src), Low64(tgt), NormalDep(dep))
    case SetValue(node, v) => SetValue(Low64(node), v)
    case Propagate(node) => Propagate(Low64(node))
    case Subscribe(source, subscriber) => Subscribe(Low64(source), Low64(subscriber))
    case DelNode(id) => DelNode(Low64(id))
    case DelEdge(id) => DelEdge(Low64(id))
    case Demand(node) => Demand(Low64(node))
    case SetMode(node, mode) => SetMode(Low64(node), mode)
    case Reflect(node) => Reflect(Low64(node))
    case Stabilize(region) => Stabilize(NormalRegion(region))
    case PartitionCreate(pid, root, lattice, domain) =>
      PartitionCreate(Low64(pid), Low64(root), Low64(lattice), CausalScope(Low64(domain.scopeBits), Low64(pid)))
    case PartitionBind(node, partition) => PartitionBind(Low64(node), Low64(partition))
    case SetPartitionAuthority(partition, lattice, domain) =>
      SetPartitionAuthority(Low64(partition), Low64(lattice), CausalScope(Low64(domain.scopeBits), NIL))
    case SetEdgeLabel(source, target, edgeLabel) =>
      SetEdgeLabel(Low64(source), Low64(target),
                   EdgeLabel(edgeLabel.capability % 256, Low64(edgeLabel.latticeClass), WILDCARD,
                             CausalScope(Low64(edgeLabel.causalScope.scopeBits), NIL)))
    case SetStabilizationConfig(node, config) => SetStabilizationConfig(Low64(node), NormalConfig(config))
    case SetExecutionPolicy(node, policy) => SetExecutionPolicy(Low64(node), NormalPolicy(policy))
    case RegionDeclare(root, boundary, stability, compile) =>
      RegionDeclare(Low64(root), NormalBoundary(boundary), stability, compile)
  }

  // ---- what the length prefixes can hold -------------------------------------------------

  /** A string that its two-byte length prefix can count. */
  predicate TextFits(s: Text) { |s| < U16 && Utf8(s) }

  predicate ValFits(v: Val) { v.TextVal? ==> TextFits(v.s) }

  predicate AttrsFit(attrs: Attrs) { |attrs| < U16 && forall k :: k in attrs ==> TextFits(k) && ValFits(attrs[k]) }

  predicate DepFits(dep: DepKind) {
    match dep
    case Local(port) => port.Some? ==> TextFits(port.value.name)
    case Remote(r) => |r.causalFrontier| < U16
  }

  predicate Fits(op: IsaOp) {
    && (op.NodeCreate? ==> TextFits(op.typ) && AttrsFit(op.attrs))
    && (op.EdgeConnect? ==> DepFits(op.dep))
    && (op.Stabilize? && op.region.Some? ==> |op.region.value| < U32)
    && (op.RegionDeclare? && op.boundary.ExplicitSet? ==> |op.boundary.ids| < U32)
  }

  // ---- primitives ---------------------------------------------------------------------------

  lemma U8Back(x: Byte, rest: Bytes)
    ensures TakeU8(PutU8(x, rest)) == Ok((x, rest))
  {
    assert ([x] + rest)[1..] == rest;
  }

  lemma LEBack(n: nat, x: int, rest: Bytes)
    ensures TakeLE(n, LE(n, x) + rest) == Ok((x % Pow256(n), rest))
  {
    var b := LE(n, x);
    assert (b + rest)[..n] == b && (b + rest)[n..] == rest;
    ReadBack(n, x);
  }

  lemma U16Back(x: int, rest: Bytes)
    ensures TakeU16(PutU16(x, rest)) == Ok((x % U16, rest))
  {
    LEBack(2, x, rest);
    Widths();
  }

  lemma U32Back(x: int, rest: Bytes)
    ensures TakeU32(PutU32(x, rest)) == Ok((x % U32, rest))
  {
    LEBack(4, x, rest);
    Widths();
  }

  lemma U64Back(x: int, rest: Bytes)
    ensures TakeU64(PutU64(x, rest)) == Ok((Low64(x), rest))
  {
    LEBack(8, x, rest);
    Widths();
  }

  lemma StrBack(s: Text, rest: Bytes)
    requires TextFits(s)
    ensures TakeStr(PutStr(s, rest)) == Ok((s, rest))
  {
    U16Back(|s|, s + rest);
    assert (s + rest)[..|s|] == s && (s + rest)[|s|..] == rest;
  }

  lemma TBack(t: T, rest: Bytes)
    ensures TakeT(PutT(t, rest)) == Ok((t, rest))
  {
    U8Back(match t case Neg => 0xFF case Zero => 0 case Pos => 1, rest);
  }

  // ---- attributes ------------------------------------------------------------------------------

  lemma ValBack(v: Val, rest: Bytes)
    requires ValFits(v)
    ensures TakeU8(PutVal(v, rest)).Ok?
    ensures var tag := TakeU8(PutVal(v, rest)).value; TakeVal(tag.0, tag.1) == Ok((NormalVal(v), rest))
  {
    hide TakeU8, PutU8, TakeU64, PutU64, TakeStr, PutStr, TakeT, PutT, CanonicalFloat, TextFits;
    match v {
      case BoolVal(b) =>
        U8Back(0x01, PutU8(if b then 1 else 0, rest));
        U8Back(if b then 1 else 0, rest);
      case IntVal(i) =>
        U8Back(0x02, PutU64(i, rest));
        U64Back(i, rest);
      case FloatVal(bits) =>
        var c := CanonicalFloat(bits % U64);
        U8Back(0x03, PutU64(c, rest));
        U64Back(c, rest);
        CanonicalTwice(bits % U64);
      case TextVal(s) =>
        U8Back(0x04, PutStr(s, rest));
        StrBack(s, rest);
      case TernaryVal(t) =>
        U8Back(0x06, PutT(t, rest));
        TBack(t, rest);
    }
  }

  lemma EntryBack(key: Text, v: Val, rest: Bytes)
    requires TextFits(key) && ValFits(v)
    ensures TakeEntry(PutEntry(key, v, rest)) == Ok(((key, NormalVal(v)), rest))
  {
    StrBack(key, PutVal(v, rest));
    ValBack(v, rest);
    hide TakeU8, TakeVal, TakeStr, PutVal, PutStr;
  }

  /** The map with the listed keys set to their normal values. */
  function Overlay(base: Attrs, keys: seq<Text>, attrs: Attrs): Attrs
    requires forall k :: k in keys ==> k in attrs
  {
    map k | k in base.Keys + Elements(keys) :: if k in keys then NormalVal(attrs[k]) else base[k]
  }

  lemma OverlayNext(base: Attrs, keys: seq<Text>, attrs: Attrs)
    requires keys != [] && forall k :: k in keys ==> k in attrs
    ensures Overlay(base[keys[0] := NormalVal(attrs[keys[0]])], keys[1..], attrs) == Overlay(base, keys, attrs)
  {
    assert forall k :: k in keys <==> k == keys[0] || k in keys[1..];
  }

  lemma {:induction false} EntriesBack(keys: seq<Text>, attrs: Attrs, rest: Bytes, base: Attrs)
    requires AttrsFit(attrs) && forall k :: k in keys ==> k in attrs
    ensures TakeEntries(|keys|, PutEntries(keys, attrs, rest), base) == Ok((Overlay(base, keys, attrs), rest))
    decreases |keys|
  {
    if keys == [] {
      assert Overlay(base, [], attrs) == base;
    } else {
      EntryBack(keys[0], attrs[keys[0]], PutEntries(keys[1..], attrs, rest));
      EntriesBack(keys[1..], attrs, rest, base[keys[0] := NormalVal(attrs[keys[0]])]);
      OverlayNext(base, keys, attrs);
      hide TakeEntry, PutEntry, Overlay;
    }
  }

  lemma CountedEntriesBack(keys: seq<Text>, attrs: Attrs, rest: Bytes)
    requires AttrsFit(attrs) && |keys| == |attrs| && forall k :: k in keys <==> k in attrs
    ensures TakeAttrs(PutU16(|attrs|, PutEntries(keys, attrs, rest))) == Ok((NormalAttrs(attrs), rest))
  {
    assert |attrs| % U16 == |attrs|;
    hide AttrsFit, TakeEntries, PutEntries, TakeU16, PutU16, NormalAttrs, Overlay;
    var b := PutEntries(keys, attrs, rest);
    U16Back(|attrs|, b);
    EntriesBack(keys, attrs, rest, map[]);
    OverlayAll(keys, attrs);
    TakeCounted(PutU16(|attrs|, b), |attrs|, b);
  }

  lemma TakeCounted(b: Bytes, n: nat, after: Bytes)
    requires TakeU16(b) == Ok((n, after))
    ensures TakeAttrs(b) == TakeEntries(n, after, map[])
  {}

  lemma AttrsBack(attrs: Attrs, rest: Bytes)
    requires AttrsFit(attrs)
    ensures TakeAttrs(PutAttrs(attrs, rest)) == Ok((NormalAttrs(attrs), rest))
  {
    hide TakeAttrs, PutEntries, PutU16, AttrsFit, NormalAttrs, Sorted;
    SortedElements(attrs.Keys);
    CountedEntriesBack(Sorted(attrs.Keys), attrs, rest);
  }

  lemma OverlayAll(keys: seq<Text>, attrs: Attrs)
    requires forall k :: k in keys <==> k in attrs
    ensures Overlay(map[], keys, attrs) == NormalAttrs(attrs)
  {
    hide NormalVal;
  }

  // ---- lists of identifiers and the frontier ------------------------------------------------------

  lemma {:induction false} IdsBack(ids: seq<Uid>, rest: Bytes, done: seq<Uid>)
    ensures TakeIds(|ids|, PutIds(ids, rest), done) == Ok((done + LowAll(ids), rest))
    decreases |ids|
  {
    if ids == [] {
      assert done + LowAll([]) == done;
    } else {
      U64Back(ids[0], PutIds(ids[1..], rest));
      IdsBack(ids[1..], rest, done + [Low64(ids[0])]);
      assert done + [Low64(ids[0])] + LowAll(ids[1..]) == done + LowAll(ids);
    }
  }

  lemma {:induction false} ClocksBack(pids: seq<PartitionId>, from: map<PartitionId, nat>, rest: Bytes, done: map<PartitionId, nat>)
    requires forall p :: p in pids ==> p in from
    ensures TakeClocks(|pids|, PutClocks(pids, from, rest), done) == Ok((SetClocks(done, pids, from), rest))
    decreases |pids|
  {
    if pids != [] {
      var after := PutClocks(pids[1..], from, rest);
      U64Back(pids[0], PutU64(from[pids[0]], after));
      U64Back(from[pids[0]], after);
      ClocksBack(pids[1..], from, rest, done[Low64(pids[0]) := Low64(from[pids[0]])]);
    }
  }

  lemma CountedClocksBack(pids: seq<PartitionId>, frontier: map<PartitionId, nat>, rest: Bytes)
    requires |pids| == |frontier| < U16 && forall p :: p in pids ==> p in frontier
    ensures TakeFrontier(PutU16(|frontier|, PutClocks(pids, frontier, rest))) == Ok((SetClocks(map[], pids, frontier), rest))
  {
    U16Back(|frontier|, PutClocks(pids, frontier, rest));
    ClocksBack(pids, frontier, rest, map[]);
    hide TakeClocks, PutClocks, TakeU16, PutU16;
  }

  lemma FrontierBack(frontier: map<PartitionId, nat>, rest: Bytes)
    requires |frontier| < U16
    ensures TakeFrontier(PutFrontier(frontier, rest)) == Ok((NormalFrontier(frontier), rest))
  {
    hide TakeFrontier, PutClocks, PutU16, SetClocks, Ascending;
    AscendingElements(frontier.Keys);
    CountedClocksBack(Ascending(frontier.Keys), frontier, rest);
  }

  // ---- operands ---------------------------------------------------------------------------------------

  lemma PayloadKindBack(k: PayloadKind, rest: Bytes)
    ensures TakePayloadKind(PutPayloadKind(k, rest)) == Ok((k, rest))
  {
    match k {
      case Definite => U8Back(0x00, rest);
      case TypedZero(z) =>
        U8Back(0x01, PutU8(ZeroByte(z), rest));
        U8Back(ZeroByte(z), rest);
    }
  }

  lemma RemoteBack(r: RemoteDep, rest: Bytes)
    requires |r.causalFrontier| < U16
    ensures TakeRemote(r.portKind, PutRemote(r, rest)) == Ok((NormalDep(Remote(r)).dep, rest))
  {
    var b8 := PutU64(r.causalScope.scopeBits, rest);
    var b7 := PutU8(r.capability % 256, b8);
    var b6 := PutU64(r.emittedClass, b7);
    var b5 := PutU64(r.sourceAuthority, b6);
    var b4 := PutFrontier(r.causalFrontier, b5);
    var b3 := PutPayloadKind(r.payloadKind, b4);
    var b2 := PutU64(r.sourceVersion, b3);
    var b1 := PutU64(r.sourceUid, b2);
    U64Back(r.sourcePartition, b1);
    U64Back(r.sourceUid, b2);
    U64Back(r.sourceVersion, b3);
    PayloadKindBack(r.payloadKind, b4);
    FrontierBack(r.causalFrontier, b5);
    U64Back(r.sourceAuthority, b6);
    U64Back(r.emittedClass, b7);
    U8Back(r.capability % 256, b8);
    U64Back(r.causalScope.scopeBits, rest);
    hide TakeU64, PutU64, TakeU8, PutU8, TakeFrontier, PutFrontier, TakePayloadKind, PutPayloadKind, NormalFrontier, Low64;
  }

  lemma DepBack(d: DepKind, rest: Bytes)
    requires DepFits(d)
    ensures TakeDep(PutDep(d, rest)) == Ok((NormalDep(d), rest))
  {
    assert TextFits([]);
    hide TakeU8, PutU8, TakeStr, PutStr, TakeRemote, PutRemote, NormalFrontier, Utf8, Low64;
    match d {
      case Local(None) =>
        U8Back(0x00, PutU8(0x00, PutStr([], rest)));
        U8Back(0x00, PutStr([], rest));
        StrBack([], rest);
      case Local(Some(port)) =>
        U8Back(0x00, PutU8(PortByte(port.kind), PutStr(port.name, rest)));
        U8Back(PortByte(port.kind), PutStr(port.name, rest));
        StrBack(port.name, rest);
      case Remote(r) => RemoteDepBack(r, rest);
    }
  }

  /** The parser of a dependency, once its three framing fields are known. */
  lemma TakeDepRemote(b: Bytes, b1: Bytes, b2: Bytes, b3: Bytes, port: Byte, kind: PortKind, out: RemoteDep, rest: Bytes)
    requires TakeU8(b) == Ok((0x01, b1)) && TakeU8(b1) == Ok((port, b2)) && TakeStr(b2) == Ok(([], b3))
    requires PortOf(port) == Ok(kind) && TakeRemote(kind, b3) == Ok((out, rest))
    ensures TakeDep(b) == Ok((Remote(out), rest))
  {
    hide TakeU8, TakeStr, TakeRemote, PortOf;
  }

  lemma RemoteDepBack(r: RemoteDep, rest: Bytes)
    requires |r.causalFrontier| < U16
    ensures TakeDep(PutDep(Remote(r), rest)) == Ok((NormalDep(Remote(r)), rest))
  {
    assert TextFits([]) && PortOf(PortByte(r.portKind)) == Ok(r.portKind);
    var port, b3 := PortByte(r.portKind), PutRemote(r, rest);
    var b2 := PutStr([], b3);
    U8Back(0x01, PutU8(port, b2));
    U8Back(port, b2);
    StrBack([], b3);
    RemoteBack(r, rest);
    hide TakeU8, PutU8, TakeStr, PutStr, TakeRemote, PutRemote, NormalFrontier, TakeDep, PortOf, PortByte, TextFits, Low64;
    TakeDepRemote(PutDep(Remote(r), rest), PutU8(port, b2), b2, b3, port, r.portKind, NormalDep(Remote(r)).dep, rest);
  }

  lemma ConfigBack(c: StabilizationConfig, rest: Bytes)
    ensures TakeConfig(PutConfig(c, rest)) == Ok((NormalConfig(c), rest))
  {
    var b0: Byte := match c.strategy case FullL3 => 0x00 case Restricted(v) => v % 256;
    var b1: Byte := match c.domain case LocalOnly => 0x00 case Federated => 0x01 case Inherit => 0x02;
    var b2: Byte := match c.convergence case Canonical => 0x00 case Witness => 0x01 case BudgetExhausted => 0x02;
    U8Back(b0, PutU8(b1, PutU32(c.maxIterations, PutU8(b2, rest))));
    U8Back(b1, PutU32(c.maxIterations, PutU8(b2, rest)));
    U32Back(c.maxIterations, PutU8(b2, rest));
    U8Back(b2, rest);
    hide TakeU8, PutU8, TakeU32, PutU32;
  }

  lemma PolicyBack(p: ExecutionPolicy, rest: Bytes)
    ensures TakePolicy(PutPolicy(p, rest)) == Ok((NormalPolicy(p), rest))
  {
    var b0: Byte := match p.priority case Normal => 0x00 case High => 0x01 case Low => 0x02;
    var b1: Byte := match p.retry case Fail => 0x00 case Retry(_) => 0x01;
    U8Back(b0, PutU8(b1, rest));
    U8Back(b1, rest);
  }

  lemma BoundaryBack(b: RegionBoundary, rest: Bytes)
    requires b.ExplicitSet? ==> |b.ids| < U32
    ensures TakeBoundary(PutBoundary(b, rest)) == Ok((NormalBoundary(b), rest))
  {
    match b {
      case DepClosure(maxDepth) =>
        U8Back(0x00, PutU32(maxDepth, rest));
        U32Back(maxDepth, rest);
      case ExplicitSet(ids) =>
        U8Back(0x01, PutU32(|ids|, PutIds(ids, rest)));
        U32Back(|ids|, PutIds(ids, rest));
        IdsBack(ids, rest, []);
        assert [] + LowAll(ids) == LowAll(ids);
      case PartitionScoped(pid) =>
        U8Back(0x02, PutU64(pid, rest));
        U64Back(pid, rest);
    }
    hide TakeU8, PutU8, TakeU32, PutU32, TakeU64, PutU64, TakeIds, PutIds;
  }

  lemma RegionBack(region: Option<seq<Uid>>, rest: Bytes)
    requires region.Some? ==> |region.value| < U32
    ensures TakeRegion(PutRegion(region, rest)) == Ok((NormalRegion(region), rest))
  {
    hide TakeU32, PutU32, PutIds, LowAll;
    match region {
      case None => U32Back(0, rest);
      case Some(ids) =>
        U32Back(|ids|, PutIds(ids, rest));
        IdsBack(ids, rest, []);
        assert [] + LowAll(ids) == LowAll(ids);
        if ids == [] { assert PutIds(ids, rest) == rest by { NoIds(rest); } }
    }
  }

  lemma NoIds(rest: Bytes)
    ensures PutIds([], rest) == rest
  {}

  lemma DeclareBack(root: Uid, boundary: RegionBoundary, stability: StabilityContract, compile: CompilePolicy, rest: Bytes)
    requires boundary.ExplicitSet? ==> |boundary.ids| < U32
    ensures var op := RegionDeclare(root, boundary, stability, compile);
      TakeRegionDeclare(PutPayload(op, rest)) == Ok((NormalForm(op), rest))
  {
    hide TakeU8, PutU8, TakeU64, PutU64, TakeBoundary, PutBoundary, NormalBoundary, Low64;
    var s: Byte := match stability case Pinned => 0x00 case EpochTracked => 0x01;
    var c: Byte := match compile case CompileEager => 0x00 case CompileLazy => 0x01 case CompileNever => 0x02;
    U64Back(root, PutDeclare(boundary, stability, compile, rest));
    BoundaryBack(boundary, PutU8(s, PutU8(c, rest)));
    U8Back(s, PutU8(c, rest));
    U8Back(c, rest);
  }

  lemma NodeCreateBack(id: Uid, typ: Text, kind: NodeKind, attrs: Attrs, rest: Bytes)
    requires TextFits(typ) && AttrsFit(attrs)
    ensures var op := NodeCreate(id, typ, kind, attrs); TakeNodeCreate(PutPayload(op, rest)) == Ok((NormalForm(op), rest))
  {
    var b := PutU8(RuleByte(kind), PutAttrs(attrs, rest));
    U64Back(id, PutStr(typ, b));
    StrBack(typ, b);
    U8Back(RuleByte(kind), PutAttrs(attrs, rest));
    AttrsBack(attrs, rest);
    assert KindOf(RuleByte(kind)) == Ok(kind);
    hide TakeU8, PutU8, TakeU64, PutU64, TakeStr, PutStr, TakeAttrs, PutAttrs, NormalAttrs, KindOf, RuleByte;
  }

  /** The operations whose operands are identifiers, scalars and one-byte codes only. */
  lemma ScalarsBack(op: IsaOp, rest: Bytes)
    requires !op.NodeCreate? && !op.EdgeConnect? && !op.Stabilize? && !op.RegionDeclare?
    ensures TakeOp(OpcodeFor(op), PutPayload(op, rest)) == Ok((NormalForm(op), rest))
  {
    hide TakeU8, PutU8, TakeU64, PutU64, TakeT, PutT, TakeConfig, PutConfig, TakePolicy, PutPolicy, NormalConfig, NormalPolicy, Low64;
    match op {
      case SetValue(node, v) =>
        U64Back(node, PutT(v, rest));
        TBack(v, rest);
      case Propagate(node) => U64Back(node, rest);
      case Subscribe(source, subscriber) =>
        U64Back(source, PutU64(subscriber, rest));
        U64Back(subscriber, rest);
      case DelNode(id) => U64Back(id, rest);
      case DelEdge(id) => U64Back(id, rest);
      case Demand(node) => U64Back(node, rest);
      case SetMode(node, mode) =>
        U64Back(node, PutU8(ModeByte(mode), rest));
        U8Back(ModeByte(mode), rest);
      case Reflect(node) => U64Back(node, rest);
      case PartitionCreate(pid, root, lattice, domain) =>
        var b2 := PutU64(lattice, PutU64(domain.scopeBits, rest));
        U64Back(pid, PutU64(root, b2));
        U64Back(root, b2);
        U64Back(lattice, PutU64(domain.scopeBits, rest));
        U64Back(domain.scopeBits, rest);
      case PartitionBind(node, partition) =>
        U64Back(node, PutU64(partition, rest));
        U64Back(partition, rest);
      case SetPartitionAuthority(partition, lattice, domain) =>
        U64Back(partition, PutU64(lattice, PutU64(domain.scopeBits, rest)));
        U64Back(lattice, PutU64(domain.scopeBits, rest));
        U64Back(domain.scopeBits, rest);
      case SetEdgeLabel(source, target, edgeLabel) =>
        var b4 := PutU64(edgeLabel.causalScope.scopeBits, rest);
        var b3 := PutU8(edgeLabel.capability % 256, b4);
        var b2 := PutU64(edgeLabel.latticeClass, b3);
        U64Back(source, PutU64(target, b2));
        U64Back(target, b2);
        U64Back(edgeLabel.latticeClass, b3);
        U8Back(edgeLabel.capability % 256, b4);
        U64Back(edgeLabel.causalScope.scopeBits, rest);
      case SetStabilizationConfig(node, config) =>
        U64Back(node, PutConfig(config, rest));
        ConfigBack(config, rest);
      case SetExecutionPolicy(node, policy) =>
        U64Back(node, PutPolicy(policy, rest));
        PolicyBack(policy, rest);
    }
  }

  // ---- the round trips ---------------------------------------------------------------------------------

  lemma EdgeConnectBack(id: Uid, typ: Text, src: Uid, tgt: Uid, d: DepKind, rest: Bytes)
    requires DepFits(d)
    ensures var op := EdgeConnect(id, typ, src, tgt, d); TakeEdgeConnect(PutPayload(op, rest)) == Ok((NormalForm(op), rest))
  {
    hide TakeU64, PutU64, TakeDep, PutDep, NormalDep, DepFits, Low64;
    U64Back(id, PutU64(src, PutU64(tgt, PutDep(d, rest))));
    U64Back(src, PutU64(tgt, PutDep(d, rest)));
    U64Back(tgt, PutDep(d, rest));
    DepBack(d, rest);
  }

  lemma StabilizeBack(region: Option<seq<Uid>>, rest: Bytes)
    requires region.Some? ==> |region.value| < U32
    ensures TakeOp(0x000B, PutPayload(Stabilize(region), rest)) == Ok((NormalForm(Stabilize(region)), rest))
  {
    RegionBack(region, rest);
    hide TakeRegion, PutRegion, NormalRegion;
  }

  /** Whatever follows the payload, parsing under the operation's opcode yields its normal form and
      leaves exactly what follows. */
  lemma OpBack(op: IsaOp, rest: Bytes)
    requires Fits(op)
    ensures TakeOp(OpcodeFor(op), PutPayload(op, rest)) == Ok((NormalForm(op), rest))
  {
    if op.NodeCreate? {
      NodeCreateBack(op.id, op.typ, op.kind, op.attrs, rest);
      hide TakeNodeCreate, PutPayload, NormalForm;
    } else if op.EdgeConnect? {
      EdgeConnectBack(op.id, op.typ, op.src, op.tgt, op.dep, rest);
      hide TakeEdgeConnect, PutPayload, NormalForm;
    } else if op.Stabilize? {
      StabilizeBack(op.region, rest);
      hide TakeOp, PutPayload, NormalForm;
    } else if op.RegionDeclare? {
      DeclareBack(op.root, op.boundary, op.stability, op.compile, rest);
      hide TakeRegionDeclare, PutPayload, NormalForm;
    } else {
      ScalarsBack(op, rest);
      hide TakeOp, PutPayload, NormalForm;
    }
  }

  lemma RoundTrip(op: IsaOp)
    requires Fits(op)
    ensures ParsePayload(OpcodeFor(op), Payload(op)) == Ok(NormalForm(op))
  {
    OpBack(op, []);
  }

  // ---- the frontier ---------------------------------------------------------------------------------------

  predicate Rising(pids: seq<PartitionId>) { forall i, j :: 0 <= i < j < |pids| ==> pids[i] < pids[j] }

  /** p is the last listed partition with the low half c. */
  predicate LastWith(p: PartitionId, c: nat, pids: seq<PartitionId>) {
    p in pids && Low64(p) == c && forall q :: q in pids && Low64(q) == c ==> q <= p
  }

  predicate Listed(c: nat, pids: seq<PartitionId>) { exists p :: p in pids && Low64(p) == c }

  lemma {:induction false} SetClocksAt(clocks: map<PartitionId, nat>, pids: seq<PartitionId>, from: map<PartitionId, nat>, c: nat)
    requires Rising(pids) && forall p :: p in pids ==> p in from
    ensures var out := SetClocks(clocks, pids, from);
      && (c in out <==> c in clocks || Listed(c, pids))
      && (forall p :: LastWith(p, c, pids) ==> c in out && out[c] == Low64(from[p]))
      && (!Listed(c, pids) && c in clocks ==> out[c] == clocks[c])
    decreases |pids|
  {
    if pids != [] {
      var first, tail := pids[0], pids[1..];
      var clocks' := clocks[Low64(first) := Low64(from[first])];
      SetClocksAt(clocks', tail, from, c);
      assert forall q :: q in pids <==> q == first || q in tail;
      assert Listed(c, pids) <==> Low64(first) == c || Listed(c, tail);
      forall p | LastWith(p, c, pids) ensures p in tail ==> LastWith(p, c, tail)
        ensures p !in tail ==> p == first && !Listed(c, tail)
      {}
    }
  }

  /** The parsed frontier: one entry for each low half, with the clock of the largest partition that
      has it. */
  lemma FrontierMeaning(clocks: map<PartitionId, nat>, c: nat)
    ensures var out := NormalFrontier(clocks);
      && (c in out <==> exists p :: p in clocks && Low64(p) == c)
      && (forall p :: Speaks(p, c, clocks) ==> c in out && out[c] == Low64(clocks[p]))
  {
    AscendingElements(clocks.Keys);
    AscendingSorted(clocks.Keys);
    var pids := Ascending(clocks.Keys);
    SetClocksAt(map[], pids, clocks, c);
    assert forall p :: p in pids <==> p in clocks;
    forall p | Speaks(p, c, clocks) ensures LastWith(p, c, pids) {}
  }

  predicate WireClocks(clocks: map<PartitionId, nat>) { forall p :: p in clocks ==> p < U64 && clocks[p] < U64 }

  lemma LowSpeaks(clocks: map<PartitionId, nat>, c: nat)
    requires WireClocks(clocks)
    ensures (exists p :: p in clocks && Low64(p) == c) <==> c in clocks
    ensures c in clocks ==> Speaks(c, c, clocks) && Low64(clocks[c]) == clocks[c]
  {
    assert forall p :: p in clocks ==> Low64(p) == p;
  }

  lemma WireClocksNormal(clocks: map<PartitionId, nat>)
    requires WireClocks(clocks)
    ensures NormalFrontier(clocks) == clocks
  {
    var out := NormalFrontier(clocks);
    hide *;
    forall c: nat ensures (c in out <==> c in clocks) && (c in clocks ==> out[c] == clocks[c]) {
      FrontierMeaning(clocks, c);
      LowSpeaks(clocks, c);
    }
    assert out.Keys == clocks.Keys;
  }

  // ---- what is parsed is normal -----------------------------------------------------------------------------

  lemma TakeWidth(b: Bytes)
    ensures TakeU16(b).Ok? ==> TakeU16(b).value.0 < U16
    ensures TakeU32(b).Ok? ==> TakeU32(b).value.0 < U32
    ensures TakeU64(b).Ok? ==> TakeU64(b).value.0 < U64 && Low64(TakeU64(b).value.0) == TakeU64(b).value.0
  {
    if |b| >= 2 { FromLEBound(b[..2]); }
    if |b| >= 4 { FromLEBound(b[..4]); }
    if |b| >= 8 { FromLEBound(b[..8]); }
    Widths();
  }

  lemma TakenText(b: Bytes)
    ensures TakeStr(b).Ok? ==> TextFits(TakeStr(b).value.0)
  {
    TakeWidth(b);
  }

  lemma TakenVal(tag: Byte, b: Bytes)
    ensures TakeVal(tag, b).Ok? ==> ValFits(TakeVal(tag, b).value.0) && NormalVal(TakeVal(tag, b).value.0) == TakeVal(tag, b).value.0
  {
    hide TakeU64, TakeU8, TakeStr, TakeU32, TakeBytes, CanonicalFloat;
    TakeWidth(b);
    TakenText(b);
    if TakeU64(b).Ok? { CanonicalTwice(TakeU64(b).value.0); }
  }

  predicate NormalEntries(attrs: Attrs) { forall k :: k in attrs ==> TextFits(k) && ValFits(attrs[k]) && NormalVal(attrs[k]) == attrs[k] }

  lemma TakenEntry(b: Bytes)
    ensures TakeEntry(b).Ok? ==>
      var e := TakeEntry(b).value.0; TextFits(e.0) && ValFits(e.1) && NormalVal(e.1) == e.1
  {
    TakenText(b);
    if TakeStr(b).Ok? && TakeU8(TakeStr(b).value.1).Ok? {
      var tag := TakeU8(TakeStr(b).value.1).value;
      TakenVal(tag.0, tag.1);
    }
    hide TakeStr, TakeU8, TakeVal, TextFits, ValFits, NormalVal;
  }

  lemma NormalNext(attrs: Attrs, key: Text, v: Val)
    requires NormalEntries(attrs) && TextFits(key) && ValFits(v) && NormalVal(v) == v
    ensures NormalEntries(attrs[key := v]) && |attrs[key := v]| <= |attrs| + 1
  {
    hide TextFits, ValFits, NormalVal;
    assert attrs[key := v].Keys == attrs.Keys + {key};
    assert |attrs[key := v]| == |attrs[key := v].Keys| && |attrs| == |attrs.Keys|;
  }

  lemma {:induction false} TakenEntries(n: nat, b: Bytes, attrs: Attrs)
    requires NormalEntries(attrs)
    ensures TakeEntries(n, b, attrs).Ok? ==>
      var out := TakeEntries(n, b, attrs).value.0; NormalEntries(out) && |out| <= |attrs| + n
    decreases n
  {
    hide TextFits, ValFits, NormalVal, TakeEntry, NormalEntries;
    if n > 0 && TakeEntry(b).Ok? {
      TakenEntry(b);
      var e := TakeEntry(b).value;
      NormalNext(attrs, e.0.0, e.0.1);
      TakenEntries(n - 1, e.1, attrs[e.0.0 := e.0.1]);
    }
  }

  lemma TakenAttrs(b: Bytes)
    ensures TakeAttrs(b).Ok? ==> AttrsFit(TakeAttrs(b).value.0) && NormalAttrs(TakeAttrs(b).value.0) == TakeAttrs(b).value.0
  {
    TakeWidth(b);
    hide TextFits, ValFits, NormalVal, TakeU16, TakeEntries;
    if TakeU16(b).Ok? { TakenEntries(TakeU16(b).value.0, TakeU16(b).value.1, map[]); }
  }

  lemma {:induction false} TakenIds(n: nat, b: Bytes, ids: seq<Uid>)
    requires forall i :: 0 <= i < |ids| ==> ids[i] < U64
    ensures TakeIds(n, b, ids).Ok? ==>
      var out := TakeIds(n, b, ids).value.0; |out| == |ids| + n && LowAll(out) == out
    decreases n
  {
    TakeWidth(b);
    hide TakeU64;
    if n > 0 && TakeU64(b).Ok? { TakenIds(n - 1, TakeU64(b).value.1, ids + [TakeU64(b).value.0]); }
  }

  lemma {:induction false} TakenClocks(n: nat, b: Bytes, clocks: map<PartitionId, nat>)
    requires WireClocks(clocks)
    ensures TakeClocks(n, b, clocks).Ok? ==>
      var out := TakeClocks(n, b, clocks).value.0; WireClocks(out) && |out| <= |clocks| + n
    decreases n
  {
    TakeWidth(b);
    hide TakeU64;
    if n > 0 && TakeU64(b).Ok? && TakeU64(TakeU64(b).value.1).Ok? {
      var pid := TakeU64(b).value;
      TakeWidth(pid.1);
      var clock := TakeU64(pid.1).value;
      var clocks' := clocks[pid.0 := clock.0];
      assert clocks'.Keys == clocks.Keys + {pid.0};
      assert |clocks'| == |clocks'.Keys| <= |clocks.Keys| + 1 == |clocks| + 1;
      TakenClocks(n - 1, clock.1, clocks');
    }
  }

  lemma TakenFrontier(b: Bytes)
    ensures TakeFrontier(b).Ok? ==>
      var f := TakeFrontier(b).value.0; |f| < U16 && NormalFrontier(f) == f
  {
    TakeWidth(b);
    hide TakeU16, TakeClocks;
    if TakeU16(b).Ok? {
      TakenClocks(TakeU16(b).value.0, TakeU16(b).value.1, map[]);
      if TakeFrontier(b).Ok? { WireClocksNormal(TakeFrontier(b).value.0); }
    }
  }

  /** What an opcode's parser yields is in normal form and fits its length prefixes. */
  ghost predicate Normal(op: IsaOp) { Fits(op) && NormalForm(op) == op }

  lemma TakenDep(b: Bytes)
    ensures TakeDep(b).Ok? ==> DepFits(TakeDep(b).value.0) && NormalDep(TakeDep(b).value.0) == TakeDep(b).value.0
  {
    hide TakeU8, TakeStr, TakeRemote, TextFits, NormalFrontier, Low64;
    if TakeU8(b).Ok? {
      var port := TakeU8(TakeU8(b).value.1);
      if port.Ok? && TakeStr(port.value.1).Ok? && PortOf(port.value.0).Ok? {
        TakenText(port.value.1);
        TakenRemote(PortOf(port.value.0).value, TakeStr(port.value.1).value.1);
      }
    }
  }

  lemma TakenRemote(kind: PortKind, b: Bytes)
    ensures TakeRemote(kind, b).Ok? ==>
      var r := TakeRemote(kind, b).value.0; DepFits(Remote(r)) && NormalDep(Remote(r)) == Remote(r)
  {
    hide TakeU64, TakeU8, TakePayloadKind, TakeFrontier, NormalFrontier, Low64;
    if TakeRemote(kind, b).Ok? {
      TakeWidth(b);
      var b1 := TakeU64(b).value.1;
      TakeWidth(b1);
      var b2 := TakeU64(b1).value.1;
      TakeWidth(b2);
      var b4 := TakePayloadKind(TakeU64(b2).value.1).value.1;
      TakenFrontier(b4);
      var b5 := TakeFrontier(b4).value.1;
      TakeWidth(b5);
      var b6 := TakeU64(b5).value.1;
      TakeWidth(b6);
      var b7 := TakeU64(b6).value.1;
      TakeWidth(TakeU8(b7).value.1);
    }
  }

  lemma TakenConfig(b: Bytes)
    ensures TakeConfig(b).Ok? ==> NormalConfig(TakeConfig(b).value.0) == TakeConfig(b).value.0
  {
    hide TakeU8, TakeU32;
    if TakeConfig(b).Ok? { TakeWidth(TakeU8(TakeU8(b).value.1).value.1); }
  }

  lemma TakenBoundary(b: Bytes)
    ensures TakeBoundary(b).Ok? ==>
      var out := TakeBoundary(b).value.0; NormalBoundary(out) == out && (out.ExplicitSet? ==> |out.ids| < U32)
  {
    hide TakeU8, TakeU32, TakeU64, TakeIds, Low64, LowAll;
    if TakeU8(b).Ok? {
      var b1 := TakeU8(b).value.1;
      TakeWidth(b1);
      if TakeU32(b1).Ok? { TakenIds(TakeU32(b1).value.0, TakeU32(b1).value.1, []); }
    }
  }

  lemma TakenRegion(b: Bytes)
    ensures TakeRegion(b).Ok? ==>
      var out := TakeRegion(b).value.0; NormalRegion(out) == out && (out.Some? ==> |out.value| < U32)
  {
    hide TakeU32, TakeIds, LowAll;
    TakeWidth(b);
    if TakeU32(b).Ok? { TakenIds(TakeU32(b).value.0, TakeU32(b).value.1, []); }
  }

  lemma TakenNodeCreate(b: Bytes)
    ensures TakeNodeCreate(b).Ok? ==> Normal(TakeNodeCreate(b).value.0)
  {
    hide TakeU64, TakeU8, TakeStr, TakeAttrs, KindOf, TextFits, AttrsFit, NormalAttrs, Low64;
    if TakeNodeCreate(b).Ok? {
      TakeWidth(b);
      var b1 := TakeU64(b).value.1;
      TakenText(b1);
      TakenAttrs(TakeU8(TakeStr(b1).value.1).value.1);
    }
  }

  lemma TakenEdgeConnect(b: Bytes)
    ensures TakeEdgeConnect(b).Ok? ==> Normal(TakeEdgeConnect(b).value.0)
  {
    hide TakeU64, TakeDep, DepFits, NormalDep, Low64;
    if TakeEdgeConnect(b).Ok? {
      TakeWidth(b);
      var b1 := TakeU64(b).value.1;
      TakeWidth(b1);
      var b2 := TakeU64(b1).value.1;
      TakeWidth(b2);
      TakenDep(TakeU64(b2).value.1);
    }
  }

  lemma TakenRegionDeclare(b: Bytes)
    ensures TakeRegionDeclare(b).Ok? ==> Normal(TakeRegionDeclare(b).value.0)
  {
    hide TakeU64, TakeU8, TakeBoundary, NormalBoundary, StabilityOf, CompileOf, Low64;
    if TakeRegionDeclare(b).Ok? {
      TakeWidth(b);
      TakenBoundary(TakeU64(b).value.1);
    }
  }

  lemma TakenScalars(b: Bytes)
    ensures TakeSetValue(b).Ok? ==> Normal(TakeSetValue(b).value.0)
    ensures TakeSubscribe(b).Ok? ==> Normal(TakeSubscribe(b).value.0)
    ensures TakeSetMode(b).Ok? ==> Normal(TakeSetMode(b).value.0)
    ensures TakePartitionBind(b).Ok? ==> Normal(TakePartitionBind(b).value.0)
    ensures TakeSetStabilizationConfig(b).Ok? ==> Normal(TakeSetStabilizationConfig(b).value.0)
    ensures TakeSetExecutionPolicy(b).Ok? ==> Normal(TakeSetExecutionPolicy(b).value.0)
  {
    hide TakeU64, TakeU8, TakeT, TakeConfig, NormalConfig, Low64, ModeOfByte;
    TakeWidth(b);
    if TakeU64(b).Ok? {
      var b1 := TakeU64(b).value.1;
      TakeWidth(b1);
      TakenConfig(b1);
    }
  }

  lemma TakenFour(b: Bytes)
    ensures TakePartitionCreate(b).Ok? ==> Normal(TakePartitionCreate(b).value.0)
    ensures TakeSetPartitionAuthority(b).Ok? ==> Normal(TakeSetPartitionAuthority(b).value.0)
    ensures TakeSetEdgeLabel(b).Ok? ==> Normal(TakeSetEdgeLabel(b).value.0)
  {
    hide TakeU64, TakeU8, Low64;
    TakeWidth(b);
    if TakeU64(b).Ok? {
      var b1 := TakeU64(b).value.1;
      TakeWidth(b1);
      if TakeU64(b1).Ok? {
        var b2 := TakeU64(b1).value.1;
        TakeWidth(b2);
        if TakeU64(b2).Ok? {
          var b3 := TakeU64(b2).value.1;
          TakeWidth(b3);
          if TakeU8(b3).Ok? { TakeWidth(TakeU8(b3).value.1); }
        }
      }
    }
  }

  lemma TakenSingles(b: Bytes)
    ensures TakeU64(b).Ok? ==>
      var id := TakeU64(b).value.0;
      Normal(Propagate(id)) && Normal(DelNode(id)) && Normal(DelEdge(id)) && Normal(Demand(id)) && Normal(Reflect(id))
    ensures TakeRegion(b).Ok? ==> Normal(Stabilize(TakeRegion(b).value.0))
  {
    TakenRegion(b);
    TakeWidth(b);
    hide TakeU64, TakeRegion, NormalRegion, Low64;
  }

  /** Every parsed operation is in normal form, fits, and has the opcode it was parsed under. */
  lemma ParsedIsNormal(opcode: nat, b: Bytes)
    ensures TakeOp(opcode, b).Ok? ==> Normal(TakeOp(opcode, b).value.0) && OpcodeFor(TakeOp(opcode, b).value.0) == opcode
  {
    TakenNodeCreate(b);
    TakenEdgeConnect(b);
    TakenRegionDeclare(b);
    TakenScalars(b);
    TakenFour(b);
    TakenSingles(b);
    TakenOpcode(opcode, b);
    hide Normal, OpcodeFor, TakeU64, TakeNodeCreate, TakeEdgeConnect, TakeRegionDeclare, TakeSetValue, TakeSubscribe, TakeSetMode,
         TakePartitionBind, TakeSetStabilizationConfig, TakeSetExecutionPolicy, TakePartitionCreate, TakeSetPartitionAuthority,
         TakeSetEdgeLabel, TakeRegion;
  }

  lemma TakenOpcode(opcode: nat, b: Bytes)
    ensures TakeOp(opcode, b).Ok? ==> OpcodeFor(TakeOp(opcode, b).value.0) == opcode
  {
    hide TakeU64, TakeU8, TakeStr, KindOf, TakeAttrs, TakeDep, TakeT, ModeOfByte, TakeConfig, TakePolicy, TakeBoundary, StabilityOf,
         CompileOf, TakeRegion;
  }

  /** For every byte string that parses, printing the operation and parsing again gives the same
      operation. */
  lemma Reparse(opcode: nat, b: Bytes)
    requires ParsePayload(opcode, b).Ok?
    ensures var op := ParsePayload(opcode, b).value;
      Fits(op) && OpcodeFor(op) == opcode && ParsePayload(opcode, Payload(op)) == Ok(op)
  {
    ParsedIsNormal(opcode, b);
    RoundTrip(TakeOp(opcode, b).value.0);
    hide TakeOp, Fits, NormalForm, Payload;
  }

  /** The normal form fits and is its own normal form. */
  lemma NormalFormIsStable(op: IsaOp)
    requires Fits(op)
    ensures Normal(NormalForm(op)) && OpcodeFor(NormalForm(op)) == OpcodeFor(op)
  {
    OpBack(op, []);
    ParsedIsNormal(OpcodeFor(op), PutPayload(op, []));
    hide TakeOp, PutPayload, Fits, NormalForm;
  }

  // ---- exactly when the round trip works ------------------------------------------------------

  /** The partitions of a remote frontier are the ones the wire can tell apart. */
  predicate FrontierDistinguished(op: IsaOp) {
    op.EdgeConnect? && op.dep.Remote? ==> forall p :: p in op.dep.dep.causalFrontier ==> p < U64
  }

  lemma LowKeys(clocks: map<PartitionId, nat>, c: nat)
    requires forall p :: p in clocks ==> p < U64
    ensures (exists p :: p in clocks && Low64(p) == c) <==> c in clocks
  {
    assert forall p :: p in clocks ==> Low64(p) == p;
  }

  lemma FrontierKeys(clocks: map<PartitionId, nat>)
    requires forall p :: p in clocks ==> p < U64
    ensures NormalFrontier(clocks).Keys == clocks.Keys
  {
    var out := NormalFrontier(clocks);
    hide *;
    forall c: nat ensures c in out <==> c in clocks {
      FrontierMeaning(clocks, c);
      LowKeys(clocks, c);
    }
  }

  lemma AttrsFitBack(attrs: Attrs)
    requires AttrsFit(NormalAttrs(attrs))
    ensures AttrsFit(attrs)
  {
    var out := NormalAttrs(attrs);
    assert out.Keys == attrs.Keys;
    assert |out| == |out.Keys| && |attrs| == |attrs.Keys|;
    forall k | k in attrs ensures TextFits(k) && ValFits(attrs[k]) { assert k in out; }
  }

  /** An operation fits when its normal form does. */
  lemma FitsBack(op: IsaOp)
    requires FrontierDistinguished(op) && Fits(NormalForm(op))
    ensures Fits(op)
  {
    if op.NodeCreate? {
      AttrsFitBack(op.attrs);
    } else if op.EdgeConnect? && op.dep.Remote? {
      var clocks := op.dep.dep.causalFrontier;
      FrontierKeys(clocks);
      assert |NormalFrontier(clocks)| == |NormalFrontier(clocks).Keys| && |clocks| == |clocks.Keys|;
    }
    hide AttrsFit, NormalAttrs, NormalFrontier, Low64;
  }

  /** The payload parses back to the normal form exactly when every text is valid UTF-8 and every
      length fits its prefix. */
  lemma RoundTripExactly(op: IsaOp)
    requires FrontierDistinguished(op)
    ensures ParsePayload(OpcodeFor(op), Payload(op)) == Ok(NormalForm(op)) <==> Fits(op)
  {
    if Fits(op) {
      RoundTrip(op);
    } else {
      ParsedIsNormal(OpcodeFor(op), Payload(op));
      if Fits(NormalForm(op)) { FitsBack(op); }
    }
    hide TakeOp, Payload, Fits, NormalForm, OpcodeFor, FrontierDistinguished;
  }
}
