/** The codec in place: a byte buffer that operations are written to and a cursor that they are
    read from. */
module Codec {
  import opened Base
  import opened Ternary
  import opened Rules
  import opened Isa
  import opened WireBytes
  import opened WireFormat

  /** after is before with the bytes that put prints in front of anything. */
  ghost predicate Appended(before: Bytes, after: Bytes, put: Bytes -> Bytes) {
    forall rest: Bytes {:trigger after + rest} :: after + rest == before + put(rest)
  }

  /** The growing output of the encoder. */
  class ByteBuffer {
    var bytes: Bytes

    constructor ()
      ensures bytes == []
    {
      bytes := [];
    }

    method Extend(more: Bytes)
      modifies this
      ensures bytes == old(bytes) + more
      ensures Appended(old(bytes), bytes, rest => more + rest)
    {
      bytes := bytes + more;
      forall rest: Bytes ensures bytes + rest == old(bytes) + (more + rest) {}
    }

    method PushU8(x: Byte)
      modifies this
      ensures Appended(old(bytes), bytes, rest => PutU8(x, rest))
    {
      Extend([x]);
    }

    method PushU16(x: int)
      modifies this
      ensures Appended(old(bytes), bytes, rest => PutU16(x, rest))
    {
      Extend(LE(2, x));
    }

    method PushU32(x: int)
      modifies this
      ensures Appended(old(bytes), bytes, rest => PutU32(x, rest))
    {
      Extend(LE(4, x));
    }

    method PushU64(x: int)
      modifies this
      ensures Appended(old(bytes), bytes, rest => PutU64(x, rest))
    {
      Extend(LE(8, x));
    }

    method PushStr(s: Text)
      modifies this
      ensures Appended(old(bytes), bytes, rest => PutStr(s, rest))
    {
      PushU16(|s|);
      Extend(s);
    }

    method PushT(t: T)
      modifies this
      ensures Appended(old(bytes), bytes, rest => PutT(t, rest))
    {
      PushU8(match t case Neg => 0xFF case Zero => 0 case Pos => 1);
    }

    method WriteVal(v: Val)
      modifies this
      ensures Appended(old(bytes), bytes, rest => PutVal(v, rest))
    {
      match v {
        case BoolVal(b) =>
          PushU8(0x01);
          PushU8(if b then 1 else 0);
        case IntVal(i) =>
          PushU8(0x02);
          PushU64(i);
        case FloatVal(bits) =>
          PushU8(0x03);
          PushU64(CanonicalFloat(bits % U64));
        case TextVal(s) =>
          PushU8(0x04);
          PushStr(s);
        case TernaryVal(t) =>
          PushU8(0x06);
          PushT(t);
      }
    }

    /** `write_attr_map`: the count, then the entries in key order. */
    method WriteAttrMap(attrs: Attrs)
      modifies this
      ensures Appended(old(bytes), bytes, rest => PutAttrs(attrs, rest))
    {
      SortedElements(attrs.Keys);
      var keys := Sorted(attrs.Keys);
      PushU16(|attrs|);
      WriteEntries(keys, attrs);
    }

    method WriteEntries(keys: seq<Text>, attrs: Attrs)
      requires forall k :: k in keys ==> k in attrs
      modifies this
      ensures Appended(old(bytes), bytes, rest => PutEntries(keys, attrs, rest))
    {
      ghost var b0 := bytes;
      assert AppendedEntries(b0, bytes, keys[..0], attrs);
      for i := 0 to |keys|
        invariant AppendedEntries(b0, bytes, keys[..i], attrs)
      {
        ghost var b1 := bytes;
        WriteEntry(keys[i], attrs[keys[i]]);
        AppendEntry(b0, b1, bytes, keys, i, attrs);
      }
      assert keys[..|keys|] == keys;
    }

    method WriteEntry(key: Text, v: Val)
      modifies this
      ensures Appended(old(bytes), bytes, rest => PutEntry(key, v, rest))
    {
      PushStr(key);
      WriteVal(v);
      hide PutStr, PutVal;
    }

    method PushIds(ids: seq<Uid>)
      modifies this
      ensures Appended(old(bytes), bytes, rest => PutIds(ids, rest))
    {
      for i := 0 to |ids|
        invariant Appended(old(bytes), bytes, rest => PutIds(ids[..i], rest))
      {
        ghost var before := bytes;
        PushU64(ids[i]);
        forall rest: Bytes ensures bytes + rest == old(bytes) + PutIds(ids[..i + 1], rest) {
          IdsNext(ids, i, rest);
          assert before + PutU64(ids[i], rest) == old(bytes) + PutIds(ids[..i], PutU64(ids[i], rest));
        }
      }
      assert ids[..|ids|] == ids;
    }

    /** The frontier in ascending order of its partitions. */
    method WriteFrontier(frontier: map<PartitionId, nat>)
      modifies this
      ensures Appended(old(bytes), bytes, rest => PutFrontier(frontier, rest))
    {
      AscendingElements(frontier.Keys);
      var pids := Ascending(frontier.Keys);
      PushU16(|frontier|);
      WriteClocks(pids, frontier);
    }

    method WriteClocks(pids: seq<PartitionId>, clocks: map<PartitionId, nat>)
      requires forall p :: p in pids ==> p in clocks
      modifies this
      ensures Appended(old(bytes), bytes, rest => PutClocks(pids, clocks, rest))
    {
      ghost var b0 := bytes;
      assert AppendedClocks(b0, bytes, pids[..0], clocks);
      for i := 0 to |pids|
        invariant AppendedClocks(b0, bytes, pids[..i], clocks)
      {
        ghost var b1 := bytes;
        PushPair(pids[i], clocks[pids[i]]);
        AppendClock(b0, b1, bytes, pids, i, clocks);
      }
      assert pids[..|pids|] == pids;
    }

    method PushPair(a: nat, b: nat)
      modifies this
      ensures Appended(old(bytes), bytes, rest => PutU64(a, PutU64(b, rest)))
    {
      PushU64(a);
      PushU64(b);
    }

    method WritePayloadKind(k: PayloadKind)
      modifies this
      ensures Appended(old(bytes), bytes, rest => PutPayloadKind(k, rest))
    {
      match k {
        case Definite => PushU8(0x00);
        case TypedZero(z) =>
          PushU8(0x01);
          PushU8(ZeroByte(z));
      }
    }

    method WriteRemote(r: RemoteDep)
      modifies this
      ensures Appended(old(bytes), bytes, rest => PutRemote(r, rest))
    {
      hide PutU64, PutU8, PutPayloadKind, PutFrontier;
      PushU64(r.sourcePartition);
      PushU64(r.sourceUid);
      PushU64(r.sourceVersion);
      WritePayloadKind(r.payloadKind);
      WriteFrontier(r.causalFrontier);
      PushU64(r.sourceAuthority);
      PushU64(r.emittedClass);
      PushU8(r.capability % 256);
      PushU64(r.causalScope.scopeBits);
    }

    method WriteDep(d: DepKind)
      modifies this
      ensures Appended(old(bytes), bytes, rest => PutDep(d, rest))
    {
      hide PutU8, PutStr, PutRemote;
      match d {
        case Local(None) =>
          PushU8(0x00);
          PushU8(0x00);
          PushStr([]);
        case Local(Some(port)) =>
          PushU8(0x00);
          PushU8(PortByte(port.kind));
          PushStr(port.name);
        case Remote(r) =>
          PushU8(0x01);
          PushU8(PortByte(r.portKind));
          PushStr([]);
          WriteRemote(r);
      }
    }

    method WriteConfig(c: StabilizationConfig)
      modifies this
      ensures Appended(old(bytes), bytes, rest => PutConfig(c, rest))
    {
      hide PutU8, PutU32;
      PushU8(match c.strategy case FullL3 => 0x00 case Restricted(v) => v % 256);
      PushU8(match c.domain case LocalOnly => 0x00 case Federated => 0x01 case Inherit => 0x02);
      PushU32(c.maxIterations);
      PushU8(match c.convergence case Canonical => 0x00 case Witness => 0x01 case BudgetExhausted => 0x02);
    }

    method WritePolicy(p: ExecutionPolicy)
      modifies this
      ensures Appended(old(bytes), bytes, rest => PutPolicy(p, rest))
    {
      hide PutU8;
      PushU8(match p.priority case Normal => 0x00 case High => 0x01 case Low => 0x02);
      PushU8(match p.retry case Fail => 0x00 case Retry(_) => 0x01);
    }

    method WriteBoundary(b: RegionBoundary)
      modifies this
      ensures Appended(old(bytes), bytes, rest => PutBoundary(b, rest))
    {
      hide PutU8, PutU32, PutU64, PutIds;
      match b {
        case DepClosure(maxDepth) =>
          PushU8(0x00);
          PushU32(maxDepth);
        case ExplicitSet(ids) =>
          PushU8(0x01);
          PushU32(|ids|);
          PushIds(ids);
        case PartitionScoped(pid) =>
          PushU8(0x02);
          PushU64(pid);
      }
    }

    method WriteDeclare(boundary: RegionBoundary, stability: StabilityContract, compile: CompilePolicy)
      modifies this
      ensures Appended(old(bytes), bytes, rest => PutDeclare(boundary, stability, compile, rest))
    {
      hide PutU8, PutBoundary;
      WriteBoundary(boundary);
      PushU8(match stability case Pinned => 0x00 case EpochTracked => 0x01);
      PushU8(match compile case CompileEager => 0x00 case CompileLazy => 0x01 case CompileNever => 0x02);
    }

    method WriteAuthority(latticeClass: nat, domain: CausalScope)
      modifies this
      ensures Appended(old(bytes), bytes, rest => PutAuthority(latticeClass, domain, rest))
    {
      hide PutU64;
      PushU64(latticeClass);
      PushU64(domain.scopeBits);
    }

    method WriteLabel(l: EdgeLabel)
      modifies this
      ensures Appended(old(bytes), bytes, rest => PutLabel(l, rest))
    {
      hide PutU8, PutU64;
      PushU64(l.latticeClass);
      PushU8(l.capability % 256);
      PushU64(l.causalScope.scopeBits);
    }

    method WriteRegion(region: Option<seq<Uid>>)
      modifies this
      ensures Appended(old(bytes), bytes, rest => PutRegion(region, rest))
    {
      hide PutU32, PutIds;
      match region {
        case None => PushU32(0);
        case Some(ids) =>
          PushU32(|ids|);
          PushIds(ids);
      }
    }
  }

  lemma {:induction false} EntriesNext(keys: seq<Text>, i: nat, attrs: Attrs, rest: Bytes)
    requires i < |keys| && forall k :: k in keys ==> k in attrs
    ensures PutEntries(keys[..i + 1], attrs, rest) == PutEntries(keys[..i], attrs, PutEntry(keys[i], attrs[keys[i]], rest))
    decreases i
  {
    hide PutEntry;
    if i == 0 {
      assert keys[..1][1..] == [];
    } else {
      EntriesNext(keys[1..], i - 1, attrs, rest);
      assert keys[..i + 1][1..] == keys[1..][..i] && keys[..i][1..] == keys[1..][..i - 1];
    }
  }

  lemma {:induction false} IdsNext(ids: seq<Uid>, i: nat, rest: Bytes)
    requires i < |ids|
    ensures PutIds(ids[..i + 1], rest) == PutIds(ids[..i], PutU64(ids[i], rest))
    decreases i
  {
    hide PutU64;
    if i == 0 {
      assert ids[..1][1..] == [];
    } else {
      IdsNext(ids[1..], i - 1, rest);
      assert ids[..i + 1][1..] == ids[1..][..i] && ids[..i][1..] == ids[1..][..i - 1];
    }
  }

  lemma {:induction false} ClocksNext(pids: seq<PartitionId>, i: nat, clocks: map<PartitionId, nat>, rest: Bytes)
    requires i < |pids| && forall p :: p in pids ==> p in clocks
    ensures PutClocks(pids[..i + 1], clocks, rest) == PutClocks(pids[..i], clocks, PutU64(pids[i], PutU64(clocks[pids[i]], rest)))
    decreases i
  {
    hide PutU64;
    if i == 0 {
      assert pids[..1][1..] == [];
    } else {
      ClocksNext(pids[1..], i - 1, clocks, rest);
      assert pids[..i + 1][1..] == pids[1..][..i] && pids[..i][1..] == pids[1..][..i - 1];
    }
  }

  ghost predicate AppendedEntries(b0: Bytes, b1: Bytes, keys: seq<Text>, attrs: Attrs)
    requires forall k :: k in keys ==> k in attrs
  {
    forall rest: Bytes {:trigger b1 + rest} :: b1 + rest == b0 + PutEntries(keys, attrs, rest)
  }

  lemma AppendEntry(b0: Bytes, b1: Bytes, b2: Bytes, keys: seq<Text>, i: nat, attrs: Attrs)
    requires i < |keys| && forall k :: k in keys ==> k in attrs
    requires AppendedEntries(b0, b1, keys[..i], attrs)
    requires forall rest: Bytes {:trigger b2 + rest} :: b2 + rest == b1 + PutEntry(keys[i], attrs[keys[i]], rest)
    ensures AppendedEntries(b0, b2, keys[..i + 1], attrs)
  {
    hide PutEntry, PutEntries;
    forall rest: Bytes ensures b2 + rest == b0 + PutEntries(keys[..i + 1], attrs, rest) {
      EntriesNext(keys, i, attrs, rest);
    }
  }

  ghost predicate AppendedClocks(b0: Bytes, b1: Bytes, pids: seq<PartitionId>, clocks: map<PartitionId, nat>)
    requires forall p :: p in pids ==> p in clocks
  {
    forall rest: Bytes {:trigger b1 + rest} :: b1 + rest == b0 + PutClocks(pids, clocks, rest)
  }

  lemma AppendClock(b0: Bytes, b1: Bytes, b2: Bytes, pids: seq<PartitionId>, i: nat, clocks: map<PartitionId, nat>)
    requires i < |pids| && forall p :: p in pids ==> p in clocks
    requires AppendedClocks(b0, b1, pids[..i], clocks)
    requires forall rest: Bytes {:trigger b2 + rest} :: b2 + rest == b1 + PutU64(pids[i], PutU64(clocks[pids[i]], rest))
    ensures AppendedClocks(b0, b2, pids[..i + 1], clocks)
  {
    hide PutU64, PutClocks;
    forall rest: Bytes ensures b2 + rest == b0 + PutClocks(pids[..i + 1], clocks, rest) {
      ClocksNext(pids, i, clocks, rest);
    }
  }

  /** The operations on one node, with at most a value, a mode or a policy. */
  method WriteNodeOp(op: IsaOp, buf: ByteBuffer)
    requires op.SetValue? || op.Propagate? || op.DelNode? || op.DelEdge? || op.Demand? || op.SetMode? || op.Reflect?
          || op.SetStabilizationConfig? || op.SetExecutionPolicy?
    modifies buf
    ensures Appended(old(buf.bytes), buf.bytes, rest => PutPayload(op, rest))
  {
    hide PutU8, PutU64, PutT, PutConfig, PutPolicy;
    match op {
      case SetValue(node, v) =>
        buf.PushU64(node);
        buf.PushT(v);
      case Propagate(node) => buf.PushU64(node);
      case DelNode(id) => buf.PushU64(id);
      case DelEdge(id) => buf.PushU64(id);
      case Demand(node) => buf.PushU64(node);
      case SetMode(node, mode) =>
        buf.PushU64(node);
        buf.PushU8(ModeByte(mode));
      case Reflect(node) => buf.PushU64(node);
      case SetStabilizationConfig(node, config) =>
        buf.PushU64(node);
        buf.WriteConfig(config);
      case SetExecutionPolicy(node, policy) =>
        buf.PushU64(node);
        buf.WritePolicy(policy);
    }
  }

  /** The operations on pairs and partitions. */
  method WritePairOp(op: IsaOp, buf: ByteBuffer)
    requires op.Subscribe? || op.PartitionBind? || op.SetPartitionAuthority?
    modifies buf
    ensures Appended(old(buf.bytes), buf.bytes, rest => PutPayload(op, rest))
  {
    hide PutU8, PutU64, PutAuthority;
    match op {
      case Subscribe(source, subscriber) => buf.PushPair(source, subscriber);
      case PartitionBind(node, partition) => buf.PushPair(node, partition);
      case SetPartitionAuthority(partition, lattice, domain) =>
        buf.PushU64(partition);
        buf.WriteAuthority(lattice, domain);
    }
  }

  method WritePartitionCreate(op: IsaOp, buf: ByteBuffer)
    requires op.PartitionCreate?
    modifies buf
    ensures Appended(old(buf.bytes), buf.bytes, rest => PutPayload(op, rest))
  {
    hide PutU8, PutU64, PutAuthority;
    buf.PushPair(op.pid, op.authorityRoot);
    buf.WriteAuthority(op.latticeClass, op.causalDomain);
  }

  method WriteSetEdgeLabel(op: IsaOp, buf: ByteBuffer)
    requires op.SetEdgeLabel?
    modifies buf
    ensures Appended(old(buf.bytes), buf.bytes, rest => PutPayload(op, rest))
  {
    hide PutU8, PutU64, PutLabel;
    buf.PushPair(op.source, op.target);
    buf.WriteLabel(op.edgeLabel);
  }

  /** `write_payload`: the buffer grows by the operation's payload. */
  method WritePayload(op: IsaOp, buf: ByteBuffer)
    modifies buf
    ensures buf.bytes == old(buf.bytes) + Payload(op)
    ensures Appended(old(buf.bytes), buf.bytes, rest => PutPayload(op, rest))
  {
    hide PutU8, PutU64, PutStr, PutAttrs, PutDep, PutRegion, PutDeclare;
    match op {
      case NodeCreate(id, typ, kind, attrs) =>
        buf.PushU64(id);
        buf.PushStr(typ);
        buf.PushU8(RuleByte(kind));
        buf.WriteAttrMap(attrs);
      case EdgeConnect(id, _, src, tgt, d) =>
        buf.PushU64(id);
        buf.PushU64(src);
        buf.PushU64(tgt);
        buf.WriteDep(d);
      case Stabilize(region) => buf.WriteRegion(region);
      case RegionDeclare(root, boundary, stability, compile) =>
        buf.PushU64(root);
        buf.WriteDeclare(boundary, stability, compile);
      case Subscribe(_, _) => WritePairOp(op, buf);
      case PartitionCreate(_, _, _, _) => WritePartitionCreate(op, buf);
      case PartitionBind(_, _) => WritePairOp(op, buf);
      case SetPartitionAuthority(_, _, _) => WritePairOp(op, buf);
      case SetEdgeLabel(_, _, _) => WriteSetEdgeLabel(op, buf);
      case _ => WriteNodeOp(op, buf);
    }
    assert buf.bytes + [] == buf.bytes;
  }

  // ---- reading ------------------------------------------------------------------------------

  /** The cursor read what the parser takes: the same value with the same bytes left, or the same
      error. */
  ghost predicate Agrees<A>(r: Result<A, DispatchError>, p: Parsed<A>, rest: Bytes) {
    match p
    case Ok(taken) => r == Ok(taken.0) && rest == taken.1
    case Err(e) => r == Err(e)
  }

  /** A cursor over a byte string. */
  class Reader {
    const buf: Bytes
    var pos: nat

    constructor (buf: Bytes)
      ensures Valid() && Rest() == buf
    {
      this.buf := buf;
      pos := 0;
    }

    ghost predicate Valid()
      reads this
    {
      pos <= |buf|
    }

    /** The bytes not read yet. */
    ghost function Rest(): Bytes
      requires Valid()
      reads this
    {
      buf[pos..]
    }

    /** Fail unless n bytes are left. */
    method Need(n: nat) returns (r: Result<(), DispatchError>)
      requires Valid()
      ensures r == if |Rest()| < n then Err(PayloadTruncated(n, |Rest()|)) else Ok(())
    {
      if |buf| - pos < n { return Err(PayloadTruncated(n, |buf| - pos)); }
      return Ok(());
    }

    method ReadBytes(n: nat) returns (r: Result<Bytes, DispatchError>)
      requires Valid()
      modifies `pos
      ensures Valid() && Agrees(r, TakeBytes(n, old(Rest())), Rest())
    {
      var _ :- Need(n);
      var v := buf[pos..pos + n];
      assert v == Rest()[..n] && buf[pos + n..] == Rest()[n..];
      pos := pos + n;
      return Ok(v);
    }

    method ReadU8() returns (r: Result<Byte, DispatchError>)
      requires Valid()
      modifies `pos
      ensures Valid() && Agrees(r, TakeU8(old(Rest())), Rest())
    {
      var _ :- Need(1);
      var v := buf[pos];
      pos := pos + 1;
      return Ok(v);
    }

    method ReadLE(n: nat) returns (r: Result<nat, DispatchError>)
      requires Valid()
      modifies `pos
      ensures Valid() && Agrees(r, TakeLE(n, old(Rest())), Rest())
    {
      var b :- ReadBytes(n);
      return Ok(FromLE(b));
    }

    method ReadU16() returns (r: Result<nat, DispatchError>)
      requires Valid()
      modifies `pos
      ensures Valid() && Agrees(r, TakeU16(old(Rest())), Rest())
    {
      r := ReadLE(2);
    }

    method ReadU32() returns (r: Result<nat, DispatchError>)
      requires Valid()
      modifies `pos
      ensures Valid() && Agrees(r, TakeU32(old(Rest())), Rest())
    {
      r := ReadLE(4);
    }

    method ReadU64() returns (r: Result<nat, DispatchError>)
      requires Valid()
      modifies `pos
      ensures Valid() && Agrees(r, TakeU64(old(Rest())), Rest())
    {
      r := ReadLE(8);
    }

    method ReadStr() returns (r: Result<Text, DispatchError>)
      requires Valid()
      modifies `pos
      ensures Valid() && Agrees(r, TakeStr(old(Rest())), Rest())
    {
      var n :- ReadU16();
      var s :- ReadBytes(n);
      if !Utf8(s) { return Err(InvalidUtf8); }
      return Ok(s);
    }

    method ReadT() returns (r: Result<T, DispatchError>)
      requires Valid()
      modifies `pos
      ensures Valid() && Agrees(r, TakeT(old(Rest())), Rest())
    {
      var v :- ReadU8();
      var t :- TernaryOf(Signed8(v));
      return Ok(t);
    }

    method ReadVal(tag: Byte) returns (r: Result<Val, DispatchError>)
      requires Valid()
      modifies `pos
      ensures Valid() && Agrees(r, TakeVal(tag, old(Rest())), Rest())
    {
      TakeU64Bound(Rest());
      hide TakeU64, TakeU8, TakeStr, TakeT, TakeU32, TakeBytes, CanonicalFloat;
      if tag == 0x01 {
        var v :- ReadU8();
        return Ok(BoolVal(v != 0));
      } else if tag == 0x02 || tag == 0x07 {
        var v :- ReadU64();
        return Ok(IntVal(Signed64(v)));
      } else if tag == 0x03 {
        var v :- ReadU64();
        return Ok(FloatVal(CanonicalFloat(v)));
      } else if tag == 0x04 {
        var s :- ReadStr();
        return Ok(TextVal(s));
      } else if tag == 0x05 {
        var n :- ReadU32();
        var _ :- ReadBytes(n);
        return Err(UnsupportedAttrTag(0x05));
      } else if tag == 0x06 {
        var t :- ReadT();
        return Ok(TernaryVal(t));
      } else {
        return Err(UnsupportedAttrTag(tag));
      }
    }

    method ReadEntry() returns (r: Result<(Text, Val), DispatchError>)
      requires Valid()
      modifies `pos
      ensures Valid() && Agrees(r, TakeEntry(old(Rest())), Rest())
    {
      hide TakeStr, TakeU8, TakeVal;
      var key :- ReadStr();
      var tag :- ReadU8();
      var v :- ReadVal(tag);
      return Ok((key, v));
    }

    /** `parse_attr_map` */
    method ReadAttrMap() returns (r: Result<Attrs, DispatchError>)
      requires Valid()
      modifies `pos
      ensures Valid() && Agrees(r, TakeAttrs(old(Rest())), Rest())
    {
      var count :- ReadU16();
      ghost var after := Rest();
      var attrs: Attrs := map[];
      var i := 0;
      while i < count
        invariant 0 <= i <= count && Valid()
        invariant TakeEntries(count - i, Rest(), attrs) == TakeEntries(count, after, map[])
      {
        hide TakeEntry;
        var entry :- ReadEntry();
        attrs := attrs[entry.0 := entry.1];
        i := i + 1;
      }
      return Ok(attrs);
    }

    method ReadIds(count: nat) returns (r: Result<seq<Uid>, DispatchError>)
      requires Valid()
      modifies `pos
      ensures Valid() && Agrees(r, TakeIds(count, old(Rest()), []), Rest())
    {
      var ids: seq<Uid> := [];
      var i := 0;
      while i < count
        invariant 0 <= i <= count && Valid()
        invariant TakeIds(count - i, Rest(), ids) == TakeIds(count, old(Rest()), [])
      {
        hide TakeU64;
        var id :- ReadU64();
        ids := ids + [id];
        i := i + 1;
      }
      return Ok(ids);
    }

    method ReadFrontier() returns (r: Result<map<PartitionId, nat>, DispatchError>)
      requires Valid()
      modifies `pos
      ensures Valid() && Agrees(r, TakeFrontier(old(Rest())), Rest())
    {
      var count :- ReadU16();
      ghost var after := Rest();
      var clocks: map<PartitionId, nat> := map[];
      var i := 0;
      while i < count
        invariant 0 <= i <= count && Valid()
        invariant TakeClocks(count - i, Rest(), clocks) == TakeClocks(count, after, map[])
      {
        hide TakeU64;
        var pid :- ReadU64();
        var clock :- ReadU64();
        clocks := clocks[pid := clock];
        i := i + 1;
      }
      return Ok(clocks);
    }

    method ReadPayloadKind() returns (r: Result<PayloadKind, DispatchError>)
      requires Valid()
      modifies `pos
      ensures Valid() && Agrees(r, TakePayloadKind(old(Rest())), Rest())
    {
      hide TakeU8, ZeroOf;
      var k :- ReadU8();
      if k == 0x00 { return Ok(Definite); }
      if k != 0x01 { return Err(UnknownPayloadKind(k)); }
      var z :- ReadU8();
      var zero :- ZeroOf(z);
      return Ok(TypedZero(zero));
    }

    method ReadRemote(kind: PortKind) returns (r: Result<RemoteDep, DispatchError>)
      requires Valid()
      modifies `pos
      ensures Valid() && Agrees(r, TakeRemote(kind, old(Rest())), Rest())
    {
      hide TakeU8, TakeU64, TakePayloadKind, TakeFrontier;
      var partition :- ReadU64();
      var source :- ReadU64();
      var version :- ReadU64();
      var payload :- ReadPayloadKind();
      var frontier :- ReadFrontier();
      var authority :- ReadU64();
      var emitted :- ReadU64();
      var capability :- ReadU8();
      var scope :- ReadU64();
      return Ok(RemoteDep(partition, source, version, kind, frontier, payload, authority, emitted, capability, CausalScope(scope, NIL)));
    }

    method ReadDep() returns (r: Result<DepKind, DispatchError>)
      requires Valid()
      modifies `pos
      ensures Valid() && Agrees(r, TakeDep(old(Rest())), Rest())
    {
      hide TakeU8, TakeStr, TakeRemote, PortOf;
      var depKind :- ReadU8();
      var portKind :- ReadU8();
      var name :- ReadStr();
      var kind :- PortOf(portKind);
      if depKind == 0x00 { return Ok(Local(if name == [] then None else Some(Port(name, kind)))); }
      if depKind != 0x01 { return Err(UnknownDepKind(depKind)); }
      var remote :- ReadRemote(kind);
      return Ok(Remote(remote));
    }

    method ReadConfig() returns (r: Result<StabilizationConfig, DispatchError>)
      requires Valid()
      modifies `pos
      ensures Valid() && Agrees(r, TakeConfig(old(Rest())), Rest())
    {
      hide TakeU8, TakeU32;
      var strategy :- ReadU8();
      var domain :- ReadU8();
      var iterations :- ReadU32();
      var convergence :- ReadU8();
      return Ok(StabilizationConfig(
        if strategy == 0x00 then FullL3 else Restricted(strategy),
        if domain == 0x00 then LocalOnly else if domain == 0x01 then Federated else Inherit,
        iterations,
        if convergence == 0x00 then Canonical else if convergence == 0x01 then Witness else BudgetExhausted));
    }

    method ReadPolicy() returns (r: Result<ExecutionPolicy, DispatchError>)
      requires Valid()
      modifies `pos
      ensures Valid() && Agrees(r, TakePolicy(old(Rest())), Rest())
    {
      hide TakeU8;
      var priority :- ReadU8();
      var retry :- ReadU8();
      return Ok(ExecutionPolicy(if priority == 0x01 then High else if priority == 0x02 then Low else Normal,
                                if retry == 0x01 then Retry(3) else Fail));
    }

    method ReadBoundary() returns (r: Result<RegionBoundary, DispatchError>)
      requires Valid()
      modifies `pos
      ensures Valid() && Agrees(r, TakeBoundary(old(Rest())), Rest())
    {
      hide TakeU8, TakeU32, TakeU64, TakeIds;
      var tag :- ReadU8();
      if tag == 0x00 {
        var maxDepth :- ReadU32();
        return Ok(DepClosure(maxDepth));
      } else if tag == 0x01 {
        var count :- ReadU32();
        var ids :- ReadIds(count);
        return Ok(ExplicitSet(ids));
      } else if tag == 0x02 {
        var pid :- ReadU64();
        return Ok(PartitionScoped(pid));
      }
      return Err(UnknownRegionBoundaryTag(tag));
    }

    method ReadRegion() returns (r: Result<Option<seq<Uid>>, DispatchError>)
      requires Valid()
      modifies `pos
      ensures Valid() && Agrees(r, TakeRegion(old(Rest())), Rest())
    {
      hide TakeU32, TakeIds;
      var count :- ReadU32();
      if count == 0 { return Ok(None); }
      var ids :- ReadIds(count);
      return Ok(Some(ids));
    }

    method ReadNodeCreate() returns (r: Result<IsaOp, DispatchError>)
      requires Valid()
      modifies `pos
      ensures Valid() && Agrees(r, TakeNodeCreate(old(Rest())), Rest())
    {
      hide TakeU64, TakeStr, TakeU8, KindOf, TakeAttrs;
      var id :- ReadU64();
      var typ :- ReadStr();
      var rule :- ReadU8();
      var kind :- KindOf(rule);
      var attrs :- ReadAttrMap();
      return Ok(NodeCreate(id, typ, kind, attrs));
    }

    method ReadEdgeConnect() returns (r: Result<IsaOp, DispatchError>)
      requires Valid()
      modifies `pos
      ensures Valid() && Agrees(r, TakeEdgeConnect(old(Rest())), Rest())
    {
      hide TakeU64, TakeDep;
      var id :- ReadU64();
      var src :- ReadU64();
      var tgt :- ReadU64();
      var d :- ReadDep();
      return Ok(EdgeConnect(id, DEP_TYPE, src, tgt, d));
    }

    method ReadSetValue() returns (r: Result<IsaOp, DispatchError>)
      requires Valid()
      modifies `pos
      ensures Valid() && Agrees(r, TakeSetValue(old(Rest())), Rest())
    {
      hide TakeU64, TakeT;
      var node :- ReadU64();
      var v :- ReadT();
      return Ok(SetValue(node, v));
    }

    method ReadSubscribe() returns (r: Result<IsaOp, DispatchError>)
      requires Valid()
      modifies `pos
      ensures Valid() && Agrees(r, TakeSubscribe(old(Rest())), Rest())
    {
      hide TakeU64;
      var source :- ReadU64();
      var subscriber :- ReadU64();
      return Ok(Subscribe(source, subscriber));
    }

    method ReadSetMode() returns (r: Result<IsaOp, DispatchError>)
      requires Valid()
      modifies `pos
      ensures Valid() && Agrees(r, TakeSetMode(old(Rest())), Rest())
    {
      hide TakeU64, TakeU8, ModeOfByte;
      var node :- ReadU64();
      var m :- ReadU8();
      var mode :- ModeOfByte(m);
      return Ok(SetMode(node, mode));
    }

    method ReadPartitionCreate() returns (r: Result<IsaOp, DispatchError>)
      requires Valid()
      modifies `pos
      ensures Valid() && Agrees(r, TakePartitionCreate(old(Rest())), Rest())
    {
      hide TakeU64;
      var pid :- ReadU64();
      var root :- ReadU64();
      var lattice :- ReadU64();
      var domain :- ReadU64();
      return Ok(PartitionCreate(pid, root, lattice, CausalScope(domain, pid)));
    }

    method ReadPartitionBind() returns (r: Result<IsaOp, DispatchError>)
      requires Valid()
      modifies `pos
      ensures Valid() && Agrees(r, TakePartitionBind(old(Rest())), Rest())
    {
      hide TakeU64;
      var node :- ReadU64();
      var partition :- ReadU64();
      return Ok(PartitionBind(node, partition));
    }

    method ReadSetPartitionAuthority() returns (r: Result<IsaOp, DispatchError>)
      requires Valid()
      modifies `pos
      ensures Valid() && Agrees(r, TakeSetPartitionAuthority(old(Rest())), Rest())
    {
      hide TakeU64;
      var partition :- ReadU64();
      var lattice :- ReadU64();
      var domain :- ReadU64();
      return Ok(SetPartitionAuthority(partition, lattice, CausalScope(domain, NIL)));
    }

    method ReadSetEdgeLabel() returns (r: Result<IsaOp, DispatchError>)
      requires Valid()
      modifies `pos
      ensures Valid() && Agrees(r, TakeSetEdgeLabel(old(Rest())), Rest())
    {
      hide TakeU64, TakeU8;
      var src :- ReadU64();
      var tgt :- ReadU64();
      var lattice :- ReadU64();
      var capability :- ReadU8();
      var scope :- ReadU64();
      return Ok(SetEdgeLabel(src, tgt, EdgeLabel(capability, lattice, WILDCARD, CausalScope(scope, NIL))));
    }

    method ReadSetStabilizationConfig() returns (r: Result<IsaOp, DispatchError>)
      requires Valid()
      modifies `pos
      ensures Valid() && Agrees(r, TakeSetStabilizationConfig(old(Rest())), Rest())
    {
      hide TakeU64, TakeConfig;
      var node :- ReadU64();
      var config :- ReadConfig();
      return Ok(SetStabilizationConfig(node, config));
    }

    method ReadSetExecutionPolicy() returns (r: Result<IsaOp, DispatchError>)
      requires Valid()
      modifies `pos
      ensures Valid() && Agrees(r, TakeSetExecutionPolicy(old(Rest())), Rest())
    {
      hide TakeU64, TakePolicy;
      var node :- ReadU64();
      var policy :- ReadPolicy();
      return Ok(SetExecutionPolicy(node, policy));
    }

    method ReadRegionDeclare() returns (r: Result<IsaOp, DispatchError>)
      requires Valid()
      modifies `pos
      ensures Valid() && Agrees(r, TakeRegionDeclare(old(Rest())), Rest())
    {
      hide TakeU64, TakeU8, TakeBoundary, StabilityOf, CompileOf;
      var root :- ReadU64();
      var boundary :- ReadBoundary();
      var s :- ReadU8();
      var stability :- StabilityOf(s);
      var c :- ReadU8();
      var compile :- CompileOf(c);
      return Ok(RegionDeclare(root, boundary, stability, compile));
    }
  }

  /** `parse_payload` */
  method Parse(opcode: nat, payload: Bytes) returns (result: Result<IsaOp, DispatchError>)
    ensures result == ParsePayload(opcode, payload)
  {
    var r := new Reader(payload);
    hide TakeU64, TakeRegion, TakeNodeCreate, TakeEdgeConnect, TakeSetValue, TakeSubscribe, TakeSetMode, TakePartitionCreate,
         TakePartitionBind, TakeSetPartitionAuthority, TakeSetEdgeLabel, TakeSetStabilizationConfig, TakeSetExecutionPolicy,
         TakeRegionDeclare;
    match opcode {
      case 0x0001 => result := r.ReadNodeCreate();
      case 0x0002 => result := r.ReadEdgeConnect();
      case 0x0003 => result := r.ReadSetValue();
      case 0x0004 =>
        var node :- r.ReadU64();
        result := Ok(Propagate(node));
      case 0x0005 => result := r.ReadSubscribe();
      case 0x0006 =>
        var id :- r.ReadU64();
        result := Ok(DelNode(id));
      case 0x0007 =>
        var id :- r.ReadU64();
        result := Ok(DelEdge(id));
      case 0x0008 =>
        var node :- r.ReadU64();
        result := Ok(Demand(node));
      case 0x0009 => result := r.ReadSetMode();
      case 0x000A =>
        var node :- r.ReadU64();
        result := Ok(Reflect(node));
      case 0x000B =>
        var region :- r.ReadRegion();
        result := Ok(Stabilize(region));
      case 0x000C => result := r.ReadPartitionCreate();
      case 0x000D => result := r.ReadPartitionBind();
      case 0x000E => result := r.ReadSetPartitionAuthority();
      case 0x000F => result := r.ReadSetEdgeLabel();
      case 0x0010 => result := r.ReadSetStabilizationConfig();
      case 0x0011 => result := r.ReadSetExecutionPolicy();
      case 0x0012 => result := r.ReadRegionDeclare();
      case _ => result := Err(UnknownOpcode(opcode));
    }
  }
}
