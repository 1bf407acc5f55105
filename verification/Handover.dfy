/** What the compiled tier and stabilisation hand to the warm tier: whose pushes they queue. */
module Handover {
  import opened Base
  import opened Bits
  import opened Ternary
  import opened Rules
  import opened Time
  import opened Isa
  import opened ValueStores
  import opened Deps
  import opened Propagation
  import opened StepFacts
  import opened Draining
  import opened Coherence
  import opened Regions
  import opened RegionRun
  import opened Writes
  import opened EngineModel
  import opened EngineValues
  import opened EngineInvariant
  import opened EngineRuns
  import opened PushGate
  import opened StabilisationRounds
  import CounterPath

  /** s reads one of the changed nodes, is none of those skipped, and is let through by that node's pair as the
      notifications began. */
  ghost predicate Hears(e: EngineState, from: set<Uid>, skip: seq<Uid>, s: Uid) {
    s !in skip && exists n :: n in from && HearsOf(e, n, s)
  }

  ghost predicate HearsOf(e: EngineState, n: Uid, s: Uid) {
    s in e.world.reg.SubsOf(n) && LetThrough(e.world.reg, n, s, WriteCtx(e.now))
  }

  /** The nodes in `from` were notified since e0: exactly the pushes of those who hear of them are queued, and only
      their pairs may be stamped. */
  ghost predicate Notifying(e0: EngineState, e: EngineState, from: set<Uid>, skip: seq<Uid>) {
    && e.world.reg.subs == e0.world.reg.subs && e.world.reg.modes == e0.world.reg.modes && e.now == e0.now
    && e0.items <= e.items
    && (forall item :: item in e.items[|e0.items|..] <==> item.Push? && Hears(e0, from, skip, item.id))
    && SameOutside(e0.world.reg, e.world.reg, from)
  }

  ghost predicate SameOutside(reg: Registry, reg': Registry, from: set<Uid>) {
    reg'.meta.Keys == reg.meta.Keys && forall p :: p in reg.meta && p.0 !in from ==> reg'.meta[p] == reg.meta[p]
  }

  lemma NotifyingNone(e: EngineState, skip: seq<Uid>)
    ensures Notifying(e, e, {}, skip)
  {
    assert e.items[|e.items|..] == [];
  }

  lemma LetThroughSame(e0: EngineState, e: EngineState, from: set<Uid>, skip: seq<Uid>, n: Uid, s: Uid)
    requires Notifying(e0, e, from, skip) && n !in from
    ensures HearsOf(e, n, s) <==> HearsOf(e0, n, s)
  {
    assert (n, s) in e.world.reg.meta.Keys <==> (n, s) in e0.world.reg.meta.Keys;
    hide Hears, Passed;
  }

  lemma HearsMore(e: EngineState, from: set<Uid>, n: Uid, skip: seq<Uid>, s: Uid)
    ensures Hears(e, from + {n}, skip, s) <==> Hears(e, from, skip, s) || (s !in skip && HearsOf(e, n, s))
  {
    if s !in skip && HearsOf(e, n, s) { assert n in from + {n}; }
    if Hears(e, from, skip, s) {
      var m :| m in from && HearsOf(e, m, s);
      assert m in from + {n};
    }
    hide HearsOf;
  }

  /** One more node notifies those of its subscribers that are not skipped. */
  ghost predicate NotifiedBy(e: EngineState, e1: EngineState, n: Uid, skip: seq<Uid>) {
    exists to: seq<Uid> :: NotifiedTo(e, e1, n, skip, to)
  }

  ghost predicate NotifiedTo(e: EngineState, e1: EngineState, n: Uid, skip: seq<Uid>, to: seq<Uid>) {
    && (forall s :: s in to <==> s !in skip && HearsOf(e, n, s))
    && e1.items == e.items + Pushes(to) && e1.now == e.now
    && e1.world.reg.subs == e.world.reg.subs && e1.world.reg.modes == e.world.reg.modes
    && e1.world.reg.meta == Stamped(e.world.reg.meta, n, to, e.now)
  }

  lemma NotifyingNext(e0: EngineState, e: EngineState, e1: EngineState, from: set<Uid>, skip: seq<Uid>, n: Uid)
    requires Notifying(e0, e, from, skip) && n !in from && NotifiedBy(e, e1, n, skip)
    ensures Notifying(e0, e1, from + {n}, skip)
  {
    var to: seq<Uid> :| NotifiedTo(e, e1, n, skip, to);
    PushesElements(to);
    var k := |e0.items|;
    assert (e.items + Pushes(to))[k..] == e.items[k..] + Pushes(to);
    forall item ensures item in e1.items[k..] <==> item.Push? && Hears(e0, from + {n}, skip, item.id) {
      if item.Push? {
        HearsMore(e0, from, n, skip, item.id);
        LetThroughSame(e0, e, from, skip, n, item.id);
      }
      assert item in e1.items[k..] <==> item in e.items[k..] || item in Pushes(to);
    }
    StampedOutside(e0.world.reg, e.world.reg, e1.world.reg, from, n, to, e.now);
    hide Hears, HearsOf, SameOutside, Pushes, Stamped;
  }

  lemma StampedOutside(reg0: Registry, reg: Registry, reg1: Registry, from: set<Uid>, n: Uid, to: seq<Uid>, now: ProductTime)
    requires SameOutside(reg0, reg, from) && reg1.meta == Stamped(reg.meta, n, to, now)
    ensures SameOutside(reg0, reg1, from + {n})
  {}

  // ---- one notification loop ----------------------------------------------------------------------

  lemma HeardList(e: EngineState, n: Uid, subs: seq<Uid>, skip: seq<Uid>, s: Uid)
    requires forall x :: x in subs <==> x in e.world.reg.SubsOf(n) && x !in skip
    ensures s in Accepted(e.world.reg, n, subs, WriteCtx(e.now)) <==> s !in skip && HearsOf(e, n, s)
  {
    AcceptedElements(e.world.reg, n, subs, WriteCtx(e.now));
    AcceptsIsLetThrough(e.world.reg, n, s, WriteCtx(e.now));
    hide Accepted, LetThrough;
  }

  lemma {:induction false} OutsideElements(subs: seq<Uid>, members: seq<Uid>)
    ensures forall s :: s in OutsideOf(subs, members) <==> s in subs && s !in members
    decreases |subs|
  {
    if subs != [] {
      assert subs == subs[..|subs| - 1] + [subs[|subs| - 1]];
      OutsideElements(subs[..|subs| - 1], members);
    }
  }

  lemma PushedBy(e: EngineState, e1: EngineState, n: Uid, subs: seq<Uid>, skip: seq<Uid>, a: Acc, b: Acc)
    requires PushedTo(a, b, n, Accepted(e.world.reg, n, subs, WriteCtx(e.now)), e.now) && a.work == []
    requires a.reg.meta == e.world.reg.meta && a.reg.subs == e.world.reg.subs && a.reg.modes == e.world.reg.modes
    requires e1.world.reg == b.reg && e1.items == e.items + b.work && e1.now == e.now
    requires forall x :: x in subs <==> x in e.world.reg.SubsOf(n) && x !in skip
    ensures NotifiedBy(e, e1, n, skip)
  {
    var to := Accepted(e.world.reg, n, subs, WriteCtx(e.now));
    forall s ensures s in to <==> s !in skip && HearsOf(e, n, s) { HeardList(e, n, subs, skip, s); }
    assert [] + Pushes(to) == Pushes(to);
    assert NotifiedTo(e, e1, n, skip, to) by { hide HearsOf, Accepted; }
  }

  lemma LoopNotifies(e: EngineState, n: Uid, subs: seq<Uid>, prior: T, next: T, skip: seq<Uid>)
    requires Distinct(subs) && forall x :: x in subs <==> x in e.world.reg.SubsOf(n) && x !in skip
    ensures NotifiedBy(e, Notified(e, n, subs, prior, next), n, skip)
  {
    var ctx, a := WriteCtx(e.now), Acc(e.world.reg, [], [], NO_STATS);
    var a1 := a.(reg := BumpAll(a.reg, subs, prior, next));
    CounterPath.BumpThenPush(a, n, subs, prior, next, ctx);
    BumpAllResult(a.reg, subs, prior, next);
    PushSubsResult(a1, n, subs, ctx);
    AcceptedFrame(e.world.reg, a1.reg, n, subs, ctx);
    hide PushSubs, BumpAll, BumpAndPush, Accepted, Bumped, NotifiedBy, PushedTo;
    PushedBy(e, Notified(e, n, subs, prior, next), n, subs, skip, a1, PushSubs(a1, n, subs, ctx));
  }

  /** The same notifications from a state with the same registry, queue and clock. */
  lemma SameNotified(e: EngineState, e1: EngineState, out: EngineState, n: Uid, skip: seq<Uid>)
    requires NotifiedBy(e1, out, n, skip) && e1.world.reg == e.world.reg && e1.items == e.items && e1.now == e.now
    ensures NotifiedBy(e, out, n, skip)
  {
    var to: seq<Uid> :| NotifiedTo(e1, out, n, skip, to);
    forall s ensures HearsOf(e, n, s) == HearsOf(e1, n, s) { hide LetThrough; }
    assert NotifiedTo(e, out, n, skip, to) by { hide HearsOf; }
  }

  // ---- a region's run --------------------------------------------------------------------------------

  /** The members whose slots the first i rows changed. */
  function ChangedMembers(r: Region, c0: seq<T>, c1: seq<T>, i: nat): set<Uid>
    requires r.Shaped() && r.Fits(|c0|) && |c0| == |c1| && i <= r.Rows()
  {
    set j | 0 <= j < i && c0[r.outputs[j]] != c1[r.outputs[j]] :: r.members[j]
  }

  lemma SyncChangeNotifies(e: EngineState, members: seq<Uid>, n: Uid, prior: T, next: T)
    ensures NotifiedBy(e, SyncChange(e, members, (n, prior, next)), n, members)
  {
    var e1 := SyncWrite(e, n, prior, next);
    var subs := OutsideOf(Ascending(e.world.reg.SubsOf(n)), members);
    AscendingElements(e.world.reg.SubsOf(n));
    AscendingDistinct(e.world.reg.SubsOf(n));
    OutsideDistinct(Ascending(e.world.reg.SubsOf(n)), members);
    OutsideElements(Ascending(e.world.reg.SubsOf(n)), members);
    LoopNotifies(e1, n, subs, prior, next, members);
    assert SyncChange(e, members, (n, prior, next)) == Notified(e1, n, subs, prior, next) by { hide Notified, OutsideOf, Ascending; }
    hide Notified, OutsideOf, Ascending, NotifiedBy, SyncChange;
    SameNotified(e, e1, Notified(e1, n, subs, prior, next), n, members);
  }

  ghost predicate PartHanded(e: EngineState, r: Region, c0: seq<T>, c1: seq<T>, i: nat)
    requires r.Shaped() && r.Fits(|c0|) && |c0| == |c1| && i <= r.Rows()
  {
    Notifying(e, SyncChanges(e, r.members, Changes(r, c0, c1, i)), ChangedMembers(r, c0, c1, i), r.members)
  }

  lemma ChangedNext(r: Region, c0: seq<T>, c1: seq<T>, i: nat)
    requires r.Shaped() && r.Fits(|c0|) && |c0| == |c1| && i < r.Rows() && Distinct(r.members)
    ensures r.members[i] !in ChangedMembers(r, c0, c1, i)
    ensures ChangedMembers(r, c0, c1, i + 1) ==
      ChangedMembers(r, c0, c1, i) + (if c0[r.outputs[i]] != c1[r.outputs[i]] then {r.members[i]} else {})
  {}

  lemma PartIs(e: EngineState, r: Region, c0: seq<T>, c1: seq<T>, i: nat, out: EngineState, from: set<Uid>)
    requires r.Shaped() && r.Fits(|c0|) && |c0| == |c1| && i <= r.Rows()
    requires out == SyncChanges(e, r.members, Changes(r, c0, c1, i)) && from == ChangedMembers(r, c0, c1, i)
    ensures PartHanded(e, r, c0, c1, i) <==> Notifying(e, out, from, r.members)
  {
    hide Notifying, SyncChanges, Changes, ChangedMembers, Region.Fits, Region.Shaped;
  }

  lemma PartHandedNext(e: EngineState, r: Region, c0: seq<T>, c1: seq<T>, i: nat)
    requires r.Shaped() && r.Fits(|c0|) && |c0| == |c1| && i < r.Rows() && Distinct(r.members) && PartHanded(e, r, c0, c1, i)
    ensures PartHanded(e, r, c0, c1, i + 1)
  {
    var before, after := SyncChanges(e, r.members, Changes(r, c0, c1, i)), SyncChanges(e, r.members, Changes(r, c0, c1, i + 1));
    var from, more, n, d := ChangedMembers(r, c0, c1, i), ChangedMembers(r, c0, c1, i + 1), r.members[i], r.outputs[i];
    hide Notifying, SyncChange, SyncChanges, Changes, ChangedMembers, PartHanded, CsrShaped, Distinct;
    SyncChangesNext(e, r, c0, c1, i + 1);
    ChangedNext(r, c0, c1, i);
    PartIs(e, r, c0, c1, i, before, from);
    PartIs(e, r, c0, c1, i + 1, after, more);
    assert more == from + (if c0[d] != c1[d] then {n} else {});
    OneHanded(e, before, after, from, r.members, n, c0[d], c1[d]);
  }

  lemma OneHanded(e: EngineState, before: EngineState, after: EngineState, from: set<Uid>, members: seq<Uid>, n: Uid, prior: T, next: T)
    requires Notifying(e, before, from, members) && n !in from
    requires after == if prior != next then SyncChange(before, members, (n, prior, next)) else before
    ensures Notifying(e, after, from + (if prior != next then {n} else {}), members)
  {
    hide *;
    if prior != next {
      SyncChangeNotifies(before, members, n, prior, next);
      NotifyingNext(e, before, after, from, members, n);
    } else {
      assert from + {} == from;
    }
  }

  lemma SyncHandsOver(e: EngineState, r: Region, c0: seq<T>, c1: seq<T>)
    requires r.Shaped() && r.Fits(|c0|) && |c0| == |c1| && Distinct(r.members)
    ensures PartHanded(e, r, c0, c1, r.Rows())
  {
    NotifyingNone(e, r.members);
    assert Changes(r, c0, c1, 0) == [] && ChangedMembers(r, c0, c1, 0) == {} && SyncChanges(e, r.members, []) == e;
    assert PartHanded(e, r, c0, c1, 0);
    hide PartHanded, Changes, SyncChanges, ChangedMembers, Region.Fits;
    for i := 0 to r.Rows()
      invariant PartHanded(e, r, c0, c1, i)
    {
      PartHandedNext(e, r, c0, c1, i);
    }
  }

  lemma MembersDistinct(w: World, r: Region)
    requires Placed(w, r)
    ensures Distinct(r.members)
  {
    forall i, j | 0 <= i < j < |r.members| ensures r.members[i] != r.members[j] { assert r.outputs[i] != r.outputs[j]; }
  }

  /** A region's run hands to the warm tier exactly the pushes of the subscribers outside the region that hear of a member
      whose slot it changed; the region's own members are not pushed. */
  lemma RunHandsOver(e: EngineState, root: Uid)
    requires Inv(e) && root in e.cache.regions && e.world.Wf() && CacheRunnable(e)
    ensures var r, c0, c1 := e.cache.regions[root], e.world.store.cache, RunRegion(e, root).world.store.cache;
      r.Shaped() && r.Fits(|c0|) && |c1| == |c0| && Notifying(e, RunRegion(e, root), ChangedMembers(r, c0, c1, r.Rows()), r.members)
  {
    var r, c0 := e.cache.regions[root], e.world.store.cache;
    var c1, e1 := IncEval(r, c0, e.dirtySlots), Ran(e, r);
    assert Placed(e.world, r);
    MembersDistinct(e.world, r);
    SyncHandsOver(e1, r, c0, c1);
    SyncKeeps(e1, r.members, ChangedBy(e, r));
    RanQueues(e, r);
    hide Inv, CacheRunnable, Placed, IncEval, Ran, SyncChanges, Notifying, ChangedMembers, Region.Fits, Region.Indexed;
    NotifyingFrom(e, e1, RunRegion(e, root), ChangedMembers(r, c0, c1, r.Rows()), r.members);
  }

  lemma RanQueues(e: EngineState, r: Region)
    requires r.Runnable(|e.world.store.cache|)
    ensures var out := Ran(e, r);
      && out.world.reg == e.world.reg && out.items == e.items && out.now == e.now
      && out.world.store.cache == IncEval(r, e.world.store.cache, e.dirtySlots)
  {
    hide IncEval, Redirtied, MarkHandled;
  }

  /** The same from a state with the same registry, queue and clock. */
  lemma NotifyingFrom(e: EngineState, e1: EngineState, out: EngineState, from: set<Uid>, skip: seq<Uid>)
    requires Notifying(e1, out, from, skip) && e1.world.reg == e.world.reg && e1.items == e.items && e1.now == e.now
    ensures Notifying(e, out, from, skip)
  {
    forall n, s ensures HearsOf(e, n, s) == HearsOf(e1, n, s) { hide LetThrough; }
    forall s ensures Hears(e, from, skip, s) == Hears(e1, from, skip, s) { hide HearsOf; }
    hide Hears, SameOutside;
  }

  // ---- a resolved section ------------------------------------------------------------------------------

  lemma ResolveOneNotifies(e: EngineState, id: Uid, v: T)
    requires e.world.Wf() && id in e.world.nodes && e.world.nodes[id].value == Zero
    ensures NotifiedBy(e, ResolveOne(e, id, v), id, [])
  {
    var w, subs := e.world.Put(id, v), Ascending(e.world.reg.SubsOf(id));
    var a := Acc(w.reg, [], [], NO_STATS);
    AscendingElements(e.world.reg.SubsOf(id));
    AscendingDistinct(e.world.reg.SubsOf(id));
    PushSubsResult(a, id, subs, WriteCtx(e.now));
    hide PushSubs, Ascending, Accepted, NotifiedBy, PushedTo;
    PushedBy(e, ResolveOne(e, id, v), id, subs, [], a, PushSubs(a, id, subs, WriteCtx(e.now)));
  }

  function ZeroAmong(w: World, ids: seq<Uid>): set<Uid> { set n | n in ids && n in w.nodes && w.nodes[n].value == Zero }

  lemma {:induction false} ResolveAllNotifies(e: EngineState, ids: seq<Uid>, v: T)
    requires e.world.Wf() && Distinct(ids)
    ensures Notifying(e, ResolveAll(e, ids, v), ZeroAmong(e.world, ids), [])
    ensures forall n :: n in e.world.nodes && n !in ids ==> n in ResolveAll(e, ids, v).world.nodes && ResolveAll(e, ids, v).world.nodes[n] == e.world.nodes[n]
    ensures ResolveAll(e, ids, v).world.nodes.Keys == e.world.nodes.Keys
    decreases |ids|
  {
    if ids == [] {
      NotifyingNone(e, []);
      assert ZeroAmong(e.world, []) == {};
    } else {
      var front, last := ids[..|ids| - 1], ids[|ids| - 1];
      var before := ResolveAll(e, front, v);
      LastIsFresh(ids);
      assert ids == front + [last];
      ResolveAllNotifies(e, front, v);
      ResolveNext(e, before, front, last, v);
      assert ResolveAll(e, ids, v) == ResolveOne(before, last, v);
    }
    hide Notifying, ResolveOne, ResolveAll;
  }

  lemma ResolveNext(e: EngineState, before: EngineState, front: seq<Uid>, last: Uid, v: T)
    requires before.world.Wf() && last !in front && Notifying(e, before, ZeroAmong(e.world, front), [])
    requires before.world.nodes.Keys == e.world.nodes.Keys
    requires forall n :: n in e.world.nodes && n !in front ==> before.world.nodes[n] == e.world.nodes[n]
    ensures Notifying(e, ResolveOne(before, last, v), ZeroAmong(e.world, front + [last]), [])
    ensures var w := ResolveOne(before, last, v).world;
      w.nodes.Keys == e.world.nodes.Keys && forall n :: n in e.world.nodes && n !in front + [last] ==> w.nodes[n] == e.world.nodes[n]
  {
    if last in e.world.nodes && e.world.nodes[last].value == Zero {
      ResolveOneNotifies(before, last, v);
      assert ZeroAmong(e.world, front + [last]) == ZeroAmong(e.world, front) + {last};
      hide ResolveOne, NotifiedBy, Notifying, ZeroAmong;
      NotifyingNext(e, before, ResolveOne(before, last, v), ZeroAmong(e.world, front), [], last);
      ResolvedNodes(before, last, v);
    } else {
      assert ZeroAmong(e.world, front + [last]) == ZeroAmong(e.world, front);
      hide Notifying;
    }
  }

  lemma ResolvedNodes(e: EngineState, id: Uid, v: T)
    requires e.world.Wf()
    ensures var w := ResolveOne(e, id, v).world; w.nodes.Keys == e.world.nodes.Keys && forall n :: n in e.world.nodes && n != id ==> w.nodes[n] == e.world.nodes[n]
  {
    hide PushSubs;
  }

  /** An accepted stabilisation hands over exactly the pushes of those who hear of a member it resolved. */
  lemma ResolutionHandsOver(e: EngineState, seeds: seq<Uid>, members: set<Uid>, v: T)
    requires e.world.Wf() && seeds != []
    ensures var out := Stabilise(e, seeds, Stabilized(members, Settled(Some(v))));
      Notifying(e, out.(now := e.now), ZeroAmong(e.world, Ascending(members)), [])
  {
    AscendingDistinct(members);
    ResolveAllNotifies(e, Ascending(members), v);
    hide Notifying, ResolveAll, ZeroAmong, Ascending;
  }

  // ---- whose pushes the warm tier skips -------------------------------------------------------------------

  ghost predicate SlotOfMember(idx: map<Uid, nat>, members: seq<Uid>, d: nat) { exists m :: m in members && m in idx && idx[m] == d }

  lemma {:induction false} MarkHandledExactly(handled: seq<Word>, idx: map<Uid, nat>, members: seq<Uid>, d: nat)
    requires d / WORD < |handled| && forall m :: m in members && m in idx ==> idx[m] / WORD < |handled|
    ensures Test(MarkHandled(handled, idx, members), d) <==> Test(handled, d) || SlotOfMember(idx, members, d)
    decreases |members|
  {
    if members != [] {
      var front, last := members[..|members| - 1], members[|members| - 1];
      var before := MarkHandled(handled, idx, front);
      assert members == front + [last];
      assert forall m :: m in members <==> m in front || m == last;
      MarkHandledExactly(handled, idx, front, d);
      MarkHandledLength(handled, idx, front);
      if last in idx { TestSet(before, idx[last], d); }
    }
  }

  /** A slot is marked once the listed regions have run: it was, or it is that of a member of one of them. */
  ghost predicate MarkedBy(e: EngineState, roots: seq<Uid>, d: nat) {
    Test(e.handled, d) || exists root :: root in roots && root in e.cache.regions && SlotOfMember(e.world.store.idx, e.cache.regions[root].members, d)
  }

  lemma MarkedNext(e: EngineState, roots: seq<Uid>, root: Uid, d: nat)
    ensures MarkedBy(e, roots + [root], d) <==>
      MarkedBy(e, roots, d) || (root in e.cache.regions && SlotOfMember(e.world.store.idx, e.cache.regions[root].members, d))
  {
    assert forall r :: r in roots + [root] <==> r in roots || r == root;
    hide SlotOfMember;
  }

  lemma {:induction false} SyncLeavesHandled(e: EngineState, members: seq<Uid>, changed: seq<(Uid, T, T)>)
    ensures SyncChanges(e, members, changed).handled == e.handled
    decreases |changed|
  {
    if changed != [] { SyncLeavesHandled(e, members, changed[..|changed| - 1]); }
    hide Notified, OutsideOf;
    NotifiedLeavesHandled();
  }

  lemma NotifiedLeavesHandled()
    ensures forall e, node, subs, prior, next :: Notified(e, node, subs, prior, next).handled == e.handled
  {
    hide BumpAndPush;
  }

  lemma RanHandled(e: EngineState, root: Uid)
    requires root in e.cache.regions && e.world.Wf() && CacheRunnable(e)
    ensures RunRegion(e, root).handled == MarkHandled(e.handled, e.world.store.idx, e.cache.regions[root].members)
  {
    var r := e.cache.regions[root];
    SyncLeavesHandled(Ran(e, r), r.members, ChangedBy(e, r));
    hide SyncChanges, IncEval, Redirtied, MarkHandled;
  }

  lemma MemberWords(e: EngineState, root: Uid)
    requires Inv(e) && root in e.cache.regions
    ensures forall m :: m in e.cache.regions[root].members && m in e.world.store.idx ==> e.world.store.idx[m] / WORD < |e.handled|
  {
    var r := e.cache.regions[root];
    assert Placed(e.world, r);
    forall m | m in r.members && m in e.world.store.idx ensures e.world.store.idx[m] / WORD < |e.handled| {
      var i :| 0 <= i < r.Rows() && r.members[i] == m;
      assert r.outputs[i] < |e.world.store.cache|;
    }
  }

  lemma RunHandled(e: EngineState, root: Uid, d: nat)
    requires Inv(e) && d < |e.world.store.cache| && e.world.Wf() && CacheRunnable(e)
    ensures Test(RunRegion(e, root).handled, d) <==>
      Test(e.handled, d) || (root in e.cache.regions && SlotOfMember(e.world.store.idx, e.cache.regions[root].members, d))
  {
    if root in e.cache.regions {
      assert d / WORD < |e.handled| by { hide Coherent, AllPlaced; }
      MemberWords(e, root);
      RanHandled(e, root);
      MarkHandledExactly(e.handled, e.world.store.idx, e.cache.regions[root].members, d);
    }
    hide Inv, CacheRunnable, RunRegion, MarkHandled, SlotOfMember, Test;
  }

  lemma {:induction false} RunsHandled(e: EngineState, roots: seq<Uid>, d: nat)
    requires Inv(e) && d < |e.world.store.cache| && e.world.Wf() && CacheRunnable(e)
    ensures Test(RunRegions(e, roots).handled, d) <==> MarkedBy(e, roots, d)
    decreases |roots|
  {
    if roots == [] {
    } else {
      var front, last := roots[..|roots| - 1], roots[|roots| - 1];
      var before := RunRegions(e, front);
      assert roots == front + [last];
      RunsHandled(e, front, d);
      RunRegionsKeep(e, front);
      InvReady(before);
      RunSame(e, before, front);
      RunHandled(before, last, d);
      MarkedNext(e, front, last, d);
      assert RunRegions(e, roots) == RunRegion(before, last);
    }
    hide Inv, Kept, RunRegion, RunRegions, SlotOfMember, Test, CacheRunnable;
  }

  lemma RunSame(e: EngineState, before: EngineState, roots: seq<Uid>)
    requires Kept(e, before)
    ensures Inv(before) && before.cache.regions == e.cache.regions && before.world.store.idx == e.world.store.idx
    ensures |before.world.store.cache| == |e.world.store.cache|
  {
    hide Inv;
  }

  /** With clear bits before the call, the warm drain skips exactly the members of the regions that ran: a node of no such
      region is pushed as ever. */
  lemma OnlyMembersSkipped(e: EngineState, op: IsaOp, ch: Choices, n: Uid)
    requires Inv(e) && Drains(e.(events := []), op) && e.handled == Cleared(|e.handled|) && n in e.world.nodes
    ensures var s := Warm(e, op, ch);
      Handled(s.world, s.handled, n) <==> exists root :: root in ch.roots && root in e.cache.regions && n in e.cache.regions[root].members
  {
    LoadedKeeps(e, op);
    var e1 := Loaded(e.(events := []), op);
    var e2 := e1.(cache := e1.cache.(dirty := {}));
    LoadedSame(e, op);
    OnlyQueues(e1, e2);
    InvReady(e2);
    NodeSlot(e2, n);
    RunsHandled(e2, ch.roots, e2.world.store.idx[n]);
    RunRegionsKeep(e2, ch.roots);
    RunSame(e2, RunRegions(e2, ch.roots), ch.roots);
    ClearSlot(|e.handled|, e2.world.store.idx[n]);
    OwnSlot(e2, ch.roots, n);
    hide Inv, Kept, Loaded, RunRegions, CacheRunnable, MarkedBy, Test, Drains;
  }

  lemma NodeSlot(e: EngineState, n: Uid)
    requires Inv(e) && n in e.world.nodes
    ensures n in e.world.store.idx && e.world.store.idx[n] < |e.world.store.cache|
  {}

  lemma ClearSlot(k: nat, d: nat)
    ensures !Test(Cleared(k), d)
  {}

  /** With one slot a node, the node whose slot a member has is the member. */
  lemma OwnSlot(e: EngineState, roots: seq<Uid>, n: Uid)
    requires Inv(e) && n in e.world.store.idx && !Test(e.handled, e.world.store.idx[n])
    ensures MarkedBy(e, roots, e.world.store.idx[n]) <==> exists root :: root in roots && root in e.cache.regions && n in e.cache.regions[root].members
  {
    assert forall m :: m in e.world.store.idx && e.world.store.idx[m] == e.world.store.idx[n] ==> m == n;
    forall root | root in e.cache.regions
      ensures SlotOfMember(e.world.store.idx, e.cache.regions[root].members, e.world.store.idx[n]) <==> n in e.cache.regions[root].members
    {}
    hide SlotOfMember, Test, Inv;
  }

  /** The same nodes, slots, artifacts and handled bits. */
  ghost predicate SameTier(e: EngineState, e1: EngineState) {
    && e1.cache.regions == e.cache.regions && e1.handled == e.handled
    && e1.world.nodes.Keys == e.world.nodes.Keys && e1.world.store.idx == e.world.store.idx
  }

  lemma NotifiedSame(e: EngineState, n: Uid, subs: seq<Uid>, prior: T, next: T)
    ensures SameTier(e, Notified(e, n, subs, prior, next))
  {
    hide BumpAndPush;
  }

  lemma WrittenSame(e: EngineState, n: Uid, v: T)
    requires e.world.Wf() && n in e.world.nodes
    ensures SameTier(e, WriteValue(e, n, v))
  {
    var e2 := PutValue(e, n, v);
    NotifiedSame(e2, n, Ascending(e2.world.reg.SubsOf(n)), e.world.nodes[n].value, v);
    assert SameTier(e, e2);
    hide Notified, PutValue, Ascending;
  }

  lemma ReflectedSame(e: EngineState, n: Uid)
    requires e.world.Wf() && n in e.world.nodes
    ensures SameTier(e, ReflectValue(e, n))
  {
    var e2 := PutReflected(e, n);
    NotifiedSame(e2, n, Ascending(e2.world.reg.SubsOf(n)), e.world.nodes[n].value, MvNeg(e.world.nodes[n].value));
    assert SameTier(e, e2);
    hide Notified, PutReflected, Ascending;
  }

  lemma LoadedSame(e: EngineState, op: IsaOp)
    requires Drains(e.(events := []), op) && e.(events := []).world.Wf()
    ensures SameTier(e, Loaded(e.(events := []), op))
  {
    var e0 := e.(events := []);
    match op {
      case SetValue(node, v) => WrittenSame(e0, node, v);
      case Reflect(node) => ReflectedSame(e0.Log(Attribute), node);
      case _ =>
    }
    hide WriteValue, ReflectValue;
  }
}
