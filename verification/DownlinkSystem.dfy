/** All downlink contexts of the gateway over the one slab, and what every run of them keeps. */
module DownlinkSystem {
  import opened Bytes
  import opened DownlinkModel
  import opened DownlinkParties

  /** Contexts are kept in the order they were opened, also after they were closed. */
  datatype System = System(free: seq<nat>, ctxs: seq<Ctx>)

  datatype SysEvent = OpenEv | At(i: nat, e: Event)

  const BOOT := System(Numbers(NUM_BLOCKS), [])

  predicate Allowed(s: System, e: SysEvent) {
    e.At? ==> e.i < |s.ctxs| && Possible(s.ctxs[e.i], e.e)
  }

  function SysStep(s: System, e: SysEvent): System
    requires Allowed(s, e)
  {
    match e
    case OpenEv => s.(ctxs := s.ctxs + [NEW_CTX])
    case At(i, e) =>
      var (free, c) := Step(s.free, s.ctxs[i], e);
      System(free, s.ctxs[i := c])
  }

  function Run(es: seq<SysEvent>): Option<System> {
    if es == [] then Some(BOOT)
    else
      var before, e := Run(es[..|es| - 1]), es[|es| - 1];
      if before.Some? && Allowed(before.value, e) then Some(SysStep(before.value, e)) else None
  }

  /** The blocks held by any context. */
  function AllIds(ctxs: seq<Ctx>): multiset<nat> {
    if ctxs == [] then multiset{} else Ids(ctxs[0].down.held) + AllIds(ctxs[1..])
  }

  function TotalHeld(ctxs: seq<Ctx>): nat {
    if ctxs == [] then 0 else |ctxs[0].down.held| + TotalHeld(ctxs[1..])
  }

  lemma {:induction false} IdsCount(cells: seq<Cell>)
    ensures |Ids(cells)| == |cells|
  {
    if cells != [] {
      IdsCount(cells[1..]);
    }
  }

  lemma {:induction false} AllIdsCount(ctxs: seq<Ctx>)
    ensures |AllIds(ctxs)| == TotalHeld(ctxs)
  {
    if ctxs != [] {
      IdsCount(ctxs[0].down.held);
      AllIdsCount(ctxs[1..]);
    }
  }

  lemma Regroup(a: multiset<nat>, b: multiset<nat>, c: multiset<nat>)
    ensures (a + b) + c == a + (b + c)
  {
  }

  /** Blocks moved between the slab and one context leave the overall count alone. */
  lemma Balance(free: multiset<nat>, all: multiset<nat>, own: multiset<nat>,
                free': multiset<nat>, all': multiset<nat>, own': multiset<nat>)
    requires free' + own' == free + own && all' + own == all + own'
    ensures free' + all' == free + all
  {
    forall k ensures (free' + all')[k] == (free + all)[k] {
      assert (free' + own')[k] == (free + own)[k];
      assert (all' + own)[k] == (all + own')[k];
    }
  }

  lemma {:induction false} AllIdsUpdate(ctxs: seq<Ctx>, i: nat, c: Ctx)
    requires i < |ctxs|
    ensures AllIds(ctxs[i := c]) + Ids(ctxs[i].down.held) == AllIds(ctxs) + Ids(c.down.held)
  {
    if i == 0 {
      assert ctxs[0 := c][1..] == ctxs[1..];
    } else {
      assert ctxs[i := c][0] == ctxs[0] && ctxs[i := c][1..] == ctxs[1..][i - 1 := c];
      AllIdsUpdate(ctxs[1..], i - 1, c);
      Regroup(Ids(ctxs[0].down.held), AllIds(ctxs[1..][i - 1 := c]), Ids(ctxs[i].down.held));
      Regroup(Ids(ctxs[0].down.held), AllIds(ctxs[1..]), Ids(c.down.held));
    }
  }

  lemma {:induction false} AllIdsAppend(ctxs: seq<Ctx>)
    ensures AllIds(ctxs + [NEW_CTX]) == AllIds(ctxs)
  {
    if ctxs == [] {
      assert [NEW_CTX][1..] == [];
    } else {
      assert (ctxs + [NEW_CTX])[0] == ctxs[0] && (ctxs + [NEW_CTX])[1..] == ctxs[1..] + [NEW_CTX];
      AllIdsAppend(ctxs[1..]);
    }
  }

  lemma OneMore(s: seq<nat>, n: nat)
    ensures multiset(s + [n]) == multiset(s) + multiset{n}
  {
  }

  lemma {:induction false} NumbersOnce(n: nat)
    ensures forall k: nat :: multiset(Numbers(n))[k] == if k < n then 1 else 0
  {
    if n > 0 {
      NumbersOnce(n - 1);
      OneMore(Numbers(n - 1), n - 1);
    }
  }

  ghost predicate SysInv(s: System) {
    && (forall i :: 0 <= i < |s.ctxs| ==> CtxInv(s.ctxs[i]))
    && multiset(s.free) + AllIds(s.ctxs) == multiset(Numbers(NUM_BLOCKS))
  }

  lemma BlocksStay(s: System, i: nat, e: Event)
    requires SysInv(s) && i < |s.ctxs| && Possible(s.ctxs[i], e)
    ensures var (free, c) := Step(s.free, s.ctxs[i], e);
            multiset(free) + AllIds(s.ctxs[i := c]) == multiset(s.free) + AllIds(s.ctxs)
  {
    var (free, c) := Step(s.free, s.ctxs[i], e);
    StepKeeps(s.free, s.ctxs[i], e);
    AllIdsUpdate(s.ctxs, i, c);
    Balance(multiset(s.free), AllIds(s.ctxs), Ids(s.ctxs[i].down.held),
            multiset(free), AllIds(s.ctxs[i := c]), Ids(c.down.held));
  }

  lemma AtKeeps(s: System, i: nat, e: Event)
    requires SysInv(s) && i < |s.ctxs| && Possible(s.ctxs[i], e)
    ensures SysInv(SysStep(s, At(i, e)))
  {
    BlocksStay(s, i, e);
    StepKeeps(s.free, s.ctxs[i], e);
    var c := Step(s.free, s.ctxs[i], e).1;
    var ctxs := s.ctxs[i := c];
    forall j | 0 <= j < |ctxs| ensures CtxInv(ctxs[j]) {
      assert ctxs[j] == if j == i then c else s.ctxs[j];
    }
  }

  lemma SysStepKeeps(s: System, e: SysEvent)
    requires SysInv(s) && Allowed(s, e)
    ensures SysInv(SysStep(s, e))
  {
    match e
    case OpenEv => AllIdsAppend(s.ctxs);
    case At(i, ev) => AtKeeps(s, i, ev);
  }

  lemma AddMore(a: multiset<nat>, b: multiset<nat>, c: multiset<nat>)
    requires a <= b
    ensures a <= c + b && c + a <= c + b
  {
  }

  lemma {:induction false} IdsPart(ctxs: seq<Ctx>, i: nat)
    requires i < |ctxs|
    ensures Ids(ctxs[i].down.held) <= AllIds(ctxs)
  {
    if i > 0 {
      IdsPart(ctxs[1..], i - 1);
      AddMore(Ids(ctxs[i].down.held), AllIds(ctxs[1..]), Ids(ctxs[0].down.held));
    }
  }

  lemma {:induction false} IdsOfTwo(ctxs: seq<Ctx>, i: nat, j: nat)
    requires i < j < |ctxs|
    ensures Ids(ctxs[i].down.held) + Ids(ctxs[j].down.held) <= AllIds(ctxs)
  {
    var first, a, b := Ids(ctxs[0].down.held), Ids(ctxs[i].down.held), Ids(ctxs[j].down.held);
    assert AllIds(ctxs) == first + AllIds(ctxs[1..]);
    if i == 0 {
      IdsPart(ctxs[1..], j - 1);
      AddMore(b, AllIds(ctxs[1..]), first);
    } else {
      IdsOfTwo(ctxs[1..], i - 1, j - 1);
      AddMore(a + b, AllIds(ctxs[1..]), first);
    }
  }

  lemma CountOnce(a: multiset<nat>, b: multiset<nat>, c: multiset<nat>, n: nat, k: nat)
    requires b <= c && a + c == multiset(Numbers(n)) && k in b
    ensures k !in a && b[k] == 1
  {
    NumbersOnce(n);
    assert (a + c)[k] == multiset(Numbers(n))[k];
  }

  /** A block held by one context is neither free nor held by another. */
  lemma HeldApart(s: System, i: nat, j: nat, k: nat)
    requires SysInv(s) && i < |s.ctxs| && j < |s.ctxs| && i != j && k in Ids(s.ctxs[i].down.held)
    ensures k !in Ids(s.ctxs[j].down.held) && k !in s.free
  {
    var a, b := Ids(s.ctxs[i].down.held), Ids(s.ctxs[j].down.held);
    IdsOfTwo(s.ctxs, if i < j then i else j, if i < j then j else i);
    assert a + b == b + a;
    CountOnce(multiset(s.free), a + b, AllIds(s.ctxs), NUM_BLOCKS, k);
  }

  /** What a step frees was held by the context it is about. */
  lemma FreesOwn(s: System, i: nat, e: Event, k: nat)
    requires SysInv(s) && i < |s.ctxs| && Possible(s.ctxs[i], e) && k in Step(s.free, s.ctxs[i], e).0
    ensures k in s.free || k in Ids(s.ctxs[i].down.held)
  {
    StepKeeps(s.free, s.ctxs[i], e);
    var (free, c) := Step(s.free, s.ctxs[i], e);
    assert k in multiset(free) + Ids(c.down.held);
  }

  /** A step that looks at its context finds it not closed. */
  lemma StepFindsOpen(s: System, i: nat, e: Event)
    requires SysInv(s) && i < |s.ctxs| && Possible(s.ctxs[i], e) && e != EndEv(true)
    ensures s.ctxs[i].closes == 0
  {
    StepKeeps(s.free, s.ctxs[i], e);
  }

  lemma {:induction false} RunKeeps(es: seq<SysEvent>)
    requires Run(es).Some?
    ensures SysInv(Run(es).value)
  {
    if es != [] {
      RunKeeps(es[..|es| - 1]);
      SysStepKeeps(Run(es[..|es| - 1]).value, es[|es| - 1]);
    }
  }

  lemma {:induction false} RunPrefix(es: seq<SysEvent>, n: nat)
    requires Run(es).Some? && n <= |es|
    ensures Run(es[..n]).Some?
    decreases |es|
  {
    if n == |es| {
      assert es[..n] == es;
    } else {
      assert es[..|es| - 1][..n] == es[..n];
      RunPrefix(es[..|es| - 1], n);
    }
  }

  // ---------------------------------------------------------------- what every run guarantees

  /** The slab loses no block and gives none to two owners, over any number of downlinks. */
  lemma SlabConserved(es: seq<SysEvent>)
    requires Run(es).Some?
    ensures var s := Run(es).value;
            && |s.free| + TotalHeld(s.ctxs) == NUM_BLOCKS
            && forall id: nat :: (multiset(s.free) + AllIds(s.ctxs))[id] == if id < NUM_BLOCKS then 1 else 0
  {
    RunKeeps(es);
    var s := Run(es).value;
    NumbersOnce(NUM_BLOCKS);
    NumbersInOrder(NUM_BLOCKS);
    AllIdsCount(s.ctxs);
    assert |multiset(s.free)| == |s.free|;
    assert |multiset(s.free) + AllIds(s.ctxs)| == |multiset(s.free)| + |AllIds(s.ctxs)|;
  }

  /** Every byte accepted from the cloud is returned to the transport once, in order, or still held; a
      downlink reported complete has returned them all. */
  lemma StreamConserved(es: seq<SysEvent>, i: nat)
    requires Run(es).Some? && i < |Run(es).value.ctxs|
    ensures var d := Run(es).value.ctxs[i].down;
            && (Run(es).value.ctxs[i].closes == 0 ==> d.received == d.returned + Content(d.held))
            && (d.complete ==> d.returned == d.received)
  {
    RunKeeps(es);
  }

  /** Step `m` of the run brings a block for context `i`, which is free to take it. */
  predicate TakesAt(es: seq<SysEvent>, m: nat, i: nat)
    requires m < |es|
  {
    && BlockAt(es, m, i)
    && !Run(es[..m]).value.ctxs[i].down.aborted && Run(es[..m]).value.free != []
  }

  predicate BlockAt(es: seq<SysEvent>, m: nat, i: nat)
    requires m < |es|
  {
    && es[m].At? && es[m].i == i && es[m].e.BlockEv?
    && Run(es[..m]).Some? && i < |Run(es[..m]).value.ctxs|
  }

  /** The data of all blocks context `i` was free to take. */
  function Taken(es: seq<SysEvent>, i: nat): seq<byte> {
    if es == [] then []
    else
      var n := |es| - 1;
      Taken(es[..n], i) + if TakesAt(es, n, i) then es[n].e.data else []
  }

  /** Step `m` of the run brings a block for context `i`, which is aborted or finds the slab empty. */
  predicate RefusesAt(es: seq<SysEvent>, m: nat, i: nat)
    requires m < |es|
  {
    BlockAt(es, m, i) && !TakesAt(es, m, i)
  }

  predicate TakesLastAt(es: seq<SysEvent>, m: nat, i: nat)
    requires m < |es|
  {
    TakesAt(es, m, i) && es[m].e.last
  }

  lemma ReadReceivesNothing(free: seq<nat>, d: Down, want: nat)
    ensures GetData(free, d, want).down.received == d.received
  {
  }

  /** A context after a step that has brought it a block or not, and what that has marked. */
  predicate Marked(free: seq<nat>, c: Ctx, e: Event, c': Ctx) {
    var takes := e.BlockEv? && !c.down.aborted && free != [];
    && c'.down.received == c.down.received + (if takes then e.data else [])
    && (c'.refused <==> c.refused || (e.BlockEv? && !takes))
    && (c'.lastTaken <==> c.lastTaken || (takes && e.last))
  }

  lemma BlockMarks(free: seq<nat>, c: Ctx, data: seq<byte>, last: bool)
    ensures Marked(free, c, BlockEv(data, last), Step(free, c, BlockEv(data, last)).1)
  {
    BlockAnswers(free, c.down, data, last);
    assert c.down.received + [] == c.down.received;
  }

  lemma EndKeepsMarks(free: seq<nat>, c: Ctx, ok: bool)
    ensures var c' := EndCtx(free, c, ok).1;
            c'.down.received == c.down.received && c'.refused == c.refused && c'.lastTaken == c.lastTaken
  {
  }

  lemma OthersKeepMarks(free: seq<nat>, c: Ctx, e: Event)
    requires !e.BlockEv?
    ensures var c' := Step(free, c, e).1;
            c'.down.received == c.down.received && c'.refused == c.refused && c'.lastTaken == c.lastTaken
  {
    match e
    case EndEv(ok) => EndKeepsMarks(free, c, ok);
    case ReadEv(want) => ReadReceivesNothing(free, c.down, want);
    case CompleteEv =>
    case AbortEv =>
  }

  lemma OthersMarkNothing(free: seq<nat>, c: Ctx, e: Event)
    requires !e.BlockEv?
    ensures Marked(free, c, e, Step(free, c, e).1)
  {
    OthersKeepMarks(free, c, e);
    assert c.down.received + [] == c.down.received;
  }

  lemma StepMarks(free: seq<nat>, c: Ctx, e: Event)
    ensures Marked(free, c, e, Step(free, c, e).1)
  {
    if e.BlockEv? {
      BlockMarks(free, c, e.data, e.last);
    } else {
      OthersMarkNothing(free, c, e);
    }
  }

  lemma MarksStep(es: seq<SysEvent>, n: nat, i: nat)
    requires Run(es).Some? && n + 1 == |es| && i < |Run(es).value.ctxs|
    requires i < |Run(es[..n]).value.ctxs|
    ensures var c, c' := Run(es[..n]).value.ctxs[i], Run(es).value.ctxs[i];
            && c'.down.received == c.down.received + (if TakesAt(es, n, i) then es[n].e.data else [])
            && (c'.refused <==> c.refused || RefusesAt(es, n, i))
            && (c'.lastTaken <==> c.lastTaken || TakesLastAt(es, n, i))
  {
    var s := Run(es[..n]).value;
    if es[n].At? && es[n].i == i {
      StepMarks(s.free, s.ctxs[i], es[n].e);
    } else {
      assert s.ctxs[i].down.received + [] == s.ctxs[i].down.received;
    }
  }

  /** Nothing happens to a context before it is opened. */
  lemma {:induction false} NotBefore(es: seq<SysEvent>, i: nat)
    requires Run(es).Some? && i >= |Run(es).value.ctxs|
    ensures Taken(es, i) == [] && forall m :: 0 <= m < |es| ==> !BlockAt(es, m, i)
  {
    if es != [] {
      var n := |es| - 1;
      NotBefore(es[..n], i);
      forall m | 0 <= m < n ensures !BlockAt(es, m, i) {
        assert es[..n][..m] == es[..m];
        assert !BlockAt(es[..n], m, i);
      }
    }
  }

  lemma SameMarks(es: seq<SysEvent>, n: nat, i: nat)
    requires n <= |es|
    ensures forall m :: 0 <= m < n ==> (RefusesAt(es[..n], m, i) <==> RefusesAt(es, m, i))
    ensures forall m :: 0 <= m < n ==> (TakesLastAt(es[..n], m, i) <==> TakesLastAt(es, m, i))
  {
    forall m | 0 <= m < n
      ensures RefusesAt(es[..n], m, i) <==> RefusesAt(es, m, i)
      ensures TakesLastAt(es[..n], m, i) <==> TakesLastAt(es, m, i) {
      assert es[..n][..m] == es[..m];
    }
  }

  /** What a context has received is the data of the blocks that found it not aborted and the slab not empty, in
      order; it has refused a block exactly if one found otherwise. */
  lemma {:induction false} ReceivedExactly(es: seq<SysEvent>, i: nat)
    requires Run(es).Some? && i < |Run(es).value.ctxs|
    ensures var c := Run(es).value.ctxs[i];
            && c.down.received == Taken(es, i)
            && (c.refused <==> exists m :: 0 <= m < |es| && RefusesAt(es, m, i))
            && (c.lastTaken <==> exists m :: 0 <= m < |es| && TakesLastAt(es, m, i))
  {
    var n := |es| - 1;
    SameMarks(es, n, i);
    if i < |Run(es[..n]).value.ctxs| {
      ReceivedExactly(es[..n], i);
      MarksStep(es, n, i);
    } else {
      NotBefore(es[..n], i);
      assert !BlockAt(es, n, i);
      assert Run(es).value.ctxs[i] == NEW_CTX;
    }
  }

  /** A transport that was told to wait has nothing to read and no error to learn of, and it is never told more
      often than it waited. */
  lemma WaitingFindsNothing(es: seq<SysEvent>, i: nat)
    requires Run(es).Some? && i < |Run(es).value.ctxs|
    ensures var d := Run(es).value.ctxs[i].down;
            && (d.waiting ==> d.held == [] && !d.coapError)
            && d.wakeups <= 1 + d.dryReads
  {
    RunKeeps(es);
  }

  /** There is something new for the transport: a block is accepted or an error reported. */
  predicate News(free: seq<nat>, c: Ctx, e: Event) {
    !c.down.aborted && ((e.BlockEv? && free != []) || e == EndEv(false))
  }

  /** A read that returns no byte and -EAGAIN. */
  predicate DryRead(free: seq<nat>, c: Ctx, e: Event) {
    e.ReadEv? && GetData(free, c.down, e.want).code == Again && GetData(free, c.down, e.want).out == []
  }

  lemma ReadWaits(free: seq<nat>, d: Down, want: nat)
    ensures var r := GetData(free, d, want);
            && r.down.wakeups == d.wakeups
            && (r.down.waiting <==> d.waiting || (r.code == Again && r.out == []))
  {
  }

  lemma StepWakes(free: seq<nat>, c: Ctx, e: Event)
    requires CtxInv(c) && Possible(c, e)
    ensures var d := Step(free, c, e).1.down;
            && d.wakeups == c.down.wakeups + (if c.down.waiting && News(free, c, e) then 1 else 0)
            && (d.waiting <==> (c.down.waiting && !News(free, c, e)) || DryRead(free, c, e))
  {
    if e.ReadEv? {
      ReadWaits(free, c.down, e.want);
    }
  }

  /** One step: data_available_cb is called, once, exactly by news for a transport that waits. It waits
      afterwards exactly if it waited and there was no news, or if it has just read in vain. */
  lemma WakesExactly(es: seq<SysEvent>, i: nat, e: Event)
    requires Run(es).Some? && i < |Run(es).value.ctxs| && Possible(Run(es).value.ctxs[i], e)
    ensures var s := Run(es).value;
            var c, d := s.ctxs[i], Step(s.free, s.ctxs[i], e).1.down;
            && d.wakeups == c.down.wakeups + (if c.down.waiting && News(s.free, c, e) then 1 else 0)
            && (d.waiting <==> (c.down.waiting && !News(s.free, c, e)) || DryRead(s.free, c, e))
  {
    RunKeeps(es);
    StepWakes(Run(es).value.free, Run(es).value.ctxs[i], e);
  }

  /** The successful end of a transfer finds nobody waiting: its last block has been accepted and woken whoever was. */
  lemma SuccessFindsNobodyWaiting(es: seq<SysEvent>, i: nat)
    requires Run(es).Some? && i < |Run(es).value.ctxs| && Possible(Run(es).value.ctxs[i], EndEv(true))
    ensures !Run(es).value.ctxs[i].down.waiting
  {
    RunKeeps(es);
  }

  /** Step `m` of the run brings news to context `i`. */
  predicate NewsAt(es: seq<SysEvent>, m: nat, i: nat)
    requires m < |es|
  {
    && es[m].At? && es[m].i == i && Run(es[..m]).Some? && i < |Run(es[..m]).value.ctxs|
    && News(Run(es[..m]).value.free, Run(es[..m]).value.ctxs[i], es[m].e)
  }

  /** Step `n` of the run is a read of context `i` in vain. */
  predicate DryReadAt(es: seq<SysEvent>, n: nat, i: nat)
    requires n < |es|
  {
    && es[n].At? && es[n].i == i && Run(es[..n]).Some? && i < |Run(es[..n]).value.ctxs|
    && DryRead(Run(es[..n]).value.free, Run(es[..n]).value.ctxs[i], es[n].e)
  }

  lemma OtherStepsWakeNobody(s: System, e: SysEvent, i: nat)
    requires SysInv(s) && Allowed(s, e) && i < |s.ctxs| && s.ctxs[i].down.waiting
    requires e.At? && e.i == i ==> !News(s.free, s.ctxs[i], e.e)
    ensures var d := SysStep(s, e).ctxs[i].down;
            d.waiting && d.wakeups == s.ctxs[i].down.wakeups
  {
    if e.At? && e.i == i {
      StepWakes(s.free, s.ctxs[i], e.e);
    }
  }

  /** After `k` steps context `i` has a waiting transport that was called `calls` times. */
  predicate WaitsAt(es: seq<SysEvent>, k: nat, i: nat, calls: nat)
    requires k <= |es|
  {
    && Run(es[..k]).Some? && i < |Run(es[..k]).value.ctxs|
    && Run(es[..k]).value.ctxs[i].down.waiting && Run(es[..k]).value.ctxs[i].down.wakeups == calls
  }

  lemma RunNext(es: seq<SysEvent>, k: nat)
    requires Run(es).Some? && k < |es|
    ensures Run(es[..k]).Some? && Allowed(Run(es[..k]).value, es[k])
    ensures Run(es[..k + 1]) == Some(SysStep(Run(es[..k]).value, es[k]))
  {
    RunPrefix(es, k + 1);
    assert es[..k + 1][..k] == es[..k];
  }

  lemma WaitsOneStep(es: seq<SysEvent>, k: nat, i: nat, calls: nat)
    requires Run(es).Some? && k < |es| && !NewsAt(es, k, i) && WaitsAt(es, k, i, calls)
    ensures WaitsAt(es, k + 1, i, calls)
  {
    var s, e := Run(es[..k]).value, es[k];
    RunNext(es, k);
    RunKeeps(es[..k]);
    assert e.At? && e.i == i ==> !News(s.free, s.ctxs[i], e.e);
    OtherStepsWakeNobody(s, e, i);
  }

  /** A transport that waits goes on waiting, and is not called, until there is news. */
  lemma {:induction false} WaitsUntilNews(es: seq<SysEvent>, n: nat, m: nat, i: nat, calls: nat)
    requires Run(es).Some? && n <= m <= |es| && WaitsAt(es, n, i, calls)
    requires forall k :: n <= k < m ==> !NewsAt(es, k, i)
    ensures WaitsAt(es, m, i, calls)
    decreases m
  {
    if n < m {
      WaitsUntilNews(es, n, m - 1, i, calls);
      WaitsOneStep(es, m - 1, i, calls);
    }
  }

  /** A read in vain, or the opening, leaves the transport waiting. */
  lemma WaitsFrom(es: seq<SysEvent>, n: nat, i: nat)
    requires Run(es).Some? && n < |es|
    requires DryReadAt(es, n, i) || (es[n] == OpenEv && Run(es[..n]).Some? && i == |Run(es[..n]).value.ctxs|)
    ensures Run(es[..n + 1]).Some? && i < |Run(es[..n + 1]).value.ctxs|
    ensures Run(es[..n + 1]).value.ctxs[i].down.waiting
  {
    RunPrefix(es, n + 1);
    assert es[..n + 1][..n] == es[..n];
    if es[n].At? {
      RunKeeps(es[..n]);
      StepWakes(Run(es[..n]).value.free, Run(es[..n]).value.ctxs[i], es[n].e);
    }
  }

  lemma NewsWakes(es: seq<SysEvent>, m: nat, i: nat, calls: nat)
    requires Run(es).Some? && m < |es| && NewsAt(es, m, i) && WaitsAt(es, m, i, calls)
    ensures Run(es[..m + 1]).Some? && i < |Run(es[..m + 1]).value.ctxs|
    ensures var d := Run(es[..m + 1]).value.ctxs[i].down; !d.waiting && d.wakeups == calls + 1
  {
    RunPrefix(es, m + 1);
    assert es[..m + 1][..m] == es[..m];
    RunKeeps(es[..m]);
    StepWakes(Run(es[..m]).value.free, Run(es[..m]).value.ctxs[i], es[m].e);
  }

  /** No wake-up is lost or doubled: after a read in vain the transport is not called before there is news, and
      the first news, whenever it comes, calls it once. So it is after the opening, when it waits from the start. */
  lemma NoLostWakeUp(es: seq<SysEvent>, n: nat, m: nat, i: nat)
    requires Run(es).Some? && n < m < |es|
    requires DryReadAt(es, n, i) || (es[n] == OpenEv && Run(es[..n]).Some? && i == |Run(es[..n]).value.ctxs|)
    requires NewsAt(es, m, i) && forall k :: n < k < m ==> !NewsAt(es, k, i)
    ensures Run(es[..n + 1]).Some? && i < |Run(es[..n + 1]).value.ctxs|
    ensures var calls := Run(es[..n + 1]).value.ctxs[i].down.wakeups;
            && (forall k :: n < k <= m ==> WaitsAt(es, k, i, calls))
            && Run(es[..m + 1]).Some? && i < |Run(es[..m + 1]).value.ctxs|
            && !Run(es[..m + 1]).value.ctxs[i].down.waiting
            && Run(es[..m + 1]).value.ctxs[i].down.wakeups == calls + 1
  {
    WaitsFrom(es, n, i);
    var calls := Run(es[..n + 1]).value.ctxs[i].down.wakeups;
    forall k | n < k <= m ensures WaitsAt(es, k, i, calls) {
      WaitsUntilNews(es, n + 1, k, i, calls);
    }
    NewsWakes(es, m, i, calls);
  }

  /** A context is closed at most once and never accessed afterwards. */
  lemma ClosedAtMostOnce(es: seq<SysEvent>, i: nat)
    requires Run(es).Some? && i < |Run(es).value.ctxs|
    ensures Run(es).value.ctxs[i].closes <= 1 && !Run(es).value.ctxs[i].misused
  {
    RunKeeps(es);
  }

  /** The abort decides whether the cloud side will still close the context: it will not, exactly if the
      abort finds the downlink incomplete although the transfer has ended or its last block was accepted. */
  predicate AbortsTooLate(c: Ctx) {
    !c.down.complete && (c.ended || c.lastTaken)
  }

  lemma LateAbortStays(free: seq<nat>, c: Ctx, e: Event)
    requires Possible(c, e) && c.detached
    ensures var c' := Step(free, c, e).1; c'.detached && c'.abandoned == c.abandoned
  {
  }

  lemma {:induction false} VerdictStands(es: seq<SysEvent>, n: nat, i: nat)
    requires n <= |es| && Run(es).Some?
    requires Run(es[..n]).Some? && i < |Run(es[..n]).value.ctxs| && Run(es[..n]).value.ctxs[i].detached
    ensures var s := Run(es).value;
            i < |s.ctxs| && s.ctxs[i].detached && s.ctxs[i].abandoned == Run(es[..n]).value.ctxs[i].abandoned
    decreases |es|
  {
    if n == |es| {
      assert es[..n] == es;
    } else {
      var m := |es| - 1;
      assert es[..m][..n] == es[..n];
      VerdictStands(es[..m], n, i);
      var s := Run(es[..m]).value;
      if es[m].At? && es[m].i == i {
        LateAbortStays(s.free, s.ctxs[i], es[m].e);
      }
    }
  }

  /** Reclamation, exactly: a context the transport aborts at step `n` and whose transfer has ended is closed
      once, unless the abort came too late, in which case it is never closed. */
  lemma AbortedIsReclaimed(es: seq<SysEvent>, n: nat, i: nat)
    requires n < |es| && Run(es).Some? && Run(es[..n]).Some? && i < |Run(es[..n]).value.ctxs|
    requires es[n] == At(i, AbortEv) && Allowed(Run(es[..n]).value, es[n])
    requires i < |Run(es).value.ctxs| && Run(es).value.ctxs[i].ended
    ensures Run(es).value.ctxs[i].closes == if AbortsTooLate(Run(es[..n]).value.ctxs[i]) then 0 else 1
  {
    assert es[..n + 1][..n] == es[..n];
    RunKeeps(es[..n]);
    VerdictStands(es, n + 1, i);
    RunKeeps(es);
  }

  /** A context the transport completes is closed once, whenever the transfer ends. */
  lemma CompletedIsReclaimed(es: seq<SysEvent>, i: nat)
    requires Run(es).Some? && i < |Run(es).value.ctxs|
    requires Run(es).value.ctxs[i].detached && Run(es).value.ctxs[i].down.complete
    ensures Run(es).value.ctxs[i].closes == 1
  {
    RunKeeps(es);
  }

  lemma {:induction false} NothingHeld(ctxs: seq<Ctx>)
    ensures TotalHeld(ctxs) == 0 <==> forall i :: 0 <= i < |ctxs| ==> ctxs[i].down.held == []
  {
    if ctxs != [] {
      NothingHeld(ctxs[1..]);
    }
  }

  /** At step `n` an abort of context `i` comes too late and finds blocks in it. */
  predicate LeaksAt(es: seq<SysEvent>, n: nat, i: nat)
    requires n < |es|
  {
    && es[n] == At(i, AbortEv)
    && Run(es[..n]).Some? && i < |Run(es[..n]).value.ctxs|
    && AbortsTooLate(Run(es[..n]).value.ctxs[i])
    && Run(es[..n]).value.ctxs[i].down.held != []
  }

  lemma AbandonedIsFrozen(free: seq<nat>, c: Ctx, e: Event)
    requires CtxInv(c) && Possible(c, e) && c.abandoned
    ensures Step(free, c, e).1.abandoned && Step(free, c, e).1.down.held == c.down.held
  {
  }

  lemma AbandonedStays(s: System, e: SysEvent, i: nat)
    requires SysInv(s) && Allowed(s, e) && i < |s.ctxs| && s.ctxs[i].abandoned
    ensures var c := SysStep(s, e).ctxs[i]; c.abandoned && c.down.held == s.ctxs[i].down.held
  {
    if e.At? && e.i == i {
      AbandonedIsFrozen(s.free, s.ctxs[i], e.e);
    }
  }

  /** Nobody touches the blocks of a context that was aborted too late. */
  lemma {:induction false} BlocksStand(es: seq<SysEvent>, n: nat, i: nat)
    requires n <= |es| && Run(es).Some?
    requires Run(es[..n]).Some? && i < |Run(es[..n]).value.ctxs| && Run(es[..n]).value.ctxs[i].abandoned
    ensures var s := Run(es).value;
            i < |s.ctxs| && s.ctxs[i].abandoned && s.ctxs[i].down.held == Run(es[..n]).value.ctxs[i].down.held
    decreases |es|
  {
    if n == |es| {
      assert es[..n] == es;
    } else {
      var m := |es| - 1;
      assert es[..m][..n] == es[..n];
      BlocksStand(es[..m], n, i);
      RunKeeps(es[..m]);
      AbandonedStays(Run(es[..m]).value, es[m], i);
    }
  }

  lemma AbortAbandons(free: seq<nat>, c: Ctx, e: Event)
    requires CtxInv(c) && Possible(c, e) && Step(free, c, e).1.abandoned
    ensures c.abandoned || (e == AbortEv && AbortsTooLate(c) && Step(free, c, e).1.down.held == c.down.held)
  {
  }

  /** The step that aborted an abandoned context. */
  lemma {:induction false} FindAbort(es: seq<SysEvent>, i: nat) returns (n: nat)
    requires Run(es).Some? && i < |Run(es).value.ctxs| && Run(es).value.ctxs[i].abandoned
    ensures n < |es| && es[n] == At(i, AbortEv)
    ensures Run(es[..n]).Some? && i < |Run(es[..n]).value.ctxs|
    ensures AbortsTooLate(Run(es[..n]).value.ctxs[i])
    ensures Run(es[..n]).value.ctxs[i].down.held == Run(es).value.ctxs[i].down.held
    decreases |es|
  {
    var m := |es| - 1;
    var s := Run(es[..m]).value;
    RunKeeps(es[..m]);
    if es[m].At? && es[m].i == i {
      AbortAbandons(s.free, s.ctxs[i], es[m].e);
      if s.ctxs[i].abandoned {
        AbandonedIsFrozen(s.free, s.ctxs[i], es[m].e);
        n := FindAbort(es[..m], i);
        assert es[..m][..n] == es[..n];
      } else {
        n := m;
      }
    } else {
      n := FindAbort(es[..m], i);
      assert es[..m][..n] == es[..n];
    }
  }

  lemma LeakStays(es: seq<SysEvent>, n: nat, i: nat)
    requires Run(es).Some? && n < |es| && LeaksAt(es, n, i)
    ensures i < |Run(es).value.ctxs| && Run(es).value.ctxs[i].down.held != []
  {
    assert es[..n + 1][..n] == es[..n];
    RunPrefix(es, n + 1);
    BlocksStand(es, n + 1, i);
  }

  /** When both parties are done with every downlink, the slab is full again if and only if no abort in the
      run came too late and found blocks in its context. */
  lemma SlabRefills(es: seq<SysEvent>)
    requires Run(es).Some?
    requires forall i :: 0 <= i < |Run(es).value.ctxs| ==>
               Run(es).value.ctxs[i].detached && Run(es).value.ctxs[i].ended
    ensures |Run(es).value.free| == NUM_BLOCKS <==> forall n: nat, i: nat :: n < |es| ==> !LeaksAt(es, n, i)
  {
    RunKeeps(es);
    SlabConserved(es);
    var s := Run(es).value;
    NothingHeld(s.ctxs);
    if |s.free| == NUM_BLOCKS {
      forall n: nat, i: nat | n < |es| ensures !LeaksAt(es, n, i) {
        if LeaksAt(es, n, i) {
          LeakStays(es, n, i);
        }
      }
    } else {
      var i: nat :| i < |s.ctxs| && s.ctxs[i].down.held != [];
      assert CtxInv(s.ctxs[i]);
      var n := FindAbort(es, i);
      assert LeaksAt(es, n, i);
    }
  }

  lemma RunOne(es: seq<SysEvent>, n: nat)
    requires n < |es| && Run(es[..n]).Some? && Allowed(Run(es[..n]).value, es[n])
    ensures Run(es[..n + 1]) == Some(SysStep(Run(es[..n]).value, es[n]))
  {
    assert es[..n + 1][..n] == es[..n];
  }

  /** A run that leaks a block: the transport aborts when the last block has been accepted and not read. */
  lemma LeakHappens()
    requires NUM_BLOCKS > 0
    ensures var es := [OpenEv, At(0, BlockEv([], true)), At(0, AbortEv), At(0, EndEv(true))];
            && Run(es).Some? && |Run(es).value.free| == NUM_BLOCKS - 1 && |Run(es).value.ctxs| == 1
            && Run(es).value.ctxs[0].detached && Run(es).value.ctxs[0].ended && Run(es).value.ctxs[0].closes == 0
  {
    var es := [OpenEv, At(0, BlockEv([], true)), At(0, AbortEv), At(0, EndEv(true))];
    NumbersInOrder(NUM_BLOCKS);
    assert es[..0] == [] && es[..4] == es;
    RunOne(es, 0);
    assert Run(es[..1]).value.ctxs == [NEW_CTX];
    RunOne(es, 1);
    var c := Step(BOOT.free, NEW_CTX, BlockEv([], true)).1;
    assert Run(es[..2]).value == System(BOOT.free[1..], [c]);
    RunOne(es, 2);
    RunOne(es, 3);
  }

  /** Success is reported exactly for transfers whose last block was accepted. Were that not so, the end of
      such a transfer could reach a context that its transport has completed and closed. */
  lemma ErrorEndAfterClose(es: seq<SysEvent>, i: nat)
    requires Run(es).Some? && i < |Run(es).value.ctxs| && !Run(es).value.ctxs[i].ended
    ensures var s := Run(es).value;
            var c := s.ctxs[i];
            Step(s.free, c, EndEv(false)).1.misused <==> c.detached && c.down.complete && c.lastTaken
  {
    RunKeeps(es);
  }

  /** What a read of `want` bytes is answered, in terms of what it finds: it hands out what is held as far as it
      goes. It was the last if it reads the last block to its end, or if it asks for more than is left and an
      error was reported; "again" stands for any other read that asks for more than is left. */
  lemma ReadAnswers(es: seq<SysEvent>, i: nat, want: nat)
    requires Run(es).Some? && i < |Run(es).value.ctxs| && !Run(es).value.ctxs[i].detached
    requires !Run(es).value.ctxs[i].down.complete
    ensures var s := Run(es).value;
            var c, d := s.ctxs[i], s.ctxs[i].down;
            var r := GetData(s.free, d, want);
            && r.out == Content(d.held)[..Min(want, |Content(d.held)|)]
            && (r.isLast <==>
                  || (c.lastTaken && d.held != [] && ReadToEnd(d.held, want, |d.held| - 1))
                  || (d.coapError && want > |Content(d.held)|))
            && r.code == (if r.isLast || want <= |Content(d.held)| then Ok else Again)
            && (r.down.complete <==> r.isLast)
            && r.down.received == d.received && r.down.returned == d.returned + r.out
  {
    RunKeeps(es);
    var s := Run(es).value;
    var c, d := s.ctxs[i], s.ctxs[i].down;
    DrainConservesBytes(s.free, d.held, want);
    DrainLast(s.free, d.held, want, c.lastTaken);
    DrainLastExactly(s.free, d.held, want, c.lastTaken);
    ReadPrefix(s.free, d.held, want);
  }

  lemma ReadPrefix(free: seq<nat>, held: seq<Cell>, want: nat)
    requires var r := Drain(free, held, want); r.last || |r.out| == want || r.rest == []
    requires var r := Drain(free, held, want); r.last ==> r.rest == []
    ensures var r := Drain(free, held, want);
            r.out == Content(held)[..Min(want, |Content(held)|)]
  {
    DrainConservesBytes(free, held, want);
    var r := Drain(free, held, want);
    assert |Content(held)| == |r.out| + |Content(r.rest)|;
    assert Content(held)[..|r.out|] == r.out;
  }

  /** And the blocks: exactly those read to their end go back to the slab, in order. */
  lemma ReadFreesExactly(es: seq<SysEvent>, i: nat, want: nat)
    requires Run(es).Some? && i < |Run(es).value.ctxs| && !Run(es).value.ctxs[i].detached
    requires !Run(es).value.ctxs[i].down.complete
    ensures var s := Run(es).value;
            var d := s.ctxs[i].down;
            var r := GetData(s.free, d, want);
            FreesReadBlocks(s.free, d.held, want, r.free, r.down.held)
  {
    RunKeeps(es);
    var s := Run(es).value;
    var d := s.ctxs[i].down;
    DrainFreesExactly(s.free, d.held, want, s.ctxs[i].lastTaken);
    var r := Drain(s.free, d.held, want);
    ReportKeepsBlocks(r.free, After(d, r, want), r.out, r.last, want);
  }

  /** What a read reports, in every reachable state. It says "last" exactly when it makes the downlink
      complete, and then everything received has been returned; afterwards there is no data. "Again" means
      nothing is left to read, and otherwise the destination was filled. */
  lemma ReadReports(es: seq<SysEvent>, i: nat, want: nat)
    requires Run(es).Some? && i < |Run(es).value.ctxs| && !Run(es).value.ctxs[i].detached
    ensures var s := Run(es).value;
            var d := s.ctxs[i].down;
            var r := GetData(s.free, d, want);
            && (r.code == NoData <==> d.complete)
            && (r.isLast <==> r.down.complete && !d.complete)
            && (r.isLast ==> r.down.returned == d.received)
            && (r.code == Ok && !r.isLast ==> |r.out| == want)
            && (r.code == Again ==> r.down.held == [] && |r.out| < want)
            && (r.code == Again && r.out == [] <==> r.down.dryReads == d.dryReads + 1)
            && (r.down.dryReads > d.dryReads ==> r.down.waiting)
  {
    RunKeeps(es);
    var s := Run(es).value;
    var d := s.ctxs[i].down;
    DrainConservesBytes(s.free, d.held, want);
    ReadKeeps(s.free, s.ctxs[i], want);
  }

  /** Once the transfer has ended, every read makes progress: it fills the destination or completes the
      downlink, and it never says "again". */
  lemma EndedReads(es: seq<SysEvent>, i: nat, want: nat)
    requires Run(es).Some? && i < |Run(es).value.ctxs| && want > 0
    requires var c := Run(es).value.ctxs[i]; c.ended && !c.detached && !c.down.complete
    ensures var s := Run(es).value;
            var r := GetData(s.free, s.ctxs[i].down, want);
            r.code == Ok && (r.isLast || |r.out| == want)
  {
    RunKeeps(es);
    var s := Run(es).value;
    DrainConservesBytes(s.free, s.ctxs[i].down.held, want);
    DrainLast(s.free, s.ctxs[i].down.held, want, s.ctxs[i].lastTaken);
  }

  /** Completion: once the transfer has ended, a read that asks for more than what is left returns exactly
      that, says that it was the last, and leaves the downlink complete. */
  lemma EndedCompletes(es: seq<SysEvent>, i: nat, want: nat)
    requires Run(es).Some? && i < |Run(es).value.ctxs|
    requires var c := Run(es).value.ctxs[i];
             c.ended && !c.detached && !c.down.complete && want > |Content(c.down.held)|
    ensures var s := Run(es).value;
            var r := GetData(s.free, s.ctxs[i].down, want);
            && r.isLast && r.down.complete && r.code == Ok
            && r.out == Content(s.ctxs[i].down.held) && r.down.returned == s.ctxs[i].down.received
  {
    RunKeeps(es);
    var s := Run(es).value;
    var d := s.ctxs[i].down;
    EndedReads(es, i, want);
    ReadReports(es, i, want);
    DrainConservesBytes(s.free, d.held, want);
    DrainLast(s.free, d.held, want, s.ctxs[i].lastTaken);
    var r := Drain(s.free, d.held, want);
    assert |r.out + Content(r.rest)| == |r.out| + |Content(r.rest)|;
    assert r.rest == [];
    assert r.out + [] == r.out;
  }
}
