/** lib/bt/uplink.c: who may still touch an uplink session. The node's pointer is cleared by end_cb and
    by whoever closes the session; the claims are about every run of one connection and the cloud. What earlier
    sessions of the same node structure do to the pointer is in UplinkReconnect. */
module UplinkTransport {
  import opened Bytes
  import opened Chunking
  import opened UplinkModel
  import opened Uplink

  /** `linked`: node->uplink is not NULL. `calls`: the session's entry points called so far.
      `fault`: pouch_gateway_uplink_close was called with NULL. */
  datatype Node = Node(linked: bool, session: State, calls: seq<Event>, fault: bool)

  datatype Result = Taken | NoLink | NoMemory

  const FRESH_LINK := Node(true, FRESH_SESSION, [], false)

  /** A call into the session; end_cb clears the pointer. */
  function Call(n: Node, e: Event): Node {
    var s := Step(n.session, e);
    n.(session := s, linked := n.linked && s.ended == [], calls := n.calls + [e])
  }

  /** pouch_gateway_uplink_close(node->uplink), then node->uplink = NULL. */
  function AfterClose(n: Node, accept: bool): Node {
    if n.linked then Call(n, EvClose(accept)).(linked := false) else n.(fault := true)
  }

  /** uplink_data_received_cb. */
  function AfterData(n: Node, payload: seq<byte>, isLast: bool, allocs: nat, accept: bool, closeAccept: bool)
    : (Node, Result)
  {
    if !n.linked then (n, NoLink)
    else
      var n' := Call(n, EvWrite(payload, allocs, accept));
      if !Absorb(n.session, payload, allocs).1 then (AfterClose(n', closeAccept), NoMemory)
      else if isLast then (AfterClose(n', closeAccept), Taken)
      else (n', Taken)
  }

  /** The session half of pouch_gateway_uplink_cleanup. */
  function AfterCleanup(n: Node, accept: bool): Node {
    if n.linked then AfterClose(n, accept) else n
  }

  datatype LinkEvent =
    | Data(payload: seq<byte>, isLast: bool, allocs: nat, accept: bool, closeAccept: bool)
    | Cleanup(closeAccept: bool)
    | Uploaded(ok: bool, accept: bool)

  /** The cloud completes the block in flight; everything else may happen at any time. */
  predicate Possible(n: Node, e: LinkEvent) {
    !n.fault && (e.Uploaded? ==> n.session.sending && n.session.ended == [])
  }

  function LinkStep(n: Node, e: LinkEvent): Node {
    match e
    case Data(payload, isLast, allocs, accept, closeAccept) =>
      AfterData(n, payload, isLast, allocs, accept, closeAccept).0
    case Cleanup(closeAccept) => AfterCleanup(n, closeAccept)
    case Uploaded(ok, accept) => Call(n, EvCompleted(ok, accept))
  }

  function LinkRun(es: seq<LinkEvent>): Option<Node> {
    if es == [] then Some(FRESH_LINK)
    else
      var before, e := LinkRun(es[..|es| - 1]), es[|es| - 1];
      if before.Some? && Possible(before.value, e) then Some(LinkStep(before.value, e)) else None
  }

  ghost predicate LinkInv(n: Node) {
    && Run(n.calls) == Some(n.session)
    && Inv(n.session)
    && (n.linked <==> n.session.ended == [] && !n.session.closed)
    && (n.linked ==> !n.session.starved)
    && !n.session.bare
  }

  lemma CallKeeps(n: Node, e: Event)
    requires Run(n.calls) == Some(n.session) && Inv(n.session) && Enabled(n.session, e)
    ensures var n' := Call(n, e); Run(n'.calls) == Some(n'.session) && Inv(n'.session)
  {
    StepKeeps(n.session, e);
    var n' := Call(n, e);
    assert n'.calls[..|n'.calls| - 1] == n.calls;
  }

  lemma ProcessKeepsFlags(s: State, accept: bool)
    ensures Process(s, accept).closed == s.closed && Process(s, accept).bare == s.bare
  {
  }

  lemma CloseKeepsFlags(s: State, accept: bool)
    requires !s.closed && !s.bare && (s.wblock.Some? || s.queue != [])
    ensures Close(s, accept).closed && !Close(s, accept).bare
  {
    ProcessKeepsFlags(MarkClosed(s), accept);
  }

  /** A link close comes before memory has run out or right after it did, so it always finds a block. */
  lemma CloseFindsBlock(n: Node, accept: bool)
    requires Run(n.calls) == Some(n.session) && Inv(n.session) && n.linked && !n.fault
    requires n.session.ended == [] && !n.session.closed && !n.session.bare
    requires n.session.wblock.Some? || n.session.queue != []
    ensures LinkInv(AfterClose(n, accept)) && !AfterClose(n, accept).fault
  {
    CallKeeps(n, EvClose(accept));
    CloseKeepsFlags(n.session, accept);
  }

  lemma StarvedWriteQueues(s: State, payload: seq<byte>, allocs: nat)
    requires Inv(s) && s.ended == [] && !s.closed && !s.starved && !Absorb(s, payload, allocs).1
    ensures Absorb(s, payload, allocs).0.queue != []
  {
    var taken := payload[..Room(s.wblock, allocs)];
    ChunkIsChunking(Held(s.wblock) + taken);
    assert s.wblock.Some?;
    assert |Held(s.wblock) + taken| >= BLOCK_SIZE;
  }

  /** When uplink_data_received_cb calls pouch_gateway_uplink_close(NULL): the final write was taken, the
      session was idle with a block to send, and the cloud client refused it on the spot. */
  predicate RefusedFinalWrite(n: Node, e: LinkEvent) {
    && e.Data? && n.linked && e.isLast && !e.accept
    && |e.payload| <= Room(n.session.wblock, e.allocs)
    && !n.session.sending
    && |Held(n.session.wblock)| + |e.payload| > BLOCK_SIZE
  }

  /** A write ends the session exactly when it makes an idle session send and the block is refused. */
  lemma WriteEnds(s: State, payload: seq<byte>, allocs: nat, accept: bool)
    requires Inv(s) && s.ended == [] && !s.closed && !s.starved && Absorb(s, payload, allocs).1
    ensures Write(s, payload, allocs, accept).0.ended != [] <==>
              !accept && !s.sending && |Held(s.wblock)| + |payload| > BLOCK_SIZE
  {
    var x := Held(s.wblock) + payload;
    var s' := Absorb(s, payload, allocs).0;
    ChunkIsChunking(x);
    AbsorbKeeps(s, payload, allocs);
    if !s.sending && s'.queue != [] {
      assert Blocks(s')[|s'.sent|] == s'.queue[0];
    }
  }

  lemma FaultExactly(n: Node, e: LinkEvent)
    requires LinkInv(n) && !n.fault && e.Data?
    ensures LinkStep(n, e).fault <==> RefusedFinalWrite(n, e)
  {
    if n.linked && Absorb(n.session, e.payload, e.allocs).1 {
      WriteEnds(n.session, e.payload, e.allocs, e.accept);
    }
  }

  /** What a write on an open session leaves for a close that follows it. */
  lemma WriteLeavesBlock(s: State, payload: seq<byte>, allocs: nat, accept: bool)
    requires Inv(s) && s.ended == [] && !s.closed && !s.starved && !s.bare
    ensures var (s', ok) := Write(s, payload, allocs, accept);
            && !s'.closed && !s'.bare && (ok ==> !s'.starved)
            && (if ok then s'.ended == [] ==> s'.wblock.Some? else s'.ended == [] && s'.queue != [])
  {
    var (r, ok) := Absorb(s, payload, allocs);
    if ok {
      AbsorbKeeps(s, payload, allocs);
      ProcessKeepsFlags(r, accept);
      ProcessTakesNothing(r, accept);
    } else {
      StarvedWriteQueues(s, payload, allocs);
    }
  }

  lemma DataKeeps(n: Node, e: LinkEvent)
    requires LinkInv(n) && !n.fault && e.Data? && n.linked
    ensures LinkInv(LinkStep(n, e))
  {
    var write := EvWrite(e.payload, e.allocs, e.accept);
    CallKeeps(n, write);
    WriteLeavesBlock(n.session, e.payload, e.allocs, e.accept);
    var n' := Call(n, write);
    if !Absorb(n.session, e.payload, e.allocs).1 || (e.isLast && n'.linked) {
      CloseFindsBlock(n', e.closeAccept);
    }
  }

  lemma LinkStepKeeps(n: Node, e: LinkEvent)
    requires LinkInv(n) && Possible(n, e)
    ensures LinkInv(LinkStep(n, e))
    ensures LinkStep(n, e).fault <==> RefusedFinalWrite(n, e)
  {
    match e
    case Data(_, _, _, _, _) =>
      FaultExactly(n, e);
      if n.linked {
        DataKeeps(n, e);
      }
    case Cleanup(closeAccept) =>
      if n.linked {
        assert n.session.wblock.Some?;
        CloseFindsBlock(n, closeAccept);
      }
    case Uploaded(ok, accept) =>
      CallKeeps(n, EvCompleted(ok, accept));
  }

  /** Every run of the Bluetooth side is a legal run of the session: no call after the session ended, no
      write after close. The pointer is set exactly while the session is open for writing. */
  lemma {:induction false} LinkRunKeeps(es: seq<LinkEvent>)
    requires LinkRun(es).Some?
    ensures LinkInv(LinkRun(es).value)
  {
    if es == [] {
      assert Run([]) == Some(FRESH_SESSION);
      assert Flatten([]) == [];
    } else {
      var n := |es| - 1;
      LinkRunKeeps(es[..n]);
      LinkStepKeeps(LinkRun(es[..n]).value, es[n]);
    }
  }

  /** A step calls close on NULL exactly if it is a refused final write. */
  lemma NullCloseExactly(es: seq<LinkEvent>, e: LinkEvent)
    requires LinkRun(es).Some? && Possible(LinkRun(es).value, e)
    ensures LinkStep(LinkRun(es).value, e).fault <==> RefusedFinalWrite(LinkRun(es).value, e)
  {
    LinkRunKeeps(es);
    LinkStepKeeps(LinkRun(es).value, e);
  }

  /** A write that brings more than the block in hand and the heap have room for. */
  predicate StarvingWrite(n: Node, e: LinkEvent) {
    e.Data? && n.linked && |e.payload| > Room(n.session.wblock, e.allocs)
  }

  lemma CloseStarvesNothing(n: Node, accept: bool)
    ensures AfterClose(n, accept).session.starved == n.session.starved
  {
    StepTakes(n.session, EvClose(accept));
  }

  lemma StarvesExactly(n: Node, e: LinkEvent)
    ensures LinkStep(n, e).session.starved <==> n.session.starved || StarvingWrite(n, e)
  {
    match e
    case Data(payload, _, allocs, accept, closeAccept) =>
      StepTakes(n.session, EvWrite(payload, allocs, accept));
      CloseStarvesNothing(Call(n, EvWrite(payload, allocs, accept)), closeAccept);
    case Cleanup(closeAccept) => CloseStarvesNothing(n, closeAccept);
    case Uploaded(ok, accept) => StepTakes(n.session, EvCompleted(ok, accept));
  }

  /** Step `m` of the run is a starving write. */
  predicate StarvesAt(es: seq<LinkEvent>, m: nat)
    requires m < |es|
  {
    LinkRun(es[..m]).Some? && StarvingWrite(LinkRun(es[..m]).value, es[m])
  }

  lemma SameSteps(es: seq<LinkEvent>, n: nat)
    requires n <= |es|
    ensures forall m :: 0 <= m < n ==> StarvesAt(es[..n], m) == StarvesAt(es, m)
  {
    forall m | 0 <= m < n ensures StarvesAt(es[..n], m) == StarvesAt(es, m) {
      assert es[..n][..m] == es[..m];
    }
  }

  lemma {:induction false} StarvedSomewhere(es: seq<LinkEvent>)
    requires LinkRun(es).Some?
    ensures LinkRun(es).value.session.starved <==> exists m :: 0 <= m < |es| && StarvesAt(es, m)
  {
    if es != [] {
      var n := |es| - 1;
      StarvedSomewhere(es[..n]);
      StarvesExactly(LinkRun(es[..n]).value, es[n]);
      SameSteps(es, n);
      assert StarvesAt(es, n) == StarvingWrite(LinkRun(es[..n]).value, es[n]);
    }
  }

  /** What a reported success means, on every run of the Bluetooth side. Because it closes as soon as memory
      runs out, the last flag is always right: the cloud got the whole transfer of the bytes taken in, final
      block flagged. These are the bytes the node sent exactly if no step of the run was a starving write. */
  lemma LinkSuccessIsTransfer(es: seq<LinkEvent>)
    requires LinkRun(es).Some? && Success in LinkRun(es).value.session.ended
    ensures var n := LinkRun(es).value;
            && n.session.sent == Transfer(n.session.written)
            && (n.session.written == Payloads(n.calls) <==> forall m :: 0 <= m < |es| ==> !StarvesAt(es, m))
  {
    LinkRunKeeps(es);
    TakenExactly(LinkRun(es).value.calls);
    StarvedSomewhere(es);
  }

  /** The session after a first write of one byte more than a block, without memory for a second block. */
  function Truncated(cut: seq<byte>): State {
    State(0, false, false, None, None, [cut], cut, [], [], true, false)
  }

  lemma TruncatedWrite(payload: seq<byte>)
    requires |payload| == BLOCK_SIZE + 1
    ensures Absorb(FRESH_SESSION, payload, 0) == (Truncated(payload[..BLOCK_SIZE]), false)
    ensures Write(FRESH_SESSION, payload, 0, true) == (Truncated(payload[..BLOCK_SIZE]), false)
  {
    var cut := payload[..BLOCK_SIZE];
    assert Capacity(0) == 0;
    assert [] + cut == cut && Chunk(cut) == [cut] && [] + [cut] == [cut];
  }

  lemma TruncatedClose(cut: seq<byte>)
    requires cut != []
    ensures Close(Truncated(cut), true) ==
              State(1, true, true, None, Some(cut), [], cut, [Sent(0, cut, true)], [], true, false)
  {
    assert [cut][1..] == [] && [] + [Sent(0, cut, true)] == [Sent(0, cut, true)];
  }

  /** A run that reports success for a truncated upload: of one byte more than a block, the block is sent. */
  lemma TruncationHappens(payload: seq<byte>)
    requires |payload| == BLOCK_SIZE + 1
    ensures var es := [Data(payload, true, 0, true, true), Uploaded(true, true)];
            && LinkRun(es).Some?
            && LinkRun(es).value.session.ended == [Success]
            && LinkRun(es).value.session.sent == [Sent(0, payload[..BLOCK_SIZE], true)]
            && Payloads(LinkRun(es).value.calls) == payload
  {
    var es := [Data(payload, true, 0, true, true), Uploaded(true, true)];
    var calls := [EvWrite(payload, 0, true), EvClose(true), EvCompleted(true, true)];
    TruncatedWrite(payload);
    TruncatedClose(payload[..BLOCK_SIZE]);
    assert es[..1][..0] == [] && [] + [calls[0]] + [calls[1]] == calls[..2];
    var n := Node(false, Close(Truncated(payload[..BLOCK_SIZE]), true), calls[..2], false);
    assert LinkStep(FRESH_LINK, es[0]) == n;
    assert LinkRun(es[..1]) == Some(n);
    assert LinkRun(es) == Some(LinkStep(n, es[1]));
    assert calls[..2] + [calls[2]] == calls;
    PayloadsOfOne(payload);
  }

  lemma PayloadsOfOne(payload: seq<byte>)
    ensures Payloads([EvWrite(payload, 0, true), EvClose(true), EvCompleted(true, true)]) == payload
  {
    var calls := [EvWrite(payload, 0, true), EvClose(true), EvCompleted(true, true)];
    assert calls[..2][..1] == calls[..1] && calls[..1][..0] == [];
    assert Payloads(calls[..1]) == [] + payload == payload;
    assert Payloads(calls[..2]) == payload + [] == payload;
    assert payload + [] == payload;
  }

  /** A run that calls pouch_gateway_uplink_close on NULL: the cloud client refuses the block that the final
      write sends. */
  lemma NullCloseHappens(payload: seq<byte>)
    requires |payload| == BLOCK_SIZE + 1
    ensures var es := [Data(payload, true, 1, false, true)];
            LinkRun(es).Some? && LinkRun(es).value.fault
  {
    var es := [Data(payload, true, 1, false, true)];
    assert es[..0] == [];
    assert Capacity(1) == BLOCK_SIZE + Capacity(0) && Capacity(0) == 0;
    LinkRunKeeps([]);
    NullCloseExactly([], es[0]);
  }

  // ---------------------------------------------------------------- what becomes of a node's data

  /** The answer to the receiver, exactly, and what is taken in. */
  lemma DataAnswers(n: Node, payload: seq<byte>, isLast: bool, allocs: nat, accept: bool, closeAccept: bool)
    ensures var (n', result) := AfterData(n, payload, isLast, allocs, accept, closeAccept);
            var room := Room(n.session.wblock, allocs);
            && (result == NoLink <==> !n.linked)
            && (result == NoMemory <==> n.linked && |payload| > room)
            && (result == NoLink ==> n' == n)
            && (n.linked ==> n'.session.written == n.session.written + payload[..Min(|payload|, room)])
  {
    if n.linked {
      var write := EvWrite(payload, allocs, accept);
      StepTakes(n.session, write);
      StepTakes(Call(n, write).session, EvClose(closeAccept));
      assert Call(n, write).session.written + [] == Call(n, write).session.written;
    }
  }

  /** Data close a session that they do not end, exactly if they are the last or do not fit, and then the node
      forgets it. */
  lemma DataCloses(n: Node, e: LinkEvent)
    requires LinkInv(n) && !n.fault && e.Data? && n.linked && LinkStep(n, e).session.ended == []
    ensures var n' := LinkStep(n, e);
            && (n'.session.closed <==> e.isLast || |e.payload| > Room(n.session.wblock, e.allocs))
            && (n'.linked <==> !n'.session.closed)
  {
    WriteLeavesBlock(n.session, e.payload, e.allocs, e.accept);
    var n' := Call(n, EvWrite(e.payload, e.allocs, e.accept));
    if n'.linked {
      CloseKeepsFlags(n'.session, e.closeAccept);
    }
  }

  /** So does a disconnect. */
  lemma CleanupCloses(n: Node, e: LinkEvent)
    requires LinkInv(n) && e.Cleanup?
    ensures var n' := LinkStep(n, e);
            && !n'.linked && (n.linked ==> n'.session.closed || n'.session.ended != [])
            && (n'.session.ended == [] && n.linked ==> n'.session.written == n.session.written)
  {
    if n.linked {
      CloseKeepsFlags(n.session, e.closeAccept);
      StepTakes(n.session, EvClose(e.closeAccept));
      assert n.session.written + [] == n.session.written;
    }
  }

  /** `k` good completions in a row, on the link. */
  function Uploads(k: nat): seq<LinkEvent> {
    if k == 0 then [] else Uploads(k - 1) + [Uploaded(true, true)]
  }

  predicate Busy(s: State) {
    s.sending && s.ended == []
  }

  lemma OneUpload(es: seq<LinkEvent>, n: Node)
    requires LinkRun(es) == Some(n) && !n.fault && n.session.sending && n.session.ended == []
    ensures LinkRun(es + [Uploaded(true, true)]) == Some(Call(n, EvCompleted(true, true)))
  {
    var all := es + [Uploaded(true, true)];
    assert all[..|all| - 1] == es;
  }

  lemma {:induction false} UploadsDeliver(es: seq<LinkEvent>, n: Node, k: nat) returns (n': Node)
    requires LinkRun(es) == Some(n) && !n.fault
    requires forall j :: 0 <= j < k ==> Busy(Deliver(n.session, j))
    ensures LinkRun(es + Uploads(k)) == Some(n') && !n'.fault && n'.session == Deliver(n.session, k)
  {
    if k == 0 {
      assert es + [] == es;
      n' := n;
    } else {
      var m := UploadsDeliver(es, n, k - 1);
      assert Busy(Deliver(n.session, k - 1));
      OneUpload(es + Uploads(k - 1), m);
      assert es + Uploads(k) == es + Uploads(k - 1) + [Uploaded(true, true)];
      n' := Call(m, EvCompleted(true, true));
    }
  }

  lemma AllDelivered(s: State)
    requires Draining(s)
    ensures forall j :: 0 <= j < |s.queue| + 1 ==> Busy(Deliver(s, j))
    ensures Deliver(s, |s.queue| + 1).ended == [Success] && Deliver(s, |s.queue| + 1).written == s.written
  {
    forall j | 0 <= j < |s.queue| + 1 ensures Busy(Deliver(s, j)) {
      DeliverDrains(s, j);
    }
    DeliverDrains(s, |s.queue|);
    DeliverOne(Deliver(s, |s.queue|));
  }

  /** A closed session with something written is brought to success by good completions: all that was taken in
      is uploaded. */
  lemma ClosedIsUploaded(es: seq<LinkEvent>, n: Node)
    requires LinkRun(es) == Some(n) && !n.fault
    requires n.session.closed && n.session.ended == [] && n.session.written != []
    ensures var done := LinkRun(es + Uploads(|n.session.queue| + 1));
            && done.Some? && done.value.session.ended == [Success]
            && done.value.session.sent == Transfer(n.session.written)
  {
    LinkRunKeeps(es);
    AllDelivered(n.session);
    var n' := UploadsDeliver(es, n, |n.session.queue| + 1);
    LinkSuccessIsTransfer(es + Uploads(|n.session.queue| + 1));
  }

  lemma CloseEndsLocally(s: State, accept: bool)
    requires s.ended == [] && !s.closed && (s.wblock.Some? || s.queue != []) && Close(s, accept).ended != []
    ensures Close(s, accept).ended == [ErrorLocal]
  {
  }

  lemma FinalDataEnds(n: Node, e: LinkEvent)
    requires LinkInv(n) && !n.fault && e.Data? && e.isLast && n.linked
    requires LinkStep(n, e).session.ended != []
    ensures LinkStep(n, e).session.ended == [ErrorLocal]
  {
    WriteLeavesBlock(n.session, e.payload, e.allocs, e.accept);
    var s := Write(n.session, e.payload, e.allocs, e.accept).0;
    if s.ended == [] {
      CloseEndsLocally(s, e.closeAccept);
    } else {
      ProcessEnds(Absorb(n.session, e.payload, e.allocs).0, e.accept);
    }
  }

  lemma FinalDataLeaves(n: Node, e: LinkEvent)
    requires LinkInv(n) && !n.fault && e.Data? && e.isLast && n.linked
    ensures var s := LinkStep(n, e).session;
            && s.written == n.session.written + e.payload[..Min(|e.payload|, Room(n.session.wblock, e.allocs))]
            && (if s.ended == [] then s.closed && !LinkStep(n, e).fault else s.ended == [ErrorLocal])
  {
    DataAnswers(n, e.payload, e.isLast, e.allocs, e.accept, e.closeAccept);
    if LinkStep(n, e).session.ended != [] {
      FinalDataEnds(n, e);
    } else {
      DataCloses(n, e);
    }
  }

  /** A node that sends its last data is brought to an end. The send fails on the spot and the session ends with a
      local error; or it is closed, and good completions bring it to success, with all taken in uploaded, unless
      that is nothing at all. */
  lemma FinalDataUploads(es: seq<LinkEvent>, n: Node, e: LinkEvent)
    requires LinkRun(es) == Some(n) && n.linked && Possible(n, e) && e.Data? && e.isLast
    ensures LinkRun(es + [e]) == Some(LinkStep(n, e))
    ensures var s := LinkStep(n, e).session;
            && s.written == n.session.written + e.payload[..Min(|e.payload|, Room(n.session.wblock, e.allocs))]
            && (if s.ended == [] then s.closed else s.ended == [ErrorLocal])
            && (s.ended == [] && s.written != [] ==>
                  var done := LinkRun(es + [e] + Uploads(|s.queue| + 1));
                  && done.Some? && done.value.session.ended == [Success]
                  && done.value.session.sent == Transfer(s.written))
  {
    LinkRunKeeps(es);
    var all := es + [e];
    assert all[..|all| - 1] == es;
    FinalDataLeaves(n, e);
    var n' := LinkStep(n, e);
    if n'.session.ended == [] && n'.session.written != [] {
      ClosedIsUploaded(all, n');
    }
  }

  /** The part of struct pouch_gateway_node_info that lib/bt/uplink.c works on. `session` is the session
      that was opened, which node->uplink is no longer once it is closed or has ended. */
  class Link {
    var uplink: Session?
    ghost const session: Session
    ghost var calls: seq<Event>
    ghost var fault: bool

    ghost predicate Valid()
      reads this, session, session.live, set b | b in session.live :: b.data
    {
      session.Valid() && (uplink != null ==> uplink == session && session.ended == [])
    }

    ghost function Model(): Node
      reads this, session
    {
      Node(uplink != null, session.Model(), calls, fault)
    }

    constructor (started: Session)
      requires started.Valid() && started.Model() == FRESH_SESSION
      ensures Valid() && session == started && Model() == FRESH_LINK
    {
      uplink, session := started, started;
      calls, fault := [], false;
    }

    /** end_cb runs inside the session's entry points; here it has run by the time they return. */
    method EndCallback()
      requires session.Valid() && (uplink != null ==> uplink == session)
      modifies this`uplink
      ensures Valid() && Model() == old(Model()).(linked := old(uplink) != null && session.ended == [])
    {
      if uplink != null && uplink.ended != [] {
        uplink := null;
      }
    }

    method WriteLink(payload: seq<byte>, allocs: nat, accept: bool) returns (ok: bool)
      requires Valid() && uplink != null
      modifies this, session, session.live, set b | b in session.live :: b.data
      ensures Valid() && Model() == Call(old(Model()), EvWrite(payload, allocs, accept))
      ensures ok == Absorb(old(session.Model()), payload, allocs).1
      ensures forall b :: b in session.live && b !in old(session.live) ==> fresh(b) && fresh(b.data)
    {
      ok := uplink.Write(payload, allocs, accept);
      calls := calls + [EvWrite(payload, allocs, accept)];
      EndCallback();
    }

    /** pouch_gateway_uplink_close(node->uplink), then node->uplink = NULL; a NULL pointer is reported
        instead of followed. */
    method CloseLink(accept: bool) returns (missing: bool)
      requires Valid()
      modifies this, session
      ensures Valid() && Model() == AfterClose(old(Model()), accept)
      ensures missing == (old(uplink) == null)
    {
      missing := uplink == null;
      if missing {
        fault := true;
      } else {
        uplink.Close(accept);
        calls := calls + [EvClose(accept)];
        uplink := null;
      }
    }

    /** uplink_data_received_cb. */
    method DataReceived(payload: seq<byte>, isLast: bool, allocs: nat, accept: bool, closeAccept: bool)
      returns (result: Result)
      requires Valid()
      modifies this, session, session.live, set b | b in session.live :: b.data
      ensures Valid()
      ensures (Model(), result)
           == AfterData(old(Model()), payload, isLast, allocs, accept, closeAccept)
      ensures result == if old(uplink) == null then NoLink
                        else if |payload| > Room(old(session.Model()).wblock, allocs) then NoMemory else Taken
      ensures old(uplink) != null && session.ended == [] ==> (uplink == null <==> isLast || result == NoMemory)
    {
      if uplink == null {
        return NoLink;
      }
      var ok := WriteLink(payload, allocs, accept);
      if !ok {
        var _ := CloseLink(closeAccept);
        return NoMemory;
      } else if isLast {
        var _ := CloseLink(closeAccept);
      }
      return Taken;
    }

    /** The session half of pouch_gateway_uplink_cleanup. */
    method Cleanup(accept: bool)
      requires Valid()
      modifies this, session
      ensures Valid() && Model() == AfterCleanup(old(Model()), accept)
    {
      if uplink != null {
        var _ := CloseLink(accept);
      }
    }
  }
}
