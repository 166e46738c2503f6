/** lib/bt/uplink.c over several connections. Every connection of a slot uses the same node structure, and the
    sessions of earlier ones go on uploading: when one of them ends, its end_cb clears whatever pointer is there. */
module UplinkReconnect {
  import opened Bytes
  import opened Chunking
  import opened UplinkModel
  import opened UplinkTransport

  /** A new connection has opened its session; the node sends data, or disconnects; the cloud completes the
      block in flight of session `k`. */
  datatype SlotEvent =
    | Connect
    | Receive(payload: seq<byte>, isLast: bool, allocs: nat, accept: bool, closeAccept: bool)
    | Disconnect(closeAccept: bool)
    | Done(k: nat, ok: bool, accept: bool)

  /** All sessions of the slot in the order they were opened; the last is the current one, and the only one
      whose `linked` can be set, as there is one node->uplink. */
  type Slot = seq<Node>

  function Last(s: Slot): Node
    requires s != []
  {
    s[|s| - 1]
  }

  function SetLast(s: Slot, n: Node): Slot
    requires s != []
  {
    s[|s| - 1 := n]
  }

  /** pouch_gateway_bt_stop has been called before the slot is used again, and nothing happens after a call of
      close on NULL. */
  predicate Ready(s: Slot, e: SlotEvent) {
    && (s != [] ==> !Last(s).fault)
    && match e
       case Connect => s == [] || !Last(s).linked
       case Receive(_, _, _, _, _) => s != []
       case Disconnect(_) => s != []
       case Done(k, _, _) => k < |s| && s[k].session.sending && s[k].session.ended == []
  }

  /** uplink_end_cb, whichever session it is called for. */
  function ClearPointer(s: Slot): Slot
    requires s != []
  {
    SetLast(s, Last(s).(linked := false))
  }

  /** block_upload_callback for session `k`. */
  function CompleteOne(s: Slot, k: nat, ok: bool, accept: bool): Slot
    requires k < |s|
  {
    var s' := s[k := Call(s[k], EvCompleted(ok, accept))];
    if s'[k].session.ended != [] then ClearPointer(s') else s'
  }

  function SlotStep(s: Slot, e: SlotEvent): Slot
    requires Ready(s, e)
  {
    match e
    case Connect => s + [FRESH_LINK]
    case Receive(payload, isLast, allocs, accept, closeAccept) =>
      SetLast(s, LinkStep(Last(s), Data(payload, isLast, allocs, accept, closeAccept)))
    case Disconnect(closeAccept) => SetLast(s, LinkStep(Last(s), Cleanup(closeAccept)))
    case Done(k, ok, accept) => CompleteOne(s, k, ok, accept)
  }

  function SlotRun(es: seq<SlotEvent>): Option<Slot> {
    if es == [] then Some([])
    else
      var before, e := SlotRun(es[..|es| - 1]), es[|es| - 1];
      if before.Some? && Ready(before.value, e) then Some(SlotStep(before.value, e)) else None
  }

  // ---------------------------------------------------------------- what every run keeps

  predicate Open(s: State) {
    s.ended == [] && !s.closed
  }

  /** The session was only used as it may be, and if node->uplink is set to it, as on a first connection. */
  ghost predicate NodeInv(n: Node) {
    && Run(n.calls) == Some(n.session) && Inv(n.session) && !n.session.bare
    && (n.linked ==> LinkInv(n))
  }

  /** Only the current session can be named, or have met with a call on NULL. */
  predicate Retired(n: Node) {
    !n.linked && !n.fault
  }

  ghost predicate SlotInv(s: Slot) {
    && (forall k :: 0 <= k < |s| ==> NodeInv(s[k]))
    && (forall k :: 0 <= k < |s| - 1 ==> Retired(s[k]))
  }

  lemma CurrentKeeps(n: Node, e: LinkEvent)
    requires NodeInv(n) && !n.fault && (e.Data? || e.Cleanup?)
    ensures NodeInv(LinkStep(n, e)) && (LinkStep(n, e).linked ==> n.linked)
    ensures !n.linked ==> LinkStep(n, e) == n
  {
    if n.linked {
      LinkStepKeeps(n, e);
    }
  }

  lemma CompletionKeeps(n: Node, ok: bool, accept: bool)
    requires NodeInv(n) && !n.fault && n.session.sending && n.session.ended == []
    ensures NodeInv(Call(n, EvCompleted(ok, accept)))
  {
    CallKeeps(n, EvCompleted(ok, accept));
    ProcessKeepsFlags(n.session.(sending := false, rblock := None), accept);
    if n.linked {
      LinkStepKeeps(n, Uploaded(ok, accept));
    }
  }

  lemma FirstLink()
    ensures NodeInv(FRESH_LINK)
  {
    assert Run([]) == Some(FRESH_SESSION);
    assert Flatten([]) == [];
  }

  lemma ReplaceKeeps(s: Slot, k: nat, n: Node)
    requires SlotInv(s) && k < |s| && NodeInv(n) && (k < |s| - 1 ==> !n.linked && !n.fault)
    ensures SlotInv(s[k := n])
  {
    var s' := s[k := n];
    forall j | 0 <= j < |s'| ensures NodeInv(s'[j]) {
      assert s'[j] == if j == k then n else s[j];
    }
  }

  lemma CompleteOneKeeps(s: Slot, k: nat, ok: bool, accept: bool)
    requires SlotInv(s) && Ready(s, Done(k, ok, accept))
    ensures SlotInv(CompleteOne(s, k, ok, accept))
  {
    CompletionKeeps(s[k], ok, accept);
    ReplaceKeeps(s, k, Call(s[k], EvCompleted(ok, accept)));
    var s' := s[k := Call(s[k], EvCompleted(ok, accept))];
    ReplaceKeeps(s', |s'| - 1, Last(s').(linked := false));
  }

  lemma AppendKeeps(s: Slot, n: Node)
    requires SlotInv(s) && NodeInv(n) && (s != [] ==> !Last(s).linked && !Last(s).fault)
    ensures SlotInv(s + [n])
  {
    var s' := s + [n];
    forall j | 0 <= j < |s'| ensures NodeInv(s'[j]) {
      assert s'[j] == if j == |s| then n else s[j];
    }
    forall j | 0 <= j < |s| ensures Retired(s'[j]) {
      assert s'[j] == s[j];
      assert j == |s| - 1 ==> s[j] == Last(s);
    }
  }

  lemma SlotStepKeeps(s: Slot, e: SlotEvent)
    requires SlotInv(s) && Ready(s, e)
    ensures SlotInv(SlotStep(s, e))
  {
    match e
    case Connect =>
      FirstLink();
      AppendKeeps(s, FRESH_LINK);
    case Receive(payload, isLast, allocs, accept, closeAccept) =>
      var data := Data(payload, isLast, allocs, accept, closeAccept);
      CurrentKeeps(Last(s), data);
      ReplaceKeeps(s, |s| - 1, LinkStep(Last(s), data));
    case Disconnect(closeAccept) =>
      CurrentKeeps(Last(s), Cleanup(closeAccept));
      ReplaceKeeps(s, |s| - 1, LinkStep(Last(s), Cleanup(closeAccept)));
    case Done(k, ok, accept) => CompleteOneKeeps(s, k, ok, accept);
  }

  /** Over any number of connections: every session is used as it may be, none is written to after its close or
      touched after its end, and node->uplink, when set, is the current session, open for writing. */
  lemma {:induction false} SlotRunKeeps(es: seq<SlotEvent>)
    requires SlotRun(es).Some?
    ensures SlotInv(SlotRun(es).value)
  {
    if es != [] {
      var n := |es| - 1;
      SlotRunKeeps(es[..n]);
      SlotStepKeeps(SlotRun(es[..n]).value, es[n]);
    }
  }

  // ---------------------------------------------------------------- when the pointer to an open session is lost

  /** Stated before the completion of a block in flight: it ends the session. */
  predicate CompletionEnds(s: State, ok: bool, accept: bool) {
    || !ok
    || (s.queue == [] && s.closed)
    || (s.queue != [] && s.queue[0] != [] && !accept)
  }

  lemma CompletionEndsExactly(s: State, ok: bool, accept: bool)
    requires s.sending && s.ended == []
    ensures Completed(s, ok, accept).ended != [] <==> CompletionEnds(s, ok, accept)
  {
  }

  /** Step `m` of the run ends an earlier session of the slot, and no connection follows in the run. */
  predicate CutsAt(es: seq<SlotEvent>, m: nat)
    requires m < |es|
  {
    && es[m].Done? && SlotRun(es[..m]).Some?
    && es[m].k < |SlotRun(es[..m]).value| - 1
    && CompletionEnds(SlotRun(es[..m]).value[es[m].k].session, es[m].ok, es[m].accept)
    && forall j :: m < j < |es| ==> !es[j].Connect?
  }

  /** Whether step `e` ends an earlier session. */
  predicate Cuts(s: Slot, e: SlotEvent) {
    e.Done? && e.k < |s| - 1 && CompletionEnds(s[e.k].session, e.ok, e.accept)
  }

  lemma CurrentPointer(n: Node, e: LinkEvent)
    requires NodeInv(n) && !n.fault && (e.Data? || e.Cleanup?) && Open(LinkStep(n, e).session)
    ensures Open(n.session) && LinkStep(n, e).linked == n.linked
  {
    if n.linked {
      LinkStepKeeps(n, e);
    }
  }

  lemma CompletionPointer(n: Node, ok: bool, accept: bool)
    requires n.session.sending && n.session.ended == []
    ensures var n' := Call(n, EvCompleted(ok, accept));
            && n'.session.closed == n.session.closed
            && (n'.session.ended != [] <==> CompletionEnds(n.session, ok, accept))
            && (n'.session.ended == [] ==> n'.linked == n.linked)
  {
    CompletionEndsExactly(n.session, ok, accept);
    ProcessKeepsFlags(n.session.(sending := false, rblock := None), accept);
  }

  lemma CompletionStep(s: Slot, k: nat, ok: bool, accept: bool)
    requires Ready(s, Done(k, ok, accept))
    ensures var s' := CompleteOne(s, k, ok, accept);
            && |s'| == |s|
            && (Open(Last(s').session) ==>
                  && Open(Last(s).session)
                  && (Last(s').linked <==> Last(s).linked && !Cuts(s, Done(k, ok, accept))))
  {
    CompletionPointer(s[k], ok, accept);
    var n' := Call(s[k], EvCompleted(ok, accept));
    assert Last(s[k := n']) == if k == |s| - 1 then n' else Last(s);
  }

  /** One step: an open session that stays the current one keeps its pointer, exactly unless an earlier session
      of the slot ends. */
  lemma PointerStep(s: Slot, e: SlotEvent)
    requires SlotInv(s) && Ready(s, e) && s != [] && !e.Connect? && Open(Last(SlotStep(s, e)).session)
    ensures Open(Last(s).session)
    ensures Last(SlotStep(s, e)).linked <==> Last(s).linked && !Cuts(s, e)
  {
    match e
    case Receive(payload, isLast, allocs, accept, closeAccept) =>
      CurrentPointer(Last(s), Data(payload, isLast, allocs, accept, closeAccept));
    case Disconnect(closeAccept) => CurrentPointer(Last(s), Cleanup(closeAccept));
    case Done(k, ok, accept) => CompletionStep(s, k, ok, accept);
  }

  /** No earlier session of the slot has ended since the current one was opened. */
  ghost predicate Uncut(es: seq<SlotEvent>) {
    forall m :: 0 <= m < |es| ==> !CutsAt(es, m)
  }

  lemma UncutStep(es: seq<SlotEvent>)
    requires es != []
    ensures var n := |es| - 1; Uncut(es) <==> es[n].Connect? || (Uncut(es[..n]) && !CutsAt(es, n))
  {
    var n := |es| - 1;
    forall m | 0 <= m < n ensures CutsAt(es, m) <==> CutsAt(es[..n], m) && !es[n].Connect? {
      assert es[..n][..m] == es[..m];
      assert forall j :: m < j < n ==> es[..n][j] == es[j];
    }
  }

  lemma CutsNow(es: seq<SlotEvent>)
    requires es != [] && SlotRun(es[..|es| - 1]).Some?
    ensures CutsAt(es, |es| - 1) <==> Cuts(SlotRun(es[..|es| - 1]).value, es[|es| - 1])
  {
  }

  /** The last step of a run that ends in `s'`, with its current session open. */
  lemma LastStep(es: seq<SlotEvent>, s': Slot) returns (s: Slot)
    requires es != [] && SlotRun(es) == Some(s') && s' != [] && Open(Last(s').session)
    ensures SlotRun(es[..|es| - 1]) == Some(s)
    ensures var e := es[|es| - 1];
            if e.Connect? then Last(s').linked
            else s != [] && Open(Last(s).session)
                 && (Last(s').linked <==> Last(s).linked && !CutsAt(es, |es| - 1))
  {
    s := SlotRun(es[..|es| - 1]).value;
    SlotRunKeeps(es[..|es| - 1]);
    if !es[|es| - 1].Connect? {
      PointerStep(s, es[|es| - 1]);
      CutsNow(es);
    }
  }

  lemma {:induction false} PointerWhileUncut(es: seq<SlotEvent>, s': Slot)
    requires SlotRun(es) == Some(s') && s' != [] && Open(Last(s').session)
    ensures Last(s').linked <==> Uncut(es)
    decreases |es|
  {
    var n := |es| - 1;
    var s := LastStep(es, s');
    UncutStep(es);
    if !es[n].Connect? {
      PointerWhileUncut(es[..n], s);
    }
  }

  /** When the pointer to an open session is lost, exactly: on every run, the current session, being open, is
      still in node->uplink if and only if no earlier session of the slot has ended since it was opened. */
  lemma PointerLostExactly(es: seq<SlotEvent>)
    requires SlotRun(es).Some? && SlotRun(es).value != [] && Open(Last(SlotRun(es).value).session)
    ensures Last(SlotRun(es).value).linked <==> forall m :: 0 <= m < |es| ==> !CutsAt(es, m)
  {
    PointerWhileUncut(es, SlotRun(es).value);
  }

  // ---------------------------------------------------------------- what becomes of it

  /** Session `j` is open, but nobody has a pointer to it. */
  predicate Orphan(s: Slot, j: nat) {
    j < |s| && !s[j].linked && !s[j].session.closed
  }

  lemma OrphanCompletes(s: Slot, k: nat, ok: bool, accept: bool, j: nat)
    requires Ready(s, Done(k, ok, accept)) && Orphan(s, j)
    ensures var s' := CompleteOne(s, k, ok, accept);
            Orphan(s', j) && s'[j].session.written == s[j].session.written
  {
    CompletionPointer(s[k], ok, accept);
    OthersTakeNothing(s[k].session, EvCompleted(ok, accept));
    var n' := Call(s[k], EvCompleted(ok, accept));
    assert n'.linked ==> s[k].linked;
    var s' := s[k := n'];
    assert s'[j] == if j == k then n' else s[j];
    assert CompleteOne(s, k, ok, accept)[j].session == s'[j].session;
  }

  lemma OrphanCurrent(s: Slot, e: LinkEvent, j: nat)
    requires SlotInv(s) && s != [] && !Last(s).fault && (e.Data? || e.Cleanup?) && Orphan(s, j)
    ensures var s' := SetLast(s, LinkStep(Last(s), e)); Orphan(s', j) && s'[j].session.written == s[j].session.written
  {
    CurrentKeeps(Last(s), e);
    if j < |s| - 1 {
      assert SetLast(s, LinkStep(Last(s), e))[j] == s[j];
    } else {
      assert s[j] == Last(s) && LinkStep(Last(s), e) == Last(s);
    }
  }

  lemma OrphanStep(s: Slot, e: SlotEvent, j: nat)
    requires SlotInv(s) && Ready(s, e) && Orphan(s, j)
    ensures Orphan(SlotStep(s, e), j) && SlotStep(s, e)[j].session.written == s[j].session.written
  {
    match e
    case Connect =>
    case Receive(payload, isLast, allocs, accept, closeAccept) =>
      OrphanCurrent(s, Data(payload, isLast, allocs, accept, closeAccept), j);
    case Disconnect(closeAccept) => OrphanCurrent(s, Cleanup(closeAccept), j);
    case Done(k, ok, accept) => OrphanCompletes(s, k, ok, accept, j);
  }

  /** It is never closed: it takes in nothing more, and success is never reported for it. */
  lemma {:induction false} OrphanStays(es: seq<SlotEvent>, n: nat, j: nat)
    requires SlotRun(es).Some? && n <= |es| && SlotRun(es[..n]).Some? && Orphan(SlotRun(es[..n]).value, j)
    ensures Orphan(SlotRun(es).value, j)
    ensures var session := SlotRun(es).value[j].session;
            session.written == SlotRun(es[..n]).value[j].session.written && Success !in session.ended
    decreases |es|
  {
    SlotRunKeeps(es);
    if n == |es| {
      assert es[..n] == es;
    } else {
      var m := |es| - 1;
      assert es[..m][..n] == es[..n];
      OrphanStays(es[..m], n, j);
      SlotRunKeeps(es[..m]);
      OrphanStep(SlotRun(es[..m]).value, es[m], j);
    }
  }

  /** Data for it are refused. */
  lemma OrphanRefuses(n: Node, payload: seq<byte>, isLast: bool, allocs: nat, accept: bool, closeAccept: bool)
    requires !n.linked
    ensures AfterData(n, payload, isLast, allocs, accept, closeAccept) == (n, NoLink)
  {
  }

  lemma Next(es: seq<SlotEvent>, n: nat, s: Slot, s': Slot)
    requires n < |es| && SlotRun(es[..n]) == Some(s) && Ready(s, es[n]) && SlotStep(s, es[n]) == s'
    ensures SlotRun(es[..n + 1]) == Some(s')
  {
    assert es[..n + 1][..n] == es[..n];
  }

  /** A node that sends one byte and is done. */
  function OneByte(b: byte): Node {
    LinkStep(FRESH_LINK, Data([b], true, 0, true, true))
  }

  lemma OneByteSends(b: byte)
    ensures var n := OneByte(b);
            && !n.linked && !n.fault && n.session.sending && n.session.ended == []
            && n.session.closed && n.session.queue == []
  {
    assert [] + [b] == [b] && Chunk([b]) == [[b]];
  }

  lemma EndClearsPointer(first: Node, second: Node)
    requires first.session.sending && first.session.ended == [] && first.session.closed && first.session.queue == []
    ensures var s := CompleteOne([first, second], 0, true, true);
            |s| == 2 && s[0].session.ended == [Success] && s[1] == second.(linked := false)
  {
    var s := [first, second][0 := Call(first, EvCompleted(true, true))];
    assert Last(s) == second;
  }

  lemma OneByteArrives(b: byte)
    ensures SlotStep([FRESH_LINK], Receive([b], true, 0, true, true)) == [OneByte(b)]
  {
  }

  lemma DisconnectAgain(n: Node)
    requires !n.linked && !n.fault
    ensures SlotStep([n], Disconnect(true)) == [n]
  {
  }

  /** The first connection: the node sends all it has and disconnects. */
  function FirstUpload(b: byte): seq<SlotEvent> {
    [Connect, Receive([b], true, 0, true, true), Disconnect(true)]
  }

  lemma FirstUploadRuns(b: byte)
    ensures SlotRun(FirstUpload(b)) == Some([OneByte(b)])
  {
    var es := FirstUpload(b);
    OneByteSends(b);
    OneByteArrives(b);
    DisconnectAgain(OneByte(b));
    assert es[..0] == [] && es[..3] == es;
    Next(es, 0, [], [FRESH_LINK]);
    Next(es, 1, [FRESH_LINK], [OneByte(b)]);
    Next(es, 2, [OneByte(b)], [OneByte(b)]);
  }

  /** Connecting again and then ending the first upload, whatever it was. */
  lemma SecondIsCut(es: seq<SlotEvent>, n: Node)
    requires SlotRun(es) == Some([n]) && !n.linked && !n.fault
    requires n.session.sending && n.session.ended == [] && n.session.closed && n.session.queue == []
    ensures SlotRun(es + [Connect] + [Done(0, true, true)]) == Some(CompleteOne([n, FRESH_LINK], 0, true, true))
  {
    var one, two := es + [Connect], es + [Connect] + [Done(0, true, true)];
    assert one[..|es|] == es && one[..|es| + 1] == one;
    Next(one, |es|, [n], [n, FRESH_LINK]);
    assert two[..|es| + 1] == one && two[..|es| + 2] == two;
    Next(two, |es| + 1, [n, FRESH_LINK], CompleteOne([n, FRESH_LINK], 0, true, true));
  }

  /** A run that loses the pointer: the node connects again, and the end of the first upload cuts the second
      session off. It is open, and what the node sends is refused. */
  lemma PointerLossHappens(b: byte)
    ensures var es := FirstUpload(b) + [Connect] + [Done(0, true, true)];
            && SlotRun(es).Some? && |SlotRun(es).value| == 2
            && SlotRun(es).value[0].session.ended == [Success]
            && Open(SlotRun(es).value[1].session) && !SlotRun(es).value[1].linked
  {
    OneByteSends(b);
    FirstUploadRuns(b);
    SecondIsCut(FirstUpload(b), OneByte(b));
    EndClearsPointer(OneByte(b), FRESH_LINK);
  }
}
