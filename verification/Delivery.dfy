/** One connection and its downlink as a whole: the stages of a node (lib/bt/downlink.c), the context behind
    node->downlink_ctx, and all other contexts on the slab (lib/downlink.c). What is an assumption about the
    transport in DownlinkParties is a result here. */
module Delivery {
  import opened Bytes
  import opened PacketizerSlot
  import opened DownlinkModel
  import S = StageModel
  import P = DownlinkParties
  import D = DownlinkSystem

  /** `ctx` is the context this connection has opened, `attached` that its uplink is open, so that the cloud client
      knows the context. `heard` counts the calls of data_available_cb that have reached the node, `trace` is all
      that was done to contexts. `illegal`: the node has used a context as the transport must not. */
  datatype Conn = Conn(
    node: S.Node, sys: D.System, ctx: Option<nat>, attached: bool, heard: nat, trace: seq<D.SysEvent>, illegal: bool)

  /** The connection begins after `before` has happened to the contexts of others. */
  function Begin(before: seq<D.SysEvent>): Conn
    requires D.Run(before).Some?
  {
    Conn(S.FRESH_NODE, D.Run(before).value, None, false, 0, before, false)
  }

  /** A callback of the node; what the cloud client does with this connection's context; a read by the packetizer;
      or anything that happens to the contexts of other connections. */
  datatype Event = Stage(e: S.Event) | Cloud(act: P.Event) | Pull(want: nat) | Other(sysEvent: D.SysEvent)

  function Own(c: Conn): P.Ctx
    requires c.ctx.Some? && c.ctx.value < |c.sys.ctxs|
  {
    c.sys.ctxs[c.ctx.value]
  }

  predicate HasOwn(c: Conn) {
    c.ctx.Some? && c.ctx.value < |c.sys.ctxs|
  }

  /** The cloud client behaves as always. The packetizer reads until it has been told of the last, the sender
      completes only then, and the node hears of data as often as the context calls. */
  predicate Possible(c: Conn, e: Event) {
    match e
    case Stage(event) =>
      && S.Possible(c.node, event)
      && (event == S.DownEv(S.Complete) && c.node.slot.down.peer ==> HasOwn(c) && Own(c).down.complete)
      && (event.DataAvailableEv? ==> HasOwn(c) && c.heard < Own(c).down.wakeups)
    case Cloud(event) =>
      (event.BlockEv? || event.EndEv?) && c.attached && HasOwn(c) && P.Possible(Own(c), event)
    case Pull(_) => c.node.slot.pk.current.Some? && c.node.slot.down.peer && HasOwn(c) && !Own(c).down.complete
    case Other(event) => D.Allowed(c.sys, event) && (event.At? ==> c.ctx != Some(event.i))
  }

  /** A use of a context, which counts as illegal if DownlinkParties does not allow it. */
  function Use(c: Conn, e: D.SysEvent): Conn {
    if D.Allowed(c.sys, e) then c.(sys := D.SysStep(c.sys, e), trace := c.trace + [e]) else c.(illegal := true)
  }

  function UseOwn(c: Conn, e: P.Event): Conn {
    if c.ctx.Some? then Use(c, D.At(c.ctx.value, e)) else c.(illegal := true)
  }

  function EnvOf(e: S.Event): Option<S.Env> {
    match e
    case DiscoveryEv(v) => Some(v)
    case InfoEv(_, v) => Some(v)
    case CertEv(_, _, v) => Some(v)
    case DevEv(_, v) => Some(v)
    case _ => None
  }

  /** pouch_gateway_downlink_open is reached and grants a context. */
  predicate Opens(n: S.Node, n': S.Node, a: S.Attrs, e: S.Event) {
    && n'.past.uplinks > n.past.uplinks && a.uplinkCcc && a.downlink
    && EnvOf(e).Some? && EnvOf(e).value.down.mtu && EnvOf(e).value.down.ctx
  }

  /** Behind pouch_gateway_downlink_start: a failing one aborts the context it has opened, and only a successful
      one goes on to pouch_gateway_uplink_open. */
  function Opened(c: Conn, n: S.Node, v: S.Env): Conn {
    var c' := Use(c, D.OpenEv).(ctx := Some(|c.sys.ctxs|));
    if n.slot.downlinkMade then c'.(attached := v.upOpen) else UseOwn(c', P.AbortEv)
  }

  /** node->downlink_ctx is given up: closed by the completion, otherwise aborted. */
  function LetGo(c: Conn, e: S.Event): Conn {
    UseOwn(c, if e == S.DownEv(S.Complete) then P.CompleteEv else P.AbortEv)
  }

  /** What a step of the stages from `c.node` to `n` does to the context. */
  function Contexts(c: Conn, a: S.Attrs, e: S.Event, n: S.Node): Conn {
    if Opens(c.node, n, a, e) then Opened(c, n, EnvOf(e).value)
    else if c.node.slot.down.ctx && !n.slot.down.ctx then LetGo(c, e)
    else c
  }

  function Step(c: Conn, a: S.Attrs, e: Event): Conn {
    match e
    case Stage(event) =>
      var n := S.Step(c.node, a, event);
      var c' := Contexts(c, a, event, n);
      c'.(node := n, heard := if event.DataAvailableEv? then c.heard + 1 else c.heard)
    case Cloud(event) => UseOwn(c, event)
    case Pull(want) => UseOwn(c, P.ReadEv(want))
    case Other(event) => Use(c, event)
  }

  function Run(before: seq<D.SysEvent>, a: S.Attrs, es: seq<Event>): Option<Conn>
    requires D.Run(before).Some?
  {
    if es == [] then Some(Begin(before))
    else
      var c, e := Run(before, a, es[..|es| - 1]), es[|es| - 1];
      if c.Some? && Possible(c.value, e) then Some(Step(c.value, a, e)) else None
  }

  // ---------------------------------------------------------------- what the stages do to the downlink

  predicate DownKept(n: S.Node, n': S.Node) {
    && n'.slot.down == n.slot.down && n'.slot.downValue == n.slot.downValue
    && n'.slot.downlinkMade == n.slot.downlinkMade && n'.past.uplinks == n.past.uplinks
  }

  /** The uplink stage has been entered, with or without success. */
  predicate Entered(n: S.Node, n': S.Node, a: S.Attrs, v: S.Env) {
    && n'.past.uplinks == n.past.uplinks + 1
    && (n'.slot.downlinkMade <==> a.uplinkCcc && a.downlink && v.down == DownEnv(true, true, true, true))
    && n'.slot.down == Side(n'.slot.downlinkMade, n'.slot.downlinkMade, false)
    && (n'.slot.downlinkMade ==> !n'.slot.downValue)
  }

  lemma UplinkDown(n: S.Node, a: S.Attrs, v: S.Env)
    requires n.slot.down == NO_SIDE && !n.slot.downlinkMade
    ensures Entered(n, S.UplinkStart(n, a, v), a, v)
  {
  }

  lemma DeviceDown(n: S.Node, a: S.Attrs, v: S.Env)
    requires n.slot.down == NO_SIDE && !n.slot.downlinkMade
    ensures var n' := S.DeviceCertRead(n, a, v); DownKept(n, n') || Entered(n, n', a, v)
  {
    UplinkDown(n, a, v);
  }

  lemma PrepareDown(s: Slot, v: CertEnv)
    ensures var s' := CertPrepare(s, v).0;
            s'.down == s.down && s'.downValue == s.downValue && s'.downlinkMade == s.downlinkMade
  {
  }

  lemma CertDown(n: S.Node, a: S.Attrs, v: S.Env)
    requires n.slot.down == NO_SIDE && !n.slot.downlinkMade
    ensures var n' := S.ServerCertWrite(n, a, v); DownKept(n, n') || Entered(n, n', a, v)
  {
    DeviceDown(n, a, v);
    PrepareDown(n.slot, v.cert);
  }

  lemma NextDown(n: S.Node, a: S.Attrs, v: S.Env)
    requires n.slot.down == NO_SIDE && !n.slot.downlinkMade
    ensures var n' := S.CertNext(n, a, v); DownKept(n, n') || Entered(n, n', a, v)
  {
    DeviceDown(n, a, v);
    CertDown(n, a, v);
  }

  /** A stage callback enters the uplink stage, or leaves the downlink alone. */
  ghost predicate Effect(n: S.Node, n': S.Node, a: S.Attrs, e: S.Event) {
    || DownKept(n, n')
    || (EnvOf(e).Some? && Entered(n, n', a, EnvOf(e).value)
        && n.slot.down == NO_SIDE && !n.slot.downlinkMade && n.past.uplinks == 0)
  }

  lemma InfoDown(n: S.Node, a: S.Attrs, e: S.Event)
    requires S.Inv(n, a) && e.InfoEv?
    ensures Effect(n, S.Step(n, a, e), a, e)
  {
    if e.note == S.Complete && n.info.peer {
      CertDown(n.(info := Released(n.info)), a, e.v);
    }
  }

  lemma CertStageDown(n: S.Node, a: S.Attrs, e: S.Event)
    requires S.Inv(n, a) && S.Possible(n, e) && e.CertEv?
    ensures Effect(n, S.Step(n, a, e), a, e)
  {
    if e.note == S.Terminated {
      NextDown(n.(slot := CertEnd(n.slot)), a, e.v);
    }
  }

  lemma DevStageDown(n: S.Node, a: S.Attrs, e: S.Event)
    requires S.Inv(n, a) && e.DevEv?
    ensures Effect(n, S.Step(n, a, e), a, e)
  {
    if e.note == S.Complete && n.dev.peer {
      UplinkDown(n.(dev := Released(n.dev)), a, e.v);
    }
  }

  lemma StageDown(n: S.Node, a: S.Attrs, e: S.Event)
    requires S.Inv(n, a) && S.Possible(n, e) && !e.DataAvailableEv? && !e.DownEv? && !e.StopEv?
    ensures Effect(n, S.Step(n, a, e), a, e)
  {
    match e
    case DiscoveryEv(v) => UplinkDown(n.(past := n.past.(begun := true)), a, v);
    case InfoEv(_, _) => InfoDown(n, a, e);
    case CertEv(_, _, _) => CertStageDown(n, a, e);
    case DevEv(_, _) => DevStageDown(n, a, e);
    case _ =>
  }

  // ---------------------------------------------------------------- invariant

  /** As long as data_available_cb was not called, nothing was received and the transport waits. */
  ghost predicate QuietUntilCalled(d: Down) {
    d.wakeups == 0 ==> d.received == [] && d.waiting
  }

  /** The context this connection has opened, seen from the node: it has let go of it exactly if its pointer is
      NULL, and a sender without context has completed it. Nobody else knows a context that is not attached. */
  ghost predicate OwnInv(n: S.Node, own: P.Ctx, attached: bool, heard: nat) {
    && (n.slot.down.ctx <==> !own.detached)
    && (n.slot.down.peer && !n.slot.down.ctx ==> own.down.complete)
    && (!attached ==> !own.ended && !own.lastTaken)
    && (n.slot.downlinkMade ==> (heard > 0 <==> n.slot.downValue))
    && (!n.slot.downlinkMade ==> heard == 0)
    && QuietUntilCalled(own.down)
  }

  /** All that was done to contexts is a run of DownlinkSystem. */
  ghost predicate Legal(c: Conn) {
    D.Run(c.trace) == Some(c.sys) && D.SysInv(c.sys)
  }

  ghost predicate Inv(c: Conn, a: S.Attrs) {
    && S.Inv(c.node, a) && Legal(c) && !c.illegal
    && (c.ctx.Some? ==> HasOwn(c) && c.node.past.uplinks == 1 && OwnInv(c.node, Own(c), c.attached, c.heard))
    && (c.ctx == None ==> !c.attached && !c.node.slot.downlinkMade && c.node.slot.down == NO_SIDE && c.heard == 0)
  }

  lemma OwnStep(free: seq<nat>, own: P.Ctx, e: P.Event)
    requires P.CtxInv(own) && P.Possible(own, e) && QuietUntilCalled(own.down)
    ensures var own' := P.Step(free, own, e).1;
            && QuietUntilCalled(own'.down)
            && (own'.detached <==> own.detached || e.CompleteEv? || e.AbortEv?)
            && (own.down.complete ==> own'.down.complete)
            && (!e.BlockEv? && !e.EndEv? ==> own'.ended == own.ended && own'.lastTaken == own.lastTaken)
  {
    D.StepWakes(free, own, e);
  }

  lemma UseKeeps(c: Conn, e: D.SysEvent)
    requires Legal(c) && D.Allowed(c.sys, e)
    ensures var c' := Use(c, e);
            Legal(c') && c'.sys == D.SysStep(c.sys, e) && c' == c.(sys := c'.sys, trace := c'.trace)
  {
    var trace := c.trace + [e];
    assert trace[..|trace| - 1] == c.trace;
    D.SysStepKeeps(c.sys, e);
  }

  lemma UseOwnKeeps(c: Conn, e: P.Event)
    requires Legal(c) && HasOwn(c) && P.Possible(Own(c), e) && QuietUntilCalled(Own(c).down)
    ensures var c' := UseOwn(c, e);
            && Legal(c') && HasOwn(c') && Own(c') == P.Step(c.sys.free, Own(c), e).1
            && c' == c.(sys := c'.sys, trace := c'.trace)
  {
    UseKeeps(c, D.At(c.ctx.value, e));
  }

  /** The system after a new context is opened: it is the last, and nobody has used it. */
  lemma OpenKeeps(c: Conn)
    requires Legal(c)
    ensures var c' := Use(c, D.OpenEv).(ctx := Some(|c.sys.ctxs|));
            Legal(c') && HasOwn(c') && Own(c') == P.NEW_CTX && c'.illegal == c.illegal
  {
    UseKeeps(c, D.OpenEv);
  }

  lemma EnteredKeeps(c: Conn, a: S.Attrs, e: S.Event)
    requires Inv(c, a) && S.Possible(c.node, e) && EnvOf(e).Some?
    requires Entered(c.node, S.Step(c.node, a, e), a, EnvOf(e).value)
    requires c.node.slot.down == NO_SIDE && c.node.past.uplinks == 0
    ensures Inv(Step(c, a, Stage(e)), a)
  {
    S.StepKeeps(c.node, a, e);
    var n, v := S.Step(c.node, a, e), EnvOf(e).value;
    if Opens(c.node, n, a, e) {
      OpenKeeps(c);
      if !n.slot.downlinkMade {
        var c' := Use(c, D.OpenEv).(ctx := Some(|c.sys.ctxs|));
        OwnStep(c'.sys.free, P.NEW_CTX, P.AbortEv);
        UseOwnKeeps(c', P.AbortEv);
      }
    }
  }

  lemma LetGoKeeps(c: Conn, e: P.Event)
    requires Legal(c) && HasOwn(c) && !Own(c).detached && QuietUntilCalled(Own(c).down)
    requires e.AbortEv? || (e.CompleteEv? && Own(c).down.complete)
    ensures var c' := UseOwn(c, e);
            && Legal(c') && HasOwn(c') && c' == c.(sys := c'.sys, trace := c'.trace)
            && Own(c').detached && QuietUntilCalled(Own(c').down)
            && (Own(c).down.complete ==> Own(c').down.complete)
            && Own(c').ended == Own(c).ended && Own(c').lastTaken == Own(c).lastTaken
  {
    UseOwnKeeps(c, e);
    OwnStep(c.sys.free, Own(c), e);
  }

  /** What the downlink's own callbacks do to the slot. */
  lemma DownlinkDown(n: S.Node, a: S.Attrs, e: S.Event)
    requires S.Inv(n, a) && S.Possible(n, e) && (e.DataAvailableEv? || e.DownEv? || e.StopEv?)
    ensures var n' := S.Step(n, a, e);
            && n'.past.uplinks == n.past.uplinks && n'.slot.downlinkMade == n.slot.downlinkMade
            && n'.slot.downValue == (n.slot.downValue || e.DataAvailableEv?)
            && (n'.slot.down.ctx ==> n.slot.down.ctx)
            && (n'.slot.down.peer && !n'.slot.down.ctx ==>
                  n.slot.down.peer && (!n.slot.down.ctx || e == S.DownEv(S.Complete)))
            && (!n.slot.downlinkMade ==> n'.slot.down == n.slot.down)
  {
  }

  /** The node lets go of its context. */
  predicate Drops(n: S.Node, n': S.Node) {
    n.slot.down.ctx && !n'.slot.down.ctx
  }

  lemma DropKeeps(c: Conn, a: S.Attrs, e: S.Event)
    requires Inv(c, a) && Possible(c, Stage(e)) && (e.DataAvailableEv? || e.DownEv? || e.StopEv?)
    requires Drops(c.node, S.Step(c.node, a, e)) && S.Inv(S.Step(c.node, a, e), a)
    ensures Inv(Step(c, a, Stage(e)), a)
  {
    DownlinkDown(c.node, a, e);
    LetGoKeeps(c, if e == S.DownEv(S.Complete) then P.CompleteEv else P.AbortEv);
  }

  lemma HoldKeeps(c: Conn, a: S.Attrs, e: S.Event)
    requires Inv(c, a) && Possible(c, Stage(e)) && (e.DataAvailableEv? || e.DownEv? || e.StopEv?)
    requires !Drops(c.node, S.Step(c.node, a, e)) && S.Inv(S.Step(c.node, a, e), a)
    ensures Inv(Step(c, a, Stage(e)), a)
  {
    DownlinkDown(c.node, a, e);
  }

  lemma DownlinkKeeps(c: Conn, a: S.Attrs, e: S.Event)
    requires Inv(c, a) && Possible(c, Stage(e)) && (e.DataAvailableEv? || e.DownEv? || e.StopEv?)
    ensures Inv(Step(c, a, Stage(e)), a)
  {
    S.StepKeeps(c.node, a, e);
    if Drops(c.node, S.Step(c.node, a, e)) {
      DropKeeps(c, a, e);
    } else {
      HoldKeeps(c, a, e);
    }
  }

  lemma StageKeeps(c: Conn, a: S.Attrs, e: S.Event)
    requires Inv(c, a) && Possible(c, Stage(e))
    ensures Inv(Step(c, a, Stage(e)), a)
  {
    if e.DataAvailableEv? || e.DownEv? || e.StopEv? {
      DownlinkKeeps(c, a, e);
    } else {
      StageDown(c.node, a, e);
      S.StepKeeps(c.node, a, e);
      if !DownKept(c.node, S.Step(c.node, a, e)) {
        EnteredKeeps(c, a, e);
      }
    }
  }

  lemma OwnKeeps(c: Conn, a: S.Attrs, e: P.Event)
    requires Inv(c, a) && HasOwn(c) && P.Possible(Own(c), e)
    requires e.ReadEv? || (c.attached && (e.BlockEv? || e.EndEv?))
    ensures Inv(UseOwn(c, e), a)
  {
    UseOwnKeeps(c, e);
    OwnStep(c.sys.free, Own(c), e);
  }

  lemma OtherKeeps(c: Conn, a: S.Attrs, e: D.SysEvent)
    requires Inv(c, a) && Possible(c, Other(e))
    ensures Inv(Use(c, e), a)
  {
    UseKeeps(c, e);
  }

  lemma StepKeeps(c: Conn, a: S.Attrs, e: Event)
    requires Inv(c, a) && Possible(c, e)
    ensures Inv(Step(c, a, e), a)
  {
    match e
    case Stage(event) => StageKeeps(c, a, event);
    case Cloud(event) => OwnKeeps(c, a, event);
    case Pull(want) => OwnKeeps(c, a, P.ReadEv(want));
    case Other(event) => OtherKeeps(c, a, event);
  }

  lemma {:induction false} RunKeeps(before: seq<D.SysEvent>, a: S.Attrs, es: seq<Event>)
    requires D.Run(before).Some? && Run(before, a, es).Some?
    ensures Inv(Run(before, a, es).value, a)
  {
    if es == [] {
      D.RunKeeps(before);
    } else {
      var n := |es| - 1;
      RunKeeps(before, a, es[..n]);
      StepKeeps(Run(before, a, es[..n]).value, a, es[n]);
    }
  }

  // ---------------------------------------------------------------- what every run guarantees

  /** The stages use contexts as the transport of DownlinkParties does: whatever happens to a connection and to all
      others is a run of DownlinkSystem, so that its theorems hold. In particular the node never reads a context
      it has let go of, lets go of none twice, and closes none that is not complete. */
  lemma NodeIsLegalTransport(before: seq<D.SysEvent>, a: S.Attrs, es: seq<Event>)
    requires D.Run(before).Some? && Run(before, a, es).Some?
    ensures var c := Run(before, a, es).value; !c.illegal && D.Run(c.trace) == Some(c.sys)
  {
    RunKeeps(before, a, es);
  }

  /** The node's pointer: it names the context this connection has opened, until the transport lets go of it. */
  lemma PointerNamesContext(before: seq<D.SysEvent>, a: S.Attrs, es: seq<Event>)
    requires D.Run(before).Some? && Run(before, a, es).Some?
    ensures var c := Run(before, a, es).value;
            c.node.slot.down.ctx <==> c.ctx.Some? && c.ctx.value < |c.sys.ctxs| && !c.sys.ctxs[c.ctx.value].detached
  {
    RunKeeps(before, a, es);
  }

  /** A context that was opened, but whose uplink was not, is never closed, whoever lets go of it: no end_cb comes
      that would close it. */
  lemma UnattachedNeverClosed(before: seq<D.SysEvent>, a: S.Attrs, es: seq<Event>)
    requires D.Run(before).Some? && Run(before, a, es).Some?
    requires Run(before, a, es).value.ctx.Some? && !Run(before, a, es).value.attached
    ensures HasOwn(Run(before, a, es).value) && Own(Run(before, a, es).value).closes == 0
  {
    RunKeeps(before, a, es);
    var c := Run(before, a, es).value;
    assert P.CtxInv(Own(c));
  }

  /** What is left behind, in terms of the cloud: once the node has heard every call of data_available_cb, the
      downlink was never subscribed to, and so stays when the connection ends, exactly if none was ever made,
      that is if no block was accepted and no error reported. */
  lemma LeftBehindUnheard(before: seq<D.SysEvent>, a: S.Attrs, es: seq<Event>)
    requires D.Run(before).Some? && Run(before, a, es).Some?
    requires var c := Run(before, a, es).value;
             c.node.slot.downlinkMade && HasOwn(c) && c.heard == Own(c).down.wakeups
    ensures var c := Run(before, a, es).value;
            && (S.NeverSubscribed(c.node.slot) <==> Own(c).down.wakeups == 0)
            && (S.NeverSubscribed(c.node.slot) ==> Own(c).down.received == [] && !Own(c).down.coapError)
  {
    RunKeeps(before, a, es);
    var c := Run(before, a, es).value;
    assert P.CtxInv(Own(c));
  }

  /** A run that loses a context: the packetizer cannot be started, and the context just opened is aborted, which
      leaves closing it to an end_cb that never comes. */
  lemma OpenFailureLeaks(a: S.Attrs, v: S.Env)
    requires !a.serverCert && a.uplinkCcc && a.downlink && v.down == DownEnv(true, true, false, true)
    ensures var es := [Stage(S.DiscoveryEv(v))];
            && Run([], a, es).Some?
            && var c := Run([], a, es).value;
            && c.ctx == Some(0) && !c.attached && !c.node.slot.down.ctx
            && HasOwn(c) && Own(c).detached && Own(c).closes == 0
  {
    var es := [Stage(S.DiscoveryEv(v))];
    assert es[..0] == [] && D.Run([]) == Some(D.BOOT);
    assert Run([], a, es) == Some(Step(Begin([]), a, es[0]));
  }
}
