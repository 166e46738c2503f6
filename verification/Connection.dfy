/** One connection as a whole: the stages of a node (lib/bt) together with the certificate they send, which the
    cloud may replace at any time (lib/cert.c), and the serial number the node reports (lib/info.c). */
module Connection {
  import opened Bytes
  import opened PacketizerSlot
  import S = StageModel
  import C = CertModel

  /** The certificate the node was last told is the newest, and the one installed at that moment; whether the
      buffer was unclean from the start or a download did harm; whether so many updates fell into one transfer
      that its id came round again; how many transfers were started, and the updates before the first; the
      serial number for which the node was taken to be provisioned, and the installed one at that moment. */
  datatype Log = Log(
    delivered: Option<seq<byte>>, current: seq<byte>, harmed: bool, wrapped: bool,
    transfers: nat, base: nat, claimed: Option<seq<byte>>, known: seq<byte>)

  /** `xfer` is the transfer behind node->server_cert_ctx. */
  datatype Conn = Conn(node: S.Node, store: C.Store, xfer: C.Transfer, log: Log)

  function Begin(store: C.Store): Conn {
    Conn(S.FRESH_NODE, store, C.Start(store), Log(None, [], !C.CleanStore(store), false, 0, store.updates, None, []))
  }

  /** A callback, but for info data, which bring the serial number of the certificate the node has; a connection
      to the cloud that brings a certificate; or a read by the packetizer. */
  datatype Event =
    | Stage(e: S.Event)
    | InfoArrives(isLast: bool, pushed: bool, parsed: bool, reported: seq<byte>, dev: bool)
    | Update(download: C.Download)
    | Pull(want: nat)

  /** pouch_gateway_info_finish compares the reported serial number with the installed one. */
  function InfoEvent(c: Conn, e: Event): S.Event
    requires e.InfoArrives?
  {
    S.InfoDataEv(e.isLast, e.pushed, e.parsed, e.reported == c.store.serial, e.dev)
  }

  /** The node acknowledges a whole certificate. */
  predicate Acknowledges(c: Conn, e: S.Event) {
    e.CertEv? && e.note == S.Complete && c.node.slot.cert.peer
  }

  /** As for the stages alone, but the sender completes only what was read to its end, and the answer of
      pouch_gateway_server_cert_is_newest is no longer arbitrary. */
  predicate Possible(c: Conn, e: Event) {
    match e
    case Stage(e) =>
      && S.Possible(c.node, e) && !e.InfoDataEv?
      && (Acknowledges(c, e) ==> c.xfer.finished && e.newest == C.IsNewest(c.store, c.xfer))
    case InfoArrives(_, _, _, _, _) => S.Possible(c.node, InfoEvent(c, e))
    case Update(download) => C.Fits(download)
    case Pull(_) => c.node.slot.cert.sub && !c.xfer.finished && C.HasData(c.store, c.xfer)
  }

  /** Between `n` and `n'` pouch_gateway_server_cert_write has started a transfer. */
  predicate Started(n: S.Node, n': S.Node) {
    n'.slot.cert.sub && n'.slot.pk.started > n.slot.pk.started
  }

  function Noted(c: Conn, e: S.Event): Log {
    if Acknowledges(c, e) && e.newest then
      c.log.(delivered := Some(c.xfer.pieces), current := c.store.installed,
             wrapped := c.log.wrapped || c.store.updates >= c.xfer.since + WORD)
    else c.log
  }

  /** The stages have moved on to `n`. */
  function Moved(c: Conn, n: S.Node, log: Log): Conn {
    if Started(c.node, n) then Conn(n, c.store, C.Start(c.store), log.(transfers := log.transfers + 1))
    else Conn(n, c.store, c.xfer, log)
  }

  function InfoNoted(c: Conn, e: Event): Log
    requires e.InfoArrives?
  {
    if e.isLast && e.pushed && e.parsed && e.reported == c.store.serial then
      c.log.(claimed := Some(e.reported), known := c.store.serial)
    else c.log
  }

  function Step(c: Conn, a: S.Attrs, e: Event): Conn
    requires Possible(c, e)
  {
    match e
    case Stage(event) => Moved(c, S.Step(c.node, a, event), Noted(c, event))
    case InfoArrives(_, _, _, _, _) => c.(node := S.Step(c.node, a, InfoEvent(c, e)), log := InfoNoted(c, e))
    case Update(download) =>
      c.(store := C.Connected(c.store, download),
         log := c.log.(harmed := c.log.harmed || !C.Harmless(c.store, download)))
    case Pull(want) => c.(xfer := C.ReadOn(c.store, c.xfer, want))
  }

  function RunFrom(c: Conn, a: S.Attrs, es: seq<Event>): Option<Conn> {
    if es == [] then Some(c)
    else
      var before, e := RunFrom(c, a, es[..|es| - 1]), es[|es| - 1];
      if before.Some? && Possible(before.value, e) then Some(Step(before.value, a, e)) else None
  }

  function Run(store: C.Store, a: S.Attrs, es: seq<Event>): Option<Conn> {
    RunFrom(Begin(store), a, es)
  }

  // ---------------------------------------------------------------- invariants

  /** The certificate half: transfer and buffer are sound, and so was what was delivered. */
  ghost predicate CertInv(c: Conn) {
    && C.TransferInv(c.store, c.xfer)
    && (!c.log.harmed ==> C.CleanStore(c.store) && C.PiecesSound(c.store, c.xfer))
    && (!c.log.harmed && !c.log.wrapped && c.log.delivered.Some? ==> c.log.delivered.value == c.log.current)
  }

  /** What the node was taken to have, or was sent. */
  ghost predicate EvidenceInv(c: Conn) {
    && (c.node.past.certFresh ==> c.log.delivered.Some?)
    && (c.node.srvProvisioned ==> c.log.claimed.Some?)
    && (c.log.claimed.Some? ==> c.log.claimed.value == c.log.known)
  }

  /** Transfers are started only in the info stage's wake, or because the last one was stale. */
  ghost predicate CountInv(c: Conn) {
    && c.log.base <= c.store.updates
    && (!c.node.past.begun || c.node.info.peer ==> c.log.transfers == 0)
    && (c.log.transfers > 0 ==> c.log.base + c.log.transfers <= c.xfer.since + 1)
    && (c.node.slot.cert.sub ==> c.log.transfers > 0)
    && (c.node.slot.cert.sub && c.node.next == S.NextServerCert ==> c.xfer.since < c.store.updates)
  }

  ghost predicate Inv(c: Conn, a: S.Attrs) {
    S.Inv(c.node, a) && CertInv(c) && EvidenceInv(c) && CountInv(c)
  }

  // ---------------------------------------------------------------- what a callback does to the certificate stage

  /** Nothing of this changes when a stage is entered. */
  predicate Kept(n: S.Node, n': S.Node) {
    && n'.info == n.info && n'.srvProvisioned == n.srvProvisioned
    && n'.past.begun == n.past.begun && n'.past.certFresh == n.past.certFresh
  }

  lemma UplinkEntry(n: S.Node, a: S.Attrs, v: S.Env)
    ensures var n' := S.UplinkStart(n, a, v); Kept(n, n') && n'.slot.cert == n.slot.cert && n'.next == n.next
  {
  }

  lemma DeviceEntry(n: S.Node, a: S.Attrs, v: S.Env)
    ensures var n' := S.DeviceCertRead(n, a, v); Kept(n, n') && n'.slot.cert == n.slot.cert && n'.next == n.next
  {
    UplinkEntry(n, a, v);
  }

  lemma PrepareEntry(s: Slot, v: CertEnv)
    ensures var (s', ok) := CertPrepare(s, v);
            s'.cert.sub == s.cert.sub && (ok ==> s'.pk.started == s.pk.started + 1)
  {
  }

  lemma SendEntry(n: S.Node, v: CertEnv)
    requires !n.slot.cert.sub
    ensures var n' := S.CertSent(n, v); Kept(n, n') && (n'.slot.cert.sub ==> Started(n, n') && n'.next == S.NextEnd)
  {
    PrepareEntry(n.slot, v);
  }

  lemma CertEntry(n: S.Node, a: S.Attrs, v: S.Env)
    requires !n.slot.cert.sub
    ensures var n' := S.ServerCertWrite(n, a, v);
            Kept(n, n') && (n'.slot.cert.sub ==> Started(n, n') && n'.next == S.NextEnd)
  {
    DeviceEntry(n, a, v);
    SendEntry(n, v.cert);
  }

  /** What the certificate half has to know of a step of the stages. */
  ghost predicate Effect(n: S.Node, e: S.Event, n': S.Node) {
    var acked := e.CertEv? && e.note == S.Complete && n.slot.cert.peer;
    && (n'.past.certFresh ==> n.past.certFresh || (acked && e.newest))
    && (n'.srvProvisioned ==> n.srvProvisioned)
    && (Started(n, n') ==>
          || (e.InfoEv? && n.info.peer)
          || (e.CertEv? && e.note == S.Terminated && n.slot.cert.sub && n.next == S.NextServerCert))
    && (n'.slot.cert.sub && !Started(n, n') ==>
          && n.slot.cert.sub
          && (n'.next == S.NextServerCert ==> n.next == S.NextServerCert || (acked && !e.newest)))
    && (Started(n, n') ==> n'.next == S.NextEnd && !n'.info.peer && n'.past.begun)
    && (!n'.past.begun || n'.info.peer ==> !n.past.begun || n.info.peer)
  }

  lemma DiscoveryEffect(n: S.Node, a: S.Attrs, e: S.Event)
    requires S.Inv(n, a) && S.Possible(n, e) && e.DiscoveryEv?
    ensures Effect(n, e, S.Step(n, a, e))
  {
    UplinkEntry(n.(past := n.past.(begun := true)), a, e.v);
  }

  lemma InfoEffect(n: S.Node, a: S.Attrs, e: S.Event)
    requires S.Inv(n, a) && S.Possible(n, e) && e.InfoEv?
    ensures Effect(n, e, S.Step(n, a, e))
  {
    if e.note == S.Complete && n.info.peer {
      CertEntry(n.(info := Released(n.info)), a, e.v);
    }
  }

  lemma NextEffect(n: S.Node, a: S.Attrs, v: S.Env)
    requires !n.slot.cert.sub
    ensures var n' := S.CertNext(n, a, v);
            && Kept(n, n') && n'.next == S.NextEnd
            && (n'.slot.cert.sub ==> Started(n, n') && n.next == S.NextServerCert)
  {
    DeviceEntry(n, a, v);
    CertEntry(n, a, v);
  }

  lemma CertEffect(n: S.Node, a: S.Attrs, e: S.Event)
    requires S.Inv(n, a) && S.Possible(n, e) && e.CertEv?
    ensures Effect(n, e, S.Step(n, a, e))
  {
    if e.note == S.Terminated {
      var m := n.(slot := CertEnd(n.slot));
      NextEffect(m, a, e.v);
      assert m.slot.pk.started == n.slot.pk.started && Kept(n, m);
    }
  }

  lemma DevEffect(n: S.Node, a: S.Attrs, e: S.Event)
    requires S.Inv(n, a) && S.Possible(n, e) && e.DevEv?
    ensures Effect(n, e, S.Step(n, a, e))
  {
    UplinkEntry(n.(dev := Released(n.dev)), a, e.v);
  }

  lemma OtherEffect(n: S.Node, a: S.Attrs, e: S.Event)
    requires S.Inv(n, a) && S.Possible(n, e)
    requires e.DevDataEv? || e.UpEv? || e.DataAvailableEv? || e.DownEv? || e.StopEv?
    ensures Effect(n, e, S.Step(n, a, e))
  {
  }

  lemma StageEffect(n: S.Node, a: S.Attrs, e: S.Event)
    requires S.Inv(n, a) && S.Possible(n, e) && !e.InfoDataEv?
    ensures Effect(n, e, S.Step(n, a, e))
  {
    match e
    case DiscoveryEv(_) => DiscoveryEffect(n, a, e);
    case InfoEv(_, _) => InfoEffect(n, a, e);
    case CertEv(_, _, _) => CertEffect(n, a, e);
    case DevEv(_, _) => DevEffect(n, a, e);
    case _ => OtherEffect(n, a, e);
  }

  // ---------------------------------------------------------------- every step keeps the invariant

  lemma StartIsSound(store: C.Store)
    ensures C.TransferInv(store, C.Start(store)) && C.PiecesSound(store, C.Start(store))
  {
    assert store.installed[..0] == [];
  }

  lemma NotedIsSound(c: Conn, e: S.Event)
    requires CertInv(c) && Possible(c, Stage(e))
    ensures CertInv(c.(log := Noted(c, e)))
  {
    if Acknowledges(c, e) && e.newest && c.store.updates < c.xfer.since + WORD {
      C.SameResidue(c.xfer.since, c.store.updates);
      assert c.store.installed[..|c.store.installed|] == c.store.installed;
    }
  }

  lemma StaleIsOlder(store: C.Store, t: C.Transfer)
    requires C.TransferInv(store, t) && !C.IsNewest(store, t)
    ensures t.since < store.updates
  {
  }

  lemma StageCounts(c: Conn, a: S.Attrs, e: S.Event)
    requires Inv(c, a) && Possible(c, Stage(e)) && Effect(c.node, e, S.Step(c.node, a, e))
    ensures CountInv(Step(c, a, Stage(e)))
  {
    if Acknowledges(c, e) && !e.newest {
      StaleIsOlder(c.store, c.xfer);
    }
    var n := S.Step(c.node, a, e);
    if Started(c.node, n) {
      assert e.InfoEv? && c.node.info.peer ==> c.log.transfers == 0;
    }
  }

  lemma StageKeeps(c: Conn, a: S.Attrs, e: S.Event)
    requires Inv(c, a) && Possible(c, Stage(e))
    ensures Inv(Step(c, a, Stage(e)), a)
  {
    S.StepKeeps(c.node, a, e);
    StageEffect(c.node, a, e);
    NotedIsSound(c, e);
    StartIsSound(c.store);
    StageCounts(c, a, e);
  }

  lemma InfoKeeps(c: Conn, a: S.Attrs, e: Event)
    requires Inv(c, a) && e.InfoArrives? && Possible(c, e)
    ensures Inv(Step(c, a, e), a)
  {
    S.StepKeeps(c.node, a, InfoEvent(c, e));
  }

  lemma CloudKeeps(c: Conn, a: S.Attrs, e: Event)
    requires CertInv(c) && Possible(c, e) && (e.Update? || e.Pull?)
    ensures CertInv(Step(c, a, e))
  {
    var s := C.Stage(c.store, C.Sending, c.xfer, 0, 0);
    var event := if e.Update? then C.Update(e.download) else C.Pull(e.want);
    C.StepKeeps(s, event);
    if !c.log.harmed && (e.Update? ==> C.Harmless(c.store, e.download)) {
      C.CleanStep(s, event);
    }
  }

  lemma StepKeeps(c: Conn, a: S.Attrs, e: Event)
    requires Inv(c, a) && Possible(c, e)
    ensures Inv(Step(c, a, e), a)
  {
    match e
    case Stage(event) => StageKeeps(c, a, event);
    case InfoArrives(_, _, _, _, _) => InfoKeeps(c, a, e);
    case Update(_) => CloudKeeps(c, a, e);
    case Pull(_) => CloudKeeps(c, a, e);
  }

  lemma {:induction false} RunFromKeeps(c: Conn, a: S.Attrs, es: seq<Event>)
    requires Inv(c, a) && RunFrom(c, a, es).Some?
    ensures Inv(RunFrom(c, a, es).value, a) && RunFrom(c, a, es).value.log.base == c.log.base
  {
    if es != [] {
      var n := |es| - 1;
      RunFromKeeps(c, a, es[..n]);
      StepKeeps(RunFrom(c, a, es[..n]).value, a, es[n]);
    }
  }

  lemma RunKeeps(store: C.Store, a: S.Attrs, es: seq<Event>)
    requires Run(store, a, es).Some?
    ensures Inv(Run(store, a, es).value, a) && Run(store, a, es).value.log.base == store.updates
  {
    StartIsSound(store);
    RunFromKeeps(Begin(store), a, es);
  }

  // ---------------------------------------------------------------- what every run guarantees

  /** When the uplink is entered with certificates to exchange, the node reported the serial number installed at
      that moment, or it was sent the certificate that was installed when it acknowledged it, in full, whatever
      updates came in between, unless the buffer was unclean or the id came round. */
  lemma UplinkWithCurrentCert(store: C.Store, a: S.Attrs, es: seq<Event>)
    requires Run(store, a, es).Some?
    requires Run(store, a, es).value.node.past.uplinks > 0 && a.serverCert && a.deviceCert
    ensures var log := Run(store, a, es).value.log;
            && (log.claimed.Some? || log.delivered.Some?)
            && (log.claimed.Some? ==> log.claimed.value == log.known)
            && (log.delivered.Some? && !log.harmed && !log.wrapped ==> log.delivered.value == log.current)
  {
    RunKeeps(store, a, es);
  }

  /** The stages resend, but not for ever: on every run at most one transfer more is started than updates have
      succeeded. */
  lemma TransfersBounded(store: C.Store, a: S.Attrs, es: seq<Event>)
    requires Run(store, a, es).Some?
    ensures Run(store, a, es).value.log.transfers <= 1 + Run(store, a, es).value.store.updates - store.updates
  {
    RunKeeps(store, a, es);
  }

  /** The last download of the run that succeeded. */
  function LastGood(es: seq<Event>): Option<C.Download> {
    if es == [] then None
    else
      var n := |es| - 1;
      if es[n].Update? && C.Succeeds(es[n].download) then Some(es[n].download) else LastGood(es[..n])
  }

  lemma OnlyUpdatesInstall(c: Conn, a: S.Attrs, e: Event)
    requires Possible(c, e) && !e.Update?
    ensures Step(c, a, e).store == c.store
  {
  }

  /** Serial number and certificate are, on every run, those of the last download that succeeded, and if none
      has, those of the beginning. So what ProvisionedExactly and UplinkWithCurrentCert call installed is. */
  lemma {:induction false} InstalledExactly(c: Conn, a: S.Attrs, es: seq<Event>)
    requires RunFrom(c, a, es).Some?
    ensures var store := RunFrom(c, a, es).value.store;
            match LastGood(es)
            case Some(d) => d.Fetched? && Some(store.serial) == d.serial && store.installed == d.bytes
            case None => store.serial == c.store.serial && store.installed == c.store.installed
  {
    if es != [] {
      var n := |es| - 1;
      InstalledExactly(c, a, es[..n]);
      if es[n].Update? {
        C.ConnectedExactly(RunFrom(c, a, es[..n]).value.store, es[n].download);
      } else {
        OnlyUpdatesInstall(RunFrom(c, a, es[..n]).value, a, es[n]);
      }
    }
  }

  /** Whatever call a stage makes to go on succeeds. */
  predicate Succeeding(a: S.Attrs, v: S.Env) {
    && a.deviceCcc && v.cert == CertEnv(true, true, true, true, true)
    && v.dev == S.ReadEnv(true, true, true)
  }

  /** The certificate stage is under way, its transfer read to the end, and `next` is to follow. */
  predicate Pending(c: Conn, next: S.Next) {
    c.node.slot.cert.sub && c.xfer.finished && c.node.next == next
  }

  /** Until the subscription says something, nothing that happens matters to it, not even an update. */
  lemma PendingStays(c: Conn, a: S.Attrs, e: Event, next: S.Next)
    requires Inv(c, a) && Pending(c, next) && Possible(c, e) && !(e.Stage? && e.e.CertEv?)
    ensures var c' := Step(c, a, e);
            && Pending(c', next) && c'.xfer == c.xfer && c'.log.transfers == c.log.transfers
            && c'.node.devProvisioned == c.node.devProvisioned
  {
  }

  lemma {:induction false} PendingUntilSaid(c: Conn, a: S.Attrs, es: seq<Event>, next: S.Next)
    requires Inv(c, a) && Pending(c, next) && RunFrom(c, a, es).Some?
    requires forall i :: 0 <= i < |es| ==> !(es[i].Stage? && es[i].e.CertEv?)
    ensures var c' := RunFrom(c, a, es).value;
            && Pending(c', next) && Inv(c', a) && c'.xfer == c.xfer && c'.log.transfers == c.log.transfers
            && c'.node.devProvisioned == c.node.devProvisioned
  {
    if es != [] {
      var n := |es| - 1;
      PendingUntilSaid(c, a, es[..n], next);
      StepKeeps(RunFrom(c, a, es[..n]).value, a, es[n]);
      PendingStays(RunFrom(c, a, es[..n]).value, a, es[n], next);
    }
  }

  /** The subscription ends, and the calls that follow succeed. */
  lemma SubscriptionEnds(c: Conn, a: S.Attrs, newest: bool, v: S.Env)
    requires Inv(c, a) && c.node.slot.cert.sub && Succeeding(a, v)
    ensures var e := Stage(S.CertEv(S.Terminated, newest, v));
            && Possible(c, e)
            && var c' := Step(c, a, e);
            match c.node.next
            case NextServerCert =>
              c'.node.slot.cert.sub && c'.node.next == S.NextEnd && c'.xfer == C.Start(c.store)
              && c'.log.transfers == c.log.transfers + 1
            case NextDeviceCert =>
              !c'.node.slot.cert.sub && c'.xfer == c.xfer && c'.log.transfers == c.log.transfers
              && (if c.node.devProvisioned then c'.node.past.uplinks == 1 else c'.node.dev == Side(true, true, true))
            case NextEnd =>
              !c'.node.slot.cert.sub && c'.xfer == c.xfer && c'.log.transfers == c.log.transfers
              && c'.node.dev == NO_SIDE && c'.node.past.uplinks == 0
  {
  }

  /** The resend rule, exactly. A transfer is acknowledged, and its subscription ends, with anything but its own
      notifications in between: if the calls that follow succeed, the stage is entered again, with a transfer
      of what is installed then, if and only if the transfer was not the newest when it was acknowledged; if it
      was, the device certificate comes next, or the uplink for a node that has it provisioned. */
  lemma ResendsExactly(c: Conn, a: S.Attrs, ack: S.Event, between: seq<Event>, v: S.Env)
    requires Inv(c, a) && Possible(c, Stage(ack)) && Acknowledges(c, ack) && Succeeding(a, v)
    requires RunFrom(Step(c, a, Stage(ack)), a, between).Some?
    requires forall i :: 0 <= i < |between| ==> !(between[i].Stage? && between[i].e.CertEv?)
    ensures var m := RunFrom(Step(c, a, Stage(ack)), a, between).value;
            var e := Stage(S.CertEv(S.Terminated, false, v));
            && Possible(m, e)
            && var c' := Step(m, a, e);
            && (c'.node.slot.cert.sub <==> !C.IsNewest(c.store, c.xfer))
            && (c'.node.slot.cert.sub ==>
                  c'.xfer == C.Start(m.store) && c'.log.transfers == c.log.transfers + 1)
            && (!c'.node.slot.cert.sub ==>
                  if c.node.devProvisioned then c'.node.past.uplinks == 1 else c'.node.dev == Side(true, true, true))
  {
    StepKeeps(c, a, Stage(ack));
    PendingUntilSaid(Step(c, a, Stage(ack)), a, between, if ack.newest then S.NextDeviceCert else S.NextServerCert);
    SubscriptionEnds(RunFrom(Step(c, a, Stage(ack)), a, between).value, a, false, v);
  }

  // ---------------------------------------------------------------- the resend rule as CertModel has it

  /** The certificate stage as one value: under way, left for what comes next, or given up. */
  function Abs(c: Conn): C.Stage {
    C.Stage(c.store,
            if c.node.slot.cert.sub then C.Sending
            else if c.node.dev.peer || c.node.past.uplinks > 0 then C.Delivered else C.Failed,
            c.xfer, if c.log.transfers > 0 then c.log.transfers - 1 else 0, c.log.base)
  }

  lemma AbsInv(c: Conn, a: S.Attrs)
    requires Inv(c, a) && c.log.transfers > 0
    ensures C.Inv(Abs(c))
  {
  }

  /** Sending, with nothing said yet. */
  predicate Fresh(c: Conn) {
    c.node.slot.cert.sub && c.node.next == S.NextEnd
  }

  function TwoNotes(first: S.Event, v: S.Env): seq<Event> {
    [Stage(first), Stage(S.CertEv(S.Terminated, false, v))]
  }

  lemma RunTwo(c: Conn, a: S.Attrs, first: S.Event, v: S.Env)
    requires Possible(c, Stage(first)) && Possible(Step(c, a, Stage(first)), Stage(S.CertEv(S.Terminated, false, v)))
    ensures RunFrom(c, a, TwoNotes(first, v))
         == Some(Step(Step(c, a, Stage(first)), a, Stage(S.CertEv(S.Terminated, false, v))))
  {
    var es := TwoNotes(first, v);
    assert es[..1] == [Stage(first)] && es[..1][..0] == [];
    assert RunFrom(c, a, es[..1]) == Some(Step(c, a, Stage(first)));
  }

  lemma SenderHas(c: Conn, a: S.Attrs)
    requires Inv(c, a) && c.node.slot.cert.sub
    ensures c.node.slot.cert.peer && c.node.dev == NO_SIDE && c.node.past.uplinks == 0 && c.log.transfers > 0
  {
  }

  /** The acknowledgement and the end of the subscription make the one step that the model of the certificate
      takes for them. */
  lemma AckedIsTwoNotes(c: Conn, a: S.Attrs, v: S.Env)
    requires Inv(c, a) && Fresh(c) && c.xfer.finished && Succeeding(a, v)
    ensures var es := TwoNotes(S.CertEv(S.Complete, C.IsNewest(c.store, c.xfer), v), v);
            && RunFrom(c, a, es).Some? && C.Possible(Abs(c), C.Acked)
            && Abs(RunFrom(c, a, es).value) == C.Step(Abs(c), C.Acked)
            && (RunFrom(c, a, es).value.node.slot.cert.sub ==> Fresh(RunFrom(c, a, es).value))
  {
    var ack := S.CertEv(S.Complete, C.IsNewest(c.store, c.xfer), v);
    SenderHas(c, a);
    StepKeeps(c, a, Stage(ack));
    var m := Step(c, a, Stage(ack));
    SubscriptionEnds(m, a, false, v);
    RunTwo(c, a, ack, v);
  }

  /** So do a read without data, which the sender answers with a failure, and the end of the subscription. */
  lemma NoDataIsTwoNotes(c: Conn, a: S.Attrs, want: nat, v: S.Env)
    requires Inv(c, a) && Fresh(c) && !c.xfer.finished && !C.HasData(c.store, c.xfer) && Succeeding(a, v)
    ensures var es := TwoNotes(S.CertEv(S.Failure, false, v), v);
            && RunFrom(c, a, es).Some? && C.Possible(Abs(c), C.Pull(want))
            && Abs(RunFrom(c, a, es).value) == C.Step(Abs(c), C.Pull(want))
            && !RunFrom(c, a, es).value.node.slot.cert.sub
  {
    var note := S.CertEv(S.Failure, false, v);
    SenderHas(c, a);
    StepKeeps(c, a, Stage(note));
    SubscriptionEnds(Step(c, a, Stage(note)), a, false, v);
    RunTwo(c, a, note, v);
  }

  lemma PullIsOne(c: Conn, a: S.Attrs, want: nat)
    requires Inv(c, a) && Fresh(c) && !c.xfer.finished && C.HasData(c.store, c.xfer)
    ensures RunFrom(c, a, [Pull(want)]) == Some(Step(c, a, Pull(want))) && C.Possible(Abs(c), C.Pull(want))
    ensures Abs(Step(c, a, Pull(want))) == C.Step(Abs(c), C.Pull(want)) && Fresh(Step(c, a, Pull(want)))
  {
    assert [Pull(want)][..0] == [];
  }

  lemma {:induction false} RunConcat(c: Conn, a: S.Attrs, es: seq<Event>, rest: seq<Event>)
    requires RunFrom(c, a, es).Some?
    ensures RunFrom(c, a, es + rest) == RunFrom(RunFrom(c, a, es).value, a, rest)
    decreases |rest|
  {
    if rest == [] {
      assert es + rest == es;
    } else {
      var n := |rest| - 1;
      assert (es + rest)[..|es + rest| - 1] == es + rest[..n] && (es + rest)[|es + rest| - 1] == rest[n];
      RunConcat(c, a, es, rest[..n]);
    }
  }

  /** Once updates stop, a sender that asks for pieces of `want` bytes and a node that acknowledges bring the
      stages where CertModel.Settle says: out of the certificate stage, after at most one more transfer. */
  lemma {:induction false} StagesSettle(c: Conn, a: S.Attrs, want: nat, v: S.Env) returns (es: seq<Event>)
    requires Inv(c, a) && Fresh(c) && Succeeding(a, v) && want > 0 && c.store.updates < c.xfer.since + WORD
    ensures RunFrom(c, a, es).Some? && C.Inv(Abs(c))
    ensures Abs(RunFrom(c, a, es).value) == C.Settle(Abs(c), want)
    decreases C.Stale(Abs(c)), C.BytesLeft(Abs(c)), 1
  {
    SenderHas(c, a);
    AbsInv(c, a);
    if c.xfer.finished {
      es := TwoNotes(S.CertEv(S.Complete, C.IsNewest(c.store, c.xfer), v), v);
      AckedIsTwoNotes(c, a, v);
    } else if C.HasData(c.store, c.xfer) {
      es := [Pull(want)];
      PullIsOne(c, a, want);
    } else {
      es := TwoNotes(S.CertEv(S.Failure, false, v), v);
      NoDataIsTwoNotes(c, a, want, v);
    }
    var c' := RunFrom(c, a, es).value;
    RunFromKeeps(c, a, es);
    C.SameResidue(c.xfer.since, c.store.updates);
    if Fresh(c') {
      var rest := StagesSettle(c', a, want, v);
      RunConcat(c, a, es, rest);
      es := es + rest;
    }
  }

  // ---------------------------------------------------------------- a node without a certificate

  /** A report makes the server certificate count as provisioned exactly if it is the last data, is well formed,
      and names the installed serial number, be that empty. */
  lemma ProvisionedExactly(c: Conn, a: S.Attrs, e: Event)
    requires Inv(c, a) && e.InfoArrives? && Possible(c, e)
    ensures Step(c, a, e).node.srvProvisioned <==>
              || c.node.srvProvisioned
              || (e.pushed && e.isLast && e.parsed && e.reported == c.store.serial)
  {
  }

  /** With no certificate installed, and so no serial number, a node that reports none is taken to have the
      installed one: the server certificate stage is skipped. */
  lemma EmptySerialCounts(store: C.Store, a: S.Attrs, v: S.Env)
    requires store.serial == [] && a.serverCert && a.deviceCert
    requires v.info == S.ReadEnv(true, true, true) && Succeeding(a, v)
    ensures var report := InfoArrives(true, true, true, [], false);
            var es := [Stage(S.DiscoveryEv(v)), report, Stage(S.InfoEv(S.Complete, v))];
            && Run(store, a, es).Some?
            && var c := Run(store, a, es).value;
            && c.node.srvProvisioned && c.log.claimed == Some([]) && c.log.transfers == 0
            && c.node.dev == Side(true, true, true)
  {
    var report := InfoArrives(true, true, true, [], false);
    var es := [Stage(S.DiscoveryEv(v)), report, Stage(S.InfoEv(S.Complete, v))];
    assert es[..1][..0] == [] && es[..2][..1] == es[..1] && es[..1] == [es[0]];
    var c1 := Step(Begin(store), a, es[0]);
    assert RunFrom(Begin(store), a, es[..1]) == Some(c1);
    var c2 := Step(c1, a, es[1]);
    assert RunFrom(Begin(store), a, es[..2]) == Some(c2);
    assert RunFrom(Begin(store), a, es) == Some(Step(c2, a, es[2]));
  }
}
