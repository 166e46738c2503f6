/** lib/bt: the stages of one node's session, on values. Discovery, info, server certificate (again if it was
    replaced meanwhile), device certificate, then uplink and downlink. */
module StageModel {
  import opened Bytes
  import opened PacketizerSlot

  /** enum server_cert_next_state. */
  datatype Next = NextDeviceCert | NextServerCert | NextEnd

  /** Which handles were discovered. */
  datatype Attrs = Attrs(serverCert: bool, deviceCert: bool, deviceCcc: bool, uplinkCcc: bool, downlink: bool)

  /** What the calls made while stages are entered come back with: true for success. */
  datatype ReadEnv = ReadEnv(ctx: bool, recv: bool, sub: bool)
  datatype Env = Env(info: ReadEnv, cert: CertEnv, dev: ReadEnv, down: DownEnv, upOpen: bool, upRecv: bool, upSub: bool)

  /** What happened so far: discovery ended; a server certificate was delivered while newest; the receiver of
      the device certificate has passed on its last data; the device certificate was handed to the cloud; how
      often the uplink stage was entered. */
  datatype Past = Past(begun: bool, certFresh: bool, devPassed: bool, devUploaded: bool, uplinks: nat)

  /** The fields of struct pouch_gateway_node_info that the stages pass on, with the packetizer and what goes
      with it in `slot`, then the history. The uplink's context, node->uplink, is no part of it. */
  datatype Node = Node(
    info: Side, slot: Slot, next: Next, dev: Side, upRecv: bool, upSub: bool,
    srvProvisioned: bool, devProvisioned: bool, past: Past)

  const FRESH_NODE :=
    Node(NO_SIDE, EMPTY_SLOT, NextDeviceCert, NO_SIDE, false, false, false, false, Past(false, false, false, false, 0))

  // ---------------------------------------------------------------- entering a stage

  /** The second half of pouch_gateway_uplink_start, with the uplink open. */
  function UplinkOpened(n: Node, v: Env): Node {
    if v.upRecv then n.(upRecv := true, upSub := v.upSub) else n.(upRecv := false)
  }

  function CountUplink(n: Node): Node {
    n.(past := n.past.(uplinks := n.past.uplinks + 1))
  }

  /** pouch_gateway_uplink_start. */
  function UplinkStart(n: Node, a: Attrs, v: Env): Node {
    var n' := CountUplink(n);
    if !a.uplinkCcc || !a.downlink then n'
    else
      var (slot, ok) := DownBegin(n.slot, v.down);
      if !ok || !v.upOpen then n'.(slot := slot) else UplinkOpened(n'.(slot := slot), v)
  }

  /** The receiver and the subscription of a stage whose context is allocated; a failing call gives up what
      is there. */
  function ReceiveBegin(side: Side, v: ReadEnv): Side {
    if !v.recv then Released(side.(peer := false))
    else if !v.sub then Released(side.(peer := true))
    else side.(peer := true, sub := true)
  }

  /** The device certificate half of pouch_gateway_device_cert_read. */
  function DevBegin(side: Side, v: ReadEnv): Side {
    if !v.ctx then Released(side.(ctx := false)) else ReceiveBegin(side.(ctx := true), v)
  }

  /** pouch_gateway_device_cert_read. */
  function DeviceCertRead(n: Node, a: Attrs, v: Env): Node {
    if n.devProvisioned then UplinkStart(n, a, v)
    else if !a.deviceCcc then n
    else n.(dev := DevBegin(n.dev, v.dev), past := n.past.(devPassed := false))
  }

  /** The server certificate is on its way, or could not be sent. */
  function CertSent(n: Node, v: CertEnv): Node {
    var (slot, ok) := CertPrepare(n.slot, v);
    if ok then n.(slot := CertSubscribe(slot, v.sub), next := NextEnd) else n.(slot := slot)
  }

  /** pouch_gateway_server_cert_write. */
  function ServerCertWrite(n: Node, a: Attrs, v: Env): Node {
    if n.srvProvisioned then DeviceCertRead(n, a, v)
    else if !a.serverCert then n.(slot := CertCleanup(n.slot))
    else CertSent(n, v.cert)
  }

  function ForgetProvisioned(n: Node): Node {
    n.(srvProvisioned := false, devProvisioned := false)
  }

  /** The info half of gateway_info_read_start: without a context there is nothing to clean up. */
  function InfoBegin(side: Side, v: ReadEnv): Side {
    if !v.ctx then side.(ctx := false) else ReceiveBegin(side.(ctx := true), v)
  }

  /** gateway_info_read_start. */
  function InfoStart(n: Node, v: Env): Node {
    var n' := ForgetProvisioned(n);
    n'.(info := InfoBegin(n.info, v.info))
  }

  /** The end of discover_descriptors. */
  function DiscoveryEnd(n: Node, a: Attrs, v: Env): Node {
    var n' := n.(past := n.past.(begun := true));
    if a.serverCert && a.deviceCert then InfoStart(n', v) else UplinkStart(n', a, v)
  }

  // ---------------------------------------------------------------- what happens in a stage

  /** What a notification turns out to be: the end of the subscription, an error or refusal, the end of the
      transfer, or nothing that changes the stage. */
  datatype Note = Terminated | Failure | Complete | Other

  /** info_data_received_cb; `parsed` says whether pouch_gateway_info_finish succeeds, `srv` and `dev` what it
      reports as provisioned. */
  function InfoData(n: Node, isLast: bool, pushed: bool, parsed: bool, srv: bool, dev: bool): Node {
    if !pushed || !isLast then n
    else n.(info := n.info.(ctx := false),
            srvProvisioned := n.srvProvisioned || (parsed && srv),
            devProvisioned := n.devProvisioned || (parsed && dev))
  }

  /** info_notify_cb. */
  function InfoNotify(n: Node, note: Note, a: Attrs, v: Env): Node {
    if note == Terminated then n.(info := NO_SIDE)
    else if !n.info.peer then n
    else if note == Failure then n.(info := Released(n.info))
    else if note == Complete then ServerCertWrite(n.(info := Released(n.info)), a, v)
    else n
  }

  /** The outcome of a server certificate transfer is noted for when its subscription ends. */
  function CertNoted(n: Node, next: Next, latest: bool): Node {
    n.(next := next, past := n.past.(certFresh := n.past.certFresh || latest))
  }

  /** What is noted when the subscription goes on; `newest` as below. */
  function CertOutcome(n: Node, note: Note, newest: bool): Node {
    if !n.slot.cert.peer || note == Failure then CertNoted(n, NextEnd, false)
    else if note == Complete then CertNoted(n, if newest then NextDeviceCert else NextServerCert, newest)
    else n
  }

  /** server_cert_notify_cb; `newest` is the answer of pouch_gateway_server_cert_is_newest. */
  function CertNotify(n: Node, note: Note, newest: bool, a: Attrs, v: Env): Node {
    if note == Terminated then CertNext(n.(slot := CertEnd(n.slot)), a, v) else CertOutcome(n, note, newest)
  }

  /** The stage that follows the server certificate. */
  function CertNext(n: Node, a: Attrs, v: Env): Node {
    var n' := match n.next
      case NextDeviceCert => DeviceCertRead(n, a, v)
      case NextServerCert => ServerCertWrite(n, a, v)
      case NextEnd => n;
    n'.(next := NextEnd)
  }

  /** device_cert_data_received_cb; `sent` says whether the cloud takes the certificate. */
  function DevData(n: Node, isLast: bool, pushed: bool, sent: bool): Node {
    var n' := n.(past := n.past.(devPassed := n.past.devPassed || isLast));
    if !pushed || (isLast && !sent) then n'.(dev := Released(n.dev))
    else if isLast then n'.(dev := n.dev.(ctx := false), past := n'.past.(devUploaded := true))
    else n'
  }

  /** device_cert_notify_cb. */
  function DevNotify(n: Node, note: Note, a: Attrs, v: Env): Node {
    if note == Terminated then n.(dev := NO_SIDE)
    else if !n.dev.peer then n
    else if note == Failure then n.(dev := Released(n.dev))
    else if note == Complete then UplinkStart(n.(dev := Released(n.dev)), a, v)
    else n
  }

  /** uplink_notify_cb: the node changes only when the subscription ends. */
  function UpNotify(n: Node, note: Note): Node {
    if note == Terminated then n.(upRecv := false, upSub := false) else n
  }

  /** downlink_notify_cb. */
  function DownNotify(s: Slot, note: Note): Slot {
    if note == Terminated then DownEnd(s) else if note == Complete then DownComplete(s) else s
  }

  /** pouch_gateway_bt_stop: unsubscribing ends the subscriptions that are active. */
  function Stop(n: Node): Node {
    n.(upRecv := false, upSub := false, slot := if n.slot.down.sub then DownEnd(n.slot) else n.slot)
  }

  datatype Event =
    | DiscoveryEv(v: Env)
    | InfoDataEv(isLast: bool, pushed: bool, parsed: bool, srv: bool, dev: bool)
    | InfoEv(note: Note, v: Env)
    | CertEv(note: Note, newest: bool, v: Env)
    | DevDataEv(isLast: bool, pushed: bool, sent: bool)
    | DevEv(note: Note, v: Env)
    | UpEv(note: Note)
    | DataAvailableEv(subscribed: bool)
    | DownEv(note: Note)
    | StopEv

  /** Discovery ends once. A subscription notifies while it is active, and ends once. A receiver passes data on
      until it has passed on the last, and reports completion only afterwards. The cloud signals data for a
      downlink the node still holds, and the sender completes it once. */
  predicate Possible(n: Node, e: Event) {
    match e
    case DiscoveryEv(_) => !n.past.begun
    case InfoDataEv(_, _, _, _, _) => n.info == Side(true, true, true)
    case InfoEv(_, _) => n.info.sub
    case CertEv(_, _, _) => n.slot.cert.sub
    case DevDataEv(_, _, _) => n.dev == Side(true, true, true)
    case DevEv(note, _) => n.dev.sub && (note == Complete && n.dev.peer ==> n.past.devPassed)
    case UpEv(_) => n.upSub
    case DataAvailableEv(_) => n.slot.down.ctx
    case DownEv(note) => n.slot.down.sub && (note == Complete ==> n.slot.down.ctx)
    case StopEv => true
  }

  function Step(n: Node, a: Attrs, e: Event): Node {
    match e
    case DiscoveryEv(v) => DiscoveryEnd(n, a, v)
    case InfoDataEv(isLast, pushed, parsed, srv, dev) => InfoData(n, isLast, pushed, parsed, srv, dev)
    case InfoEv(note, v) => InfoNotify(n, note, a, v)
    case CertEv(note, newest, v) => CertNotify(n, note, newest, a, v)
    case DevDataEv(isLast, pushed, sent) => DevData(n, isLast, pushed, sent)
    case DevEv(note, v) => DevNotify(n, note, a, v)
    case UpEv(note) => UpNotify(n, note)
    case DataAvailableEv(subscribed) => n.(slot := DataAvailable(n.slot, subscribed))
    case DownEv(note) => n.(slot := DownNotify(n.slot, note))
    case StopEv => Stop(n)
  }

  function Run(a: Attrs, es: seq<Event>): Option<Node> {
    if es == [] then Some(FRESH_NODE)
    else
      var before, e := Run(a, es[..|es| - 1]), es[|es| - 1];
      if before.Some? && Possible(before.value, e) then Some(Step(before.value, a, e)) else None
  }

  // ---------------------------------------------------------------- invariants

  /** A context is held only with a receiver, and a receiver only while subscribed. */
  ghost predicate Nested(side: Side) {
    (side.ctx ==> side.peer) && (side.peer ==> side.sub)
  }

  /** At most one stage is under way: up to the end of discovery, info, server certificate, device
      certificate, or the uplink, which is entered at most once. */
  ghost predicate OneStage(n: Node) {
    && (!n.past.begun ==> n.info == NO_SIDE && !n.slot.cert.sub && n.dev == NO_SIDE && n.past.uplinks == 0)
    && (n.info.peer ==> !n.slot.cert.sub && n.dev == NO_SIDE && n.past.uplinks == 0)
    && (n.slot.cert.sub ==> n.dev == NO_SIDE && n.past.uplinks == 0)
    && (n.dev.peer ==> n.past.uplinks == 0)
    && n.past.uplinks <= 1
    && (n.past.uplinks == 0 ==> !n.slot.downlinkMade && !n.upRecv && !n.upSub)
    && Nested(n.info) && Nested(n.dev) && (n.upSub ==> n.upRecv)
  }

  /** What entering the uplink takes. */
  predicate Qualified(n: Node, a: Attrs) {
    a.serverCert && a.deviceCert ==>
      (n.srvProvisioned || n.past.certFresh) && (n.devProvisioned || n.past.devUploaded)
  }

  /** Each stage is reached only with what the earlier ones had to establish. */
  ghost predicate InOrder(n: Node, a: Attrs) {
    && (n.slot.cert.sub || n.info.peer || n.dev.peer ==> a.serverCert && a.deviceCert)
    && (n.slot.cert.sub ==> !n.srvProvisioned)
    && (n.slot.cert.sub && n.next == NextDeviceCert ==> n.past.certFresh)
    && (n.dev.peer ==> n.srvProvisioned || n.past.certFresh)
    && (n.dev.peer && n.past.devPassed ==> n.past.devUploaded)
    && (n.past.uplinks > 0 ==> Qualified(n, a))
  }

  ghost predicate Inv(n: Node, a: Attrs) {
    OneStage(n) && InOrder(n, a) && SlotInv(n.slot)
  }

  /** Between two stages: the info subscription may be on its way out, everything else is given up. */
  ghost predicate Between(n: Node) {
    && n.past.begun && n.info == Released(n.info) && n.dev == Released(n.dev)
    && n.past.uplinks == 0 && !n.upRecv && !n.upSub && SlotInv(n.slot) && Idle(n.slot)
  }

  lemma UplinkStartKeeps(n: Node, a: Attrs, v: Env)
    requires Between(n) && Qualified(n, a)
    ensures Inv(UplinkStart(n, a, v), a)
  {
    DownBeginKeeps(n.slot, v.down);
  }

  lemma DeviceCertReadKeeps(n: Node, a: Attrs, v: Env)
    requires Between(n) && n.dev == NO_SIDE && a.serverCert && a.deviceCert && (n.srvProvisioned || n.past.certFresh)
    ensures Inv(DeviceCertRead(n, a, v), a)
  {
    if n.devProvisioned {
      UplinkStartKeeps(n, a, v);
    }
  }

  lemma ServerCertWriteKeeps(n: Node, a: Attrs, v: Env)
    requires Between(n) && n.dev == NO_SIDE && a.serverCert && a.deviceCert
    ensures Inv(ServerCertWrite(n, a, v), a)
    ensures ServerCertWrite(n, a, v).slot.cert.sub ==> ServerCertWrite(n, a, v).next == NextEnd
  {
    if n.srvProvisioned {
      DeviceCertReadKeeps(n, a, v);
      DownBeginKeeps(n.slot, v.down);
    } else {
      CertBeginKeeps(n.slot, v.cert);
    }
  }

  lemma DiscoveryKeeps(n: Node, a: Attrs, v: Env)
    requires Inv(n, a) && !n.past.begun
    ensures Inv(DiscoveryEnd(n, a, v), a)
  {
    if !(a.serverCert && a.deviceCert) {
      UplinkStartKeeps(n.(past := n.past.(begun := true)), a, v);
    }
  }

  lemma InfoKeeps(n: Node, a: Attrs, note: Note, v: Env)
    requires Inv(n, a)
    ensures Inv(InfoNotify(n, note, a, v), a)
  {
    if note == Complete && n.info.peer {
      ServerCertWriteKeeps(n.(info := Released(n.info)), a, v);
    }
  }

  lemma CertNextKeeps(n: Node, a: Attrs, v: Env)
    requires Between(n) && n.dev == NO_SIDE && a.serverCert && a.deviceCert
    requires n.next == NextDeviceCert ==> n.past.certFresh
    ensures Inv(CertNext(n, a, v), a)
  {
    match n.next
    case NextDeviceCert => DeviceCertReadKeeps(n, a, v);
    case NextServerCert => ServerCertWriteKeeps(n, a, v);
    case NextEnd =>
  }

  lemma CertKeeps(n: Node, a: Attrs, note: Note, newest: bool, v: Env)
    requires Inv(n, a) && n.slot.cert.sub
    ensures Inv(CertNotify(n, note, newest, a, v), a)
  {
    if note == Terminated {
      PacketizerSlot.CertEndKeeps(n.slot);
      CertNextKeeps(n.(slot := CertEnd(n.slot)), a, v);
    }
  }

  lemma DevKeeps(n: Node, a: Attrs, note: Note, v: Env)
    requires Inv(n, a) && (note == Complete && n.dev.peer ==> n.past.devPassed)
    ensures Inv(DevNotify(n, note, a, v), a)
  {
    if note == Complete && n.dev.peer {
      UplinkStartKeeps(n.(dev := Released(n.dev)), a, v);
    }
  }

  lemma DevDataKeeps(n: Node, a: Attrs, isLast: bool, pushed: bool, sent: bool)
    requires Inv(n, a) && n.dev.peer && n.dev.ctx
    ensures Inv(DevData(n, isLast, pushed, sent), a)
  {
  }

  lemma InfoDataKeeps(n: Node, a: Attrs, isLast: bool, pushed: bool, parsed: bool, srv: bool, dev: bool)
    requires Inv(n, a) && n.info.peer
    ensures Inv(InfoData(n, isLast, pushed, parsed, srv, dev), a)
  {
  }

  lemma DownKeeps(n: Node, a: Attrs, slot: Slot)
    requires Inv(n, a) && n.slot.downlinkMade && SlotInv(slot) && slot.downlinkMade && slot.cert == n.slot.cert
    ensures Inv(n.(slot := slot), a)
  {
  }

  lemma DownEventKeeps(n: Node, a: Attrs, note: Note)
    requires Inv(n, a) && n.slot.down.sub
    ensures Inv(n.(slot := DownNotify(n.slot, note)), a)
  {
    DownNotifyKeeps(n.slot);
    DownKeeps(n, a, DownNotify(n.slot, note));
  }

  lemma StopKeeps(n: Node, a: Attrs)
    requires Inv(n, a)
    ensures Inv(Stop(n), a)
  {
    if n.slot.down.sub {
      DownEventKeeps(n, a, Terminated);
    }
  }

  lemma StepKeeps(n: Node, a: Attrs, e: Event)
    requires Inv(n, a) && Possible(n, e)
    ensures Inv(Step(n, a, e), a)
  {
    match e
    case DiscoveryEv(v) => DiscoveryKeeps(n, a, v);
    case InfoDataEv(isLast, pushed, parsed, srv, dev) => InfoDataKeeps(n, a, isLast, pushed, parsed, srv, dev);
    case InfoEv(note, v) => InfoKeeps(n, a, note, v);
    case CertEv(note, newest, v) => CertKeeps(n, a, note, newest, v);
    case DevDataEv(isLast, pushed, sent) => DevDataKeeps(n, a, isLast, pushed, sent);
    case DevEv(note, v) => DevKeeps(n, a, note, v);
    case UpEv(_) =>
    case DataAvailableEv(subscribed) =>
      DataAvailableKeeps(n.slot, subscribed);
      DownKeeps(n, a, DataAvailable(n.slot, subscribed));
    case DownEv(note) => DownEventKeeps(n, a, note);
    case StopEv => StopKeeps(n, a);
  }

  lemma {:induction false} RunKeeps(a: Attrs, es: seq<Event>)
    requires Run(a, es).Some?
    ensures Inv(Run(a, es).value, a)
  {
    if es != [] {
      RunKeeps(a, es[..|es| - 1]);
      StepKeeps(Run(a, es[..|es| - 1]).value, a, es[|es| - 1]);
    }
  }

  // ---------------------------------------------------------------- where a callback leads

  /** What is under way: reading the info, sending the server certificate, reading the device certificate, the
      uplink with its downlink, or nothing any more. */
  datatype Place = Info | Cert | Dev | Uplink | Over

  /** A node is in at most one of the first four. */
  predicate At(n: Node, p: Place) {
    match p
    case Info => n.info.sub && n.info.peer
    case Cert => n.slot.cert == Side(true, true, true) && n.slot.pk.current.Some?
    case Dev => n.dev.sub && n.dev.peer
    case Uplink => n.past.uplinks == 1
    case Over => !n.info.peer && n.slot.cert == NO_SIDE && !n.dev.peer && n.past.uplinks == 0
  }

  predicate AllDone(v: ReadEnv) {
    v.ctx && v.recv && v.sub
  }

  predicate AllSent(v: CertEnv) {
    v.ctx && v.packetizer && v.mtu && v.sender && v.sub
  }

  predicate AllOpened(v: DownEnv) {
    v.mtu && v.ctx && v.packetizer && v.sender
  }

  /** The uplink as it has to be once it was entered: the downlink is there if every call for it succeeded, and
      the receiver and the subscription if the uplink's own did, too. */
  predicate UplinkAsAsked(n: Node, a: Attrs, v: Env) {
    var down := a.uplinkCcc && a.downlink && AllOpened(v.down);
    && n.past.uplinks == 1
    && n.slot.downlinkMade == down && n.slot.down == Side(down, down, false) && n.slot.pk.current.Some? == down
    && (down ==> !n.slot.downValue)
    && n.upRecv == (down && v.upOpen && v.upRecv)
    && n.upSub == (down && v.upOpen && v.upRecv && v.upSub)
  }

  /** Where a node has to be when it is done with the server certificate. */
  predicate DeviceAsAsked(before: Node, n: Node, a: Attrs, v: Env) {
    var asks := a.deviceCcc && AllDone(v.dev);
    if before.devProvisioned then UplinkAsAsked(n, a, v)
    else n.dev == Side(asks, asks, before.dev.sub || asks) && (asks ==> !n.past.devPassed)
         && At(n, if asks then Dev else Over)
  }

  /** Where a node has to be when it is done with the info. */
  predicate ServerAsAsked(before: Node, n: Node, a: Attrs, v: Env) {
    var sends := a.serverCert && AllSent(v.cert);
    if before.srvProvisioned then DeviceAsAsked(before, n, a, v)
    else At(n, if sends then Cert else Over) && (sends ==> n.next == NextEnd)
  }

  lemma UplinkLeads(n: Node, a: Attrs, v: Env)
    requires Between(n)
    ensures UplinkAsAsked(UplinkStart(n, a, v), a, v)
  {
  }

  lemma DeviceLeads(n: Node, a: Attrs, v: Env)
    requires Between(n)
    ensures DeviceAsAsked(n, DeviceCertRead(n, a, v), a, v)
  {
    UplinkLeads(n, a, v);
  }

  lemma SendLeads(s: Slot, v: CertEnv)
    requires Idle(s)
    ensures var s' := CertBegin(s, v);
            s'.cert == Side(AllSent(v), AllSent(v), AllSent(v)) && s'.pk.current.Some? == AllSent(v)
  {
  }

  lemma ServerLeads(n: Node, a: Attrs, v: Env)
    requires Between(n)
    ensures ServerAsAsked(n, ServerCertWrite(n, a, v), a, v)
  {
    DeviceLeads(n, a, v);
    SendLeads(n.slot, v.cert);
  }

  /** Discovery leads to the info of a node with both certificate characteristics, and otherwise to the uplink;
      nothing counts as provisioned before the node has said so. */
  lemma DiscoveryLeads(n: Node, a: Attrs, v: Env)
    requires Inv(n, a) && Possible(n, DiscoveryEv(v))
    ensures var n' := Step(n, a, DiscoveryEv(v));
            if a.serverCert && a.deviceCert then
              && n'.info == Side(AllDone(v.info), AllDone(v.info), AllDone(v.info))
              && At(n', if AllDone(v.info) then Info else Over) && !n'.srvProvisioned && !n'.devProvisioned
            else UplinkAsAsked(n', a, v)
  {
    if !(a.serverCert && a.deviceCert) {
      UplinkLeads(n.(past := n.past.(begun := true)), a, v);
    }
  }

  /** The info, once complete, leads to the server certificate of a node that is not said to have it, and so on;
      an error leads nowhere; anything else changes nothing. */
  lemma InfoLeads(n: Node, a: Attrs, note: Note, v: Env)
    requires Inv(n, a) && Possible(n, InfoEv(note, v))
    ensures var n' := Step(n, a, InfoEv(note, v));
            && (note == Complete && n.info.peer ==> ServerAsAsked(n, n', a, v))
            && (note == Terminated ==> n' == n.(info := NO_SIDE))
            && (note == Failure ==> n' == n.(info := Released(n.info)))
            && (note == Other || !n.info.peer ==> n' == n.(info := n'.info))
            && (note != Terminated ==> n'.info == if note == Other then n.info else Released(n.info))
  {
    if note == Complete && n.info.peer {
      ServerLeads(n.(info := Released(n.info)), a, v);
    }
  }

  lemma InfoCompletes(n: Node, a: Attrs, v: Env)
    requires Inv(n, a) && n.info.peer
    ensures ServerAsAsked(n, InfoNotify(n, Complete, a, v), a, v)
  {
    InfoLeads(n, a, Complete, v);
  }

  /** Where the last word on a server certificate transfer leads. */
  predicate NextAsAsked(before: Node, n: Node, a: Attrs, v: Env) {
    && n.next == NextEnd
    && match before.next
       case NextDeviceCert => DeviceAsAsked(before, n, a, v)
       case NextServerCert => ServerAsAsked(before, n, a, v)
       case NextEnd => At(n, Over)
  }

  lemma NextLeads(n: Node, a: Attrs, v: Env)
    requires Between(n) && n.dev == NO_SIDE
    ensures NextAsAsked(n, CertNext(n, a, v), a, v)
  {
    match n.next
    case NextDeviceCert => DeviceLeads(n, a, v);
    case NextServerCert => ServerLeads(n, a, v);
    case NextEnd =>
  }

  /** What is said while the subscription goes on is noted, and nothing else changes. */
  predicate NotedAsSaid(before: Node, n: Node, note: Note, newest: bool) {
    && n == before.(next := n.next, past := before.past.(certFresh := n.past.certFresh))
    && n.next == (match note
                  case Complete => if newest then NextDeviceCert else NextServerCert
                  case Failure => NextEnd
                  case _ => before.next)
    && (n.past.certFresh <==> before.past.certFresh || (note == Complete && newest))
  }

  /** The end of the server certificate's subscription leads where the last word on the transfer says. */
  lemma CertLeads(n: Node, a: Attrs, note: Note, newest: bool, v: Env)
    requires Inv(n, a) && Possible(n, CertEv(note, newest, v))
    ensures var n' := Step(n, a, CertEv(note, newest, v));
            if note == Terminated then NextAsAsked(n, n', a, v) else NotedAsSaid(n, n', note, newest)
  {
    if note == Terminated {
      PacketizerSlot.CertEndKeeps(n.slot);
      NextLeads(n.(slot := CertEnd(n.slot)), a, v);
    }
  }

  /** Data of the device certificate: the receiver lives on unless they cannot be stored, or are the last and the
      cloud does not take the certificate; the context lives on only until the last. */
  lemma DevDataLeads(n: Node, a: Attrs, isLast: bool, pushed: bool, sent: bool)
    requires Inv(n, a) && Possible(n, DevDataEv(isLast, pushed, sent))
    ensures var n' := Step(n, a, DevDataEv(isLast, pushed, sent));
            && n' == n.(dev := n'.dev, past := n'.past) && n'.dev.sub
            && (n'.dev.peer <==> pushed && (isLast ==> sent))
            && (n'.dev.ctx <==> pushed && !isLast)
            && n'.past == n.past.(devPassed := n.past.devPassed || isLast,
                                  devUploaded := n.past.devUploaded || (pushed && isLast && sent))
  {
  }

  /** Data of the info: only the last, if they can be stored, count and give the context up. */
  lemma InfoDataLeads(n: Node, a: Attrs, isLast: bool, pushed: bool, parsed: bool, srv: bool, dev: bool)
    requires Inv(n, a) && Possible(n, InfoDataEv(isLast, pushed, parsed, srv, dev))
    ensures var n' := Step(n, a, InfoDataEv(isLast, pushed, parsed, srv, dev));
            && n' == n.(info := n'.info, srvProvisioned := n'.srvProvisioned, devProvisioned := n'.devProvisioned)
            && n'.info == Side(!(pushed && isLast), true, true)
            && (n'.srvProvisioned <==> n.srvProvisioned || (pushed && isLast && parsed && srv))
            && (n'.devProvisioned <==> n.devProvisioned || (pushed && isLast && parsed && dev))
  {
  }

  /** The device certificate, once complete, leads to the uplink; an error leads nowhere; anything else changes
      nothing. */
  lemma DevLeads(n: Node, a: Attrs, note: Note, v: Env)
    requires Inv(n, a) && Possible(n, DevEv(note, v))
    ensures var n' := Step(n, a, DevEv(note, v));
            && (note == Complete && n.dev.peer ==> UplinkAsAsked(n', a, v))
            && (note == Terminated ==> n' == n.(dev := NO_SIDE))
            && (note == Failure ==> n' == n.(dev := Released(n.dev)))
            && (note == Other || !n.dev.peer ==> n' == n.(dev := n'.dev))
            && (note != Terminated ==> n'.dev == if note == Other then n.dev else Released(n.dev))
  {
    if note == Complete && n.dev.peer {
      UplinkLeads(n.(dev := Released(n.dev)), a, v);
    }
  }

  /** The downlink: its first data subscribe it or give it up; completion gives up the context alone; the end of
      the subscription gives up the rest, and so does the end of the connection, with the uplink's receiver. */
  lemma DownlinkLeads(n: Node, a: Attrs, e: Event)
    requires Inv(n, a) && Possible(n, e) && (e.DataAvailableEv? || e.DownEv? || e.UpEv? || e.StopEv?)
    ensures var n' := Step(n, a, e);
            var stops := e.StopEv? || e == UpEv(Terminated);
            var ends := || e == DownEv(Terminated) || (e.StopEv? && n.slot.down.sub)
                        || (e == DataAvailableEv(false) && !n.slot.downValue);
            && n' == n.(slot := n'.slot, upRecv := n'.upRecv, upSub := n'.upSub)
            && n'.upRecv == (n.upRecv && !stops) && n'.upSub == (n.upSub && !stops)
            && n'.slot == n.slot.(pk := n'.slot.pk, down := n'.slot.down, downValue := n'.slot.downValue)
            && n'.slot.downValue == (n.slot.downValue || e.DataAvailableEv?)
            && n'.slot.pk.current == (if ends then None else n.slot.pk.current)
            && n'.slot.down == if ends then NO_SIDE
                               else if e == DownEv(Complete) then n.slot.down.(ctx := false)
                               else n.slot.down.(sub := n.slot.down.sub || (e.DataAvailableEv? && !n.slot.downValue))
  {
  }

  // ---------------------------------------------------------------- a connection on which all goes well

  /** Every call a stage makes to go on succeeds. */
  predicate Succeeding(a: Attrs, v: Env) {
    && a.deviceCcc && a.uplinkCcc && a.downlink
    && AllDone(v.info) && AllSent(v.cert) && AllDone(v.dev) && AllOpened(v.down) && v.upOpen && v.upRecv && v.upSub
  }

  /** The uplink is subscribed, and the downlink waits for its first data. */
  predicate Connected(n: Node) {
    n.past.uplinks == 1 && n.upRecv && n.upSub && n.slot.downlinkMade
  }

  /** The state after further events, if each is possible when it happens. */
  function Then(n: Node, a: Attrs, es: seq<Event>): Option<Node>
    decreases |es|
  {
    if es == [] then Some(n)
    else if Possible(n, es[0]) then Then(Step(n, a, es[0]), a, es[1..])
    else None
  }

  lemma RunOne(n: Node, a: Attrs, es: seq<Event>, e: Event)
    requires Run(a, es) == Some(n) && Possible(n, e)
    ensures Run(a, es + [e]) == Some(Step(n, a, e))
  {
    var one := es + [e];
    assert one[..|one| - 1] == es && one[|one| - 1] == e;
  }

  lemma {:induction false} RunThen(n: Node, a: Attrs, es: seq<Event>, rest: seq<Event>)
    requires Run(a, es) == Some(n) && Then(n, a, rest).Some?
    ensures Run(a, es + rest) == Then(n, a, rest)
    decreases |rest|
  {
    if rest == [] {
      assert es + rest == es;
    } else {
      assert es + rest == (es + [rest[0]]) + rest[1..];
      RunOne(n, a, es, rest[0]);
      RunThen(Step(n, a, rest[0]), a, es + [rest[0]], rest[1..]);
    }
  }

  lemma ThenOne(n: Node, a: Attrs, e: Event, rest: seq<Event>)
    requires Possible(n, e)
    ensures Then(n, a, [e] + rest) == Then(Step(n, a, e), a, rest)
  {
    assert ([e] + rest)[1..] == rest;
  }

  /** The device certificate is read, taken by the cloud and complete. */
  lemma FromDev(n: Node, a: Attrs, v: Env) returns (es: seq<Event>)
    requires Inv(n, a) && Succeeding(a, v) && n.dev == Side(true, true, true)
    ensures Then(n, a, es).Some? && Connected(Then(n, a, es).value)
  {
    var data, done := DevDataEv(true, true, true), DevEv(Complete, v);
    es := [data] + ([done] + []);
    StepKeeps(n, a, data);
    DevDataLeads(n, a, true, true, true);
    var m := Step(n, a, data);
    DevLeads(m, a, Complete, v);
    ThenOne(n, a, data, [done] + []);
    ThenOne(m, a, done, []);
  }

  /** What follows the server certificate, with `before` its state before. */
  lemma FromDevice(before: Node, n: Node, a: Attrs, v: Env) returns (es: seq<Event>)
    requires Inv(n, a) && Succeeding(a, v) && DeviceAsAsked(before, n, a, v)
    ensures Then(n, a, es).Some? && Connected(Then(n, a, es).value)
  {
    es := [];
    if !before.devProvisioned {
      es := FromDev(n, a, v);
    }
  }

  /** The server certificate is acknowledged while newest, and its subscription ends. */
  lemma FromCert(n: Node, a: Attrs, v: Env) returns (es: seq<Event>)
    requires Inv(n, a) && Succeeding(a, v) && n.slot.cert.sub
    ensures Then(n, a, es).Some? && Connected(Then(n, a, es).value)
  {
    var ack, end := CertEv(Complete, true, v), CertEv(Terminated, true, v);
    StepKeeps(n, a, ack);
    CertLeads(n, a, Complete, true, v);
    var m := Step(n, a, ack);
    StepKeeps(m, a, end);
    CertLeads(m, a, Terminated, true, v);
    var rest := FromDevice(m, Step(m, a, end), a, v);
    es := [ack] + ([end] + rest);
    ThenOne(n, a, ack, [end] + rest);
    ThenOne(m, a, end, rest);
  }

  /** The info is complete, whatever it says. */
  lemma FromInfo(n: Node, a: Attrs, v: Env, srv: bool, dev: bool) returns (es: seq<Event>)
    requires Inv(n, a) && Succeeding(a, v) && n.info == Side(true, true, true)
    ensures Then(n, a, es).Some? && Connected(Then(n, a, es).value)
  {
    var data, done := InfoDataEv(true, true, true, srv, dev), InfoEv(Complete, v);
    StepKeeps(n, a, data);
    InfoDataLeads(n, a, true, true, true, srv, dev);
    var m := Step(n, a, data);
    StepKeeps(m, a, done);
    InfoLeads(m, a, Complete, v);
    var n' := Step(m, a, done);
    var rest;
    if m.srvProvisioned {
      rest := FromDevice(m, n', a, v);
    } else {
      rest := FromCert(n', a, v);
    }
    es := [data] + ([done] + rest);
    ThenOne(n, a, data, [done] + rest);
    ThenOne(m, a, done, rest);
  }

  /** Progress: wherever a connection is, a node that completes the stage it is in, and those that follow, gets
      to the uplink if the calls on the way succeed, whatever it reports to have. */
  lemma ReachesUplink(a: Attrs, es: seq<Event>, v: Env, srv: bool, dev: bool) returns (rest: seq<Event>)
    requires Run(a, es).Some? && Succeeding(a, v)
    requires var n := Run(a, es).value;
             !n.past.begun || n.info == Side(true, true, true) || n.slot.cert.sub || n.dev == Side(true, true, true)
    ensures Run(a, es + rest).Some? && Connected(Run(a, es + rest).value)
  {
    RunKeeps(a, es);
    var n := Run(a, es).value;
    if !n.past.begun {
      var found := DiscoveryEv(v);
      DiscoveryLeads(n, a, v);
      StepKeeps(n, a, found);
      var more := [];
      if a.serverCert && a.deviceCert {
        more := FromInfo(Step(n, a, found), a, v, srv, dev);
      }
      rest := [found] + more;
      ThenOne(n, a, found, more);
    } else if n.info == Side(true, true, true) {
      rest := FromInfo(n, a, v, srv, dev);
    } else if n.slot.cert.sub {
      rest := FromCert(n, a, v);
    } else {
      rest := FromDev(n, a, v);
    }
    RunThen(n, a, es, rest);
  }

  /** Discovery, info, server certificate, device certificate or the uplink is under way. */
  predicate UnderWay(n: Node) {
    !n.past.begun || n.info.peer || n.slot.cert.sub || n.dev.peer || Connected(n)
  }

  /** All goes well: calls succeed, no transfer fails, a subscription ends only when its stage is complete, and
      nobody disconnects. How often the server certificate turns out to be stale is left open. */
  predicate Good(n: Node, a: Attrs, e: Event) {
    match e
    case DiscoveryEv(v) => Succeeding(a, v)
    case InfoDataEv(_, pushed, _, _, _) => pushed
    case InfoEv(note, v) => Succeeding(a, v) && note != Failure && (note == Terminated ==> !n.info.peer)
    case CertEv(note, _, v) => Succeeding(a, v) && note != Failure && (note == Terminated ==> n.next != NextEnd)
    case DevDataEv(isLast, pushed, sent) => pushed && (isLast ==> sent)
    case DevEv(note, v) => Succeeding(a, v) && note != Failure && (note == Terminated ==> !n.dev.peer)
    case UpEv(note) => note != Terminated
    case DataAvailableEv(subscribed) => subscribed
    case DownEv(_) => true
    case StopEv => false
  }

  lemma GoodNotification(n: Node, a: Attrs, e: Event)
    requires Inv(n, a) && Possible(n, e) && Good(n, a, e) && UnderWay(n) && (e.InfoEv? || e.CertEv? || e.DevEv?)
    ensures UnderWay(Step(n, a, e))
  {
    match e
    case InfoEv(note, v) => InfoLeads(n, a, note, v);
    case CertEv(note, newest, v) => CertLeads(n, a, note, newest, v);
    case DevEv(note, v) => DevLeads(n, a, note, v);
  }

  lemma GoodStep(n: Node, a: Attrs, e: Event)
    requires Inv(n, a) && Possible(n, e) && Good(n, a, e) && UnderWay(n)
    ensures UnderWay(Step(n, a, e))
  {
    match e
    case DiscoveryEv(v) => DiscoveryLeads(n, a, v);
    case InfoDataEv(isLast, pushed, parsed, srv, dev) => InfoDataLeads(n, a, isLast, pushed, parsed, srv, dev);
    case DevDataEv(isLast, pushed, sent) => DevDataLeads(n, a, isLast, pushed, sent);
    case UpEv(_) => DownlinkLeads(n, a, e);
    case DataAvailableEv(_) => DownlinkLeads(n, a, e);
    case DownEv(_) => DownlinkLeads(n, a, e);
    case _ => GoodNotification(n, a, e);
  }

  predicate GoodAt(a: Attrs, es: seq<Event>, m: nat)
    requires m < |es|
  {
    Run(a, es[..m]).Some? && Good(Run(a, es[..m]).value, a, es[m])
  }

  /** Whatever a run on which all goes well has done so far, in whatever order, it has not stopped short of the
      uplink: it is in one of the stages before, or the uplink is subscribed and the downlink open. */
  lemma {:induction false} GoodRunsGoOn(a: Attrs, es: seq<Event>)
    requires Run(a, es).Some? && forall m :: 0 <= m < |es| ==> GoodAt(a, es, m)
    ensures UnderWay(Run(a, es).value)
  {
    if es != [] {
      var before, n := es[..|es| - 1], |es| - 1;
      forall m | 0 <= m < n ensures GoodAt(a, before, m) {
        assert before[..m] == es[..m] && GoodAt(a, es, m);
      }
      GoodRunsGoOn(a, before);
      RunKeeps(a, before);
      assert GoodAt(a, es, n);
      GoodStep(Run(a, before).value, a, es[n]);
    }
  }

  // ---------------------------------------------------------------- what every run guarantees

  /** The uplink is entered at most once, and only if a certificate characteristic is missing, or both
      certificates are settled: the server's reported provisioned or delivered while newest, the device's
      reported provisioned or handed to the cloud. */
  lemma UplinkComesLast(a: Attrs, es: seq<Event>)
    requires Run(a, es).Some?
    ensures var n := Run(a, es).value;
            && n.past.uplinks <= 1
            && (n.past.uplinks == 1 && a.serverCert && a.deviceCert ==>
                  (n.srvProvisioned || n.past.certFresh) && (n.devProvisioned || n.past.devUploaded))
  {
    RunKeeps(a, es);
  }

  /** The packetizer in the slot is never overwritten, and each one started is finished once, in order: all
      but the one in the slot, if any. */
  lemma PacketizersBalance(a: Attrs, es: seq<Event>)
    requires Run(a, es).Some?
    ensures var p := Run(a, es).value.slot.pk;
            && !p.overwritten
            && (forall i :: 0 <= i < |p.finished| ==> p.finished[i] == i)
            && p.started == |p.finished| + (if p.current.Some? then 1 else 0)
            && (p.current.Some? ==> p.current.value == |p.finished|)
  {
    RunKeeps(a, es);
    BalancedCounts(Run(a, es).value.slot.pk);
  }

  /** A context is held only together with the receiver or sender that uses it, and these only while their
      stage is subscribed; the downlink until it first has data, and the uplink's receiver, are the exceptions. */
  lemma HeldOnlyWhileSubscribed(a: Attrs, es: seq<Event>)
    requires Run(a, es).Some?
    ensures var n := Run(a, es).value;
            && Nested(n.info) && Nested(n.dev) && Nested(n.slot.cert)
            && (n.slot.down.ctx ==> n.slot.down.peer)
            && (n.slot.down.peer ==> n.slot.down.sub || !n.slot.downValue)
  {
    RunKeeps(a, es);
  }

  /** A downlink was opened and no data for it ever became available. */
  predicate NeverSubscribed(s: Slot) {
    s.downlinkMade && !s.downValue
  }

  /** When the host has ended all subscriptions, everything is given up, except packetizer, context and sender
      of a downlink that never had data: these stay. The uplink's receiver goes with pouch_gateway_bt_stop. */
  lemma LeftBehindExactly(a: Attrs, es: seq<Event>)
    requires Run(a, es).Some?
    requires var n := Run(a, es).value; !n.info.sub && !n.slot.cert.sub && !n.dev.sub && !n.slot.down.sub
    ensures var n := Run(a, es).value;
            && n.info == n.slot.cert == n.dev == NO_SIDE
            && (n.slot.pk.current.Some? <==> NeverSubscribed(n.slot))
            && n.slot.down == Side(NeverSubscribed(n.slot), NeverSubscribed(n.slot), false)
            && (es != [] && es[|es| - 1] == StopEv ==> !n.upRecv && !n.upSub)
  {
    RunKeeps(a, es);
  }

  lemma StopLeavesNoDownlink(a: Attrs, es: seq<Event>)
    requires es != [] && es[|es| - 1] == StopEv && Run(a, es).Some?
    ensures !Run(a, es).value.slot.down.sub
  {
  }

  /** Such a run: the connection stops before anything arrives. */
  lemma LeftBehindHappens(a: Attrs, v: Env)
    requires !a.serverCert && a.uplinkCcc && a.downlink && v.down == DownEnv(true, true, true, true)
    ensures var es := [DiscoveryEv(v), StopEv];
            Run(a, es).Some? && NeverSubscribed(Run(a, es).value.slot)
  {
    var es := [DiscoveryEv(v), StopEv];
    assert es[..1][..0] == [] && es[..1] == [DiscoveryEv(v)];
    assert Run(a, es[..1]) == Some(DiscoveryEnd(FRESH_NODE, a, v));
  }
}
