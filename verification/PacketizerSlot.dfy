/** The packetizer of a node: one pointer used by two stages, sending the server certificate (lib/bt/
    server_cert.c) and the downlink (lib/bt/downlink.c). */
module PacketizerSlot {
  import opened Bytes

  /** What a stage keeps in struct pouch_gateway_node_info: a context and the receiver or sender at work on it,
      true for a pointer that is not NULL. `sub`: the Bluetooth host keeps the stage's subscription active. */
  datatype Side = Side(ctx: bool, peer: bool, sub: bool)

  const NO_SIDE := Side(false, false, false)

  function Released(side: Side): Side {
    side.(ctx := false, peer := false)
  }

  /** The packetizer pointer, then the history: the packetizers started, numbered from 0; those finished, in
      order; and whether the pointer was ever overwritten while in use. */
  datatype Packetizers = Packetizers(current: Option<nat>, started: nat, finished: seq<nat>, overwritten: bool)

  /** `downValue` says that downlink_subscribe_params.value is set, `downlinkMade` that a downlink was opened. */
  datatype Slot = Slot(pk: Packetizers, cert: Side, down: Side, downValue: bool, downlinkMade: bool)

  const EMPTY_SLOT := Slot(Packetizers(None, 0, [], false), NO_SIDE, NO_SIDE, false, false)

  /** What the calls made while a stage is entered come back with: true for success. */
  datatype CertEnv = CertEnv(ctx: bool, packetizer: bool, mtu: bool, sender: bool, sub: bool)
  datatype DownEnv = DownEnv(mtu: bool, ctx: bool, packetizer: bool, sender: bool)

  /** pouch_gatt_packetizer_start_callback, its result stored in the slot. */
  function StartPacketizer(p: Packetizers, ok: bool): Packetizers {
    var p' := p.(overwritten := p.overwritten || p.current.Some?);
    if ok then p'.(current := Some(p.started), started := p.started + 1) else p'.(current := None)
  }

  function FinishPacketizer(p: Packetizers): Packetizers {
    if p.current == None then p else p.(current := None, finished := p.finished + [p.current.value])
  }

  /** server_cert_cleanup. */
  function CertCleanup(s: Slot): Slot {
    s.(cert := Released(s.cert), pk := FinishPacketizer(s.pk))
  }

  /** cleanup_downlink. */
  function DownCleanup(s: Slot): Slot {
    s.(down := Released(s.down), pk := FinishPacketizer(s.pk))
  }

  /** pouch_gateway_server_cert_write, from the allocation of its context up to the sender, and whether it
      gets that far. */
  function CertPrepare(s: Slot, v: CertEnv): (Slot, bool) {
    if !v.ctx then (CertCleanup(s.(cert := s.cert.(ctx := false))), false)
    else
      var s' := s.(cert := s.cert.(ctx := true), pk := StartPacketizer(s.pk, v.packetizer));
      if !v.packetizer || !v.mtu then (CertCleanup(s'), false)
      else if !v.sender then (CertCleanup(s'.(cert := s'.cert.(peer := false))), false)
      else (s'.(cert := s'.cert.(peer := true)), true)
  }

  /** The rest of it, the subscription. */
  function CertSubscribe(s: Slot, sub: bool): Slot {
    if sub then s.(cert := s.cert.(sub := true)) else CertCleanup(s)
  }

  function CertBegin(s: Slot, v: CertEnv): Slot {
    var (s', ok) := CertPrepare(s, v);
    if ok then CertSubscribe(s', v.sub) else s'
  }

  /** The server certificate subscription ends. */
  function CertEnd(s: Slot): Slot {
    CertCleanup(s.(cert := s.cert.(sub := false)))
  }

  /** pouch_gateway_downlink_start, its characteristic being known, and whether it returns a context. */
  function DownBegin(s: Slot, v: DownEnv): (Slot, bool) {
    if !v.mtu then (s, false)
    else if !v.ctx then (s.(down := s.down.(ctx := false)), false)
    else
      var s' := s.(down := s.down.(ctx := true), pk := StartPacketizer(s.pk, v.packetizer));
      if !v.packetizer then (DownCleanup(s'), false)
      else if !v.sender then (DownCleanup(s'.(down := s'.down.(peer := false))), false)
      else (s'.(down := s'.down.(peer := true), downValue := false, downlinkMade := true), true)
  }

  /** downlink_data_available: the first time it subscribes, with outcome `subscribed`. */
  function DataAvailable(s: Slot, subscribed: bool): Slot {
    if s.downValue then s
    else if subscribed then s.(downValue := true, down := s.down.(sub := true))
    else DownCleanup(s.(downValue := true))
  }

  /** downlink_notify_cb when everything was sent: the context is closed. */
  function DownComplete(s: Slot): Slot {
    if s.down.peer then s.(down := s.down.(ctx := false)) else s
  }

  /** The downlink subscription ends. */
  function DownEnd(s: Slot): Slot {
    DownCleanup(s.(down := s.down.(sub := false)))
  }

  // ---------------------------------------------------------------- invariants

  /** No stage uses the slot. */
  ghost predicate Idle(s: Slot) {
    s.pk.current == None && s.cert == NO_SIDE && s.down == NO_SIDE && !s.downlinkMade
  }

  /** Every packetizer started before the one in the slot was finished, once and in order. */
  ghost predicate Balanced(p: Packetizers) {
    && !p.overwritten
    && match p.current
       case None => p.finished == Numbers(p.started)
       case Some(k) => p.started == k + 1 && p.finished == Numbers(k)
  }

  /** A downlink was opened. It holds the slot until its subscription ends or cannot be made; its context may
      be closed before that. */
  ghost predicate DownInUse(s: Slot) {
    && s.cert == NO_SIDE
    && (s.pk.current.Some? <==> s.down.peer)
    && (s.down.peer <==> s.down.sub || !s.downValue)
    && (s.down.sub ==> s.downValue)
    && (s.down.ctx ==> s.down.peer)
    && (!s.downValue ==> s.down.ctx)
  }

  /** The certificate stage holds the slot, context and sender exactly while it is subscribed. */
  ghost predicate InUse(s: Slot) {
    if s.cert.sub then s.pk.current.Some? && s.cert == Side(true, true, true) && s.down == NO_SIDE && !s.downlinkMade
    else if s.downlinkMade then DownInUse(s)
    else Idle(s)
  }

  ghost predicate SlotInv(s: Slot) {
    Balanced(s.pk) && InUse(s)
  }

  lemma StartKeeps(p: Packetizers, ok: bool)
    requires Balanced(p) && p.current == None
    ensures Balanced(StartPacketizer(p, ok))
  {
  }

  lemma FinishKeeps(p: Packetizers)
    requires Balanced(p)
    ensures Balanced(FinishPacketizer(p))
  {
  }

  lemma BalancedCounts(p: Packetizers)
    requires Balanced(p)
    ensures p.started == |p.finished| + (if p.current.Some? then 1 else 0)
    ensures p.current.Some? ==> p.current.value == |p.finished|
    ensures forall i :: 0 <= i < |p.finished| ==> p.finished[i] == i
  {
    NumbersInOrder(if p.current.Some? then p.current.value else p.started);
  }

  lemma CertBeginKeeps(s: Slot, v: CertEnv)
    requires SlotInv(s) && Idle(s)
    ensures SlotInv(CertBegin(s, v))
    ensures !CertBegin(s, v).cert.sub ==> Idle(CertBegin(s, v))
  {
    StartKeeps(s.pk, v.packetizer);
    FinishKeeps(StartPacketizer(s.pk, v.packetizer));
  }

  lemma CertEndKeeps(s: Slot)
    requires SlotInv(s) && s.cert.sub
    ensures SlotInv(CertEnd(s)) && Idle(CertEnd(s))
  {
    FinishKeeps(s.pk);
  }

  lemma DownBeginKeeps(s: Slot, v: DownEnv)
    requires SlotInv(s) && Idle(s)
    ensures SlotInv(DownBegin(s, v).0) && DownBegin(s, v).0.cert == NO_SIDE
    ensures DownBegin(s, v).1 <==> DownBegin(s, v).0.downlinkMade
    ensures DownBegin(s, v).1 || Idle(DownBegin(s, v).0)
  {
    StartKeeps(s.pk, v.packetizer);
    FinishKeeps(StartPacketizer(s.pk, v.packetizer));
  }

  lemma DataAvailableKeeps(s: Slot, subscribed: bool)
    requires SlotInv(s) && s.down.ctx
    ensures SlotInv(DataAvailable(s, subscribed))
  {
    FinishKeeps(s.pk);
  }

  lemma DownNotifyKeeps(s: Slot)
    requires SlotInv(s) && s.down.sub
    ensures SlotInv(DownEnd(s)) && SlotInv(DownComplete(s))
  {
    FinishKeeps(s.pk);
  }

  /** Cleaning up again changes nothing. */
  lemma CertCleanupIdempotent(s: Slot)
    ensures CertCleanup(CertCleanup(s)) == CertCleanup(s)
  {
  }

  lemma DownCleanupIdempotent(s: Slot)
    ensures DownCleanup(DownCleanup(s)) == DownCleanup(s)
  {
  }
}
