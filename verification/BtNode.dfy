/** lib/bt: struct pouch_gateway_node_info and the callbacks that update it in place. Each callback allocates and
    frees what the stage at hand needs; none loses anything, frees anything twice, or overwrites a pointer in
    use, in any order the stages allow. */
module BtNode {
  import opened Bytes
  import opened PacketizerSlot
  import opened StageModel
  import opened BtParts

  class NodeInfo {
    const slot: SlotInfo
    const info: Endpoint
    const dev: Endpoint
    const up: ReceiverInfo
    var next: Next
    var srvProvisioned: bool
    var devProvisioned: bool
    ghost var past: Past

    ghost predicate Valid()
      reads this, info, dev, up, slot, slot.pk, slot.cert, slot.down
    {
      && slot.Valid() && info.Valid() && dev.Valid() && up.Valid()
      && info != dev && {info, dev} !! {slot.cert, slot.down}
    }

    ghost function Model(): Node
      reads this, info, dev, up, slot, slot.pk, slot.cert, slot.down
    {
      Node(info.Model(), slot.Model(), next, dev.Model(), up.receiver != null, up.sub,
           srvProvisioned, devProvisioned, past)
    }

    /** Nothing is lost, in any part of the node. */
    twostate predicate Accounts()
      reads info, dev, up, slot, slot.pk, slot.cert, slot.down
    {
      slot.Accounts() && info.Accounts() && dev.Accounts() && up.Accounts()
    }

    /** Everything that is allocated. */
    ghost function Live(): set<Resource>
      reads info, dev, up, slot, slot.pk, slot.cert, slot.down
    {
      info.live + dev.live + up.live + slot.cert.live + slot.down.live + slot.pk.live
    }

    /** pouch_gateway_bt_start clears the node. */
    constructor ()
      ensures Valid() && Model() == FRESH_NODE && Live() == {}
      ensures fresh(info) && fresh(dev) && fresh(up) && fresh({slot, slot.pk, slot.cert, slot.down})
    {
      slot := new SlotInfo();
      info := new Endpoint();
      dev := new Endpoint();
      up := new ReceiverInfo();
      next, srvProvisioned, devProvisioned := NextDeviceCert, false, false;
      past := FRESH_NODE.past;
    }

    /** info_cleanup. */
    method ReleaseInfo()
      requires Valid()
      modifies info
      ensures Valid() && info.Accounts() && Model() == old(Model()).(info := Released(old(info.Model())))
    {
      info.Release();
    }

    /** The info subscription has ended. */
    method EndInfo()
      requires Valid()
      modifies info
      ensures Valid() && info.Accounts() && Model() == old(Model()).(info := NO_SIDE)
    {
      info.Subscribe(false);
      info.Release();
    }

    /** device_cert_cleanup. */
    method ReleaseDev()
      requires Valid()
      modifies dev
      ensures Valid() && dev.Accounts() && Model() == old(Model()).(dev := Released(old(dev.Model())))
    {
      dev.Release();
    }

    /** The device certificate subscription has ended. */
    method EndDev()
      requires Valid()
      modifies dev
      ensures Valid() && dev.Accounts() && Model() == old(Model()).(dev := NO_SIDE)
    {
      dev.Subscribe(false);
      dev.Release();
    }

    /** The uplink subscription has ended. */
    method EndUplink()
      requires Valid()
      modifies up
      ensures Valid() && up.Accounts() && Model() == old(Model()).(upRecv := false, upSub := false)
    {
      up.Destroy();
    }

    /** The server certificate subscription has ended. */
    method EndCert()
      requires Valid() && SlotInv(slot.Model()) && slot.cert.sub
      modifies slot.cert, slot.pk
      ensures Valid() && slot.Accounts() && Model() == old(Model()).(slot := CertEnd(old(slot.Model())))
    {
      slot.CertEnded();
    }

    /** The downlink subscription has ended. */
    method EndDownlink()
      requires Valid() && SlotInv(slot.Model()) && slot.down.sub
      modifies slot.down, slot.pk
      ensures Valid() && slot.Accounts() && Model() == old(Model()).(slot := DownEnd(old(slot.Model())))
    {
      slot.DownlinkEnded();
    }

    /** The downlink is complete. */
    method CompleteDownlink()
      requires Valid() && SlotInv(slot.Model()) && slot.down.sub && slot.down.ctx != null
      modifies slot.down
      ensures Valid() && slot.Accounts() && Model() == old(Model()).(slot := DownComplete(old(slot.Model())))
    {
      slot.DownlinkCompleted();
    }

    method AnnounceData(subscribed: bool)
      requires Valid() && SlotInv(slot.Model()) && slot.down.ctx != null
      modifies slot, slot.down, slot.pk
      ensures Valid() && slot.Accounts()
      ensures Model() == old(Model()).(slot := PacketizerSlot.DataAvailable(old(slot.Model()), subscribed))
    {
      slot.DataAvailable(subscribed);
    }

    method PrepareCert(v: CertEnv) returns (ok: bool)
      requires Valid() && Idle(slot.Model())
      modifies slot.cert, slot.pk
      ensures Valid() && slot.Accounts()
      ensures var (slot', ok') := CertPrepare(old(slot.Model()), v);
              ok == ok' && Model() == old(Model()).(slot := slot')
    {
      ok := slot.PrepareCert(v);
    }

    method SubscribeCert(sub: bool)
      requires Valid()
      modifies slot.cert, slot.pk
      ensures Valid() && slot.Accounts()
      ensures Model() == old(Model()).(slot := CertSubscribe(old(slot.Model()), sub))
    {
      slot.SubscribeCert(sub);
    }

    method SetNext(following: Next)
      requires Valid()
      modifies `next
      ensures Valid() && Model() == old(Model()).(next := following)
    {
      next := following;
    }

    method ForgetReports()
      requires Valid()
      modifies `srvProvisioned, `devProvisioned
      ensures Valid() && Model() == ForgetProvisioned(old(Model()))
    {
      srvProvisioned, devProvisioned := false, false;
    }

    method GiveUpDevCtx()
      requires Valid()
      modifies dev
      ensures Valid() && dev.Accounts() && Model() == old(Model()).(dev := old(dev.Model()).(ctx := false))
    {
      dev.ClearCtx();
    }

    /** The second half of pouch_gateway_uplink_start, with the uplink open. */
    method OpenUplink(v: Env)
      requires Valid() && up.receiver == null
      modifies up
      ensures Valid() && up.Accounts() && Model() == UplinkOpened(old(Model()), v)
    {
      up.Create(v.upRecv, v.upSub);
    }

    ghost method NoteUplink()
      requires Valid()
      modifies `past
      ensures Valid() && Model() == CountUplink(old(Model()))
    {
      past := past.(uplinks := past.uplinks + 1);
    }

    method StartDownlink(v: Env) returns (ok: bool)
      requires Valid() && SlotInv(slot.Model()) && Idle(slot.Model())
      modifies slot, slot.down, slot.pk
      ensures Valid() && slot.Accounts()
      ensures var (slot', ok') := DownBegin(old(slot.Model()), v.down);
              ok == ok' && Model() == old(Model()).(slot := slot')
    {
      ok := slot.DownlinkStart(v.down);
    }

    /** pouch_gateway_uplink_start. */
    method UplinkStart(a: Attrs, v: Env)
      requires Valid() && Between(Model()) && Qualified(Model(), a)
      modifies this, up, slot, slot.down, slot.pk
      ensures Valid() && up.Accounts() && slot.Accounts() && Model() == StageModel.UplinkStart(old(Model()), a, v)
      ensures Inv(Model(), a)
    {
      UplinkStartKeeps(Model(), a, v);
      NoteUplink();
      if !a.uplinkCcc || !a.downlink {
        return;
      }
      var ok := StartDownlink(v);
      if !ok || !v.upOpen {
        return;
      }
      OpenUplink(v);
    }

    ghost method ForgetPassed()
      requires Valid()
      modifies `past
      ensures Valid() && Model() == old(Model()).(past := old(past).(devPassed := false))
    {
      past := past.(devPassed := false);
    }

    /** pouch_gateway_device_cert_read. */
    method DeviceCertRead(a: Attrs, v: Env)
      requires Valid() && Between(Model()) && dev.Model() == NO_SIDE && (srvProvisioned || past.certFresh)
      modifies this, dev, up, slot, slot.down, slot.pk
      ensures Valid() && dev.Accounts() && up.Accounts() && slot.Accounts()
      ensures Model() == StageModel.DeviceCertRead(old(Model()), a, v)
      ensures a.serverCert && a.deviceCert ==> Inv(Model(), a)
    {
      if devProvisioned {
        UplinkStart(a, v);
        return;
      }
      if !a.deviceCcc {
        return;
      }
      ForgetPassed();
      dev.ReadDeviceCert(v.dev);
    }

    method SendCert(v: CertEnv)
      requires Valid() && Idle(slot.Model())
      modifies `next, slot.cert, slot.pk
      ensures Valid() && slot.Accounts() && Model() == CertSent(old(Model()), v)
    {
      var ok := PrepareCert(v);
      if ok {
        SetNext(NextEnd);
        SubscribeCert(v.sub);
      }
    }

    /** pouch_gateway_server_cert_write. */
    method ServerCertWrite(a: Attrs, v: Env)
      requires Valid() && Between(Model()) && dev.Model() == NO_SIDE
      modifies this, dev, up, slot, slot.cert, slot.down, slot.pk
      ensures Valid() && dev.Accounts() && up.Accounts() && slot.Accounts()
      ensures Model() == StageModel.ServerCertWrite(old(Model()), a, v)
      ensures a.serverCert && a.deviceCert ==> Inv(Model(), a)
    {
      if a.serverCert && a.deviceCert {
        ServerCertWriteKeeps(Model(), a, v);
      }
      if srvProvisioned {
        DeviceCertRead(a, v);
        return;
      }
      if !a.serverCert {
        slot.CleanupCert();
        return;
      }
      SendCert(v.cert);
    }

    /** gateway_info_read_start. */
    method InfoReadStart(v: Env)
      requires Valid() && info.ctx == info.peer == null
      modifies `srvProvisioned, `devProvisioned, info
      ensures Valid() && info.Accounts() && Model() == InfoStart(old(Model()), v)
      ensures info.live == {} || info.sub
    {
      ForgetReports();
      info.ReadInfo(v.info);
    }

    ghost method NoteDiscovery()
      requires Valid()
      modifies `past
      ensures Valid() && Model() == old(Model()).(past := old(past).(begun := true))
    {
      past := past.(begun := true);
    }

    /** The end of discover_descriptors. */
    method DiscoveryEnded(a: Attrs, v: Env)
      requires Valid() && Inv(Model(), a) && Possible(Model(), DiscoveryEv(v))
      modifies this, info, up, slot, slot.down, slot.pk
      ensures Valid() && info.Accounts() && up.Accounts() && slot.Accounts()
      ensures Model() == DiscoveryEnd(old(Model()), a, v)
      ensures Inv(Model(), a)
    {
      DiscoveryKeeps(Model(), a, v);
      NoteDiscovery();
      if a.serverCert && a.deviceCert {
        InfoReadStart(v);
      } else {
        UplinkStart(a, v);
      }
    }

    method NoteReports(srv: bool, dev: bool)
      requires Valid()
      modifies `srvProvisioned, `devProvisioned
      ensures Valid()
      ensures Model() == old(Model()).(srvProvisioned := old(srvProvisioned) || srv,
                                        devProvisioned := old(devProvisioned) || dev)
    {
      if srv {
        srvProvisioned := true;
      }
      if dev {
        devProvisioned := true;
      }
    }

    /** info_data_received_cb. */
    method InfoDataReceived(a: Attrs, isLast: bool, pushed: bool, parsed: bool, srv: bool, dev: bool)
      requires Valid() && Inv(Model(), a) && Possible(Model(), InfoDataEv(isLast, pushed, parsed, srv, dev))
      modifies `srvProvisioned, `devProvisioned, info
      ensures Valid() && info.Accounts() && Model() == InfoData(old(Model()), isLast, pushed, parsed, srv, dev)
      ensures Inv(Model(), a)
    {
      InfoDataKeeps(Model(), a, isLast, pushed, parsed, srv, dev);
      if pushed && isLast {
        NoteReports(parsed && srv, parsed && dev);
        info.ClearCtx();
      }
    }

    /** info_notify_cb. */
    method InfoNotify(a: Attrs, note: Note, v: Env)
      requires Valid() && Inv(Model(), a) && Possible(Model(), InfoEv(note, v))
      modifies this, info, dev, up, slot, slot.cert, slot.down, slot.pk
      ensures Valid() && info.Accounts() && dev.Accounts() && up.Accounts() && slot.Accounts()
      ensures Model() == StageModel.InfoNotify(old(Model()), note, a, v)
      ensures Inv(Model(), a)
      ensures note == Complete && old(info.peer) != null ==> ServerAsAsked(old(Model()), Model(), a, v)
    {
      InfoKeeps(Model(), a, note, v);
      if note == Terminated {
        EndInfo();
      } else if info.peer != null {
        if note == Failure {
          ReleaseInfo();
        } else if note == Complete {
          InfoCompletes(Model(), a, v);
          ReleaseInfo();
          ServerCertWrite(a, v);
        }
      }
    }

    /** The switch of server_cert_notify_cb. */
    method AfterCert(a: Attrs, v: Env)
      requires Valid() && Between(Model()) && dev.Model() == NO_SIDE && (next == NextDeviceCert ==> past.certFresh)
      modifies this, dev, up, slot, slot.cert, slot.down, slot.pk
      ensures Valid() && dev.Accounts() && up.Accounts() && slot.Accounts() && Model() == CertNext(old(Model()), a, v)
    {
      match next {
        case NextDeviceCert => DeviceCertRead(a, v);
        case NextServerCert => ServerCertWrite(a, v);
        case NextEnd =>
      }
      SetNext(NextEnd);
    }

    /** Its subscription has ended. */
    method CertEnded(a: Attrs, v: Env)
      requires Valid() && Inv(Model(), a) && slot.cert.sub
      modifies this, dev, up, slot, slot.cert, slot.down, slot.pk
      ensures Valid() && dev.Accounts() && up.Accounts() && slot.Accounts()
      ensures Model() == CertNext(old(Model()).(slot := CertEnd(old(slot.Model()))), a, v)
    {
      PacketizerSlot.CertEndKeeps(slot.Model());
      EndCert();
      AfterCert(a, v);
    }

    /** What the notification says of the certificate transfer. */
    method NoteCert(following: Next, latest: bool)
      requires Valid()
      modifies `next, `past
      ensures Valid() && Model() == CertNoted(old(Model()), following, latest)
    {
      next := following;
      past := past.(certFresh := past.certFresh || latest);
    }

    /** Its first half, for a subscription that goes on. With a sender there is a context to ask about. */
    method NoteOutcome(note: Note, newest: bool)
      requires Valid() && (slot.cert.peer != null ==> slot.cert.ctx != null)
      modifies `next, `past
      ensures Valid() && Model() == CertOutcome(old(Model()), note, newest)
    {
      if slot.cert.peer == null || note == Failure {
        NoteCert(NextEnd, false);
      } else if note == Complete {
        assert slot.cert.ctx != null;
        NoteCert(if newest then NextDeviceCert else NextServerCert, newest);
      }
    }

    /** server_cert_notify_cb. Its use of node->server_cert_ctx is never a use of NULL. */
    method ServerCertNotify(a: Attrs, note: Note, newest: bool, v: Env)
      requires Valid() && Inv(Model(), a) && Possible(Model(), CertEv(note, newest, v))
      modifies this, dev, up, slot, slot.cert, slot.down, slot.pk
      ensures Valid() && dev.Accounts() && up.Accounts() && slot.Accounts()
      ensures Model() == CertNotify(old(Model()), note, newest, a, v)
      ensures Inv(Model(), a)
    {
      CertKeeps(Model(), a, note, newest, v);
      if note == Terminated {
        CertEnded(a, v);
      } else {
        NoteOutcome(note, newest);
      }
    }

    ghost method NotePassed(isLast: bool)
      requires Valid()
      modifies `past
      ensures Valid()
      ensures Model() == old(Model()).(past := old(past).(devPassed := old(past).devPassed || isLast))
    {
      past := past.(devPassed := past.devPassed || isLast);
    }

    ghost method NoteUploaded()
      requires Valid()
      modifies `past
      ensures Valid() && Model() == old(Model()).(past := old(past).(devUploaded := true))
    {
      past := past.(devUploaded := true);
    }

    /** device_cert_data_received_cb. */
    method DeviceCertDataReceived(a: Attrs, isLast: bool, pushed: bool, sent: bool)
      requires Valid() && Inv(Model(), a) && Possible(Model(), DevDataEv(isLast, pushed, sent))
      modifies this, dev
      ensures Valid() && dev.Accounts() && Model() == DevData(old(Model()), isLast, pushed, sent)
      ensures Inv(Model(), a)
    {
      DevDataKeeps(Model(), a, isLast, pushed, sent);
      NotePassed(isLast);
      var failed := !pushed;
      if !failed && isLast {
        failed := !sent;
        if sent {
          NoteUploaded();
          GiveUpDevCtx();
        }
      }
      if failed {
        ReleaseDev();
      }
    }

    /** device_cert_notify_cb. */
    method DeviceCertNotify(a: Attrs, note: Note, v: Env)
      requires Valid() && Inv(Model(), a) && Possible(Model(), DevEv(note, v))
      modifies this, dev, up, slot, slot.down, slot.pk
      ensures Valid() && dev.Accounts() && up.Accounts() && slot.Accounts()
      ensures Model() == DevNotify(old(Model()), note, a, v)
      ensures Inv(Model(), a)
      ensures note == Complete && old(dev.peer) != null ==> UplinkAsAsked(Model(), a, v)
    {
      DevLeads(Model(), a, note, v);
      DevKeeps(Model(), a, note, v);
      if note == Terminated {
        EndDev();
      } else if dev.peer != null {
        if note == Failure {
          ReleaseDev();
        } else if note == Complete {
          ReleaseDev();
          UplinkStart(a, v);
        }
      }
    }

    /** uplink_notify_cb. */
    method UplinkNotify(a: Attrs, note: Note)
      requires Valid() && Inv(Model(), a) && Possible(Model(), UpEv(note))
      modifies up
      ensures Valid() && up.Accounts() && Model() == UpNotify(old(Model()), note) && Inv(Model(), a)
    {
      if note == Terminated {
        EndUplink();
      }
    }

    /** downlink_data_available. */
    method DataAvailable(a: Attrs, subscribed: bool)
      requires Valid() && Inv(Model(), a) && Possible(Model(), DataAvailableEv(subscribed))
      modifies slot, slot.down, slot.pk
      ensures Valid() && slot.Accounts() && Model() == Step(old(Model()), a, DataAvailableEv(subscribed))
      ensures Inv(Model(), a)
    {
      DataAvailableKeeps(slot.Model(), subscribed);
      DownKeeps(Model(), a, PacketizerSlot.DataAvailable(slot.Model(), subscribed));
      AnnounceData(subscribed);
    }

    /** downlink_notify_cb. */
    method DownlinkNotify(a: Attrs, note: Note)
      requires Valid() && Inv(Model(), a) && Possible(Model(), DownEv(note))
      modifies slot.down, slot.pk
      ensures Valid() && slot.Accounts() && Model() == Step(old(Model()), a, DownEv(note))
      ensures Inv(Model(), a)
    {
      DownEventKeeps(Model(), a, note);
      if note == Terminated {
        EndDownlink();
      } else if note == Complete {
        CompleteDownlink();
      }
    }

    /** pouch_gateway_bt_stop; `downActive` says whether the host still has the downlink subscription. */
    method Stop(a: Attrs, downActive: bool)
      requires Valid() && Inv(Model(), a) && downActive == slot.down.sub
      modifies up, slot.down, slot.pk
      ensures Valid() && up.Accounts() && slot.Accounts() && Model() == StageModel.Stop(old(Model())) && Inv(Model(), a)
    {
      StopKeeps(Model(), a);
      EndUplink();
      if downActive {
        EndDownlink();
      }
    }

    /** Data of the info or device certificate stage. */
    method HandleData(a: Attrs, e: Event)
      requires Valid() && Inv(Model(), a) && Possible(Model(), e) && (e.InfoDataEv? || e.DevDataEv?)
      modifies this, info, dev
      ensures Valid() && Accounts() && Model() == Step(old(Model()), a, e) && Inv(Model(), a)
    {
      match e
      case InfoDataEv(isLast, pushed, parsed, srv, dev) => InfoDataReceived(a, isLast, pushed, parsed, srv, dev);
      case DevDataEv(isLast, pushed, sent) => DeviceCertDataReceived(a, isLast, pushed, sent);
    }

    /** A callback that may enter the next stage. */
    method HandleStage(a: Attrs, e: Event)
      requires Valid() && Inv(Model(), a) && Possible(Model(), e) && (e.DiscoveryEv? || e.InfoEv? || e.DevEv?)
      modifies this, info, dev, up, slot, slot.cert, slot.down, slot.pk
      ensures Valid() && Accounts() && Model() == Step(old(Model()), a, e) && Inv(Model(), a)
    {
      match e
      case DiscoveryEv(v) => DiscoveryEnded(a, v);
      case InfoEv(note, v) => InfoNotify(a, note, v);
      case DevEv(note, v) => DeviceCertNotify(a, note, v);
    }

    /** The uplink's notifications, or the end of the connection. */
    method HandleUplink(a: Attrs, e: Event, downActive: bool)
      requires Valid() && Inv(Model(), a) && Possible(Model(), e) && downActive == slot.down.sub
      requires e.UpEv? || e.StopEv?
      modifies up, slot.down, slot.pk
      ensures Valid() && Accounts() && Model() == Step(old(Model()), a, e) && Inv(Model(), a)
    {
      match e
      case UpEv(note) => UplinkNotify(a, note);
      case StopEv => Stop(a, downActive);
    }

    /** The cloud's data for a downlink, or its notifications. */
    method HandleDownlink(a: Attrs, e: Event)
      requires Valid() && Inv(Model(), a) && Possible(Model(), e)
      requires e.DataAvailableEv? || e.DownEv?
      modifies slot, slot.down, slot.pk
      ensures Valid() && Accounts() && Model() == Step(old(Model()), a, e) && Inv(Model(), a)
    {
      match e
      case DataAvailableEv(subscribed) => DataAvailable(a, subscribed);
      case DownEv(note) => DownlinkNotify(a, note);
    }

    /** Any callback, in any state the stages can reach. `downActive` matters to Stop only. */
    method Handle(a: Attrs, e: Event, downActive: bool)
      requires Valid() && Inv(Model(), a) && Possible(Model(), e) && downActive == slot.down.sub
      modifies this, info, dev, up, slot, slot.cert, slot.down, slot.pk
      ensures Valid() && Accounts() && Model() == Step(old(Model()), a, e) && Inv(Model(), a)
    {
      if e.CertEv? {
        ServerCertNotify(a, e.note, e.newest, e.v);
      } else if e.UpEv? || e.StopEv? {
        HandleUplink(a, e, downActive);
      } else if e.DataAvailableEv? || e.DownEv? {
        HandleDownlink(a, e);
      } else if e.InfoDataEv? || e.DevDataEv? {
        HandleData(a, e);
      } else {
        HandleStage(a, e);
      }
    }

    /** What the stages leave behind, in allocations: after any run that ends in pouch_gateway_bt_stop and with
        all subscriptions over, nothing is allocated, unless a downlink was opened that never had data. */
    lemma FreedExactly(a: Attrs, es: seq<Event>)
      requires Valid() && Run(a, es) == Some(Model()) && es != [] && es[|es| - 1] == StopEv
      requires !info.sub && !slot.cert.sub && !dev.sub
      ensures Live() == {} <==> !NeverSubscribed(slot.Model())
    {
      RunKeeps(a, es);
      StopLeavesNoDownlink(a, es);
      LeftBehindExactly(a, es);
    }
  }
}
