/** lib/bt: the pointers of struct pouch_gateway_node_info that belong together, with an account of what they
    were given. What is allocated is freed once, and nothing is held that no pointer names. */
module BtParts {
  import opened Bytes
  import opened PacketizerSlot
  import opened StageModel

  /** Whatever a pointer of the node can name: a context, a receiver, a sender or a packetizer. */
  class Resource {
    constructor () {}
  }

  ghost function Named(p: Resource?): set<Resource> {
    if p == null then {} else {p}
  }

  /** The context of a stage and the receiver or sender at work on it. Ghost: whether the Bluetooth host keeps
      the subscription active; `live` is what was allocated and not given back yet, `freed` what was. */
  class Endpoint {
    var ctx: Resource?
    var peer: Resource?
    ghost var sub: bool
    ghost var live: set<Resource>
    ghost var freed: set<Resource>

    /** Everything allocated is named by the one pointer it was stored in, or freed. */
    ghost predicate Valid()
      reads this
    {
      && (ctx != null ==> ctx != peer)
      && live == Named(ctx) + Named(peer) && live !! freed
    }

    ghost function Model(): Side
      reads this
    {
      Side(ctx != null, peer != null, sub)
    }

    /** Nothing is lost: what was allocated still is, or is freed. */
    twostate predicate Accounts()
      reads this
    {
      old(live) <= live + freed && old(freed) <= freed
    }

    constructor ()
      ensures Valid() && Model() == NO_SIDE && live == freed == {}
    {
      ctx, peer, sub, live, freed := null, null, false, {}, {};
    }

    /** Only what is allocated may be freed, so each resource is freed at most once. */
    ghost method Free(r: Resource)
      requires r in live
      modifies `live, `freed
      ensures live == old(live) - {r} && freed == old(freed) + {r}
    {
      live, freed := live - {r}, freed + {r};
    }

    /** Stores what an allocation of a context returned. The pointer must not name anything. */
    method SetCtx(granted: bool)
      requires Valid() && ctx == null
      modifies `ctx, `live
      ensures Valid() && Accounts() && Model() == old(Model()).(ctx := granted)
    {
      if granted {
        ctx := new Resource();
        live := live + {ctx};
      }
    }

    /** Stores what the creation of a receiver or sender returned. */
    method SetPeer(granted: bool)
      requires Valid() && peer == null
      modifies `peer, `live
      ensures Valid() && Accounts() && Model() == old(Model()).(peer := granted)
    {
      if granted {
        peer := new Resource();
        live := live + {peer};
      }
    }

    method ClearCtx()
      requires Valid()
      modifies `ctx, `live, `freed
      ensures Valid() && Accounts() && Model() == old(Model()).(ctx := false)
      ensures live == Named(peer) && freed == old(freed + Named(ctx))
    {
      if ctx != null {
        Free(ctx);
        ctx := null;
      }
    }

    method ClearPeer()
      requires Valid()
      modifies `peer, `live, `freed
      ensures Valid() && Accounts() && Model() == old(Model()).(peer := false)
      ensures live == Named(ctx) && freed == old(freed + Named(peer))
    {
      if peer != null {
        Free(peer);
        peer := null;
      }
    }

    /** info_cleanup, device_cert_cleanup, and what the other cleanups do with context and sender. */
    method Release()
      requires Valid()
      modifies `ctx, `peer, `live, `freed
      ensures Valid() && Accounts() && Model() == Released(old(Model()))
      ensures live == {} && freed == old(freed + live)
    {
      ClearCtx();
      ClearPeer();
    }

    /** The receiver and the subscription, once the context is allocated. A failing call leaves nothing behind. */
    method Receive(v: ReadEnv)
      requires Valid() && ctx != null && peer == null
      modifies this
      ensures Valid() && Accounts() && Model() == ReceiveBegin(old(Model()), v)
      ensures live == {} || sub
    {
      SetPeer(v.recv);
      if peer == null {
        Release();
      } else if !v.sub {
        Release();
      } else {
        Subscribe(true);
      }
    }

    /** The rest of gateway_info_read_start. */
    method ReadInfo(v: ReadEnv)
      requires Valid() && ctx == peer == null
      modifies this
      ensures Valid() && Accounts() && Model() == InfoBegin(old(Model()), v)
      ensures live == {} || sub
    {
      SetCtx(v.ctx);
      if ctx == null {
        return;
      }
      Receive(v);
    }

    /** The rest of pouch_gateway_device_cert_read. */
    method ReadDeviceCert(v: ReadEnv)
      requires Valid() && ctx == peer == null
      modifies this
      ensures Valid() && Accounts() && Model() == DevBegin(old(Model()), v)
      ensures live == {} || sub
    {
      SetCtx(v.ctx);
      if ctx == null {
        Release();
        return;
      }
      Receive(v);
    }

    ghost method Subscribe(on: bool)
      requires Valid()
      modifies `sub
      ensures Valid() && Model() == old(Model()).(sub := on)
    {
      sub := on;
    }
  }

  /** node->uplink_receiver and its subscription. */
  class ReceiverInfo {
    var receiver: Resource?
    ghost var sub: bool
    ghost var live: set<Resource>
    ghost var freed: set<Resource>

    ghost predicate Valid()
      reads this
    {
      live == Named(receiver) && live !! freed
    }

    twostate predicate Accounts()
      reads this
    {
      old(live) <= live + freed && old(freed) <= freed
    }

    constructor ()
      ensures Valid() && receiver == null && !sub && live == freed == {}
    {
      receiver, sub, live, freed := null, false, {}, {};
    }

    /** pouch_gatt_receiver_create, then the subscription. A receiver stays if that fails. */
    method Create(granted: bool, subscribed: bool)
      requires Valid() && receiver == null
      modifies this
      ensures Valid() && Accounts()
      ensures (receiver != null) == granted && sub == if granted then subscribed else old(sub)
    {
      if granted {
        receiver := new Resource();
        live := live + {receiver};
        sub := subscribed;
      }
    }

    /** The subscription has ended. */
    method Destroy()
      requires Valid()
      modifies this
      ensures Valid() && Accounts() && receiver == null && !sub
      ensures live == {} && freed == old(freed + live)
    {
      if receiver != null {
        live, freed := {}, freed + {receiver};
        receiver := null;
      }
      sub := false;
    }
  }

  /** node->packetizer. Ghost: the number of the current one, and the history. */
  class PacketizerInfo {
    var current: Resource?
    ghost var number: nat
    ghost var started: nat
    ghost var finished: seq<nat>
    ghost var live: set<Resource>
    ghost var freed: set<Resource>

    ghost predicate Valid()
      reads this
    {
      live == Named(current) && live !! freed
    }

    /** It is never overwritten while in use: Start demands that it be NULL. */
    ghost function Model(): Packetizers
      reads this
    {
      Packetizers(if current == null then None else Some(number), started, finished, false)
    }

    twostate predicate Accounts()
      reads this
    {
      old(live) <= live + freed && old(freed) <= freed
    }

    constructor ()
      ensures Valid() && Model() == EMPTY_SLOT.pk && live == freed == {}
    {
      current, number, started, finished, live, freed := null, 0, 0, [], {}, {};
    }

    /** pouch_gatt_packetizer_start_callback. */
    method Start(granted: bool)
      requires Valid() && current == null
      modifies this
      ensures Valid() && Accounts() && Model() == StartPacketizer(old(Model()), granted)
    {
      if granted {
        current := new Resource();
        number, started, live := started, started + 1, live + {current};
      }
    }

    method Finish()
      requires Valid()
      modifies this
      ensures Valid() && Accounts() && Model() == FinishPacketizer(old(Model()))
      ensures live == {} && freed == old(freed + live)
    {
      if current != null {
        finished := finished + [number];
        live, freed := {}, freed + {current};
        current := null;
      }
    }
  }

  /** The packetizer and the two stages that share it. */
  class SlotInfo {
    const pk: PacketizerInfo
    const cert: Endpoint
    const down: Endpoint
    var downValue: bool
    ghost var downlinkMade: bool

    ghost predicate Valid()
      reads this, pk, cert, down
    {
      cert != down && pk.Valid() && cert.Valid() && down.Valid()
    }

    ghost function Model(): Slot
      reads this, pk, cert, down
    {
      Slot(pk.Model(), cert.Model(), down.Model(), downValue, downlinkMade)
    }

    twostate predicate Accounts()
      reads pk, cert, down
    {
      pk.Accounts() && cert.Accounts() && down.Accounts()
    }

    constructor ()
      ensures Valid() && Model() == EMPTY_SLOT
      ensures fresh(pk) && fresh(cert) && fresh(down)
    {
      pk := new PacketizerInfo();
      cert := new Endpoint();
      down := new Endpoint();
      downValue, downlinkMade := false, false;
    }

    /** server_cert_cleanup: the stage holds nothing any more. */
    method CleanupCert()
      requires Valid()
      modifies cert, pk
      ensures Valid() && Accounts() && Model() == CertCleanup(old(Model()))
      ensures cert.live == pk.live == {}
      ensures cert.freed == old(cert.freed + cert.live) && pk.freed == old(pk.freed + pk.live)
    {
      cert.ClearCtx();
      pk.Finish();
      cert.ClearPeer();
    }

    /** cleanup_downlink: the stage holds nothing any more. */
    method CleanupDownlink()
      requires Valid()
      modifies down, pk
      ensures Valid() && Accounts() && Model() == DownCleanup(old(Model()))
      ensures down.live == pk.live == {}
      ensures down.freed == old(down.freed + down.live) && pk.freed == old(pk.freed + pk.live)
    {
      down.ClearCtx();
      pk.Finish();
      down.ClearPeer();
    }

    /** pouch_gateway_downlink_start, its characteristic being known. A failing call leaves nothing behind. */
    method DownlinkStart(v: DownEnv) returns (ok: bool)
      requires Valid() && SlotInv(Model()) && Idle(Model())
      modifies this, down, pk
      ensures Valid() && Accounts() && (Model(), ok) == DownBegin(old(Model()), v)
      ensures SlotInv(Model()) && (if ok then Model().downlinkMade else Idle(Model()) && down.live == pk.live == {})
    {
      DownBeginKeeps(Model(), v);
      if !v.mtu {
        return false;
      }
      down.SetCtx(v.ctx);
      if down.ctx == null {
        return false;
      }
      pk.Start(v.packetizer);
      if pk.current == null {
        CleanupDownlink();
        return false;
      }
      down.SetPeer(v.sender);
      if down.peer == null {
        CleanupDownlink();
        return false;
      }
      downValue, downlinkMade := false, true;
      return true;
    }

    /** pouch_gateway_server_cert_write, from the allocation of its context up to the sender. */
    method PrepareCert(v: CertEnv) returns (ok: bool)
      requires Valid() && Idle(Model())
      modifies cert, pk
      ensures Valid() && Accounts() && (Model(), ok) == CertPrepare(old(Model()), v)
      ensures !ok ==> cert.live == pk.live == {}
    {
      cert.SetCtx(v.ctx);
      if cert.ctx == null {
        CleanupCert();
        return false;
      }
      pk.Start(v.packetizer);
      if pk.current == null || !v.mtu {
        CleanupCert();
        return false;
      }
      cert.SetPeer(v.sender);
      if cert.peer == null {
        CleanupCert();
        return false;
      }
      return true;
    }

    /** The rest of it, the subscription. */
    method SubscribeCert(sub: bool)
      requires Valid()
      modifies cert, pk
      ensures Valid() && Accounts() && Model() == CertSubscribe(old(Model()), sub)
    {
      if sub {
        cert.Subscribe(true);
      } else {
        CleanupCert();
      }
    }

    /** The server certificate subscription has ended: the slot is free again. */
    method CertEnded()
      requires Valid() && SlotInv(Model()) && cert.sub
      modifies cert, pk
      ensures Valid() && Accounts() && Model() == CertEnd(old(Model()))
      ensures SlotInv(Model()) && Idle(Model()) && cert.live == pk.live == down.live == {}
    {
      CertEndKeeps(Model());
      cert.Subscribe(false);
      CleanupCert();
    }

    /** downlink_data_available. */
    method DataAvailable(subscribed: bool)
      requires Valid() && SlotInv(Model()) && down.ctx != null
      modifies this, down, pk
      ensures Valid() && Accounts() && Model() == PacketizerSlot.DataAvailable(old(Model()), subscribed)
      ensures SlotInv(Model()) && (down.sub || down.live == pk.live == {})
    {
      DataAvailableKeeps(Model(), subscribed);
      if !downValue {
        downValue := true;
        if subscribed {
          down.Subscribe(true);
        } else {
          CleanupDownlink();
        }
      }
    }

    /** The downlink subscription has ended: the downlink holds nothing any more. */
    method DownlinkEnded()
      requires Valid() && SlotInv(Model()) && down.sub
      modifies down, pk
      ensures Valid() && Accounts() && Model() == DownEnd(old(Model()))
      ensures SlotInv(Model()) && down.live == pk.live == {}
    {
      DownNotifyKeeps(Model());
      down.Subscribe(false);
      CleanupDownlink();
    }

    /** The downlink is complete: its context is closed, once. */
    method DownlinkCompleted()
      requires Valid() && SlotInv(Model()) && down.sub && down.ctx != null
      modifies down
      ensures Valid() && Accounts() && Model() == DownComplete(old(Model()))
      ensures SlotInv(Model()) && down.ctx == null && old(down.ctx) in down.freed
    {
      DownNotifyKeeps(Model());
      if down.peer != null {
        down.ClearCtx();
      }
    }
  }
}
