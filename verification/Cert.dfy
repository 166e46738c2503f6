/** lib/cert.c: the server certificate, its in-place update, and reading it in pieces. */
module Cert {
  import opened Bytes
  import opened CertModel

  /** struct pouch_gateway_server_cert_context; ghost: the history of the transfer. */
  class ServerCertContext {
    var id: nat
    var offset: nat
    ghost var pieces: seq<byte>
    ghost var since: nat
    ghost var finished: bool

    ghost function Model(): Transfer
      reads this
    {
      Transfer(id, offset, pieces, since, finished)
    }

    constructor (version: nat, ghost updates: nat)
      ensures Model() == Transfer(version, 0, [], updates, false)
    {
      id, offset, pieces, since, finished := version, 0, [], updates, false;
    }
  }

  /** The static variables of lib/cert.c. */
  class ServerCert {
    const buf: array<byte>
    var len: nat
    var serial: seq<byte>
    var id: nat
    ghost var updates: nat
    ghost var installed: seq<byte>

    ghost predicate Valid()
      reads this, buf
    {
      && buf.Length == CERT_MAX && len == |installed| <= CERT_MAX && |serial| <= SERIAL_MAX
      && id == updates % WORD
    }

    ghost function Model(): Store
      requires Valid()
      reads this, buf
    {
      Statics(buf[..], len, serial, id, updates, installed)
    }

    constructor ()
      ensures Valid() && fresh(buf) && len == 0 && updates == 0
    {
      buf := new byte[CERT_MAX];
      len, serial, id, updates, installed := 0, [], 0, 0, [];
    }

    /** golioth_gateway_server_cert_get writes into the buffer as it goes. */
    method Download(bytes: seq<byte>)
      requires Valid() && |bytes| <= CERT_MAX
      modifies buf
      ensures Valid() && Model() == old(Model()).(buf := Overwrite(old(buf[..]), bytes))
    {
      forall i | 0 <= i < |bytes| {
        buf[i] := bytes[i];
      }
      assert buf[..] == Overwrite(old(buf[..]), bytes);
    }

    /** server_crt_update; `parsed` is the serial number if the buffer parses. False stands for -EIO. */
    method Update(n: nat, parsed: Option<seq<byte>>) returns (ok: bool)
      requires Valid() && n <= CERT_MAX && (parsed.Some? ==> |parsed.value| <= SERIAL_MAX)
      modifies this
      ensures Valid() && Model() == Install(old(Model()), n, parsed) && ok == parsed.Some?
      ensures ok ==> serial == parsed.value && len == n && installed == buf[..n]
      ensures !ok ==> serial == old(serial) && len == old(len) && id == old(id)
    {
      if parsed == None {
        return false;
      }
      serial, len := parsed.value, n;
      id, updates, installed := (id + 1) % WORD, updates + 1, buf[..n];
      return true;
    }

    /** pouch_gateway_cert_module_on_connected. */
    method OnConnected(download: CertModel.Download)
      requires Valid() && Fits(download)
      modifies this, buf
      ensures Valid() && Model() == Connected(old(Model()), download)
    {
      match download
      case Broken(written) =>
        Download(written);
      case Fetched(bytes, parsed) =>
        Download(bytes);
        var _ := Update(|bytes|, parsed);
    }

    /** pouch_gateway_server_cert_start. */
    method StartTransfer(memory: bool) returns (context: ServerCertContext?)
      requires Valid()
      ensures context != null <==> memory
      ensures context != null ==> fresh(context) && context.Model() == Start(Model())
    {
      context := null;
      if memory {
        context := new ServerCertContext(id, updates);
      }
    }

    /** pouch_gateway_server_cert_is_newest: what the answer says of a transfer of this certificate. */
    method TestNewest(context: ServerCertContext) returns (newest: bool)
      requires Valid() && TransferInv(Model(), context.Model())
      ensures newest <==> (updates - context.since) % WORD == 0
      ensures newest && context.finished && updates < context.since + WORD ==> |context.pieces| == len
    {
      DifferenceResidue(context.since, updates);
      newest := context.id == id;
    }

    /** pouch_gateway_server_cert_get_data into the first `room` bytes of `dst`: false stands for -ENODATA. */
    method GetData(context: ServerCertContext, dst: array<byte>, room: nat)
      returns (ok: bool, n: nat, isLast: bool)
      requires Valid() && room <= dst.Length && dst != buf
      modifies context, dst
      ensures ok <==> old(HasData(Model(), context.Model()))
      ensures !ok ==> n == room && !isLast && context.Model() == old(context.Model()) && dst[..] == old(dst[..])
      ensures ok ==> var s, t := Model(), old(context.Model());
                     && context.Model() == ReadOn(s, t, room) && isLast == context.finished
                     && n <= room && dst[..n] == Piece(s, t, room)
      ensures ok ==> n == Min(room, len - old(context.offset)) && context.offset == old(context.offset) + n
      ensures ok ==> dst[..n] == buf[old(context.offset)..context.offset] && (isLast <==> context.offset == len)
      ensures ok ==> forall k :: n <= k < dst.Length ==> dst[k] == old(dst[k])
    {
      n, isLast := room, false;
      if context.offset >= len {
        return false, n, false;
      }
      n := Min(room, len - context.offset);
      forall i | 0 <= i < n {
        dst[i] := buf[context.offset + i];
      }
      ghost var piece := buf[context.offset..context.offset + n];
      assert dst[..n] == piece;
      context.pieces := context.pieces + piece;
      context.offset := context.offset + n;
      isLast := context.offset >= len;
      context.finished := isLast;
      return true, n, isLast;
    }
  }
}
