/** The server certificate and its transfer to a node, on values. The certificate may be replaced while it is
    being read in pieces; the transfer notices at its end and is started again. */
module CertModel {
  import opened Bytes

  /** CONFIG_POUCH_GATEWAY_SERVER_CERT_MAX_LEN, left arbitrary. */
  const CERT_MAX: nat
  const SERIAL_MAX: nat := 20

  /** The static variables of lib/cert.c, then the history: how many updates succeeded and the certificate the
      last one installed. The id counts the updates as far as its width goes. */
  datatype Statics =
    Statics(buf: seq<byte>, len: nat, serial: seq<byte>, id: nat, updates: nat, installed: seq<byte>)

  type Store = s: Statics |
    && |s.buf| == CERT_MAX && s.len == |s.installed| <= CERT_MAX && |s.serial| <= SERIAL_MAX
    && s.id == s.updates % WORD
    witness Statics(seq(CERT_MAX, _ => 0), 0, [], 0, 0, [])

  /** What a connection to the cloud brings: a download that failed after writing `written`, or a certificate,
      which parses to a serial number or does not parse. */
  datatype Download = Broken(written: seq<byte>) | Fetched(bytes: seq<byte>, serial: Option<seq<byte>>)

  function Written(d: Download): seq<byte> {
    if d.Broken? then d.written else d.bytes
  }

  /** The download stays within the buffer, and a serial number within the length X.509 allows. */
  predicate Fits(d: Download) {
    |Written(d)| <= CERT_MAX && (d.Fetched? && d.serial.Some? ==> |d.serial.value| <= SERIAL_MAX)
  }

  predicate Succeeds(d: Download) {
    d.Fetched? && d.serial.Some?
  }

  function Overwrite(buf: seq<byte>, bytes: seq<byte>): seq<byte>
    requires |bytes| <= |buf|
  {
    bytes + buf[|bytes|..]
  }

  /** server_crt_update of `len` bytes that are in the buffer. */
  function Install(s: Store, len: nat, serial: Option<seq<byte>>): Store
    requires len <= CERT_MAX && (serial.Some? ==> |serial.value| <= SERIAL_MAX)
  {
    if serial == None then s
    else s.(len := len, serial := serial.value, id := (s.id + 1) % WORD,
            updates := s.updates + 1, installed := s.buf[..len])
  }

  /** pouch_gateway_cert_module_on_connected: the download lands in the buffer before it is known to be good. */
  function Connected(s: Store, d: Download): Store
    requires Fits(d)
  {
    var s' := s.(buf := Overwrite(s.buf, Written(d)));
    if d.Broken? then s' else Install(s', |d.bytes|, d.serial)
  }

  /** What a connection to the cloud leaves, exactly. Serial number, length and installed certificate are those of
      the download if that succeeds, and what they were if not. */
  lemma ConnectedExactly(s: Store, d: Download)
    requires Fits(d)
    ensures var s' := Connected(s, d);
            if Succeeds(d) then
              && s'.serial == d.serial.value && s'.installed == d.bytes && s'.len == |d.bytes|
              && s'.updates == s.updates + 1 && s'.id == (s.id + 1) % WORD
            else
              && s'.serial == s.serial && s'.installed == s.installed && s'.len == s.len
              && s'.updates == s.updates && s'.id == s.id
    ensures var s', w := Connected(s, d), Written(d);
            |s'.buf| == |s.buf| && s'.buf[..|w|] == w && s'.buf[|w|..] == s.buf[|w|..]
  {
    var w := Written(d);
    assert Overwrite(s.buf, w)[..|w|] == w && Overwrite(s.buf, w)[|w|..] == s.buf[|w|..];
  }

  /** struct pouch_gateway_server_cert_context, then the history: the pieces read, when the transfer began,
      and whether a read reported the last. */
  datatype Transfer = Transfer(id: nat, offset: nat, pieces: seq<byte>, since: nat, finished: bool)

  function Start(s: Store): Transfer {
    Transfer(s.id, 0, [], s.updates, false)
  }

  predicate IsNewest(s: Store, t: Transfer) {
    t.id == s.id
  }

  /** pouch_gateway_server_cert_get_data, unless it reports that there is no data. */
  predicate HasData(s: Store, t: Transfer) {
    t.offset < s.len
  }

  function Piece(s: Store, t: Transfer, want: nat): seq<byte>
    requires HasData(s, t)
  {
    s.buf[t.offset..t.offset + Min(want, s.len - t.offset)]
  }

  function ReadOn(s: Store, t: Transfer, want: nat): Transfer
    requires HasData(s, t)
  {
    var piece := Piece(s, t, want);
    var offset := t.offset + |piece|;
    t.(offset := offset, pieces := t.pieces + piece, finished := offset >= s.len)
  }

  datatype Phase = Sending | Delivered | Failed

  /** The server certificate stage of one connection. `restarts` counts the transfers found stale, `base` the
      updates before the stage began. */
  datatype Stage = Stage(store: Store, phase: Phase, xfer: Transfer, restarts: nat, base: nat)

  /** The certificate is replaced, the packetizer asks for data, the node acknowledges all of it, or the
      transfer breaks down. */
  datatype Event = Update(download: Download) | Pull(want: nat) | Acked | Broke

  predicate Possible(s: Stage, e: Event) {
    match e
    case Update(download) => Fits(download)
    case Pull(_) => s.phase == Sending && !s.xfer.finished
    case Acked => s.phase == Sending && s.xfer.finished
    case Broke => s.phase == Sending
  }

  function Step(s: Stage, e: Event): Stage
    requires Possible(s, e)
  {
    match e
    case Update(download) => s.(store := Connected(s.store, download))
    case Pull(want) =>
      if HasData(s.store, s.xfer) then s.(xfer := ReadOn(s.store, s.xfer, want)) else s.(phase := Failed)
    case Acked =>
      if IsNewest(s.store, s.xfer) then s.(phase := Delivered)
      else s.(xfer := Start(s.store), restarts := s.restarts + 1)
    case Broke => s.(phase := Failed)
  }

  function Begin(store: Store): Stage {
    Stage(store, Sending, Start(store), 0, store.updates)
  }

  function RunFrom(s: Stage, es: seq<Event>): Option<Stage> {
    if es == [] then Some(s)
    else
      var before, e := RunFrom(s, es[..|es| - 1]), es[|es| - 1];
      if before.Some? && Possible(before.value, e) then Some(Step(before.value, e)) else None
  }

  /** The stage after a run of events that begins with certificate `store`. */
  function Run(store: Store, es: seq<Event>): Option<Stage> {
    RunFrom(Begin(store), es)
  }

  /** While no update succeeded since the transfer began, it has read as far as its offset says. */
  ghost predicate TransferInv(s: Store, t: Transfer) {
    && t.id == t.since % WORD && t.since <= s.updates && (t.finished ==> t.offset > 0)
    && (t.since == s.updates ==>
          && |t.pieces| == t.offset <= s.len
          && (if t.finished then t.offset == s.len else t.offset == 0 || t.offset < s.len))
  }

  function Stale(s: Stage): nat {
    if s.xfer.since < s.store.updates then 1 else 0
  }

  ghost predicate Inv(s: Stage) {
    && TransferInv(s.store, s.xfer)
    && s.base + s.restarts <= s.xfer.since <= s.store.updates
  }

  lemma StepKeeps(s: Stage, e: Event)
    requires Inv(s) && Possible(s, e)
    ensures Inv(Step(s, e))
  {
  }

  lemma {:induction false} RunKeeps(store: Store, es: seq<Event>)
    requires Run(store, es).Some?
    ensures Inv(Run(store, es).value) && Run(store, es).value.base == store.updates
  {
    if es != [] {
      RunKeeps(store, es[..|es| - 1]);
      StepKeeps(Run(store, es[..|es| - 1]).value, es[|es| - 1]);
    }
  }

  // ---------------------------------------------------------------- what every run guarantees

  lemma SameResidue(a: nat, b: nat)
    requires a <= b < a + WORD
    ensures a % WORD == b % WORD <==> a == b
  {
  }

  lemma DifferenceResidue(a: nat, b: nat)
    requires a <= b
    ensures a % WORD == b % WORD <==> (b - a) % WORD == 0
  {
  }

  /** What the id comparison tells: the updates during the transfer are a multiple of WORD. */
  lemma NewestExactly(store: Store, es: seq<Event>)
    requires Run(store, es).Some?
    ensures var s := Run(store, es).value;
            IsNewest(s.store, s.xfer) <==> (s.store.updates - s.xfer.since) % WORD == 0
  {
    RunKeeps(store, es);
    DifferenceResidue(Run(store, es).value.xfer.since, Run(store, es).value.store.updates);
  }

  // ---------------------------------------------------------------- when the delivered certificate is current

  /** The buffer starts with the installed certificate. */
  predicate CleanStore(s: Store) {
    s.buf[..s.len] == s.installed
  }

  /** From position `from` on, what a download wrote is what the installed certificate has there. */
  predicate AgreesFrom(s: Store, d: Download, from: nat) {
    var m := Min(|Written(d)|, s.len);
    from < m ==> Written(d)[from..m] == s.installed[from..m]
  }

  /** A download that succeeds, or writes nothing but what is there already. */
  predicate Harmless(s: Store, d: Download) {
    Succeeds(d) || AgreesFrom(s, d, 0)
  }

  /** What is read of the current transfer is the certificate so far. */
  predicate PiecesSound(s: Store, t: Transfer) {
    t.since == s.updates ==> t.offset <= s.len && t.pieces == s.installed[..t.offset]
  }

  predicate Clean(s: Stage) {
    CleanStore(s.store) && PiecesSound(s.store, s.xfer)
  }

  /** The first byte that is still to be read before the stage can deliver: a stale transfer starts again. */
  function Unread(s: Stage): nat {
    if s.xfer.since < s.store.updates then 0 else s.xfer.offset
  }

  /** What is read is the certificate, and so is what is still to be read. */
  predicate Sound(s: Stage) {
    && PiecesSound(s.store, s.xfer)
    && (Unread(s) <= s.store.len ==> s.store.buf[Unread(s)..s.store.len] == s.store.installed[Unread(s)..])
  }

  predicate Undisturbed(s: Stage, es: seq<Event>) {
    RunFrom(s, es).Some? && forall i :: 0 <= i < |es| ==> !es[i].Update?
  }

  /** A run of the stage to its successful end, without updates. */
  predicate Delivers(s: Stage, es: seq<Event>) {
    Undisturbed(s, es) && RunFrom(s, es).value.phase == Delivered
  }

  /** Whatever the sizes of the pieces still read, the node ends up with the installed certificate. */
  ghost predicate NeverTorn(s: Stage) {
    forall es :: Delivers(s, es) ==> RunFrom(s, es).value.xfer.pieces == s.store.installed
  }

  predicate CanDeliver(s: Stage) {
    s.store.len > 0 && (s.xfer.finished || HasData(s.store, s.xfer))
  }

  lemma SuffixOf(a: seq<byte>, b: seq<byte>, i: nat, j: nat)
    requires i <= j <= |a| && |a| == |b|
    ensures a[i..] == b[i..] ==> a[j..] == b[j..]
  {
    assert a[i..][j - i..] == a[j..] && b[i..][j - i..] == b[j..];
  }

  lemma PieceSound(s: Store, t: Transfer, want: nat)
    requires HasData(s, t) && t.pieces == s.installed[..t.offset]
    requires s.buf[t.offset..s.len] == s.installed[t.offset..]
    ensures var t' := ReadOn(s, t, want);
            && t'.offset <= s.len && t'.pieces == s.installed[..t'.offset]
            && s.buf[t'.offset..s.len] == s.installed[t'.offset..]
  {
    var t' := ReadOn(s, t, want);
    var n := t'.offset - t.offset;
    assert n <= s.len - t.offset && Piece(s, t, want) == s.buf[t.offset..t.offset + n];
    assert s.buf[t.offset..s.len][..n] == s.buf[t.offset..t.offset + n];
    assert s.installed[t.offset..][..n] == Piece(s, t, want);
    assert s.installed[..t.offset] + s.installed[t.offset..][..n] == s.installed[..t'.offset];
    SuffixOf(s.buf[..s.len], s.installed, t.offset, t'.offset);
    assert s.buf[..s.len][t.offset..] == s.buf[t.offset..s.len];
    assert s.buf[..s.len][t'.offset..] == s.buf[t'.offset..s.len];
  }

  /** Delivered is only what was read to its end and not replaced meanwhile. */
  ghost predicate Quiet(s: Stage, store: Store) {
    && Inv(s) && s.store == store && store.updates < s.xfer.since + WORD
    && (s.phase == Delivered ==> s.xfer.finished && s.xfer.since == store.updates)
  }

  lemma QuietStep(s: Stage, store: Store, e: Event)
    requires Quiet(s, store) && Possible(s, e) && !e.Update?
    ensures Quiet(Step(s, e), store)
    ensures Sound(s) ==> Sound(Step(s, e))
    ensures Stuck(s) ==> Stuck(Step(s, e))
  {
    StepKeeps(s, e);
    SameResidue(s.xfer.since, store.updates);
    if Sound(s) && e.Pull? && HasData(store, s.xfer) && s.xfer.since == store.updates {
      PieceSound(store, s.xfer, e.want);
    }
  }

  /** A stage that has failed or has nothing to deliver. */
  predicate Stuck(s: Stage) {
    s.phase == Failed || (s.phase == Sending && !CanDeliver(s))
  }

  lemma {:induction false} QuietRun(s: Stage, es: seq<Event>)
    requires Quiet(s, s.store) && Undisturbed(s, es)
    ensures Quiet(RunFrom(s, es).value, s.store)
    ensures Sound(s) ==> Sound(RunFrom(s, es).value)
    ensures Stuck(s) ==> Stuck(RunFrom(s, es).value)
  {
    if es != [] {
      var n := |es| - 1;
      QuietRun(s, es[..n]);
      QuietStep(RunFrom(s, es[..n]).value, s.store, es[n]);
    }
  }

  /** The rest of the current transfer in one piece. */
  lemma ReadRest(s: Stage)
    requires Inv(s) && s.phase == Sending && !s.xfer.finished && HasData(s.store, s.xfer)
    ensures var e := Pull(s.store.len - s.xfer.offset);
            && Possible(s, e)
            && Step(s, e) == s.(xfer := Step(s, e).xfer)
            && Step(s, e).xfer.finished && Step(s, e).xfer.since == s.xfer.since
            && Step(s, e).xfer.id == s.xfer.id
            && Step(s, e).xfer.pieces == s.xfer.pieces + s.store.buf[s.xfer.offset..s.store.len]
  {
  }

  lemma RunAfterStep(s: Stage, e: Event, es: seq<Event>)
    requires Possible(s, e)
    ensures RunFrom(s, [e] + es) == RunFrom(Step(s, e), es)
    decreases |es|
  {
    if es == [] {
      assert [e] + es == [e] && [e][..0] == [];
    } else {
      var n := |es| - 1;
      assert ([e] + es)[..n + 1] == [e] + es[..n];
      RunAfterStep(s, e, es[..n]);
    }
  }

  /** The run that delivers a newest transfer with the fewest reads, and what it delivers. */
  lemma FinishNewest(s: Stage) returns (es: seq<Event>)
    requires Inv(s) && s.phase == Sending && s.xfer.since == s.store.updates && CanDeliver(s)
    ensures Delivers(s, es)
    ensures RunFrom(s, es).value.xfer.pieces == s.xfer.pieces + s.store.buf[s.xfer.offset..s.store.len]
  {
    if s.xfer.finished {
      es := [Acked];
      RunAfterStep(s, Acked, []);
      assert [Acked] + [] == [Acked];
      assert s.xfer.pieces + [] == s.xfer.pieces;
    } else {
      var e := Pull(s.store.len - s.xfer.offset);
      ReadRest(s);
      es := [e] + [Acked];
      RunAfterStep(s, e, [Acked]);
      RunAfterStep(Step(s, e), Acked, []);
      assert [Acked] + [] == [Acked];
    }
  }

  /** The run that delivers with the fewest reads: a stale transfer is read to its end and started again. */
  lemma Finish(s: Stage) returns (es: seq<Event>)
    requires Inv(s) && s.phase == Sending && CanDeliver(s) && s.store.updates < s.xfer.since + WORD
    ensures Delivers(s, es)
    ensures var before := if s.xfer.since == s.store.updates then s.xfer.pieces else [];
            RunFrom(s, es).value.xfer.pieces == before + s.store.buf[Unread(s)..s.store.len]
  {
    if s.xfer.since == s.store.updates {
      es := FinishNewest(s);
    } else {
      SameResidue(s.xfer.since, s.store.updates);
      if s.xfer.finished {
        es := Restart(s);
      } else {
        var e := Pull(s.store.len - s.xfer.offset);
        ReadRest(s);
        StepKeeps(s, e);
        var rest := Restart(Step(s, e));
        es := [e] + rest;
        RunAfterStep(s, e, rest);
      }
    }
  }

  lemma Restart(s: Stage) returns (es: seq<Event>)
    requires Inv(s) && s.phase == Sending && s.store.len > 0 && s.xfer.finished && !IsNewest(s.store, s.xfer)
    ensures Delivers(s, es)
    ensures RunFrom(s, es).value.xfer.pieces == s.store.buf[..s.store.len]
  {
    StepKeeps(s, Acked);
    var rest := FinishNewest(Step(s, Acked));
    es := [Acked] + rest;
    RunAfterStep(s, Acked, rest);
    assert [] + s.store.buf[0..s.store.len] == s.store.buf[..s.store.len];
  }

  lemma SplitEqual(a: seq<byte>, b: seq<byte>, whole: seq<byte>)
    requires |a| + |b| == |whole|
    ensures a + b == whole <==> a == whole[..|a|] && b == whole[|a|..]
  {
    assert whole == whole[..|a|] + whole[|a|..];
    if a + b == whole {
      assert (a + b)[..|a|] == a && (a + b)[|a|..] == b;
    }
  }

  /** Freshness, exactly, in every state of the stage, whatever happened to the buffer before: the node can
      only end up with the installed certificate if and only if the pieces it has and the bytes still to be
      read are the certificate's. The id wraps, so fewer than WORD updates may fall into one transfer. */
  lemma NeverTornExactly(s: Stage)
    requires Inv(s) && s.phase == Sending && s.store.updates < s.xfer.since + WORD
    ensures NeverTorn(s) <==> (CanDeliver(s) ==> Sound(s))
  {
    if CanDeliver(s) ==> Sound(s) {
      forall es | Delivers(s, es) ensures RunFrom(s, es).value.xfer.pieces == s.store.installed {
        QuietRun(s, es);
      }
    } else {
      var es := Finish(s);
      var before := if s.xfer.since == s.store.updates then s.xfer.pieces else [];
      SplitEqual(before, s.store.buf[Unread(s)..s.store.len], s.store.installed);
    }
  }

  lemma OverwriteAgrees(s: Store, d: Download, from: nat)
    requires Fits(d) && CleanStore(s) && from <= s.len
    ensures Overwrite(s.buf, Written(d))[from..s.len] == s.installed[from..] <==> AgreesFrom(s, d, from)
  {
    var w, buf := Written(d), Overwrite(s.buf, Written(d));
    var m := Min(|w|, s.len);
    assert forall i :: m <= i < s.len ==> buf[i] == s.buf[..s.len][i];
    if from < m {
      assert buf[..|w|] == w;
      assert buf[from..m] == buf[..|w|][from..m];
      assert buf[from..s.len][..m - from] == buf[from..m];
      assert s.installed[from..][..m - from] == s.installed[from..m];
      if w[from..m] == s.installed[from..m] {
        forall i | from <= i < s.len ensures buf[i] == s.installed[i] {
          if i < m {
            assert w[i] == w[from..m][i - from];
          }
        }
      }
    }
  }

  /** On the branch that fails: after a failed download into a clean stage that can still deliver, a torn
      certificate can be delivered if and only if the download differs from the installed certificate in a
      byte that is still to be read. */
  lemma TearsExactly(s: Stage, d: Download)
    requires Inv(s) && Clean(s) && s.phase == Sending && s.store.updates < s.xfer.since + WORD
    requires Fits(d) && !Succeeds(d)
    ensures NeverTorn(Step(s, Update(d))) <==> (CanDeliver(s) ==> AgreesFrom(s.store, d, Unread(s)))
  {
    StepKeeps(s, Update(d));
    NeverTornExactly(Step(s, Update(d)));
    OverwriteAgrees(s.store, d, Unread(s));
  }

  /** The buffer stays clean exactly through harmless downloads. */
  lemma ConnectedStaysClean(s: Store, d: Download)
    requires Fits(d) && CleanStore(s)
    ensures CleanStore(Connected(s, d)) <==> Harmless(s, d)
  {
    OverwriteAgrees(s, d, 0);
  }

  predicate HarmlessAt(store: Store, es: seq<Event>, m: nat)
    requires m < |es|
  {
    es[m].Update? ==> Run(store, es[..m]).Some? && Harmless(Run(store, es[..m]).value.store, es[m].download)
  }

  lemma CleanStep(s: Stage, e: Event)
    requires Inv(s) && Clean(s) && Possible(s, e) && (e.Update? ==> Harmless(s.store, e.download))
    ensures Clean(Step(s, e))
  {
    if e.Update? {
      ConnectedStaysClean(s.store, e.download);
    } else if e.Pull? && HasData(s.store, s.xfer) && s.xfer.since == s.store.updates {
      assert s.store.buf[..s.store.len][s.xfer.offset..] == s.store.buf[s.xfer.offset..s.store.len];
      PieceSound(s.store, s.xfer, e.want);
    }
  }

  /** From a clean buffer on, downloads that succeed or fail without harm keep it and the transfer clean. */
  lemma {:induction false} HarmlessStaysClean(store: Store, es: seq<Event>)
    requires CleanStore(store) && Run(store, es).Some?
    requires forall m :: 0 <= m < |es| ==> HarmlessAt(store, es, m)
    ensures Clean(Run(store, es).value)
  {
    if es != [] {
      var n := |es| - 1;
      forall m | 0 <= m < n ensures HarmlessAt(store, es[..n], m) {
        assert es[..n][..m] == es[..m] && HarmlessAt(store, es, m);
      }
      HarmlessStaysClean(store, es[..n]);
      RunKeeps(store, es[..n]);
      assert HarmlessAt(store, es, n);
      CleanStep(Run(store, es[..n]).value, es[n]);
    }
  }

  /** So what a run with harmless downloads delivers is the current certificate, for any updates and sizes. */
  lemma HarmlessDelivery(store: Store, es: seq<Event>)
    requires CleanStore(store) && Run(store, es).Some?
    requires forall m :: 0 <= m < |es| ==> HarmlessAt(store, es, m)
    requires Possible(Run(store, es).value, Acked)
    requires Run(store, es).value.store.updates < Run(store, es).value.xfer.since + WORD
    requires Step(Run(store, es).value, Acked).phase == Delivered
    ensures Run(store, es).value.xfer.pieces == Run(store, es).value.store.installed
  {
    HarmlessStaysClean(store, es);
    RunKeeps(store, es);
    var s := Run(store, es).value;
    SameResidue(s.xfer.since, s.store.updates);
    assert s.store.installed[..|s.store.installed|] == s.store.installed;
  }

  lemma {:induction false} RunPrefix(store: Store, es: seq<Event>, m: nat)
    requires Run(store, es).Some? && m <= |es|
    ensures Run(store, es[..m]).Some?
    decreases |es|
  {
    if m == |es| {
      assert es[..m] == es;
    } else {
      assert es[..|es| - 1][..m] == es[..m];
      RunPrefix(store, es[..|es| - 1], m);
    }
  }

  /** Freshness as promised: with successful updates only, what is delivered is the current certificate. */
  lemma FreshDelivery(store: Store, es: seq<Event>)
    requires CleanStore(store) && Run(store, es).Some?
    requires forall i :: 0 <= i < |es| ==> es[i].Update? ==> Succeeds(es[i].download)
    requires Possible(Run(store, es).value, Acked)
    requires Run(store, es).value.store.updates < Run(store, es).value.xfer.since + WORD
    requires Step(Run(store, es).value, Acked).phase == Delivered
    ensures Run(store, es).value.xfer.pieces == Run(store, es).value.store.installed
  {
    forall m | 0 <= m < |es| ensures HarmlessAt(store, es, m) {
      RunPrefix(store, es, m);
    }
    HarmlessDelivery(store, es);
  }

  /** Every transfer that begins after a failed download and before the next good one delivers what the failed
      one left: with a certificate installed, it is safe exactly if the buffer is clean. */
  lemma NextTransferExactly(store: Store)
    requires store.len > 0
    ensures NeverTorn(Begin(store)) <==> CleanStore(store)
  {
    NeverTornExactly(Begin(store));
    assert store.buf[0..store.len] == store.buf[..store.len] && store.installed[0..] == store.installed;
  }

  /** No update need fall into the transfer: an earlier download has failed. */
  lemma LaterTransferTears(store: Store)
    requires CERT_MAX >= 2 && store.installed == [1, 2] && store.buf[..2] == [9, 9]
    ensures var es := [Pull(2)];
            && Run(store, es).Some? && Possible(Run(store, es).value, Acked)
            && Step(Run(store, es).value, Acked).phase == Delivered
            && Run(store, es).value.xfer.pieces == [9, 9]
  {
    var es := [Pull(2)];
    assert es[..0] == [] && RunFrom(Begin(store), []) == Some(Begin(store));
    assert [] + store.buf[0..2] == store.buf[..2];
    assert Run(store, es) == Some(Step(Begin(store), es[0]));
  }

  /** A failed download during a transfer can tear the certificate without anyone noticing. */
  lemma BrokenDownloadTears(store: Store)
    requires CERT_MAX >= 2 && store.installed == [1, 2] && store.buf[..2] == [1, 2]
    ensures var es := [Pull(1), Update(Broken([9, 9])), Pull(1)];
            && Run(store, es).Some? && Possible(Run(store, es).value, Acked)
            && Step(Run(store, es).value, Acked).phase == Delivered
            && Run(store, es).value.xfer.pieces == [1, 9]
  {
    var es := [Pull(1), Update(Broken([9, 9])), Pull(1)];
    assert es[..2][..1] == es[..1] && es[..1][..0] == [];
    assert RunFrom(Begin(store), []) == Some(Begin(store));
    var s1 := Step(Begin(store), es[0]);
    assert store.buf[0] == store.buf[..2][0];
    assert s1.xfer.pieces == [1];
    assert Run(store, es[..1]) == Some(s1);
    var s2 := Step(s1, es[1]);
    assert Run(store, es[..2]) == Some(s2);
    assert s2.store.buf[1] == 9;
    assert Piece(s2.store, s2.xfer, 1) == [9];
  }

  /** At most one restart per update, so at most updates + 1 transfers. */
  lemma RestartsBounded(store: Store, es: seq<Event>)
    requires Run(store, es).Some?
    ensures Run(store, es).value.restarts <= Run(store, es).value.store.updates - store.updates
  {
    RunKeeps(store, es);
  }

  function BytesLeft(s: Stage): nat {
    if HasData(s.store, s.xfer) then s.store.len - s.xfer.offset else 0
  }

  /** What a sender that asks for pieces of `want` bytes, and a node that acknowledges, make of the stage once
      updates stop. They come to an end: each step leaves a transfer less stale, shorter, or the stage. The
      certificate is delivered after at most one more restart, unless the one being sent has meanwhile
      shrunk below what was sent already, or is empty. */
  function Settle(s: Stage, want: nat): (r: Stage)
    requires Inv(s) && want > 0 && s.store.updates < s.xfer.since + WORD
    ensures r.store == s.store && r.phase != Sending
    ensures s.phase == Sending ==>
              (r.phase == Delivered <==> s.store.len > 0 && (s.xfer.finished || HasData(s.store, s.xfer)))
    ensures r.restarts <= s.restarts + Stale(s)
    ensures r.phase == Delivered && s.phase == Sending ==> r.xfer.since == s.store.updates
    decreases Stale(s), BytesLeft(s), if s.phase == Sending then 1 else 0
  {
    if s.phase != Sending then s
    else
      var e := if s.xfer.finished then Acked else Pull(want);
      StepKeeps(s, e);
      SameResidue(s.xfer.since, s.store.updates);
      Settle(Step(s, e), want)
  }
}
