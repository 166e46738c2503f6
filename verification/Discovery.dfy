/** lib/bt/connect.c: which characteristic a Client Characteristic Configuration descriptor belongs to. The
    descriptors are reported by handle only; each lies behind the value handle of its characteristic and
    before the next characteristic (Bluetooth Core Specification, Vol 3, Part G, section 3.3). */
module Discovery {
  import opened Bytes

  /** POUCH_GATEWAY_GATT_ATTRS: info, downlink, uplink, server certificate, device certificate. */
  const ATTRS := 5

  /** Among the first `n` value handles below `h`, the position of the greatest, the first one if several. */
  function Nearest(values: seq<nat>, h: nat, n: nat): (best: Option<nat>)
    requires n <= |values|
    ensures best == None <==> forall j :: 0 <= j < n ==> values[j] >= h
    ensures best.Some? ==>
              && best.value < n && values[best.value] < h
              && (forall j :: 0 <= j < n && values[j] < h ==> values[j] <= values[best.value])
              && (forall j :: 0 <= j < best.value ==> values[j] < h ==> values[j] < values[best.value])
  {
    if n == 0 then None
    else
      var best := Nearest(values, h, n - 1);
      if values[n - 1] < h && (best == None || values[n - 1] > values[best.value]) then Some(n - 1) else best
  }

  function Owner(values: seq<nat>, h: nat): Option<nat> {
    Nearest(values, h, |values|)
  }

  /** discover_descriptors for one reported descriptor. */
  function Assign(values: seq<nat>, cccs: seq<nat>, h: nat): (r: seq<nat>)
    requires |cccs| == |values|
    ensures |r| == |values|
  {
    var owner := Owner(values, h);
    if owner.Some? then cccs[owner.value := h] else cccs
  }

  function AssignAll(values: seq<nat>, cccs: seq<nat>, reports: seq<nat>): (r: seq<nat>)
    requires |cccs| == |values|
    ensures |r| == |values|
    decreases |reports|
  {
    if reports == [] then cccs
    else Assign(values, AssignAll(values, cccs, reports[..|reports| - 1]), reports[|reports| - 1])
  }

  /** Handle 0 stands for a characteristic that was not discovered. */
  predicate Known(values: seq<nat>, i: nat) {
    i < |values| && values[i] != 0
  }

  ghost predicate DistinctKnown(values: seq<nat>) {
    forall i, j :: 0 <= i < j < |values| ==> values[i] == values[j] ==> values[i] == 0
  }

  /** `h` lies behind value handle `i`, with no other known value handle in between. */
  ghost predicate Behind(values: seq<nat>, i: nat, h: nat)
    requires i < |values|
  {
    values[i] < h && forall j :: 0 <= j < |values| ==> values[j] <= values[i] || values[j] >= h
  }

  /** A known characteristic owns exactly the descriptors behind its value handle; one before all known value
      handles goes to the first undiscovered characteristic, if there is one. */
  lemma OwnerExactly(values: seq<nat>, h: nat, i: nat)
    requires DistinctKnown(values) && i < |values|
    ensures Known(values, i) ==> (Owner(values, h) == Some(i) <==> Behind(values, i, h))
    ensures !Known(values, i) ==>
              (Owner(values, h) == Some(i) <==>
                Behind(values, i, h) && forall j :: 0 <= j < i ==> Known(values, j))
  {
    var owner := Owner(values, h);
    if Behind(values, i, h) {
      assert values[owner.value] == values[i];
      assert owner.value < i ==> !Known(values, owner.value);
    }
  }

  /** The last report that `i` owns. */
  function LastOwned(values: seq<nat>, reports: seq<nat>, i: nat): Option<nat>
    decreases |reports|
  {
    if reports == [] then None
    else
      var n := |reports| - 1;
      if Owner(values, reports[n]) == Some(i) then Some(reports[n]) else LastOwned(values, reports[..n], i)
  }

  /** After any reports a characteristic holds the last one it owns, and otherwise what it held before. */
  lemma {:induction false} HoldsLastOwned(values: seq<nat>, cccs: seq<nat>, reports: seq<nat>, i: nat)
    requires |cccs| == |values| && i < |values|
    ensures AssignAll(values, cccs, reports)[i] ==
              match LastOwned(values, reports, i) case Some(h) => h case None => cccs[i]
    decreases |reports|
  {
    if reports != [] {
      HoldsLastOwned(values, cccs, reports[..|reports| - 1], i);
    }
  }

  lemma {:induction false} LastOwnedIs(values: seq<nat>, reports: seq<nat>, i: nat)
    ensures var last := LastOwned(values, reports, i);
            && (last.Some? ==> last.value in reports && Owner(values, last.value) == Some(i))
            && (last == None ==> forall h :: h in reports ==> Owner(values, h) != Some(i))
    decreases |reports|
  {
    if reports != [] {
      var n := |reports| - 1;
      LastOwnedIs(values, reports[..n], i);
      assert reports == reports[..n] + [reports[n]];
    }
  }

  /** Every reported descriptor belongs to a known characteristic that it lies behind, `own[i]` being the
      descriptor of characteristic `i`, or lies before all of them. */
  ghost predicate LaidOut(values: seq<nat>, own: seq<nat>, reports: seq<nat>) {
    && |own| == |values| && DistinctKnown(values)
    && (forall i :: 0 <= i < |values| && values[i] != 0 ==> Behind(values, i, own[i]))
    && (forall h :: h in reports ==>
          || (exists i :: 0 <= i < |values| && values[i] != 0 && own[i] == h)
          || (forall j :: 0 <= j < |values| ==> values[j] == 0 || values[j] >= h))
  }

  /** In whatever order the descriptors are reported, each known characteristic ends up with its own. */
  lemma KnownGetTheirOwn(values: seq<nat>, cccs: seq<nat>, own: seq<nat>, reports: seq<nat>, i: nat)
    requires LaidOut(values, own, reports) && |cccs| == |values|
    requires Known(values, i) && own[i] in reports
    ensures AssignAll(values, cccs, reports)[i] == own[i]
  {
    HoldsLastOwned(values, cccs, reports, i);
    LastOwnedIs(values, reports, i);
    OwnerExactly(values, own[i], i);
    var h := LastOwned(values, reports, i).value;
    OwnerExactly(values, h, i);
    if exists j :: 0 <= j < |values| && values[j] != 0 && own[j] == h {
      var j :| 0 <= j < |values| && values[j] != 0 && own[j] == h;
      OwnerExactly(values, h, j);
    }
  }

  /** An undiscovered characteristic is given a descriptor exactly if it is the first such and a descriptor
      before all known value handles is reported. */
  lemma UndiscoveredGets(values: seq<nat>, cccs: seq<nat>, reports: seq<nat>, i: nat)
    requires DistinctKnown(values) && |cccs| == |values| && i < |values| && !Known(values, i)
    requires cccs[i] == 0 && forall h :: h in reports ==> h > 0
    ensures AssignAll(values, cccs, reports)[i] != 0 <==>
              && (forall j :: 0 <= j < i ==> Known(values, j))
              && exists h :: h in reports && Behind(values, i, h)
  {
    HoldsLastOwned(values, cccs, reports, i);
    LastOwnedIs(values, reports, i);
    forall h ensures Owner(values, h) == Some(i) <==>
      Behind(values, i, h) && forall j :: 0 <= j < i ==> Known(values, j) {
      OwnerExactly(values, h, i);
    }
  }

  /** Without an info characteristic, the descriptor of an earlier service becomes its own. */
  lemma ForeignDescriptorHappens()
    ensures AssignAll([0, 20, 30, 40, 50], [0, 0, 0, 0, 0], [5]) == [5, 0, 0, 0, 0]
  {
    var values := [0, 20, 30, 40, 50];
    var owner := Nearest(values, 5, 5);
    assert values[0] < 5 && forall j :: 0 < j < 5 ==> values[j] >= 5;
    assert owner == Some(0);
    assert [5][..0] == [];
  }

  /** The value and descriptor handles of one node. */
  class AttrHandles {
    const value: array<nat>
    const ccc: array<nat>

    ghost predicate Valid()
      reads this
    {
      value.Length == ATTRS && ccc.Length == ATTRS && value != ccc
    }

    /** pouch_gateway_bt_start clears the handles. */
    constructor ()
      ensures Valid() && fresh(value) && fresh(ccc)
      ensures value[..] == [0, 0, 0, 0, 0] && ccc[..] == [0, 0, 0, 0, 0]
    {
      value := new nat[ATTRS](_ => 0);
      ccc := new nat[ATTRS](_ => 0);
    }

    /** discover_descriptors for one descriptor: the loop keeps the best position so far, ATTRS meaning none. */
    method DescriptorFound(handle: nat)
      requires Valid()
      modifies ccc
      ensures ccc[..] == Assign(value[..], old(ccc[..]), handle)
    {
      var best := ATTRS;
      for i := 0 to ATTRS
        invariant best == match Nearest(value[..], handle, i) case Some(k) => k case None => ATTRS
      {
        if value[i] < handle {
          if best == ATTRS {
            best := i;
          } else if value[i] > value[best] {
            best := i;
          }
        }
      }
      if best != ATTRS {
        ccc[best] := handle;
      }
    }

    /** The end of discover_characteristics: where the search for descriptors starts. It skips none that
        belongs to a known characteristic, and nothing before them all if every one is known. */
    method SearchStart(endHandle: nat) returns (start: nat)
      requires Valid()
      ensures start > 0 && start - 1 <= endHandle
      ensures forall i :: 0 <= i < ATTRS ==> start - 1 <= value[i]
      ensures start - 1 == endHandle || exists i :: 0 <= i < ATTRS && start - 1 == value[i]
    {
      start := endHandle;
      for i := 0 to ATTRS
        invariant start <= endHandle
        invariant forall j :: 0 <= j < i ==> start <= value[j]
        invariant start == endHandle || exists j :: 0 <= j < i && start == value[j]
      {
        if value[i] < start {
          start := value[i];
        }
      }
      start := start + 1;
    }
  }
}
