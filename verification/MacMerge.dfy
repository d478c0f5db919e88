/** What `merge_by_mac` computes, stated without running it, and the order of both merges
    (discovery/reconcile.py). */
module MacMerge {
  import opened Basics
  import opened Models
  import opened SourceNames
  import opened DeviceMerge

  function IpOf(d: Device): Text { d.ip }
  function ModelOf(d: Device): Text { d.model }
  function FirmwareOf(d: Device): Text { d.firmware }
  function SerialOf(d: Device): Text { d.serial }
  function NumberOf(d: Device): Text { d.modelNumber }
  function IdentifierOf(d: Device): Text { d.modelIdentifier }

  function WithMac(mac: Text): Device -> bool {
    (d: Device) => d.mac == mac
  }

  function WithoutMac(): Device -> bool {
    (d: Device) => !Truthy(d.mac)
  }

  /** What the devices `c` with one MAC make of their entry: the first of them, with the texts that any of
      them gave first, the extra data given last, and the joined source. */
  ghost predicate JoinedByMac(c: seq<Device>, e: Device) {
    && c != [] && e.mac == c[0].mac
    && e.vlan == c[0].vlan && e.networkName == c[0].networkName && e.services == c[0].services
    && e.ip == FirstText(c, IpOf) && e.hostname == FirstText(c, HostnameOf) && e.assetType == FirstText(c, TypeOf)
    && e.vendor == FirstText(c, VendorOf) && e.connectionType == FirstText(c, ConnectionOf)
    && e.model == FirstText(c, ModelOf) && e.firmware == FirstText(c, FirmwareOf)
    && e.serial == FirstText(c, SerialOf) && e.modelNumber == FirstText(c, NumberOf)
    && e.modelIdentifier == FirstText(c, IdentifierOf)
    && e.extra == LastExtras(c) && e.source == JoinedSource(c)
  }

  lemma JoinedByMacSnoc(c: seq<Device>, e: Device, d: Device)
    requires JoinedByMac(c, e)
    ensures JoinedByMac(c + [d], Absorb(ByMac, e, d))
  {
    hide Or, Join, FirstText, LastExtras, JoinedSource;
    FirstTextSnoc(c, d, IpOf);
    FirstTextSnoc(c, d, HostnameOf);
    FirstTextSnoc(c, d, TypeOf);
    FirstTextSnoc(c, d, VendorOf);
    FirstTextSnoc(c, d, ConnectionOf);
    FirstTextSnoc(c, d, ModelOf);
    FirstTextSnoc(c, d, FirmwareOf);
    FirstTextSnoc(c, d, SerialOf);
    FirstTextSnoc(c, d, NumberOf);
    FirstTextSnoc(c, d, IdentifierOf);
    FoldsSnoc(c, d);
  }

  lemma FirstTextOne(d: Device, pick: Device -> Text)
    ensures FirstText([d], pick) == pick(d)
  {
    assert [d][..0] == [];
  }

  lemma JoinedByMacOne(d: Device)
    ensures JoinedByMac([d], d)
  {
    hide FirstText;
    FirstTextOne(d, IpOf);
    FirstTextOne(d, HostnameOf);
    FirstTextOne(d, TypeOf);
    FirstTextOne(d, VendorOf);
    FirstTextOne(d, ConnectionOf);
    FirstTextOne(d, ModelOf);
    FirstTextOne(d, FirmwareOf);
    FirstTextOne(d, SerialOf);
    FirstTextOne(d, NumberOf);
    FirstTextOne(d, IdentifierOf);
    FoldsSnoc([], d);
    assert [] + [d] == [d] && map[] + d.extra == d.extra;
  }

  ghost predicate MacEntryOf(ds: seq<Device>, e: Device) {
    Truthy(e.mac) && JoinedByMac(Filter(ds, WithMac(e.mac)), e)
  }

  /** Set aside are the devices without a MAC, in order; every other device is in the one entry of its MAC. */
  ghost predicate MacMeaning(ds: seq<Device>, m: Merge) {
    && m.standalone == Filter(ds, WithoutMac())
    && (forall i :: 0 <= i < |m.joined| ==> MacEntryOf(ds, m.joined[i]))
    && (forall i :: 0 <= i < |ds| && Truthy(ds[i].mac) ==>
          exists j :: 0 <= j < |m.joined| && m.joined[j].mac == ds[i].mac)
    && (forall i, j :: 0 <= i < j < |m.joined| ==> m.joined[i].mac != m.joined[j].mac)
  }

  lemma FilterSnoc(ds: seq<Device>, d: Device, keep: Device -> bool)
    ensures Filter(ds + [d], keep) == Filter(ds, keep) + if keep(d) then [d] else []
  {
    assert (ds + [d])[..|ds + [d]| - 1] == ds;
  }

  lemma OtherEntry(ds: seq<Device>, d: Device, e: Device)
    requires MacEntryOf(ds, e) && d.mac != e.mac
    ensures MacEntryOf(ds + [d], e)
  {
    hide JoinedByMac, Filter;
    FilterSnoc(ds, d, WithMac(e.mac));
    assert Filter(ds, WithMac(e.mac)) + [] == Filter(ds, WithMac(e.mac));
  }

  lemma OwnEntry(ds: seq<Device>, d: Device, e: Device)
    requires MacEntryOf(ds, e) && d.mac == e.mac
    ensures MacEntryOf(ds + [d], Absorb(ByMac, e, d)) && Absorb(ByMac, e, d).mac == e.mac
  {
    JoinedByMacSnoc(Filter(ds, WithMac(e.mac)), e, d);
    hide JoinedByMac, Filter;
    FilterSnoc(ds, d, WithMac(e.mac));
  }

  lemma {:induction false} NoneWithMac(ds: seq<Device>, mac: Text)
    requires forall i :: 0 <= i < |ds| ==> ds[i].mac != mac
    ensures Filter(ds, WithMac(mac)) == []
  {
    if ds != [] {
      NoneWithMac(ds[..|ds| - 1], mac);
    }
  }

  lemma FirstEntry(ds: seq<Device>, d: Device)
    requires Truthy(d.mac) && forall i :: 0 <= i < |ds| ==> ds[i].mac != d.mac
    ensures MacEntryOf(ds + [d], d)
  {
    hide JoinedByMac, Filter;
    NoneWithMac(ds, d.mac);
    FilterSnoc(ds, d, WithMac(d.mac));
    JoinedByMacOne(d);
    assert [] + [d] == [d];
  }

  lemma MacStep(ds: seq<Device>, m: Merge, d: Device)
    requires MacMeaning(ds, m)
    ensures MacMeaning(ds + [d], MergeStep(ByMac, m, d))
  {
    hide MacEntryOf, Filter, Absorb;
    FilterSnoc(ds, d, WithoutMac());
    var m' := MergeStep(ByMac, m, d);
    var i := Slot(ByMac, m.joined, d.mac);
    forall k | 0 <= k < |m'.joined| ensures MacEntryOf(ds + [d], m'.joined[k]) {
      if k < |m.joined| && m.joined[k].mac != d.mac {
        OtherEntry(ds, d, m.joined[k]);
      } else if k < |m.joined| {
        MacIsTruthy(ds, m.joined[k]);
        OwnEntry(ds, d, m.joined[k]);
      } else {
        FirstEntry(ds, d);
      }
    }
    if Truthy(d.mac) && i < |m.joined| {
      MacIsTruthy(ds, m.joined[i]);
      OwnEntry(ds, d, m.joined[i]);
    }
    assert Truthy(d.mac) ==> m'.joined[i].mac == d.mac;
    assert m.standalone + [] == m.standalone;
    MacsListed(ds, m.joined, m'.joined, d);
  }

  lemma MacIsTruthy(ds: seq<Device>, e: Device)
    requires MacEntryOf(ds, e)
    ensures Truthy(e.mac)
  {
    hide JoinedByMac;
  }

  lemma MacsListed(ds: seq<Device>, before: seq<Device>, after: seq<Device>, d: Device)
    requires |before| <= |after| && forall j :: 0 <= j < |before| ==> after[j].mac == before[j].mac
    requires Truthy(d.mac) ==> exists j :: 0 <= j < |after| && after[j].mac == d.mac
    requires forall i :: 0 <= i < |ds| && Truthy(ds[i].mac) ==>
      exists j :: 0 <= j < |before| && before[j].mac == ds[i].mac
    ensures forall i :: 0 <= i < |ds + [d]| && Truthy((ds + [d])[i].mac) ==>
      exists j :: 0 <= j < |after| && after[j].mac == (ds + [d])[i].mac
  {
    forall i | 0 <= i < |ds + [d]| && Truthy((ds + [d])[i].mac)
      ensures exists j :: 0 <= j < |after| && after[j].mac == (ds + [d])[i].mac
    {
      if i < |ds| {
        var j :| 0 <= j < |before| && before[j].mac == ds[i].mac;
        assert after[j].mac == (ds + [d])[i].mac;
      }
    }
  }

  lemma {:induction false} MergeByMacMeaning(ds: seq<Device>)
    ensures MacMeaning(ds, MergeAll(ByMac, ds))
  {
    if ds != [] {
      hide MacMeaning, MergeStep;
      MergeByMacMeaning(ds[..|ds| - 1]);
      MacStep(ds[..|ds| - 1], MergeAll(ByMac, ds[..|ds| - 1]), ds[|ds| - 1]);
      assert ds[..|ds| - 1] + [ds[|ds| - 1]] == ds;
    }
  }

  // ---- the order of the entries ----

  // The keys of a list of devices, each once, in the order in which they are first seen.
  function FirstSeen(mode: Mode, ds: seq<Device>): seq<Text> {
    if ds == [] then []
    else
      var before, key := FirstSeen(mode, ds[..|ds| - 1]), Key(mode, ds[|ds| - 1]);
      if Truthy(key) && key !in before then before + [key] else before
  }

  function Keys(mode: Mode, ds: seq<Device>): seq<Text> {
    seq(|ds|, i requires 0 <= i < |ds| => Key(mode, ds[i]))
  }

  /** The entries of both merges come in the order in which their keys were first seen. */
  lemma {:induction false} MergeOrder(mode: Mode, ds: seq<Device>)
    ensures Keys(mode, MergeAll(mode, ds).joined) == FirstSeen(mode, ds)
  {
    if ds == [] {
      assert Keys(mode, []) == [];
    } else {
      hide MergeStep;
      MergeOrder(mode, ds[..|ds| - 1]);
      StepOrder(mode, MergeAll(mode, ds[..|ds| - 1]), ds[|ds| - 1]);
    }
  }

  lemma StepOrder(mode: Mode, m: Merge, d: Device)
    ensures var key, before := Key(mode, d), Keys(mode, m.joined);
      Keys(mode, MergeStep(mode, m, d).joined)
      == if Truthy(key) && key !in before then before + [key] else before
  {
    var key, i := Key(mode, d), Slot(mode, m.joined, Key(mode, d));
    if i < |m.joined| {
      AbsorbKeepsKey(mode, m.joined[i], d);
      assert Keys(mode, m.joined)[i] == key;
    }
    hide Absorb;
    if Truthy(key) && i == |m.joined| {
      assert key !in Keys(mode, m.joined);
      assert Keys(mode, m.joined + [d]) == Keys(mode, m.joined) + [key];
    }
  }
}
