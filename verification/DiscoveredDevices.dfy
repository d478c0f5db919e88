/** The merges as the source runs them: device objects joined in place, a dict and a list
    (discovery/reconcile.py, discovery/normalize.py). */
module DiscoveredDevices {
  import opened Basics
  import opened Models
  import opened SourceNames
  import opened DeviceMerge

  class DiscoveredDevice {
    var mac: Text
    var ip: Text
    var hostname: Text
    var assetType: Text
    var vendor: Text
    var vlan: Option<int>
    var networkName: Text
    var connectionType: Text
    var model: Text
    var firmware: Text
    var serial: Text
    var modelNumber: Text
    var modelIdentifier: Text
    var source: string
    var services: seq<ServiceReport>
    var extra: map<string, string>

    constructor (d: Device)
      ensures Value() == d
    {
      mac, ip, hostname, assetType, vendor := d.mac, d.ip, d.hostname, d.assetType, d.vendor;
      vlan, networkName, connectionType := d.vlan, d.networkName, d.connectionType;
      model, firmware, serial := d.model, d.firmware, d.serial;
      modelNumber, modelIdentifier := d.modelNumber, d.modelIdentifier;
      source, services, extra := d.source, d.services, d.extra;
    }

    function Value(): Device
      reads this
    {
      Device(mac, ip, hostname, assetType, vendor, vlan, networkName, connectionType, model, firmware,
             serial, modelNumber, modelIdentifier, source, services, extra)
    }

    // The assignments that both merges make.
    method FillCommon(device: DiscoveredDevice)
      requires device != this
      modifies `hostname, `assetType, `vendor, `connectionType, `extra, `source
      ensures hostname == Or(old(hostname), device.hostname)
      ensures assetType == Or(old(assetType), device.assetType)
      ensures vendor == Or(old(vendor), device.vendor)
      ensures connectionType == Or(old(connectionType), device.connectionType)
      ensures extra == old(extra) + device.extra
      ensures source == Join(old(source), device.source)
    {
      hostname := Or(hostname, device.hostname);
      assetType := Or(assetType, device.assetType);
      vendor := Or(vendor, device.vendor);
      connectionType := Or(connectionType, device.connectionType);
      extra := extra + device.extra;
      if device.source !in Split(source) {
        source := source + "+" + device.source;
      }
    }

    method FillByIpOnly(device: DiscoveredDevice)
      requires device != this
      modifies `mac, `vlan, `networkName, `services
      ensures mac == Or(old(mac), device.mac)
      ensures vlan == if old(vlan).Some? then old(vlan) else device.vlan
      ensures networkName == Or(old(networkName), device.networkName)
      ensures services == old(services) + device.services
    {
      mac := Or(mac, device.mac);
      vlan := if vlan.Some? then vlan else device.vlan;
      networkName := Or(networkName, device.networkName);
      services := services + device.services;
    }

    method FillByMacOnly(device: DiscoveredDevice)
      requires device != this
      modifies `ip, `model, `firmware, `serial, `modelNumber, `modelIdentifier
      ensures ip == Or(old(ip), device.ip)
      ensures model == Or(old(model), device.model)
      ensures firmware == Or(old(firmware), device.firmware)
      ensures serial == Or(old(serial), device.serial)
      ensures modelNumber == Or(old(modelNumber), device.modelNumber)
      ensures modelIdentifier == Or(old(modelIdentifier), device.modelIdentifier)
    {
      ip := Or(ip, device.ip);
      model := Or(model, device.model);
      firmware := Or(firmware, device.firmware);
      serial := Or(serial, device.serial);
      modelNumber := Or(modelNumber, device.modelNumber);
      modelIdentifier := Or(modelIdentifier, device.modelIdentifier);
    }

    method AbsorbByIp(device: DiscoveredDevice)
      requires device != this
      modifies this
      ensures Value() == Absorb(ByIp, old(Value()), device.Value())
    {
      hide Or, Join;
      FillByIpOnly(device);
      FillCommon(device);
    }

    method AbsorbByMac(device: DiscoveredDevice)
      requires device != this
      modifies this
      ensures Value() == Absorb(ByMac, old(Value()), device.Value())
    {
      hide Or, Join;
      FillByMacOnly(device);
      FillCommon(device);
    }
  }

  function Values(ds: seq<DiscoveredDevice>): (vs: seq<Device>)
    reads ds
    ensures |vs| == |ds| && forall i :: 0 <= i < |ds| ==> vs[i] == ds[i].Value()
  {
    seq(|ds|, i requires 0 <= i < |ds| reads ds => ds[i].Value())
  }

  function Flatten(lists: seq<seq<DiscoveredDevice>>): seq<DiscoveredDevice> {
    if lists == [] then [] else Flatten(lists[..|lists| - 1]) + lists[|lists| - 1]
  }

  ghost predicate Distinct(ds: seq<DiscoveredDevice>) {
    forall i, j :: 0 <= i < j < |ds| ==> ds[i] != ds[j]
  }

  // The dict and the list hold the objects whose values are `m`; `done` are those already seen.
  ghost predicate Holds(mode: Mode, m: Merge, keys: seq<string>, dict: map<string, DiscoveredDevice>,
                        standalone: seq<DiscoveredDevice>, done: seq<DiscoveredDevice>)
    reads dict.Values, standalone
  {
    && |keys| == |m.joined|
    && (forall k :: k in dict ==> k in keys && dict[k] in done && dict[k] !in standalone)
    && (forall i :: 0 <= i < |keys| ==>
          keys[i] in dict && dict[keys[i]].Value() == m.joined[i] && Key(mode, m.joined[i]) == Some(keys[i]))
    && (forall i, j :: 0 <= i < j < |keys| ==> dict[keys[i]] != dict[keys[j]])
    && (forall s :: s in standalone ==> s in done)
    && Values(standalone) == m.standalone
  }

  lemma DictFinds(mode: Mode, m: Merge, keys: seq<string>, dict: map<string, DiscoveredDevice>,
                  standalone: seq<DiscoveredDevice>, done: seq<DiscoveredDevice>, key: string)
    requires Holds(mode, m, keys, dict, standalone, done)
    ensures var i := Slot(mode, m.joined, Some(key));
      if key in dict then i < |keys| && keys[i] == key && dict[key].Value() == m.joined[i] else i == |m.joined|
  {
  }

  lemma HoldsStandalone(mode: Mode, m: Merge, keys: seq<string>, dict: map<string, DiscoveredDevice>,
                        standalone: seq<DiscoveredDevice>, done: seq<DiscoveredDevice>, d: DiscoveredDevice)
    requires Holds(mode, m, keys, dict, standalone, done) && d !in done
    ensures Holds(mode, m.(standalone := m.standalone + [d.Value()]), keys, dict, standalone + [d], done + [d])
  {
  }

  lemma HoldsNew(mode: Mode, m: Merge, keys: seq<string>, dict: map<string, DiscoveredDevice>,
                 standalone: seq<DiscoveredDevice>, done: seq<DiscoveredDevice>, d: DiscoveredDevice, key: string)
    requires Holds(mode, m, keys, dict, standalone, done) && d !in done
    requires key !in dict && Key(mode, d.Value()) == Some(key)
    ensures Holds(mode, m.(joined := m.joined + [d.Value()]), keys + [key], dict[key := d], standalone, done + [d])
  {
  }

  // Joins `device` into the object of its key.
  method AbsorbEntry(mode: Mode, existing: DiscoveredDevice, device: DiscoveredDevice, ghost i: nat,
                     ghost m: Merge, ghost keys: seq<string>, ghost dict: map<string, DiscoveredDevice>,
                     ghost standalone: seq<DiscoveredDevice>, ghost done: seq<DiscoveredDevice>)
    requires device !in done && Holds(mode, m, keys, dict, standalone, done)
    requires i < |keys| && existing == dict[keys[i]] && existing in dict.Values
    modifies existing
    ensures Holds(mode, m.(joined := m.joined[i := Absorb(mode, m.joined[i], device.Value())]),
                  keys, dict, standalone, done + [device])
  {
    hide Absorb, Key, DiscoveredDevice.Value;
    AbsorbKeepsKey(mode, m.joined[i], device.Value());
    if mode == ByIp {
      existing.AbsorbByIp(device);
    } else {
      existing.AbsorbByMac(device);
    }
  }

  // One turn of the inner loop of `merge_by_ip`.
  method StepByIp(device: DiscoveredDevice, keys: seq<string>, dict: map<string, DiscoveredDevice>,
                  standalone: seq<DiscoveredDevice>, ghost done: seq<DiscoveredDevice>, ghost m: Merge)
    returns (keys': seq<string>, dict': map<string, DiscoveredDevice>, standalone': seq<DiscoveredDevice>)
    requires device !in done && Holds(ByIp, m, keys, dict, standalone, done)
    modifies done
    ensures Holds(ByIp, MergeStep(ByIp, m, old(device.Value())), keys', dict', standalone', done + [device])
  {
    keys', dict', standalone' := keys, dict, standalone;
    if !Truthy(device.ip) {
      standalone' := standalone + [device];
      HoldsStandalone(ByIp, m, keys, dict, standalone, done, device);
      return;
    }
    var key := device.ip.value;
    DictFinds(ByIp, m, keys, dict, standalone, done, key);
    if key !in dict {
      keys', dict' := keys + [key], dict[key := device];
      HoldsNew(ByIp, m, keys, dict, standalone, done, device, key);
      return;
    }
    var existing := dict[key];
    if Truthy(existing.mac) && Truthy(device.mac) && existing.mac != device.mac {
      standalone' := standalone + [device];
      HoldsStandalone(ByIp, m, keys, dict, standalone, done, device);
      return;
    }
    AbsorbEntry(ByIp, existing, device, Slot(ByIp, m.joined, device.ip), m, keys, dict, standalone, done);
  }

  // One turn of the inner loop of `merge_by_mac`.
  method StepByMac(device: DiscoveredDevice, keys: seq<string>, dict: map<string, DiscoveredDevice>,
                   standalone: seq<DiscoveredDevice>, ghost done: seq<DiscoveredDevice>, ghost m: Merge)
    returns (keys': seq<string>, dict': map<string, DiscoveredDevice>, standalone': seq<DiscoveredDevice>)
    requires device !in done && Holds(ByMac, m, keys, dict, standalone, done)
    modifies done
    ensures Holds(ByMac, MergeStep(ByMac, m, old(device.Value())), keys', dict', standalone', done + [device])
  {
    keys', dict', standalone' := keys, dict, standalone;
    if !Truthy(device.mac) {
      standalone' := standalone + [device];
      HoldsStandalone(ByMac, m, keys, dict, standalone, done, device);
      return;
    }
    var key := device.mac.value;
    DictFinds(ByMac, m, keys, dict, standalone, done, key);
    if key !in dict {
      keys', dict' := keys + [key], dict[key := device];
      HoldsNew(ByMac, m, keys, dict, standalone, done, device, key);
      return;
    }
    AbsorbEntry(ByMac, dict[key], device, Slot(ByMac, m.joined, device.mac), m, keys, dict, standalone, done);
  }

  // The inner loop, over one collector's list: the devices `all[n..n + |devices|]`.
  method MergeList(mode: Mode, devices: seq<DiscoveredDevice>, keys: seq<string>,
                   dict: map<string, DiscoveredDevice>, standalone: seq<DiscoveredDevice>,
                   ghost all: seq<DiscoveredDevice>, ghost start: seq<Device>, ghost n: nat)
    returns (keys': seq<string>, dict': map<string, DiscoveredDevice>, standalone': seq<DiscoveredDevice>)
    requires Distinct(all) && |start| == |all|
    requires n + |devices| <= |all| && devices == all[n..n + |devices|]
    requires Holds(mode, MergeAll(mode, start[..n]), keys, dict, standalone, all[..n])
    requires forall k :: n <= k < |all| ==> all[k].Value() == start[k]
    modifies all
    ensures Holds(mode, MergeAll(mode, start[..n + |devices|]), keys', dict', standalone', all[..n + |devices|])
    ensures forall k :: n + |devices| <= k < |all| ==> all[k].Value() == start[k]
  {
    hide Holds, MergeStep, MergeAll;
    keys', dict', standalone' := keys, dict, standalone;
    for j := 0 to |devices|
      invariant Holds(mode, MergeAll(mode, start[..n + j]), keys', dict', standalone', all[..n + j])
      invariant forall k :: n + j <= k < |all| ==> all[k].Value() == start[k]
    {
      var device := devices[j];
      assert device == all[n + j];
      MergeAllSnoc(mode, start[..n + j], start[n + j]);
      assert start[..n + j + 1] == start[..n + j] + [start[n + j]];
      assert all[..n + j + 1] == all[..n + j] + [device];
      if mode == ByIp {
        keys', dict', standalone' := StepByIp(device, keys', dict', standalone', all[..n + j],
                                              MergeAll(mode, start[..n + j]));
      } else {
        keys', dict', standalone' := StepByMac(device, keys', dict', standalone', all[..n + j],
                                               MergeAll(mode, start[..n + j]));
      }
    }
  }

  method MergeLists(mode: Mode, lists: seq<seq<DiscoveredDevice>>, ghost all: seq<DiscoveredDevice>,
                    ghost start: seq<Device>)
    returns (out: seq<DiscoveredDevice>)
    requires all == Flatten(lists) && Distinct(all) && start == Values(all)
    modifies all
    ensures Values(out) == Merged(mode, start)
  {
    var dict: map<string, DiscoveredDevice>, keys: seq<string> := map[], [];
    var standalone: seq<DiscoveredDevice> := [];
    ghost var n := 0;
    NothingHeld(mode, start, all);
    hide Holds, MergeAll, Flatten, Values, Entries;
    for i := 0 to |lists|
      invariant n == |Flatten(lists[..i])| && n <= |all|
      invariant Holds(mode, MergeAll(mode, start[..n]), keys, dict, standalone, all[..n])
      invariant forall k :: n <= k < |all| ==> all[k].Value() == start[k]
    {
      FlattenPrefix(lists, i);
      keys, dict, standalone := MergeList(mode, lists[i], keys, dict, standalone, all, start, n);
      n := n + |lists[i]|;
    }
    assert lists[..|lists|] == lists && start[..n] == start;
    HeldValues(mode, MergeAll(mode, start), keys, dict, standalone, all[..n]);
    out := Entries(keys, dict) + standalone;
  }

  lemma NothingHeld(mode: Mode, start: seq<Device>, all: seq<DiscoveredDevice>)
    ensures Flatten([]) == [] && Holds(mode, MergeAll(mode, start[..0]), [], map[], [], all[..0])
  {
  }

  lemma HeldValues(mode: Mode, m: Merge, keys: seq<string>, dict: map<string, DiscoveredDevice>,
                   standalone: seq<DiscoveredDevice>, done: seq<DiscoveredDevice>)
    requires Holds(mode, m, keys, dict, standalone, done)
    ensures forall i :: 0 <= i < |keys| ==> keys[i] in dict
    ensures Values(Entries(keys, dict) + standalone) == m.joined + m.standalone
  {
  }

  // `list(by_ip.values())`
  function Entries(keys: seq<string>, dict: map<string, DiscoveredDevice>): seq<DiscoveredDevice>
    requires forall i :: 0 <= i < |keys| ==> keys[i] in dict
  {
    seq(|keys|, i requires 0 <= i < |keys| => dict[keys[i]])
  }

  lemma SliceOfFront<T>(a: seq<T>, b: seq<T>, i: nat, j: nat)
    requires i <= j <= |a|
    ensures (a + b)[i..j] == a[i..j] && (a + b)[|a|..] == b
  {
  }

  lemma {:induction false} FlattenPrefix(lists: seq<seq<DiscoveredDevice>>, i: nat)
    requires i < |lists|
    ensures var n := |Flatten(lists[..i])|;
      && |Flatten(lists[..i + 1])| == n + |lists[i]| <= |Flatten(lists)|
      && Flatten(lists)[n..n + |lists[i]|] == lists[i]
    decreases |lists|
  {
    var m := |lists| - 1;
    var front := Flatten(lists[..m]);
    assert Flatten(lists) == front + lists[m];
    hide Flatten;
    if i < m {
      FlattenPrefix(lists[..m], i);
      assert lists[..m][..i] == lists[..i] && lists[..m][..i + 1] == lists[..i + 1];
      var n := |Flatten(lists[..i])|;
      SliceOfFront(front, lists[m], n, n + |lists[i]|);
    } else {
      assert lists[..i + 1] == lists && lists[..m] == lists[..i];
      SliceOfFront(front, lists[m], 0, 0);
    }
  }

  /** `merge_by_ip`.  The lists come from the normalizers, which build a fresh object per report. */
  method MergeByIp(lists: seq<seq<DiscoveredDevice>>) returns (out: seq<DiscoveredDevice>)
    requires Distinct(Flatten(lists))
    modifies Flatten(lists)
    ensures Values(out) == Merged(ByIp, old(Values(Flatten(lists))))
  {
    out := MergeLists(ByIp, lists, Flatten(lists), Values(Flatten(lists)));
  }

  /** `merge_by_mac` */
  method MergeByMac(lists: seq<seq<DiscoveredDevice>>) returns (out: seq<DiscoveredDevice>)
    requires Distinct(Flatten(lists))
    modifies Flatten(lists)
    ensures Values(out) == Merged(ByMac, old(Values(Flatten(lists))))
  {
    out := MergeLists(ByMac, lists, Flatten(lists), Values(Flatten(lists)));
  }
}
