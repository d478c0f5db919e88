/** Merging what several collectors saw into one list of devices (discovery/reconcile.py). */
module DeviceMerge {
  import opened Basics
  import opened Models
  import opened SourceNames

  // The two join keys: `merge_by_ip` and `merge_by_mac`.
  datatype Mode = ByIp | ByMac

  function Key(mode: Mode, d: Device): Text {
    if mode == ByIp then d.ip else d.mac
  }

  // Two different MACs on one IP are two devices: only `merge_by_ip` meets this.
  predicate Conflict(mode: Mode, existing: Device, d: Device) {
    mode == ByIp && Truthy(existing.mac) && Truthy(d.mac) && existing.mac != d.mac
  }

  // lines 43-53 and 78-90 of the source: what is present stays, what is missing is filled.
  function Absorb(mode: Mode, e: Device, d: Device): Device {
    match mode
    case ByIp =>
      Device(
        Or(e.mac, d.mac), e.ip, Or(e.hostname, d.hostname), Or(e.assetType, d.assetType),
        Or(e.vendor, d.vendor), if e.vlan.Some? then e.vlan else d.vlan,
        Or(e.networkName, d.networkName), Or(e.connectionType, d.connectionType),
        e.model, e.firmware, e.serial, e.modelNumber, e.modelIdentifier,
        Join(e.source, d.source), e.services + d.services, e.extra + d.extra)
    case ByMac =>
      Device(
        e.mac, Or(e.ip, d.ip), Or(e.hostname, d.hostname), Or(e.assetType, d.assetType),
        Or(e.vendor, d.vendor), e.vlan, e.networkName, Or(e.connectionType, d.connectionType),
        Or(e.model, d.model), Or(e.firmware, d.firmware), Or(e.serial, d.serial),
        Or(e.modelNumber, d.modelNumber), Or(e.modelIdentifier, d.modelIdentifier),
        Join(e.source, d.source), e.services, e.extra + d.extra)
  }

  // The dict of the source, as its values in insertion order, and the list of the others.
  datatype Merge = Merge(joined: seq<Device>, standalone: seq<Device>)

  /** The dict entry whose key is `key`, or the length of the list. */
  function Slot(mode: Mode, ds: seq<Device>, key: Text): (i: nat)
    ensures i <= |ds|
    ensures i < |ds| ==> Key(mode, ds[i]) == key
    ensures i == |ds| ==> forall j :: 0 <= j < |ds| ==> Key(mode, ds[j]) != key
    ensures forall j :: 0 <= j < i ==> Key(mode, ds[j]) != key
  {
    if ds == [] then 0
    else if Key(mode, ds[0]) == key then 0
    else 1 + Slot(mode, ds[1..], key)
  }

  function MergeStep(mode: Mode, m: Merge, d: Device): Merge {
    if !Truthy(Key(mode, d)) then m.(standalone := m.standalone + [d])
    else
      var i := Slot(mode, m.joined, Key(mode, d));
      if i == |m.joined| then m.(joined := m.joined + [d])
      else if Conflict(mode, m.joined[i], d) then m.(standalone := m.standalone + [d])
      else m.(joined := m.joined[i := Absorb(mode, m.joined[i], d)])
  }

  function MergeAll(mode: Mode, ds: seq<Device>): Merge {
    if ds == [] then Merge([], [])
    else MergeStep(mode, MergeAll(mode, ds[..|ds| - 1]), ds[|ds| - 1])
  }

  function Merged(mode: Mode, ds: seq<Device>): seq<Device> {
    var m := MergeAll(mode, ds);
    m.joined + m.standalone
  }

  // ---- what the merge computes, stated without running it ----

  /** The MAC of an IP is the first one any collector gave for it. */
  function FirstMac(ds: seq<Device>, ip: Text): Text {
    if ds == [] then None
    else Or(FirstMac(ds[..|ds| - 1], ip),
            if ds[|ds| - 1].ip == ip && Truthy(ds[|ds| - 1].mac) then ds[|ds| - 1].mac else None)
  }

  predicate SeenIp(ds: seq<Device>, ip: Text) {
    ds != [] && (ds[|ds| - 1].ip == ip || SeenIp(ds[..|ds| - 1], ip))
  }

  // The devices that cannot be joined with others: without an IP, or on an IP that is already
  // known to belong to another MAC.
  predicate SetAside(ds: seq<Device>, d: Device) {
    !Truthy(d.ip) || (Truthy(d.mac) && Truthy(FirstMac(ds, d.ip)) && FirstMac(ds, d.ip) != d.mac)
  }

  function Aside(ds: seq<Device>): Device -> bool {
    (d: Device) => SetAside(ds, d)
  }

  function Contributes(ds: seq<Device>, ip: Text): Device -> bool {
    (d: Device) => d.ip == ip && !SetAside(ds, d)
  }

  // The devices joined under one IP.
  function Contributors(ds: seq<Device>, ip: Text): seq<Device> {
    Filter(ds, Contributes(ds, ip))
  }

  function HostnameOf(d: Device): Text { d.hostname }
  function TypeOf(d: Device): Text { d.assetType }
  function VendorOf(d: Device): Text { d.vendor }
  function NetworkOf(d: Device): Text { d.networkName }
  function ConnectionOf(d: Device): Text { d.connectionType }

  /** The first text that any of the devices gives. */
  function FirstText(ds: seq<Device>, pick: Device -> Text): Text {
    if ds == [] then None else Or(FirstText(ds[..|ds| - 1], pick), pick(ds[|ds| - 1]))
  }

  function FirstVlan(ds: seq<Device>): Option<int> {
    if ds == [] then None
    else
      var before := FirstVlan(ds[..|ds| - 1]);
      if before.Some? then before else ds[|ds| - 1].vlan
  }

  function Reports(ds: seq<Device>): seq<ServiceReport> {
    if ds == [] then [] else Reports(ds[..|ds| - 1]) + ds[|ds| - 1].services
  }

  // The last value given for each key.
  function LastExtras(ds: seq<Device>): map<string, string> {
    if ds == [] then map[] else LastExtras(ds[..|ds| - 1]) + ds[|ds| - 1].extra
  }

  function JoinedSource(ds: seq<Device>): string
    requires ds != []
  {
    if |ds| == 1 then ds[0].source else Join(JoinedSource(ds[..|ds| - 1]), ds[|ds| - 1].source)
  }

  lemma {:induction false} FirstMacStable(ds: seq<Device>, d: Device, ip: Text)
    ensures Truthy(FirstMac(ds, ip)) ==> FirstMac(ds + [d], ip) == FirstMac(ds, ip)
    ensures !Truthy(FirstMac(ds, ip)) && Truthy(d.mac) && d.ip == ip ==> FirstMac(ds + [d], ip) == d.mac
    ensures d.ip != ip || !Truthy(d.mac) ==> Truthy(FirstMac(ds + [d], ip)) == Truthy(FirstMac(ds, ip))
  {
    assert (ds + [d])[..|ds + [d]| - 1] == ds;
  }

  lemma {:induction false} NoMacBeforeFirst(ds: seq<Device>, ip: Text)
    requires !Truthy(FirstMac(ds, ip))
    ensures forall i :: 0 <= i < |ds| && ds[i].ip == ip ==> !Truthy(ds[i].mac)
  {
    if ds != [] {
      NoMacBeforeFirst(ds[..|ds| - 1], ip);
    }
  }

  /** One more device set aside or not does not change the verdict on the earlier ones. */
  lemma {:induction false} SetAsideStable(ds: seq<Device>, d: Device)
    ensures forall i :: 0 <= i < |ds| ==> SetAside(ds, ds[i]) == SetAside(ds + [d], ds[i])
  {
    forall i | 0 <= i < |ds| ensures SetAside(ds, ds[i]) == SetAside(ds + [d], ds[i]) {
      FirstMacStable(ds, d, ds[i].ip);
      if !Truthy(FirstMac(ds, ds[i].ip)) {
        NoMacBeforeFirst(ds, ds[i].ip);
      }
    }
  }

  lemma {:induction false} ContributorsSnoc(ds: seq<Device>, d: Device, ip: Text)
    ensures Contributors(ds + [d], ip)
         == Contributors(ds, ip) + (if d.ip == ip && !SetAside(ds + [d], d) then [d] else [])
  {
    SetAsideStable(ds, d);
    assert (ds + [d])[..|ds + [d]| - 1] == ds;
    FilterSame(ds, Contributes(ds + [d], ip), Contributes(ds, ip));
  }

  /** What the contributors `c` make of their entry, apart from its MAC. */
  ghost predicate Joined(c: seq<Device>, e: Device) {
    && c != []
    && e.hostname == FirstText(c, HostnameOf) && e.assetType == FirstText(c, TypeOf)
    && e.vendor == FirstText(c, VendorOf) && e.vlan == FirstVlan(c)
    && e.networkName == FirstText(c, NetworkOf) && e.connectionType == FirstText(c, ConnectionOf)
    && e.services == Reports(c) && e.extra == LastExtras(c) && e.source == JoinedSource(c)
    && e.model == c[0].model && e.firmware == c[0].firmware && e.serial == c[0].serial
    && e.modelNumber == c[0].modelNumber && e.modelIdentifier == c[0].modelIdentifier
  }

  ghost predicate MacEntry(ds: seq<Device>, e: Device) {
    (Truthy(e.mac) <==> Truthy(FirstMac(ds, e.ip))) && (Truthy(e.mac) ==> e.mac == FirstMac(ds, e.ip))
  }

  ghost predicate IpEntry(ds: seq<Device>, e: Device) {
    Truthy(e.ip) && SeenIp(ds, e.ip) && MacEntry(ds, e) && Joined(Contributors(ds, e.ip), e)
  }

  lemma FirstTextSnoc(c: seq<Device>, d: Device, pick: Device -> Text)
    ensures FirstText(c + [d], pick) == Or(FirstText(c, pick), pick(d))
  {
    assert (c + [d])[..|c + [d]| - 1] == c;
  }

  lemma FoldsSnoc(c: seq<Device>, d: Device)
    ensures FirstVlan(c + [d]) == if FirstVlan(c).Some? then FirstVlan(c) else d.vlan
    ensures Reports(c + [d]) == Reports(c) + d.services
    ensures LastExtras(c + [d]) == LastExtras(c) + d.extra
    ensures c != [] ==> JoinedSource(c + [d]) == Join(JoinedSource(c), d.source)
  {
    assert (c + [d])[..|c + [d]| - 1] == c;
  }

  lemma JoinedSnoc(c: seq<Device>, e: Device, d: Device)
    requires Joined(c, e)
    ensures Joined(c + [d], Absorb(ByIp, e, d))
  {
    hide Or, Join, FirstText, FirstVlan, Reports, LastExtras, JoinedSource;
    FirstTextSnoc(c, d, HostnameOf);
    FirstTextSnoc(c, d, TypeOf);
    FirstTextSnoc(c, d, VendorOf);
    FirstTextSnoc(c, d, NetworkOf);
    FirstTextSnoc(c, d, ConnectionOf);
    FoldsSnoc(c, d);
  }

  lemma JoinedOne(d: Device)
    ensures Joined([d], d)
  {
    FirstTextSnoc([], d, HostnameOf);
    FirstTextSnoc([], d, TypeOf);
    FirstTextSnoc([], d, VendorOf);
    FirstTextSnoc([], d, NetworkOf);
    FirstTextSnoc([], d, ConnectionOf);
    FoldsSnoc([], d);
    assert [] + [d] == [d] && [] + d.services == d.services && map[] + d.extra == d.extra;
  }

  lemma MacEntryAbsorbs(ds: seq<Device>, e: Device, d: Device)
    requires MacEntry(ds, e) && d.ip == e.ip && !Conflict(ByIp, e, d)
    ensures MacEntry(ds + [d], e.(mac := Or(e.mac, d.mac)))
  {
    FirstMacStable(ds, d, e.ip);
  }

  lemma MacEntryStays(ds: seq<Device>, e: Device, d: Device)
    requires MacEntry(ds, e) && (d.ip != e.ip || SetAside(ds + [d], d)) && Truthy(e.ip)
    ensures MacEntry(ds + [d], e)
  {
    FirstMacStable(ds, d, e.ip);
  }

  lemma SeenIpSnoc(ds: seq<Device>, d: Device, ip: Text)
    ensures SeenIp(ds + [d], ip) <==> d.ip == ip || SeenIp(ds, ip)
  {
    assert (ds + [d])[..|ds + [d]| - 1] == ds;
  }

  lemma IpEntrySnoc(ds: seq<Device>, e: Device, d: Device)
    requires IpEntry(ds, e)
    requires d.ip != e.ip || SetAside(ds + [d], d)
    ensures IpEntry(ds + [d], e)
  {
    hide Joined, MacEntry, Contributors, SetAside;
    MacEntryStays(ds, e, d);
    SeenIpSnoc(ds, d, e.ip);
    ContributorsSnoc(ds, d, e.ip);
    assert Contributors(ds, e.ip) + [] == Contributors(ds, e.ip);
  }

  lemma NotSetAside(ds: seq<Device>, e: Device, d: Device)
    requires Truthy(e.ip) && MacEntry(ds, e) && d.ip == e.ip && !Conflict(ByIp, e, d)
    ensures !SetAside(ds + [d], d)
  {
    FirstMacStable(ds, d, e.ip);
  }

  lemma IpEntryAbsorbs(ds: seq<Device>, e: Device, d: Device)
    requires IpEntry(ds, e) && d.ip == e.ip && !Conflict(ByIp, e, d)
    ensures !SetAside(ds + [d], d)
    ensures IpEntry(ds + [d], Absorb(ByIp, e, d))
  {
    NotSetAside(ds, e, d);
    MacEntryAbsorbs(ds, e, d);
    SeenIpSnoc(ds, d, e.ip);
    ContributorsSnoc(ds, d, e.ip);
    JoinedSnoc(Contributors(ds, e.ip), e, d);
    var after := Absorb(ByIp, e, d);
    assert after.ip == e.ip && after.mac == Or(e.mac, d.mac);
    hide MacEntry, Joined, Contributors, SeenIp, SetAside, Join;
    SameMacEntry(ds + [d], e.(mac := Or(e.mac, d.mac)), after);
  }

  lemma SameMacEntry(ds: seq<Device>, e: Device, f: Device)
    requires MacEntry(ds, e) && f.ip == e.ip && f.mac == e.mac
    ensures MacEntry(ds, f)
  {
  }

  lemma {:induction false} NoMacWhenUnseen(ds: seq<Device>, ip: Text)
    requires forall i :: 0 <= i < |ds| ==> ds[i].ip != ip
    ensures FirstMac(ds, ip) == None
  {
    if ds != [] {
      NoMacWhenUnseen(ds[..|ds| - 1], ip);
    }
  }

  lemma ContributorsOfNew(ds: seq<Device>, d: Device)
    requires Truthy(d.ip) && forall i :: 0 <= i < |ds| ==> ds[i].ip != d.ip
    ensures !SetAside(ds + [d], d) && Contributors(ds + [d], d.ip) == [d]
  {
    NoMacWhenUnseen(ds, d.ip);
    FirstMacStable(ds, d, d.ip);
    ContributorsSnoc(ds, d, d.ip);
    var c := Contributors(ds, d.ip);
    if c != [] {
      FilterMembers(ds, Contributes(ds, d.ip), c[0]);
    }
  }

  lemma NewIpEntry(ds: seq<Device>, d: Device)
    requires Truthy(d.ip) && forall i :: 0 <= i < |ds| ==> ds[i].ip != d.ip
    ensures !SetAside(ds + [d], d)
    ensures IpEntry(ds + [d], d)
  {
    ContributorsOfNew(ds, d);
    SeenIpSnoc(ds, d, d.ip);
    NoMacWhenUnseen(ds, d.ip);
    FirstMacStable(ds, d, d.ip);
    JoinedOne(d);
  }

  /** What `merge_by_ip` computes.  The devices kept apart are exactly those without an IP or with
      a MAC that came second on their IP, in their old order; every other device is joined into
      the one entry of its IP, whose MAC is the first one given, and whose other fields are what its
      contributors, in order, make of them. */
  ghost predicate Meaning(ds: seq<Device>, m: Merge) {
    && m.standalone == Filter(ds, Aside(ds))
    && (forall i :: 0 <= i < |m.joined| ==> IpEntry(ds, m.joined[i]))
    && AllHaveEntries(ds, m.joined)
  }

  ghost predicate AllHaveEntries(ds: seq<Device>, joined: seq<Device>) {
    forall i :: 0 <= i < |ds| && Truthy(ds[i].ip) ==> Slot(ByIp, joined, ds[i].ip) < |joined|
  }

  lemma OneMoreEntry(ds: seq<Device>, before: seq<Device>, after: seq<Device>, d: Device, k: nat)
    requires AllHaveEntries(ds, before) && |before| <= |after|
    requires forall i :: 0 <= i < |before| ==> Key(ByIp, after[i]) == Key(ByIp, before[i])
    requires k < |after| && Key(ByIp, after[k]) == d.ip
    ensures AllHaveEntries(ds + [d], after)
  {
    forall i | 0 <= i < |ds + [d]| && Truthy((ds + [d])[i].ip)
      ensures Slot(ByIp, after, (ds + [d])[i].ip) < |after|
    {
      var j := if i < |ds| then Slot(ByIp, before, ds[i].ip) else k;
      assert Key(ByIp, after[j]) == (ds + [d])[i].ip;
    }
  }

  lemma {:induction false} MergeByIpMeaning(ds: seq<Device>)
    ensures Meaning(ds, MergeAll(ByIp, ds))
  {
    if ds != [] {
      var ds', d := ds[..|ds| - 1], ds[|ds| - 1];
      assert ds == ds' + [d];
      MergeByIpMeaning(ds');
      var m' := MergeAll(ByIp, ds');
      var i := Slot(ByIp, m'.joined, d.ip);
      if !Truthy(d.ip) {
        MeaningAside(ds', m', d);
      } else if i == |m'.joined| {
        MeaningNew(ds', m', d);
      } else if Conflict(ByIp, m'.joined[i], d) {
        FirstMacStable(ds', d, d.ip);
        MeaningAside(ds', m', d);
      } else {
        MergeKeys(ByIp, ds');
        MeaningAbsorb(ds', m', d, i);
      }
    }
  }

  lemma AsideSnoc(ds: seq<Device>, d: Device)
    ensures Filter(ds + [d], Aside(ds + [d]))
         == Filter(ds, Aside(ds)) + (if SetAside(ds + [d], d) then [d] else [])
  {
    SetAsideStable(ds, d);
    assert (ds + [d])[..|ds + [d]| - 1] == ds;
    FilterSame(ds, Aside(ds + [d]), Aside(ds));
  }

  lemma MeaningAside(ds: seq<Device>, m: Merge, d: Device)
    requires Meaning(ds, m) && SetAside(ds + [d], d)
    requires Truthy(d.ip) ==> Slot(ByIp, m.joined, d.ip) < |m.joined|
    ensures Meaning(ds + [d], m.(standalone := m.standalone + [d]))
  {
    hide IpEntry, SetAside, Absorb, Conflict, Aside;
    AsideSnoc(ds, d);
    forall i | 0 <= i < |m.joined| ensures IpEntry(ds + [d], m.joined[i]) {
      IpEntrySnoc(ds, m.joined[i], d);
    }
  }

  lemma NoneWithThatIp(ds: seq<Device>, joined: seq<Device>, d: Device)
    requires AllHaveEntries(ds, joined) && Truthy(d.ip) && Slot(ByIp, joined, d.ip) == |joined|
    ensures forall i :: 0 <= i < |ds| ==> ds[i].ip != d.ip
  {
  }

  lemma MeaningNew(ds: seq<Device>, m: Merge, d: Device)
    requires Meaning(ds, m) && Truthy(d.ip) && Slot(ByIp, m.joined, d.ip) == |m.joined|
    ensures Meaning(ds + [d], m.(joined := m.joined + [d]))
  {
    hide IpEntry, SetAside, Absorb, Conflict, AllHaveEntries, Aside;
    NoneWithThatIp(ds, m.joined, d);
    NewIpEntry(ds, d);
    AsideSnoc(ds, d);
    assert m.standalone + [] == m.standalone;
    var joined := m.joined + [d];
    forall i | 0 <= i < |joined| ensures IpEntry(ds + [d], joined[i]) {
      if i < |m.joined| {
        assert Key(ByIp, m.joined[i]) != d.ip;
        IpEntrySnoc(ds, m.joined[i], d);
      }
    }
    OneMoreEntry(ds, m.joined, joined, d, |m.joined|);
  }

  lemma AbsorbKeepsKey(mode: Mode, e: Device, d: Device)
    ensures Key(mode, Absorb(mode, e, d)) == Key(mode, e)
  {
  }

  lemma MeaningAbsorb(ds: seq<Device>, m: Merge, d: Device, j: nat)
    requires Meaning(ds, m) && WellMerged(ByIp, m)
    requires Truthy(d.ip) && j == Slot(ByIp, m.joined, d.ip) < |m.joined| && !Conflict(ByIp, m.joined[j], d)
    ensures Meaning(ds + [d], m.(joined := m.joined[j := Absorb(ByIp, m.joined[j], d)]))
  {
    hide IpEntry, SetAside, Absorb, Conflict, AllHaveEntries, Aside;
    IpEntryAbsorbs(ds, m.joined[j], d);
    AbsorbKeepsKey(ByIp, m.joined[j], d);
    AsideSnoc(ds, d);
    assert m.standalone + [] == m.standalone;
    var joined := m.joined[j := Absorb(ByIp, m.joined[j], d)];
    forall i | 0 <= i < |joined| ensures IpEntry(ds + [d], joined[i]) {
      if i != j {
        assert Key(ByIp, m.joined[i]) != Key(ByIp, m.joined[j]);
        IpEntrySnoc(ds, m.joined[i], d);
      }
    }
    OneMoreEntry(ds, m.joined, joined, d, j);
  }

  // ---- one entry per key, and the fixed point ----

  ghost predicate DistinctKeys(mode: Mode, ds: seq<Device>) {
    && (forall i :: 0 <= i < |ds| ==> Truthy(Key(mode, ds[i])))
    && (forall i, j :: 0 <= i < j < |ds| ==> Key(mode, ds[i]) != Key(mode, ds[j]))
  }

  ghost predicate KeptApart(mode: Mode, joined: seq<Device>, d: Device) {
    Truthy(Key(mode, d)) ==>
      var i := Slot(mode, joined, Key(mode, d));
      i < |joined| && Conflict(mode, joined[i], d)
  }

  ghost predicate WellMerged(mode: Mode, m: Merge) {
    && DistinctKeys(mode, m.joined)
    && (forall k :: 0 <= k < |m.standalone| ==> KeptApart(mode, m.joined, m.standalone[k]))
  }

  lemma StillApart(mode: Mode, m: Merge, d: Device, e: Device)
    requires KeptApart(mode, m.joined, e)
    ensures KeptApart(mode, MergeStep(mode, m, d).joined, e)
  {
    if Truthy(Key(mode, e)) {
      SameSlot(mode, m.joined, MergeStep(mode, m, d).joined, Key(mode, e));
    }
  }

  /** Each key has one entry, and a device kept apart conflicts with the entry of its key. */
  lemma {:induction false} MergeKeys(mode: Mode, ds: seq<Device>)
    ensures WellMerged(mode, MergeAll(mode, ds))
  {
    if ds != [] {
      MergeKeys(mode, ds[..|ds| - 1]);
      StepKeepsKeys(mode, MergeAll(mode, ds[..|ds| - 1]), ds[|ds| - 1]);
    }
  }

  lemma StepKeepsKeys(mode: Mode, m: Merge, d: Device)
    requires WellMerged(mode, m)
    ensures WellMerged(mode, MergeStep(mode, m, d))
  {
    forall k | 0 <= k < |m.standalone| ensures KeptApart(mode, MergeStep(mode, m, d).joined, m.standalone[k]) {
      StillApart(mode, m, d, m.standalone[k]);
    }
  }

  // Entries keep their places: a later list of entries has the earlier keys first.
  lemma SameSlot(mode: Mode, before: seq<Device>, after: seq<Device>, key: Text)
    requires |before| <= |after|
    requires forall i :: 0 <= i < |before| ==> Key(mode, after[i]) == Key(mode, before[i])
    requires Slot(mode, before, key) < |before|
    ensures Slot(mode, after, key) == Slot(mode, before, key)
  {
  }

  lemma NewKey(mode: Mode, ds: seq<Device>)
    requires DistinctKeys(mode, ds) && ds != []
    ensures DistinctKeys(mode, ds[..|ds| - 1]) && Truthy(Key(mode, ds[|ds| - 1]))
    ensures Slot(mode, ds[..|ds| - 1], Key(mode, ds[|ds| - 1])) == |ds| - 1
  {
  }

  lemma {:induction false} MergeOfDistinct(mode: Mode, ds: seq<Device>)
    requires DistinctKeys(mode, ds)
    ensures MergeAll(mode, ds) == Merge(ds, [])
  {
    if ds != [] {
      hide Absorb, Conflict, DistinctKeys, Key, Slot;
      NewKey(mode, ds);
      MergeOfDistinct(mode, ds[..|ds| - 1]);
    }
  }

  lemma MergeAllSnoc(mode: Mode, ds: seq<Device>, d: Device)
    ensures MergeAll(mode, ds + [d]) == MergeStep(mode, MergeAll(mode, ds), d)
  {
    assert (ds + [d])[..|ds + [d]| - 1] == ds;
  }

  lemma {:induction false} MergeOfMerged(mode: Mode, m: Merge, n: nat)
    requires WellMerged(mode, m) && n <= |m.standalone|
    ensures MergeAll(mode, m.joined + m.standalone[..n]) == Merge(m.joined, m.standalone[..n])
  {
    if n == 0 {
      assert m.joined + m.standalone[..0] == m.joined;
      MergeOfDistinct(mode, m.joined);
    } else {
      var d := m.standalone[n - 1];
      MergeOfMerged(mode, m, n - 1);
      assert m.standalone[..n] == m.standalone[..n - 1] + [d];
      assert m.joined + m.standalone[..n] == (m.joined + m.standalone[..n - 1]) + [d];
      MergeAllSnoc(mode, m.joined + m.standalone[..n - 1], d);
      assert KeptApart(mode, m.joined, d);
    }
  }

  /** Merging a merged list again returns it unchanged, in order. */
  lemma MergeIdempotent(mode: Mode, ds: seq<Device>)
    ensures Merged(mode, Merged(mode, ds)) == Merged(mode, ds)
  {
    MergeKeys(mode, ds);
    var m := MergeAll(mode, ds);
    MergeOfMerged(mode, m, |m.standalone|);
    assert m.standalone[..|m.standalone|] == m.standalone;
  }

  /** No other device of the list has the IP of a device without a MAC. */
  ghost predicate NoBareShare(ds: seq<Device>) {
    forall i, j :: 0 <= i < |ds| && 0 <= j < |ds| && i != j && Truthy(ds[i].ip) && ds[i].ip == ds[j].ip ==>
      Truthy(ds[i].mac)
  }

  lemma MergedByIpSharesNoBareIp(ds: seq<Device>)
    ensures NoBareShare(Merged(ByIp, ds))
  {
    MergeKeys(ByIp, ds);
    var m := MergeAll(ByIp, ds);
    var out := Merged(ByIp, ds);
    forall i, j | 0 <= i < |out| && 0 <= j < |out| && i != j && Truthy(out[i].ip) && out[i].ip == out[j].ip
      ensures Truthy(out[i].mac)
    {
      assert Key(ByIp, out[i]) == Key(ByIp, out[j]);
      if i >= |m.joined| {
        assert KeptApart(ByIp, m.joined, m.standalone[i - |m.joined|]);
      } else if j >= |m.joined| {
        assert KeptApart(ByIp, m.joined, m.standalone[j - |m.joined|]);
      }
    }
  }

  // ---- conservation ----

  function Macs(ds: seq<Device>): set<Text> {
    set d | d in ds && Truthy(d.mac) :: d.mac
  }

  function Ips(ds: seq<Device>): set<Text> {
    set d | d in ds && Truthy(d.ip) :: d.ip
  }

  function ServiceBag(ds: seq<Device>): multiset<ServiceReport> {
    if ds == [] then multiset{} else ServiceBag(ds[..|ds| - 1]) + multiset(ds[|ds| - 1].services)
  }

  lemma {:induction false} ServiceBagConcat(a: seq<Device>, b: seq<Device>)
    ensures ServiceBag(a + b) == ServiceBag(a) + ServiceBag(b)
  {
    if b == [] {
      assert a + b == a;
    } else {
      assert (a + b)[..|a + b| - 1] == a + b[..|b| - 1];
      ServiceBagConcat(a, b[..|b| - 1]);
    }
  }

  lemma {:induction false} ServiceBagUpdate(ds: seq<Device>, i: nat, d: Device, extra: seq<ServiceReport>)
    requires i < |ds| && d.services == ds[i].services + extra
    ensures ServiceBag(ds[i := d]) == ServiceBag(ds) + multiset(extra)
  {
    var n := |ds| - 1;
    if i == n {
      assert ds[i := d][..n] == ds[..n];
    } else {
      assert ds[i := d][..n] == ds[..n][i := d];
      ServiceBagUpdate(ds[..n], i, d, extra);
    }
  }

  lemma {:induction false} ServiceBagSnoc(ds: seq<Device>, d: Device)
    ensures ServiceBag(ds + [d]) == ServiceBag(ds) + multiset(d.services)
  {
    assert (ds + [d])[..|ds + [d]| - 1] == ds;
  }

  function Bag(m: Merge): multiset<ServiceReport> {
    ServiceBag(m.joined) + ServiceBag(m.standalone)
  }

  lemma StepKeepsServices(m: Merge, d: Device)
    ensures Bag(MergeStep(ByIp, m, d)) == Bag(m) + multiset(d.services)
  {
    hide ServiceBag, Conflict, Or, Join;
    var i := Slot(ByIp, m.joined, d.ip);
    ServiceBagSnoc(m.joined, d);
    ServiceBagSnoc(m.standalone, d);
    if i < |m.joined| {
      ServiceBagUpdate(m.joined, i, Absorb(ByIp, m.joined[i], d), d.services);
    }
  }

  lemma {:induction false} MergeKeepsServices(ds: seq<Device>)
    ensures Bag(MergeAll(ByIp, ds)) == ServiceBag(ds)
  {
    if ds != [] {
      hide MergeStep, Bag;
      MergeKeepsServices(ds[..|ds| - 1]);
      StepKeepsServices(MergeAll(ByIp, ds[..|ds| - 1]), ds[|ds| - 1]);
    }
  }

  lemma ServicesConserved(ds: seq<Device>)
    ensures ServiceBag(Merged(ByIp, ds)) == ServiceBag(ds)
  {
    hide MergeAll, ServiceBag;
    MergeKeepsServices(ds);
    ServiceBagConcat(MergeAll(ByIp, ds).joined, MergeAll(ByIp, ds).standalone);
  }

  /** `merge_by_ip` loses and invents no MAC, no IP and no service. */
  lemma MergeByIpConserves(ds: seq<Device>)
    ensures Macs(Merged(ByIp, ds)) == Macs(ds)
    ensures Ips(Merged(ByIp, ds)) == Ips(ds)
    ensures ServiceBag(Merged(ByIp, ds)) == ServiceBag(ds)
  {
    hide MergeAll, Merged, ServiceBag, Bag;
    ServicesConserved(ds);
    var out := Merged(ByIp, ds);
    forall t | t in Macs(ds) ensures t in Macs(out) {
      var i :| 0 <= i < |ds| && ds[i].mac == t && Truthy(t);
      MacSurvives(ds, i);
    }
    forall t | t in Ips(ds) ensures t in Ips(out) {
      var i :| 0 <= i < |ds| && ds[i].ip == t && Truthy(t);
      IpSurvives(ds, i);
    }
    forall t | t in Macs(out) ensures t in Macs(ds) {
      var i :| 0 <= i < |out| && out[i].mac == t && Truthy(t);
      OutputIsInput(ds, i);
    }
    forall t | t in Ips(out) ensures t in Ips(ds) {
      var i :| 0 <= i < |out| && out[i].ip == t && Truthy(t);
      OutputIsInput(ds, i);
    }
  }

  lemma IpSurvives(ds: seq<Device>, i: nat)
    requires i < |ds| && Truthy(ds[i].ip)
    ensures ds[i].ip in Ips(Merged(ByIp, ds))
  {
    MergeByIpMeaning(ds);
    var m, out := MergeAll(ByIp, ds), Merged(ByIp, ds);
    var k := Slot(ByIp, m.joined, ds[i].ip);
    assert out[k] in out;
  }

  lemma EntryIsInput(ds: seq<Device>, e: Device)
    requires IpEntry(ds, e)
    ensures Truthy(e.mac) ==> e.mac in Macs(ds)
    ensures Truthy(e.ip) ==> e.ip in Ips(ds)
  {
    hide Joined, Contributors, SeenIp, FirstMac, Macs, Ips;
    SeenIpIsInput(ds, e.ip);
    if Truthy(e.mac) {
      FirstMacIsInput(ds, e.ip);
    }
  }

  lemma AsideIsInput(ds: seq<Device>, d: Device)
    requires d in Filter(ds, Aside(ds))
    ensures Truthy(d.mac) ==> d.mac in Macs(ds)
    ensures Truthy(d.ip) ==> d.ip in Ips(ds)
  {
    hide Filter, SetAside;
    FilterMembers(ds, Aside(ds), d);
  }

  lemma OutputIsInput(ds: seq<Device>, i: nat)
    requires i < |Merged(ByIp, ds)|
    ensures Truthy(Merged(ByIp, ds)[i].mac) ==> Merged(ByIp, ds)[i].mac in Macs(ds)
    ensures Truthy(Merged(ByIp, ds)[i].ip) ==> Merged(ByIp, ds)[i].ip in Ips(ds)
  {
    hide MergeAll, IpEntry, Filter, Aside, Macs, Ips, Slot;
    MergeByIpMeaning(ds);
    var m, d := MergeAll(ByIp, ds), Merged(ByIp, ds)[i];
    if i < |m.joined| {
      EntryIsInput(ds, d);
    } else {
      assert d == m.standalone[i - |m.joined|];
      AsideIsInput(ds, d);
    }
  }

  lemma {:induction false} SeenIpIsInput(ds: seq<Device>, ip: Text)
    requires SeenIp(ds, ip) && Truthy(ip)
    ensures ip in Ips(ds)
  {
    if ds[|ds| - 1].ip != ip {
      SeenIpIsInput(ds[..|ds| - 1], ip);
      assert Ips(ds[..|ds| - 1]) <= Ips(ds);
    } else {
      assert ds[|ds| - 1] in ds;
    }
  }

  lemma {:induction false} FirstMacIsInput(ds: seq<Device>, ip: Text)
    requires Truthy(FirstMac(ds, ip))
    ensures FirstMac(ds, ip) in Macs(ds)
  {
    if Truthy(FirstMac(ds[..|ds| - 1], ip)) {
      FirstMacIsInput(ds[..|ds| - 1], ip);
      assert Macs(ds[..|ds| - 1]) <= Macs(ds);
    } else {
      assert ds[|ds| - 1] in ds;
    }
  }

  lemma MacSurvives(ds: seq<Device>, i: nat)
    requires i < |ds| && Truthy(ds[i].mac)
    ensures ds[i].mac in Macs(Merged(ByIp, ds))
  {
    MergeByIpMeaning(ds);
    var m, out := MergeAll(ByIp, ds), Merged(ByIp, ds);
    if SetAside(ds, ds[i]) {
      FilterMembers(ds, Aside(ds), ds[i]);
      assert ds[i] in out;
    } else {
      var k := Slot(ByIp, m.joined, ds[i].ip);
      assert IpEntry(ds, m.joined[k]) && out[k] in out;
      if !Truthy(FirstMac(ds, ds[i].ip)) {
        NoMacBeforeFirst(ds, ds[i].ip);
      }
    }
  }
}
