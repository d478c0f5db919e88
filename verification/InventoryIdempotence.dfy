/** Running one batch of merged devices twice (discovery/reconcile.py). */
module InventoryIdempotence {
  import opened Basics
  import opened Models
  import opened SourceNames
  import opened DeviceMerge
  import opened InventoryCards

  // ---- a card as named places, each of which a device overwrites or leaves ----

  datatype Place =
    | AssetType | Vendor | Model | Firmware | Serial | ModelNumber | ModelIdentifier
    | Mac | Ip | Vlan | NetworkName | ConnectionType | InterfaceVendor
    | Present(port: Port) | Product(port: Port) | Version(port: Port) | Banner(port: Port)

  datatype Content = S(s: string) | N(n: int)

  function Stored(t: Text): Option<Content> {
    if t.Some? then Some(S(t.value)) else None
  }

  function Offered(t: Text): Option<Content> {
    if Truthy(t) then Some(S(t.value)) else None
  }

  function Over(a: Option<Content>, b: Option<Content>): Option<Content> {
    if a.Some? then a else b
  }

  function ServicePlace(m: map<Port, Service>, p: Place): Option<Content>
    requires p.Present? || p.Product? || p.Version? || p.Banner?
  {
    if p.port !in m then None
    else match p
      case Present(_) => Some(N(0))
      case Product(_) => Stored(m[p.port].product)
      case Version(_) => Stored(m[p.port].version)
      case Banner(_) => Stored(m[p.port].banner)
  }

  function At(c: Card, p: Place): Option<Content> {
    match p
    case AssetType => Some(S(c.asset.assetType))
    case Vendor => Stored(c.asset.vendor)
    case Model => Stored(c.asset.model)
    case Firmware => Stored(c.asset.firmware)
    case Serial => Stored(c.asset.serial)
    case ModelNumber => Stored(c.asset.modelNumber)
    case ModelIdentifier => Stored(c.asset.modelIdentifier)
    case Mac => Stored(c.iface.mac)
    case Ip => Stored(c.iface.ip)
    case Vlan => if c.iface.vlan.Some? then Some(N(c.iface.vlan.value)) else None
    case NetworkName => Stored(c.iface.networkName)
    case ConnectionType => Stored(c.iface.connectionType)
    case InterfaceVendor => Stored(c.iface.vendor)
    case _ => ServicePlace(c.services, p)
  }

  // What one service report, and a list of them, writes at a place.
  function ReportWrites(r: ServiceReport, p: Place): Option<Content>
    requires p.Present? || p.Product? || p.Version? || p.Banner?
  {
    if PortOf(r) != p.port then None
    else match p
      case Present(_) => Some(N(0))
      case Product(_) => Offered(r.product)
      case Version(_) => Offered(r.version)
      case Banner(_) => Offered(r.banner)
  }

  function ReportsWrite(rs: seq<ServiceReport>, p: Place): Option<Content>
    requires p.Present? || p.Product? || p.Version? || p.Banner?
  {
    if rs == [] then None else Over(ReportWrites(rs[|rs| - 1], p), ReportsWrite(rs[..|rs| - 1], p))
  }

  // The switches that discovery reads and never changes.
  datatype Locks = Locks(vendor: bool, identity: bool, triaged: bool)

  function LocksOf(a: Asset): Locks {
    Locks(a.vendorLocked, a.identityLocked, a.lifecycle != Discovered)
  }

  function Writes(locks: Locks, d: Device, p: Place): Option<Content> {
    match p
    case AssetType => if locks.triaged then None else Offered(d.assetType)
    case Vendor => if locks.vendor then None else Offered(d.vendor)
    case Model => Offered(d.model)
    case Firmware => Offered(d.firmware)
    case Serial => if locks.identity then None else Offered(d.serial)
    case ModelNumber => if locks.identity then None else Offered(d.modelNumber)
    case ModelIdentifier => if locks.identity then None else Offered(d.modelIdentifier)
    case Mac => Offered(d.mac)
    case Ip => Offered(d.ip)
    case Vlan => if d.vlan.Some? then Some(N(d.vlan.value)) else None
    case NetworkName => Offered(d.networkName)
    case ConnectionType => Offered(d.connectionType)
    case InterfaceVendor => Offered(d.vendor)
    case _ => ReportsWrite(d.services, p)
  }

  function AllWrite(locks: Locks, ds: seq<Device>, p: Place): Option<Content> {
    if ds == [] then None else Over(Writes(locks, ds[|ds| - 1], p), AllWrite(locks, ds[..|ds| - 1], p))
  }

  lemma {:induction false} PutServicesPlace(id: Id, m: map<Port, Service>, rs: seq<ServiceReport>, now: Time, p: Place)
    requires p.Present? || p.Product? || p.Version? || p.Banner?
    ensures ServicePlace(PutServices(id, m, rs, now), p) == Over(ReportsWrite(rs, p), ServicePlace(m, p))
  {
    if rs != [] {
      PutServicesPlace(id, m, rs[..|rs| - 1], now, p);
    }
  }

  lemma TouchPlace(id: Id, c: Card, d: Device, env: Env, p: Place)
    ensures At(Touch(id, c, d, env), p) == Over(Writes(LocksOf(c.asset), d, p), At(c, p))
    ensures LocksOf(Touch(id, c, d, env).asset) == LocksOf(c.asset)
  {
    hide PutServices, ReportsWrite, Priority;
    if p.Present? || p.Product? || p.Version? || p.Banner? {
      PutServicesPlace(id, c.services, d.services, env.now, p);
    }
  }

  /** After a list of devices each place holds what the last device that wrote it wrote. */
  lemma {:induction false} TouchAllPlace(id: Id, c: Card, ds: seq<Device>, env: Env, p: Place)
    ensures At(TouchAll(id, c, ds, env), p) == Over(AllWrite(LocksOf(c.asset), ds, p), At(c, p))
    ensures LocksOf(TouchAll(id, c, ds, env).asset) == LocksOf(c.asset)
  {
    if ds != [] {
      TouchAllPlace(id, c, ds[..|ds| - 1], env, p);
      TouchPlace(id, TouchAll(id, c, ds[..|ds| - 1], env), ds[|ds| - 1], env, p);
    }
  }

  // ---- equality up to the time stamps ----

  function Timeless(c: Card): Card {
    Card(c.asset.(lastSeen := 0), c.iface.(lastSeen := 0),
         map k | k in c.services :: c.services[k].(lastSeen := 0))
  }

  // What discovery leaves alone on an existing asset, apart from its places, name and owner.
  predicate SameRest(a: Asset, b: Asset) {
    && a.hostnameLocked == b.hostnameLocked && LocksOf(a) == LocksOf(b)
    && a.lifecycle == b.lifecycle && a.internetFacing == b.internetFacing
    && a.source == b.source && a.firstSeen == b.firstSeen
  }

  ghost predicate SamePlaces(c: Card, e: Card) {
    forall p :: At(c, p) == At(e, p)
  }

  lemma SameInterface(c: Card, e: Card)
    requires SamePlaces(c, e) && c.iface.assetId == e.iface.assetId
    ensures c.iface.(lastSeen := 0) == e.iface.(lastSeen := 0)
  {
    assert At(c, Mac) == At(e, Mac) && At(c, Ip) == At(e, Ip) && At(c, Vlan) == At(e, Vlan);
    assert At(c, NetworkName) == At(e, NetworkName) && At(c, ConnectionType) == At(e, ConnectionType);
    assert At(c, InterfaceVendor) == At(e, InterfaceVendor);
  }

  lemma SameAsset(c: Card, e: Card)
    requires SamePlaces(c, e) && SameRest(c.asset, e.asset)
    requires c.asset.hostname == e.asset.hostname && c.asset.hostnameSource == e.asset.hostnameSource
    requires c.asset.owner == e.asset.owner
    ensures c.asset.(lastSeen := 0) == e.asset.(lastSeen := 0)
  {
    assert At(c, AssetType) == At(e, AssetType) && At(c, Vendor) == At(e, Vendor);
    assert At(c, Model) == At(e, Model) && At(c, Firmware) == At(e, Firmware);
    assert At(c, Serial) == At(e, Serial) && At(c, ModelNumber) == At(e, ModelNumber);
    assert At(c, ModelIdentifier) == At(e, ModelIdentifier);
  }

  lemma ServicePlaces(c: Card, e: Card, k: Port)
    requires SamePlaces(c, e)
    ensures At(c, Present(k)) == At(e, Present(k)) && At(c, Product(k)) == At(e, Product(k))
    ensures At(c, Version(k)) == At(e, Version(k)) && At(c, Banner(k)) == At(e, Banner(k))
  {
    hide At;
  }

  lemma SameService(id: Id, c: Card, e: Card, k: Port)
    requires SamePlaces(c, e) && WellKeyed(id, c) && WellKeyed(id, e)
    ensures k in c.services <==> k in e.services
    ensures k in c.services ==> c.services[k].(lastSeen := 0) == e.services[k].(lastSeen := 0)
  {
    hide SamePlaces;
    ServicePlaces(c, e, k);
    if k in c.services {
      var v, w := c.services[k], e.services[k];
      assert v.assetId == w.assetId && v.port == w.port && v.protocol == w.protocol;
      hide WellKeyed;
      assert v.product == w.product && v.version == w.version && v.banner == w.banner;
    }
  }

  lemma TimelessByPlaces(id: Id, c: Card, e: Card)
    requires WellKeyed(id, c) && WellKeyed(id, e) && SamePlaces(c, e) && SameRest(c.asset, e.asset)
    requires c.asset.hostname == e.asset.hostname && c.asset.hostnameSource == e.asset.hostnameSource
    requires c.asset.owner == e.asset.owner
    ensures Timeless(c) == Timeless(e)
  {
    SameAsset(c, e);
    SameInterface(c, e);
    forall k: Port
      ensures k in c.services <==> k in e.services
      ensures k in c.services ==> c.services[k].(lastSeen := 0) == e.services[k].(lastSeen := 0)
    {
      SameService(id, c, e, k);
    }
  }

  lemma {:induction false} TouchAllKeyed(id: Id, c: Card, ds: seq<Device>, env: Env)
    requires WellKeyed(id, c)
    ensures WellKeyed(id, TouchAll(id, c, ds, env))
  {
    if ds != [] {
      hide WellKeyed, Touch;
      TouchAllKeyed(id, c, ds[..|ds| - 1], env);
      TouchKeyed(id, TouchAll(id, c, ds[..|ds| - 1], env), ds[|ds| - 1], env);
    }
  }

  lemma {:induction false} TouchAllRest(id: Id, c: Card, ds: seq<Device>, env: Env)
    ensures SameRest(TouchAll(id, c, ds, env).asset, c.asset)
    ensures Truthy(c.asset.owner) ==> TouchAll(id, c, ds, env).asset.owner == c.asset.owner
  {
    if ds != [] {
      TouchAllRest(id, c, ds[..|ds| - 1], env);
    }
  }

  // ---- owners ----

  // Every name that the devices can give the asset leaves it without an owner.
  predicate OwnerlessNames(a: Asset, ds: seq<Device>, env: Env) {
    && env.ownerFor(a.hostname) == ""
    && forall i :: 0 <= i < |ds| && Renames(a, ds[i]) ==> env.ownerFor(ds[i].hostname) == ""
  }

  // The asset has an owner, or the devices will not give it one.
  predicate OwnerSettled(a: Asset, ds: seq<Device>, env: Env) {
    Truthy(a.owner) || (a.owner == Some("") && OwnerlessNames(a, ds, env))
  }

  lemma OwnerAfterTouch(a: Asset, ds: seq<Device>, d: Device, env: Env)
    requires ds == [] || OwnerSettled(a, ds, env)
    ensures OwnerSettled(UpdatedAsset(a, d, env), ds + [d], env)
  {
  }

  lemma {:induction false} OwnerAfterAll(id: Id, c: Card, ds: seq<Device>, env: Env)
    requires ds != []
    ensures OwnerSettled(TouchAll(id, c, ds, env).asset, ds, env)
  {
    hide OwnerSettled, UpdatedAsset;
    var front := ds[..|ds| - 1];
    if front != [] {
      OwnerAfterAll(id, c, front, env);
    }
    OwnerAfterTouch(TouchAll(id, c, front, env).asset, front, ds[|ds| - 1], env);
    assert front + [ds[|ds| - 1]] == ds;
  }

  lemma OwnerAfterCreate(id: Id, d: Device, ds: seq<Device>, env: Env)
    ensures OwnerSettled(TouchAll(id, Create(id, d, env), ds, env).asset, [d] + ds, env)
  {
    hide Priority, PutServices;
    var c := Create(id, d, env);
    var e := TouchAll(id, c, ds, env);
    TouchAllRest(id, c, ds, env);
    if ds != [] {
      OwnerAfterAll(id, c, ds, env);
    }
    if !Truthy(e.asset.owner) {
      assert env.ownerFor(d.hostname) == "";
      forall i | 0 <= i < |[d] + ds| && Renames(e.asset, ([d] + ds)[i])
        ensures env.ownerFor(([d] + ds)[i].hostname) == ""
      {
        if i > 0 {
          assert ([d] + ds)[i] == ds[i - 1];
        }
      }
    }
  }

  // A touch with the same reading of the environment keeps such an asset without an owner.
  lemma NoOwnerAfterTouch(a: Asset, f: Asset, ds: seq<Device>, d: Device, env: Env, later: Env)
    requires later.ownerFor == env.ownerFor && OwnerlessNames(a, ds, env) && d in ds
    requires f.owner == Some("") && env.ownerFor(f.hostname) == "" && f.hostnameLocked == a.hostnameLocked
    requires Priority(f.hostnameSource) >= Priority(a.hostnameSource)
    ensures var g := UpdatedAsset(f, d, later);
      && g.owner == Some("") && env.ownerFor(g.hostname) == "" && g.hostnameLocked == a.hostnameLocked
      && Priority(g.hostnameSource) >= Priority(a.hostnameSource)
  {
  }

  lemma {:induction false} NoOwnerAfterAll(id: Id, c: Card, ds: seq<Device>, n: nat, env: Env, later: Env)
    requires later.ownerFor == env.ownerFor && OwnerlessNames(c.asset, ds, env) && c.asset.owner == Some("")
      && n <= |ds|
    ensures var f := TouchAll(id, c, ds[..n], later).asset;
      && f.owner == Some("") && env.ownerFor(f.hostname) == "" && f.hostnameLocked == c.asset.hostnameLocked
      && Priority(f.hostnameSource) >= Priority(c.asset.hostnameSource)
  {
    if n > 0 {
      hide Priority, UpdatedAsset, OwnerlessNames;
      assert ds[..n][..n - 1] == ds[..n - 1];
      NoOwnerAfterAll(id, c, ds, n - 1, env, later);
      NoOwnerAfterTouch(c.asset, TouchAll(id, c, ds[..n - 1], later).asset, ds, ds[n - 1], env, later);
    }
  }

  // Between the runs the configured owners stay the same, or the first run left no asset without one.
  ghost predicate SameOwners(env: Env, later: Env) {
    later.ownerFor == env.ownerFor || forall h :: env.ownerFor(h) != ""
  }

  lemma OwnerStays(id: Id, c: Card, ds: seq<Device>, env: Env, later: Env)
    requires OwnerSettled(c.asset, ds, env) && SameOwners(env, later)
    ensures TouchAll(id, c, ds, later).asset.owner == c.asset.owner
  {
    hide Priority;
    if Truthy(c.asset.owner) {
      TouchAllRest(id, c, ds, later);
    } else {
      NoOwnerAfterAll(id, c, ds, |ds|, env, later);
      assert ds[..|ds|] == ds;
    }
  }

  // The card already says everything the devices have to say.
  ghost predicate HasAbsorbed(c: Card, ds: seq<Device>, env: Env) {
    && OwnerSettled(c.asset, ds, env)
    && (forall p :: AllWrite(LocksOf(c.asset), ds, p).Some? ==> At(c, p) == AllWrite(LocksOf(c.asset), ds, p))
    && (c.asset.hostnameLocked || Namesake(ds).None?
        || Priority(Some(Namesake(ds).value.source)) < Priority(c.asset.hostnameSource)
        || (c.asset.hostname == Namesake(ds).value.hostname
            && c.asset.hostnameSource == Some(Namesake(ds).value.source)))
  }

  /** Devices that a card has absorbed change nothing but time stamps when they come again. */
  lemma AbsorbedDevicesChangeNothing(id: Id, c: Card, ds: seq<Device>, env: Env, later: Env)
    requires WellKeyed(id, c) && HasAbsorbed(c, ds, env) && SameOwners(env, later)
    ensures Timeless(TouchAll(id, c, ds, later)) == Timeless(c)
  {
    hide WellKeyed, TouchAll, OwnerSettled, SameOwners, AllWrite, At, Timeless, Namesake, Priority;
    var e := TouchAll(id, c, ds, later);
    TouchAllKeyed(id, c, ds, later);
    TouchAllRest(id, c, ds, later);
    forall p ensures At(e, p) == At(c, p) {
      TouchAllPlace(id, c, ds, later, p);
    }
    TouchAllNames(id, c, ds, later);
    OwnerStays(id, c, ds, env, later);
    TimelessByPlaces(id, e, c);
  }

  lemma TouchAllAbsorbs(id: Id, c: Card, ds: seq<Device>, env: Env)
    requires ds != []
    ensures HasAbsorbed(TouchAll(id, c, ds, env), ds, env)
  {
    var e := TouchAll(id, c, ds, env);
    OwnerAfterAll(id, c, ds, env);
    TouchAllRest(id, c, ds, env);
    forall p | AllWrite(LocksOf(e.asset), ds, p).Some? ensures At(e, p) == AllWrite(LocksOf(e.asset), ds, p) {
      TouchAllPlace(id, c, ds, env, p);
    }
    TouchAllNames(id, c, ds, env);
  }

  lemma {:induction false} AllWriteCons(locks: Locks, d: Device, ds: seq<Device>, p: Place)
    ensures AllWrite(locks, [d] + ds, p) == Over(AllWrite(locks, ds, p), Writes(locks, d, p))
  {
    if ds == [] {
      assert [d] + ds == [d] && [d][..0] == [];
    } else {
      assert ([d] + ds)[..|[d] + ds| - 1] == [d] + ds[..|ds| - 1];
      AllWriteCons(locks, d, ds[..|ds| - 1], p);
    }
  }

  lemma CreatePlace(id: Id, d: Device, env: Env, p: Place)
    requires Writes(LocksOf(Create(id, d, env).asset), d, p).Some?
    ensures At(Create(id, d, env), p) == Writes(LocksOf(Create(id, d, env).asset), d, p)
  {
    if p.Present? || p.Product? || p.Version? || p.Banner? {
      PutServicesPlace(id, map[], d.services, env.now, p);
    }
  }

  lemma CreateAbsorbs(id: Id, d: Device, ds: seq<Device>, env: Env)
    ensures HasAbsorbed(TouchAll(id, Create(id, d, env), ds, env), [d] + ds, env)
  {
    var c := Create(id, d, env);
    var e := TouchAll(id, c, ds, env);
    TouchAllRest(id, c, ds, env);
    var locks := LocksOf(e.asset);
    forall p | AllWrite(locks, [d] + ds, p).Some? ensures At(e, p) == AllWrite(locks, [d] + ds, p) {
      AllWriteCons(locks, d, ds, p);
      TouchAllPlace(id, c, ds, env, p);
      if AllWrite(locks, ds, p).None? {
        CreatePlace(id, d, env, p);
      }
    }
    TouchAllNames(id, c, ds, env);
    LastMaxCons(d, ds, NameRank);
    OwnerAfterCreate(id, d, ds, env);
  }

  // ---- which card a device belongs to, in both runs ----

  predicate Anonymous(d: Device) {
    !Truthy(d.mac) && !Truthy(d.ip)
  }

  predicate Owns(c: Card, d: Device) {
    if Truthy(d.mac) then MacHolder(c, d) else IpHolder(c, d)
  }

  lemma HitOwns(s: Shelf, d: Device, env: Env)
    requires Inv(s) && !Anonymous(d)
    ensures Hit(s, d) in Step(s, d, env).cards && Owns(Step(s, d, env).cards[Hit(s, d)], d)
  {
  }

  lemma OwnerIsHit(s: Shelf, d: Device, id: Id)
    requires Inv(s) && id in s.cards && Owns(s.cards[id], d)
    ensures Hit(s, d) == id
  {
    assert Matches(s, d, id);
    MatchIsUnique(s, d, id, Hit(s, d));
  }

  // No other device of the batch can take the IP of a device without a MAC.
  predicate NoClash(d: Device, e: Device) {
    Truthy(d.mac) || d.ip != e.ip
  }

  lemma OwnershipStays(s: Shelf, d: Device, e: Device, env: Env, id: Id)
    requires Inv(s) && id in s.cards && Owns(s.cards[id], d) && (e == d || NoClash(d, e))
    ensures id in Step(s, e, env).cards && Owns(Step(s, e, env).cards[id], d)
  {
  }

  lemma BatchWithoutClash(ds: seq<Device>, i: nat, j: nat)
    requires NoBareShare(ds) && i < |ds| && j < |ds| && i != j && !Anonymous(ds[i])
    ensures NoClash(ds[i], ds[j])
  {
  }

  lemma RunPrefix(s: Shelf, ds: seq<Device>, env: Env, n: nat)
    requires 0 < n <= |ds|
    ensures Run(s, ds[..n], env) == Step(Run(s, ds[..n - 1], env), ds[n - 1], env)
  {
    assert ds[..n][..n - 1] == ds[..n - 1];
  }

  lemma {:induction false} OwnershipLasts(s: Shelf, ds: seq<Device>, env: Env, k: nat, n: nat, id: Id)
    requires Inv(s) && NoBareShare(ds) && k < n <= |ds| && !Anonymous(ds[k])
    requires id == Hit(Run(s, ds[..k], env), ds[k])
    ensures id in Run(s, ds[..n], env).cards && Owns(Run(s, ds[..n], env).cards[id], ds[k])
  {
    hide Inv, Step, Hit, Owns, NoBareShare, NoClash, Anonymous;
    var before := Run(s, ds[..n - 1], env);
    RunPrefix(s, ds, env, n);
    RunKeepsInv(s, ds[..n - 1], env);
    if n == k + 1 {
      HitOwns(before, ds[k], env);
    } else {
      OwnershipLasts(s, ds, env, k, n - 1, id);
      BatchWithoutClash(ds, k, n - 1);
      OwnershipStays(before, ds[k], ds[n - 1], env, id);
    }
  }

  // ---- a device with neither address makes an asset that nothing matches ----

  predicate Blank(c: Card) {
    c.iface.mac == None && c.iface.ip == None
  }

  lemma BlankMatchesNothing(t: Shelf, d: Device, env: Env, id: Id)
    requires Inv(t) && id in t.cards && Blank(t.cards[id])
    ensures id in Step(t, d, env).cards && Step(t, d, env).cards[id] == t.cards[id]
  {
    assert !Matches(t, d, id) && Hit(t, d) != id;
  }

  lemma {:induction false} BlankStays(s: Shelf, ds: seq<Device>, env: Env, id: Id)
    requires Inv(s) && id in s.cards && Blank(s.cards[id])
    ensures id in Run(s, ds, env).cards && Run(s, ds, env).cards[id] == s.cards[id]
  {
    if ds != [] {
      hide Inv, Step, Blank;
      BlankStays(s, ds[..|ds| - 1], env, id);
      RunKeepsInv(s, ds[..|ds| - 1], env);
      BlankMatchesNothing(Run(s, ds[..|ds| - 1], env), ds[|ds| - 1], env, id);
    }
  }

  lemma {:induction false} RunConcat(s: Shelf, a: seq<Device>, b: seq<Device>, env: Env)
    ensures Run(s, a + b, env) == Run(Run(s, a, env), b, env)
  {
    if b == [] {
      assert a + b == a;
    } else {
      assert (a + b)[..|a + b| - 1] == a + b[..|b| - 1];
      RunConcat(s, a, b[..|b| - 1], env);
    }
  }

  lemma AnonymousStep(t: Shelf, d: Device, env: Env)
    requires Inv(t) && Anonymous(d)
    ensures Hit(t, d) == t.next && t.next !in t.cards
    ensures Step(t, d, env) == Shelf(t.cards[t.next := Create(t.next, d, env)], t.next + 1)
    ensures Blank(Create(t.next, d, env))
  {
  }

  lemma AnonymousLands(s: Shelf, ds: seq<Device>, env: Env, k: nat)
    requires Inv(s) && k < |ds| && Anonymous(ds[k])
    ensures var t := Run(s, ds[..k], env);
      && Hit(t, ds[k]) == t.next
      && t.next in Run(s, ds, env).cards && Blank(Run(s, ds, env).cards[t.next])
  {
    hide Inv, Step, Hit, Anonymous, Blank, Create;
    var t := Run(s, ds[..k], env);
    RunKeepsInv(s, ds[..k], env);
    AnonymousStep(t, ds[k], env);
    RunPrefix(s, ds, env, k + 1);
    StepKeepsInv(t, ds[k], env);
    RunConcat(s, ds[..k + 1], ds[k + 1..], env);
    assert ds[..k + 1] + ds[k + 1..] == ds;
    BlankStays(Step(t, ds[k], env), ds[k + 1..], env, t.next);
  }

  // ---- the two runs ----

  function Belonging(c: Card, ds: seq<Device>): seq<Device> {
    Filter(ds, (d: Device) => Owns(c, d))
  }

  /** In the first run the devices that land on an asset are those it owns at the end, unless it
      owns none. */
  lemma {:induction false} FirstRunMatched(s: Shelf, ds: seq<Device>, env: Env, n: nat, id: Id)
    requires Inv(s) && NoBareShare(ds) && n <= |ds| && id in Run(s, ds, env).cards
    requires !Blank(Run(s, ds, env).cards[id])
    ensures Matched(s, ds[..n], env, id) == Belonging(Run(s, ds, env).cards[id], ds[..n])
  {
    if n > 0 {
      var k, d, end := n - 1, ds[n - 1], Run(s, ds, env);
      FirstRunMatched(s, ds, env, k, id);
      assert ds[..n][..k] == ds[..k] && ds[..n][k] == d;
      var h := Hit(Run(s, ds[..k], env), d);
      RunKeepsInv(s, ds, env);
      if Anonymous(d) {
        AnonymousLands(s, ds, env, k);
      } else {
        OwnershipLasts(s, ds, env, k, |ds|, h);
        assert ds[..|ds|] == ds;
        OwnerIsHit(end, d, h);
        if Owns(end.cards[id], d) {
          OwnerIsHit(end, d, id);
        }
      }
    }
  }

  // Each device with an address has its owner on the shelf.
  ghost predicate Settled(s: Shelf, d: Device) {
    Anonymous(d) || exists id :: id in s.cards && Owns(s.cards[id], d)
  }

  lemma FirstRunSettles(s: Shelf, ds: seq<Device>, env: Env, k: nat)
    requires Inv(s) && NoBareShare(ds) && k < |ds|
    ensures Settled(Run(s, ds, env), ds[k])
  {
    if !Anonymous(ds[k]) {
      OwnershipLasts(s, ds, env, k, |ds|, Hit(Run(s, ds[..k], env), ds[k]));
      assert ds[..|ds|] == ds;
    }
  }

  // Owners on shelf `s` are owners on `t`.
  ghost predicate OwnersKept(s: Shelf, t: Shelf, ds: seq<Device>) {
    forall id, i :: id in s.cards && 0 <= i < |ds| && Owns(s.cards[id], ds[i]) ==>
      id in t.cards && Owns(t.cards[id], ds[i])
  }

  lemma {:induction false} SecondRunKeepsOwners(s: Shelf, ds: seq<Device>, env: Env, n: nat)
    requires Inv(s) && NoBareShare(ds) && n <= |ds|
    ensures OwnersKept(s, Run(s, ds[..n], env), ds)
  {
    if n > 0 {
      SecondRunKeepsOwners(s, ds, env, n - 1);
      RunKeepsInv(s, ds[..n - 1], env);
      assert ds[..n][..n - 1] == ds[..n - 1];
      var t := Run(s, ds[..n - 1], env);
      RunPrefix(s, ds, env, n);
      hide Inv, Step, Hit, Owns, NoClash, NoBareShare, Run;
      forall id, i | id in s.cards && 0 <= i < |ds| && Owns(s.cards[id], ds[i])
        ensures id in Run(s, ds[..n], env).cards && Owns(Run(s, ds[..n], env).cards[id], ds[i])
      {
        OwnershipStays(t, ds[i], ds[n - 1], env, id);
      }
    }
  }

  lemma SecondRunHit(s: Shelf, ds: seq<Device>, env: Env, k: nat, id: Id)
    requires Inv(s) && NoBareShare(ds) && k < |ds| && Settled(s, ds[k]) && id in s.cards
    ensures Hit(Run(s, ds[..k], env), ds[k]) == id <==> Owns(s.cards[id], ds[k])
  {
    var t := Run(s, ds[..k], env);
    RunKeepsInv(s, ds[..k], env);
    SecondRunKeepsOwners(s, ds, env, k);
    if Anonymous(ds[k]) {
      AnonymousLands(s, ds, env, k);
    } else {
      var o :| o in s.cards && Owns(s.cards[o], ds[k]);
      OwnerIsHit(t, ds[k], o);
      OwnerIsHit(s, ds[k], o);
      if Owns(s.cards[id], ds[k]) {
        OwnerIsHit(s, ds[k], id);
      }
    }
  }

  lemma {:induction false} SecondRunMatched(s: Shelf, ds: seq<Device>, env: Env, n: nat, id: Id)
    requires Inv(s) && NoBareShare(ds) && n <= |ds| && id in s.cards
    requires forall k :: 0 <= k < |ds| ==> Settled(s, ds[k])
    ensures Matched(s, ds[..n], env, id) == Belonging(s.cards[id], ds[..n])
  {
    if n > 0 {
      assert ds[..n][..n - 1] == ds[..n - 1];
      SecondRunMatched(s, ds, env, n - 1, id);
      SecondRunHit(s, ds, env, n - 1, id);
    }
  }

  function Newcomers(ds: seq<Device>): seq<Device> {
    Filter(ds, Anonymous)
  }

  // Shelf `t` is shelf `s`, its cards possibly touched, and one new card for each of `extra`.
  ghost predicate Grown(s: Shelf, t: Shelf, extra: seq<Device>, env: Env) {
    && t.next == s.next + |extra|
    && (forall id :: id in t.cards <==> id in s.cards || s.next <= id < t.next)
    && (forall id :: s.next <= id < t.next ==> t.cards[id] == Create(id, extra[id - s.next], env))
  }

  lemma GrownByAnonymous(s: Shelf, t: Shelf, extra: seq<Device>, env: Env, d: Device)
    requires Inv(t) && Grown(s, t, extra, env) && Anonymous(d)
    ensures Grown(s, Step(t, d, env), extra + [d], env)
  {
    hide Inv, Step, Hit, Create, Anonymous;
    AnonymousStep(t, d, env);
  }

  lemma GrownByOwned(s: Shelf, t: Shelf, extra: seq<Device>, env: Env, d: Device, o: Id)
    requires Inv(s) && Grown(s, t, extra, env) && o in s.cards && Hit(t, d) == o
    ensures Grown(s, Step(t, d, env), extra, env)
  {
  }

  /** The second run adds one asset per device without an address, and no other. */
  lemma {:induction false} SecondRunAdds(s: Shelf, ds: seq<Device>, env: Env, n: nat)
    requires Inv(s) && NoBareShare(ds) && n <= |ds|
    requires forall k :: 0 <= k < |ds| ==> Settled(s, ds[k])
    ensures Grown(s, Run(s, ds[..n], env), Newcomers(ds[..n]), env)
  {
    if n > 0 {
      hide Inv, Step, Hit, Create, NoBareShare, Grown, Owns;
      SecondRunAdds(s, ds, env, n - 1);
      RunPrefix(s, ds, env, n);
      RunKeepsInv(s, ds[..n - 1], env);
      assert ds[..n][..n - 1] == ds[..n - 1];
      var t, d, extra := Run(s, ds[..n - 1], env), ds[n - 1], Newcomers(ds[..n - 1]);
      if Anonymous(d) {
        GrownByAnonymous(s, t, extra, env, d);
      } else {
        var o: Id :| o in s.cards && Owns(s.cards[o], d);
        SecondRunHit(s, ds, env, n - 1, o);
        GrownByOwned(s, t, extra, env, d, o);
        assert extra + [] == extra;
      }
    }
  }

  /** Reconciling one merged batch twice.  Every asset the first run left is, after the second, as
      the first run left it up to time stamps, and the second run only adds one asset for each
      device that has neither a MAC nor an IP. */
  lemma BatchTwice(s: Shelf, ds: seq<Device>, env: Env, later: Env)
    requires Inv(s) && NoBareShare(ds)
    requires SameOwners(env, later)
    ensures var once, extra := Run(s, ds, env), Newcomers(ds);
      var twice := Run(once, ds, later);
      && (forall id :: id in once.cards ==>
            id in twice.cards && Timeless(twice.cards[id]) == Timeless(once.cards[id]))
      && twice.next == once.next + |extra|
      && (forall id :: id in twice.cards <==> id in once.cards || once.next <= id < once.next + |extra|)
      && (forall id :: once.next <= id < twice.next ==>
            twice.cards[id] == Create(id, extra[id - once.next], later))
  {
    hide Inv, Run, Timeless, Create, NoBareShare, Settled, Newcomers;
    var once := Run(s, ds, env);
    RunKeepsInv(s, ds, env);
    forall k | 0 <= k < |ds| ensures Settled(once, ds[k]) { FirstRunSettles(s, ds, env, k); }
    assert ds[..|ds|] == ds;
    SecondRunAdds(once, ds, later, |ds|);
    forall id | id in once.cards
      ensures Timeless(Run(once, ds, later).cards[id]) == Timeless(once.cards[id])
    {
      AssetTwice(s, ds, env, later, id);
    }
  }

  lemma AssetTwice(s: Shelf, ds: seq<Device>, env: Env, later: Env, id: Id)
    requires Inv(s) && NoBareShare(ds) && id in Run(s, ds, env).cards
    requires SameOwners(env, later)
    ensures var once := Run(s, ds, env);
      var twice := Run(once, ds, later);
      id in twice.cards && Timeless(twice.cards[id]) == Timeless(once.cards[id])
  {
    var once := Run(s, ds, env);
    var c := once.cards[id];
    RunKeepsInv(s, ds, env);
    RunKeepsInv(once, ds, later);
    if Blank(c) {
      BlankStays(once, ds, later, id);
    } else {
      forall k | 0 <= k < |ds| ensures Settled(once, ds[k]) { FirstRunSettles(s, ds, env, k); }
      assert ds[..|ds|] == ds;
      FirstRunMatched(s, ds, env, |ds|, id);
      SecondRunMatched(once, ds, later, |ds|, id);
      RunDecomposes(s, ds, env, id);
      RunDecomposes(once, ds, later, id);
      OutcomeTwice(id, CardAt(s, id), Belonging(c, ds), env, later);
    }
  }

  /** In particular for what `merge_by_ip` makes of the same reports. */
  lemma MergedBatchTwice(s: Shelf, reports: seq<Device>, env: Env, later: Env, id: Id)
    requires Inv(s) && SameOwners(env, later)
    ensures var ds := Merged(ByIp, reports);
      var once := Run(s, ds, env);
      var twice := Run(once, ds, later);
      && (id in once.cards ==> id in twice.cards && Timeless(twice.cards[id]) == Timeless(once.cards[id]))
      && (id in twice.cards <==> id in once.cards || once.next <= id < once.next + |Newcomers(ds)|)
  {
    hide *;
    MergedByIpSharesNoBareIp(reports);
    BatchTwice(s, Merged(ByIp, reports), env, later);
  }

  /** An asset's own devices, absorbed twice. */
  lemma OutcomeTwice(id: Id, before: Option<Card>, mine: seq<Device>, env: Env, later: Env)
    requires before.Some? ==> WellKeyed(id, before.value)
    requires Outcome(id, before, mine, env).Some?
    requires SameOwners(env, later)
    ensures var c := Outcome(id, before, mine, env).value;
      Timeless(TouchAll(id, c, mine, later)) == Timeless(c)
  {
    if before.Some? {
      if mine != [] {
        TouchAllAbsorbs(id, before.value, mine, env);
        TouchAllKeyed(id, before.value, mine, env);
        AbsorbedDevicesChangeNothing(id, TouchAll(id, before.value, mine, env), mine, env, later);
      }
    } else {
      var c := Create(id, mine[0], env);
      CreateKeyed(id, mine[0], env);
      TouchAllKeyed(id, c, mine[1..], env);
      CreateAbsorbs(id, mine[0], mine[1..], env);
      assert [mine[0]] + mine[1..] == mine;
      AbsorbedDevicesChangeNothing(id, TouchAll(id, c, mine[1..], env), mine, env, later);
    }
  }
}
