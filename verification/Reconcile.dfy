/** `reconcile_into_db` over the tables (discovery/reconcile.py), and its refinement of the cards. */
module Reconcile {
  import opened Basics
  import opened Models
  import opened SourceNames
  import opened InventoryCards

  function RowPort(s: Service): Port {
    (s.port, s.protocol)
  }

  // ---- the tables as cards ----

  /** Asset `a` has exactly one interface row, and it is `f`. */
  ghost predicate InterfaceRows(t: map<Id, Interface>, a: Id, f: Interface) {
    && f.assetId == a
    && (exists i :: i in t && t[i] == f)
    && (forall i, j :: i in t && j in t && t[i].assetId == a && t[j].assetId == a ==> i == j)
  }

  /** The service rows of asset `a` are those of `m`. */
  ghost predicate ServiceRows(t: map<Id, Service>, a: Id, m: map<Port, Service>) {
    && (forall v :: v in t && t[v].assetId == a ==> RowPort(t[v]) in m && m[RowPort(t[v])] == t[v])
    && (forall k :: k in m ==> exists v :: v in t && t[v].assetId == a && RowPort(t[v]) == k)
  }

  /** (asset, port, protocol) identifies a service row. */
  ghost predicate UniquePorts(t: map<Id, Service>) {
    forall v, w :: v in t && w in t && t[v].assetId == t[w].assetId && RowPort(t[v]) == RowPort(t[w]) ==> v == w
  }

  /** Foreign keys and the unique constraint on services: what every caller has. */
  ghost predicate WellFormed(session: Session)
    reads session
  {
    && session.KeysBelowSequences()
    && (forall i :: i in session.interfaces ==> session.interfaces[i].assetId in session.assets)
    && (forall v :: v in session.services ==> session.services[v].assetId in session.assets)
    && UniquePorts(session.services)
  }

  ghost predicate Represents(session: Session, s: Shelf)
    reads session
  {
    Tables(session.assets, session.interfaces, session.services, session.nextAsset, s)
  }

  ghost predicate Tables(assets: map<Id, Asset>, faces: map<Id, Interface>, rows: map<Id, Service>, next: Id,
                         s: Shelf)
  {
    && s.next == next
    && CardRows(assets, faces, rows, s.cards)
    && Inv(s)
  }

  ghost predicate CardRows(assets: map<Id, Asset>, faces: map<Id, Interface>, rows: map<Id, Service>,
                           cards: map<Id, Card>)
  {
    && cards.Keys == assets.Keys
    && (forall a :: a in assets ==> AssetRows(assets, faces, rows, a, cards[a]))
  }

  ghost predicate AssetRows(assets: map<Id, Asset>, faces: map<Id, Interface>, rows: map<Id, Service>, a: Id, c: Card) {
    && a in assets && c.asset == assets[a]
    && InterfaceRows(faces, a, c.iface)
    && ServiceRows(rows, a, c.services)
  }

  /** The tables that discovery writes, and the next key of an asset. */
  datatype Inventory = Inventory(assets: map<Id, Asset>, interfaces: map<Id, Interface>, services: map<Id, Service>,
                                 next: Id)

  function InventoryOf(session: Session): Inventory
    reads session`assets, session`interfaces, session`services, session`nextAsset
  {
    Inventory(session.assets, session.interfaces, session.services, session.nextAsset)
  }

  // ---- finding the asset ----

  predicate MacRow(t: map<Id, Interface>, i: Id, mac: string) {
    i in t && t[i].mac == Some(mac)
  }

  // An interface with this IP and no MAC of its own.
  predicate IpRow(t: map<Id, Interface>, i: Id, ip: string) {
    i in t && t[i].ip == Some(ip) && t[i].mac == None
  }

  ghost predicate NewestIpRow(t: map<Id, Interface>, i: Id, ip: string) {
    IpRow(t, i, ip) && forall j :: IpRow(t, j, ip) ==> t[j].lastSeen <= t[i].lastSeen
  }

  /** `_find_asset_by_mac`: `.first()` without an order may be any matching row. */
  method FindAssetByMac(session: Session, mac: string) returns (r: Option<Id>)
    requires WellFormed(session)
    ensures r.None? ==> forall i :: !MacRow(session.interfaces, i, mac)
    ensures r.Some? ==> exists i :: MacRow(session.interfaces, i, mac) && session.interfaces[i].assetId == r.value
    ensures r.Some? ==> r.value in session.assets
  {
    if i: Id :| i in session.interfaces && MacRow(session.interfaces, i, mac) {
      r := Some(session.interfaces[i].assetId);
    } else {
      r := None;
    }
  }

  /** `_find_asset_by_ip`: the row seen last. */
  method FindAssetByIp(session: Session, ip: string) returns (r: Option<Id>)
    requires WellFormed(session)
    ensures r.None? ==> forall i :: !IpRow(session.interfaces, i, ip)
    ensures r.Some? ==> exists i :: NewestIpRow(session.interfaces, i, ip) && session.interfaces[i].assetId == r.value
    ensures r.Some? ==> r.value in session.assets
  {
    var t := session.interfaces;
    var rest: set<Id> := t.Keys;
    var best: Option<Id> := None;
    while rest != {}
      invariant rest <= t.Keys
      invariant best.None? ==> forall j :: IpRow(t, j, ip) ==> j in rest
      invariant best.Some? ==> IpRow(t, best.value, ip)
      invariant best.Some? ==> forall j :: IpRow(t, j, ip) && j !in rest ==> t[j].lastSeen <= t[best.value].lastSeen
    {
      var i: Id :| i in rest;
      rest := rest - {i};
      if IpRow(t, i, ip) && (best.None? || t[best.value].lastSeen <= t[i].lastSeen) {
        best := Some(i);
      }
    }
    r := if best.Some? then Some(t[best.value].assetId) else None;
  }

  // On the cards' tables each interface row is the one of its asset's card.
  lemma RowIsCard(assets: map<Id, Asset>, t: map<Id, Interface>, rows: map<Id, Service>, cards: map<Id, Card>, i: Id)
    requires CardRows(assets, t, rows, cards) && i in t && t[i].assetId in assets
    ensures t[i].assetId in cards && cards[t[i].assetId].iface == t[i]
  {
    assert AssetRows(assets, t, rows, t[i].assetId, cards[t[i].assetId]);
    var j :| j in t && t[j] == cards[t[i].assetId].iface;
  }

  lemma CardHasRow(assets: map<Id, Asset>, t: map<Id, Interface>, rows: map<Id, Service>, cards: map<Id, Card>, a: Id)
    returns (i: Id)
    requires CardRows(assets, t, rows, cards) && a in cards
    ensures i in t && t[i] == cards[a].iface
  {
    assert AssetRows(assets, t, rows, a, cards[a]);
    i :| i in t && t[i] == cards[a].iface;
  }

  // The lookup by MAC, and by IP, find a row exactly when a card holds the address.
  ghost predicate MacRowsAreCards(t: map<Id, Interface>, cards: map<Id, Card>, d: Device) {
    && (forall i :: Truthy(d.mac) && MacRow(t, i, d.mac.value) ==>
          t[i].assetId in cards && MacHolder(cards[t[i].assetId], d))
    && (forall a :: a in cards && MacHolder(cards[a], d) ==> exists i :: MacRow(t, i, d.mac.value))
  }

  ghost predicate IpRowsAreCards(t: map<Id, Interface>, cards: map<Id, Card>, d: Device) {
    && (forall i :: Truthy(d.ip) && IpRow(t, i, d.ip.value) ==>
          t[i].assetId in cards && IpHolder(cards[t[i].assetId], d))
    && (forall a :: a in cards && IpHolder(cards[a], d) ==> exists i :: IpRow(t, i, d.ip.value))
  }

  lemma RowsAreCards(assets: map<Id, Asset>, t: map<Id, Interface>, rows: map<Id, Service>, cards: map<Id, Card>,
                     d: Device)
    requires CardRows(assets, t, rows, cards) && forall i :: i in t ==> t[i].assetId in assets
    ensures MacRowsAreCards(t, cards, d) && IpRowsAreCards(t, cards, d)
  {
    hide CardRows;
    forall i | i in t ensures t[i].assetId in cards && cards[t[i].assetId].iface == t[i] {
      RowIsCard(assets, t, rows, cards, i);
    }
    forall a | a in cards && MacHolder(cards[a], d) ensures exists i :: MacRow(t, i, d.mac.value) {
      var i := CardHasRow(assets, t, rows, cards, a);
      assert MacRow(t, i, d.mac.value);
    }
    forall a | a in cards && IpHolder(cards[a], d) ensures exists i :: IpRow(t, i, d.ip.value) {
      var i := CardHasRow(assets, t, rows, cards, a);
      assert IpRow(t, i, d.ip.value);
    }
  }

  // The device reports an address of the gateway itself.
  predicate AtGateway(d: Device, gatewayIps: set<string>, gatewayMac: Text) {
    Truthy(gatewayMac) && Truthy(d.ip) && d.ip.value in gatewayIps
  }

  // The card the device matches, or none when it matches no card.
  ghost predicate Finds(s: Shelf, d: Device, found: Option<Id>) {
    if found.Some? then Matches(s, d, found.value) else forall id :: !Matches(s, d, id)
  }

  lemma MacRowMatches(t: map<Id, Interface>, s: Shelf, d: Device, a: Id)
    requires MacRowsAreCards(t, s.cards, d) && Truthy(d.mac)
    requires exists i :: MacRow(t, i, d.mac.value) && t[i].assetId == a
    ensures Finds(s, d, Some(a))
  {
  }

  lemma IpRowMatches(t: map<Id, Interface>, s: Shelf, d: Device, r: Option<Id>)
    requires MacRowsAreCards(t, s.cards, d) && IpRowsAreCards(t, s.cards, d)
    requires Truthy(d.mac) ==> forall i :: !MacRow(t, i, d.mac.value)
    requires if r.Some? then Truthy(d.ip) && exists i :: IpRow(t, i, d.ip.value) && t[i].assetId == r.value
             else Truthy(d.ip) ==> forall i :: !IpRow(t, i, d.ip.value)
    ensures Finds(s, d, r)
  {
  }

  /** No MAC is on interfaces of two assets. */
  ghost predicate MacsApart(t: map<Id, Interface>) {
    forall i, j :: i in t && j in t && t[i].mac.Some? && t[i].mac == t[j].mac ==> t[i].assetId == t[j].assetId
  }

  // Every interface with the device's MAC belongs to the asset that was found.
  ghost predicate MacAtHome(t: map<Id, Interface>, d: Device, found: Option<Id>) {
    Truthy(d.mac) ==> forall i :: MacRow(t, i, d.mac.value) ==> found == Some(t[i].assetId)
  }


  // Rows are never lost and never change their asset.
  ghost predicate FacesStay(t: map<Id, Interface>, u: map<Id, Interface>) {
    t.Keys <= u.Keys && forall i :: i in t ==> u[i].assetId == t[i].assetId
  }

  // ... nor their port.
  ghost predicate PortsStay(t: map<Id, Service>, u: map<Id, Service>) {
    t.Keys <= u.Keys && forall v :: v in t ==> u[v].assetId == t[v].assetId && RowPort(u[v]) == RowPort(t[v])
  }

  lemma RowsStayTwice(t: map<Id, Interface>, t1: map<Id, Interface>, t2: map<Id, Interface>,
                      u: map<Id, Service>, u1: map<Id, Service>, u2: map<Id, Service>)
    requires FacesStay(t, t1) && FacesStay(t1, t2) && PortsStay(u, u1) && PortsStay(u1, u2)
    ensures FacesStay(t, t2) && PortsStay(u, u2)
  {
  }

  lemma UpsertedStays(t: map<Id, Interface>, u: map<Id, Interface>, a: Id, i: Id, d: Device, now: Time,
                      found: Option<Id>)
    requires InterfaceUpserted(t, u, a, i, d, now)
    ensures FacesStay(t, u)
    ensures MacsApart(t) && MacAtHome(t, d, found) && (found.Some? ==> found.value == a) ==> MacsApart(u)
  {
    assert u[i].assetId == a;
    if MacsApart(t) && MacAtHome(t, d, found) && (found.Some? ==> found.value == a) {
      forall k | k in t && k != i && u[i].mac.Some? && u[i].mac == t[k].mac ensures t[k].assetId == a {
        assert u[i].mac == d.mac && Truthy(d.mac) ==> MacRow(t, k, d.mac.value);
      }
    }
  }

  /** The owner of an interface with the MAC, or none when there is no such interface. */
  ghost predicate HasMac(t: map<Id, Interface>, mac: Text, r: Option<Id>) {
    if r.None? then Truthy(mac) ==> forall i :: !MacRow(t, i, mac.value)
    else Truthy(mac) && exists i :: MacRow(t, i, mac.value) && t[i].assetId == r.value
  }

  ghost predicate HasIp(t: map<Id, Interface>, ip: Text, r: Option<Id>) {
    if r.None? then Truthy(ip) ==> forall i :: !IpRow(t, i, ip.value)
    else Truthy(ip) && exists i :: NewestIpRow(t, i, ip.value) && t[i].assetId == r.value
  }

  /** The order of the lookups: the gateway's own MAC for a device at a gateway address, then the
      device's MAC, then its IP among the interfaces without a MAC, the one seen last first. */
  ghost predicate Located(t: map<Id, Interface>, d: Device, gatewayIps: set<string>, gatewayMac: Text, r: Option<Id>) {
    var first := if AtGateway(d, gatewayIps, gatewayMac) then gatewayMac else None;
    if !HasMac(t, first, None) then HasMac(t, first, r)
    else if !HasMac(t, d.mac, None) then HasMac(t, d.mac, r)
    else HasIp(t, d.ip, r)
  }

  predicate HoldsMac(t: map<Id, Interface>, i: Id, mac: Text) {
    i in t && t[i].mac == mac && mac != None && mac != Some("")
  }

  predicate HoldsIpAlone(t: map<Id, Interface>, i: Id, ip: Text) {
    i in t && t[i].ip == ip && t[i].mac == None && ip != None && ip != Some("")
  }

  ghost predicate OwnsMac(t: map<Id, Interface>, mac: Text, r: Option<Id>) {
    exists i :: HoldsMac(t, i, mac) && r == Some(t[i].assetId)
  }

  ghost predicate OwnsIp(t: map<Id, Interface>, ip: Text, r: Option<Id>) {
    exists i :: HoldsIpAlone(t, i, ip) && r == Some(t[i].assetId)
      && forall j :: HoldsIpAlone(t, j, ip) ==> t[j].lastSeen <= t[i].lastSeen
  }

  /** Where a device belongs: at an address of the gateway to an owner of the gateway's MAC; failing that
      to an owner of its own MAC; failing that to the owner of the interface that was seen last with its IP
      and no MAC; failing that nowhere. */
  ghost predicate FoundFor(t: map<Id, Interface>, d: Device, gatewayIps: set<string>, gatewayMac: Text, r: Option<Id>) {
    if d.ip.Some? && d.ip != Some("") && d.ip.value in gatewayIps && exists i :: HoldsMac(t, i, gatewayMac)
    then OwnsMac(t, gatewayMac, r)
    else if exists i :: HoldsMac(t, i, d.mac) then OwnsMac(t, d.mac, r)
    else if exists i :: HoldsIpAlone(t, i, d.ip) then OwnsIp(t, d.ip, r)
    else r == None
  }

  lemma MacMeaning(t: map<Id, Interface>, mac: Text, r: Option<Id>)
    ensures HasMac(t, mac, None) <==> !exists i :: HoldsMac(t, i, mac)
    ensures r.Some? && HasMac(t, mac, r) ==> OwnsMac(t, mac, r)
  {
    assert forall i :: HoldsMac(t, i, mac) <==> Truthy(mac) && MacRow(t, i, mac.value);
  }

  lemma IpMeaning(t: map<Id, Interface>, ip: Text, r: Option<Id>)
    requires HasIp(t, ip, r)
    ensures if r.Some? then OwnsIp(t, ip, r) else !exists i :: HoldsIpAlone(t, i, ip)
  {
    assert forall i :: HoldsIpAlone(t, i, ip) <==> Truthy(ip) && IpRow(t, i, ip.value);
  }

  lemma LocatedMeaning(t: map<Id, Interface>, d: Device, gatewayIps: set<string>, gatewayMac: Text, r: Option<Id>)
    requires Located(t, d, gatewayIps, gatewayMac, r)
    ensures FoundFor(t, d, gatewayIps, gatewayMac, r)
  {
    var first := if AtGateway(d, gatewayIps, gatewayMac) then gatewayMac else None;
    hide HasMac, HasIp;
    MacMeaning(t, first, r);
    MacMeaning(t, d.mac, r);
    if HasMac(t, first, None) && HasMac(t, d.mac, None) {
      IpMeaning(t, d.ip, r);
    }
  }

  lemma LocatedFinds(t: map<Id, Interface>, s: Shelf, d: Device, gatewayIps: set<string>, gatewayMac: Text,
                     r: Option<Id>)
    requires MacRowsAreCards(t, s.cards, d) && IpRowsAreCards(t, s.cards, d)
    requires Located(t, d, gatewayIps, gatewayMac, r) && !AtGateway(d, gatewayIps, gatewayMac)
    ensures Finds(s, d, r)
  {
    hide MacRowsAreCards, IpRowsAreCards, Finds, MacRow;
    if !HasMac(t, d.mac, None) {
      MacRowMatches(t, s, d, r.value);
    } else {
      IpRowMatches(t, s, d, r);
    }
  }

  method LocateAsset(session: Session, d: Device, gatewayIps: set<string>, gatewayMac: Text) returns (r: Option<Id>)
    requires WellFormed(session)
    ensures Located(session.interfaces, d, gatewayIps, gatewayMac, r)
    ensures FoundFor(session.interfaces, d, gatewayIps, gatewayMac, r)
    ensures r.Some? ==> r.value in session.assets
  {
    hide FoundFor;
    hide WellFormed, MacRow, IpRow, NewestIpRow;
    r := None;
    if AtGateway(d, gatewayIps, gatewayMac) {
      r := FindAssetByMac(session, gatewayMac.value);
    }
    if r.None? && Truthy(d.mac) {
      r := FindAssetByMac(session, d.mac.value);
    }
    if r.None? && Truthy(d.ip) {
      r := FindAssetByIp(session, d.ip.value);
    }
    LocatedMeaning(session.interfaces, d, gatewayIps, gatewayMac, r);
  }

  lemma FoundByMac(t: map<Id, Interface>, d: Device, gatewayIps: set<string>, gatewayMac: Text, found: Option<Id>)
    requires MacsApart(t) && Located(t, d, gatewayIps, gatewayMac, found) && !AtGateway(d, gatewayIps, gatewayMac)
    ensures MacAtHome(t, d, found)
  {
    hide NewestIpRow;
  }

  // ---- the three upserts ----

  method RefreshName(asset: Asset, d: Device, now: Time) returns (a: Asset)
    ensures a == asset.(lastSeen := now,
                        hostname := if Renames(asset, d) then d.hostname else asset.hostname,
                        hostnameSource := if Renames(asset, d) then Some(d.source) else asset.hostnameSource)
  {
    a := asset.(lastSeen := now);
    if !asset.hostnameLocked && Truthy(d.hostname)
       && Priority(Some(d.source)) >= Priority(asset.hostnameSource) {
      a := a.(hostname := d.hostname, hostnameSource := Some(d.source));
    }
  }

  method RefreshClass(asset: Asset, d: Device, env: Env) returns (a: Asset)
    ensures a == asset.(
      vendor := if asset.vendorLocked then asset.vendor else Or(d.vendor, asset.vendor),
      assetType := if asset.lifecycle == Discovered && Truthy(d.assetType) then d.assetType.value else asset.assetType,
      owner := if Truthy(asset.owner) then asset.owner else Some(env.ownerFor(asset.hostname)))
  {
    a := asset;
    if !a.vendorLocked && Truthy(d.vendor) {
      a := a.(vendor := d.vendor);
    }
    if a.lifecycle == Discovered && Truthy(d.assetType) {
      a := a.(assetType := d.assetType.value);
    }
    if !Truthy(a.owner) {
      a := a.(owner := Some(env.ownerFor(a.hostname)));
    }
  }

  // Filled, never blanked: a collector that stops reporting a value does not erase it.
  method RefreshIdentity(asset: Asset, d: Device) returns (a: Asset)
    ensures a == asset.(
      model := Or(d.model, asset.model),
      firmware := Or(d.firmware, asset.firmware),
      serial := if asset.identityLocked then asset.serial else Or(d.serial, asset.serial),
      modelNumber := if asset.identityLocked then asset.modelNumber else Or(d.modelNumber, asset.modelNumber),
      modelIdentifier := if asset.identityLocked then asset.modelIdentifier
                         else Or(d.modelIdentifier, asset.modelIdentifier))
  {
    var model, firmware := asset.model, asset.firmware;
    if Truthy(d.model) {
      model := d.model;
    }
    if Truthy(d.firmware) {
      firmware := d.firmware;
    }
    a := asset.(model := model, firmware := firmware);
    if !asset.identityLocked {
      var serial, number, identifier := asset.serial, asset.modelNumber, asset.modelIdentifier;
      if Truthy(d.serial) {
        serial := d.serial;
      }
      if Truthy(d.modelNumber) {
        number := d.modelNumber;
      }
      if Truthy(d.modelIdentifier) {
        identifier := d.modelIdentifier;
      }
      a := a.(serial := serial, modelNumber := number, modelIdentifier := identifier);
    }
  }

  method RefreshAsset(asset: Asset, d: Device, env: Env) returns (a: Asset)
    ensures a == UpdatedAsset(asset, d, env)
  {
    a := RefreshName(asset, d, env.now);
    a := RefreshClass(a, d, env);
    a := RefreshIdentity(a, d);
  }

  method UpsertAsset(session: Session, found: Option<Id>, d: Device, env: Env) returns (id: Id)
    requires WellFormed(session)
    requires found.Some? ==> found.value in session.assets
    modifies session`assets, session`nextAsset
    ensures WellFormed(session)
    ensures match found
      case Some(a) =>
        && id == a && session.nextAsset == old(session.nextAsset)
        && session.assets == old(session.assets)[a := UpdatedAsset(old(session.assets)[a], d, env)]
      case None =>
        && id == old(session.nextAsset) && session.nextAsset == id + 1
        && session.assets == old(session.assets)[id := NewAsset(d, env)]
  {
    if found.None? {
      id := session.nextAsset;
      session.nextAsset := session.nextAsset + 1;
      session.assets := session.assets[id := NewAsset(d, env)];
    } else {
      id := found.value;
      var asset := RefreshAsset(session.assets[id], d, env);
      session.assets := session.assets[id := asset];
    }
  }

  /** Row `i` was updated: the asset's row with the device's MAC, else its row with the device's IP,
      else a new one. */
  predicate InterfaceUpserted(t: map<Id, Interface>, u: map<Id, Interface>, a: Id, i: Id, d: Device, now: Time) {
    if i in t then
      && t[i].assetId == a
      && u == t[i := UpdatedInterface(t[i], d, now)]
      && (if exists j :: j in t && t[j].assetId == a && Truthy(d.mac) && t[j].mac == d.mac
          then t[i].mac == d.mac else Truthy(d.ip) && t[i].ip == d.ip)
    else
      && u == t[i := UpdatedInterface(BlankInterface(a), d, now)]
      && (forall j :: j in t && t[j].assetId == a && Truthy(d.mac) ==> t[j].mac != d.mac)
      && (forall j :: j in t && t[j].assetId == a && Truthy(d.ip) ==> t[j].ip != d.ip)
  }

  /** The asset's row with the device's MAC, else its row with the device's IP, else a new row. */
  method UpsertInterface(session: Session, a: Id, d: Device, now: Time) returns (i: Id)
    requires WellFormed(session) && a in session.assets
    modifies session`interfaces, session`nextInterface
    ensures WellFormed(session)
    ensures InterfaceUpserted(old(session.interfaces), session.interfaces, a, i, d, now)
    ensures InterfaceStamped(old(session.interfaces), session.interfaces, a, i, d, now)
  {
    hide InterfaceStamped;
    var t := session.interfaces;
    var row := BlankInterface(a);
    if j: Id :| j in t && t[j].assetId == a && Truthy(d.mac) && t[j].mac == d.mac {
      i, row := j, t[j];
    } else if j: Id :| j in t && t[j].assetId == a && Truthy(d.ip) && t[j].ip == d.ip {
      i, row := j, t[j];
    } else {
      i := session.nextInterface;
      session.nextInterface := session.nextInterface + 1;
    }
    session.interfaces := t[i := UpdatedInterface(row, d, now)];
    UpsertStamps(t, session.interfaces, a, i, d, now);
  }

  /** A recorded MAC is overwritten exactly when the asset has no interface with the reported MAC but one
      with the reported IP. */
  lemma MacOverwritten(t: map<Id, Interface>, u: map<Id, Interface>, a: Id, i: Id, d: Device, now: Time)
    requires InterfaceUpserted(t, u, a, i, d, now) && i in t && t[i].mac.Some?
    ensures u[i].mac != t[i].mac <==>
      Truthy(d.mac) && Truthy(d.ip) && t[i].ip == d.ip && forall j :: j in t && t[j].assetId == a ==> t[j].mac != d.mac
  {
    assert t[i].assetId == a;
  }

  /** So a report at a gateway address with a MAC of its own, here "bb", takes over the interface of the
      router "aa" on which it lands. */
  method GatewayCanOverwriteMac(session: Session, d: Device, now: Time)
    requires WellFormed(session) && d.mac == Some("bb") && d.ip == Some("10.0.0.1")
    requires session.interfaces == map[1 := Interface(7, Some("aa"), Some("10.0.0.1"), None, None, None, None, 0)]
    modifies session`interfaces, session`nextInterface
    ensures session.interfaces.Keys == {1}
    ensures session.interfaces[1].assetId == 7 && session.interfaces[1].mac == Some("bb")
  {
    assert MacRow(session.interfaces, 1, "aa");
    var found := LocateAsset(session, d, {"10.0.0.1"}, Some("aa"));
    assert found == Some(7);
    var i := UpsertInterface(session, found.value, d, now);
  }

  lemma RowPutKeepsUnique(t: map<Id, Service>, a: Id, v: Id, row: Service)
    requires UniquePorts(t) && row.assetId == a
    requires if v in t then t[v].assetId == a && RowPort(t[v]) == RowPort(row)
             else forall w :: w in t && t[w].assetId == a ==> RowPort(t[w]) != RowPort(row)
    ensures UniquePorts(t[v := row]) && OthersKept(t, t[v := row], a)
  {
  }

  method UpsertService(session: Session, a: Id, r: ServiceReport, now: Time, ghost m: map<Port, Service>)
    requires session.KeysBelowSequences() && UniquePorts(session.services)
    modifies session`services, session`nextService
    ensures session.KeysBelowSequences() && UniquePorts(session.services)
    ensures OthersKept(old(session.services), session.services, a)
    ensures ServiceRows(old(session.services), a, m) ==>
      ServiceRows(session.services, a, PutService(a, m, r, now))
  {
    var t, k := session.services, PortOf(r);
    var v: Id;
    var row := BlankService(a, k);
    if w: Id :| w in t && t[w].assetId == a && RowPort(t[w]) == k {
      v, row := w, t[w];
    } else {
      v := session.nextService;
      session.nextService := session.nextService + 1;
    }
    RowPutKeepsUnique(t, a, v, UpdatedService(row, r, now));
    hide UniquePorts, OthersKept, ServiceRows;
    session.services := t[v := UpdatedService(row, r, now)];
    if ServiceRows(t, a, m) {
      PutServiceRow(t, a, m, r, now, v);
    }
  }

  lemma PutServiceRow(t: map<Id, Service>, a: Id, m: map<Port, Service>, r: ServiceReport, now: Time, v: Id)
    requires ServiceRows(t, a, m) && UniquePorts(t)
    requires if v in t then t[v].assetId == a && RowPort(t[v]) == PortOf(r)
             else forall w :: w in t && t[w].assetId == a ==> RowPort(t[w]) != PortOf(r)
    ensures var row := if v in t then t[v] else BlankService(a, PortOf(r));
      ServiceRows(t[v := UpdatedService(row, r, now)], a, PutService(a, m, r, now))
  {
    var k := PortOf(r);
    var row := if v in t then t[v] else BlankService(a, k);
    var t', m' := t[v := UpdatedService(row, r, now)], PutService(a, m, r, now);
    forall l | l in m' ensures exists w :: w in t' && t'[w].assetId == a && RowPort(t'[w]) == l {
      if l == k {
        assert t'[v].assetId == a && RowPort(t'[v]) == k;
      } else {
        var w :| w in t && t[w].assetId == a && RowPort(t[w]) == l;
        assert t'[w] == t[w];
      }
    }
  }

  lemma NothingPut(t: map<Id, Service>, a: Id)
    ensures OthersKept(t, t, a)
  {
  }

  lemma StillOwned(t: map<Id, Service>, u: map<Id, Service>, assets: map<Id, Asset>, a: Id)
    requires OthersKept(t, u, a) && a in assets && forall v :: v in t ==> t[v].assetId in assets
    ensures forall v :: v in u ==> u[v].assetId in assets
  {
  }

  lemma OthersKeptTwice(t: map<Id, Service>, u: map<Id, Service>, v: map<Id, Service>, a: Id)
    requires OthersKept(t, u, a) && OthersKept(u, v, a)
    ensures OthersKept(t, v, a)
  {
  }

  // Rows of other assets stay as they are, and every row of before is still there.
  ghost predicate OthersKept(before: map<Id, Service>, after: map<Id, Service>, a: Id) {
    && before.Keys <= after.Keys
    && (forall v :: v in before ==> after[v].assetId == before[v].assetId && RowPort(after[v]) == RowPort(before[v]))
    && (forall v :: v in after ==>
          if v in before && before[v].assetId != a then after[v] == before[v] else after[v].assetId == a)
  }

  // The service rows of asset `a` by port.
  ghost function PortMap(t: map<Id, Service>, a: Id): map<Port, Service>
    requires UniquePorts(t)
  {
    map v | v in t && t[v].assetId == a :: RowPort(t[v]) := t[v]
  }

  lemma PortMapIsRows(t: map<Id, Service>, a: Id)
    requires UniquePorts(t)
    ensures ServiceRows(t, a, PortMap(t, a))
  {
  }

  lemma SameServices(t: map<Id, Service>, a: Id, m: map<Port, Service>, n: map<Port, Service>)
    requires ServiceRows(t, a, m) && ServiceRows(t, a, n)
    ensures m == n
  {
    assert m.Keys == n.Keys;
  }

  // Each report updated the asset's row of its port or became a new one; no other row changed.
  ghost predicate ServicesUpserted(t: map<Id, Service>, u: map<Id, Service>, a: Id, reports: seq<ServiceReport>,
                                   now: Time)
    requires UniquePorts(t)
  {
    OthersKept(t, u, a) && UniquePorts(u) && ServiceRows(u, a, PutServices(a, PortMap(t, a), reports, now))
  }

  method UpsertServices(session: Session, a: Id, reports: seq<ServiceReport>, now: Time)
    requires WellFormed(session) && a in session.assets
    modifies session`services, session`nextService
    ensures WellFormed(session)
    ensures ServicesUpserted(old(session.services), session.services, a, reports, now)
  {
    hide UniquePorts, OthersKept, ServiceRows, PutService, PortMap;
    ghost var m := PortMap(session.services, a);
    PortMapIsRows(session.services, a);
    NothingPut(session.services, a);
    for j := 0 to |reports|
      invariant session.KeysBelowSequences() && UniquePorts(session.services)
      invariant OthersKept(old(session.services), session.services, a)
      invariant ServiceRows(session.services, a, PutServices(a, m, reports[..j], now))
    {
      ghost var before := session.services;
      UpsertService(session, a, reports[j], now, PutServices(a, m, reports[..j], now));
      OthersKeptTwice(old(session.services), before, session.services, a);
      assert reports[..j + 1][..j] == reports[..j];
    }
    assert reports[..|reports|] == reports;
    StillOwned(old(session.services), session.services, session.assets, a);
  }

  // ---- one device, and the run ----

  lemma InterfaceRowsUpdate(t: map<Id, Interface>, i: Id, f: Interface, b: Id, g: Interface)
    requires InterfaceRows(t, b, g) && f.assetId != b && (i in t ==> t[i].assetId != b)
    ensures InterfaceRows(t[i := f], b, g)
  {
    var j :| j in t && t[j] == g;
    assert t[i := f][j] == g;
  }

  lemma ServiceRowsKept(t: map<Id, Service>, u: map<Id, Service>, a: Id, b: Id, m: map<Port, Service>)
    requires ServiceRows(t, b, m) && OthersKept(t, u, a) && a != b
    ensures ServiceRows(u, b, m)
  {
  }

  /** The row the upsert picks for the matched asset is its only row. */
  lemma OwnInterface(t: map<Id, Interface>, u: map<Id, Interface>, a: Id, own: Interface, d: Device, now: Time, i: Id)
    requires InterfaceRows(t, a, own) && InterfaceUpserted(t, u, a, i, d, now)
    requires (Truthy(d.mac) && own.mac == d.mac) || (Truthy(d.ip) && own.ip == d.ip)
    ensures InterfaceRows(u, a, UpdatedInterface(own, d, now))
  {
    var j :| j in t && t[j] == own;
    assert i in t && i == j;
    assert u[i].assetId == a;
  }

  lemma FirstInterface(t: map<Id, Interface>, u: map<Id, Interface>, a: Id, d: Device, now: Time, i: Id)
    requires InterfaceUpserted(t, u, a, i, d, now) && forall j :: j in t ==> t[j].assetId != a
    ensures InterfaceRows(u, a, UpdatedInterface(BlankInterface(a), d, now))
  {
    assert u[i].assetId == a;
  }

  /** The three upserts together do to the tables what a device does to its card. */
  lemma UpsertsRefined(assets: map<Id, Asset>, faces: map<Id, Interface>, rows: map<Id, Service>, cards: map<Id, Card>,
                       d: Device, env: Env, a: Id, i: Id, c: Card,
                       assets': map<Id, Asset>, faces': map<Id, Interface>, rows': map<Id, Service>)
    requires CardRows(assets, faces, rows, cards)
    requires forall j :: j in faces ==> faces[j].assetId in assets
    requires a in cards ==>
      (Truthy(d.mac) && cards[a].iface.mac == d.mac) || (Truthy(d.ip) && cards[a].iface.ip == d.ip)
    requires c == if a in cards then Touch(a, cards[a], d, env) else Create(a, d, env)
    requires assets' == assets[a := c.asset]
    requires InterfaceUpserted(faces, faces', a, i, d, env.now)
    requires OthersKept(rows, rows', a) && ServiceRows(rows', a, c.services)
    ensures CardRows(assets', faces', rows', cards[a := c])
  {
    forall b | b in assets' ensures AssetRows(assets', faces', rows', b, cards[a := c][b]) {
      if b != a {
        assert AssetRows(assets, faces, rows, b, cards[b]);
        InterfaceRowsUpdate(faces, i, faces'[i], b, cards[b].iface);
        ServiceRowsKept(rows, rows', a, b, cards[b].services);
      } else if a in assets {
        assert AssetRows(assets, faces, rows, a, cards[a]);
        OwnInterface(faces, faces', a, cards[a].iface, d, env.now, i);
      } else {
        FirstInterface(faces, faces', a, d, env.now, i);
      }
    }
  }

  /** What one device makes of the tables: the asset it was located at, or a new one, gets its columns,
      one interface row and its service rows upserted. */
  ghost predicate DeviceApplied(t: Inventory, u: Inventory, d: Device, env: Env, found: Option<Id>)
    requires UniquePorts(t.services)
  {
    var a := if found.Some? then found.value else t.next;
    && (found.Some? ==> a in t.assets)
    && u.next == t.next + (if found.Some? then 0 else 1)
    && u.assets == t.assets[a := if found.Some? then UpdatedAsset(t.assets[a], d, env) else NewAsset(d, env)]
    && (exists i :: InterfaceUpserted(t.interfaces, u.interfaces, a, i, d, env.now))
    && ServicesUpserted(t.services, u.services, a, d.services, env.now)
  }

  lemma UpsertedServices(t: map<Id, Service>, u: map<Id, Service>, a: Id, reports: seq<ServiceReport>, now: Time)
    requires UniquePorts(t) && ServicesUpserted(t, u, a, reports, now)
    ensures OthersKept(t, u, a) && ServiceRows(u, a, PutServices(a, PortMap(t, a), reports, now))
  {
    hide UniquePorts, PortMap, PutServices, ServiceRows, OthersKept;
  }

  lemma AllUpserted(t: Inventory, u: Inventory, d: Device, env: Env, found: Option<Id>, a: Id, i: Id)
    requires UniquePorts(t.services) && a == if found.Some? then found.value else t.next
    requires found.Some? ==> a in t.assets
    requires u.next == t.next + (if found.Some? then 0 else 1)
    requires u.assets == t.assets[a := if found.Some? then UpdatedAsset(t.assets[a], d, env) else NewAsset(d, env)]
    requires InterfaceUpserted(t.interfaces, u.interfaces, a, i, d, env.now)
    requires ServicesUpserted(t.services, u.services, a, d.services, env.now)
    ensures DeviceApplied(t, u, d, env, found)
  {
  }

  // Every row is of an asset that exists.
  ghost predicate Owned(t: Inventory) {
    && (forall i :: i in t.interfaces ==> t.interfaces[i].assetId in t.assets)
    && (forall v :: v in t.services ==> t.services[v].assetId in t.assets)
  }

  lemma CardServices(t: Inventory, cards: map<Id, Card>, a: Id)
    requires CardRows(t.assets, t.interfaces, t.services, cards) && Owned(t) && UniquePorts(t.services)
    ensures PortMap(t.services, a) == if a in cards then cards[a].services else map[]
  {
    hide InterfaceRows, ServiceRows, UniquePorts, PortMap;
    var m := if a in cards then cards[a].services else map[];
    NewCardRows(t.assets, t.interfaces, t.services, cards, a, m);
    PortMapIsRows(t.services, a);
    SameServices(t.services, a, m, PortMap(t.services, a));
  }

  lemma DeviceRefined(t: Inventory, u: Inventory, s: Shelf, d: Device, env: Env, found: Option<Id>)
    requires Tables(t.assets, t.interfaces, t.services, t.next, s) && Owned(t) && UniquePorts(t.services)
    requires Finds(s, d, found) && DeviceApplied(t, u, d, env, found)
    ensures Tables(u.assets, u.interfaces, u.services, u.next, Step(s, d, env))
  {
    hide InterfaceUpserted, OthersKept, ServiceRows, Finds, Step, Inv, UpdatedAsset, NewAsset, PutServices, AssetRows;
    hide PortMap, UniquePorts, UpdatedInterface, UpdatedService, CardRows, Owned;
    var a := if found.Some? then found.value else t.next;
    var i :| InterfaceUpserted(t.interfaces, u.interfaces, a, i, d, env.now);
    StepAt(s, d, env, found, a);
    CardAsset(t.assets, t.interfaces, t.services, s.cards, a);
    CardServices(t, s.cards, a);
    OwnedMeans(t);
    UpsertedServices(t.services, u.services, a, d.services, env.now);
    var c := if found.Some? then Touch(a, s.cards[a], d, env) else Create(a, d, env);
    UpsertsRefined(t.assets, t.interfaces, t.services, s.cards, d, env, a, i, c, u.assets, u.interfaces, u.services);
  }

  lemma OwnedMeans(t: Inventory)
    requires Owned(t)
    ensures forall i :: i in t.interfaces ==> t.interfaces[i].assetId in t.assets
    ensures forall v :: v in t.services ==> t.services[v].assetId in t.assets
  {
  }

  lemma CardAsset(assets: map<Id, Asset>, faces: map<Id, Interface>, rows: map<Id, Service>, cards: map<Id, Card>,
                  a: Id)
    requires CardRows(assets, faces, rows, cards)
    ensures a in cards ==> cards[a].asset == assets[a]
  {
    assert a in cards ==> AssetRows(assets, faces, rows, a, cards[a]);
  }

  lemma StepAt(s: Shelf, d: Device, env: Env, found: Option<Id>, a: Id)
    requires Inv(s) && Finds(s, d, found) && a == if found.Some? then found.value else s.next
    ensures Inv(Step(s, d, env)) && (a in s.cards <==> found.Some?)
    ensures a in s.cards ==>
      (Truthy(d.mac) && s.cards[a].iface.mac == d.mac) || (Truthy(d.ip) && s.cards[a].iface.ip == d.ip)
    ensures Step(s, d, env) == if found.Some? then Shelf(s.cards[a := Touch(a, s.cards[a], d, env)], s.next)
                               else Shelf(s.cards[a := Create(a, d, env)], s.next + 1)
  {
    if found.Some? {
      MatchIsUnique(s, d, a, Hit(s, d));
    }
    StepKeepsInv(s, d, env);
  }

  lemma OthersStay(t: map<Id, Service>, u: map<Id, Service>, a: Id, reports: seq<ServiceReport>, now: Time)
    requires UniquePorts(t) && ServicesUpserted(t, u, a, reports, now)
    ensures PortsStay(t, u)
  {
    hide UniquePorts, PortMap, PutServices, ServiceRows;
  }

  lemma AppliedStays(t: Inventory, u: Inventory, d: Device, env: Env, found: Option<Id>)
    requires UniquePorts(t.services) && DeviceApplied(t, u, d, env, found)
    ensures FacesStay(t.interfaces, u.interfaces) && PortsStay(t.services, u.services)
    ensures MacsApart(t.interfaces) && MacAtHome(t.interfaces, d, found) ==> MacsApart(u.interfaces)
    ensures OnlyNew(t.assets, t.next, u.assets, u.next)
  {
    hide InterfaceUpserted, FacesStay, PortsStay, MacsApart, MacAtHome, UniquePorts, ServicesUpserted;
    hide UpdatedAsset, NewAsset;
    var a := if found.Some? then found.value else t.next;
    var i :| InterfaceUpserted(t.interfaces, u.interfaces, a, i, d, env.now);
    UpsertedStays(t.interfaces, u.interfaces, a, i, d, env.now, found);
    OthersStay(t.services, u.services, a, d.services, env.now);
  }

  // The body of the loop once the asset is found or known to be new.
  method ApplyDevice(session: Session, d: Device, found: Option<Id>, env: Env)
    requires WellFormed(session)
    requires found.Some? ==> found.value in session.assets
    modifies session`assets, session`interfaces, session`services
    modifies session`nextAsset, session`nextInterface, session`nextService
    ensures WellFormed(session)
    ensures DeviceApplied(old(InventoryOf(session)), InventoryOf(session), d, env, found)
  {
    hide InterfaceUpserted, ServicesUpserted, UpdatedAsset, NewAsset, UniquePorts;
    var a := UpsertAsset(session, found, d, env);
    var i := UpsertInterface(session, a, d, env.now);
    UpsertServices(session, a, d.services, env.now);
    AllUpserted(old(InventoryOf(session)), InventoryOf(session), d, env, found, a, i);
  }

  /** One turn of the loop, whatever rows `.first()` picks and wherever the device is. */
  ghost predicate TurnTaken(t: Inventory, u: Inventory, d: Device, gatewayIps: set<string>, gatewayMac: Text, env: Env)
    requires UniquePorts(t.services)
  {
    exists found :: Located(t.interfaces, d, gatewayIps, gatewayMac, found) && DeviceApplied(t, u, d, env, found)
  }

  method ReconcileDevice(session: Session, d: Device, gatewayIps: set<string>, gatewayMac: Text, env: Env)
    returns (created: bool)
    requires WellFormed(session)
    modifies session`assets, session`interfaces, session`services
    modifies session`nextAsset, session`nextInterface, session`nextService
    ensures WellFormed(session)
    ensures session.nextAsset == old(session.nextAsset) + (if created then 1 else 0)
    ensures TurnTaken(old(InventoryOf(session)), InventoryOf(session), d, gatewayIps, gatewayMac, env)
  {
    hide WellFormed, Located, UpdatedAsset, NewAsset, InterfaceUpserted, ServicesUpserted;
    var found := LocateAsset(session, d, gatewayIps, gatewayMac);
    created := found.None?;
    ApplyDevice(session, d, found, env);
  }

  /** Where the tables are cards and the device is not at a gateway address, a turn is one step of the cards. */
  lemma TurnRefines(t: Inventory, u: Inventory, s: Shelf, d: Device, gatewayIps: set<string>, gatewayMac: Text,
                    env: Env)
    requires Tables(t.assets, t.interfaces, t.services, t.next, s) && Owned(t) && UniquePorts(t.services)
    requires TurnTaken(t, u, d, gatewayIps, gatewayMac, env) && !AtGateway(d, gatewayIps, gatewayMac)
    ensures Tables(u.assets, u.interfaces, u.services, u.next, Step(s, d, env))
  {
    hide CardRows, Inv, Step, Located, DeviceApplied, UniquePorts, MacRowsAreCards, IpRowsAreCards, Finds;
    var found :| Located(t.interfaces, d, gatewayIps, gatewayMac, found) && DeviceApplied(t, u, d, env, found);
    RowsAreCards(t.assets, t.interfaces, t.services, s.cards, d);
    LocatedFinds(t.interfaces, s, d, gatewayIps, gatewayMac, found);
    DeviceRefined(t, u, s, d, env, found);
  }

  lemma TurnStays(t: Inventory, u: Inventory, d: Device, gatewayIps: set<string>, gatewayMac: Text, env: Env)
    requires UniquePorts(t.services) && TurnTaken(t, u, d, gatewayIps, gatewayMac, env)
    ensures FacesStay(t.interfaces, u.interfaces) && PortsStay(t.services, u.services)
    ensures MacsApart(t.interfaces) && !AtGateway(d, gatewayIps, gatewayMac) ==> MacsApart(u.interfaces)
    ensures OnlyNew(t.assets, t.next, u.assets, u.next)
  {
    hide Located, DeviceApplied, UniquePorts, FacesStay, PortsStay, MacsApart, MacAtHome, AtGateway, OnlyNew;
    var found :| Located(t.interfaces, d, gatewayIps, gatewayMac, found) && DeviceApplied(t, u, d, env, found);
    if MacsApart(t.interfaces) && !AtGateway(d, gatewayIps, gatewayMac) {
      FoundByMac(t.interfaces, d, gatewayIps, gatewayMac, found);
    }
    AppliedStays(t, u, d, env, found);
  }

  // ---- the stamps, and the columns that discovery never touches ----

  // A report of the port; a report without a protocol is one of TCP.
  predicate Reports(r: ServiceReport, port: int, protocol: string) {
    r.port == port && match r.protocol case None => protocol == "tcp" case Some(p) => protocol == p
  }

  ghost predicate Reported(rs: seq<ServiceReport>, port: int, protocol: string) {
    exists i :: 0 <= i < |rs| && Reports(rs[i], port, protocol)
  }

  lemma ReportedSnoc(rs: seq<ServiceReport>, port: int, protocol: string)
    requires rs != []
    ensures Reported(rs, port, protocol) <==>
      Reported(rs[..|rs| - 1], port, protocol) || PortOf(rs[|rs| - 1]) == (port, protocol)
  {
    if Reported(rs[..|rs| - 1], port, protocol) {
      var i :| 0 <= i < |rs| - 1 && Reports(rs[..|rs| - 1][i], port, protocol);
      assert Reports(rs[i], port, protocol);
    }
    assert PortOf(rs[|rs| - 1]) == (port, protocol) <==> Reports(rs[|rs| - 1], port, protocol);
  }

  lemma {:induction false} PutStamps(a: Id, m: map<Port, Service>, rs: seq<ServiceReport>, now: Time, k: Port)
    ensures var n := PutServices(a, m, rs, now);
      && (k in n <==> k in m || Reported(rs, k.0, k.1))
      && (k in n ==> if Reported(rs, k.0, k.1) then n[k].lastSeen == now else k in m && n[k] == m[k])
  {
    if rs != [] {
      ReportedSnoc(rs, k.0, k.1);
      PutStamps(a, m, rs[..|rs| - 1], now, k);
    }
  }

  /** The reported services of the asset are stamped, each has a row, and every other row is as it was. */
  ghost predicate ServicesStamped(t: map<Id, Service>, u: map<Id, Service>, a: Id, rs: seq<ServiceReport>, now: Time) {
    && t.Keys <= u.Keys
    && (forall v :: v in u ==> ServiceStamped(t, u, a, rs, now, v))
    && (forall i :: 0 <= i < |rs| ==> HasRow(u, a, rs[i]))
  }

  ghost predicate ServiceStamped(t: map<Id, Service>, u: map<Id, Service>, a: Id, rs: seq<ServiceReport>, now: Time,
                                 v: Id)
    requires v in u
  {
    if u[v].assetId == a && Reported(rs, u[v].port, u[v].protocol) then u[v].lastSeen == now
    else v in t && u[v] == t[v]
  }

  ghost predicate HasRow(u: map<Id, Service>, a: Id, r: ServiceReport) {
    exists v :: v in u && u[v].assetId == a && Reports(r, u[v].port, u[v].protocol)
  }

  lemma OneServiceStamped(t: map<Id, Service>, u: map<Id, Service>, a: Id, rs: seq<ServiceReport>, now: Time, v: Id)
    requires UniquePorts(t) && UniquePorts(u) && OthersKept(t, u, a) && v in u
    requires ServiceRows(u, a, PutServices(a, PortMap(t, a), rs, now))
    ensures ServiceStamped(t, u, a, rs, now, v)
  {
    hide PutServices, Reported;
    if u[v].assetId == a {
      var k := RowPort(u[v]);
      PutStamps(a, PortMap(t, a), rs, now, k);
      assert PutServices(a, PortMap(t, a), rs, now)[k] == u[v];
      if !Reported(rs, k.0, k.1) {
        OwnPort(t, u, a, v);
      }
    }
  }

  lemma OwnPort(t: map<Id, Service>, u: map<Id, Service>, a: Id, v: Id)
    requires UniquePorts(t) && UniquePorts(u) && OthersKept(t, u, a) && v in u && u[v].assetId == a
    requires RowPort(u[v]) in PortMap(t, a) && PortMap(t, a)[RowPort(u[v])] == u[v]
    ensures v in t && t[v] == u[v]
  {
    var w :| w in t && t[w].assetId == a && RowPort(t[w]) == RowPort(u[v]);
    assert w in u && u[w].assetId == a && RowPort(u[w]) == RowPort(u[v]);
  }

  lemma ReportHasRow(u: map<Id, Service>, a: Id, m: map<Port, Service>, rs: seq<ServiceReport>, now: Time, i: nat)
    requires ServiceRows(u, a, PutServices(a, m, rs, now)) && i < |rs|
    ensures HasRow(u, a, rs[i])
  {
    hide PutServices, Reported;
    var k := PortOf(rs[i]);
    ReportIsReported(rs, i, k);
    PutStamps(a, m, rs, now, k);
    var v :| v in u && u[v].assetId == a && RowPort(u[v]) == k;
    assert Reports(rs[i], u[v].port, u[v].protocol);
  }

  lemma UpsertedStamps(t: map<Id, Service>, u: map<Id, Service>, a: Id, rs: seq<ServiceReport>, now: Time)
    requires UniquePorts(t) && ServicesUpserted(t, u, a, rs, now)
    ensures ServicesStamped(t, u, a, rs, now)
  {
    hide PortMap, PutServices, ServiceStamped, HasRow, UniquePorts, OthersKept, ServiceRows, ServicesUpserted;
    WhatIsUpserted(t, u, a, rs, now);
    forall v | v in u ensures ServiceStamped(t, u, a, rs, now, v) {
      OneServiceStamped(t, u, a, rs, now, v);
    }
    forall i | 0 <= i < |rs| ensures HasRow(u, a, rs[i]) {
      ReportHasRow(u, a, PortMap(t, a), rs, now, i);
    }
  }

  lemma WhatIsUpserted(t: map<Id, Service>, u: map<Id, Service>, a: Id, rs: seq<ServiceReport>, now: Time)
    requires UniquePorts(t) && ServicesUpserted(t, u, a, rs, now)
    ensures OthersKept(t, u, a) && UniquePorts(u) && t.Keys <= u.Keys
    ensures ServiceRows(u, a, PutServices(a, PortMap(t, a), rs, now))
  {
    hide PortMap, PutServices, ServiceRows;
  }

  lemma ReportIsReported(rs: seq<ServiceReport>, i: nat, k: Port)
    requires i < |rs| && k == PortOf(rs[i])
    ensures Reported(rs, k.0, k.1) && Reports(rs[i], k.0, k.1)
  {
  }

  // What a run leaves alone of an asset it knows.
  predicate HandsOff(x: Asset, y: Asset) {
    && y.firstSeen == x.firstSeen && y.lifecycle == x.lifecycle && y.internetFacing == x.internetFacing
    && y.source == x.source && y.hostnameLocked == x.hostnameLocked && y.vendorLocked == x.vendorLocked
    && y.identityLocked == x.identityLocked
  }

  // A column that a report fills and never blanks.
  predicate Filled(x: Text, reported: Text, y: Text) {
    y == if reported == None || reported == Some("") then x else reported
  }

  // A better name is taken, a missing owner is looked up under it, and what is locked or triaged stays.
  predicate Refreshed(x: Asset, y: Asset, d: Device, env: Env) {
    && (if !x.hostnameLocked && d.hostname != None && d.hostname != Some("")
           && Priority(Some(d.source)) >= Priority(x.hostnameSource)
        then y.hostname == d.hostname && y.hostnameSource == Some(d.source)
        else y.hostname == x.hostname && y.hostnameSource == x.hostnameSource)
    && y.owner == (if x.owner == None || x.owner == Some("") then Some(env.ownerFor(y.hostname)) else x.owner)
    && (if x.vendorLocked then y.vendor == x.vendor else Filled(x.vendor, d.vendor, y.vendor))
    && (if x.lifecycle == Discovered then Filled(Some(x.assetType), d.assetType, Some(y.assetType))
        else y.assetType == x.assetType)
    && Filled(x.model, d.model, y.model) && Filled(x.firmware, d.firmware, y.firmware)
    && (if x.identityLocked
        then y.serial == x.serial && y.modelNumber == x.modelNumber && y.modelIdentifier == x.modelIdentifier
        else Filled(x.serial, d.serial, y.serial) && Filled(x.modelNumber, d.modelNumber, y.modelNumber)
             && Filled(x.modelIdentifier, d.modelIdentifier, y.modelIdentifier))
  }

  // How discovery files a device it does not know: unlocked, awaiting triage, not internet-facing, under
  // the owner its name gives.
  predicate FiledNew(y: Asset, d: Device, env: Env) {
    && y.firstSeen == env.now && y.lifecycle == Discovered && !y.internetFacing && y.source == Some(d.source)
    && !y.hostnameLocked && !y.vendorLocked && !y.identityLocked
    && Filled(Some("end_user_device"), d.assetType, Some(y.assetType))
    && y.hostname == d.hostname
    && y.hostnameSource == (if d.hostname == None || d.hostname == Some("") then None else Some(d.source))
    && y.owner == Some(env.ownerFor(d.hostname))
    && y.vendor == d.vendor && y.model == d.model && y.firmware == d.firmware && y.serial == d.serial
    && y.modelNumber == d.modelNumber && y.modelIdentifier == d.modelIdentifier
  }

  /** The device landed on asset `a`: the asset, one interface of it and its reported services carry the time
      of the run; every other row of the three tables is as it was. */
  ghost predicate LandedOn(t: Inventory, u: Inventory, d: Device, env: Env, a: Id) {
    && a in u.assets && u.assets[a].lastSeen == env.now
    && (if a in t.assets
        then HandsOff(t.assets[a], u.assets[a]) && Refreshed(t.assets[a], u.assets[a], d, env)
        else a == t.next && FiledNew(u.assets[a], d, env))
    && (forall b :: b in u.assets && b != a ==> b in t.assets && u.assets[b] == t.assets[b])
    && t.assets.Keys <= u.assets.Keys
    && (exists i :: InterfaceStamped(t.interfaces, u.interfaces, a, i, d, env.now))
    && ServicesStamped(t.services, u.services, a, d.services, env.now)
  }

  ghost predicate InterfaceStamped(t: map<Id, Interface>, u: map<Id, Interface>, a: Id, i: Id, d: Device, now: Time) {
    && i in u && u[i].assetId == a && u[i].lastSeen == now && (i in t ==> t[i].assetId == a)
    && InterfaceFilled(if i in t then t[i] else Interface(a, None, None, None, None, None, None, 0), u[i], d)
    && t.Keys <= u.Keys && forall j :: j in u && j != i ==> j in t && u[j] == t[j]
  }

  predicate InterfaceFilled(x: Interface, y: Interface, d: Device) {
    && Filled(x.mac, d.mac, y.mac) && Filled(x.ip, d.ip, y.ip) && Filled(x.networkName, d.networkName, y.networkName)
    && Filled(x.connectionType, d.connectionType, y.connectionType) && Filled(x.vendor, d.vendor, y.vendor)
    && y.vlan == if d.vlan == None then x.vlan else d.vlan
  }

  lemma UpsertStamps(t: map<Id, Interface>, u: map<Id, Interface>, a: Id, i: Id, d: Device, now: Time)
    requires InterfaceUpserted(t, u, a, i, d, now)
    ensures InterfaceStamped(t, u, a, i, d, now)
  {
  }

  lemma AppliedLands(t: Inventory, u: Inventory, d: Device, env: Env, found: Option<Id>)
    requires UniquePorts(t.services) && DeviceApplied(t, u, d, env, found) && t.next !in t.assets
    ensures LandedOn(t, u, d, env, if found.Some? then found.value else t.next)
  {
    hide InterfaceUpserted, ServicesUpserted, UniquePorts, ServicesStamped, InterfaceStamped, Priority;
    var a := if found.Some? then found.value else t.next;
    var i :| InterfaceUpserted(t.interfaces, u.interfaces, a, i, d, env.now);
    UpsertStamps(t.interfaces, u.interfaces, a, i, d, env.now);
    UpsertedStamps(t.services, u.services, a, d.services, env.now);
  }

  // The device landed on the asset that the lookups find, or on a new one.
  ghost predicate Landed(t: Inventory, u: Inventory, d: Device, gatewayIps: set<string>, gatewayMac: Text, env: Env,
                         a: Id)
  {
    && LandedOn(t, u, d, env, a)
    && exists found: Option<Id> ::
         FoundFor(t.interfaces, d, gatewayIps, gatewayMac, found) && a == if found.Some? then found.value else t.next
  }

  /** Each turn lands on the asset that the lookups find, or on a new one. */
  lemma TurnLands(t: Inventory, u: Inventory, d: Device, gatewayIps: set<string>, gatewayMac: Text, env: Env)
    returns (a: Id)
    requires UniquePorts(t.services) && t.next !in t.assets
    requires TurnTaken(t, u, d, gatewayIps, gatewayMac, env)
    ensures LandedOn(t, u, d, env, a) && Landed(t, u, d, gatewayIps, gatewayMac, env, a)
  {
    hide Located, FoundFor, DeviceApplied, UniquePorts, LandedOn;
    var found: Option<Id> :|
      Located(t.interfaces, d, gatewayIps, gatewayMac, found) && DeviceApplied(t, u, d, env, found);
    a := if found.Some? then found.value else t.next;
    LocatedMeaning(t.interfaces, d, gatewayIps, gatewayMac, found);
    AppliedLands(t, u, d, env, found);
  }

  // Where the devices of a run landed, one after the other.
  ghost predicate Landings(ts: seq<Inventory>, devices: seq<Device>, gatewayIps: set<string>, gatewayMac: Text,
                           env: Env, lands: seq<Id>, n: nat)
    requires n <= |devices| && n < |ts|
  {
    |lands| == n
    && forall k :: 0 <= k < n ==> Landed(ts[k], ts[k + 1], devices[k], gatewayIps, gatewayMac, env, lands[k])
  }

  // An asset known before is stamped if a device landed on it, and otherwise as it was.
  ghost predicate StampedBy(t: Inventory, u: Inventory, now: Time, lands: seq<Id>) {
    && (forall a :: a in t.assets ==>
          a in u.assets && HandsOff(t.assets[a], u.assets[a])
          && if a in lands then u.assets[a].lastSeen == now else u.assets[a] == t.assets[a])
    && (forall a :: a in u.assets && a !in t.assets ==>
          a in lands && u.assets[a].lastSeen == now && u.assets[a].firstSeen == now)
  }

  lemma OneMoreStamped(t: Inventory, t1: Inventory, t2: Inventory, d: Device, env: Env, lands: seq<Id>, a: Id)
    requires StampedBy(t, t1, env.now, lands) && LandedOn(t1, t2, d, env, a)
    ensures StampedBy(t, t2, env.now, lands + [a])
  {
    hide InterfaceStamped, ServicesStamped, Refreshed;
  }

  /** What a run stamps: an asset that was there before carries the time of the run afterwards exactly when a
      device landed on it, and is untouched otherwise; a new asset carries it in both of its dates. */
  lemma {:induction false} RunStamps(ts: seq<Inventory>, devices: seq<Device>, gatewayIps: set<string>,
                                     gatewayMac: Text, env: Env, n: nat)
    returns (lands: seq<Id>)
    requires TurnsTaken(ts, devices, gatewayIps, gatewayMac, env) && n <= |devices| < |ts|
    requires Below(ts[0].assets, ts[0].next)
    ensures Landings(ts, devices, gatewayIps, gatewayMac, env, lands, n)
    ensures StampedBy(ts[0], ts[n], env.now, lands)
  {
    hide *;
    lands := [];
    NoneLanded(ts, devices, gatewayIps, gatewayMac, env);
    if n > 0 {
      lands := RunStamps(ts, devices, gatewayIps, gatewayMac, env, n - 1);
      TurnAt(ts, devices, gatewayIps, gatewayMac, env, n - 1);
      TurnsStay(ts, devices, gatewayIps, gatewayMac, env, n - 1);
      NextIsFree(ts[0], ts[n - 1]);
      var a := TurnLands(ts[n - 1], ts[n], devices[n - 1], gatewayIps, gatewayMac, env);
      OneMoreStamped(ts[0], ts[n - 1], ts[n], devices[n - 1], env, lands, a);
      OneMoreLanded(ts, devices, gatewayIps, gatewayMac, env, lands, n - 1, a);
      lands := lands + [a];
    }
  }

  lemma NoneLanded(ts: seq<Inventory>, devices: seq<Device>, gatewayIps: set<string>, gatewayMac: Text, env: Env)
    requires ts != []
    ensures Landings(ts, devices, gatewayIps, gatewayMac, env, [], 0) && StampedBy(ts[0], ts[0], env.now, [])
  {
  }

  lemma OneMoreLanded(ts: seq<Inventory>, devices: seq<Device>, gatewayIps: set<string>, gatewayMac: Text, env: Env,
                      lands: seq<Id>, n: nat, a: Id)
    requires n < |devices| && n + 1 < |ts| && Landings(ts, devices, gatewayIps, gatewayMac, env, lands, n)
    requires Landed(ts[n], ts[n + 1], devices[n], gatewayIps, gatewayMac, env, a)
    ensures Landings(ts, devices, gatewayIps, gatewayMac, env, lands + [a], n + 1)
  {
    hide Landed;
  }

  lemma NextIsFree(t: Inventory, u: Inventory)
    requires OnlyNew(t.assets, t.next, u.assets, u.next) && Below(t.assets, t.next)
    ensures u.next !in u.assets
  {
  }

  lemma NewCardRows(assets: map<Id, Asset>, faces: map<Id, Interface>, rows: map<Id, Service>, cards: map<Id, Card>,
                    a: Id, m: map<Port, Service>)
    requires CardRows(assets, faces, rows, cards)
    requires forall v :: v in rows ==> rows[v].assetId in assets
    requires m == if a in cards then cards[a].services else map[]
    ensures ServiceRows(rows, a, m)
  {
  }

  // The new assets are those with the keys from `next` up to `next'`.
  ghost predicate OnlyNew(assets: map<Id, Asset>, next: Id, assets': map<Id, Asset>, next': Id) {
    next <= next' && forall a :: a in assets' <==> a in assets || next <= a < next'
  }

  lemma NothingMoved(assets: map<Id, Asset>, next: Id, t: map<Id, Interface>, u: map<Id, Service>)
    ensures OnlyNew(assets, next, assets, next) && FacesStay(t, t) && PortsStay(u, u)
  {
  }

  lemma OnlyNewTwice(t: map<Id, Asset>, m: Id, t1: map<Id, Asset>, m1: Id, t2: map<Id, Asset>, m2: Id)
    requires OnlyNew(t, m, t1, m1) && OnlyNew(t1, m1, t2, m2)
    ensures OnlyNew(t, m, t2, m2)
  {
  }

  // No device reports an address of the gateway itself.
  ghost predicate NoneAtGateway(devices: seq<Device>, gatewayIps: set<string>, gatewayMac: Text) {
    forall d :: d in devices ==> !AtGateway(d, gatewayIps, gatewayMac)
  }

  lemma NotAtGateway(devices: seq<Device>, n: nat, gatewayIps: set<string>, gatewayMac: Text)
    requires n < |devices|
    ensures NoneAtGateway(devices, gatewayIps, gatewayMac) ==> !AtGateway(devices[n], gatewayIps, gatewayMac)
  {
  }

  lemma RunToNext(s: Shelf, devices: seq<Device>, env: Env, n: nat)
    requires n < |devices|
    ensures Run(s, devices[..n + 1], env) == Step(Run(s, devices[..n], env), devices[n], env)
  {
    assert devices[..n + 1][..n] == devices[..n];
  }

  lemma RunToNone(s: Shelf, devices: seq<Device>, env: Env)
    ensures Run(s, devices[..0], env) == s
    ensures Run(s, devices[..|devices|], env) == Run(s, devices, env)
  {
    assert devices[..|devices|] == devices;
  }

  /** The tables between the turns of the loop, from before the first device to after the last. */
  ghost predicate TurnsTaken(ts: seq<Inventory>, devices: seq<Device>, gatewayIps: set<string>, gatewayMac: Text,
                             env: Env)
  {
    && |ts| == |devices| + 1
    && (forall k :: 0 <= k < |ts| ==> UniquePorts(ts[k].services) && Owned(ts[k]))
    && (forall k :: 0 <= k < |devices| ==> TurnTaken(ts[k], ts[k + 1], devices[k], gatewayIps, gatewayMac, env))
  }

  lemma NoTurnYet(t: Inventory, devices: seq<Device>, gatewayIps: set<string>, gatewayMac: Text, env: Env)
    requires UniquePorts(t.services) && Owned(t)
    ensures TurnsTaken([t], devices[..0], gatewayIps, gatewayMac, env)
  {
    hide UniquePorts, Owned, TurnTaken;
  }

  lemma OneMoreTurn(ts: seq<Inventory>, u: Inventory, devices: seq<Device>, n: nat, gatewayIps: set<string>,
                    gatewayMac: Text, env: Env)
    requires n < |devices| && TurnsTaken(ts, devices[..n], gatewayIps, gatewayMac, env)
    requires UniquePorts(u.services) && Owned(u)
    requires |ts| > n && UniquePorts(ts[n].services) && TurnTaken(ts[n], u, devices[n], gatewayIps, gatewayMac, env)
    ensures TurnsTaken(ts + [u], devices[..n + 1], gatewayIps, gatewayMac, env)
  {
    hide UniquePorts, Owned, TurnTaken;
  }

  lemma TurnAt(ts: seq<Inventory>, devices: seq<Device>, gatewayIps: set<string>, gatewayMac: Text, env: Env, n: nat)
    requires TurnsTaken(ts, devices, gatewayIps, gatewayMac, env) && n < |devices|
    ensures |ts| == |devices| + 1 && Owned(ts[n]) && UniquePorts(ts[n].services)
    ensures TurnTaken(ts[n], ts[n + 1], devices[n], gatewayIps, gatewayMac, env)
  {
    hide UniquePorts, Owned, TurnTaken;
  }

  /** Away from the gateway, tables that are cards go through the run of those cards. */
  lemma {:induction false} TurnsRefine(ts: seq<Inventory>, s: Shelf, devices: seq<Device>, gatewayIps: set<string>,
                                       gatewayMac: Text, env: Env, n: nat)
    requires TurnsTaken(ts, devices, gatewayIps, gatewayMac, env) && n <= |devices| < |ts|
    requires NoneAtGateway(devices, gatewayIps, gatewayMac)
    requires Tables(ts[0].assets, ts[0].interfaces, ts[0].services, ts[0].next, s)
    ensures Tables(ts[n].assets, ts[n].interfaces, ts[n].services, ts[n].next, Run(s, devices[..n], env))
  {
    hide *;
    if n == 0 {
      RunToNone(s, devices, env);
    } else {
      TurnsRefine(ts, s, devices, gatewayIps, gatewayMac, env, n - 1);
      TurnAt(ts, devices, gatewayIps, gatewayMac, env, n - 1);
      RunToNext(s, devices, env, n - 1);
      NotAtGateway(devices, n - 1, gatewayIps, gatewayMac);
      TurnRefines(ts[n - 1], ts[n], Run(s, devices[..n - 1], env), devices[n - 1], gatewayIps, gatewayMac, env);
    }
  }

  /** No row is lost or changes its owner or port, and away from the gateway no MAC comes to two assets. */
  lemma {:induction false} TurnsStay(ts: seq<Inventory>, devices: seq<Device>, gatewayIps: set<string>,
                                     gatewayMac: Text, env: Env, n: nat)
    requires TurnsTaken(ts, devices, gatewayIps, gatewayMac, env) && n <= |devices| < |ts|
    ensures FacesStay(ts[0].interfaces, ts[n].interfaces) && PortsStay(ts[0].services, ts[n].services)
    ensures OnlyNew(ts[0].assets, ts[0].next, ts[n].assets, ts[n].next)
    ensures MacsApart(ts[0].interfaces) && NoneAtGateway(devices, gatewayIps, gatewayMac) ==>
      MacsApart(ts[n].interfaces)
  {
    hide *;
    if n == 0 {
      NothingMoved(ts[0].assets, ts[0].next, ts[0].interfaces, ts[0].services);
    } else {
      var t, t1, t2 := ts[0], ts[n - 1], ts[n];
      TurnsStay(ts, devices, gatewayIps, gatewayMac, env, n - 1);
      TurnAt(ts, devices, gatewayIps, gatewayMac, env, n - 1);
      NotAtGateway(devices, n - 1, gatewayIps, gatewayMac);
      TurnStays(t1, t2, devices[n - 1], gatewayIps, gatewayMac, env);
      OnlyNewTwice(t.assets, t.next, t1.assets, t1.next, t2.assets, t2.next);
      RowsStayTwice(t.interfaces, t1.interfaces, t2.interfaces, t.services, t1.services, t2.services);
    }
  }

  lemma WhatIsWellFormed(session: Session)
    requires WellFormed(session)
    ensures UniquePorts(session.services) && Owned(InventoryOf(session))
    ensures InventoryOf(session).services == session.services
  {
    hide UniquePorts;
  }

  /** `reconcile_into_db`.  `env.now` is the clock, read once. */
  method ReconcileIntoDb(session: Session, devices: seq<Device>, gatewayIps: set<string>, gatewayMac: Text, env: Env)
    returns (created: nat, updated: nat, total: nat, ghost ts: seq<Inventory>)
    requires WellFormed(session)
    modifies session`assets, session`interfaces, session`services
    modifies session`nextAsset, session`nextInterface, session`nextService
    ensures WellFormed(session)
    ensures total == |devices| && created + updated == total
    ensures session.nextAsset == old(session.nextAsset) + created
    ensures TurnsTaken(ts, devices, gatewayIps, gatewayMac, env) && |ts| == |devices| + 1
    ensures ts[0] == old(InventoryOf(session)) && ts[|devices|] == InventoryOf(session)
  {
    hide *;
    created, updated, total := 0, 0, |devices|;
    ts := [InventoryOf(session)];
    WhatIsWellFormed(session);
    NoTurnYet(InventoryOf(session), devices, gatewayIps, gatewayMac, env);
    assert devices[..|devices|] == devices;
    for n := 0 to |devices|
      invariant WellFormed(session) && |ts| == n + 1
      invariant created + updated == n && session.nextAsset == old(session.nextAsset) + created
      invariant TurnsTaken(ts, devices[..n], gatewayIps, gatewayMac, env)
      invariant ts[0] == old(InventoryOf(session)) && ts[n] == InventoryOf(session)
    {
      WhatIsWellFormed(session);
      var isNew := ReconcileDevice(session, devices[n], gatewayIps, gatewayMac, env);
      WhatIsWellFormed(session);
      OneMoreTurn(ts, InventoryOf(session), devices, n, gatewayIps, gatewayMac, env);
      ts := ts + [InventoryOf(session)];
      if isNew {
        created := created + 1;
      } else {
        updated := updated + 1;
      }
    }
  }

  /** An empty database is the empty shelf. */
  lemma EmptyTables(session: Session)
    requires session.assets == map[] && session.interfaces == map[] && session.services == map[]
    ensures Represents(session, Shelf(map[], session.nextAsset))
  {
  }

  lemma OneCardPerRow(session: Session, s: Shelf, i: Id, j: Id)
    requires WellFormed(session) && Represents(session, s)
    requires i in session.interfaces && j in session.interfaces && i != j
    ensures session.interfaces[i].assetId != session.interfaces[j].assetId
    ensures session.interfaces[i].mac.Some? ==> session.interfaces[i].mac != session.interfaces[j].mac
    ensures session.interfaces[i].mac == None && session.interfaces[j].mac == None && session.interfaces[i].ip.Some? ==>
      session.interfaces[i].ip != session.interfaces[j].ip
  {
    var t, a := session.interfaces, session.interfaces[i].assetId;
    assert AssetRows(session.assets, t, session.services, a, s.cards[a]);
    assert InterfaceRows(t, a, s.cards[a].iface);
    hide CardRows, AssetRows, InterfaceRows;
    RowIsCard(session.assets, t, session.services, s.cards, i);
    RowIsCard(session.assets, t, session.services, s.cards, j);
  }

  /** What the cards say of the tables: each asset has exactly one interface, no MAC is on two
      interfaces, and no two interfaces without a MAC share an IP. */
  lemma CardsMeanTables(session: Session, s: Shelf)
    requires WellFormed(session) && Represents(session, s)
    ensures var t := session.interfaces;
      && (forall a :: a in session.assets ==> exists i :: i in t && t[i].assetId == a)
      && (forall i, j :: i in t && j in t && t[i].assetId == t[j].assetId ==> i == j)
      && (forall i, j :: i in t && j in t && i != j && t[i].mac.Some? ==> t[i].mac != t[j].mac)
      && (forall i, j :: i in t && j in t && i != j && t[i].mac == None && t[j].mac == None && t[i].ip.Some? ==>
            t[i].ip != t[j].ip)
  {
    var t := session.interfaces;
    forall a | a in session.assets ensures exists i :: i in t && t[i].assetId == a {
      var i := CardHasRow(session.assets, t, session.services, s.cards, a);
      assert AssetRows(session.assets, t, session.services, a, s.cards[a]);
    }
    hide *;
    forall i, j | i in t && j in t && i != j
      ensures t[i].assetId != t[j].assetId
      ensures t[i].mac.Some? ==> t[i].mac != t[j].mac
      ensures t[i].mac == None && t[j].mac == None && t[i].ip.Some? ==> t[i].ip != t[j].ip
    {
      OneCardPerRow(session, s, i, j);
    }
  }

  lemma BatchesToNext(s: Shelf, batches: seq<Batch>, n: nat)
    requires n < |batches|
    ensures RunBatches(s, batches[..n + 1]) == Run(RunBatches(s, batches[..n]), batches[n].devices, batches[n].env)
  {
    assert batches[..n + 1][..n] == batches[..n];
  }

  lemma BatchesToNone(s: Shelf, batches: seq<Batch>)
    ensures RunBatches(s, batches[..0]) == s && RunBatches(s, batches[..|batches|]) == RunBatches(s, batches)
  {
    assert batches[..|batches|] == batches;
  }

  /** Any number of runs without a gateway, over tables that are cards. */
  method ReconcileAll(session: Session, batches: seq<Batch>, ghost s: Shelf)
    requires WellFormed(session) && Represents(session, s)
    modifies session`assets, session`interfaces, session`services
    modifies session`nextAsset, session`nextInterface, session`nextService
    ensures WellFormed(session) && Represents(session, RunBatches(s, batches))
  {
    hide *;
    BatchesToNone(s, batches);
    for n := 0 to |batches|
      invariant WellFormed(session) && Represents(session, RunBatches(s, batches[..n]))
    {
      var devices := batches[n].devices;
      NoGateway(devices);
      BatchesToNext(s, batches, n);
      RepresentsTables(session, RunBatches(s, batches[..n]));
      var created, updated, total;
      ghost var ts;
      created, updated, total, ts := ReconcileIntoDb(session, devices, {}, None, batches[n].env);
      RunRefined(ts, RunBatches(s, batches[..n]), devices, {}, None, batches[n].env);
      RepresentsTables(session, RunBatches(s, batches[..n + 1]));
    }
  }

  lemma RepresentsTables(session: Session, s: Shelf)
    ensures var t := InventoryOf(session);
      Represents(session, s) <==> Tables(t.assets, t.interfaces, t.services, t.next, s)
  {
    hide Tables;
  }

  lemma RunRefined(ts: seq<Inventory>, s: Shelf, devices: seq<Device>, gatewayIps: set<string>, gatewayMac: Text,
                   env: Env)
    requires TurnsTaken(ts, devices, gatewayIps, gatewayMac, env) && |devices| < |ts|
    requires NoneAtGateway(devices, gatewayIps, gatewayMac)
    requires Tables(ts[0].assets, ts[0].interfaces, ts[0].services, ts[0].next, s)
    ensures var t := ts[|devices|];
      Tables(t.assets, t.interfaces, t.services, t.next, Run(s, devices, env))
  {
    hide *;
    RunToNone(s, devices, env);
    TurnsRefine(ts, s, devices, gatewayIps, gatewayMac, env, |devices|);
  }

  lemma NoGateway(ds: seq<Device>)
    ensures NoneAtGateway(ds, {}, None)
  {
  }
}
