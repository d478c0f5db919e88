/** `reconcile_into_db` run twice with one batch of merged devices: what the tables hold, row by row. */
module ReconcileTwice {
  import opened Basics
  import opened Models
  import opened DeviceMerge
  import opened InventoryCards
  import opened InventoryIdempotence
  import opened Reconcile

  // Every row of before is still there and differs in its time stamp at most.
  ghost predicate SameRows(t: Inventory, u: Inventory) {
    && (forall a :: a in t.assets ==> a in u.assets && u.assets[a].(lastSeen := 0) == t.assets[a].(lastSeen := 0))
    && (forall i :: i in t.interfaces ==>
          i in u.interfaces && u.interfaces[i].(lastSeen := 0) == t.interfaces[i].(lastSeen := 0))
    && (forall v :: v in t.services ==>
          v in u.services && u.services[v].(lastSeen := 0) == t.services[v].(lastSeen := 0))
  }

  // An asset of before has no interface and no service that it did not have.
  ghost predicate NoRowsAdded(t: Inventory, u: Inventory) {
    && (forall i :: i in u.interfaces && u.interfaces[i].assetId in t.assets ==> i in t.interfaces)
    && (forall v :: v in u.services && u.services[v].assetId in t.assets ==> v in t.services)
  }

  // Both inventories are cards, those of the first are still there up to time stamps, and no row was lost.
  ghost predicate Paired(t: Inventory, u: Inventory, s: map<Id, Card>, s': map<Id, Card>) {
    && CardRows(t.assets, t.interfaces, t.services, s) && CardRows(u.assets, u.interfaces, u.services, s')
    && FacesStay(t.interfaces, u.interfaces) && PortsStay(t.services, u.services) && UniquePorts(u.services)
    && Owned(t)
    && (forall a :: a in s ==> a in s' && SameCard(s[a], s'[a]))
  }

  ghost predicate SameCard(c: Card, e: Card) {
    Timeless(c) == Timeless(e)
  }

  // What the two tables hold of asset `a`.
  lemma BothCards(t: Inventory, u: Inventory, s: map<Id, Card>, s': map<Id, Card>, a: Id)
    requires Paired(t, u, s, s') && a in t.assets
    ensures a in s && a in s' && a in u.assets && SameCard(s[a], s'[a])
    ensures AssetRows(t.assets, t.interfaces, t.services, a, s[a])
    ensures AssetRows(u.assets, u.interfaces, u.services, a, s'[a])
  {
    hide AssetRows, FacesStay, PortsStay, UniquePorts, SameCard, Owned;
  }

  lemma AssetTwice(t: Inventory, u: Inventory, s: map<Id, Card>, s': map<Id, Card>, a: Id)
    requires Paired(t, u, s, s') && a in t.assets
    ensures a in u.assets && u.assets[a].(lastSeen := 0) == t.assets[a].(lastSeen := 0)
  {
    BothCards(t, u, s, s', a);
    hide Paired, InterfaceRows, ServiceRows;
    assert Timeless(s[a]).asset == Timeless(s'[a]).asset;
  }

  lemma FaceStays(t: Inventory, u: Inventory, s: map<Id, Card>, s': map<Id, Card>, i: Id)
    requires Paired(t, u, s, s') && i in t.interfaces
    ensures i in u.interfaces && u.interfaces[i].assetId == t.interfaces[i].assetId
    ensures t.interfaces[i].assetId in t.assets
  {
    hide CardRows, PortsStay, UniquePorts, SameCard;
  }

  lemma OnlyInterface(t: map<Id, Interface>, a: Id, f: Interface, i: Id)
    requires InterfaceRows(t, a, f) && i in t && t[i].assetId == a
    ensures t[i] == f && forall j :: j in t && t[j].assetId == a ==> j == i
  {
    var j :| j in t && t[j] == f;
  }

  lemma SomeInterface(t: map<Id, Interface>, a: Id, f: Interface) returns (j: Id)
    requires InterfaceRows(t, a, f)
    ensures j in t && t[j].assetId == a
  {
    j :| j in t && t[j] == f;
  }

  lemma SomeService(t: map<Id, Service>, a: Id, m: map<Port, Service>, k: Port) returns (w: Id)
    requires ServiceRows(t, a, m) && k in m
    ensures w in t && t[w].assetId == a && RowPort(t[w]) == k
  {
    w :| w in t && t[w].assetId == a && RowPort(t[w]) == k;
  }

  lemma InterfaceTwice(t: Inventory, u: Inventory, s: map<Id, Card>, s': map<Id, Card>, i: Id)
    requires Paired(t, u, s, s') && i in t.interfaces
    ensures i in u.interfaces && u.interfaces[i].(lastSeen := 0) == t.interfaces[i].(lastSeen := 0)
  {
    var a := t.interfaces[i].assetId;
    FaceStays(t, u, s, s', i);
    BothCards(t, u, s, s', a);
    hide Paired, InterfaceRows, ServiceRows;
    OnlyInterface(t.interfaces, a, s[a].iface, i);
    OnlyInterface(u.interfaces, a, s'[a].iface, i);
    assert Timeless(s[a]).iface == Timeless(s'[a]).iface;
  }

  lemma NoInterfaceAdded(t: Inventory, u: Inventory, s: map<Id, Card>, s': map<Id, Card>, i: Id)
    requires Paired(t, u, s, s') && i in u.interfaces && u.interfaces[i].assetId in t.assets
    ensures i in t.interfaces
  {
    var a := u.interfaces[i].assetId;
    BothCards(t, u, s, s', a);
    hide Paired, InterfaceRows, ServiceRows;
    var j := SomeInterface(t.interfaces, a, s[a].iface);
    FaceStays(t, u, s, s', j);
    OnlyInterface(u.interfaces, a, s'[a].iface, i);
  }

  lemma ServiceStays(t: Inventory, u: Inventory, s: map<Id, Card>, s': map<Id, Card>, v: Id)
    requires Paired(t, u, s, s') && v in t.services
    ensures v in u.services && u.services[v].assetId == t.services[v].assetId && t.services[v].assetId in t.assets
    ensures RowPort(u.services[v]) == RowPort(t.services[v])
  {
    hide CardRows, FacesStay, UniquePorts, SameCard;
  }

  lemma SamePorts(c: Card, e: Card, k: Port)
    requires SameCard(c, e)
    ensures k in c.services <==> k in e.services
    ensures k in c.services ==> c.services[k].(lastSeen := 0) == e.services[k].(lastSeen := 0)
  {
    assert k in c.services ==> Timeless(c).services[k] == Timeless(e).services[k];
    assert k in c.services <==> k in Timeless(c).services;
    assert k in e.services <==> k in Timeless(e).services;
  }

  lemma ServiceTwice(t: Inventory, u: Inventory, s: map<Id, Card>, s': map<Id, Card>, v: Id)
    requires Paired(t, u, s, s') && v in t.services
    ensures v in u.services && u.services[v].(lastSeen := 0) == t.services[v].(lastSeen := 0)
  {
    var a, k := t.services[v].assetId, RowPort(t.services[v]);
    ServiceStays(t, u, s, s', v);
    BothCards(t, u, s, s', a);
    hide Paired, InterfaceRows, SameCard;
    SamePorts(s[a], s'[a], k);
  }

  lemma NoServiceAdded(t: Inventory, u: Inventory, s: map<Id, Card>, s': map<Id, Card>, v: Id)
    requires Paired(t, u, s, s') && v in u.services && u.services[v].assetId in t.assets
    ensures v in t.services
  {
    var a, k := u.services[v].assetId, RowPort(u.services[v]);
    BothCards(t, u, s, s', a);
    assert UniquePorts(u.services);
    assert k in s'[a].services;
    hide Paired, InterfaceRows, ServiceRows, SameCard;
    SamePorts(s[a], s'[a], k);
    var w := SomeService(t.services, a, s[a].services, k);
    ServiceStays(t, u, s, s', w);
  }

  /** Cards that are the same up to time stamps are rows that are. */
  lemma TablesTwice(t: Inventory, u: Inventory, s: map<Id, Card>, s': map<Id, Card>)
    requires Paired(t, u, s, s')
    ensures SameRows(t, u) && NoRowsAdded(t, u)
  {
    hide Paired;
    forall a | a in t.assets ensures a in u.assets && u.assets[a].(lastSeen := 0) == t.assets[a].(lastSeen := 0) {
      AssetTwice(t, u, s, s', a);
    }
    forall i | i in t.interfaces
      ensures i in u.interfaces && u.interfaces[i].(lastSeen := 0) == t.interfaces[i].(lastSeen := 0)
    {
      InterfaceTwice(t, u, s, s', i);
    }
    forall i | i in u.interfaces && u.interfaces[i].assetId in t.assets ensures i in t.interfaces {
      NoInterfaceAdded(t, u, s, s', i);
    }
    forall v | v in t.services
      ensures v in u.services && u.services[v].(lastSeen := 0) == t.services[v].(lastSeen := 0)
    {
      ServiceTwice(t, u, s, s', v);
    }
    forall v | v in u.services && u.services[v].assetId in t.assets ensures v in t.services {
      NoServiceAdded(t, u, s, s', v);
    }
  }

  // The assets with the keys from `next` on are those of `extra`, in order.
  ghost predicate NewOnes(assets: map<Id, Asset>, next: Id, extra: seq<Device>, env: Env) {
    forall a :: next <= a < next + |extra| ==> a in assets && assets[a] == NewAsset(extra[a - next], env)
  }

  lemma CardsBothTimes(s: Shelf, devices: seq<Device>, env: Env, later: Env)
    requires Inv(s) && NoBareShare(devices) && SameOwners(env, later)
    ensures var once := Run(s, devices, env);
      var twice := Run(once, devices, later);
      && (forall a :: a in once.cards ==> a in twice.cards && SameCard(once.cards[a], twice.cards[a]))
      && twice.next == once.next + |Newcomers(devices)|
      && NewCards(twice.cards, once.next, Newcomers(devices), later)
  {
    hide Inv, Run, NoBareShare, Newcomers, Timeless, SameOwners, NewAsset, Create;
    BatchTwice(s, devices, env, later);
    var once, extra := Run(s, devices, env), Newcomers(devices);
    var twice := Run(once, devices, later);
    forall a: Id | once.next <= a < once.next + |extra|
      ensures a in twice.cards && twice.cards[a].asset == NewAsset(extra[a - once.next], later)
    {
      CreatedAsset(a, extra[a - once.next], later);
    }
  }

  lemma CreatedAsset(a: Id, d: Device, env: Env)
    ensures Create(a, d, env).asset == NewAsset(d, env)
  {
    hide NewAsset, PutServices, UpdatedInterface;
  }

  ghost predicate NewCards(cards: map<Id, Card>, next: Id, extra: seq<Device>, env: Env) {
    forall a :: next <= a < next + |extra| ==> a in cards && cards[a].asset == NewAsset(extra[a - next], env)
  }

  lemma NewCardsAreRows(u: Inventory, cards: map<Id, Card>, next: Id, extra: seq<Device>, env: Env)
    requires CardRows(u.assets, u.interfaces, u.services, cards) && NewCards(cards, next, extra, env)
    ensures NewOnes(u.assets, next, extra, env)
  {
    hide AssetRows;
    forall a | next <= a < next + |extra| ensures a in u.assets && u.assets[a] == NewAsset(extra[a - next], env) {
      CardAsset(u.assets, u.interfaces, u.services, cards, a);
    }
  }

  lemma SecondRun(t: Inventory, u: Inventory, s: Shelf, devices: seq<Device>, env: Env, later: Env)
    requires Inv(s) && NoBareShare(devices) && SameOwners(env, later) && Owned(t)
    requires Tables(t.assets, t.interfaces, t.services, t.next, Run(s, devices, env))
    requires Tables(u.assets, u.interfaces, u.services, u.next, Run(Run(s, devices, env), devices, later))
    requires FacesStay(t.interfaces, u.interfaces) && PortsStay(t.services, u.services) && UniquePorts(u.services)
    ensures SameRows(t, u) && NoRowsAdded(t, u)
    ensures u.next == t.next + |Newcomers(devices)|
    ensures NewOnes(u.assets, t.next, Newcomers(devices), later)
  {
    hide Inv, NoBareShare, Run, Newcomers, SameCard, SameOwners, Owned, NewOnes, NewCards, CardRows;
    hide SameRows, NoRowsAdded, FacesStay, PortsStay, UniquePorts;
    CardsBothTimes(s, devices, env, later);
    var once := Run(s, devices, env);
    var twice := Run(once, devices, later);
    NewCardsAreRows(u, twice.cards, once.next, Newcomers(devices), later);
    TablesTwice(t, u, once.cards, twice.cards);
  }

  /** Two runs of `reconcile_into_db` with the same devices, none of them at a gateway address.  The
      second leaves every row of the first as it was up to its time stamp, gives no known asset a new
      row, and creates exactly one asset for each device that has neither a MAC nor an IP. */
  method RunTwice(session: Session, devices: seq<Device>, gatewayIps: set<string>, gatewayMac: Text,
                  env: Env, later: Env, ghost s: Shelf)
    returns (created: nat, ghost once: Inventory)
    requires WellFormed(session) && Represents(session, s)
    requires NoneAtGateway(devices, gatewayIps, gatewayMac) && NoBareShare(devices) && SameOwners(env, later)
    modifies session`assets, session`interfaces, session`services
    modifies session`nextAsset, session`nextInterface, session`nextService
    ensures WellFormed(session)
    ensures Tables(once.assets, once.interfaces, once.services, once.next, Run(s, devices, env))
    ensures SameRows(once, InventoryOf(session)) && NoRowsAdded(once, InventoryOf(session))
    ensures created == |Newcomers(devices)|
    ensures session.nextAsset == once.next + created
    ensures NewOnes(session.assets, once.next, Newcomers(devices), later)
    ensures forall a :: a in session.assets <==> a in once.assets || once.next <= a < session.nextAsset
  {
    hide *;
    WhatIsRepresented(session, s);
    var updated, total;
    ghost var ts;
    created, updated, total, ts := ReconcileIntoDb(session, devices, gatewayIps, gatewayMac, env);
    once := InventoryOf(session);
    WhatIsInventory(session);
    RunRefined(ts, s, devices, gatewayIps, gatewayMac, env);
    WhatIsWellFormed(session);
    created, updated, total, ts := ReconcileIntoDb(session, devices, gatewayIps, gatewayMac, later);
    RunRefined(ts, Run(s, devices, env), devices, gatewayIps, gatewayMac, later);
    TurnsStay(ts, devices, gatewayIps, gatewayMac, later, |devices|);
    WhatIsWellFormed(session);
    SecondRun(once, InventoryOf(session), s, devices, env, later);
    WhatIsInventory(session);
    OnlyNewMeans(once.assets, once.next, session.assets, session.nextAsset);
  }

  lemma WhatIsInventory(session: Session)
    ensures var t := InventoryOf(session);
      && t.assets == session.assets && t.interfaces == session.interfaces && t.services == session.services
      && t.next == session.nextAsset
  {
  }

  lemma OnlyNewMeans(t: map<Id, Asset>, next: Id, u: map<Id, Asset>, next': Id)
    requires OnlyNew(t, next, u, next')
    ensures forall a :: a in u <==> a in t || next <= a < next'
  {
  }

  lemma WhatIsRepresented(session: Session, s: Shelf)
    requires Represents(session, s)
    ensures var t := InventoryOf(session);
      Inv(s) && Tables(t.assets, t.interfaces, t.services, t.next, s)
  {
    hide Inv, CardRows;
  }
}
