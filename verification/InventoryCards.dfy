/** What reconciliation does to the inventory (discovery/reconcile.py), stated on cards: an asset
    together with its one interface and its services by (port, protocol).  Module Reconcile proves
    that the table code computes this wherever discovery alone filled the tables. */
module InventoryCards {
  import opened Basics
  import opened Models
  import opened SourceNames

  // The clock of a run and `_default_owner`, whose reading of the environment is left abstract.
  datatype Env = Env(now: Time, ownerFor: Text -> string)

  // ---- one row at a time ----

  function NewAsset(d: Device, env: Env): Asset {
    Asset(if Truthy(d.assetType) then d.assetType.value else "end_user_device",
          d.hostname, false, if Truthy(d.hostname) then Some(d.source) else None,
          d.vendor, false, d.model, d.firmware, d.serial, d.modelNumber, d.modelIdentifier, false,
          Some(env.ownerFor(d.hostname)), Discovered, false, Some(d.source), env.now, env.now)
  }

  predicate Renames(a: Asset, d: Device) {
    !a.hostnameLocked && Truthy(d.hostname) && Priority(Some(d.source)) >= Priority(a.hostnameSource)
  }

  function UpdatedAsset(a: Asset, d: Device, env: Env): Asset {
    var hostname := if Renames(a, d) then d.hostname else a.hostname;
    a.(lastSeen := env.now,
       hostname := hostname,
       hostnameSource := if Renames(a, d) then Some(d.source) else a.hostnameSource,
       vendor := if a.vendorLocked then a.vendor else Or(d.vendor, a.vendor),
       assetType := if a.lifecycle == Discovered && Truthy(d.assetType) then d.assetType.value else a.assetType,
       owner := if Truthy(a.owner) then a.owner else Some(env.ownerFor(hostname)),
       model := Or(d.model, a.model),
       firmware := Or(d.firmware, a.firmware),
       serial := if a.identityLocked then a.serial else Or(d.serial, a.serial),
       modelNumber := if a.identityLocked then a.modelNumber else Or(d.modelNumber, a.modelNumber),
       modelIdentifier := if a.identityLocked then a.modelIdentifier else Or(d.modelIdentifier, a.modelIdentifier))
  }

  function BlankInterface(id: Id): Interface {
    Interface(id, None, None, None, None, None, None, 0)
  }

  function UpdatedInterface(i: Interface, d: Device, now: Time): Interface {
    Interface(i.assetId, Or(d.mac, i.mac), Or(d.ip, i.ip), if d.vlan.Some? then d.vlan else i.vlan,
              Or(d.networkName, i.networkName), Or(d.connectionType, i.connectionType),
              Or(d.vendor, i.vendor), now)
  }

  type Port = (int, string)

  function PortOf(r: ServiceReport): Port {
    (r.port, if r.protocol.Some? then r.protocol.value else "tcp")
  }

  function BlankService(id: Id, port: Port): Service {
    Service(id, port.0, port.1, None, None, None, 0)
  }

  function UpdatedService(s: Service, r: ServiceReport, now: Time): Service {
    s.(product := Or(r.product, s.product), version := Or(r.version, s.version),
       banner := Or(r.banner, s.banner), lastSeen := now)
  }

  function PutService(id: Id, m: map<Port, Service>, r: ServiceReport, now: Time): map<Port, Service> {
    var k := PortOf(r);
    m[k := UpdatedService(if k in m then m[k] else BlankService(id, k), r, now)]
  }

  function PutServices(id: Id, m: map<Port, Service>, rs: seq<ServiceReport>, now: Time): map<Port, Service> {
    if rs == [] then m else PutService(id, PutServices(id, m, rs[..|rs| - 1], now), rs[|rs| - 1], now)
  }

  // ---- cards ----

  datatype Card = Card(asset: Asset, iface: Interface, services: map<Port, Service>)

  function Create(id: Id, d: Device, env: Env): Card {
    Card(NewAsset(d, env), UpdatedInterface(BlankInterface(id), d, env.now),
         PutServices(id, map[], d.services, env.now))
  }

  function Touch(id: Id, c: Card, d: Device, env: Env): Card {
    Card(UpdatedAsset(c.asset, d, env), UpdatedInterface(c.iface, d, env.now),
         PutServices(id, c.services, d.services, env.now))
  }

  // `next` is the primary key the next new asset gets.
  datatype Shelf = Shelf(cards: map<Id, Card>, next: Id)

  predicate MacHolder(c: Card, d: Device) {
    Truthy(d.mac) && c.iface.mac == d.mac
  }

  predicate IpHolder(c: Card, d: Device) {
    Truthy(d.ip) && c.iface.mac == None && c.iface.ip == d.ip
  }

  /** MAC first, then the IP of an interface that has no MAC. */
  ghost predicate Matches(s: Shelf, d: Device, id: Id) {
    && id in s.cards
    && (MacHolder(s.cards[id], d)
        || ((forall k :: k in s.cards ==> !MacHolder(s.cards[k], d)) && IpHolder(s.cards[id], d)))
  }

  // The card a device lands on: the one it matches, or a new one.
  ghost function Hit(s: Shelf, d: Device): Id {
    if exists id: Id :: Matches(s, d, id) then var id: Id :| Matches(s, d, id); id else s.next
  }

  ghost function Step(s: Shelf, d: Device, env: Env): Shelf {
    var id := Hit(s, d);
    if id in s.cards then s.(cards := s.cards[id := Touch(id, s.cards[id], d, env)])
    else Shelf(s.cards[id := Create(id, d, env)], s.next + 1)
  }

  ghost function Run(s: Shelf, ds: seq<Device>, env: Env): Shelf {
    if ds == [] then s else Step(Run(s, ds[..|ds| - 1], env), ds[|ds| - 1], env)
  }

  // ---- what every run keeps ----

  ghost predicate WellKeyed(id: Id, c: Card) {
    && c.iface.assetId == id
    && c.iface.mac != Some("") && c.iface.ip != Some("")
    && (forall k :: k in c.services ==>
          c.services[k].assetId == id && c.services[k].port == k.0 && c.services[k].protocol == k.1)
  }

  // Two cards never hold one MAC, and two cards without a MAC never hold one IP.
  predicate Apart(c: Card, e: Card) {
    && (c.iface.mac.Some? ==> c.iface.mac != e.iface.mac)
    && (c.iface.mac == None && e.iface.mac == None && c.iface.ip.Some? ==> c.iface.ip != e.iface.ip)
  }

  ghost predicate Inv(s: Shelf) {
    && (forall id :: id in s.cards ==> id < s.next && WellKeyed(id, s.cards[id]))
    && (forall i, j :: i in s.cards && j in s.cards && i != j ==> Apart(s.cards[i], s.cards[j]))
  }

  lemma {:induction false} PutServicesKeyed(id: Id, m: map<Port, Service>, rs: seq<ServiceReport>, now: Time)
    requires forall k :: k in m ==> m[k].assetId == id && m[k].port == k.0 && m[k].protocol == k.1
    ensures var m' := PutServices(id, m, rs, now);
      forall k :: k in m' ==> m'[k].assetId == id && m'[k].port == k.0 && m'[k].protocol == k.1
  {
    if rs != [] {
      PutServicesKeyed(id, m, rs[..|rs| - 1], now);
    }
  }

  lemma MatchIsUnique(s: Shelf, d: Device, i: Id, j: Id)
    requires Inv(s) && Matches(s, d, i) && Matches(s, d, j)
    ensures i == j
  {
    assert i != j ==> Apart(s.cards[i], s.cards[j]);
  }

  lemma TouchKeyed(id: Id, c: Card, d: Device, env: Env)
    requires WellKeyed(id, c)
    ensures WellKeyed(id, Touch(id, c, d, env))
  {
    PutServicesKeyed(id, c.services, d.services, env.now);
  }

  lemma CreateKeyed(id: Id, d: Device, env: Env)
    ensures WellKeyed(id, Create(id, d, env))
  {
    PutServicesKeyed(id, map[], d.services, env.now);
  }

  lemma TouchedStaysApart(s: Shelf, d: Device, env: Env, id: Id, j: Id)
    requires Inv(s) && Matches(s, d, id) && j in s.cards && j != id
    ensures Apart(Touch(id, s.cards[id], d, env), s.cards[j]) && Apart(s.cards[j], Touch(id, s.cards[id], d, env))
  {
  }

  lemma CreatedStaysApart(s: Shelf, d: Device, env: Env, id: Id, j: Id)
    requires Inv(s) && j in s.cards && forall i :: !Matches(s, d, i)
    ensures Apart(Create(id, d, env), s.cards[j]) && Apart(s.cards[j], Create(id, d, env))
  {
    hide NewAsset, PutServices;
    assert WellKeyed(j, s.cards[j]);
    assert MacHolder(s.cards[j], d) ==> Matches(s, d, j);
    assert IpHolder(s.cards[j], d) && !Truthy(d.mac) ==> Matches(s, d, j);
  }

  lemma InvUpdate(s: Shelf, id: Id, c: Card, next: Id)
    requires Inv(s) && WellKeyed(id, c) && id < next && s.next <= next
    requires forall j :: j in s.cards && j != id ==> Apart(c, s.cards[j]) && Apart(s.cards[j], c)
    ensures Inv(Shelf(s.cards[id := c], next))
  {
    hide Apart, WellKeyed;
  }

  lemma StepKeepsInv(s: Shelf, d: Device, env: Env)
    requires Inv(s)
    ensures Inv(Step(s, d, env))
    ensures s.cards.Keys <= Step(s, d, env).cards.Keys
    ensures forall id :: id in s.cards && s.cards[id].iface.mac.Some? ==>
      Step(s, d, env).cards[id].iface.mac == s.cards[id].iface.mac
  {
    var id := Hit(s, d);
    if id in s.cards {
      assert Matches(s, d, id) && id < s.next;
      TouchKeyed(id, s.cards[id], d, env);
      MacStays(s, d, env, id);
      hide Inv, Apart, Touch, Create, WellKeyed, Matches, Hit;
      forall j | j in s.cards && j != id
        ensures Apart(Touch(id, s.cards[id], d, env), s.cards[j]) && Apart(s.cards[j], Touch(id, s.cards[id], d, env))
      {
        TouchedStaysApart(s, d, env, id, j);
      }
      InvUpdate(s, id, Touch(id, s.cards[id], d, env), s.next);
    } else {
      assert id == s.next && forall i :: !Matches(s, d, i);
      CreateKeyed(id, d, env);
      hide Inv, Apart, Touch, Create, WellKeyed, Matches;
      forall j | j in s.cards
        ensures Apart(Create(id, d, env), s.cards[j]) && Apart(s.cards[j], Create(id, d, env))
      {
        CreatedStaysApart(s, d, env, id, j);
      }
      InvUpdate(s, id, Create(id, d, env), s.next + 1);
    }
  }

  lemma MacStays(s: Shelf, d: Device, env: Env, id: Id)
    requires Inv(s) && Matches(s, d, id)
    ensures s.cards[id].iface.mac.Some? ==> Touch(id, s.cards[id], d, env).iface.mac == s.cards[id].iface.mac
  {
    assert WellKeyed(id, s.cards[id]);
  }

  /** Over any sequence of devices: one interface per asset, no MAC twice, no IP twice among the
      interfaces without a MAC, one row per port, and a recorded MAC never changes or moves. */
  lemma {:induction false} RunKeepsInv(s: Shelf, ds: seq<Device>, env: Env)
    requires Inv(s)
    ensures Inv(Run(s, ds, env))
    ensures s.cards.Keys <= Run(s, ds, env).cards.Keys
    ensures forall id :: id in s.cards && s.cards[id].iface.mac.Some? ==>
      Run(s, ds, env).cards[id].iface.mac == s.cards[id].iface.mac
  {
    if ds != [] {
      RunKeepsInv(s, ds[..|ds| - 1], env);
      StepKeepsInv(Run(s, ds[..|ds| - 1], env), ds[|ds| - 1], env);
    }
  }

  // ---- each run, asset by asset ----

  /** The devices of a run that land on one asset, in order. */
  ghost function Matched(s: Shelf, ds: seq<Device>, env: Env, id: Id): seq<Device> {
    if ds == [] then []
    else
      var d := ds[|ds| - 1];
      Matched(s, ds[..|ds| - 1], env, id)
      + (if Hit(Run(s, ds[..|ds| - 1], env), d) == id then [d] else [])
  }

  function TouchAll(id: Id, c: Card, ds: seq<Device>, env: Env): Card {
    if ds == [] then c else Touch(id, TouchAll(id, c, ds[..|ds| - 1], env), ds[|ds| - 1], env)
  }

  // An asset after a run: its card before, or the one its first device creates, then its devices.
  function Outcome(id: Id, before: Option<Card>, mine: seq<Device>, env: Env): Option<Card> {
    if before.Some? then Some(TouchAll(id, before.value, mine, env))
    else if mine == [] then None
    else Some(TouchAll(id, Create(id, mine[0], env), mine[1..], env))
  }

  function CardAt(s: Shelf, id: Id): Option<Card> {
    if id in s.cards then Some(s.cards[id]) else None
  }

  lemma TouchAllSnoc(id: Id, c: Card, ds: seq<Device>, d: Device, env: Env)
    ensures TouchAll(id, c, ds + [d], env) == Touch(id, TouchAll(id, c, ds, env), d, env)
  {
    assert (ds + [d])[..|ds + [d]| - 1] == ds;
  }

  /** A run over all devices does to each asset what its own devices do to it, in their order. */
  lemma {:induction false} RunDecomposes(s: Shelf, ds: seq<Device>, env: Env, id: Id)
    ensures CardAt(Run(s, ds, env), id) == Outcome(id, CardAt(s, id), Matched(s, ds, env, id), env)
  {
    if ds != [] {
      hide Touch, Create, Hit, Outcome;
      var ds', d := ds[..|ds| - 1], ds[|ds| - 1];
      RunDecomposes(s, ds', env, id);
      var t, mine := Run(s, ds', env), Matched(s, ds', env, id);
      if Hit(t, d) == id {
        OutcomeSnoc(id, CardAt(s, id), mine, d, env);
      } else {
        assert mine + [] == mine;
      }
    }
  }

  lemma OutcomeSnoc(id: Id, before: Option<Card>, mine: seq<Device>, d: Device, env: Env)
    ensures var c := Outcome(id, before, mine, env);
      Outcome(id, before, mine + [d], env)
        == Some(if c.Some? then Touch(id, c.value, d, env) else Create(id, d, env))
  {
    hide Touch, Create;
    if before.Some? {
      TouchAllSnoc(id, before.value, mine, d, env);
    } else if mine != [] {
      assert (mine + [d])[0] == mine[0] && (mine + [d])[1..] == mine[1..] + [d];
      TouchAllSnoc(id, Create(id, mine[0], env), mine[1..], d, env);
    }
  }

  // ---- hostnames ----

  // The last ranked element that no ranked element exceeds.
  function LastMax<T>(xs: seq<T>, rank: T -> Option<int>): (best: Option<T>)
    ensures best.Some? ==> rank(best.value).Some?
  {
    if xs == [] then None
    else
      var before, x := LastMax(xs[..|xs| - 1], rank), xs[|xs| - 1];
      if rank(x).Some? && (before.None? || rank(x).value >= rank(before.value).value) then Some(x) else before
  }

  predicate IsLastMax<T>(xs: seq<T>, rank: T -> Option<int>, k: nat) {
    && k < |xs| && rank(xs[k]).Some?
    && (forall i :: 0 <= i < |xs| && rank(xs[i]).Some? ==> rank(xs[i]).value <= rank(xs[k]).value)
    && (forall i :: k < i < |xs| && rank(xs[i]).Some? ==> rank(xs[i]).value < rank(xs[k]).value)
  }

  lemma {:induction false} LastMaxMeaning<T>(xs: seq<T>, rank: T -> Option<int>) returns (k: nat)
    ensures LastMax(xs, rank).None? ==> forall i :: 0 <= i < |xs| ==> rank(xs[i]).None?
    ensures LastMax(xs, rank).Some? ==> IsLastMax(xs, rank, k) && xs[k] == LastMax(xs, rank).value
  {
    k := 0;
    if xs != [] {
      var xs', x := xs[..|xs| - 1], xs[|xs| - 1];
      k := LastMaxMeaning(xs', rank);
      assert forall i :: 0 <= i < |xs'| ==> xs[i] == xs'[i];
      var before := LastMax(xs', rank);
      if rank(x).Some? && (before.None? || rank(x).value >= rank(before.value).value) {
        k := |xs| - 1;
      }
    }
  }

  lemma {:induction false} LastMaxCons<T>(x: T, xs: seq<T>, rank: T -> Option<int>)
    ensures var rest := LastMax(xs, rank);
      LastMax([x] + xs, rank) ==
        if rank(x).Some? && (rest.None? || rank(rest.value).value < rank(x).value) then Some(x) else rest
  {
    if xs == [] {
      assert [x] + xs == [x] && [x][..0] == [];
    } else {
      assert ([x] + xs)[..|[x] + xs| - 1] == [x] + xs[..|xs| - 1];
      LastMaxCons(x, xs[..|xs| - 1], rank);
    }
  }

  // A device that offers a name, by the priority of its source.
  function NameRank(d: Device): Option<int> {
    if Truthy(d.hostname) then Some(Priority(Some(d.source))) else None
  }

  // The last named device of the highest source priority: LastMaxMeaning.
  function Namesake(ds: seq<Device>): Option<Device> {
    LastMax(ds, NameRank)
  }

  /** `after` is `before` renamed to what `best` calls it, unless it is locked or named by a source of
      higher priority; the priority of the name never falls. */
  predicate NamedBy(before: Asset, after: Asset, best: Option<Device>) {
    && after.hostnameLocked == before.hostnameLocked
    && Priority(after.hostnameSource) >= Priority(before.hostnameSource)
    && (if before.hostnameLocked || best.None?
           || Priority(Some(best.value.source)) < Priority(before.hostnameSource)
        then after.hostname == before.hostname && after.hostnameSource == before.hostnameSource
        else after.hostname == best.value.hostname && after.hostnameSource == Some(best.value.source))
  }

  lemma NamedByOneMore(before: Asset, after: Asset, ds: seq<Device>, d: Device, env: Env)
    requires NamedBy(before, after, Namesake(ds))
    ensures NamedBy(before, UpdatedAsset(after, d, env), Namesake(ds + [d]))
  {
    hide Priority;
    assert (ds + [d])[..|ds + [d]| - 1] == ds;
  }

  lemma TouchAllNamesSnoc(id: Id, c: Card, ds: seq<Device>, d: Device, env: Env)
    requires NamedBy(c.asset, TouchAll(id, c, ds, env).asset, Namesake(ds))
    ensures NamedBy(c.asset, TouchAll(id, c, ds + [d], env).asset, Namesake(ds + [d]))
  {
    TouchAllSnoc(id, c, ds, d, env);
    hide TouchAll, PutServices, UpdatedInterface, NamedBy, UpdatedAsset, Namesake;
    NamedByOneMore(c.asset, TouchAll(id, c, ds, env).asset, ds, d, env);
  }

  lemma {:induction false} TouchAllNames(id: Id, c: Card, ds: seq<Device>, env: Env)
    ensures NamedBy(c.asset, TouchAll(id, c, ds, env).asset, Namesake(ds))
  {
    if ds != [] {
      hide TouchAll, NamedBy, Namesake;
      TouchAllNames(id, c, ds[..|ds| - 1], env);
      TouchAllNamesSnoc(id, c, ds[..|ds| - 1], ds[|ds| - 1], env);
      assert ds[..|ds| - 1] + [ds[|ds| - 1]] == ds;
    }
  }

  lemma CreatedName(id: Id, ds: seq<Device>, env: Env)
    requires ds != []
    ensures var a, best := TouchAll(id, Create(id, ds[0], env), ds[1..], env).asset, Namesake(ds);
      if best.Some? then a.hostname == best.value.hostname && a.hostnameSource == Some(best.value.source)
      else !Truthy(a.hostname) && a.hostnameSource == None
  {
    hide TouchAll, MaxPriority, LastMax, PutServices, UpdatedInterface;
    TouchAllNames(id, Create(id, ds[0], env), ds[1..], env);
    LastMaxCons(ds[0], ds[1..], NameRank);
    assert [ds[0]] + ds[1..] == ds;
  }

  /** After a run an unlocked asset is named by the last matched named device of the highest source
      priority, unless that is below the priority it was named with before; that priority never falls. */
  lemma HostnameAfterRun(s: Shelf, ds: seq<Device>, env: Env, id: Id)
    requires id in Run(s, ds, env).cards
    ensures var best := Namesake(Matched(s, ds, env, id));
      var after := Run(s, ds, env).cards[id].asset;
      if id in s.cards then NamedBy(s.cards[id].asset, after, best)
      else if best.Some? then
        after.hostname == best.value.hostname && after.hostnameSource == Some(best.value.source)
      else !Truthy(after.hostname) && after.hostnameSource == None
  {
    hide Run, Matched, TouchAll, Namesake, NamedBy, Create;
    RunDecomposes(s, ds, env, id);
    var mine := Matched(s, ds, env, id);
    if id in s.cards {
      TouchAllNames(id, s.cards[id], mine, env);
    } else {
      CreatedName(id, mine, env);
    }
  }

  // ---- run after run ----

  datatype Batch = Batch(devices: seq<Device>, env: Env)

  ghost function RunBatches(s: Shelf, bs: seq<Batch>): Shelf {
    if bs == [] then s
    else Run(RunBatches(s, bs[..|bs| - 1]), bs[|bs| - 1].devices, bs[|bs| - 1].env)
  }

  /** No asset is lost, no recorded MAC changes, and no hostname passes to a source of lower priority. */
  ghost predicate Outlives(s: Shelf, t: Shelf) {
    forall id :: id in s.cards ==>
      && id in t.cards
      && (s.cards[id].iface.mac.Some? ==> t.cards[id].iface.mac == s.cards[id].iface.mac)
      && Priority(t.cards[id].asset.hostnameSource) >= Priority(s.cards[id].asset.hostnameSource)
  }

  lemma RunOutlives(s: Shelf, ds: seq<Device>, env: Env)
    requires Inv(s)
    ensures Outlives(s, Run(s, ds, env))
  {
    RunKeepsInv(s, ds, env);
    hide Inv, Run, Priority, Matched, Namesake;
    forall id | id in s.cards
      ensures Priority(Run(s, ds, env).cards[id].asset.hostnameSource) >= Priority(s.cards[id].asset.hostnameSource)
    {
      HostnameAfterRun(s, ds, env, id);
    }
  }

  /** Over any sequence of runs, from any of them on. */
  lemma {:induction false} BatchesOutlive(s: Shelf, bs: seq<Batch>, m: nat)
    requires Inv(s) && m <= |bs|
    ensures Inv(RunBatches(s, bs)) && Outlives(RunBatches(s, bs[..m]), RunBatches(s, bs))
  {
    if m == |bs| {
      assert bs[..m] == bs;
      if bs != [] {
        BatchesOutlive(s, bs[..m - 1], m - 1);
        RunKeepsInv(RunBatches(s, bs[..m - 1]), bs[m - 1].devices, bs[m - 1].env);
      }
    } else {
      hide Inv, Run;
      var n := |bs| - 1;
      assert bs[..n][..m] == bs[..m];
      BatchesOutlive(s, bs[..n], m);
      RunKeepsInv(RunBatches(s, bs[..n]), bs[n].devices, bs[n].env);
      RunOutlives(RunBatches(s, bs[..n]), bs[n].devices, bs[n].env);
    }
  }
}
