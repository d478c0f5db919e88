/** What holds between the moments of any run, however far apart: a key never names a second asset, a
    dismissal holds while both identities do, and no MAC comes to two assets away from the gateway. */
module History {
  import opened Basics
  import opened Models
  import opened InventoryCards
  import opened Reconcile
  import opened AssetChildren
  import opened MergeQuotient
  import opened Links
  import opened Candidates
  import opened SpendLedger
  import opened FindingSla
  import opened Requests
  import opened Server

  // ---- the steps of a run ----

  lemma StepOf(qs: seq<Request>, r: Reader, b: Budget, trace: seq<Shot>, k: nat)
    requires RanThrough(qs, r, b, trace) && k < |qs|
    ensures |trace| == |qs| + 1 && Does(qs[k], r, b, trace[k], trace[k + 1]) && Good(trace[k], b)
  {
    hide Does, Good;
  }

  // Requests about links, spending and findings.
  ghost predicate SameInventory(db: Db, db': Db) {
    db'.assets == db.assets && db'.interfaces == db.interfaces && db'.dismissals == db.dismissals
  }

  lemma LinkLeaves(q: Request, db: Db, db': Db)
    requires (q.Link? || q.Unlink?) && LinkMakes(q, db, db')
    ensures SameInventory(db, db')
  {
    hide Linked, SameLinksBut, OtherKindsKept, RowUnlinked, LinkGone;
  }

  lemma SpendingLeaves(q: Request, b: Budget, enabled: bool, db: Db, db': Db)
    requires (q.AskAssistant? || q.SaveAsset?) && SpendingMakes(q, b, enabled, db, db')
    ensures SameInventory(db, db')
  {
    hide BudgetBlockReason, GuessRow;
  }

  lemma FindingLeaves(q: Request, db: Db, db': Db)
    requires (q.EnrichFrom? || q.ChangeStatus? || q.ResyncExposure?) && FindingMakes(q, db, db')
    ensures SameInventory(db, db')
  {
    hide EnrichedBy, ResyncedAll, PlanOf, NotesOf, WithStatus;
  }

  lemma DismissalLeaves(q: Request, r: Reader, db: Db, db': Db)
    requires (q.DismissPair? || q.DismissAllListed?) && DismissalMakes(q, r, db, db')
    ensures db'.assets == db.assets && db'.interfaces == db.interfaces
  {
    hide SameLinksBut, OtherKindsKept, SameDismissalsBut, AlreadyLinked, DismissedOnlyAs, ClosedBy, Listed;
  }

  lemma AssetLeaves(q: Request, s: Shot, t: Shot)
    requires (q.CreateAsset? || q.EditAsset? || q.AddNoteTo? || q.ClearChat?) && AssetMakes(q, s, t)
    ensures t.db.interfaces == s.db.interfaces && t.db.dismissals == s.db.dismissals
    ensures t.db.assets.Keys == s.db.assets.Keys + if q.CreateAsset? then {s.next} else {}
  {
    hide Filter;
  }

  // What the requests that touch neither assets, addresses nor dismissals have in common.
  lemma QuietLeaves(q: Request, r: Reader, b: Budget, s: Shot, t: Shot)
    requires Does(q, r, b, s, t)
    requires q.Link? || q.Unlink? || q.AskAssistant? || q.SaveAsset? || q.SwitchAssistant?
             || q.EnrichFrom? || q.ChangeStatus? || q.ResyncExposure?
    ensures SameInventory(s.db, t.db) && t.next == s.next
  {
    hide DiscoveryMakes, AssetMakes, MergeMakes, LinkMakes, DismissalMakes, SpendingMakes, FindingMakes;
    if q.Link? || q.Unlink? {
      LinkLeaves(q, s.db, t.db);
    } else if q.AskAssistant? || q.SaveAsset? {
      SpendingLeaves(q, b, s.enabled, s.db, t.db);
    } else if !q.SwitchAssistant? {
      FindingLeaves(q, s.db, t.db);
    }
  }

  // ---- discovery ----

  lemma DiscoveryStays(ds: seq<Device>, gatewayIps: set<string>, gatewayMac: Text, env: Env, s: Shot, t: Shot)
    requires DiscoveryMakes(ds, gatewayIps, gatewayMac, env, s, t)
    ensures s.next <= t.next && forall a :: a in t.db.assets <==> a in s.db.assets || s.next <= a < t.next
    ensures FacesStay(s.db.interfaces, t.db.interfaces) && PortsStay(s.db.services, t.db.services)
    ensures MacsApart(s.db.interfaces) && NoneAtGateway(ds, gatewayIps, gatewayMac) ==> MacsApart(t.db.interfaces)
  {
    hide TurnsTaken, FacesStay, PortsStay, MacsApart, NoneAtGateway;
    var ts :| RunOf(ts, ds, gatewayIps, gatewayMac, env, InventoryAt(s), InventoryAt(t));
    TurnsStay(ts, ds, gatewayIps, gatewayMac, env, |ds|);
  }

  // The three tables of discovery are the cards of `shelf`.
  ghost predicate Shelved(s: Shot, shelf: Shelf) {
    Reconcile.Tables(s.db.assets, s.db.interfaces, s.db.services, s.next, shelf)
  }

  /** Away from the gateway, a discovery run takes tables that are cards through the run of those cards. */
  lemma DiscoveryRefines(q: Request, r: Reader, b: Budget, s: Shot, t: Shot, shelf: Shelf)
    requires Does(q, r, b, s, t) && q.DiscoverDevices? && AwayFromGateway(q) && Shelved(s, shelf)
    ensures Shelved(t, Run(shelf, q.devices, q.env))
  {
    hide Reconcile.Tables, TurnsTaken, Run, AtGateway;
    hide AssetMakes, MergeMakes, LinkMakes, DismissalMakes, SpendingMakes, FindingMakes;
    var ts :| RunOf(ts, q.devices, q.gatewayIps, q.gatewayMac, q.env, InventoryAt(s), InventoryAt(t));
    RunRefined(ts, shelf, q.devices, q.gatewayIps, q.gatewayMac, q.env);
  }

  // ---- keys of assets ----

  // The only new assets are under keys never handed out before.
  ghost predicate OnlyFreshAssets(s: Shot, t: Shot) {
    s.next <= t.next && forall a :: a in t.db.assets ==> a in s.db.assets || s.next <= a
  }

  lemma MergeAssets(q: Request, db: Db, db': Db)
    requires (q.Delete? || q.MergeNamesakes? || q.MergePair?) && MergeMakes(q, db, db')
    ensures db'.assets.Keys <= db.assets.Keys
  {
    hide AddressesDeleted, LogsDeleted, LinksDeleted, AddressesMoved, LogsMoved, LinksMoved, Namesakes;
    match q {
      case Delete(a) =>
      case MergeNamesakes(v) => assert db'.assets == MergedAway(ViewOf(db), v, Namesakes(db.assets, v)).assets;
      case MergePair(v, x, y) =>
    }
  }

  lemma StepAssets(q: Request, r: Reader, b: Budget, s: Shot, t: Shot)
    requires Does(q, r, b, s, t)
    ensures OnlyFreshAssets(s, t)
  {
    hide DiscoveryMakes, AssetMakes, MergeMakes, LinkMakes, DismissalMakes, SpendingMakes, FindingMakes;
    if q.Delete? || q.MergeNamesakes? || q.MergePair? {
      MergeAssets(q, s.db, t.db);
    } else if q.CreateAsset? || q.EditAsset? || q.AddNoteTo? || q.ClearChat? {
      CreatedFresh(q, r, b, s, t);
    } else if q.DismissPair? || q.DismissAllListed? {
      DismissalLeaves(q, r, s.db, t.db);
    } else if q.DiscoverDevices? {
      DiscoveryStays(q.devices, q.gatewayIps, q.gatewayMac, q.env, s, t);
    } else {
      QuietLeaves(q, r, b, s, t);
    }
  }

  lemma CreatedFresh(q: Request, r: Reader, b: Budget, s: Shot, t: Shot)
    requires (q.CreateAsset? || q.EditAsset? || q.AddNoteTo? || q.ClearChat?) && Does(q, r, b, s, t)
    ensures OnlyFreshAssets(s, t)
  {
    hide DiscoveryMakes, MergeMakes, LinkMakes, DismissalMakes, SpendingMakes, FindingMakes, Filter;
    AssetLeaves(q, s, t);
  }

  /** An asset that was deleted or merged away never comes back, and no later asset gets its key. */
  lemma {:induction false} GoneForGood(qs: seq<Request>, r: Reader, b: Budget, trace: seq<Shot>, i: nat, j: nat, a: Id)
    requires RanThrough(qs, r, b, trace) && i <= j < |trace|
    requires a < trace[i].next && a !in trace[i].db.assets
    ensures a < trace[j].next && a !in trace[j].db.assets
  {
    hide *;
    if i < j {
      GoneForGood(qs, r, b, trace, i, j - 1, a);
      NextMoment(qs, r, b, trace, j - 1, a);
    }
  }

  lemma NextMoment(qs: seq<Request>, r: Reader, b: Budget, trace: seq<Shot>, k: nat, a: Id)
    requires RanThrough(qs, r, b, trace) && k + 1 < |trace| && a < trace[k].next
    ensures a < trace[k + 1].next && (a in trace[k + 1].db.assets ==> a in trace[k].db.assets)
  {
    hide RanThrough, Does, Good;
    LengthOf(qs, r, b, trace);
    StepOf(qs, r, b, trace, k);
    StepAssets(qs[k], r, b, trace[k], trace[k + 1]);
  }

  lemma LengthOf(qs: seq<Request>, r: Reader, b: Budget, trace: seq<Shot>)
    requires RanThrough(qs, r, b, trace)
    ensures |trace| == |qs| + 1
  {
    hide Does, Good;
  }

  lemma KeyIsBelow(qs: seq<Request>, r: Reader, b: Budget, trace: seq<Shot>, i: nat, a: Id)
    requires RanThrough(qs, r, b, trace) && i < |trace| && a in trace[i].db.assets
    ensures a < trace[i].next
  {
    hide Does, Sound, Ledger;
    assert Good(trace[i], b);
  }

  lemma {:induction false} BelowThroughout(qs: seq<Request>, r: Reader, b: Budget, trace: seq<Shot>, i: nat, k: nat,
                                           a: Id)
    requires RanThrough(qs, r, b, trace) && i <= k < |trace| && a in trace[i].db.assets
    ensures a < trace[k].next
  {
    hide *;
    if i < k {
      BelowThroughout(qs, r, b, trace, i, k - 1, a);
      NextMoment(qs, r, b, trace, k - 1, a);
    } else {
      KeyIsBelow(qs, r, b, trace, i, a);
    }
  }

  lemma ThereThroughout(qs: seq<Request>, r: Reader, b: Budget, trace: seq<Shot>, i: nat, k: nat, j: nat, a: Id)
    requires RanThrough(qs, r, b, trace) && i <= k <= j < |trace|
    requires a in trace[i].db.assets && a in trace[j].db.assets
    ensures a in trace[k].db.assets
  {
    hide *;
    BelowThroughout(qs, r, b, trace, i, k, a);
    if a !in trace[k].db.assets {
      GoneForGood(qs, r, b, trace, k, j, a);
    }
  }

  // ---- dismissals ----

  function PairNow(r: Reader, s: Shot, x: Id, y: Id): string
    requires x in s.db.assets && y in s.db.assets
  {
    Fingerprint(r, s.db.assets, s.db.interfaces, x, y)
  }

  // The request dismisses this very pair: alone, or as one of the pairs on the list.
  ghost predicate Redismisses(q: Request, r: Reader, db: Db, x: Id, y: Id) {
    match q
    case DismissPair(v, w, _) => Between(v, w, x, y)
    case DismissAllListed(min, order, _) =>
      IsListing(order, db.assets) && Offered(Listed(Searched(db), r, min, order), x, y)
    case _ => false
  }

  lemma KeptDismissal(t: map<Id, Dismissal>, a: Id, x: Id, y: Id, f: string)
    requires DismissedAs(t, x, y, f) && x != a && y != a
    ensures DismissedAs(Kept(t, DismissalOf(a)), x, y, f)
  {
    var k :| k in t && DismissalRow(t, k, x, y) && t[k].fingerprint == f;
    assert DismissalRow(Kept(t, DismissalOf(a)), k, x, y);
  }

  lemma QuotientDismissal(t: map<Id, Dismissal>, dups: set<Id>, x: Id, y: Id, f: string)
    requires DismissedAs(t, x, y, f) && x !in dups && y !in dups
    ensures DismissedAs(DismissalsTo(t, dups), x, y, f)
  {
    var k :| k in t && DismissalRow(t, k, x, y) && t[k].fingerprint == f;
    assert DismissalRow(DismissalsTo(t, dups), k, x, y);
  }

  lemma MergeDismissals(q: Request, db: Db, db': Db, x: Id, y: Id, f: string)
    requires (q.Delete? || q.MergeNamesakes? || q.MergePair?) && MergeMakes(q, db, db')
    requires x in db'.assets && y in db'.assets && DismissedAs(db.dismissals, x, y, f)
    ensures DismissedAs(db'.dismissals, x, y, f)
  {
    hide AddressesDeleted, LogsDeleted, AddressesMoved, LogsMoved, Cleaned, Namesakes, DismissedAs, Kept, DismissalsTo;
    match q {
      case Delete(a) =>
        if a in db.assets {
          KeptDismissal(db.dismissals, a, x, y, f);
        }
      case MergeNamesakes(v) =>
        var dups := Namesakes(db.assets, v);
        assert db'.assets == MergedAway(ViewOf(db), v, dups).assets;
        assert db'.dismissals == MergedAway(ViewOf(db), v, dups).dismissals;
        if dups != {} {
          QuotientDismissal(db.dismissals, dups, x, y, f);
        }
      case MergePair(v, p, q) =>
        KeptDismissalIf(db.dismissals, if v == q then p else q, x, y, f);
    }
  }

  lemma KeptDismissalIf(t: map<Id, Dismissal>, a: Id, x: Id, y: Id, f: string)
    requires DismissedAs(t, x, y, f)
    ensures x != a && y != a ==> DismissedAs(Kept(t, DismissalOf(a)), x, y, f)
  {
    hide Kept, DismissedAs;
    if x != a && y != a {
      KeptDismissal(t, a, x, y, f);
    }
  }

  lemma SameOffers(cs: seq<Candidate>, ds: seq<Candidate>, x: Id, y: Id)
    requires multiset(cs) == multiset(ds) && Offered(cs, x, y)
    ensures Offered(ds, x, y)
  {
    var i :| 0 <= i < |cs| && Between(cs[i].a, cs[i].b, x, y);
    assert cs[i] in multiset(ds);
    var j :| 0 <= j < |ds| && ds[j] == cs[i];
  }

  lemma PairStaysDismissed(db: Db, db': Db, r: Reader, v: Id, w: Id, x: Id, y: Id, f: string)
    requires PairDismissed(db, db', r, v, w) && x != y && x in db.assets && y in db.assets
    requires DismissedAs(db.dismissals, x, y, f)
    requires Between(v, w, x, y) ==> Fingerprint(r, db.assets, db.interfaces, x, y) == f
    ensures DismissedAs(db'.dismissals, x, y, f)
  {
    hide DismissedAs, Fingerprint, SameLinksBut, OtherKindsKept, AlreadyLinked;
    FingerprintEitherWay(r, db.assets, db.interfaces, x, y);
    if Between(v, w, x, y) {
      OnlyAsEitherWay(db'.dismissals, v, w, f);
    }
  }

  lemma ListStaysDismissed(db: Db, db': Db, r: Reader, min: int, order: seq<Id>, x: Id, y: Id, f: string)
    requires AllDismissed(db, db', r, min, order) && x in db.assets && y in db.assets
    requires DismissedAs(db.dismissals, x, y, f)
    requires IsListing(order, db.assets) && Offered(Listed(Searched(db), r, min, order), x, y) ==>
      Fingerprint(r, db.assets, db.interfaces, x, y) == f
    ensures DismissedAs(db'.dismissals, x, y, f)
  {
    hide DismissedAs, Fingerprint, Listed, Offered;
    if IsListing(order, db.assets) {
      var cs :| multiset(cs) == multiset(Listed(Searched(db), r, min, order))
                && ClosedBy(Searched(db), Searched(db'), r, cs);
      if Offered(cs, x, y) {
        SameOffers(cs, Listed(Searched(db), r, min, order), x, y);
        assert DismissedOnlyAs(db'.dismissals, x, y, f);
      }
    }
  }

  lemma StepDismissals(q: Request, r: Reader, b: Budget, s: Shot, t: Shot, x: Id, y: Id, f: string)
    requires Does(q, r, b, s, t) && x != y && DismissedAs(s.db.dismissals, x, y, f)
    requires x in s.db.assets && y in s.db.assets && x in t.db.assets && y in t.db.assets
    requires Redismisses(q, r, s.db, x, y) ==> PairNow(r, s, x, y) == f
    ensures DismissedAs(t.db.dismissals, x, y, f)
  {
    hide AssetMakes, MergeMakes, LinkMakes, SpendingMakes, FindingMakes, PairDismissed, AllDismissed;
    hide DismissedAs, Fingerprint, Offered, RunOf;
    if q.Delete? || q.MergeNamesakes? || q.MergePair? {
      MergeDismissals(q, s.db, t.db, x, y, f);
    } else if q.DismissPair? {
      PairStaysDismissed(s.db, t.db, r, q.a, q.b, x, y, f);
    } else if q.DismissAllListed? {
      ListStaysDismissed(s.db, t.db, r, q.min, q.order, x, y, f);
    } else if q.CreateAsset? || q.EditAsset? || q.AddNoteTo? || q.ClearChat? {
      AssetLeaves(q, s, t);
    } else if !q.DiscoverDevices? {
      QuietLeaves(q, r, b, s, t);
    }
  }

  // From moment `i` to moment `j` the pair is dismissed anew only as `f`.
  ghost predicate RedismissedOnlyAs(qs: seq<Request>, r: Reader, trace: seq<Shot>, i: nat, j: nat, x: Id, y: Id,
                                    f: string)
    requires j < |trace| == |qs| + 1
  {
    forall k :: i <= k < j && Redismisses(qs[k], r, trace[k].db, x, y)
                && x in trace[k].db.assets && y in trace[k].db.assets ==>
      PairNow(r, trace[k], x, y) == f
  }

  lemma {:induction false} DismissalLasts(qs: seq<Request>, r: Reader, b: Budget, trace: seq<Shot>, i: nat, j: nat,
                                          x: Id, y: Id, f: string)
    requires RanThrough(qs, r, b, trace) && i <= j < |trace| && x != y
    requires x in trace[i].db.assets && y in trace[i].db.assets && x in trace[j].db.assets && y in trace[j].db.assets
    requires DismissedAs(trace[i].db.dismissals, x, y, f) && RedismissedOnlyAs(qs, r, trace, i, j, x, y, f)
    ensures DismissedAs(trace[j].db.dismissals, x, y, f)
  {
    hide *;
    if i < j {
      ThereThroughout(qs, r, b, trace, i, j - 1, j, x);
      ThereThroughout(qs, r, b, trace, i, j - 1, j, y);
      LengthOf(qs, r, b, trace);
      Shorter(qs, r, trace, i, j, x, y, f);
      DismissalLasts(qs, r, b, trace, i, j - 1, x, y, f);
      StepOf(qs, r, b, trace, j - 1);
      StepDismissals(qs[j - 1], r, b, trace[j - 1], trace[j], x, y, f);
    }
  }

  lemma Shorter(qs: seq<Request>, r: Reader, trace: seq<Shot>, i: nat, j: nat, x: Id, y: Id, f: string)
    requires i < j < |trace| == |qs| + 1 && RedismissedOnlyAs(qs, r, trace, i, j, x, y, f)
    requires x in trace[j - 1].db.assets && y in trace[j - 1].db.assets
    ensures RedismissedOnlyAs(qs, r, trace, i, j - 1, x, y, f)
    ensures Redismisses(qs[j - 1], r, trace[j - 1].db, x, y) ==> PairNow(r, trace[j - 1], x, y) == f
  {
    hide Redismisses, PairNow;
  }

  /** A pair dismissed at one moment is on no list at any later moment at which both assets are still
      there with the type, name, vendor and MACs they had, whatever happened in between to them and to
      everything else: edits, discovery, merges, deletions, links, other dismissals.  The one thing that can bring it
      back is the admin dismissing the same pair again while it had other identities. */
  lemma DismissedForGood(qs: seq<Request>, r: Reader, b: Budget, trace: seq<Shot>, i: nat, j: nat, x: Id, y: Id,
                         min: int, order: seq<Id>, score: int)
    requires RanThrough(qs, r, b, trace) && i <= j < |trace| && x != y
    requires x in trace[i].db.assets && y in trace[i].db.assets && x in trace[j].db.assets && y in trace[j].db.assets
    requires DismissedAs(trace[i].db.dismissals, x, y, PairNow(r, trace[i], x, y))
    requires RedismissedOnlyAs(qs, r, trace, i, j, x, y, PairNow(r, trace[i], x, y))
    requires SameIdentities(r, Searched(trace[i].db), Searched(trace[j].db), x, y)
    requires forall k :: 0 <= k < |order| ==> order[k] in trace[j].db.assets
    ensures Candidate(x, y, score) !in Listed(Searched(trace[j].db), r, min, order)
    ensures Candidate(y, x, score) !in Listed(Searched(trace[j].db), r, min, order)
  {
    hide *;
    DismissalLasts(qs, r, b, trace, i, j, x, y, PairNow(r, trace[i], x, y));
    WhatIsSearched(r, trace[i], x, y);
    WhatIsSearched(r, trace[j], x, y);
    DismissedStaysAway(Searched(trace[i].db), Searched(trace[j].db), r, min, order, x, y);
  }

  lemma WhatIsSearched(r: Reader, s: Shot, x: Id, y: Id)
    requires x in s.db.assets && y in s.db.assets
    ensures var t := Searched(s.db);
      && t.assets == s.db.assets && t.interfaces == s.db.interfaces && t.dismissals == s.db.dismissals
      && PairNow(r, s, x, y) == Fingerprint(r, t.assets, t.interfaces, x, y)
  {
    hide Fingerprint;
  }

  // ---- addresses ----

  lemma KeptMacs(t: map<Id, Interface>, a: Id)
    requires MacsApart(t)
    ensures MacsApart(Kept(t, InterfaceOf(a)))
  {
  }

  // The same, said of the (owner, address) pairs that a merge maps.
  ghost predicate OwnersApart(ps: set<(Id, (Text, Text))>) {
    forall p, q :: p in ps && q in ps && p.1.0.Some? && p.1.0 == q.1.0 ==> p.0 == q.0
  }

  lemma MacsAsPairs(t: map<Id, Interface>)
    ensures MacsApart(t) <==> OwnersApart(Keyed(t, InterfaceOwner(), Address()))
  {
    var ps := Keyed(t, InterfaceOwner(), Address());
    assert forall i :: i in t ==> (t[i].assetId, (t[i].mac, t[i].ip)) in ps;
    if OwnersApart(ps) {
      forall i, j | i in t && j in t && t[i].mac.Some? && t[i].mac == t[j].mac ensures t[i].assetId == t[j].assetId {
        assert (t[i].assetId, (t[i].mac, t[i].ip)) in ps && (t[j].assetId, (t[j].mac, t[j].ip)) in ps;
      }
    }
  }

  lemma QuotientOwners(ps: set<(Id, (Text, Text))>, s: Id, dups: set<Id>)
    requires OwnersApart(ps)
    ensures OwnersApart(KeyedTo(ps, s, dups))
  {
  }

  lemma MergedMacs(db: Db, db': Db, s: Id, dups: set<Id>)
    requires MacsApart(db.interfaces) && ViewOf(db') == MergedAway(ViewOf(db), s, dups)
    ensures MacsApart(db'.interfaces)
  {
    hide MacsApart, OwnersApart, Keyed, KeyedTo;
    MacsAsPairs(db.interfaces);
    MacsAsPairs(db'.interfaces);
    QuotientOwners(ViewOf(db).addresses, s, dups);
    assert ViewOf(db').addresses == MergedAway(ViewOf(db), s, dups).addresses;
  }

  lemma MergeMacs(q: Request, db: Db, db': Db)
    requires (q.Delete? || q.MergeNamesakes? || q.MergePair?) && MergeMakes(q, db, db') && MacsApart(db.interfaces)
    ensures MacsApart(db'.interfaces)
  {
    hide MacsApart, ViewOf, MergedAway, Namesakes, LogsDeleted, LinksDeleted, Merged, Kept;
    match q {
      case Delete(a) => KeptMacs(db.interfaces, a);
      case MergeNamesakes(v) => MergedMacs(db, db', v, Namesakes(db.assets, v));
      case MergePair(v, x, y) =>
        var d := if v == y then x else y;
        if Merged(db, db', v, d) && v != d {
          MergeIsQuotient(db, db', v, d);
          OneMerged(ViewOf(db), v, d);
          MergedMacs(db, db', v, {d});
        }
    }
  }

  lemma OneMerged(v: View, s: Id, d: Id)
    ensures MergedAway(v, s, {d}) == Quotient(v, s, {d})
  {
    hide Quotient;
  }

  predicate AwayFromGateway(q: Request) {
    q.DiscoverDevices? ==> forall i :: 0 <= i < |q.devices| ==> !AtGateway(q.devices[i], q.gatewayIps, q.gatewayMac)
  }

  lemma StepMacs(q: Request, r: Reader, b: Budget, s: Shot, t: Shot)
    requires Does(q, r, b, s, t) && AwayFromGateway(q) && MacsApart(s.db.interfaces)
    ensures MacsApart(t.db.interfaces)
  {
    hide DiscoveryMakes, AssetMakes, MergeMakes, LinkMakes, DismissalMakes, SpendingMakes, FindingMakes;
    hide MacsApart, FacesStay, PortsStay, AtGateway;
    if q.Delete? || q.MergeNamesakes? || q.MergePair? {
      MergeMacs(q, s.db, t.db);
    } else if q.CreateAsset? || q.EditAsset? || q.AddNoteTo? || q.ClearChat? {
      AssetLeaves(q, s, t);
    } else if q.DismissPair? || q.DismissAllListed? {
      DismissalLeaves(q, r, s.db, t.db);
    } else if q.DiscoverDevices? {
      DiscoveryStays(q.devices, q.gatewayIps, q.gatewayMac, q.env, s, t);
    } else {
      QuietLeaves(q, r, b, s, t);
    }
  }

  /** While no discovery run meets a gateway address, no MAC is ever on interfaces of two assets: not
      after discovery, merges in any number, deletions or anything else. */
  lemma {:induction false} MacsStayApart(qs: seq<Request>, r: Reader, b: Budget, trace: seq<Shot>, i: nat, j: nat)
    requires RanThrough(qs, r, b, trace) && i <= j < |trace| == |qs| + 1 && MacsApart(trace[i].db.interfaces)
    requires forall k :: i <= k < j ==> AwayFromGateway(qs[k])
    ensures MacsApart(trace[j].db.interfaces)
  {
    hide *;
    if i < j {
      MacsStayApart(qs, r, b, trace, i, j - 1);
      StepOf(qs, r, b, trace, j - 1);
      StepMacs(qs[j - 1], r, b, trace[j - 1], trace[j]);
    }
  }

  // ---- the exposure of findings ----

  // Each finding is of an asset, and an open one has the exposure of its asset as the asset is now and
  // the date that this gives.
  ghost predicate FindingsFit(db: Db) {
    forall k :: k in db.findings && db.findings[k].status == Open ==>
      var f := db.findings[k];
      f.assetId in db.assets
      && f.exposure == (if db.assets[f.assetId].internetFacing then InternetFacing else Internal)
      && f.due == Some(DueDate(f.severity, f.exposure, f.detected))
  }

  lemma ResyncedFit(db: Db, db': Db)
    requires Sound(db) && ExposureResynced(db, db', false)
    ensures FindingsFit(db')
  {
    hide Mirrored, OneRowPerPair, UniquePorts, LogsLive, LinksLive, PlanOf, NotesOf, DueDate, Resynced;
    forall k | k in db'.findings && db'.findings[k].status == Open
      ensures var f := db'.findings[k];
        f.assetId in db'.assets && f.exposure == ExposureOf(db'.assets[f.assetId]) && FindingOk(f)
    {
      ResyncMatchesAssets(db.findings, db.assets, k);
      ResyncKeepsOwner(db.findings[k], db.assets);
    }
  }

  lemma ResyncKeepsOwner(f: Finding, assets: map<Id, Asset>)
    ensures Resynced(f, assets).assetId == f.assetId
  {
  }

  /** After a resync every open finding agrees with its asset and is due when that says, whatever edits
      and merges went before. */
  lemma ResyncedAgrees(qs: seq<Request>, r: Reader, b: Budget, trace: seq<Shot>, k: nat)
    requires RanThrough(qs, r, b, trace) && k < |qs| == |trace| - 1 && qs[k] == ResyncExposure(false)
    ensures FindingsFit(trace[k + 1].db)
  {
    hide *;
    StepOf(qs, r, b, trace, k);
    ResyncOf(qs[k], r, b, trace[k], trace[k + 1]);
    ResyncedFit(trace[k].db, trace[k + 1].db);
  }

  lemma ResyncOf(q: Request, r: Reader, b: Budget, s: Shot, t: Shot)
    requires Does(q, r, b, s, t) && q == ResyncExposure(false) && Good(s, b)
    ensures Sound(s.db) && ExposureResynced(s.db, t.db, false)
  {
    hide DiscoveryMakes, AssetMakes, MergeMakes, LinkMakes, DismissalMakes, SpendingMakes;
    hide ExposureResynced, Sound, Ledger;
  }
}
