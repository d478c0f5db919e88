/** What deleting an asset and merging duplicates leave behind (app/asset_children.py,
    app/asset_merge.py, app/routers/dashboard.py). */
module MergeQuotient {
  import opened Basics
  import opened Models
  import opened AssetChildren

  // ---- no row refers to an asset that is gone ----

  ghost predicate NoReference(db: Db, a: Id) {
    NoAddressReference(db, a) && NoLogReference(db, a) && NoLinkReference(db, a)
  }

  ghost predicate NoAddressReference(db: Db, a: Id) {
    && (forall k :: k in db.interfaces ==> db.interfaces[k].assetId != a)
    && (forall k :: k in db.services ==> db.services[k].assetId != a)
    && (forall k :: k in db.findings ==> db.findings[k].assetId != a)
  }

  ghost predicate NoLogReference(db: Db, a: Id) {
    && (forall k :: k in db.proposals ==> db.proposals[k].assetId != a && db.proposals[k].origin != Some(a))
    && (forall i :: 0 <= i < |db.notes| ==> db.notes[i].assetId != a)
    && (forall i :: 0 <= i < |db.probeResults| ==> db.probeResults[i].assetId != a)
    && (forall i :: 0 <= i < |db.chat| ==> db.chat[i].assetId != a)
    && (forall i :: 0 <= i < |db.usage| ==> db.usage[i].assetId != Some(a))
  }

  ghost predicate NoLinkReference(db: Db, a: Id) {
    && (forall k :: k in db.relationships ==> !Touches(db.relationships[k], a))
    && (forall k :: k in db.dismissals ==> !DismissalOf(a)(db.dismissals[k]))
  }

  lemma {:induction false} FilteredOut<R>(t: seq<R>, p: R -> bool)
    ensures forall i :: 0 <= i < |Filter(t, p)| ==> p(Filter(t, p)[i])
  {
    if t != [] {
      FilteredOut(t[..|t| - 1], p);
    }
  }

  /** After `delete_asset_cascade` nothing refers to the asset. */
  lemma DeleteLeavesNoReference(db: Db, db': Db, a: Id)
    requires Deleted(db, db', a)
    ensures NoReference(db', a) && a !in db'.assets
  {
    hide LogsDeleted, NoLogReference;
    DeletedLogsNoReference(db, db', a);
  }

  lemma DeletedLogsNoReference(db: Db, db': Db, a: Id)
    requires LogsDeleted(db, db', a)
    ensures NoLogReference(db', a)
  {
    FilteredOut(db.notes, Not(RowOf(a)));
    FilteredOut(db.probeResults, Not(RowOf(a)));
    FilteredOut(db.chat, Not(MessageOf(a)));
  }

  lemma RehomedMeaning<R, K>(t: map<Id, R>, u: map<Id, R>, surv: R -> bool, dup: R -> bool, key: R -> K, move: R -> R)
    requires MovedDistinct(t, u, surv, dup, key, move)
    ensures forall k :: k in u ==> k in t && u[k] == if dup(t[k]) then move(t[k]) else t[k]
    ensures forall k :: k in t && !dup(t[k]) ==> k in u
  {
  }

  lemma CleanedMeaning(t: map<Id, Relationship>, u: map<Id, Relationship>, s: Id)
    requires Cleaned(t, u, s)
    ensures forall k :: k in u ==> k in t && u[k] == t[k]
    ensures forall k :: k in t && !Touches(t[k], s) ==> k in u
  {
  }

  lemma MovedLogsNoReference(db: Db, db': Db, s: Id, d: Id)
    requires s != d && LogsMoved(db, db', s, d)
    ensures NoLogReference(db', d)
  {
  }

  /** After a merge nothing refers to the duplicate. */
  lemma MergeLeavesNoReference(db: Db, db': Db, s: Id, d: Id)
    requires s != d && Merged(db, db', s, d)
    ensures NoReference(db', d) && d !in db'.assets
  {
    hide MovedDistinct, Cleaned, LogsMoved, NoLogReference;
    RehomedMeaning(db.interfaces, db'.interfaces, InterfaceOf(s), InterfaceOf(d), Address(), InterfaceTo(s));
    RehomedMeaning(db.services, db'.services, ServiceOf(s), ServiceOf(d), Listener(), ServiceTo(s));
    MovedLogsNoReference(db, db', s, d);
    CleanedMeaning(Changed(db.relationships, RelationshipOf(d), Repointed(s, d)), db'.relationships, s);
  }

  /** A merge changes no interface or service of an asset other than the duplicate, and no
      relationship that touches neither of the two. */
  lemma MergeSparesTheRest(db: Db, db': Db, s: Id, d: Id)
    requires s != d && Merged(db, db', s, d)
    ensures forall k :: k in db.interfaces && db.interfaces[k].assetId != d ==>
      k in db'.interfaces && db'.interfaces[k] == db.interfaces[k]
    ensures forall k :: k in db.services && db.services[k].assetId != d ==>
      k in db'.services && db'.services[k] == db.services[k]
    ensures forall k :: k in db.relationships
                        && !Touches(db.relationships[k], s) && !Touches(db.relationships[k], d) ==>
      k in db'.relationships && db'.relationships[k] == db.relationships[k]
    ensures db'.interfaces.Keys <= db.interfaces.Keys && db'.services.Keys <= db.services.Keys
    ensures db'.relationships.Keys <= db.relationships.Keys && db'.findings.Keys == db.findings.Keys
    ensures db'.dismissals.Keys <= db.dismissals.Keys && db'.assets == db.assets - {d}
  {
    hide MovedDistinct, Cleaned, LogsMoved;
    RehomedMeaning(db.interfaces, db'.interfaces, InterfaceOf(s), InterfaceOf(d), Address(), InterfaceTo(s));
    RehomedMeaning(db.services, db'.services, ServiceOf(s), ServiceOf(d), Listener(), ServiceTo(s));
    CleanedMeaning(Changed(db.relationships, RelationshipOf(d), Repointed(s, d)), db'.relationships, s);
  }

  // ---- the columns of the rows that are left ----

  // The key under which an asset is found once `dups` were merged into `s`.
  function To(s: Id, dups: set<Id>, a: Id): Id {
    if a in dups then s else a
  }

  /** After the assets `dups` were merged into `s`, every interface, service and relationship that is left
      is the old row, but for the asset it names; and rows of other assets are left. */
  ghost predicate OnlyRepointed(db: Db, db': Db, s: Id, dups: set<Id>) {
    && (forall k :: k in db'.interfaces ==>
          k in db.interfaces
          && db'.interfaces[k] == db.interfaces[k].(assetId := To(s, dups, db.interfaces[k].assetId)))
    && (forall k :: k in db'.services ==>
          k in db.services && db'.services[k] == db.services[k].(assetId := To(s, dups, db.services[k].assetId)))
    && LinksRepointed(db.relationships, db'.relationships, s, dups)
    && (forall k :: k in db.interfaces && db.interfaces[k].assetId !in dups ==> k in db'.interfaces)
    && (forall k :: k in db.services && db.services[k].assetId !in dups ==> k in db'.services)
  }

  ghost predicate LinksRepointed(t: map<Id, Relationship>, u: map<Id, Relationship>, s: Id, dups: set<Id>) {
    && (forall k :: k in u ==>
          k in t && u[k] == t[k].(assetId := To(s, dups, t[k].assetId), relatedId := To(s, dups, t[k].relatedId)))
    && (forall k :: k in t && t[k].assetId !in dups + {s} && t[k].relatedId !in dups + {s} ==> k in u)
  }

  /** A merge changes of the rows that are left nothing but the asset they name, in every table. */
  lemma MergedRows(db: Db, db': Db, s: Id, d: Id)
    requires s != d && Merged(db, db', s, d)
    ensures OnlyRepointed(db, db', s, {d})
  {
    hide Cleaned, LogsMoved, MovedDistinct;
    MergeSparesTheRest(db, db', s, d);
    RehomedMeaning(db.interfaces, db'.interfaces, InterfaceOf(s), InterfaceOf(d), Address(), InterfaceTo(s));
    RehomedMeaning(db.services, db'.services, ServiceOf(s), ServiceOf(d), Listener(), ServiceTo(s));
    MergedLinkRows(db.relationships, db'.relationships, s, d);
  }

  lemma MergedLinkRows(t: map<Id, Relationship>, u: map<Id, Relationship>, s: Id, d: Id)
    requires s != d && Cleaned(Changed(t, RelationshipOf(d), Repointed(s, d)), u, s)
    ensures LinksRepointed(t, u, s, {d})
  {
    CleanedMeaning(Changed(t, RelationshipOf(d), Repointed(s, d)), u, s);
    hide Cleaned;
  }

  lemma MergedLogRows(db: Db, db': Db, s: Id, d: Id)
    requires s != d && Merged(db, db', s, d)
    ensures db'.findings.Keys == db.findings.Keys && db'.proposals.Keys == db.proposals.Keys
    ensures forall k :: k in db.findings ==>
      db'.findings[k] == db.findings[k].(assetId := To(s, {d}, db.findings[k].assetId))
    ensures forall k :: k in db.proposals ==>
      var p := db.proposals[k];
      db'.proposals[k] == p.(assetId := To(s, {d}, p.assetId),
                             origin := if p.origin == Some(d) then Some(s) else p.origin)
    ensures |db'.notes| == |db.notes| && |db'.probeResults| == |db.probeResults|
    ensures |db'.chat| == |db.chat| && |db'.usage| == |db.usage|
    ensures forall i :: 0 <= i < |db.notes| ==>
      db'.notes[i] == db.notes[i].(assetId := To(s, {d}, db.notes[i].assetId))
    ensures forall i :: 0 <= i < |db.probeResults| ==>
      db'.probeResults[i] == db.probeResults[i].(assetId := To(s, {d}, db.probeResults[i].assetId))
    ensures forall i :: 0 <= i < |db.chat| ==>
      db'.chat[i] == db.chat[i].(assetId := To(s, {d}, db.chat[i].assetId))
    ensures forall i :: 0 <= i < |db.usage| ==>
      db'.usage[i] == if db.usage[i].assetId == Some(d) then db.usage[i].(assetId := Some(s)) else db.usage[i]
    ensures forall k :: k in db'.dismissals <==>
      k in db.dismissals && db.dismissals[k].assetA != d && db.dismissals[k].assetB != d
    ensures forall k :: k in db'.dismissals ==> db'.dismissals[k] == db.dismissals[k]
  {
    hide MovedDistinct, Cleaned;
  }

  lemma NothingRepointed(db: Db, s: Id)
    ensures OnlyRepointed(db, db, s, {})
  {
  }

  /** Merging one more duplicate after the first ones is merging all of them. */
  lemma RepointedTwice(db: Db, db1: Db, db2: Db, s: Id, dups: set<Id>, d: Id)
    requires s !in dups && s != d
    requires OnlyRepointed(db, db1, s, dups) && OnlyRepointed(db1, db2, s, {d})
    ensures OnlyRepointed(db, db2, s, dups + {d})
  {
    hide LinksRepointed;
    LinksRepointedTwice(db.relationships, db1.relationships, db2.relationships, s, dups, d);
  }

  lemma LinksRepointedTwice(t: map<Id, Relationship>, t1: map<Id, Relationship>, t2: map<Id, Relationship>,
                            s: Id, dups: set<Id>, d: Id)
    requires s !in dups && s != d && LinksRepointed(t, t1, s, dups) && LinksRepointed(t1, t2, s, {d})
    ensures LinksRepointed(t, t2, s, dups + {d})
  {
  }

  // ---- what a deletion leaves alone ----

  /** Deleting an asset changes no row that does not refer to it, and keeps every proposal about
      another asset. */
  lemma DeleteSparesRows(db: Db, db': Db, a: Id)
    requires Deleted(db, db', a)
    ensures forall k :: k in db'.interfaces <==> k in db.interfaces && db.interfaces[k].assetId != a
    ensures forall k :: k in db'.interfaces ==> db'.interfaces[k] == db.interfaces[k]
    ensures forall k :: k in db'.services <==> k in db.services && db.services[k].assetId != a
    ensures forall k :: k in db'.services ==> db'.services[k] == db.services[k]
    ensures forall k :: k in db'.findings <==> k in db.findings && db.findings[k].assetId != a
    ensures forall k :: k in db'.findings ==> db'.findings[k] == db.findings[k]
    ensures forall k :: k in db'.proposals <==> k in db.proposals && db.proposals[k].assetId != a
    ensures forall k :: k in db'.proposals ==>
      db'.proposals[k] == (if db.proposals[k].origin == Some(a)
                             then db.proposals[k].(origin := None) else db.proposals[k])
    ensures forall k :: k in db'.relationships <==> k in db.relationships && !Touches(db.relationships[k], a)
    ensures forall k :: k in db'.relationships ==> db'.relationships[k] == db.relationships[k]
    ensures forall k :: k in db'.dismissals <==> k in db.dismissals && !DismissalOf(a)(db.dismissals[k])
    ensures forall k :: k in db'.dismissals ==> db'.dismissals[k] == db.dismissals[k]
  {
    hide LogsDeleted, AddressesDeleted, LinksDeleted;
    AddressesAfterDelete(db, db', a);
    ProposalsAfterDelete(db, db', a);
    LinksAfterDelete(db, db', a);
  }

  lemma AddressesAfterDelete(db: Db, db': Db, a: Id)
    requires AddressesDeleted(db, db', a)
    ensures forall k :: k in db'.interfaces <==> k in db.interfaces && db.interfaces[k].assetId != a
    ensures forall k :: k in db'.interfaces ==> db'.interfaces[k] == db.interfaces[k]
    ensures forall k :: k in db'.services <==> k in db.services && db.services[k].assetId != a
    ensures forall k :: k in db'.services ==> db'.services[k] == db.services[k]
    ensures forall k :: k in db'.findings <==> k in db.findings && db.findings[k].assetId != a
    ensures forall k :: k in db'.findings ==> db'.findings[k] == db.findings[k]
  {
  }

  lemma LinksAfterDelete(db: Db, db': Db, a: Id)
    requires LinksDeleted(db, db', a)
    ensures forall k :: k in db'.relationships <==> k in db.relationships && !Touches(db.relationships[k], a)
    ensures forall k :: k in db'.relationships ==> db'.relationships[k] == db.relationships[k]
    ensures forall k :: k in db'.dismissals <==> k in db.dismissals && !DismissalOf(a)(db.dismissals[k])
    ensures forall k :: k in db'.dismissals ==> db'.dismissals[k] == db.dismissals[k]
  {
  }

  lemma ProposalsAfterDelete(db: Db, db': Db, a: Id)
    requires LogsDeleted(db, db', a)
    ensures forall k :: k in db'.proposals <==> k in db.proposals && db.proposals[k].assetId != a
    ensures forall k :: k in db'.proposals ==>
      db'.proposals[k] == (if db.proposals[k].origin == Some(a)
                             then db.proposals[k].(origin := None) else db.proposals[k])
  {
  }

  /** ... and no log row of another asset, of which each is there as often as before; the ledger
      keeps all its rows, in place. */
  lemma DeleteSparesLogs(db: Db, db': Db, a: Id, r: LogRow, m: ChatMessage)
    requires Deleted(db, db', a)
    ensures multiset(db'.notes)[r] == if r.assetId == a then 0 else multiset(db.notes)[r]
    ensures multiset(db'.probeResults)[r] == if r.assetId == a then 0 else multiset(db.probeResults)[r]
    ensures multiset(db'.chat)[m] == if m.assetId == a then 0 else multiset(db.chat)[m]
    ensures |db'.usage| == |db.usage|
    ensures forall i :: 0 <= i < |db.usage| ==>
      db'.usage[i] == if db.usage[i].assetId == Some(a) then db.usage[i].(assetId := None) else db.usage[i]
  {
    FilterCount(db.notes, Not(RowOf(a)), r);
    FilterCount(db.probeResults, Not(RowOf(a)), r);
    FilterCount(db.chat, Not(MessageOf(a)), m);
  }

  lemma {:induction false} FilterCount<R>(t: seq<R>, p: R -> bool, r: R)
    ensures multiset(Filter(t, p))[r] == if p(r) then multiset(t)[r] else 0
  {
    if t != [] {
      FilterCount(t[..|t| - 1], p, r);
      assert t == t[..|t| - 1] + [t[|t| - 1]];
    }
  }

  // ---- the database up to the identity of duplicate rows ----

  datatype View = View(
    assets: map<Id, Asset>, addresses: set<(Id, (Text, Text))>, listeners: set<(Id, (int, string))>,
    findings: map<Id, Finding>, proposals: map<Id, Proposal>, triples: set<Triple>,
    dismissals: map<Id, Dismissal>, notes: seq<LogRow>, probeResults: seq<LogRow>,
    chat: seq<ChatMessage>, usage: seq<Usage>)

  function Keyed<R, K(==)>(t: map<Id, R>, owner: R -> Id, key: R -> K): set<(Id, K)> {
    set k | k in t :: (owner(t[k]), key(t[k]))
  }

  function InterfaceOwner(): Interface -> Id { (r: Interface) => r.assetId }
  function ServiceOwner(): Service -> Id { (r: Service) => r.assetId }

  function Triples(t: map<Id, Relationship>): set<Triple> {
    set k | k in t :: TripleOf(t[k])
  }

  function ViewOf(db: Db): View {
    View(db.assets, Keyed(db.interfaces, InterfaceOwner(), Address()), Keyed(db.services, ServiceOwner(), Listener()),
         db.findings, db.proposals, Triples(db.relationships), db.dismissals, db.notes, db.probeResults,
         db.chat, db.usage)
  }

  predicate HasAddress(t: map<Id, Interface>, a: Id, mac: Text, ip: Text) {
    exists k :: k in t && t[k].assetId == a && t[k].mac == mac && t[k].ip == ip
  }

  predicate ListensOn(t: map<Id, Service>, a: Id, port: int, protocol: string) {
    exists k :: k in t && t[k].assetId == a && t[k].port == port && t[k].protocol == protocol
  }

  predicate IsRelated(t: map<Id, Relationship>, a: Id, b: Id, kind: string) {
    exists k :: k in t && t[k].assetId == a && t[k].relatedId == b && t[k].kind == kind
  }

  lemma ViewMeaning(db: Db, a: Id, b: Id, mac: Text, ip: Text, port: int, protocol: string, kind: string)
    ensures (a, (mac, ip)) in ViewOf(db).addresses <==> HasAddress(db.interfaces, a, mac, ip)
    ensures (a, (port, protocol)) in ViewOf(db).listeners <==> ListensOn(db.services, a, port, protocol)
    ensures (a, b, kind) in ViewOf(db).triples <==> IsRelated(db.relationships, a, b, kind)
  {
  }

  // ---- the quotient: every duplicate becomes the survivor ----

  function OptTo(s: Id, dups: set<Id>, a: Option<Id>): Option<Id> {
    if a.Some? then Some(To(s, dups, a.value)) else None
  }

  function KeyedTo<K(==)>(ps: set<(Id, K)>, s: Id, dups: set<Id>): set<(Id, K)> {
    set p | p in ps :: (To(s, dups, p.0), p.1)
  }

  function TripleTo(s: Id, dups: set<Id>, t: Triple): Triple {
    (To(s, dups, t.0), To(s, dups, t.1), t.2)
  }

  function TriplesTo(ts: set<Triple>, s: Id, dups: set<Id>): set<Triple> {
    set t | t in ts && !(TripleTo(s, dups, t).0 == s && TripleTo(s, dups, t).1 == s) :: TripleTo(s, dups, t)
  }

  function FindingsTo(t: map<Id, Finding>, s: Id, dups: set<Id>): map<Id, Finding> {
    map k | k in t :: t[k].(assetId := To(s, dups, t[k].assetId))
  }

  function ProposalsTo(t: map<Id, Proposal>, s: Id, dups: set<Id>): map<Id, Proposal> {
    map k | k in t :: t[k].(assetId := To(s, dups, t[k].assetId), origin := OptTo(s, dups, t[k].origin))
  }

  function DismissalsTo(t: map<Id, Dismissal>, dups: set<Id>): map<Id, Dismissal> {
    map k | k in t && t[k].assetA !in dups && t[k].assetB !in dups :: t[k]
  }

  function RowsTo(t: seq<LogRow>, s: Id, dups: set<Id>): seq<LogRow> {
    seq(|t|, i requires 0 <= i < |t| => t[i].(assetId := To(s, dups, t[i].assetId)))
  }

  function MessagesTo(t: seq<ChatMessage>, s: Id, dups: set<Id>): seq<ChatMessage> {
    seq(|t|, i requires 0 <= i < |t| => t[i].(assetId := To(s, dups, t[i].assetId)))
  }

  function UsageTo(t: seq<Usage>, s: Id, dups: set<Id>): seq<Usage> {
    seq(|t|, i requires 0 <= i < |t| => t[i].(assetId := OptTo(s, dups, t[i].assetId)))
  }

  function Quotient(v: View, s: Id, dups: set<Id>): View {
    View(v.assets - dups, KeyedTo(v.addresses, s, dups), KeyedTo(v.listeners, s, dups),
         FindingsTo(v.findings, s, dups), ProposalsTo(v.proposals, s, dups), TriplesTo(v.triples, s, dups),
         DismissalsTo(v.dismissals, dups), RowsTo(v.notes, s, dups), RowsTo(v.probeResults, s, dups),
         MessagesTo(v.chat, s, dups), UsageTo(v.usage, s, dups))
  }

  // Every row's key is found again on the asset the row now belongs to.
  lemma KeyIsKept<R, K>(t: map<Id, R>, u: map<Id, R>, surv: R -> bool, dup: R -> bool, key: R -> K, move: R -> R, k: Id)
    requires MovedDistinct(t, u, surv, dup, key, move)
    requires k in t && forall i :: i in t ==> !(surv(t[i]) && dup(t[i]))
    ensures if dup(t[k]) then exists l :: l in t && l in u && (surv(t[l]) || dup(t[l])) && key(t[l]) == key(t[k])
            else k in u && u[k] == t[k]
  {
    var taken := KeysOf(t, RowsWhere(t, surv), key);
    var kept :| Representatives(t, RowsWhere(t, dup), kept, key, taken)
      && u == Rehomed(t, RowsWhere(t, dup), kept, move);
    if dup(t[k]) {
      assert k in RowsWhere(t, dup) && key(t[k]) in KeysOf(t, RowsWhere(t, dup), key);
      if key(t[k]) in taken {
        var l :| l in RowsWhere(t, surv) && key(t[l]) == key(t[k]);
        assert l in u;
      } else {
        var l :| l in kept && key(t[l]) == key(t[k]);
        assert l in u;
      }
    }
  }

  // The keys of the survivor become the union of both assets' keys; the others keep theirs.
  lemma KeysUnited<R(!new), K>(t: map<Id, R>, u: map<Id, R>, surv: R -> bool, dup: R -> bool, key: R -> K, move: R -> R,
                               owner: R -> Id, s: Id, d: Id)
    requires s != d && MovedDistinct(t, u, surv, dup, key, move)
    requires forall r :: (surv(r) <==> owner(r) == s) && (dup(r) <==> owner(r) == d)
    requires forall r :: owner(move(r)) == s && key(move(r)) == key(r)
    ensures Keyed(u, owner, key) == KeyedTo(Keyed(t, owner, key), s, {d})
  {
    RehomedMeaning(t, u, surv, dup, key, move);
    hide MovedDistinct;
    assert To(s, {d}, d) == s;
    assert forall k :: k in u ==> owner(u[k]) == To(s, {d}, owner(t[k])) && key(u[k]) == key(t[k]);
    forall p | p in KeyedTo(Keyed(t, owner, key), s, {d}) ensures p in Keyed(u, owner, key) {
      var k :| k in t && p == (To(s, {d}, owner(t[k])), key(t[k]));
      KeyIsKept(t, u, surv, dup, key, move, k);
      if dup(t[k]) {
        var l :| l in t && l in u && (surv(t[l]) || dup(t[l])) && key(t[l]) == key(t[k]);
        assert owner(u[l]) == s && key(u[l]) == key(t[k]);
        assert p.0 == To(s, {d}, d) == owner(u[l]) && p.1 == key(u[l]);
      }
    }
    forall p | p in Keyed(u, owner, key) ensures p in KeyedTo(Keyed(t, owner, key), s, {d}) {
      var k :| k in u && p == (owner(u[k]), key(u[k]));
      assert (owner(t[k]), key(t[k])) in Keyed(t, owner, key);
    }
  }

  // The row that stands for the triple of row `k` after the cleaning.
  lemma TripleStays(t: map<Id, Relationship>, u: map<Id, Relationship>, s: Id, kept: set<Id>, k: Id)
    requires Representatives(t, RowsWhere(t, ProperLink(s)), kept, TripleOf, {})
    requires u == Thinned(t, RowsWhere(t, RelationshipOf(s)), kept)
    requires k in t && !(t[k].assetId == s && t[k].relatedId == s)
    ensures TripleOf(t[k]) in Triples(u)
  {
    if Touches(t[k], s) {
      assert TripleOf(t[k]) in KeysOf(t, RowsWhere(t, ProperLink(s)), TripleOf);
      var l :| l in kept && TripleOf(t[l]) == TripleOf(t[k]);
      assert u[l] == t[l];
    } else {
      assert u[k] == t[k];
    }
  }

  lemma TripleWasThere(t: map<Id, Relationship>, u: map<Id, Relationship>, s: Id, kept: set<Id>, k: Id)
    requires Representatives(t, RowsWhere(t, ProperLink(s)), kept, TripleOf, {})
    requires u == Thinned(t, RowsWhere(t, RelationshipOf(s)), kept) && k in u
    ensures k in t && u[k] == t[k] && !(u[k].assetId == s && u[k].relatedId == s)
  {
  }

  lemma CleanedTriples(t: map<Id, Relationship>, u: map<Id, Relationship>, s: Id)
    requires Cleaned(t, u, s)
    ensures forall x :: x in Triples(u) <==> x in Triples(t) && !(x.0 == s && x.1 == s)
  {
    var kept :| Representatives(t, RowsWhere(t, ProperLink(s)), kept, TripleOf, {})
      && u == Thinned(t, RowsWhere(t, RelationshipOf(s)), kept);
    hide Representatives, RowsWhere, Thinned;
    forall x | x in Triples(u) ensures x in Triples(t) && !(x.0 == s && x.1 == s) {
      var k :| k in u && TripleOf(u[k]) == x;
      TripleWasThere(t, u, s, kept, k);
    }
    forall x | x in Triples(t) && !(x.0 == s && x.1 == s) ensures x in Triples(u) {
      var k :| k in t && TripleOf(t[k]) == x;
      TripleStays(t, u, s, kept, k);
    }
  }

  lemma RepointedTriples(t: map<Id, Relationship>, s: Id, d: Id)
    requires s != d
    ensures var m := Changed(t, RelationshipOf(d), Repointed(s, d));
      forall x :: x in Triples(m) <==> exists y :: y in Triples(t) && x == TripleTo(s, {d}, y)
  {
    var m := Changed(t, RelationshipOf(d), Repointed(s, d));
    assert forall k :: k in t ==> TripleOf(m[k]) == TripleTo(s, {d}, TripleOf(t[k]));
    forall x | x in Triples(m) ensures exists y :: y in Triples(t) && x == TripleTo(s, {d}, y) {
      var k :| k in m && TripleOf(m[k]) == x;
      assert TripleOf(t[k]) in Triples(t);
    }
    forall y | y in Triples(t) ensures TripleTo(s, {d}, y) in Triples(m) {
      var k :| k in t && TripleOf(t[k]) == y;
      assert k in m;
    }
  }

  lemma TriplesUnited(t: map<Id, Relationship>, u: map<Id, Relationship>, s: Id, d: Id)
    requires s != d && Cleaned(Changed(t, RelationshipOf(d), Repointed(s, d)), u, s)
    ensures Triples(u) == TriplesTo(Triples(t), s, {d})
  {
    RepointedTriples(t, s, d);
    CleanedTriples(Changed(t, RelationshipOf(d), Repointed(s, d)), u, s);
  }

  lemma ProposalsUnited(t: map<Id, Proposal>, s: Id, d: Id)
    requires s != d
    ensures Changed(Changed(t, ProposalOf(d), ProposalTo(s)), ProposalFrom(d), SetOrigin(Some(s)))
         == ProposalsTo(t, s, {d})
  {
  }

  lemma LogsUnited(notes: seq<LogRow>, chat: seq<ChatMessage>, usage: seq<Usage>, s: Id, d: Id)
    ensures ChangedLog(notes, RowOf(d), RowTo(s)) == RowsTo(notes, s, {d})
    ensures ChangedLog(chat, MessageOf(d), MessageTo(s)) == MessagesTo(chat, s, {d})
    ensures ChangedLog(usage, UsageOf(d), SetUser(Some(s))) == UsageTo(usage, s, {d})
  {
  }

  lemma RestUnited(findings: map<Id, Finding>, dismissals: map<Id, Dismissal>, s: Id, d: Id)
    ensures Changed(findings, FindingOf(d), FindingTo(s)) == FindingsTo(findings, s, {d})
    ensures Kept(dismissals, DismissalOf(d)) == DismissalsTo(dismissals, {d})
  {
  }

  /** One merge is the quotient by one duplicate. */
  lemma MergeIsQuotient(db: Db, db': Db, s: Id, d: Id)
    requires s != d && Merged(db, db', s, d)
    ensures ViewOf(db') == Quotient(ViewOf(db), s, {d})
  {
    hide MovedDistinct, Cleaned, Changed, ChangedLog, Kept, Keyed, KeyedTo, Triples, TriplesTo;
    hide FindingsTo, ProposalsTo, DismissalsTo, RowsTo, MessagesTo, UsageTo;
    KeysUnited(db.interfaces, db'.interfaces, InterfaceOf(s), InterfaceOf(d), Address(), InterfaceTo(s),
               InterfaceOwner(), s, d);
    KeysUnited(db.services, db'.services, ServiceOf(s), ServiceOf(d), Listener(), ServiceTo(s), ServiceOwner(), s, d);
    TriplesUnited(db.relationships, db'.relationships, s, d);
    ProposalsUnited(db.proposals, s, d);
    LogsUnited(db.notes, db.chat, db.usage, s, d);
    LogsUnited(db.probeResults, db.chat, db.usage, s, d);
    RestUnited(db.findings, db.dismissals, s, d);
  }

  lemma TriplesToTwice(ts: set<Triple>, s: Id, dups: set<Id>, more: set<Id>)
    requires s !in dups && s !in more
    ensures TriplesTo(TriplesTo(ts, s, dups), s, more) == TriplesTo(ts, s, dups + more)
  {
    forall x | x in TriplesTo(ts, s, dups + more) ensures x in TriplesTo(TriplesTo(ts, s, dups), s, more) {
      var t :| t in ts && x == TripleTo(s, dups + more, t) && !(x.0 == s && x.1 == s);
      assert TripleTo(s, dups, t) in TriplesTo(ts, s, dups);
    }
  }

  lemma KeyedToTwice<K>(ps: set<(Id, K)>, s: Id, dups: set<Id>, more: set<Id>)
    requires s !in dups && s !in more
    ensures KeyedTo(KeyedTo(ps, s, dups), s, more) == KeyedTo(ps, s, dups + more)
  {
  }

  lemma RestTwice(v: View, s: Id, dups: set<Id>, more: set<Id>)
    requires s !in dups && s !in more
    ensures FindingsTo(FindingsTo(v.findings, s, dups), s, more) == FindingsTo(v.findings, s, dups + more)
    ensures ProposalsTo(ProposalsTo(v.proposals, s, dups), s, more) == ProposalsTo(v.proposals, s, dups + more)
    ensures DismissalsTo(DismissalsTo(v.dismissals, dups), more) == DismissalsTo(v.dismissals, dups + more)
  {
  }

  lemma LogsTwice(v: View, s: Id, dups: set<Id>, more: set<Id>)
    requires s !in dups && s !in more
    ensures RowsTo(RowsTo(v.notes, s, dups), s, more) == RowsTo(v.notes, s, dups + more)
    ensures RowsTo(RowsTo(v.probeResults, s, dups), s, more) == RowsTo(v.probeResults, s, dups + more)
    ensures MessagesTo(MessagesTo(v.chat, s, dups), s, more) == MessagesTo(v.chat, s, dups + more)
    ensures UsageTo(UsageTo(v.usage, s, dups), s, more) == UsageTo(v.usage, s, dups + more)
  {
  }

  /** Merging more duplicates after the first ones is the quotient by all of them: the order and the
      grouping of the merges do not matter. */
  lemma QuotientTwice(v: View, s: Id, dups: set<Id>, more: set<Id>)
    requires s !in dups && s !in more
    ensures Quotient(Quotient(v, s, dups), s, more) == Quotient(v, s, dups + more)
  {
    hide KeyedTo, TriplesTo, FindingsTo, ProposalsTo, DismissalsTo, RowsTo, MessagesTo, UsageTo;
    KeyedToTwice(v.addresses, s, dups, more);
    KeyedToTwice(v.listeners, s, dups, more);
    TriplesToTwice(v.triples, s, dups, more);
    RestTwice(v, s, dups, more);
    LogsTwice(v, s, dups, more);
    assert v.assets - dups - more == v.assets - (dups + more);
  }

  // The view once `done` have been merged away; with none, not even the survivor is tidied.
  function MergedAway(v: View, s: Id, done: set<Id>): View {
    if done == {} then v else Quotient(v, s, done)
  }

  // `a` is what the asset `x` is found under once `dups` were merged into `s`.
  predicate FoundAs(s: Id, dups: set<Id>, x: Id, a: Id) {
    (x == a && x !in dups) || (a == s && x in dups)
  }

  ghost predicate SomeAddress(t: map<Id, Interface>, s: Id, dups: set<Id>, a: Id, mac: Text, ip: Text) {
    exists x :: FoundAs(s, dups, x, a) && HasAddress(t, x, mac, ip)
  }

  ghost predicate SomeListener(t: map<Id, Service>, s: Id, dups: set<Id>, a: Id, port: int, protocol: string) {
    exists x :: FoundAs(s, dups, x, a) && ListensOn(t, x, port, protocol)
  }

  ghost predicate SomeRelation(t: map<Id, Relationship>, s: Id, dups: set<Id>, a: Id, b: Id, kind: string) {
    exists x, y :: FoundAs(s, dups, x, a) && FoundAs(s, dups, y, b) && IsRelated(t, x, y, kind)
  }

  /** Once `dups` were merged into `s`, an asset has exactly the MAC and IP pairs and the ports that it had
      before, and the survivor those of every duplicate too; related are exactly the assets that were, each
      duplicate standing for the survivor, but never the survivor to itself. */
  lemma WhatMergesLeave(db: Db, db': Db, s: Id, dups: set<Id>, a: Id, b: Id,
                        mac: Text, ip: Text, port: int, protocol: string, kind: string)
    requires s !in dups && dups != {} && ViewOf(db') == MergedAway(ViewOf(db), s, dups)
    ensures HasAddress(db'.interfaces, a, mac, ip) <==> SomeAddress(db.interfaces, s, dups, a, mac, ip)
    ensures ListensOn(db'.services, a, port, protocol) <==> SomeListener(db.services, s, dups, a, port, protocol)
    ensures IsRelated(db'.relationships, a, b, kind) <==>
      !(a == s && b == s) && SomeRelation(db.relationships, s, dups, a, b, kind)
  {
    hide *;
    ViewMeaning(db', a, b, mac, ip, port, protocol, kind);
    MergedIsQuotient(ViewOf(db), s, dups);
    AddressesThere(db, s, dups, a, mac, ip);
    ListenersThere(db, s, dups, a, port, protocol);
    RelationsThere(db, s, dups, a, b, kind);
  }

  lemma MergedIsQuotient(v: View, s: Id, dups: set<Id>)
    requires dups != {}
    ensures MergedAway(v, s, dups).addresses == KeyedTo(v.addresses, s, dups)
    ensures MergedAway(v, s, dups).listeners == KeyedTo(v.listeners, s, dups)
    ensures MergedAway(v, s, dups).triples == TriplesTo(v.triples, s, dups)
  {
  }

  lemma AddressesThere(db: Db, s: Id, dups: set<Id>, a: Id, mac: Text, ip: Text)
    requires s !in dups
    ensures (a, (mac, ip)) in KeyedTo(ViewOf(db).addresses, s, dups)
      <==> SomeAddress(db.interfaces, s, dups, a, mac, ip)
  {
    hide ViewOf, HasAddress;
    forall x: Id ensures (x, (mac, ip)) in ViewOf(db).addresses <==> HasAddress(db.interfaces, x, mac, ip) {
      ViewMeaning(db, x, x, mac, ip, 0, "", "");
    }
  }

  lemma ListenersThere(db: Db, s: Id, dups: set<Id>, a: Id, port: int, protocol: string)
    requires s !in dups
    ensures (a, (port, protocol)) in KeyedTo(ViewOf(db).listeners, s, dups)
      <==> SomeListener(db.services, s, dups, a, port, protocol)
  {
    hide ViewOf, ListensOn;
    forall x: Id ensures (x, (port, protocol)) in ViewOf(db).listeners <==> ListensOn(db.services, x, port, protocol) {
      ViewMeaning(db, x, x, None, None, port, protocol, "");
    }
  }

  lemma RelationsThere(db: Db, s: Id, dups: set<Id>, a: Id, b: Id, kind: string)
    requires s !in dups
    ensures (a, b, kind) in TriplesTo(ViewOf(db).triples, s, dups)
      <==> !(a == s && b == s) && SomeRelation(db.relationships, s, dups, a, b, kind)
  {
    hide ViewOf, IsRelated;
    forall x: Id, y: Id ensures (x, y, kind) in ViewOf(db).triples <==> IsRelated(db.relationships, x, y, kind) {
      ViewMeaning(db, x, y, None, None, 0, "", kind);
    }
  }

  lemma OneMoreMerged(v: View, s: Id, done: set<Id>, d: Id)
    requires s !in done && s != d
    ensures Quotient(MergedAway(v, s, done), s, {d}) == MergedAway(v, s, done + {d})
  {
    if done == {} {
      assert done + {d} == {d};
    } else {
      QuotientTwice(v, s, done, {d});
    }
  }
}
