/** Deleting and merging assets by hand-written loops over every table that refers to them
    (app/asset_children.py, app/asset_merge.py). */
module AssetChildren {
  import opened Basics
  import opened Models

  // ---- the loops, one table at a time ----

  /** Rows that stay when those that satisfy `goes` are deleted. */
  function Kept<R>(t: map<Id, R>, goes: R -> bool): map<Id, R> {
    map k | k in t && !goes(t[k]) :: t[k]
  }

  function Not<R>(p: R -> bool): R -> bool {
    r => !p(r)
  }

  /** The table with `change` applied to each row that satisfies `hit`. */
  function Changed<R>(t: map<Id, R>, hit: R -> bool, change: R -> R): map<Id, R> {
    map k | k in t :: if hit(t[k]) then change(t[k]) else t[k]
  }

  function ChangedLog<R>(t: seq<R>, hit: R -> bool, change: R -> R): (u: seq<R>)
    ensures |u| == |t| && forall i :: 0 <= i < |t| ==> u[i] == if hit(t[i]) then change(t[i]) else t[i]
  {
    seq(|t|, i requires 0 <= i < |t| => if hit(t[i]) then change(t[i]) else t[i])
  }

  method DeleteRows<R>(t: map<Id, R>, goes: R -> bool) returns (u: map<Id, R>)
    ensures u == Kept(t, goes)
    ensures u.Keys <= t.Keys
  {
    u := t;
    var rest := t.Keys;
    while rest != {}
      invariant rest <= t.Keys
      invariant u == map k | k in t && (k in rest || !goes(t[k])) :: t[k]
    {
      var k: Id :| k in rest;
      rest := rest - {k};
      if goes(t[k]) {
        u := u - {k};
      }
    }
  }

  method DeleteLog<R>(t: seq<R>, goes: R -> bool) returns (u: seq<R>)
    ensures u == Filter(t, Not(goes))
  {
    u := [];
    for i := 0 to |t|
      invariant u == Filter(t[..i], Not(goes))
    {
      assert t[..i + 1][..i] == t[..i];
      if !goes(t[i]) {
        u := u + [t[i]];
      }
    }
    assert t[..|t|] == t;
  }

  method ChangeRows<R>(t: map<Id, R>, hit: R -> bool, change: R -> R) returns (u: map<Id, R>)
    ensures u == Changed(t, hit, change)
    ensures u.Keys <= t.Keys
  {
    u := t;
    var rest := t.Keys;
    while rest != {}
      invariant rest <= t.Keys
      invariant u == map k | k in t :: if k !in rest && hit(t[k]) then change(t[k]) else t[k]
    {
      var k: Id :| k in rest;
      rest := rest - {k};
      if hit(t[k]) {
        u := u[k := change(t[k])];
      }
    }
  }

  method ChangeLog<R>(t: seq<R>, hit: R -> bool, change: R -> R) returns (u: seq<R>)
    ensures u == ChangedLog(t, hit, change)
  {
    u := t;
    for i := 0 to |t|
      invariant |u| == |t|
      invariant forall j :: 0 <= j < |t| ==> u[j] == if j < i && hit(t[j]) then change(t[j]) else t[j]
    {
      if hit(t[i]) {
        u := u[i := change(t[i])];
      }
    }
  }

  // ---- the whole database before and after ----

  datatype Db = Db(
    assets: map<Id, Asset>, interfaces: map<Id, Interface>, services: map<Id, Service>,
    findings: map<Id, Finding>, proposals: map<Id, Proposal>,
    relationships: map<Id, Relationship>, dismissals: map<Id, Dismissal>,
    notes: seq<LogRow>, probeResults: seq<LogRow>, chat: seq<ChatMessage>, usage: seq<Usage>)

  function Snapshot(session: Session): Db
    reads session
  {
    Db(session.assets, session.interfaces, session.services, session.findings, session.proposals,
       session.relationships, session.dismissals, session.notes, session.probeResults, session.chat,
       session.usage)
  }

  // ---- which rows refer to an asset, and how they are repointed ----

  function InterfaceOf(a: Id): Interface -> bool { (r: Interface) => r.assetId == a }
  function ServiceOf(a: Id): Service -> bool { (r: Service) => r.assetId == a }
  function FindingOf(a: Id): Finding -> bool { (r: Finding) => r.assetId == a }
  function ProposalOf(a: Id): Proposal -> bool { (r: Proposal) => r.assetId == a }
  function ProposalFrom(a: Id): Proposal -> bool { (r: Proposal) => r.origin == Some(a) }
  function RelationshipOf(a: Id): Relationship -> bool {
    (r: Relationship) => r.assetId == a || r.relatedId == a
  }
  function DismissalOf(a: Id): Dismissal -> bool { (r: Dismissal) => r.assetA == a || r.assetB == a }
  function RowOf(a: Id): LogRow -> bool { (r: LogRow) => r.assetId == a }
  function MessageOf(a: Id): ChatMessage -> bool { (r: ChatMessage) => r.assetId == a }
  function UsageOf(a: Id): Usage -> bool { (r: Usage) => r.assetId == Some(a) }

  function InterfaceTo(a: Id): Interface -> Interface { (r: Interface) => r.(assetId := a) }
  function ServiceTo(a: Id): Service -> Service { (r: Service) => r.(assetId := a) }
  function FindingTo(a: Id): Finding -> Finding { (r: Finding) => r.(assetId := a) }
  function ProposalTo(a: Id): Proposal -> Proposal { (r: Proposal) => r.(assetId := a) }
  function RowTo(a: Id): LogRow -> LogRow { (r: LogRow) => r.(assetId := a) }
  function MessageTo(a: Id): ChatMessage -> ChatMessage { (r: ChatMessage) => r.(assetId := a) }
  function Repointed(s: Id, d: Id): Relationship -> Relationship {
    (r: Relationship) => r.(assetId := if r.assetId == d then s else r.assetId,
                            relatedId := if r.relatedId == d then s else r.relatedId)
  }

  // What makes two interfaces, or two services, of one asset the same.
  function Address(): Interface -> (Text, Text) { (r: Interface) => (r.mac, r.ip) }
  function Listener(): Service -> (int, string) { (r: Service) => (r.port, r.protocol) }

  function SetOrigin(a: Option<Id>): Proposal -> Proposal { (r: Proposal) => r.(origin := a) }
  function SetUser(a: Option<Id>): Usage -> Usage { (r: Usage) => r.(assetId := a) }

  /** What deleting an asset makes of each table. */
  ghost predicate Deleted(db: Db, db': Db, a: Id) {
    && db'.assets == db.assets - {a}
    && AddressesDeleted(db, db', a)
    && LogsDeleted(db, db', a)
    && LinksDeleted(db, db', a)
  }

  ghost predicate AddressesDeleted(db: Db, db': Db, a: Id) {
    && db'.interfaces == Kept(db.interfaces, InterfaceOf(a))
    && db'.services == Kept(db.services, ServiceOf(a))
    && db'.findings == Kept(db.findings, FindingOf(a))
  }

  // The ledger rows stay, detached; so do the proposals about other assets.
  ghost predicate LogsDeleted(db: Db, db': Db, a: Id) {
    && db'.proposals == Changed(Kept(db.proposals, ProposalOf(a)), ProposalFrom(a), SetOrigin(None))
    && db'.notes == Filter(db.notes, Not(RowOf(a)))
    && db'.probeResults == Filter(db.probeResults, Not(RowOf(a)))
    && db'.chat == Filter(db.chat, Not(MessageOf(a)))
    && db'.usage == ChangedLog(db.usage, UsageOf(a), SetUser(None))
  }

  ghost predicate LinksDeleted(db: Db, db': Db, a: Id) {
    && db'.relationships == Kept(db.relationships, RelationshipOf(a))
    && db'.dismissals == Kept(db.dismissals, DismissalOf(a))
  }

  method DeleteAddresses(session: Session, a: Id)
    modifies session`interfaces, session`services, session`findings
    ensures AddressesDeleted(old(Snapshot(session)), Snapshot(session), a)
  {
    session.interfaces := DeleteRows(session.interfaces, InterfaceOf(a));
    session.services := DeleteRows(session.services, ServiceOf(a));
    session.findings := DeleteRows(session.findings, FindingOf(a));
  }

  method DeleteLogs(session: Session, a: Id)
    modifies session`notes, session`probeResults, session`chat, session`usage, session`proposals
    ensures LogsDeleted(old(Snapshot(session)), Snapshot(session), a)
  {
    session.notes := DeleteLog(session.notes, RowOf(a));
    session.probeResults := DeleteLog(session.probeResults, RowOf(a));
    session.chat := DeleteLog(session.chat, MessageOf(a));
    session.proposals := DeleteRows(session.proposals, ProposalOf(a));
    session.usage := ChangeLog(session.usage, UsageOf(a), SetUser(None));
    session.proposals := ChangeRows(session.proposals, ProposalFrom(a), SetOrigin(None));
  }

  method DeleteLinks(session: Session, a: Id)
    modifies session`relationships, session`dismissals
    ensures LinksDeleted(old(Snapshot(session)), Snapshot(session), a)
  {
    session.relationships := DeleteRows(session.relationships, RelationshipOf(a));
    session.dismissals := DeleteRows(session.dismissals, DismissalOf(a));
  }

  /** `delete_asset_cascade` */
  method DeleteAssetCascade(session: Session, a: Id)
    modifies session`assets, session`interfaces, session`services, session`findings, session`proposals
    modifies session`relationships, session`dismissals, session`notes, session`probeResults
    modifies session`chat, session`usage
    ensures Deleted(old(Snapshot(session)), Snapshot(session), a)
  {
    DeleteAddresses(session, a);
    DeleteLogs(session, a);
    DeleteLinks(session, a);
    session.assets := session.assets - {a};
  }

  // ---- merging: the tables with a notion of a duplicate row ----

  function KeysOf<R, K>(t: map<Id, R>, ids: set<Id>, key: R -> K): set<K>
    requires ids <= t.Keys
  {
    set k | k in ids :: key(t[k])
  }

  function RowsWhere<R>(t: map<Id, R>, p: R -> bool): set<Id> {
    set k | k in t && p(t[k])
  }

  /** One of the rows with each key, for the keys that are not `taken`. */
  ghost predicate Representatives<R, K>(t: map<Id, R>, rows: set<Id>, kept: set<Id>, key: R -> K, taken: set<K>) {
    && kept <= rows <= t.Keys
    && (forall k, l :: k in kept && l in kept && key(t[k]) == key(t[l]) ==> k == l)
    && (forall k :: k in kept ==> key(t[k]) !in taken)
    && KeysOf(t, rows, key) <= taken + KeysOf(t, kept, key)
  }

  lemma NoRepresentatives<R, K>(t: map<Id, R>, key: R -> K, taken: set<K>)
    ensures KeysOf(t, {}, key) == {} && Representatives(t, {}, {}, key, taken)
  {
  }

  lemma AddRepresentative<R, K>(t: map<Id, R>, rows: set<Id>, kept: set<Id>, key: R -> K, taken: set<K>, k: Id)
    requires Representatives(t, rows, kept, key, taken) && k in t
    ensures kept + {k} <= t.Keys && KeysOf(t, kept + {k}, key) == KeysOf(t, kept, key) + {key(t[k])}
    ensures key(t[k]) !in taken + KeysOf(t, kept, key) ==> Representatives(t, rows + {k}, kept + {k}, key, taken)
    ensures key(t[k]) in taken + KeysOf(t, kept, key) ==> Representatives(t, rows + {k}, kept, key, taken)
  {
    assert KeysOf(t, rows + {k}, key) == KeysOf(t, rows, key) + {key(t[k])};
  }

  // The table with the rows `kept` moved and the other rows of `gone` deleted.
  function Rehomed<R>(t: map<Id, R>, gone: set<Id>, kept: set<Id>, move: R -> R): map<Id, R> {
    map k | k in t && (k !in gone || k in kept) :: if k in kept then move(t[k]) else t[k]
  }

  lemma RowsAreKeys<R>(t: map<Id, R>, p: R -> bool)
    ensures RowsWhere(t, p) <= t.Keys
  {
  }

  lemma NothingRehomed<R>(t: map<Id, R>, move: R -> R)
    ensures Rehomed(t, {}, {}, move) == t
  {
  }

  lemma RehomedStep<R>(t: map<Id, R>, gone: set<Id>, kept: set<Id>, move: R -> R, k: Id)
    requires k in t && k !in gone && kept <= gone
    ensures Rehomed(t, gone + {k}, kept, move) == Rehomed(t, gone, kept, move) - {k}
    ensures Rehomed(t, gone + {k}, kept + {k}, move) == Rehomed(t, gone, kept, move)[k := move(t[k])]
  {
  }

  /** The duplicate's rows move to the survivor, but not those whose key the survivor already has
      or got from another moved row; which of those rows moves is the database's choice. */
  ghost predicate MovedDistinct<R, K>(t: map<Id, R>, u: map<Id, R>, surv: R -> bool, dup: R -> bool,
                                      key: R -> K, move: R -> R) {
    exists kept :: Representatives(t, RowsWhere(t, dup), kept, key, KeysOf(t, RowsWhere(t, surv), key))
      && u == Rehomed(t, RowsWhere(t, dup), kept, move)
  }

  method MoveDistinct<R, K(==)>(t: map<Id, R>, surv: R -> bool, dup: R -> bool, key: R -> K, move: R -> R)
    returns (u: map<Id, R>)
    ensures MovedDistinct(t, u, surv, dup, key, move)
    ensures u.Keys <= t.Keys
  {
    hide Representatives, KeysOf, RowsWhere, Rehomed;
    RowsAreKeys(t, surv);
    RowsAreKeys(t, dup);
    var rows := RowsWhere(t, dup);
    ghost var taken := KeysOf(t, RowsWhere(t, surv), key);
    var existing := KeysOf(t, RowsWhere(t, surv), key);
    ghost var kept: set<Id> := {};
    u := t;
    var rest := rows;
    NoRepresentatives(t, key, taken);
    NothingRehomed(t, move);
    assert rows - rest == {};
    while rest != {}
      invariant rest <= rows && kept <= rows - rest
      invariant Representatives(t, rows - rest, kept, key, taken)
      invariant existing == taken + KeysOf(t, kept, key)
      invariant u.Keys <= t.Keys && u == Rehomed(t, rows - rest, kept, move)
    {
      var k: Id :| k in rest;
      assert rows - (rest - {k}) == (rows - rest) + {k};
      AddRepresentative(t, rows - rest, kept, key, taken, k);
      RehomedStep(t, rows - rest, kept, move, k);
      rest := rest - {k};
      if key(t[k]) in existing {
        u := u - {k};
      } else {
        u := u[k := move(t[k])];
        existing := existing + {key(t[k])};
        kept := kept + {k};
      }
    }
    assert rows - rest == rows;
  }

  // ---- merging: relationships ----

  type Triple = (Id, Id, string)

  function TripleOf(r: Relationship): Triple {
    (r.assetId, r.relatedId, r.kind)
  }

  predicate Touches(r: Relationship, a: Id) {
    r.assetId == a || r.relatedId == a
  }

  function ProperLink(s: Id): Relationship -> bool {
    (r: Relationship) => Touches(r, s) && r.assetId != r.relatedId
  }

  function Thinned<R>(t: map<Id, R>, gone: set<Id>, kept: set<Id>): map<Id, R> {
    map k | k in t && (k !in gone || k in kept) :: t[k]
  }

  /** Of the rows that touch `s`, the links of `s` to itself are gone and every other triple has one
      row left; which one is the database's choice. */
  ghost predicate Cleaned(t: map<Id, Relationship>, u: map<Id, Relationship>, s: Id) {
    exists kept :: Representatives(t, RowsWhere(t, ProperLink(s)), kept, TripleOf, {})
      && u == Thinned(t, RowsWhere(t, RelationshipOf(s)), kept)
  }

  method CleanRelationships(t: map<Id, Relationship>, s: Id) returns (u: map<Id, Relationship>)
    ensures Cleaned(t, u, s)
    ensures u.Keys <= t.Keys
  {
    var rows := RowsWhere(t, RelationshipOf(s));
    ghost var kept: set<Id> := {};
    var seen: set<Triple> := {};
    u := t;
    var rest := rows;
    NoRepresentatives(t, TripleOf, {});
    assert RowsWhere(t, ProperLink(s)) - rest == {};
    hide Representatives;
    while rest != {}
      invariant rest <= rows
      invariant kept <= t.Keys && Representatives(t, RowsWhere(t, ProperLink(s)) - rest, kept, TripleOf, {})
      invariant seen == KeysOf(t, kept, TripleOf)
      invariant u == Thinned(t, rows - rest, kept)
    {
      var k: Id :| k in rest;
      CleanStep(t, s, rest, kept, k);
      rest := rest - {k};
      if t[k].assetId == t[k].relatedId || TripleOf(t[k]) in seen {
        u := u - {k};
      } else {
        seen := seen + {TripleOf(t[k])};
        kept := kept + {k};
      }
    }
    assert rows - rest == rows && RowsWhere(t, ProperLink(s)) - rest == RowsWhere(t, ProperLink(s));
  }

  lemma CleanStep(t: map<Id, Relationship>, s: Id, rest: set<Id>, kept: set<Id>, k: Id)
    requires k in rest && rest <= RowsWhere(t, RelationshipOf(s))
    requires Representatives(t, RowsWhere(t, ProperLink(s)) - rest, kept, TripleOf, {})
    ensures RowsWhere(t, RelationshipOf(s)) - (rest - {k}) == (RowsWhere(t, RelationshipOf(s)) - rest) + {k}
    ensures kept + {k} <= t.Keys && KeysOf(t, kept + {k}, TripleOf) == KeysOf(t, kept, TripleOf) + {TripleOf(t[k])}
    ensures Representatives(t, RowsWhere(t, ProperLink(s)) - (rest - {k}),
                            if t[k].assetId == t[k].relatedId || TripleOf(t[k]) in KeysOf(t, kept, TripleOf)
                            then kept else kept + {k}, TripleOf, {})
  {
  }

  // ---- merging: the whole database ----

  /** What merging `d` into `s` makes of each table. */
  ghost predicate Merged(db: Db, db': Db, s: Id, d: Id) {
    && db'.assets == db.assets - {d}
    && AddressesMoved(db, db', s, d)
    && LogsMoved(db, db', s, d)
    && LinksMoved(db, db', s, d)
  }

  ghost predicate AddressesMoved(db: Db, db': Db, s: Id, d: Id) {
    && MovedDistinct(db.interfaces, db'.interfaces, InterfaceOf(s), InterfaceOf(d), Address(), InterfaceTo(s))
    && MovedDistinct(db.services, db'.services, ServiceOf(s), ServiceOf(d), Listener(), ServiceTo(s))
    && db'.findings == Changed(db.findings, FindingOf(d), FindingTo(s))
  }

  ghost predicate LogsMoved(db: Db, db': Db, s: Id, d: Id) {
    && db'.proposals == Changed(Changed(db.proposals, ProposalOf(d), ProposalTo(s)), ProposalFrom(d),
                                SetOrigin(Some(s)))
    && db'.notes == ChangedLog(db.notes, RowOf(d), RowTo(s))
    && db'.probeResults == ChangedLog(db.probeResults, RowOf(d), RowTo(s))
    && db'.chat == ChangedLog(db.chat, MessageOf(d), MessageTo(s))
    && db'.usage == ChangedLog(db.usage, UsageOf(d), SetUser(Some(s)))
  }

  ghost predicate LinksMoved(db: Db, db': Db, s: Id, d: Id) {
    && Cleaned(Changed(db.relationships, RelationshipOf(d), Repointed(s, d)), db'.relationships, s)
    && db'.dismissals == Kept(db.dismissals, DismissalOf(d))
  }

  method MoveAddresses(session: Session, s: Id, d: Id)
    modifies session`interfaces, session`services, session`findings
    ensures AddressesMoved(old(Snapshot(session)), Snapshot(session), s, d)
  {
    session.interfaces := MoveDistinct(session.interfaces, InterfaceOf(s), InterfaceOf(d), Address(), InterfaceTo(s));
    session.services := MoveDistinct(session.services, ServiceOf(s), ServiceOf(d), Listener(), ServiceTo(s));
    session.findings := ChangeRows(session.findings, FindingOf(d), FindingTo(s));
  }

  method MoveLogs(session: Session, s: Id, d: Id)
    modifies session`notes, session`probeResults, session`chat, session`usage, session`proposals
    ensures LogsMoved(old(Snapshot(session)), Snapshot(session), s, d)
  {
    session.notes := ChangeLog(session.notes, RowOf(d), RowTo(s));
    session.probeResults := ChangeLog(session.probeResults, RowOf(d), RowTo(s));
    session.chat := ChangeLog(session.chat, MessageOf(d), MessageTo(s));
    session.proposals := ChangeRows(session.proposals, ProposalOf(d), ProposalTo(s));
    session.usage := ChangeLog(session.usage, UsageOf(d), SetUser(Some(s)));
    session.proposals := ChangeRows(session.proposals, ProposalFrom(d), SetOrigin(Some(s)));
  }

  method MoveLinks(session: Session, s: Id, d: Id)
    modifies session`relationships, session`dismissals
    ensures LinksMoved(old(Snapshot(session)), Snapshot(session), s, d)
  {
    session.relationships := ChangeRows(session.relationships, RelationshipOf(d), Repointed(s, d));
    session.dismissals := DeleteRows(session.dismissals, DismissalOf(d));
    session.relationships := CleanRelationships(session.relationships, s);
  }

  /** `reassign_asset_children` followed by the deletion of the duplicate: `merge_asset_into`. */
  method MergeAssetInto(session: Session, s: Id, d: Id)
    modifies session`assets, session`interfaces, session`services, session`findings, session`proposals
    modifies session`relationships, session`dismissals, session`notes, session`probeResults
    modifies session`chat, session`usage
    ensures s == d ==> Snapshot(session) == old(Snapshot(session))
    ensures s != d ==> Merged(old(Snapshot(session)), Snapshot(session), s, d)
  {
    hide MovedDistinct, Cleaned, Changed, ChangedLog, Kept;
    if s == d {
      return;
    }
    MoveAddresses(session, s, d);
    MoveLogs(session, s, d);
    MoveLinks(session, s, d);
    session.assets := session.assets - {d};
  }
}
