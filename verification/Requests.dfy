/** The requests that link, unlink, dismiss, merge and delete assets (app/routers/dashboard.py), in
    any order: what every run of them keeps. */
module Requests {
  import opened Basics
  import opened Models
  import opened AssetChildren
  import opened MergeQuotient
  import opened Links
  import opened Candidates
  import opened Reconcile
  import ChatTranscript
  import opened FindingSla

  /** Every foreign key names an asset that exists. */
  ghost predicate Live(db: Db) {
    AddressesLive(db) && LogsLive(db) && LinksLive(db)
  }

  ghost predicate AddressesLive(db: Db) {
    && (forall k :: k in db.interfaces ==> db.interfaces[k].assetId in db.assets)
    && (forall k :: k in db.services ==> db.services[k].assetId in db.assets)
    && (forall k :: k in db.findings ==> db.findings[k].assetId in db.assets)
  }

  ghost predicate OptLive(db: Db, a: Option<Id>) {
    a.Some? ==> a.value in db.assets
  }

  ghost predicate LogsLive(db: Db) {
    && (forall k :: k in db.proposals ==> db.proposals[k].assetId in db.assets && OptLive(db, db.proposals[k].origin))
    && (forall i :: 0 <= i < |db.notes| ==> db.notes[i].assetId in db.assets)
    && (forall i :: 0 <= i < |db.probeResults| ==> db.probeResults[i].assetId in db.assets)
    && (forall i :: 0 <= i < |db.chat| ==> db.chat[i].assetId in db.assets)
    && (forall i :: 0 <= i < |db.usage| ==> OptLive(db, db.usage[i].assetId))
  }

  ghost predicate LinksLive(db: Db) {
    && (forall k :: k in db.relationships ==>
          db.relationships[k].assetId in db.assets && db.relationships[k].relatedId in db.assets)
    && (forall k :: k in db.dismissals ==> db.dismissals[k].assetA in db.assets && db.dismissals[k].assetB in db.assets)
  }

  ghost predicate Valid(session: Session)
    reads session
  {
    session.KeysBelowSequences() && Sound(Snapshot(session))
  }

  /** No foreign key dangles, links are mirrored, each dismissed pair and each port of an asset has one
      row, every chat is made of whole turns, and each finding has the date its severity and exposure give. */
  ghost predicate Sound(db: Db) {
    && Live(db) && Mirrored(db.relationships) && OneRowPerPair(db.dismissals)
    && UniquePorts(db.services) && ChatTranscript.WholeTurns(db.chat) && SlaKept(db.findings)
  }

  lemma {:induction false} FilterAllOf<R>(t: seq<R>, p: R -> bool, q: R -> bool)
    requires forall i :: 0 <= i < |t| ==> q(t[i])
    ensures forall i :: 0 <= i < |Filter(t, p)| ==> p(Filter(t, p)[i]) && q(Filter(t, p)[i])
  {
    if t != [] {
      FilterAllOf(t[..|t| - 1], p, q);
    }
  }

  function RowIn(assets: set<Id>): LogRow -> bool {
    (r: LogRow) => r.assetId in assets
  }

  function MessageIn(assets: set<Id>): ChatMessage -> bool {
    (m: ChatMessage) => m.assetId in assets
  }

  lemma RemainingRows(t: seq<LogRow>, u: seq<LogRow>, a: Id, assets: map<Id, Asset>)
    requires u == Filter(t, Not(RowOf(a))) && forall i :: 0 <= i < |t| ==> t[i].assetId in assets
    ensures forall i :: 0 <= i < |u| ==> u[i].assetId in assets && u[i].assetId != a
  {
    FilterAllOf(t, Not(RowOf(a)), RowIn(assets.Keys));
    hide Filter;
  }

  lemma RemainingMessages(t: seq<ChatMessage>, u: seq<ChatMessage>, a: Id, assets: map<Id, Asset>)
    requires u == Filter(t, Not(MessageOf(a))) && forall i :: 0 <= i < |t| ==> t[i].assetId in assets
    ensures forall i :: 0 <= i < |u| ==> u[i].assetId in assets && u[i].assetId != a
  {
    FilterAllOf(t, Not(MessageOf(a)), MessageIn(assets.Keys));
    hide Filter;
  }

  lemma DeletedLogsLive(db: Db, db': Db, a: Id)
    requires LogsLive(db) && LogsDeleted(db, db', a) && db'.assets == db.assets - {a}
    ensures LogsLive(db')
  {
    hide Filter;
    RemainingRows(db.notes, db'.notes, a, db.assets);
    RemainingRows(db.probeResults, db'.probeResults, a, db.assets);
    RemainingMessages(db.chat, db'.chat, a, db.assets);
  }

  lemma DeleteKeepsLive(db: Db, db': Db, a: Id)
    requires Live(db) && Deleted(db, db', a)
    ensures Live(db')
  {
    hide LogsLive, LogsDeleted;
    DeletedLogsLive(db, db', a);
  }

  lemma MergeKeepsLive(db: Db, db': Db, s: Id, d: Id)
    requires Live(db) && s in db.assets && s != d && Merged(db, db', s, d)
    ensures Live(db')
  {
    hide MovedDistinct, Cleaned, LogsLive, LogsMoved;
    RehomedMeaning(db.interfaces, db'.interfaces, InterfaceOf(s), InterfaceOf(d), Address(), InterfaceTo(s));
    RehomedMeaning(db.services, db'.services, ServiceOf(s), ServiceOf(d), Listener(), ServiceTo(s));
    MovedLogsLive(db, db', s, d);
    CleanedMeaning(Changed(db.relationships, RelationshipOf(d), Repointed(s, d)), db'.relationships, s);
  }

  lemma MovedRows(t: seq<LogRow>, u: seq<LogRow>, s: Id, d: Id, assets: map<Id, Asset>)
    requires u == ChangedLog(t, RowOf(d), RowTo(s)) && s in assets && s != d
    requires forall i :: 0 <= i < |t| ==> t[i].assetId in assets
    ensures forall i :: 0 <= i < |u| ==> u[i].assetId in assets && u[i].assetId != d
  {
  }

  lemma MovedMessages(t: seq<ChatMessage>, u: seq<ChatMessage>, s: Id, d: Id, assets: map<Id, Asset>)
    requires u == ChangedLog(t, MessageOf(d), MessageTo(s)) && s in assets && s != d
    requires forall i :: 0 <= i < |t| ==> t[i].assetId in assets
    ensures forall i :: 0 <= i < |u| ==> u[i].assetId in assets && u[i].assetId != d
  {
  }

  lemma MovedUsage(db: Db, db': Db, s: Id, d: Id)
    requires db'.usage == ChangedLog(db.usage, UsageOf(d), SetUser(Some(s))) && s in db.assets && s != d
    requires db'.assets == db.assets - {d} && forall i :: 0 <= i < |db.usage| ==> OptLive(db, db.usage[i].assetId)
    ensures forall i :: 0 <= i < |db'.usage| ==> OptLive(db', db'.usage[i].assetId)
  {
  }

  lemma MovedProposals(db: Db, db': Db, s: Id, d: Id)
    requires db'.proposals == Changed(Changed(db.proposals, ProposalOf(d), ProposalTo(s)), ProposalFrom(d),
                                      SetOrigin(Some(s)))
    requires db'.assets == db.assets - {d} && s in db.assets && s != d
    requires forall k :: k in db.proposals ==>
      db.proposals[k].assetId in db.assets && OptLive(db, db.proposals[k].origin)
    ensures forall k :: k in db'.proposals ==>
      db'.proposals[k].assetId in db'.assets && OptLive(db', db'.proposals[k].origin)
  {
  }

  lemma MovedLogsLive(db: Db, db': Db, s: Id, d: Id)
    requires LogsLive(db) && s in db.assets && s != d && LogsMoved(db, db', s, d) && db'.assets == db.assets - {d}
    ensures LogsLive(db')
  {
    hide ChangedLog, Changed, OptLive;
    MovedRows(db.notes, db'.notes, s, d, db.assets);
    MovedRows(db.probeResults, db'.probeResults, s, d, db.assets);
    MovedMessages(db.chat, db'.chat, s, d, db.assets);
    MovedUsage(db, db', s, d);
    MovedProposals(db, db', s, d);
  }

  lemma DeleteKeepsSound(db: Db, db': Db, a: Id)
    requires Sound(db) && Deleted(db, db', a)
    ensures Sound(db')
  {
    hide Live, Mirrored, ChatTranscript.WholeTurns, SlaKept, LogsDeleted;
    DeleteKeepsLive(db, db', a);
    DeleteKeepsMirror(db.relationships, a);
    ChatTranscript.DeleteKeepsTurns(db, db', a);
    DeleteKeepsSla(db, db', a);
  }

  /** The services that move to the survivor listen on ports it did not have, each on its own. */
  lemma MergeKeepsPorts(t: map<Id, Service>, u: map<Id, Service>, s: Id, d: Id)
    requires s != d && UniquePorts(t) && MovedDistinct(t, u, ServiceOf(s), ServiceOf(d), Listener(), ServiceTo(s))
    ensures UniquePorts(u)
  {
  }

  lemma MergeKeepsSound(db: Db, db': Db, s: Id, d: Id)
    requires Sound(db) && s in db.assets && s != d && Merged(db, db', s, d)
    ensures Sound(db')
  {
    hide Live, Mirrored, UniquePorts, ChatTranscript.WholeTurns, SlaKept, LogsMoved, MovedDistinct, Cleaned;
    MergeKeepsLive(db, db', s, d);
    MergeKeepsMirror(db.relationships, db'.relationships, s, d);
    MergeKeepsPorts(db.services, db'.services, s, d);
    ChatTranscript.MergeKeepsTurns(db, db', s, d);
    MergeKeepsSla(db, db', s, d);
  }

  // Deleting rows leaves the keys below their sequences.
  lemma FewerKeys(session: Session, db: Db)
    requires Below(db.assets, session.nextAsset) && Below(db.interfaces, session.nextInterface)
    requires Below(db.services, session.nextService) && Below(db.relationships, session.nextRelationship)
    requires Below(db.dismissals, session.nextDismissal) && Below(db.findings, session.nextFinding)
    requires session.assets.Keys <= db.assets.Keys && session.interfaces.Keys <= db.interfaces.Keys
    requires session.services.Keys <= db.services.Keys && session.relationships.Keys <= db.relationships.Keys
    requires session.dismissals.Keys <= db.dismissals.Keys && session.findings.Keys <= db.findings.Keys
    ensures session.KeysBelowSequences()
  {
  }

  lemma LinkingKeepsSound(db: Db, u: map<Id, Relationship>, a: Id, b: Id)
    requires Sound(db) && Mirrored(u) && NoNewEnds(db.relationships, u, a, b) && a in db.assets && b in db.assets
    ensures Sound(db.(relationships := u))
  {
    hide Mirrored, OneRowPerPair;
  }

  lemma UnlinkingKeepsSound(db: Db, u: map<Id, Relationship>)
    requires Sound(db) && Mirrored(u) && forall k :: k in u ==> k in db.relationships && u[k] == db.relationships[k]
    ensures Sound(db.(relationships := u))
  {
    hide Mirrored, OneRowPerPair;
  }

  lemma DismissingKeepsSound(db: Db, u: map<Id, Dismissal>, ok: bool, a: Id, b: Id)
    requires Sound(db) && OneRowPerPair(u) && (ok ==> a in db.assets && b in db.assets)
    requires forall k :: k in u ==>
      (k in db.dismissals && u[k] == db.dismissals[k]) || (ok && Between(u[k].assetA, u[k].assetB, a, b))
    ensures Sound(db.(dismissals := u))
  {
    hide Mirrored, OneRowPerPair;
  }

  function LinkNote(other: Id, detail: string): string {
    "Linked to asset #" + Decimal(other) + " as the same physical device." + if detail != "" then " " + detail else ""
  }

  // One note on each of the two assets, naming the other.
  function LinkNotes(a: Id, b: Id, detail: string): seq<LogRow> {
    [LogRow(a, "user", LinkNote(b, detail)), LogRow(b, "user", LinkNote(a, detail))]
  }

  // A note on `a` by the user that names `b`; the reason follows, if there is one.
  predicate SaysLinked(row: LogRow, a: Id, b: Id, detail: string) {
    && row.assetId == a && row.author == "user"
    && var said := "Linked to asset #" + Decimal(b) + " as the same physical device.";
       said <= row.body && (detail == "" ==> row.body == said) && (detail != "" ==> row.body == said + " " + detail)
  }

  lemma NotesSayLinked(a: Id, b: Id, detail: string)
    ensures var rows := LinkNotes(a, b, detail);
      |rows| == 2 && SaysLinked(rows[0], a, b, detail) && SaysLinked(rows[1], b, a, detail)
  {
    hide Decimal;
  }

  lemma NotingKeepsSound(db: Db, a: Id, b: Id, detail: string)
    requires Sound(db) && a in db.assets && b in db.assets
    ensures Sound(db.(notes := db.notes + LinkNotes(a, b, detail)))
  {
    hide Mirrored, OneRowPerPair, LinkNote;
  }

  // ---- the handlers ----

  /** `asset_delete` */
  method AssetDelete(session: Session, a: Id)
    requires Valid(session)
    modifies session`assets, session`interfaces, session`services, session`findings, session`proposals
    modifies session`relationships, session`dismissals, session`notes, session`probeResults
    modifies session`chat, session`usage
    ensures Valid(session)
    ensures if a in old(session.assets) then Deleted(old(Snapshot(session)), Snapshot(session), a)
            else Snapshot(session) == old(Snapshot(session))
  {
    hide Sound, Deleted;
    if a in session.assets {
      ghost var before := Snapshot(session);
      DeleteAssetCascade(session, a);
      DeleteKeepsSound(before, Snapshot(session), a);
      DeleteSparesRows(before, Snapshot(session), a);
      FewerKeys(session, before);
    }
  }

  method Merge(session: Session, s: Id, d: Id)
    requires Valid(session) && s in session.assets && s != d
    modifies session`assets, session`interfaces, session`services, session`findings, session`proposals
    modifies session`relationships, session`dismissals, session`notes, session`probeResults
    modifies session`chat, session`usage
    ensures Valid(session)
    ensures session.assets == old(session.assets) - {d}
    ensures Merged(old(Snapshot(session)), Snapshot(session), s, d)
    ensures ViewOf(Snapshot(session)) == Quotient(ViewOf(old(Snapshot(session))), s, {d})
    ensures OnlyRepointed(old(Snapshot(session)), Snapshot(session), s, {d})
  {
    hide Sound, Merged, ViewOf, Quotient, OnlyRepointed;
    ghost var before := Snapshot(session);
    MergeAssetInto(session, s, d);
    MergedRows(before, Snapshot(session), s, d);
    MergeIsQuotient(before, Snapshot(session), s, d);
    MergeKeepsSound(before, Snapshot(session), s, d);
    MergeSparesTheRest(before, Snapshot(session), s, d);
    FewerKeys(session, before);
  }

  // The other assets with the survivor's hostname, when it has one.
  function Namesakes(assets: map<Id, Asset>, s: Id): set<Id> {
    if s in assets && Truthy(assets[s].hostname)
    then set a | a in assets && a != s && assets[a].hostname == assets[s].hostname
    else {}
  }

  /** `duplicates_merge`: everything that shares the survivor's hostname is merged into it, in
      whatever order the database lists it. */
  method DuplicatesMerge(session: Session, s: Id)
    requires Valid(session)
    modifies session`assets, session`interfaces, session`services, session`findings, session`proposals
    modifies session`relationships, session`dismissals, session`notes, session`probeResults
    modifies session`chat, session`usage
    ensures Valid(session)
    ensures ViewOf(Snapshot(session))
         == MergedAway(ViewOf(old(Snapshot(session))), s, Namesakes(old(session.assets), s))
    ensures OnlyRepointed(old(Snapshot(session)), Snapshot(session), s, Namesakes(old(session.assets), s))
    ensures NamesakesGone(old(Snapshot(session)), Snapshot(session), s)
  {
    hide Valid, ViewOf, MergedAway, Quotient, Merged, Namesakes, Snapshot, OnlyRepointed;
    hide NamesakesGone;
    ghost var before, dups := Snapshot(session), Namesakes(session.assets, s);
    AssetsOf(session);
    var rest := Namesakes(session.assets, s);
    ghost var done: set<Id> := {};
    NothingMerged(ViewOf(before), session.assets, s);
    NothingRepointed(before, s);
    while rest != {}
      invariant Valid(session) && (rest != {} ==> s in session.assets)
      invariant done + rest == dups && done !! rest
      invariant ViewOf(Snapshot(session)) == MergedAway(ViewOf(before), s, done)
      invariant OnlyRepointed(before, Snapshot(session), s, done)
    {
      ghost var between := Snapshot(session);
      var d: Id :| d in rest;
      Merge(session, s, d);
      OneMoreMerged(ViewOf(before), s, done, d);
      RepointedTwice(before, between, Snapshot(session), s, done, d);
      rest, done := rest - {d}, done + {d};
    }
    assert done == dups;
    MergedNamesakes(before, Snapshot(session), s);
  }

  lemma AssetsOf(session: Session)
    ensures Snapshot(session).assets == session.assets
  {
  }

  // Of the assets there are left those that are the survivor or do not have its hostname; all of them,
  // when it has none.
  ghost predicate NamesakesGone(db: Db, db': Db, s: Id) {
    var assets, left := db.assets, db'.assets;
    && (forall a :: a in left <==>
          a in assets && (a == s || s !in assets || assets[s].hostname == None || assets[s].hostname == Some("")
                          || assets[a].hostname != assets[s].hostname))
    && (forall a :: a in left ==> left[a] == assets[a])
  }

  lemma MergedNamesakes(db: Db, db': Db, s: Id)
    requires ViewOf(db') == MergedAway(ViewOf(db), s, Namesakes(db.assets, s))
    ensures NamesakesGone(db, db', s)
  {
    hide Keyed, KeyedTo, Triples, TriplesTo, FindingsTo, ProposalsTo, DismissalsTo, RowsTo, MessagesTo, UsageTo;
    assert db'.assets == ViewOf(db').assets == db.assets - Namesakes(db.assets, s);
  }

  lemma NothingMerged(v: View, assets: map<Id, Asset>, s: Id)
    ensures MergedAway(v, s, {}) == v
    ensures s !in Namesakes(assets, s) && (Namesakes(assets, s) != {} ==> s in assets)
  {
  }

  /** `duplicates_merge_pair` */
  method DuplicatesMergePair(session: Session, s: Id, a: Id, b: Id)
    requires Valid(session)
    modifies session`assets, session`interfaces, session`services, session`findings, session`proposals
    modifies session`relationships, session`dismissals, session`notes, session`probeResults
    modifies session`chat, session`usage
    ensures Valid(session)
    ensures var d := if s == b then a else b;
      if (s == a || s == b) && a != b && s in old(session.assets) && d in old(session.assets)
      then Merged(old(Snapshot(session)), Snapshot(session), s, d)
      else Snapshot(session) == old(Snapshot(session))
  {
    if s != a && s != b {
      return;
    }
    var d := if s == b then a else b;
    if s != d && s in session.assets && d in session.assets {
      Merge(session, s, d);
    }
  }

  method LinkExisting(session: Session, a: Id, b: Id, detail: Text) returns (linked: bool)
    requires Valid(session) && a in session.assets && b in session.assets
    modifies session`relationships, session`nextRelationship
    ensures Valid(session)
    ensures linked <==> a != b
    ensures linked ==> Linked(session.relationships, a, b)
    ensures SameLinksBut(old(session.relationships), session.relationships, a, b)
    ensures OtherKindsKept(old(session.relationships), session.relationships)
    ensures RowsLinked(old(session.relationships), session.relationships, a, b, detail)
  {
    hide Sound, Mirrored, Linked, SameLinksBut, OtherKindsKept, NoNewEnds, RowsLinked;
    LinksAreMirrored(session);
    ghost var before := Snapshot(session);
    linked := LinkAssets(session, a, b, detail);
    LinkingKeepsSound(before, session.relationships, a, b);
  }

  lemma SameLinks(t: map<Id, Relationship>, a: Id, b: Id)
    ensures SameLinksBut(t, t, a, b) && OtherKindsKept(t, t)
  {
  }

  /** `assets_investigate_link`.  The foreign keys make the database refuse an unknown asset. */
  method InvestigateLink(session: Session, a: Id, b: Id, detail: string)
    requires Valid(session)
    modifies session`relationships, session`nextRelationship, session`notes
    ensures Valid(session)
    ensures a != b && a in session.assets && b in session.assets ==> Linked(session.relationships, a, b)
    ensures SameLinksBut(old(session.relationships), session.relationships, a, b)
    ensures OtherKindsKept(old(session.relationships), session.relationships)
    ensures if a in session.assets && b in session.assets
            then RowsLinked(old(session.relationships), session.relationships, a, b,
                            if detail == "" then None else Some(detail))
            else session.relationships == old(session.relationships)
    ensures session.notes == old(session.notes)
      + if a != b && a in session.assets && b in session.assets then LinkNotes(a, b, detail) else []
    ensures a != b && a in session.assets && b in session.assets ==>
      var n := |old(session.notes)|;
      && |session.notes| == n + 2
      && SaysLinked(session.notes[n], a, b, detail) && SaysLinked(session.notes[n + 1], b, a, detail)
  {
    hide SaysLinked;
    NotesSayLinked(a, b, detail);
    hide Sound, Linked, SameLinksBut, OtherKindsKept, LinkNotes, RowsLinked;
    if a !in session.assets || b !in session.assets {
      SameLinks(session.relationships, a, b);
      return;
    }
    var linked := LinkExisting(session, a, b, if detail == "" then None else Some(detail));
    if linked {
      NotingKeepsSound(Snapshot(session), a, b, detail);
      session.notes := session.notes + LinkNotes(a, b, detail);
    }
  }

  /** `asset_unlink` */
  method AssetUnlink(session: Session, a: Id, k: Id)
    requires Valid(session)
    modifies session`relationships
    ensures Valid(session)
    ensures var t, u := old(session.relationships), session.relationships;
      if k in t && t[k].assetId == a then RowUnlinked(t, u, k) && LinkGone(t, u, t[k]) else u == t
  {
    hide Sound, Mirrored, OneRowPerPair, LinkGone, RowUnlinked, Live;
    ghost var before := Snapshot(session);
    LinksAreMirrored(session);
    UnlinkAssets(session, a, k);
    UnlinkingKeepsSound(before, session.relationships);
  }

  lemma LinksAreMirrored(session: Session)
    requires Valid(session)
    ensures Mirrored(session.relationships)
  {
    hide Mirrored, OneRowPerPair, Live;
  }

  method ClearLink(session: Session, a: Id, b: Id)
    requires Valid(session)
    modifies session`relationships
    ensures Valid(session)
    ensures !AlreadyLinked(TablesOf(session), a, b)
    ensures SameLinksBut(old(session.relationships), session.relationships, a, b)
    ensures OtherKindsKept(old(session.relationships), session.relationships)
  {
    assert Mirrored(session.relationships);
    hide Sound, Mirrored, Linked, SameLinksBut, OtherKindsKept, AlreadyLinked;
    ghost var before := Snapshot(session);
    var unlinked := RemoveSameDeviceLink(session, a, b);
    UnlinkingKeepsSound(before, session.relationships);
    NotLinkedEitherWay(TablesOf(session), a, b);
  }

  method Dismiss(session: Session, a: Id, b: Id, r: Reader, now: Time)
    requires Valid(session)
    modifies session`dismissals, session`nextDismissal
    ensures Valid(session)
    ensures a != b && a in session.assets && b in session.assets ==>
      DismissedOnlyAs(session.dismissals, a, b, Fingerprint(r, session.assets, session.interfaces, a, b))
    ensures SameDismissalsBut(old(session.dismissals), session.dismissals, a, b)
  {
    assert OneRowPerPair(session.dismissals);
    hide Sound, OneRowPerPair, SameDismissalsBut, DismissedOnlyAs, Fingerprint;
    ghost var before := Snapshot(session);
    var dismissed := DismissCandidate(session, a, b, r, now);
    DismissingKeepsSound(before, session.dismissals, dismissed, a, b);
  }

  /** `duplicates_dismiss_pair`: afterwards the pair is neither linked nor offered. */
  method DuplicatesDismissPair(session: Session, a: Id, b: Id, r: Reader, now: Time)
    requires Valid(session)
    modifies session`relationships, session`dismissals, session`nextDismissal
    ensures Valid(session)
    ensures a != b && a in session.assets && b in session.assets ==>
      !Undecided(TablesOf(session), r, a, b)
      && DismissedOnlyAs(session.dismissals, a, b, Fingerprint(r, session.assets, session.interfaces, a, b))
    ensures !AlreadyLinked(TablesOf(session), a, b)
    ensures SameLinksBut(old(session.relationships), session.relationships, a, b)
    ensures OtherKindsKept(old(session.relationships), session.relationships)
    ensures SameDismissalsBut(old(session.dismissals), session.dismissals, a, b)
  {
    hide Valid, SameLinksBut, OtherKindsKept, SameDismissalsBut, Fingerprint;
    ClearLink(session, a, b);
    Dismiss(session, a, b, r, now);
  }

  lemma NotLinkedEitherWay(t: Tables, a: Id, b: Id)
    requires !Linked(t.relationships, a, b) && !Linked(t.relationships, b, a)
    ensures !AlreadyLinked(t, a, b)
  {
  }

  // ---- one asset's own columns, notes and chat ----

  lemma PutKeepsSound(db: Db, a: Id, row: Asset)
    requires Sound(db)
    ensures Sound(db.(assets := db.assets[a := row]))
  {
    hide Mirrored, OneRowPerPair, UniquePorts, ChatTranscript.WholeTurns, SlaKept;
  }

  /** `asset_update` and `update_asset`: any new values in the columns of the asset. */
  method AssetUpdate(session: Session, a: Id, row: Asset)
    requires Valid(session)
    modifies session`assets
    ensures Valid(session)
    ensures session.assets == if a in old(session.assets) then old(session.assets)[a := row] else old(session.assets)
  {
    hide Sound;
    if a in session.assets {
      ghost var before := Snapshot(session);
      session.assets := session.assets[a := row];
      PutKeepsSound(before, a, row);
    }
  }

  /** `asset_create` and `create_asset` */
  method AssetCreate(session: Session, row: Asset) returns (a: Id)
    requires Valid(session)
    modifies session`assets, session`nextAsset
    ensures Valid(session)
    ensures a == old(session.nextAsset) && a !in old(session.assets) && session.nextAsset == a + 1
    ensures session.assets == old(session.assets)[a := row]
  {
    hide Sound;
    ghost var before := Snapshot(session);
    a := session.nextAsset;
    session.nextAsset := session.nextAsset + 1;
    session.assets := session.assets[a := row];
    PutKeepsSound(before, a, row);
  }

  lemma NoteKeepsSound(db: Db, note: LogRow)
    requires Sound(db) && note.assetId in db.assets
    ensures Sound(db.(notes := db.notes + [note]))
  {
    hide Mirrored, OneRowPerPair, UniquePorts, ChatTranscript.WholeTurns, SlaKept;
  }

  /** `asset_add_note`; `body` is the text without the blanks around it. */
  method AddNote(session: Session, a: Id, body: string)
    requires Valid(session)
    modifies session`notes
    ensures Valid(session)
    ensures session.notes
         == old(session.notes) + if a in session.assets && body != "" then [LogRow(a, "user", body)] else []
  {
    hide Sound;
    if a in session.assets && body != "" {
      NoteKeepsSound(Snapshot(session), LogRow(a, "user", body));
      session.notes := session.notes + [LogRow(a, "user", body)];
    }
  }

  lemma ClearKeepsSound(db: Db, a: Id, chat: seq<ChatMessage>)
    requires Sound(db) && chat == Filter(db.chat, Not(MessageOf(a)))
    ensures Sound(db.(chat := chat))
  {
    hide Mirrored, OneRowPerPair, UniquePorts, ChatTranscript.WholeTurns, SlaKept, Filter;
    RemainingMessages(db.chat, chat, a, db.assets);
    ChatTranscript.ClearKeepsTurns(db.chat, a);
  }

  /** `asset_chat_clear` */
  method ChatClear(session: Session, a: Id)
    requires Valid(session)
    modifies session`chat
    ensures Valid(session)
    ensures session.chat
         == if a in session.assets then Filter(old(session.chat), Not(MessageOf(a))) else old(session.chat)
  {
    hide Sound;
    if a in session.assets {
      ghost var before := Snapshot(session);
      session.chat := DeleteLog(session.chat, MessageOf(a));
      ClearKeepsSound(before, a, session.chat);
    }
  }
}
