/** Discovery runs, the requests of the admin that change the inventory, chat turns, enrichment and
    resyncs, one after the other and in any order on one database. */
module Server {
  import opened Basics
  import opened Models
  import opened InventoryCards
  import opened Reconcile
  import opened AssetChildren
  import opened MergeQuotient
  import opened Links
  import opened Candidates
  import opened SpendLedger
  import opened FindingSla
  import opened Requests
  import ChatTranscript
  import ChatTurn

  // ---- discovery ----

  lemma DiscoveryKeepsLive(db: Db, db': Db)
    requires Live(db)
    requires db' == db.(assets := db'.assets, interfaces := db'.interfaces, services := db'.services)
    requires db.assets.Keys <= db'.assets.Keys
    requires forall i :: i in db'.interfaces ==> db'.interfaces[i].assetId in db'.assets
    requires forall v :: v in db'.services ==> db'.services[v].assetId in db'.assets
    ensures Live(db')
  {
  }

  /** The database, the next key of an asset and the kill switch, at one moment. */
  datatype Shot = Shot(db: Db, next: Id, enabled: bool)

  function ShotOf(session: Session): Shot
    reads session
  {
    Shot(Snapshot(session), session.nextAsset, session.assistantEnabled)
  }

  function InventoryAt(s: Shot): Inventory {
    Inventory(s.db.assets, s.db.interfaces, s.db.services, s.next)
  }

  /** A discovery run takes its devices one after the other through the three tables it writes. */
  ghost predicate DiscoveryMakes(ds: seq<Device>, gatewayIps: set<string>, gatewayMac: Text, env: Env, s: Shot,
                                 t: Shot)
  {
    && t.db == s.db.(assets := t.db.assets, interfaces := t.db.interfaces, services := t.db.services)
    && (exists ts :: RunOf(ts, ds, gatewayIps, gatewayMac, env, InventoryAt(s), InventoryAt(t)))
  }

  ghost predicate RunOf(ts: seq<Inventory>, ds: seq<Device>, gatewayIps: set<string>, gatewayMac: Text, env: Env,
                        from: Inventory, to: Inventory)
  {
    TurnsTaken(ts, ds, gatewayIps, gatewayMac, env) && |ts| == |ds| + 1 && ts[0] == from && ts[|ds|] == to
  }

  lemma DiscoveryIs(ts: seq<Inventory>, ds: seq<Device>, gatewayIps: set<string>, gatewayMac: Text, env: Env,
                    s: Shot, t: Shot)
    requires t.db == s.db.(assets := t.db.assets, interfaces := t.db.interfaces, services := t.db.services)
    requires RunOf(ts, ds, gatewayIps, gatewayMac, env, InventoryAt(s), InventoryAt(t))
    ensures DiscoveryMakes(ds, gatewayIps, gatewayMac, env, s, t)
    ensures s.db.assets.Keys <= t.db.assets.Keys
  {
    TurnsStay(ts, ds, gatewayIps, gatewayMac, env, |ds|);
    hide TurnsTaken, FacesStay, PortsStay, MacsApart;
  }

  method Discover(session: Session, devices: seq<Device>, gatewayIps: set<string>, gatewayMac: Text, env: Env)
    requires Valid(session)
    modifies session`assets, session`interfaces, session`services
    modifies session`nextAsset, session`nextInterface, session`nextService
    ensures Valid(session)
    ensures DiscoveryMakes(devices, gatewayIps, gatewayMac, env, old(ShotOf(session)), ShotOf(session))
  {
    hide Live, Mirrored, OneRowPerPair, UniquePorts, ChatTranscript.WholeTurns, SlaKept, TurnsTaken, DiscoveryMakes;
    ghost var before := ShotOf(session);
    LiveOwners(before.db);
    var created, updated, total;
    ghost var ts;
    created, updated, total, ts := ReconcileIntoDb(session, devices, gatewayIps, gatewayMac, env);
    DiscoveryIs(ts, devices, gatewayIps, gatewayMac, env, before, ShotOf(session));
    DiscoveryKeepsLive(before.db, Snapshot(session));
  }

  lemma LiveOwners(db: Db)
    requires Live(db)
    ensures forall i :: i in db.interfaces ==> db.interfaces[i].assetId in db.assets
    ensures forall v :: v in db.services ==> db.services[v].assetId in db.assets
  {
  }

  // ---- findings ----

  lemma FindingsKeepSound(db: Db, findings: map<Id, Finding>, more: seq<LogRow>)
    requires Sound(db) && SlaKept(findings)
    requires forall k :: k in findings ==> findings[k].assetId in db.assets
    requires forall i :: 0 <= i < |more| ==> more[i].assetId in db.assets
    ensures Sound(db.(findings := findings, notes := db.notes + more))
  {
    hide Mirrored, OneRowPerPair, UniquePorts, ChatTranscript.WholeTurns, SlaKept;
  }

  // What enrichment makes of the findings; a match of an unknown asset makes the database refuse it all.
  ghost predicate EnrichedBy(t: map<Id, Finding>, u: map<Id, Finding>, assets: map<Id, Asset>, matches: seq<Match>,
                             known: map<string, Vulnerability>, now: Time)
  {
    if forall i :: 0 <= i < |matches| ==> matches[i].assetId in assets then
      && Enriched(t, u, now) && OnlyNamed(t, u, known, matches)
      && (UniquePairs(t) ==> UniquePairs(u) && AllCovered(u, assets, known, matches, |matches|, 0))
      && (AllCovered(t, assets, known, matches, |matches|, 0) ==> u == t)
    else u == t
  }

  method Enrich(session: Session, matches: seq<Match>, known: map<string, Vulnerability>, now: Time)
    requires Valid(session) && DistinctIds(known)
    modifies session`findings, session`nextFinding
    ensures Valid(session)
    ensures EnrichedBy(old(session.findings), session.findings, session.assets, matches, known, now)
  {
    hide Sound, Enriched, AllCovered, UniquePairs, DistinctIds, Covered, OnlyNamed;
    if forall i :: 0 <= i < |matches| ==> matches[i].assetId in session.assets {
      ghost var before := Snapshot(session);
      var created := EnrichFindings(session, matches, known, now);
      EnrichedStaysSound(before, session.findings, now);
      assert before.notes + [] == before.notes;
      assert Snapshot(session) == before.(findings := session.findings, notes := before.notes + []);
    }
  }

  lemma EnrichedStaysSound(db: Db, findings: map<Id, Finding>, now: Time)
    requires Sound(db) && Enriched(db.findings, findings, now)
    requires forall k :: k in findings && k !in db.findings ==> findings[k].assetId in db.assets
    ensures Sound(db.(findings := findings, notes := db.notes + []))
  {
    forall k | k in findings ensures FindingOk(findings[k]) && findings[k].assetId in db.assets {
      EnrichedKeepsSla(db.findings, findings, now, k);
    }
    hide Sound;
    FindingsKeepSound(db, findings, []);
  }

  function WithStatus(t: map<Id, Finding>, k: Id, status: Status, now: Time): map<Id, Finding> {
    if k in t then t[k := t[k].(status := status, closed := if status == Closed then Some(now) else t[k].closed)] else t
  }

  method SetStatus(session: Session, k: Id, status: Status, now: Time)
    requires Valid(session)
    modifies session`findings
    ensures Valid(session)
    ensures session.findings == WithStatus(old(session.findings), k, status, now)
  {
    hide Sound;
    ghost var before := Snapshot(session);
    UpdateStatus(session, k, status, now);
    StatusKeepsSound(before, session.findings, k);
    assert before.notes + [] == before.notes;
  }

  lemma StatusKeepsSound(db: Db, findings: map<Id, Finding>, k: Id)
    requires Sound(db)
    requires findings == db.findings
      || (k in db.findings && k in findings && findings == db.findings[k := findings[k]]
          && findings[k] == db.findings[k].(status := findings[k].status, closed := findings[k].closed))
    ensures Sound(db.(findings := findings, notes := db.notes + []))
  {
    assert forall i :: i in findings ==> FindingOk(findings[i]) && findings[i].assetId in db.assets;
    hide Sound;
    FindingsKeepSound(db, findings, []);
  }

  lemma {:induction false} PlanNames(t: map<Id, Finding>, assets: map<Id, Asset>, next: Id)
    ensures forall i :: 0 <= i < |PlanOf(t, assets, next)| ==> PlanOf(t, assets, next)[i].asset in assets
  {
    if next > 0 {
      PlanNames(t, assets, next - 1);
    }
  }

  lemma {:induction false} NotesName(plan: seq<Planned>, assets: map<Id, Asset>)
    requires forall i :: 0 <= i < |plan| ==> plan[i].asset in assets
    ensures forall i :: 0 <= i < |NotesOf(plan)| ==> NotesOf(plan)[i].assetId in assets
  {
    if plan != [] {
      NotesName(plan[..|plan| - 1], assets);
    }
  }

  method Resync(session: Session, dryRun: bool)
    requires Valid(session)
    modifies session`findings, session`notes
    ensures Valid(session)
    ensures if dryRun then session.findings == old(session.findings) && session.notes == old(session.notes)
      else
        && session.findings == ResyncedAll(old(session.findings), session.assets)
        && session.notes
           == old(session.notes) + NotesOf(PlanOf(old(session.findings), session.assets, session.nextFinding))
  {
    hide Sound, Resynced, PlanOf, NotesOf;
    ghost var before := Snapshot(session);
    var plan := RunExposureResync(session, dryRun);
    PlanNames(before.findings, session.assets, session.nextFinding);
    NotesName(plan, session.assets);
    ResyncedStaysSound(before, session.findings, if dryRun then [] else NotesOf(plan), dryRun);
    assert before.notes + [] == before.notes;
  }

  lemma ResyncedStaysSound(db: Db, findings: map<Id, Finding>, more: seq<LogRow>, dryRun: bool)
    requires Sound(db) && forall i :: 0 <= i < |more| ==> more[i].assetId in db.assets
    requires findings == if dryRun then db.findings else ResyncedAll(db.findings, db.assets)
    ensures Sound(db.(findings := findings, notes := db.notes + more))
  {
    forall k | k in findings ensures FindingOk(findings[k]) && findings[k].assetId in db.assets {
      ResyncMatchesAssets(db.findings, db.assets, k);
    }
    hide Sound;
    FindingsKeepSound(db, findings, more);
  }

  // ---- dismissing the whole list ----

  // What a query of the assets can see: each of them at most once.
  predicate IsListing(order: seq<Id>, assets: map<Id, Asset>) {
    && (forall i :: 0 <= i < |order| ==> order[i] in assets)
    && (forall i, j :: 0 <= i < j < |order| ==> order[i] != order[j])
  }

  method DismissListed(session: Session, r: Reader, min: int, order: seq<Id>, now: Time)
    requires Valid(session)
    modifies session`dismissals, session`nextDismissal
    ensures Valid(session)
    ensures if IsListing(order, session.assets) then
      exists cs :: multiset(cs) == multiset(Listed(old(TablesOf(session)), r, min, order))
        && ClosedBy(old(TablesOf(session)), TablesOf(session), r, cs)
      else session.dismissals == old(session.dismissals)
  {
    if IsListing(order, session.assets) {
      assert OneRowPerPair(session.dismissals);
      hide Sound, OneRowPerPair, Listed, ClosedBy, NewRowsAmong;
      ghost var before := Snapshot(session);
      var cs := DismissAll(session, r, min, order, now);
      DismissalsKeepSound(before, session.dismissals);
    }
  }

  lemma DismissalsKeepSound(db: Db, u: map<Id, Dismissal>)
    requires Sound(db) && OneRowPerPair(u) && NewRowsAmong(db.dismissals, u, db.assets.Keys)
    ensures Sound(db.(dismissals := u))
  {
    hide Mirrored, OneRowPerPair, UniquePorts, ChatTranscript.WholeTurns, SlaKept;
  }

  // ---- the assistant ----

  lemma {:induction false} ChargesName(w: ChatTurn.World, a: Id, rs: seq<ChatTurn.Reply>)
    ensures forall i :: 0 <= i < |ChatTurn.Charges(w, a, rs)| ==> ChatTurn.Charges(w, a, rs)[i].assetId == Some(a)
  {
    if rs != [] {
      ChargesName(w, a, rs[..|rs| - 1]);
    }
  }

  lemma RowsKeepSound(db: Db, a: Id, ms: seq<ChatTranscript.Message>, more: seq<Usage>)
    requires Sound(db) && a in db.assets
    requires forall i :: 0 <= i < |more| ==> more[i].assetId == Some(a)
    requires ChatTranscript.WholeTurns(db.chat + ChatTranscript.RowsFor(a, ms))
    ensures Sound(db.(chat := db.chat + ChatTranscript.RowsFor(a, ms), usage := db.usage + more))
  {
    hide Mirrored, OneRowPerPair, UniquePorts, ChatTranscript.WholeTurns, SlaKept;
  }

  lemma TurnKeepsSound(db: Db, a: Id, text: string, files: seq<ChatTurn.Attachment>, w: ChatTurn.World, b: Budget,
                       enabled: bool, chat: seq<ChatMessage>, ledger: seq<Usage>, rs: seq<ChatTurn.Reply>,
                       sent: seq<seq<ChatTranscript.Message>>, ending: ChatTurn.Ending)
    requires Sound(db) && a in db.assets
    requires ChatTurn.Taken(w, a, ChatTurn.Question(text, files), b, enabled, db.chat, db.usage, chat, ledger, rs,
                            sent, ending)
    ensures Sound(db.(chat := chat, usage := ledger))
  {
    ChatTurn.TurnIsWhole(w, a, text, files, b, enabled, db.chat, db.usage, chat, ledger, rs, sent, ending);
    hide ChatTranscript.WholeTurns, Live, Mirrored, OneRowPerPair, UniquePorts, SlaKept;
    hide ChatTurn.Ends, ChatTurn.Calls, BudgetBlockReason, ChatTurn.Charges, ChatTurn.TurnRows;
    hide ChatTranscript.RowsFor, ChatTurn.StoredReplies, ChatTurn.Kept, ChatTurn.Question, ChatTranscript.Transcript;
    if chat != db.chat || ledger != db.usage {
      var ms := ChatTurn.TurnRows(w, ChatTurn.Kept(w, ChatTurn.Question(text, files)),
                                  ChatTurn.StoredReplies(ending, rs));
      ChargesName(w, a, rs);
      RowsKeepSound(db, a, ms, ChatTurn.Charges(w, a, rs));
    }
  }

  // Every ledger row was written by `t`.
  predicate WrittenBy(rows: seq<Usage>, t: Time) {
    forall i :: 0 <= i < |rows| ==> rows[i].at <= t
  }

  const LAST_READING: nat := 2 * ChatTurn.MAX_TOOL_ITERATIONS

  method Ask(session: Session, a: Id, text: string, files: seq<ChatTurn.Attachment>, w: ChatTurn.World, b: Budget)
    requires Valid(session) && ChatTurn.ClockNeverBack(w)
    requires Ledger(session.usage, b) && WrittenBy(session.usage, w.clock(0))
    modifies session`chat, session`usage
    ensures Valid(session)
    ensures Ledger(session.usage, b) && WrittenBy(session.usage, w.clock(LAST_READING))
    ensures if a in session.assets then
      exists rs, sent, ending ::
        ChatTurn.Taken(w, a, ChatTurn.Question(text, files), b, session.assistantEnabled, old(session.chat),
                       old(session.usage), session.chat, session.usage, rs, sent, ending)
      else session.chat == old(session.chat) && session.usage == old(session.usage)
  {
    hide Sound, Ledger, ChatTurn.Taken;
    assert w.clock(0) <= w.clock(LAST_READING);
    if a in session.assets {
      ghost var before := Snapshot(session);
      var ending;
      ghost var rs, sent;
      ending, rs, sent := ChatTurn.RunChatTurn(session, a, text, files, w, b);
      TurnKeepsSound(before, a, text, files, w, b, session.assistantEnabled, session.chat, session.usage, rs, sent,
                     ending);
      ChatTurn.TurnKeepsLedger(w, a, ChatTurn.Question(text, files), b, session.assistantEnabled, before.chat,
                               before.usage, session.chat, session.usage, rs, sent, ending);
      AtMostEight(w, a, ChatTurn.Question(text, files), b, session.assistantEnabled, before.chat, before.usage,
                  session.chat, session.usage, rs, sent, ending);
      assert w.clock(2 * |rs|) <= w.clock(LAST_READING);
    }
  }

  lemma AtMostEight(w: ChatTurn.World, a: Id, question: ChatTranscript.Message, b: Budget, enabled: bool,
                    chat: seq<ChatMessage>, ledger: seq<Usage>, chat': seq<ChatMessage>, ledger': seq<Usage>,
                    rs: seq<ChatTurn.Reply>, sent: seq<seq<ChatTranscript.Message>>, ending: ChatTurn.Ending)
    requires ChatTurn.Taken(w, a, question, b, enabled, chat, ledger, chat', ledger', rs, sent, ending)
    ensures |rs| <= |sent| <= 8
  {
    hide ChatTurn.Calls, BudgetBlockReason, ChatTurn.Charges;
  }

  method GuessModelNumber(session: Session, a: Id, wanted: bool, guess: Guess, b: Budget)
    requires Valid(session) && guess.gateAt <= guess.loggedAt
    requires Ledger(session.usage, b) && WrittenBy(session.usage, guess.gateAt)
    modifies session`usage
    ensures Valid(session)
    ensures Ledger(session.usage, b) && WrittenBy(session.usage, guess.loggedAt)
    ensures session.usage == old(session.usage)
      + if a in session.assets && wanted && guess.replied && guess.writes
           && BudgetBlockReason(session.assistantEnabled, old(session.usage), guess.gateAt, b).None?
        then [GuessRow(a, guess)] else []
  {
    hide Sound, Ledger, BudgetBlockReason;
    if a in session.assets {
      ghost var before := Snapshot(session);
      var called := AutofillModelNumber(session, a, wanted, guess, b);
      GuessKeepsSound(before, session.usage, a, guess);
    }
  }

  lemma GuessKeepsSound(db: Db, usage: seq<Usage>, a: Id, guess: Guess)
    requires Sound(db) && a in db.assets
    requires usage == db.usage || usage == db.usage + [GuessRow(a, guess)]
    ensures Sound(db.(usage := usage))
  {
    hide Mirrored, OneRowPerPair, UniquePorts, ChatTranscript.WholeTurns, SlaKept, CostUsd;
  }

  // ---- requests that only rename the rows of the ledger ----

  lemma LedgerKept(rows: seq<Usage>, other: seq<Usage>, b: Budget, t: Time)
    requires SameCharges(rows, other) && Ledger(rows, b)
    ensures Ledger(other, b) && (WrittenBy(rows, t) ==> WrittenBy(other, t))
  {
    LedgerRenamed(rows, other, b, t);
  }

  // ---- any run ----

  datatype Request =
    | DiscoverDevices(devices: seq<Device>, gatewayIps: set<string>, gatewayMac: Text, env: Env)
    | CreateAsset(row: Asset)
    | EditAsset(a: Id, row: Asset)
    | AddNoteTo(a: Id, body: string)
    | Delete(a: Id)
    | MergeNamesakes(s: Id)
    | MergePair(s: Id, a: Id, b: Id)
    | Link(a: Id, b: Id, detail: string)
    | Unlink(a: Id, link: Id)
    | DismissPair(a: Id, b: Id, at: Time)
    | DismissAllListed(min: int, order: seq<Id>, at: Time)
    | AskAssistant(a: Id, text: string, files: seq<ChatTurn.Attachment>, world: ChatTurn.World)
    | ClearChat(a: Id)
    | SaveAsset(a: Id, wanted: bool, guess: Guess)
    | EnrichFrom(matches: seq<Match>, known: map<string, Vulnerability>, at: Time)
    | ChangeStatus(finding: Id, status: Status, at: Time)
    | ResyncExposure(dryRun: bool)
    | SwitchAssistant(enabled: bool)

  // When a request that can spend reads the clock first and last.
  function Span(q: Request): Option<(Time, Time)> {
    match q
    case AskAssistant(_, _, _, w) => Some((w.clock(0), w.clock(LAST_READING)))
    case SaveAsset(_, _, g) => Some((g.gateAt, g.loggedAt))
    case _ => None
  }

  // The clock does not go back within a request, and CVE names do not share rows.
  ghost predicate Proper(q: Request) {
    match q
    case AskAssistant(_, _, _, w) => ChatTurn.ClockNeverBack(w)
    case SaveAsset(_, _, g) => g.gateAt <= g.loggedAt
    case EnrichFrom(_, known, _) => DistinctIds(known)
    case _ => true
  }

  /** One request after the other. */
  predicate InOrder(qs: seq<Request>) {
    forall i, j :: 0 <= i < j < |qs| && Span(qs[i]).Some? && Span(qs[j]).Some? ==>
      Span(qs[i]).value.1 <= Span(qs[j]).value.0
  }

  predicate BeforeSpending(rows: seq<Usage>, q: Request) {
    Span(q).Some? ==> WrittenBy(rows, Span(q).value.0)
  }

  /** What a request makes of the database; the tables it does not name stay as they are. */
  ghost predicate Does(q: Request, r: Reader, b: Budget, s: Shot, t: Shot) {
    && t.enabled == (if q.SwitchAssistant? then q.enabled else s.enabled)
    && (q.DiscoverDevices? || q.CreateAsset? || t.next == s.next)
    && Makes(q, r, b, s, t)
  }

  ghost predicate Makes(q: Request, r: Reader, b: Budget, s: Shot, t: Shot) {
    match q
    case DiscoverDevices(devices, ips, mac, env) => DiscoveryMakes(devices, ips, mac, env, s, t)
    case CreateAsset(_) | EditAsset(_, _) | AddNoteTo(_, _) | ClearChat(_) => AssetMakes(q, s, t)
    case Delete(_) | MergeNamesakes(_) | MergePair(_, _, _) => MergeMakes(q, s.db, t.db)
    case Link(_, _, _) | Unlink(_, _) => LinkMakes(q, s.db, t.db)
    case DismissPair(_, _, _) | DismissAllListed(_, _, _) => DismissalMakes(q, r, s.db, t.db)
    case AskAssistant(_, _, _, _) | SaveAsset(_, _, _) => SpendingMakes(q, b, s.enabled, s.db, t.db)
    case EnrichFrom(_, _, _) | ChangeStatus(_, _, _) | ResyncExposure(_) => FindingMakes(q, s.db, t.db)
    case SwitchAssistant(_) => t.db == s.db
  }

  ghost predicate AssetMakes(q: Request, s: Shot, t: Shot)
    requires q.CreateAsset? || q.EditAsset? || q.AddNoteTo? || q.ClearChat?
  {
    match q
    case CreateAsset(row) => Created(s, t, row)
    case EditAsset(a, row) => Edited(s.db, t.db, a, row)
    case AddNoteTo(a, body) => Noted(s.db, t.db, a, body)
    case ClearChat(a) => ChatCleared(s.db, t.db, a)
  }

  ghost predicate MergeMakes(q: Request, db: Db, db': Db)
    requires q.Delete? || q.MergeNamesakes? || q.MergePair?
  {
    match q
    case Delete(a) => DeletedIfThere(db, db', a)
    case MergeNamesakes(v) => NamesakesMerged(db, db', v)
    case MergePair(v, x, y) => PairMerged(db, db', v, x, y)
  }

  ghost predicate LinkMakes(q: Request, db: Db, db': Db)
    requires q.Link? || q.Unlink?
  {
    match q
    case Link(x, y, detail) => LinkMade(db, db', x, y, detail)
    case Unlink(a, k) => LinkUnmade(db, db', a, k)
  }

  ghost predicate DismissalMakes(q: Request, r: Reader, db: Db, db': Db)
    requires q.DismissPair? || q.DismissAllListed?
  {
    match q
    case DismissPair(x, y, _) => PairDismissed(db, db', r, x, y)
    case DismissAllListed(min, order, _) => AllDismissed(db, db', r, min, order)
  }

  ghost predicate SpendingMakes(q: Request, b: Budget, enabled: bool, db: Db, db': Db)
    requires q.AskAssistant? || q.SaveAsset?
  {
    match q
    case AskAssistant(a, text, files, w) => Asked(db, db', a, ChatTurn.Question(text, files), w, b, enabled)
    case SaveAsset(a, wanted, guess) => Guessed(db, db', a, wanted, guess, b, enabled)
  }

  ghost predicate FindingMakes(q: Request, db: Db, db': Db)
    requires q.EnrichFrom? || q.ChangeStatus? || q.ResyncExposure?
  {
    match q
    case EnrichFrom(matches, known, at) => FindingsEnriched(db, db', matches, known, at)
    case ChangeStatus(k, status, at) => db' == db.(findings := WithStatus(db.findings, k, status, at))
    case ResyncExposure(dryRun) => ExposureResynced(db, db', dryRun)
  }

  ghost predicate Created(s: Shot, t: Shot, row: Asset) {
    && s.next !in s.db.assets && t.next == s.next + 1
    && t.db == s.db.(assets := s.db.assets[s.next := row])
  }

  ghost predicate Edited(db: Db, db': Db, a: Id, row: Asset) {
    db' == db.(assets := if a in db.assets then db.assets[a := row] else db.assets)
  }

  ghost predicate Noted(db: Db, db': Db, a: Id, body: string) {
    db' == db.(notes := db.notes + if a in db.assets && body != "" then [LogRow(a, "user", body)] else [])
  }

  ghost predicate DeletedIfThere(db: Db, db': Db, a: Id) {
    if a in db.assets then Deleted(db, db', a) else db' == db
  }

  ghost predicate NamesakesMerged(db: Db, db': Db, v: Id) {
    var dups := Namesakes(db.assets, v);
    ViewOf(db') == MergedAway(ViewOf(db), v, dups) && OnlyRepointed(db, db', v, dups)
  }

  ghost predicate PairMerged(db: Db, db': Db, v: Id, x: Id, y: Id) {
    var d := if v == y then x else y;
    if (v == x || v == y) && x != y && v in db.assets && d in db.assets then Merged(db, db', v, d) else db' == db
  }

  ghost predicate LinkMade(db: Db, db': Db, x: Id, y: Id, detail: string) {
    var made := x != y && x in db.assets && y in db.assets;
    && db' == db.(relationships := db'.relationships,
                  notes := db.notes + if made then LinkNotes(x, y, detail) else [])
    && (made ==> Linked(db'.relationships, x, y))
    && (if x in db.assets && y in db.assets
        then RowsLinked(db.relationships, db'.relationships, x, y, if detail == "" then None else Some(detail))
        else db' == db)
    && SameLinksBut(db.relationships, db'.relationships, x, y) && OtherKindsKept(db.relationships, db'.relationships)
  }

  ghost predicate LinkUnmade(db: Db, db': Db, a: Id, k: Id) {
    var t, u := db.relationships, db'.relationships;
    && db' == db.(relationships := u)
    && (if k in t && t[k].assetId == a then RowUnlinked(t, u, k) && LinkGone(t, u, t[k]) else u == t)
  }

  ghost predicate PairDismissed(db: Db, db': Db, r: Reader, x: Id, y: Id) {
    && db' == db.(relationships := db'.relationships, dismissals := db'.dismissals)
    && SameLinksBut(db.relationships, db'.relationships, x, y) && OtherKindsKept(db.relationships, db'.relationships)
    && SameDismissalsBut(db.dismissals, db'.dismissals, x, y) && !AlreadyLinked(Searched(db'), x, y)
    && (x != y && x in db.assets && y in db.assets ==>
          DismissedOnlyAs(db'.dismissals, x, y, Fingerprint(r, db.assets, db.interfaces, x, y)))
  }

  ghost predicate Asked(db: Db, db': Db, a: Id, question: ChatTranscript.Message, w: ChatTurn.World, b: Budget,
                        enabled: bool)
  {
    && db' == db.(chat := db'.chat, usage := db'.usage)
    && (if a in db.assets then
          exists rs, sent, ending ::
            ChatTurn.Taken(w, a, question, b, enabled, db.chat, db.usage, db'.chat, db'.usage, rs, sent, ending)
        else db' == db)
  }

  ghost predicate ChatCleared(db: Db, db': Db, a: Id) {
    db' == db.(chat := if a in db.assets then Filter(db.chat, Not(MessageOf(a))) else db.chat)
  }

  ghost predicate Guessed(db: Db, db': Db, a: Id, wanted: bool, guess: Guess, b: Budget, enabled: bool) {
    db' == db.(usage := db.usage
                        + if a in db.assets && wanted && guess.replied && guess.writes
                             && BudgetBlockReason(enabled, db.usage, guess.gateAt, b).None?
                          then [GuessRow(a, guess)] else [])
  }

  ghost predicate FindingsEnriched(db: Db, db': Db, matches: seq<Match>, known: map<string, Vulnerability>, at: Time) {
    && db' == db.(findings := db'.findings)
    && EnrichedBy(db.findings, db'.findings, db.assets, matches, known, at)
  }

  // `next` is the sequence of the findings' keys, up to which the plan looks.
  ghost predicate ExposureResynced(db: Db, db': Db, dryRun: bool) {
    if dryRun then db' == db
    else exists next ::
      && Below(db.findings, next)
      && db' == db.(findings := ResyncedAll(db.findings, db.assets),
                    notes := db.notes + NotesOf(PlanOf(db.findings, db.assets, next)))
  }

  ghost predicate AllDismissed(db: Db, db': Db, r: Reader, min: int, order: seq<Id>) {
    if IsListing(order, db.assets) then
      && db' == db.(dismissals := db'.dismissals)
      && exists cs :: multiset(cs) == multiset(Listed(Searched(db), r, min, order))
                      && ClosedBy(Searched(db), Searched(db'), r, cs)
    else db' == db
  }

  // What the search for candidates reads.
  function Searched(db: Db): Tables {
    Tables(db.assets, db.interfaces, db.relationships, db.dismissals)
  }

  method HandleMerge(session: Session, q: Request, r: Reader, b: Budget)
    requires Valid(session) && (q.Delete? || q.MergeNamesakes? || q.MergePair?)
    modifies session`assets, session`interfaces, session`services, session`findings, session`proposals
    modifies session`relationships, session`dismissals, session`notes, session`probeResults
    modifies session`chat, session`usage
    ensures Valid(session) && SameCharges(old(session.usage), session.usage)
    ensures Does(q, r, b, old(ShotOf(session)), ShotOf(session))
  {
    hide DiscoveryMakes, AssetMakes, LinkMakes, DismissalMakes, SpendingMakes, FindingMakes;
    hide Valid, Deleted, Merged, ViewOf, MergedAway, Namesakes, SameCharges, OnlyRepointed;
    ghost var before := Snapshot(session);
    match q {
      case Delete(a) =>
        AssetDelete(session, a);
        DeletedCharges(before, Snapshot(session), a);
      case MergeNamesakes(s) =>
        DuplicatesMerge(session, s);
        MergedAwayCharges(before, Snapshot(session), s, Namesakes(before.assets, s));
      case MergePair(s, x, y) =>
        DuplicatesMergePair(session, s, x, y);
        MergedCharges(before, Snapshot(session), s, if s == y then x else y);
    }
  }

  method HandleLink(session: Session, q: Request, r: Reader, b: Budget)
    requires Valid(session) && (q.Link? || q.Unlink?)
    modifies session`relationships, session`nextRelationship, session`notes
    ensures Valid(session)
    ensures Does(q, r, b, old(ShotOf(session)), ShotOf(session))
  {
    hide DiscoveryMakes, AssetMakes, MergeMakes, DismissalMakes, SpendingMakes, FindingMakes;
    hide Valid, SameLinksBut, OtherKindsKept, Linked, LinkNotes, RowsLinked, RowUnlinked, LinkGone;
    match q {
      case Link(x, y, detail) => InvestigateLink(session, x, y, detail);
      case Unlink(a, link) => AssetUnlink(session, a, link);
    }
  }

  method HandleDismissal(session: Session, q: Request, r: Reader, b: Budget)
    requires Valid(session) && (q.DismissPair? || q.DismissAllListed?)
    modifies session`relationships, session`dismissals, session`nextDismissal
    ensures Valid(session)
    ensures Does(q, r, b, old(ShotOf(session)), ShotOf(session))
  {
    hide DiscoveryMakes, AssetMakes, MergeMakes, LinkMakes, SpendingMakes, FindingMakes;
    hide Valid, SameLinksBut, OtherKindsKept, SameDismissalsBut, AlreadyLinked, Fingerprint, Listed, ClosedBy;
    hide IsListing, DismissedOnlyAs, Undecided;
    match q {
      case DismissPair(x, y, at) => DuplicatesDismissPair(session, x, y, r, at);
      case DismissAllListed(min, order, at) =>
        assert TablesOf(session) == Searched(Snapshot(session));
        DismissListed(session, r, min, order, at);
        assert TablesOf(session) == Searched(Snapshot(session));
    }
  }

  method HandleFinding(session: Session, q: Request, r: Reader, b: Budget)
    requires Valid(session) && Proper(q) && (q.EnrichFrom? || q.ChangeStatus? || q.ResyncExposure?)
    modifies session`findings, session`nextFinding, session`notes
    ensures Valid(session)
    ensures Does(q, r, b, old(ShotOf(session)), ShotOf(session))
  {
    hide DiscoveryMakes, AssetMakes, MergeMakes, LinkMakes, DismissalMakes, SpendingMakes;
    hide Sound, EnrichedBy, WithStatus, ResyncedAll, NotesOf, PlanOf, DistinctIds;
    match q {
      case EnrichFrom(matches, known, at) => Enrich(session, matches, known, at);
      case ChangeStatus(finding, status, at) => SetStatus(session, finding, status, at);
      case ResyncExposure(dryRun) => Resync(session, dryRun);
    }
  }

  method HandleSpending(session: Session, q: Request, r: Reader, b: Budget)
    requires Valid(session) && Proper(q) && Span(q).Some?
    requires Ledger(session.usage, b) && WrittenBy(session.usage, Span(q).value.0)
    modifies session`chat, session`usage
    ensures Valid(session) && Ledger(session.usage, b) && WrittenBy(session.usage, Span(q).value.1)
    ensures Does(q, r, b, old(ShotOf(session)), ShotOf(session))
  {
    hide DiscoveryMakes, AssetMakes, MergeMakes, LinkMakes, DismissalMakes, FindingMakes;
    hide Valid, Ledger, WrittenBy, ChatTurn.Taken, ChatTurn.Question, BudgetBlockReason, GuessRow;
    match q {
      case AskAssistant(a, text, files, world) => Ask(session, a, text, files, world, b);
      case SaveAsset(a, wanted, guess) => GuessModelNumber(session, a, wanted, guess, b);
    }
  }

  method HandleDiscovery(session: Session, q: Request, r: Reader, b: Budget)
    requires Valid(session) && q.DiscoverDevices?
    modifies session`assets, session`interfaces, session`services
    modifies session`nextAsset, session`nextInterface, session`nextService
    ensures Valid(session)
    ensures Does(q, r, b, old(ShotOf(session)), ShotOf(session))
  {
    hide DiscoveryMakes, AssetMakes, MergeMakes, LinkMakes, DismissalMakes, SpendingMakes, FindingMakes;
    hide Valid;
    Discover(session, q.devices, q.gatewayIps, q.gatewayMac, q.env);
  }

  method HandleAsset(session: Session, q: Request, r: Reader, b: Budget)
    requires Valid(session) && (q.CreateAsset? || q.EditAsset? || q.AddNoteTo? || q.ClearChat?)
    modifies session`assets, session`nextAsset, session`notes, session`chat
    ensures Valid(session)
    ensures Does(q, r, b, old(ShotOf(session)), ShotOf(session))
  {
    hide DiscoveryMakes, MergeMakes, LinkMakes, DismissalMakes, SpendingMakes, FindingMakes;
    hide Valid, Filter;
    match q {
      case CreateAsset(row) => var a := AssetCreate(session, row);
      case EditAsset(a, row) => AssetUpdate(session, a, row);
      case AddNoteTo(a, body) => AddNote(session, a, body);
      case ClearChat(a) => ChatClear(session, a);
    }
  }

  // `set_ai_assistant_enabled`
  method HandleSwitch(session: Session, q: Request, r: Reader, b: Budget)
    requires Valid(session) && q.SwitchAssistant?
    modifies session`assistantEnabled
    ensures Valid(session)
    ensures Does(q, r, b, old(ShotOf(session)), ShotOf(session))
  {
    hide DiscoveryMakes, AssetMakes, MergeMakes, LinkMakes, DismissalMakes, SpendingMakes, FindingMakes;
    hide Sound;
    session.assistantEnabled := q.enabled;
  }

  lemma UnchangedCharges(rows: seq<Usage>)
    ensures SameCharges(rows, rows)
  {
  }

  method HandleQuiet(session: Session, q: Request, r: Reader, b: Budget)
    requires Valid(session) && Proper(q) && !q.AskAssistant? && !q.SaveAsset?
    modifies session
    ensures Valid(session)
    ensures Does(q, r, b, old(ShotOf(session)), ShotOf(session))
    ensures SameCharges(old(session.usage), session.usage)
  {
    hide *;
    UnchangedCharges(session.usage);
    if q.Delete? || q.MergeNamesakes? || q.MergePair? {
      HandleMerge(session, q, r, b);
    } else if q.Link? || q.Unlink? {
      HandleLink(session, q, r, b);
    } else if q.DismissPair? || q.DismissAllListed? {
      HandleDismissal(session, q, r, b);
    } else if q.EnrichFrom? || q.ChangeStatus? || q.ResyncExposure? {
      HandleFinding(session, q, r, b);
    } else if q.DiscoverDevices? {
      HandleDiscovery(session, q, r, b);
    } else if q.CreateAsset? || q.EditAsset? || q.AddNoteTo? || q.ClearChat? {
      HandleAsset(session, q, r, b);
    } else {
      HandleSwitch(session, q, r, b);
    }
  }

  lemma WhoSpends(rows: seq<Usage>, q: Request)
    requires BeforeSpending(rows, q)
    ensures Span(q).Some? <==> q.AskAssistant? || q.SaveAsset?
    ensures Span(q).Some? ==> WrittenBy(rows, Span(q).value.0)
  {
  }

  method Handle(session: Session, q: Request, r: Reader, b: Budget)
    requires Valid(session) && Ledger(session.usage, b) && Proper(q) && BeforeSpending(session.usage, q)
    modifies session
    ensures Valid(session) && Ledger(session.usage, b)
    ensures Does(q, r, b, old(ShotOf(session)), ShotOf(session))
    ensures if Span(q).Some? then WrittenBy(session.usage, Span(q).value.1)
            else SameCharges(old(session.usage), session.usage)
  {
    hide *;
    WhoSpends(session.usage, q);
    if q.AskAssistant? || q.SaveAsset? {
      HandleSpending(session, q, r, b);
    } else {
      ghost var usage := session.usage;
      HandleQuiet(session, q, r, b);
      LedgerKept(usage, session.usage, b, 0);
    }
  }

  lemma DeletedCharges(db: Db, db': Db, a: Id)
    ensures Deleted(db, db', a) || db' == db ==> SameCharges(db.usage, db'.usage)
  {
  }

  lemma MergedCharges(db: Db, db': Db, s: Id, d: Id)
    ensures Merged(db, db', s, d) || db' == db ==> SameCharges(db.usage, db'.usage)
  {
    hide MovedDistinct, Cleaned;
  }

  lemma MergedAwayCharges(db: Db, db': Db, s: Id, dups: set<Id>)
    requires ViewOf(db') == MergedAway(ViewOf(db), s, dups)
    ensures SameCharges(db.usage, db'.usage)
  {
    assert db'.usage == MergedAway(ViewOf(db), s, dups).usage;
  }

  /** The moments that a run went through, from the one before its first request on. */
  ghost predicate RanThrough(qs: seq<Request>, r: Reader, b: Budget, trace: seq<Shot>) {
    && |trace| == |qs| + 1
    && (forall i :: 0 <= i < |trace| ==> Good(trace[i], b))
    && (forall i :: 0 <= i < |qs| ==> Does(qs[i], r, b, trace[i], trace[i + 1]))
  }

  ghost predicate Good(s: Shot, b: Budget) {
    Sound(s.db) && Below(s.db.assets, s.next) && Ledger(s.db.usage, b)
  }

  /** Whatever the requests and their order, all of this holds after each of them: no foreign key
      dangles; links are mirrored, irreflexive and stored once; each dismissed pair and each port of an
      asset has one row; every chat is made of whole turns; each finding has the date its severity and
      exposure give; and the gate admitted every row of the ledger. */
  method Serve(session: Session, qs: seq<Request>, r: Reader, b: Budget) returns (ghost trace: seq<Shot>)
    requires Valid(session) && Ledger(session.usage, b) && InOrder(qs)
    requires forall i :: 0 <= i < |qs| ==> Proper(qs[i]) && BeforeSpending(session.usage, qs[i])
    modifies session
    ensures Valid(session) && Ledger(session.usage, b)
    ensures RanThrough(qs, r, b, trace)
    ensures trace[0] == old(ShotOf(session)) && trace[|qs|] == ShotOf(session)
  {
    hide *;
    assert qs[..|qs|] == qs;
    trace := [ShotOf(session)];
    NoStepYet(session, qs, r, b);
    for n := 0 to |qs|
      invariant |trace| == n + 1
      invariant Valid(session) && Ledger(session.usage, b)
      invariant StillBefore(qs, n, session.usage)
      invariant RanThrough(qs[..n], r, b, trace)
      invariant trace[0] == old(ShotOf(session)) && trace[n] == ShotOf(session)
    {
      ghost var before := session.usage;
      IsBefore(qs, n, before);
      Handle(session, qs[n], r, b);
      LaterStillBefore(qs, n, before, session.usage);
      OneMoreStep(session, qs, n, r, b, trace);
      trace := trace + [ShotOf(session)];
    }
  }

  // The ledger was written before each of the requests from the `n`th on.
  ghost predicate StillBefore(qs: seq<Request>, n: nat, rows: seq<Usage>) {
    forall i :: n <= i < |qs| ==> Proper(qs[i]) && BeforeSpending(rows, qs[i])
  }

  lemma IsBefore(qs: seq<Request>, n: nat, rows: seq<Usage>)
    requires n < |qs| && StillBefore(qs, n, rows)
    ensures Proper(qs[n]) && BeforeSpending(rows, qs[n])
  {
  }

  lemma NoStepYet(session: Session, qs: seq<Request>, r: Reader, b: Budget)
    requires Valid(session) && Ledger(session.usage, b)
    requires forall i :: 0 <= i < |qs| ==> Proper(qs[i]) && BeforeSpending(session.usage, qs[i])
    ensures RanThrough(qs[..0], r, b, [ShotOf(session)]) && StillBefore(qs, 0, session.usage)
  {
    hide Sound, Ledger, Proper, BeforeSpending;
  }

  lemma OneMoreStep(session: Session, qs: seq<Request>, n: nat, r: Reader, b: Budget, trace: seq<Shot>)
    requires n < |qs| && RanThrough(qs[..n], r, b, trace)
    requires Valid(session) && Ledger(session.usage, b) && Does(qs[n], r, b, trace[n], ShotOf(session))
    ensures RanThrough(qs[..n + 1], r, b, trace + [ShotOf(session)])
  {
    hide Sound, Ledger, Does;
  }

  lemma LaterStillBefore(qs: seq<Request>, n: nat, rows: seq<Usage>, after: seq<Usage>)
    requires n < |qs| && InOrder(qs) && StillBefore(qs, n, rows)
    requires if Span(qs[n]).Some? then WrittenBy(after, Span(qs[n]).value.1) else SameCharges(rows, after)
    ensures StillBefore(qs, n + 1, after)
  {
    hide Span, Proper;
  }

  /** A new database satisfies all of it. */
  lemma NewDatabase(session: Session, b: Budget)
    requires session.assets == map[] && session.interfaces == map[] && session.services == map[]
    requires session.findings == map[] && session.proposals == map[] && session.relationships == map[]
    requires session.dismissals == map[] && session.notes == [] && session.probeResults == []
    requires session.chat == [] && session.usage == [] && session.KeysBelowSequences()
    ensures Valid(session) && Ledger(session.usage, b)
  {
    var none: seq<ChatTranscript.Turn> := [];
    assert ChatTranscript.AllPaired(none) && session.chat == ChatTranscript.Stored(none);
  }
}
