/** Findings and the date by which each has to be dealt with (discovery/cve_enrich.py,
    discovery/exposure_resync.py, app/routers/dashboard.py). */
module FindingSla {
  import opened Basics
  import opened Models
  import opened AssetChildren

  // SLA_DAYS
  function SlaDays(severity: Severity, exposure: Exposure): int {
    match (severity, exposure)
    case (Critical, InternetFacing) => 7
    case (Critical, Internal) => 14
    case (High, InternetFacing) => 14
    case (High, Internal) => 30
    case (Medium, InternetFacing) => 30
    case (Medium, Internal) => 60
    case (Low, _) => 90
  }

  /** `sla_due_date` */
  function DueDate(severity: Severity, exposure: Exposure, detected: Time): Time {
    detected + SlaDays(severity, exposure) * DAY
  }

  /** The table of deadlines, in days. */
  lemma Deadlines(severity: Severity, exposure: Exposure, detected: Time)
    ensures var days := (DueDate(severity, exposure, detected) - detected) / 86400;
      && (DueDate(severity, exposure, detected) - detected) % 86400 == 0
      && days == if exposure == InternetFacing
                 then if severity == Critical then 7 else if severity == High then 14
                      else if severity == Medium then 30 else 90
                 else if severity == Critical then 14 else if severity == High then 30
                      else if severity == Medium then 60 else 90
  {
  }

  /** The stored date is the one its stored severity and exposure give. */
  predicate FindingOk(f: Finding) {
    f.due == Some(DueDate(f.severity, f.exposure, f.detected))
  }

  ghost predicate SlaKept(t: map<Id, Finding>) {
    forall k :: k in t ==> FindingOk(t[k])
  }

  function ExposureOf(asset: Asset): Exposure {
    if asset.internetFacing then InternetFacing else Internal
  }

  // What a rescore makes of a finding: the date counts from the original detection.
  function Scored(f: Finding, severity: Severity, exposure: Exposure): Finding {
    f.(severity := severity, exposure := exposure, due := Some(DueDate(severity, exposure, f.detected)))
  }

  function Rank(severity: Severity): int {
    match severity
    case Critical => 3
    case High => 2
    case Medium => 1
    case Low => 0
  }

  predicate AtLeastAsBad(s: Severity, e: Exposure, s': Severity, e': Exposure) {
    Rank(s) >= Rank(s') && (e == e' || e == InternetFacing)
  }

  /** A rescore to a severity and an exposure that are no better never gives more time. */
  lemma RescoreGivesNoExtraTime(f: Finding, severity: Severity, exposure: Exposure)
    requires FindingOk(f) && AtLeastAsBad(severity, exposure, f.severity, f.exposure)
    ensures FindingOk(Scored(f, severity, exposure)) && Scored(f, severity, exposure).due.value <= f.due.value
  {
    match severity case Critical => case High => case Medium => case Low =>
  }

  // ---- enrichment ----

  datatype Vulnerability = Vulnerability(id: Id, severity: Severity)

  predicate IsFor(t: map<Id, Finding>, k: Id, a: Id, v: Vulnerability) {
    k in t && t[k].assetId == a && t[k].vulnerability == Some(v.id)
  }

  predicate SamePair(f: Finding, g: Finding) {
    f.assetId == g.assetId && f.vulnerability.Some? && f.vulnerability == g.vulnerability
  }

  /** At most one finding per asset and vulnerability. */
  ghost predicate UniquePairs(t: map<Id, Finding>) {
    forall k, l :: (k in t && l in t && SamePair(t[k], t[l])) ==> k == l
  }

  // A finding that a human has dealt with, or that says what the vulnerability and the asset say now.
  predicate UpToDate(f: Finding, v: Vulnerability, exposure: Exposure) {
    f.status != Open || (f.severity == v.severity && f.exposure == exposure)
  }

  ghost predicate Covered(t: map<Id, Finding>, a: Id, v: Vulnerability, exposure: Exposure) {
    && (exists k :: IsFor(t, k, a, v))
    && (forall k :: IsFor(t, k, a, v) && t[k].status == Open ==>
          t[k].severity == v.severity && t[k].exposure == exposure)
  }

  /** No finding is lost; one is changed only while it is open, and then rescored; a new one is open and
      dates from now. */
  ghost predicate Enriched(t: map<Id, Finding>, u: map<Id, Finding>, now: Time) {
    && t.Keys <= u.Keys
    && (forall k :: k in t ==>
          u[k] == t[k] || (t[k].status == Open && u[k] == Scored(t[k], u[k].severity, u[k].exposure)))
    && (forall k :: k in u && k !in t ==> u[k].status == Open && u[k].detected == now && u[k].closed == None
                                            && FindingOk(u[k]))
  }

  lemma EnrichedTwice(t: map<Id, Finding>, u: map<Id, Finding>, v: map<Id, Finding>, now: Time)
    requires Enriched(t, u, now) && Enriched(u, v, now)
    ensures Enriched(t, v, now)
  {
  }

  lemma EnrichedKeepsSla(t: map<Id, Finding>, u: map<Id, Finding>, now: Time, k: Id)
    requires Enriched(t, u, now) && k in u && (k in t ==> FindingOk(t[k]))
    ensures FindingOk(u[k])
  {
  }

  lemma RescoredOne(t: map<Id, Finding>, k: Id, a: Id, v: Vulnerability, exposure: Exposure, now: Time)
    requires IsFor(t, k, a, v)
    ensures var u := if UpToDate(t[k], v, exposure) then t else t[k := Scored(t[k], v.severity, exposure)];
      && Enriched(t, u, now)
      && (UniquePairs(t) ==> UniquePairs(u) && Covered(u, a, v, exposure))
  {
  }

  lemma ScoredPair(f: Finding, severity: Severity, exposure: Exposure)
    ensures var g := Scored(f, severity, exposure);
      && g.assetId == f.assetId && g.vulnerability == f.vulnerability && g.status == f.status
      && g.severity == severity && g.exposure == exposure && g.detected == f.detected && g.closed == f.closed
      && FindingOk(g)
  {
  }

  lemma CreatedOne(t: map<Id, Finding>, k: Id, f: Finding, v: Vulnerability, exposure: Exposure, now: Time)
    requires k !in t && forall l :: !IsFor(t, l, f.assetId, v)
    requires f.vulnerability == Some(v.id) && f.status == Open && f.detected == now && f.closed == None && FindingOk(f)
    requires f.severity == v.severity && f.exposure == exposure
    ensures var u := t[k := f];
      && Enriched(t, u, now)
      && (UniquePairs(t) ==> UniquePairs(u) && Covered(u, f.assetId, v, exposure))
  {
    var u := t[k := f];
    hide FindingOk, Scored;
    assert IsFor(u, k, f.assetId, v);
    assert forall l :: l in t && SamePair(t[l], f) ==> IsFor(t, l, f.assetId, v);
    assert forall l :: l in t && SamePair(f, t[l]) ==> IsFor(t, l, f.assetId, v);
  }

  // The body of the inner loop.
  method EnrichOne(session: Session, a: Id, v: Vulnerability, exposure: Exposure, now: Time) returns (created: bool)
    requires Below(session.findings, session.nextFinding)
    modifies session`findings, session`nextFinding
    ensures Below(session.findings, session.nextFinding) && session.nextFinding >= old(session.nextFinding)
    ensures Enriched(old(session.findings), session.findings, now)
    ensures old(session.findings).Keys <= session.findings.Keys
    ensures forall k :: k in session.findings && !IsFor(session.findings, k, a, v) ==>
      k in old(session.findings) && session.findings[k] == old(session.findings)[k]
    ensures old(UniquePairs(session.findings)) ==>
      UniquePairs(session.findings) && Covered(session.findings, a, v, exposure)
    ensures old(Covered(session.findings, a, v, exposure)) ==> session.findings == old(session.findings) && !created
  {
    var t := session.findings;
    created := false;
    if k: Id :| k in t && IsFor(t, k, a, v) {
      var existing := t[k];
      RescoredOne(t, k, a, v, exposure, now);
      hide UniquePairs, Enriched, Scored;
      if existing.status == Open && (existing.severity != v.severity || existing.exposure != exposure) {
        session.findings := t[k := Scored(existing, v.severity, exposure)];
      }
      ScoredPair(existing, v.severity, exposure);
    } else {
      var k := session.nextFinding;
      session.nextFinding := session.nextFinding + 1;
      var finding := Finding(a, Some(v.id), v.severity, exposure, now,
                             Some(DueDate(v.severity, exposure, now)), Open, None);
      CreatedOne(t, k, finding, v, exposure, now);
      hide UniquePairs, Enriched;
      session.findings := t[k := finding];
      created := true;
    }
  }

  // The services that matched vulnerabilities: the asset, and the vulnerabilities by CVE name.
  datatype Match = Match(assetId: Id, cves: seq<string>)

  // The pairs of the first `n` matches and the first `m` CVEs of the next one are covered.
  ghost predicate AllCovered(t: map<Id, Finding>, assets: map<Id, Asset>, known: map<string, Vulnerability>,
                             matches: seq<Match>, n: nat, m: nat)
    requires forall i :: 0 <= i < |matches| ==> matches[i].assetId in assets
  {
    forall i, j :: 0 <= i < |matches| && 0 <= j < |matches[i].cves| && (i < n || (i == n && j < m))
                   && matches[i].cves[j] in known ==>
      Covered(t, matches[i].assetId, known[matches[i].cves[j]], ExposureOf(assets[matches[i].assetId]))
  }

  // Two CVE names never share a row.
  ghost predicate DistinctIds(known: map<string, Vulnerability>) {
    forall c, d :: c in known && d in known && known[c].id == known[d].id ==> c == d
  }

  lemma CoveredStays(t: map<Id, Finding>, u: map<Id, Finding>, a: Id, v: Vulnerability, e: Exposure,
                     b: Id, w: Vulnerability, f: Exposure)
    requires Covered(t, b, w, f) && Covered(u, a, v, e) && t.Keys <= u.Keys
    requires a == b && v.id == w.id ==> v == w && e == f
    requires forall k :: k in u && !IsFor(u, k, a, v) ==> k in t && u[k] == t[k]
    requires forall k :: k in t ==> u[k].assetId == t[k].assetId && u[k].vulnerability == t[k].vulnerability
    ensures Covered(u, b, w, f)
  {
    var k :| IsFor(t, k, b, w);
    assert IsFor(u, k, b, w);
    if a == b && v.id == w.id {
    } else {
      forall l | IsFor(u, l, b, w) ensures UpToDate(u[l], w, f) {
        assert !IsFor(u, l, a, v) && IsFor(t, l, b, w);
      }
    }
  }

  lemma AllCoveredGrows(t: map<Id, Finding>, u: map<Id, Finding>, assets: map<Id, Asset>,
                        known: map<string, Vulnerability>, matches: seq<Match>, n: nat, m: nat, now: Time)
    requires forall i :: 0 <= i < |matches| ==> matches[i].assetId in assets
    requires n < |matches| && m < |matches[n].cves| && matches[n].cves[m] in known && DistinctIds(known)
    requires AllCovered(t, assets, known, matches, n, m) && Enriched(t, u, now)
    requires var a, v := matches[n].assetId, known[matches[n].cves[m]];
      && Covered(u, a, v, ExposureOf(assets[a]))
      && forall k :: k in u && !IsFor(u, k, a, v) ==> k in t && u[k] == t[k]
    ensures AllCovered(u, assets, known, matches, n, m + 1)
  {
    var a, v := matches[n].assetId, known[matches[n].cves[m]];
    forall i, j | 0 <= i < |matches| && 0 <= j < |matches[i].cves| && (i < n || (i == n && j < m + 1))
                  && matches[i].cves[j] in known
      ensures Covered(u, matches[i].assetId, known[matches[i].cves[j]], ExposureOf(assets[matches[i].assetId]))
    {
      if i < n || j < m {
        CoveredStays(t, u, a, v, ExposureOf(assets[a]),
                     matches[i].assetId, known[matches[i].cves[j]], ExposureOf(assets[matches[i].assetId]));
      }
    }
  }

  lemma MatchDone(t: map<Id, Finding>, assets: map<Id, Asset>, known: map<string, Vulnerability>, matches: seq<Match>,
                  n: nat)
    requires forall i :: 0 <= i < |matches| ==> matches[i].assetId in assets
    requires n < |matches| && AllCovered(t, assets, known, matches, n, |matches[n].cves|)
    ensures AllCovered(t, assets, known, matches, n + 1, 0)
  {
    hide Covered;
  }

  lemma UnknownSkipped(t: map<Id, Finding>, assets: map<Id, Asset>, known: map<string, Vulnerability>,
                       matches: seq<Match>, n: nat, m: nat)
    requires forall i :: 0 <= i < |matches| ==> matches[i].assetId in assets
    requires n < |matches| && m < |matches[n].cves| && matches[n].cves[m] !in known
    requires AllCovered(t, assets, known, matches, n, m)
    ensures AllCovered(t, assets, known, matches, n, m + 1)
  {
    hide Covered;
  }

  // A match names the pair of the finding.
  ghost predicate Named(f: Finding, known: map<string, Vulnerability>, matches: seq<Match>) {
    exists i, j :: 0 <= i < |matches| && 0 <= j < |matches[i].cves| && Names(f, known, matches[i], j)
  }

  predicate Names(f: Finding, known: map<string, Vulnerability>, m: Match, j: nat)
    requires j < |m.cves|
  {
    m.cves[j] in known && f.assetId == m.assetId && f.vulnerability == Some(known[m.cves[j]].id)
  }

  // Only findings that some match names were created or changed.
  ghost predicate OnlyNamed(t: map<Id, Finding>, u: map<Id, Finding>, known: map<string, Vulnerability>,
                            matches: seq<Match>)
  {
    forall k :: k in u ==> (k in t && u[k] == t[k]) || Named(u[k], known, matches)
  }

  lemma NoneChanged(t: map<Id, Finding>, known: map<string, Vulnerability>, matches: seq<Match>)
    ensures OnlyNamed(t, t, known, matches)
  {
  }

  lemma OneNamed(t: map<Id, Finding>, u: map<Id, Finding>, u': map<Id, Finding>, known: map<string, Vulnerability>,
                 matches: seq<Match>, n: nat, m: nat)
    requires OnlyNamed(t, u, known, matches) && n < |matches| && m < |matches[n].cves| && matches[n].cves[m] in known
    requires forall k :: k in u' && !IsFor(u', k, matches[n].assetId, known[matches[n].cves[m]]) ==>
      k in u && u'[k] == u[k]
    ensures OnlyNamed(t, u', known, matches)
  {
    hide Named;
    forall k | k in u' ensures (k in t && u'[k] == t[k]) || Named(u'[k], known, matches) {
      if IsFor(u', k, matches[n].assetId, known[matches[n].cves[m]]) {
        NamedBy(u'[k], known, matches, n, m);
      }
    }
  }

  lemma NamedBy(f: Finding, known: map<string, Vulnerability>, matches: seq<Match>, n: nat, m: nat)
    requires n < |matches| && m < |matches[n].cves| && Names(f, known, matches[n], m)
    ensures Named(f, known, matches)
  {
  }

  // What the loop starts from.
  lemma NothingCovered(t: map<Id, Finding>, assets: map<Id, Asset>, known: map<string, Vulnerability>,
                       matches: seq<Match>, now: Time)
    requires forall i :: 0 <= i < |matches| ==> matches[i].assetId in assets
    ensures Enriched(t, t, now) && AllCovered(t, assets, known, matches, 0, 0)
  {
  }

  /** The create and rescore loop of `enrich_findings_from_services`, once the vulnerabilities are
      refreshed: afterwards every match has an up-to-date finding, and a second run changes nothing. */
  method EnrichFindings(session: Session, matches: seq<Match>, known: map<string, Vulnerability>, now: Time)
    returns (created: nat)
    requires Below(session.findings, session.nextFinding) && DistinctIds(known)
    requires forall i :: 0 <= i < |matches| ==> matches[i].assetId in session.assets
    modifies session`findings, session`nextFinding
    ensures Below(session.findings, session.nextFinding)
    ensures Enriched(old(session.findings), session.findings, now)
    ensures forall k :: k in session.findings && k !in old(session.findings) ==>
      session.findings[k].assetId in session.assets
    ensures old(UniquePairs(session.findings)) ==>
      UniquePairs(session.findings) && AllCovered(session.findings, session.assets, known, matches, |matches|, 0)
    ensures old(AllCovered(session.findings, session.assets, known, matches, |matches|, 0)) ==>
      session.findings == old(session.findings) && created == 0
    ensures OnlyNamed(old(session.findings), session.findings, known, matches)
  {
    hide UniquePairs, Covered, DistinctIds, Enriched, OnlyNamed, Named, Names;
    created := 0;
    ghost var start, assets := session.findings, session.assets;
    NothingCovered(start, assets, known, matches, now);
    NoneChanged(start, known, matches);
    for n := 0 to |matches|
      invariant start.Keys <= session.findings.Keys
      invariant Below(session.findings, session.nextFinding) && Enriched(start, session.findings, now)
      invariant forall k :: k in session.findings && k !in start ==> session.findings[k].assetId in assets
      invariant UniquePairs(start) ==>
        UniquePairs(session.findings) && AllCovered(session.findings, assets, known, matches, n, 0)
      invariant AllCovered(start, assets, known, matches, |matches|, 0) ==> session.findings == start && created == 0
      invariant OnlyNamed(start, session.findings, known, matches)
    {
      var a := matches[n].assetId;
      var exposure := ExposureOf(session.assets[a]);
      for m := 0 to |matches[n].cves|
        invariant start.Keys <= session.findings.Keys
        invariant Below(session.findings, session.nextFinding) && Enriched(start, session.findings, now)
        invariant forall k :: k in session.findings && k !in start ==> session.findings[k].assetId in assets
        invariant UniquePairs(start) ==>
          UniquePairs(session.findings) && AllCovered(session.findings, assets, known, matches, n, m)
        invariant AllCovered(start, assets, known, matches, |matches|, 0) ==> session.findings == start && created == 0
        invariant OnlyNamed(start, session.findings, known, matches)
      {
        var cve := matches[n].cves[m];
        if cve in known {
          ghost var before := session.findings;
          var isNew := EnrichOne(session, a, known[cve], exposure, now);
          EnrichedTwice(start, before, session.findings, now);
          OneNamed(start, before, session.findings, known, matches, n, m);
          if UniquePairs(start) {
            AllCoveredGrows(before, session.findings, assets, known, matches, n, m, now);
          }
          if isNew {
            created := created + 1;
          }
        } else if UniquePairs(start) {
          UnknownSkipped(session.findings, assets, known, matches, n, m);
        }
      }
      if UniquePairs(start) {
        MatchDone(session.findings, assets, known, matches, n);
      }
    }
  }

  // ---- the status form ----

  /** `finding_update_status` */
  method UpdateStatus(session: Session, k: Id, status: Status, now: Time)
    modifies session`findings
    ensures session.findings == if k in old(session.findings) then
      var f := old(session.findings)[k];
      old(session.findings)[k := f.(status := status, closed := if status == Closed then Some(now) else f.closed)]
      else old(session.findings)
    ensures old(SlaKept(session.findings)) ==> SlaKept(session.findings)
  {
    if k in session.findings {
      var finding := session.findings[k].(status := status);
      if status == Closed {
        finding := finding.(closed := Some(now));
      }
      session.findings := session.findings[k := finding];
    }
  }

  // ---- resync ----

  datatype Planned = Planned(finding: Id, asset: Id, exposure: Exposure, due: Time, changed: bool)

  function PlanFor(k: Id, f: Finding, asset: Asset): Planned {
    Planned(k, f.assetId, ExposureOf(asset), DueDate(f.severity, ExposureOf(asset), f.detected),
            f.exposure != ExposureOf(asset))
  }

  predicate InPlan(t: map<Id, Finding>, assets: map<Id, Asset>, k: Id) {
    k in t && t[k].status == Open && t[k].assetId in assets
  }

  // The open findings below `next`, by id.
  function PlanOf(t: map<Id, Finding>, assets: map<Id, Asset>, next: Id): seq<Planned> {
    if next == 0 then []
    else
      PlanOf(t, assets, next - 1)
      + (if InPlan(t, assets, next - 1) then [PlanFor(next - 1, t[next - 1], assets[t[next - 1].assetId])] else [])
  }

  /** `plan_exposure_resync`: never writes. */
  method PlanExposureResync(session: Session) returns (plan: seq<Planned>)
    ensures plan == PlanOf(session.findings, session.assets, session.nextFinding)
  {
    plan := [];
    for k := 0 to session.nextFinding
      invariant plan == PlanOf(session.findings, session.assets, k)
    {
      if k in session.findings && session.findings[k].status == Open {
        var f := session.findings[k];
        if f.assetId in session.assets {
          plan := plan + [PlanFor(k, f, session.assets[f.assetId])];
        }
      }
    }
  }

  /** What a resync makes of a finding. */
  function Resynced(f: Finding, assets: map<Id, Asset>): Finding {
    if f.status == Open && f.assetId in assets && f.exposure != ExposureOf(assets[f.assetId])
    then Scored(f, f.severity, ExposureOf(assets[f.assetId]))
    else f
  }

  function ResyncedAll(t: map<Id, Finding>, assets: map<Id, Asset>): map<Id, Finding> {
    map k | k in t :: Resynced(t[k], assets)
  }

  // The first `next` findings resynced.
  function ResyncedBelow(t: map<Id, Finding>, assets: map<Id, Asset>, next: Id): map<Id, Finding> {
    map k | k in t :: if k < next then Resynced(t[k], assets) else t[k]
  }

  function NotesOf(plan: seq<Planned>): seq<LogRow> {
    if plan == [] then []
    else
      NotesOf(plan[..|plan| - 1])
      + (if plan[|plan| - 1].changed then [LogRow(plan[|plan| - 1].asset, "exposure-resync", "")] else [])
  }

  function IsChange(): Planned -> bool {
    (p: Planned) => p.changed
  }

  /** One note for each change of the plan, in its order, on the asset that the change is about. */
  lemma {:induction false} NotesMeaning(plan: seq<Planned>)
    ensures var changes := Filter(plan, IsChange());
      && |NotesOf(plan)| == |changes|
      && forall i :: 0 <= i < |changes| ==>
           NotesOf(plan)[i].assetId == changes[i].asset && NotesOf(plan)[i].author == "exposure-resync"
  {
    if plan != [] {
      NotesMeaning(plan[..|plan| - 1]);
    }
  }

  // The table after the changes of a plan have been applied.
  function Applied(t: map<Id, Finding>, plan: seq<Planned>): map<Id, Finding> {
    if plan == [] then t
    else
      var u, p := Applied(t, plan[..|plan| - 1]), plan[|plan| - 1];
      if p.changed && p.finding in u
      then u[p.finding := u[p.finding].(exposure := p.exposure, due := Some(p.due))] else u
  }

  /** `apply_exposure_resync` */
  method ApplyExposureResync(session: Session, plan: seq<Planned>) returns (updated: nat)
    modifies session`findings, session`notes
    ensures session.findings == Applied(old(session.findings), plan)
    ensures session.notes == old(session.notes) + NotesOf(plan) && updated == |NotesOf(plan)|
  {
    updated := 0;
    for i := 0 to |plan|
      invariant session.findings == Applied(old(session.findings), plan[..i])
      invariant session.notes == old(session.notes) + NotesOf(plan[..i]) && updated == |NotesOf(plan[..i])|
    {
      assert plan[..i + 1][..i] == plan[..i];
      var change := plan[i];
      if change.changed {
        if change.finding in session.findings {
          var finding := session.findings[change.finding];
          finding := finding.(exposure := change.exposure, due := Some(change.due));
          session.findings := session.findings[change.finding := finding];
        }
        session.notes := session.notes + [LogRow(change.asset, "exposure-resync", "")];
        updated := updated + 1;
      }
    }
    assert plan[..|plan|] == plan;
  }

  /** Applying the plan of a table resyncs each of its findings. */
  lemma {:induction false} AppliedPlan(t: map<Id, Finding>, assets: map<Id, Asset>, next: Id)
    ensures Applied(t, PlanOf(t, assets, next)) == ResyncedBelow(t, assets, next)
  {
    if next == 0 {
      assert ResyncedBelow(t, assets, 0) == t;
    } else {
      var k := next - 1;
      AppliedPlan(t, assets, k);
      var plan := PlanOf(t, assets, next);
      if InPlan(t, assets, k) {
        assert plan[..|plan| - 1] == PlanOf(t, assets, k);
        assert ResyncedBelow(t, assets, next) == ResyncedBelow(t, assets, k)[k := Resynced(t[k], assets)];
        assert ResyncedBelow(t, assets, k)[k] == t[k];
        assert !plan[|plan| - 1].changed ==> ResyncedBelow(t, assets, k)[k := t[k]] == ResyncedBelow(t, assets, k);
      } else {
        assert k in t ==> Resynced(t[k], assets) == t[k];
        assert ResyncedBelow(t, assets, next) == ResyncedBelow(t, assets, k);
        assert PlanOf(t, assets, k) + [] == PlanOf(t, assets, k);
      }
    }
  }

  predicate Settled(plan: seq<Planned>) {
    forall i :: 0 <= i < |plan| ==> !plan[i].changed
  }

  /** `run_exposure_resync`: afterwards every open finding has its asset's exposure, and another plan
      has nothing to change; a dry run writes nothing. */
  method RunExposureResync(session: Session, dryRun: bool) returns (plan: seq<Planned>)
    requires Below(session.findings, session.nextFinding)
    modifies session`findings, session`notes
    ensures plan == PlanOf(old(session.findings), session.assets, session.nextFinding)
    ensures session.findings
         == if dryRun then old(session.findings) else ResyncedAll(old(session.findings), session.assets)
    ensures session.notes == if dryRun then old(session.notes) else old(session.notes) + NotesOf(plan)
  {
    plan := PlanExposureResync(session);
    AppliedPlan(session.findings, session.assets, session.nextFinding);
    if !dryRun {
      var updated := ApplyExposureResync(session, plan);
    }
  }

  lemma ResyncMatchesAssets(t: map<Id, Finding>, assets: map<Id, Asset>, k: Id)
    requires k in t
    ensures var f := Resynced(t[k], assets);
      && (f.status == Open && f.assetId in assets ==>
          f.exposure == if assets[f.assetId].internetFacing then InternetFacing else Internal)
      && (FindingOk(t[k]) ==> FindingOk(f))
      && f == t[k].(exposure := f.exposure, due := f.due)
      && (t[k].status != Open || t[k].assetId !in assets || f.exposure == t[k].exposure ==> f == t[k])
      && Resynced(f, assets) == f
  {
  }

  lemma {:induction false} SecondPlanIsSettled(t: map<Id, Finding>, assets: map<Id, Asset>, next: Id)
    ensures Settled(PlanOf(ResyncedAll(t, assets), assets, next))
  {
    if next > 0 {
      SecondPlanIsSettled(t, assets, next - 1);
      if next - 1 in t {
        ResyncMatchesAssets(t, assets, next - 1);
      }
    }
  }

  // ---- deleting and merging assets ----

  lemma DeleteKeepsSla(db: Db, db': Db, a: Id)
    requires Deleted(db, db', a) && SlaKept(db.findings)
    ensures SlaKept(db'.findings) && (UniquePairs(db.findings) ==> UniquePairs(db'.findings))
  {
    hide LogsDeleted, LinksDeleted;
  }

  lemma MergeKeepsSla(db: Db, db': Db, s: Id, d: Id)
    requires Merged(db, db', s, d) && SlaKept(db.findings)
    ensures SlaKept(db'.findings)
  {
    hide LogsMoved, LinksMoved, MovedDistinct;
  }

  // Both assets have a finding for one vulnerability.
  ghost predicate SharedVulnerability(t: map<Id, Finding>, s: Id, d: Id) {
    exists k, l :: k in t && l in t && t[k].assetId == s && t[l].assetId == d
      && t[k].vulnerability.Some? && t[k].vulnerability == t[l].vulnerability
  }

  /** A merge does not join findings: it leaves two for one asset and vulnerability exactly when both
      assets had one. */
  lemma MergeKeepsPairsUnless(db: Db, db': Db, s: Id, d: Id)
    requires s != d && Merged(db, db', s, d) && UniquePairs(db.findings)
    ensures UniquePairs(db'.findings) <==> !SharedVulnerability(db.findings, s, d)
  {
    hide LogsMoved, LinksMoved, MovedDistinct;
    var t, u := db.findings, db'.findings;
    assert u == Changed(t, FindingOf(d), FindingTo(s));
    hide Merged;
    if SharedVulnerability(t, s, d) {
      var k, l :| k in t && l in t && t[k].assetId == s && t[l].assetId == d
        && t[k].vulnerability.Some? && t[k].vulnerability == t[l].vulnerability;
      assert u[k].assetId == u[l].assetId && u[k].vulnerability == u[l].vulnerability;
    }
  }
}
