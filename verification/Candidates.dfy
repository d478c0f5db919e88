/** Same-device candidates and their dismissals (app/correlate.py, app/routers/dashboard.py). */
module Candidates {
  import opened Basics
  import opened Models
  import opened Links

  // The identity fields of an asset: its type, its name and vendor up to case and blanks, and how
  // many of its interfaces have each MAC.
  datatype Identity = Identity(assetType: string, hostname: string, vendor: string, macs: map<string, nat>)

  // The text functions and the scorer, all left abstract.  The score may depend on every asset and
  // interface and on the order in which the pair is given.
  datatype Reader = Reader(
    lower: string -> string,
    normal: string -> string,
    hash: (Identity, Identity) -> string,
    score: (map<Id, Asset>, map<Id, Interface>, Id, Id) -> int)

  predicate MacOf(r: Reader, t: map<Id, Interface>, i: Id, a: Id, mac: string) {
    i in t && t[i].assetId == a && Truthy(t[i].mac) && r.lower(t[i].mac.value) == mac
  }

  function MacBag(r: Reader, t: map<Id, Interface>, a: Id): map<string, nat> {
    var macs := set i | i in t && t[i].assetId == a && Truthy(t[i].mac) :: r.lower(t[i].mac.value);
    map mac | mac in macs :: |set i | i in t && MacOf(r, t, i, a, mac)|
  }

  function Normal(r: Reader, t: Text): string {
    r.normal(if t.Some? then t.value else "")
  }

  /** `_asset_identity_fingerprint` */
  function IdentityOf(r: Reader, assets: map<Id, Asset>, t: map<Id, Interface>, a: Id): Identity
    requires a in assets
  {
    Identity(assets[a].assetType, Normal(r, assets[a].hostname), Normal(r, assets[a].vendor), MacBag(r, t, a))
  }

  // The name or vendor of an asset as it is compared; a missing one is an empty one.
  function Compared(r: Reader, t: Text): string {
    match t
    case None => r.normal("")
    case Some(text) => r.normal(text)
  }

  // How many interfaces of the asset have the MAC, up to case.
  function TimesHeld(r: Reader, t: map<Id, Interface>, a: Id, mac: string): nat {
    |set i | i in t && t[i].assetId == a && t[i].mac.Some? && t[i].mac.value != "" && r.lower(t[i].mac.value) == mac|
  }

  /** The asset has the same type, the same name and vendor up to case and blanks, and the same MACs as
      often up to case.  Nothing else counts: not its addresses, its owner, its model or its dates. */
  ghost predicate SameIdentity(r: Reader, assets: map<Id, Asset>, t: map<Id, Interface>,
                               assets': map<Id, Asset>, t': map<Id, Interface>, a: Id)
    requires a in assets && a in assets'
  {
    && assets'[a].assetType == assets[a].assetType
    && Compared(r, assets'[a].hostname) == Compared(r, assets[a].hostname)
    && Compared(r, assets'[a].vendor) == Compared(r, assets[a].vendor)
    && forall mac :: TimesHeld(r, t', a, mac) == TimesHeld(r, t, a, mac)
  }

  lemma MacsHeld(r: Reader, t: map<Id, Interface>, a: Id, mac: string)
    ensures mac in MacBag(r, t, a) <==> TimesHeld(r, t, a, mac) > 0
    ensures mac in MacBag(r, t, a) ==> MacBag(r, t, a)[mac] == TimesHeld(r, t, a, mac)
  {
    var held := set i | i in t && MacOf(r, t, i, a, mac);
    assert held == set i | i in t && t[i].assetId == a && t[i].mac.Some? && t[i].mac.value != ""
                             && r.lower(t[i].mac.value) == mac;
    if mac in MacBag(r, t, a) {
      var i :| i in t && t[i].assetId == a && Truthy(t[i].mac) && r.lower(t[i].mac.value) == mac;
      assert i in held;
    }
  }

  lemma BagsAgree(r: Reader, t: map<Id, Interface>, u: map<Id, Interface>, a: Id)
    ensures MacBag(r, u, a) == MacBag(r, t, a) <==> forall mac :: TimesHeld(r, u, a, mac) == TimesHeld(r, t, a, mac)
  {
    var m, n := MacBag(r, t, a), MacBag(r, u, a);
    forall mac
      ensures mac in m <==> TimesHeld(r, t, a, mac) > 0
      ensures mac in n <==> TimesHeld(r, u, a, mac) > 0
      ensures mac in m ==> m[mac] == TimesHeld(r, t, a, mac)
      ensures mac in n ==> n[mac] == TimesHeld(r, u, a, mac)
    {
      MacsHeld(r, t, a, mac);
      MacsHeld(r, u, a, mac);
    }
    hide MacBag, TimesHeld;
    if forall mac :: TimesHeld(r, u, a, mac) == TimesHeld(r, t, a, mac) {
      assert m.Keys == n.Keys;
      assert m == n;
    }
  }

  /** The fingerprint reads exactly those columns. */
  lemma IdentityMeaning(r: Reader, assets: map<Id, Asset>, t: map<Id, Interface>,
                        assets': map<Id, Asset>, t': map<Id, Interface>, a: Id)
    requires a in assets && a in assets'
    ensures IdentityOf(r, assets', t', a) == IdentityOf(r, assets, t, a)
      <==> SameIdentity(r, assets, t, assets', t', a)
  {
    BagsAgree(r, t, t', a);
    hide MacBag, TimesHeld;
  }

  /** `_pair_fingerprint`: the lower id first, whichever way the pair is given. */
  function Fingerprint(r: Reader, assets: map<Id, Asset>, t: map<Id, Interface>, a: Id, b: Id): string
    requires a in assets && b in assets
  {
    var lo, hi := if a < b then a else b, if a < b then b else a;
    r.hash(IdentityOf(r, assets, t, lo), IdentityOf(r, assets, t, hi))
  }

  // ---- dismissals ----

  predicate DismissalRow(t: map<Id, Dismissal>, k: Id, a: Id, b: Id) {
    k in t && Between(t[k].assetA, t[k].assetB, a, b)
  }

  /** One row per pair, the lower id first. */
  ghost predicate OneRowPerPair(t: map<Id, Dismissal>) {
    && (forall k :: k in t ==> t[k].assetA < t[k].assetB)
    && (forall k, l :: k in t && l in t && t[k].assetA == t[l].assetA && t[k].assetB == t[l].assetB ==> k == l)
  }

  predicate DismissedAs(t: map<Id, Dismissal>, a: Id, b: Id, fingerprint: string) {
    exists k :: k in t && DismissalRow(t, k, a, b) && t[k].fingerprint == fingerprint
  }

  ghost predicate DismissedOnlyAs(t: map<Id, Dismissal>, a: Id, b: Id, fingerprint: string) {
    forall f :: DismissedAs(t, a, b, f) <==> f == fingerprint
  }

  ghost predicate SameDismissalsBut(t: map<Id, Dismissal>, u: map<Id, Dismissal>, a: Id, b: Id) {
    forall x, y, f :: !Between(x, y, a, b) ==> (DismissedAs(u, x, y, f) <==> DismissedAs(t, x, y, f))
  }

  // The row was put in place of the one of its pair, or is new when there was none.
  ghost predicate RowPut(t: map<Id, Dismissal>, u: map<Id, Dismissal>, row: Dismissal) {
    exists k: Id :: k in u && u == t[k := row] && forall l :: OfPair(t, l, row) ==> l == k
  }

  predicate OfPair(t: map<Id, Dismissal>, l: Id, row: Dismissal) {
    l in t && t[l].assetA == row.assetA && t[l].assetB == row.assetB
  }

  /** `dismiss_same_device_candidate` */
  method DismissCandidate(session: Session, a: Id, b: Id, r: Reader, now: Time) returns (ok: bool)
    requires session.KeysBelowSequences() && OneRowPerPair(session.dismissals)
    modifies session`dismissals, session`nextDismissal
    ensures session.KeysBelowSequences() && OneRowPerPair(session.dismissals)
    ensures ok <==> a != b && a in session.assets && b in session.assets
    ensures !ok ==> session.dismissals == old(session.dismissals)
    ensures ok ==> DismissedOnlyAs(session.dismissals, a, b, Fingerprint(r, session.assets, session.interfaces, a, b))
    ensures SameDismissalsBut(old(session.dismissals), session.dismissals, a, b)
    ensures forall k :: k in session.dismissals ==>
      (k in old(session.dismissals) && session.dismissals[k] == old(session.dismissals)[k])
      || (ok && Between(session.dismissals[k].assetA, session.dismissals[k].assetB, a, b))
    ensures ok ==>
      RowPut(old(session.dismissals), session.dismissals,
             Dismissal(if a < b then a else b, if a < b then b else a,
                       Fingerprint(r, session.assets, session.interfaces, a, b), now))
  {
    hide SameDismissalsBut, DismissedOnlyAs, RowPut, Fingerprint;
    if a == b {
      SameDismissals(session.dismissals, a, b);
      return false;
    }
    var lo, hi := if a < b then a else b, if a < b then b else a;
    if lo !in session.assets || hi !in session.assets {
      SameDismissals(session.dismissals, a, b);
      return false;
    }
    FingerprintEitherWay(r, session.assets, session.interfaces, a, b);
    var fingerprint := Fingerprint(r, session.assets, session.interfaces, lo, hi);
    var t := session.dismissals;
    var row := Dismissal(lo, hi, fingerprint, now);
    var k: Id;
    if l: Id :| l in t && t[l].assetA == lo && t[l].assetB == hi {
      k := l;
    } else {
      k := session.nextDismissal;
      session.nextDismissal := session.nextDismissal + 1;
    }
    session.dismissals := t[k := row];
    DismissalPut(t, k, row);
    return true;
  }

  lemma SameDismissals(t: map<Id, Dismissal>, a: Id, b: Id)
    ensures SameDismissalsBut(t, t, a, b)
  {
  }

  lemma FingerprintEitherWay(r: Reader, assets: map<Id, Asset>, t: map<Id, Interface>, a: Id, b: Id)
    requires a in assets && b in assets
    ensures Fingerprint(r, assets, t, a, b) == Fingerprint(r, assets, t, b, a)
  {
  }

  lemma DismissalPut(t: map<Id, Dismissal>, k: Id, row: Dismissal)
    requires OneRowPerPair(t) && row.assetA < row.assetB
    requires if k in t then t[k].assetA == row.assetA && t[k].assetB == row.assetB
             else forall l :: l in t ==> !(t[l].assetA == row.assetA && t[l].assetB == row.assetB)
    ensures OneRowPerPair(t[k := row])
    ensures DismissedOnlyAs(t[k := row], row.assetA, row.assetB, row.fingerprint)
    ensures DismissedOnlyAs(t[k := row], row.assetB, row.assetA, row.fingerprint)
    ensures SameDismissalsBut(t, t[k := row], row.assetA, row.assetB)
    ensures SameDismissalsBut(t, t[k := row], row.assetB, row.assetA)
    ensures RowPut(t, t[k := row], row)
  {
    var u := t[k := row];
    assert forall l :: OfPair(t, l, row) ==> l == k;
    assert DismissalRow(u, k, row.assetA, row.assetB) && DismissalRow(u, k, row.assetB, row.assetA);
    forall x, y, f | !Between(x, y, row.assetA, row.assetB)
      ensures DismissedAs(u, x, y, f) <==> DismissedAs(t, x, y, f)
    {
      if DismissedAs(t, x, y, f) {
        var l :| l in t && DismissalRow(t, l, x, y) && t[l].fingerprint == f;
        assert u[l] == t[l] && DismissalRow(u, l, x, y);
      }
      if DismissedAs(u, x, y, f) {
        var l :| l in u && DismissalRow(u, l, x, y) && u[l].fingerprint == f;
        assert u[l] == t[l] && DismissalRow(t, l, x, y);
      }
    }
  }

  // ---- candidates ----

  // What the search reads.
  datatype Tables = Tables(assets: map<Id, Asset>, interfaces: map<Id, Interface>,
                           relationships: map<Id, Relationship>, dismissals: map<Id, Dismissal>)

  function TablesOf(session: Session): Tables
    reads session
  {
    Tables(session.assets, session.interfaces, session.relationships, session.dismissals)
  }

  predicate AlreadyLinked(t: Tables, a: Id, b: Id) {
    exists k :: k in t.relationships
      && (LinkRow(t.relationships, k, a, b) || LinkRow(t.relationships, k, b, a))
  }

  /** The pair is neither linked nor dismissed as it is now. */
  predicate Undecided(t: Tables, r: Reader, a: Id, b: Id)
    requires a in t.assets && b in t.assets
  {
    !AlreadyLinked(t, a, b)
    && !DismissedAs(t.dismissals, a, b, Fingerprint(r, t.assets, t.interfaces, a, b))
  }

  predicate IsCandidate(t: Tables, r: Reader, min: int, a: Id, b: Id)
    requires a in t.assets && b in t.assets
  {
    Undecided(t, r, a, b) && r.score(t.assets, t.interfaces, a, b) >= min
  }

  datatype Candidate = Candidate(a: Id, b: Id, score: int)

  // The candidates of `a` with the assets listed after it, and of all pairs, in listing order.
  function CandidatesOf(t: Tables, r: Reader, min: int, a: Id, rest: seq<Id>): seq<Candidate>
    requires a in t.assets && forall i :: 0 <= i < |rest| ==> rest[i] in t.assets
  {
    if rest == [] then []
    else (if IsCandidate(t, r, min, a, rest[0])
          then [Candidate(a, rest[0], r.score(t.assets, t.interfaces, a, rest[0]))] else [])
         + CandidatesOf(t, r, min, a, rest[1..])
  }

  function Listed(t: Tables, r: Reader, min: int, order: seq<Id>): seq<Candidate>
    requires forall i :: 0 <= i < |order| ==> order[i] in t.assets
  {
    if order == [] then [] else CandidatesOf(t, r, min, order[0], order[1..]) + Listed(t, r, min, order[1..])
  }

  predicate NotRising(cs: seq<Candidate>) {
    forall i :: 0 < i < |cs| ==> cs[i - 1].score >= cs[i].score
  }

  function Scored(score: int): Candidate -> bool {
    (c: Candidate) => c.score == score
  }

  /** `sort(key=score, reverse=True)` is stable: candidates with one score stay in their order. */
  ghost predicate SameOrder(out: seq<Candidate>, cs: seq<Candidate>) {
    forall score :: Filter(out, Scored(score)) == Filter(cs, Scored(score))
  }

  // The sort, one candidate at a time.
  method InsertByScore(cs: seq<Candidate>, c: Candidate) returns (out: seq<Candidate>)
    requires NotRising(cs)
    ensures NotRising(out) && SameOrder(out, cs + [c]) && multiset(out) == multiset(cs) + multiset{c}
  {
    var i := |cs|;
    while i > 0 && cs[i - 1].score < c.score
      invariant 0 <= i <= |cs|
      invariant i < |cs| ==> cs[i].score < c.score
    {
      i := i - 1;
    }
    InsertedAt(cs, c, i);
    InsertedInOrder(cs, c, i);
    hide NotRising, SameOrder;
    out := cs[..i] + [c] + cs[i..];
  }

  lemma InsertedAt(cs: seq<Candidate>, c: Candidate, i: nat)
    requires i <= |cs| && NotRising(cs)
    requires i > 0 ==> cs[i - 1].score >= c.score
    requires i < |cs| ==> cs[i].score < c.score
    ensures NotRising(cs[..i] + [c] + cs[i..])
    ensures multiset(cs[..i] + [c] + cs[i..]) == multiset(cs) + multiset{c}
  {
    var out := cs[..i] + [c] + cs[i..];
    assert NotRising(out) by {
      forall k | 0 < k < |out| ensures out[k - 1].score >= out[k].score {
        assert k < i ==> out[k - 1] == cs[k - 1] && out[k] == cs[k];
        assert k > i + 1 ==> out[k - 1] == cs[k - 2] && out[k] == cs[k - 1];
      }
    }
    hide NotRising;
    InsertedBag(cs[..i], c, cs[i..]);
    assert cs == cs[..i] + cs[i..];
  }

  lemma InsertedBag<T>(a: seq<T>, c: T, b: seq<T>)
    ensures multiset(a + [c] + b) == multiset(a + b) + multiset{c}
  {
  }

  lemma {:induction false} Falls(cs: seq<Candidate>, i: nat, k: nat)
    requires NotRising(cs) && i <= k < |cs|
    ensures cs[k].score <= cs[i].score
  {
    if i < k {
      Falls(cs, i, k - 1);
    }
  }

  lemma {:induction false} NoneScored(cs: seq<Candidate>, score: int)
    requires forall i :: 0 <= i < |cs| ==> cs[i].score != score
    ensures Filter(cs, Scored(score)) == []
  {
    if cs != [] {
      NoneScored(cs[..|cs| - 1], score);
    }
  }

  lemma InsertedAmong(front: seq<Candidate>, c: Candidate, back: seq<Candidate>, score: int)
    requires forall k :: 0 <= k < |back| ==> back[k].score < c.score
    ensures Filter(front + [c] + back, Scored(score)) == Filter(front + back + [c], Scored(score))
  {
    hide *;
    var keep := Scored(score);
    var f, o, k := Filter(front, keep), Filter([c], keep), Filter(back, keep);
    FilterConcat(front + [c], back, keep);
    FilterConcat(front, [c], keep);
    FilterConcat(front, back, keep);
    FilterConcat(front + back, [c], keep);
    OneScored(c, score);
    if c.score == score {
      NoneScored(back, score);
      assert f + o + [] == f + [] + o;
    } else {
      assert f + [] + k == f + k + [];
    }
  }

  lemma InsertedInOrder(cs: seq<Candidate>, c: Candidate, i: nat)
    requires i <= |cs| && NotRising(cs) && (i < |cs| ==> cs[i].score < c.score)
    ensures SameOrder(cs[..i] + [c] + cs[i..], cs + [c])
  {
    var front, back := cs[..i], cs[i..];
    forall k | 0 <= k < |back| ensures back[k].score < c.score {
      Falls(cs, i, i + k);
    }
    assert front + back == cs;
    hide NotRising, Filter;
    forall score ensures Filter(front + [c] + back, Scored(score)) == Filter(cs + [c], Scored(score)) {
      InsertedAmong(front, c, back, score);
    }
  }

  lemma OneScored(c: Candidate, score: int)
    ensures Filter([c], Scored(score)) == if c.score == score then [c] else []
  {
    assert [c][..0] == [];
  }

  lemma SameOrderSelf(cs: seq<Candidate>)
    ensures SameOrder(cs, cs)
  {
  }

  // Sorting one more candidate in leaves the order of all, those still to come included.
  lemma SameOrderMore(out: seq<Candidate>, more: seq<Candidate>, was: seq<Candidate>, rest: seq<Candidate>,
                      all: seq<Candidate>)
    requires SameOrder(out, was + more) && SameOrder(was + (more + rest), all)
    ensures SameOrder(out + rest, all)
  {
    forall score ensures Filter(out + rest, Scored(score)) == Filter(all, Scored(score)) {
      var keep := Scored(score);
      FilterConcat(out, rest, keep);
      FilterConcat(was + more, rest, keep);
      assert was + more + rest == was + (more + rest);
      assert Filter(out, keep) == Filter(was + more, keep);
      assert Filter(was + (more + rest), keep) == Filter(all, keep);
    }
  }

  // `out`, with `rest` still to come, holds the candidates of `all` in their order within each score.
  ghost predicate Sorting(out: seq<Candidate>, rest: seq<Candidate>, all: seq<Candidate>) {
    NotRising(out) && SameOrder(out + rest, all) && multiset(out) + multiset(rest) == multiset(all)
  }

  lemma SortingOne(out: seq<Candidate>, c: Candidate, was: seq<Candidate>, rest: seq<Candidate>, all: seq<Candidate>)
    requires Sorting(was, [c] + rest, all)
    requires NotRising(out) && SameOrder(out, was + [c]) && multiset(out) == multiset(was) + multiset{c}
    ensures Sorting(out, rest, all)
  {
    hide NotRising, SameOrder;
    SameOrderMore(out, [c], was, rest, all);
  }

  lemma SortingDone(out: seq<Candidate>, all: seq<Candidate>)
    requires Sorting(out, [], all)
    ensures NotRising(out) && SameOrder(out, all) && multiset(out) == multiset(all)
  {
    assert out + [] == out;
  }

  lemma SortingStarts(cs: seq<Candidate>, more: seq<Candidate>)
    requires NotRising(cs)
    ensures Sorting(cs, more, cs + more)
  {
    hide NotRising;
    SameOrderSelf(cs + more);
  }

  lemma SortingGoesOn(was: seq<Candidate>, out: seq<Candidate>, more: seq<Candidate>, rest: seq<Candidate>,
                      all: seq<Candidate>)
    requires Sorting(was, more + rest, all) && Sorting(out, [], was + more)
    ensures Sorting(out, rest, all)
  {
    SortingDone(out, was + more);
    hide NotRising, SameOrder;
    SameOrderMore(out, more, was, rest, all);
  }

  lemma RowToNext(t: Tables, r: Reader, min: int, a: Id, rest: seq<Id>, j: nat)
    requires a in t.assets && forall i :: 0 <= i < |rest| ==> rest[i] in t.assets
    requires j < |rest|
    ensures CandidatesOf(t, r, min, a, rest[j..])
         == (if IsCandidate(t, r, min, a, rest[j])
             then [Candidate(a, rest[j], r.score(t.assets, t.interfaces, a, rest[j]))] else [])
            + CandidatesOf(t, r, min, a, rest[j + 1..])
  {
    assert rest[j..][1..] == rest[j + 1..];
  }

  // The inner loop: the pairs of `a` with the assets listed after it.
  method AddRow(t: Tables, r: Reader, min: int, a: Id, rest: seq<Id>, cs: seq<Candidate>) returns (out: seq<Candidate>)
    requires a in t.assets && forall i :: 0 <= i < |rest| ==> rest[i] in t.assets
    requires NotRising(cs)
    ensures Sorting(out, [], cs + CandidatesOf(t, r, min, a, rest))
  {
    ghost var all := cs + CandidatesOf(t, r, min, a, rest);
    SortingStarts(cs, CandidatesOf(t, r, min, a, rest));
    assert rest[0..] == rest && rest[|rest|..] == [];
    assert CandidatesOf(t, r, min, a, []) == [];
    hide *;
    out := cs;
    for j := 0 to |rest|
      invariant Sorting(out, CandidatesOf(t, r, min, a, rest[j..]), all)
    {
      RowToNext(t, r, min, a, rest, j);
      if IsCandidate(t, r, min, a, rest[j]) {
        var c := Candidate(a, rest[j], r.score(t.assets, t.interfaces, a, rest[j]));
        ghost var was := out;
        SortingFalls(out, CandidatesOf(t, r, min, a, rest[j..]), all);
        out := InsertByScore(out, c);
        SortingOne(out, c, was, CandidatesOf(t, r, min, a, rest[j + 1..]), all);
      } else {
        assert [] + CandidatesOf(t, r, min, a, rest[j + 1..]) == CandidatesOf(t, r, min, a, rest[j + 1..]);
      }
    }
  }

  lemma SortingFalls(out: seq<Candidate>, rest: seq<Candidate>, all: seq<Candidate>)
    requires Sorting(out, rest, all)
    ensures NotRising(out)
  {
  }

  /** `find_same_device_candidates`.  The rows of a SELECT without an order come in any order:
      `order` is the one this query saw, each asset once. */
  method FindCandidates(session: Session, r: Reader, min: int, order: seq<Id>) returns (out: seq<Candidate>)
    requires forall i :: 0 <= i < |order| ==> order[i] in session.assets
    ensures NotRising(out) && SameOrder(out, Listed(TablesOf(session), r, min, order))
    ensures multiset(out) == multiset(Listed(TablesOf(session), r, min, order))
  {
    var t := TablesOf(session);
    ghost var all := Listed(t, r, min, order);
    out := [];
    SortingStarts([], all);
    assert [] + all == all && order[0..] == order;
    hide Sorting, NotRising, SameOrder, CandidatesOf;
    for i := 0 to |order|
      invariant Sorting(out, Listed(t, r, min, order[i..]), all)
    {
      assert order[i..][1..] == order[i + 1..];
      ghost var was := out;
      SortingFalls(out, Listed(t, r, min, order[i..]), all);
      out := AddRow(t, r, min, order[i], order[i + 1..], out);
      SortingGoesOn(was, out, CandidatesOf(t, r, min, order[i], order[i + 1..]), Listed(t, r, min, order[i + 1..]),
                    all);
    }
    assert order[|order|..] == [];
    SortingDone(out, all);
  }

  lemma {:induction false} CandidatesOfMeaning(t: Tables, r: Reader, min: int, a: Id, rest: seq<Id>, c: Candidate)
    requires a in t.assets && forall i :: 0 <= i < |rest| ==> rest[i] in t.assets
    ensures c in CandidatesOf(t, r, min, a, rest) <==>
      c.a == a && c.b in rest && IsCandidate(t, r, min, a, c.b) && c.score == r.score(t.assets, t.interfaces, a, c.b)
  {
    if rest != [] {
      CandidatesOfMeaning(t, r, min, a, rest[1..], c);
      assert rest == [rest[0]] + rest[1..];
    }
  }

  ghost predicate Before(order: seq<Id>, a: Id, b: Id) {
    exists i, j :: 0 <= i < j < |order| && order[i] == a && order[j] == b
  }

  lemma BeforeCons(order: seq<Id>, a: Id, b: Id)
    requires order != []
    ensures Before(order, a, b) <==> (a == order[0] && b in order[1..]) || Before(order[1..], a, b)
  {
  }

  /** The list holds exactly the pairs, in the order of the query, that score enough and are neither
      linked nor dismissed. */
  lemma {:induction false} ListedMeaning(t: Tables, r: Reader, min: int, order: seq<Id>, c: Candidate)
    requires forall i :: 0 <= i < |order| ==> order[i] in t.assets
    ensures c in Listed(t, r, min, order) <==>
      Before(order, c.a, c.b) && IsCandidate(t, r, min, c.a, c.b)
      && c.score == r.score(t.assets, t.interfaces, c.a, c.b)
  {
    if order != [] {
      CandidatesOfMeaning(t, r, min, order[0], order[1..], c);
      ListedMeaning(t, r, min, order[1..], c);
      BeforeCons(order, c.a, c.b);
    }
  }

  // ---- dismissing ----

  ghost predicate Offered(cs: seq<Candidate>, a: Id, b: Id) {
    exists i :: 0 <= i < |cs| && Between(cs[i].a, cs[i].b, a, b)
  }

  /** `u` is `t` after the pairs of `cs` were dismissed as they were: nothing else about dismissals changed. */
  ghost predicate ClosedBy(t: Tables, u: Tables, r: Reader, cs: seq<Candidate>) {
    && u.assets == t.assets && u.interfaces == t.interfaces && u.relationships == t.relationships
    && (forall a, b :: a in t.assets && b in t.assets && Offered(cs, a, b) ==>
          DismissedOnlyAs(u.dismissals, a, b, Fingerprint(r, t.assets, t.interfaces, a, b)))
    && (forall a, b, f :: !Offered(cs, a, b) ==>
          (DismissedAs(u.dismissals, a, b, f) <==> DismissedAs(t.dismissals, a, b, f)))
  }

  /** So exactly the pairs of the list become decided. */
  lemma ClosedDecides(t: Tables, u: Tables, r: Reader, cs: seq<Candidate>, a: Id, b: Id)
    requires ClosedBy(t, u, r, cs) && a in t.assets && b in t.assets
    ensures Undecided(u, r, a, b) <==> Undecided(t, r, a, b) && !Offered(cs, a, b)
  {
    var f := Fingerprint(r, t.assets, t.interfaces, a, b);
    assert Offered(cs, a, b) ==> DismissedOnlyAs(u.dismissals, a, b, f);
    hide Offered, Fingerprint, DismissedAs;
  }

  lemma NothingClosed(t: Tables, r: Reader, cs: seq<Candidate>)
    requires cs == []
    ensures ClosedBy(t, t, r, cs)
  {
  }

  lemma OfferedMore(cs: seq<Candidate>, c: Candidate, a: Id, b: Id)
    ensures Offered(cs + [c], a, b) <==> Offered(cs, a, b) || Between(c.a, c.b, a, b)
  {
    var more := cs + [c];
    assert more[|cs|] == c;
    if Offered(cs, a, b) {
      var i :| 0 <= i < |cs| && Between(cs[i].a, cs[i].b, a, b);
      assert more[i] == cs[i];
    }
  }

  lemma OnlyAsEitherWay(t: map<Id, Dismissal>, a: Id, b: Id, f: string)
    requires DismissedOnlyAs(t, a, b, f)
    ensures DismissedOnlyAs(t, b, a, f)
  {
    forall g ensures DismissedAs(t, b, a, g) <==> g == f {
      DismissedEitherWay(t, a, b, g);
    }
  }

  lemma OneMoreClosed(t: Tables, u: Tables, v: Tables, r: Reader, cs: seq<Candidate>, c: Candidate)
    requires ClosedBy(t, u, r, cs) && v == u.(dismissals := v.dismissals)
    requires c.a in t.assets && c.b in t.assets
    requires DismissedOnlyAs(v.dismissals, c.a, c.b, Fingerprint(r, t.assets, t.interfaces, c.a, c.b))
    requires SameDismissalsBut(u.dismissals, v.dismissals, c.a, c.b)
    ensures ClosedBy(t, v, r, cs + [c])
  {
    var more := cs + [c];
    OnlyAsEitherWay(v.dismissals, c.a, c.b, Fingerprint(r, t.assets, t.interfaces, c.a, c.b));
    FingerprintEitherWay(r, t.assets, t.interfaces, c.a, c.b);
    hide Offered, Fingerprint, DismissedAs;
    forall a, b | a in t.assets && b in t.assets && Offered(more, a, b)
      ensures DismissedOnlyAs(v.dismissals, a, b, Fingerprint(r, t.assets, t.interfaces, a, b))
    {
      OfferedMore(cs, c, a, b);
    }
    forall a, b, f | !Offered(more, a, b)
      ensures DismissedAs(v.dismissals, a, b, f) <==> DismissedAs(t.dismissals, a, b, f)
    {
      OfferedMore(cs, c, a, b);
    }
  }

  lemma DismissedEitherWay(t: map<Id, Dismissal>, a: Id, b: Id, f: string)
    ensures DismissedAs(t, a, b, f) <==> DismissedAs(t, b, a, f)
  {
  }

  // Every row of `u` is one of `t` or between two of `assets`.
  ghost predicate NewRowsAmong(t: map<Id, Dismissal>, u: map<Id, Dismissal>, assets: set<Id>) {
    forall k :: k in u ==> (k in t && u[k] == t[k]) || (u[k].assetA in assets && u[k].assetB in assets)
  }

  lemma NoNewRows(t: map<Id, Dismissal>, assets: set<Id>)
    ensures NewRowsAmong(t, t, assets)
  {
  }

  lemma OneMoreRow(t: map<Id, Dismissal>, u: map<Id, Dismissal>, v: map<Id, Dismissal>, assets: set<Id>, a: Id, b: Id)
    requires NewRowsAmong(t, u, assets) && a in assets && b in assets
    requires forall k :: k in v ==> (k in u && v[k] == u[k]) || Between(v[k].assetA, v[k].assetB, a, b)
    ensures NewRowsAmong(t, v, assets)
  {
  }

  /** Which asset of the pair is named first matters neither to its fingerprint nor to its dismissal. */
  lemma OrderDoesNotMatter(t: Tables, r: Reader, a: Id, b: Id)
    requires a in t.assets && b in t.assets
    ensures Fingerprint(r, t.assets, t.interfaces, a, b) == Fingerprint(r, t.assets, t.interfaces, b, a)
    ensures Undecided(t, r, a, b) <==> Undecided(t, r, b, a)
  {
    var f := Fingerprint(r, t.assets, t.interfaces, a, b);
    assert f == Fingerprint(r, t.assets, t.interfaces, b, a);
    hide Fingerprint;
    DismissedEitherWay(t.dismissals, a, b, f);
  }

  /** `assets_investigate_dismiss_all`: every pair that the search lists is dismissed, and no other. */
  method DismissAll(session: Session, r: Reader, min: int, order: seq<Id>, now: Time) returns (cs: seq<Candidate>)
    requires session.KeysBelowSequences() && OneRowPerPair(session.dismissals)
    requires forall i :: 0 <= i < |order| ==> order[i] in session.assets
    requires forall i, j :: 0 <= i < j < |order| ==> order[i] != order[j]
    modifies session`dismissals, session`nextDismissal
    ensures session.KeysBelowSequences() && OneRowPerPair(session.dismissals)
    ensures multiset(cs) == multiset(Listed(old(TablesOf(session)), r, min, order))
    ensures ClosedBy(old(TablesOf(session)), TablesOf(session), r, cs)
    ensures NewRowsAmong(old(session.dismissals), session.dismissals, session.assets.Keys)
  {
    hide NewRowsAmong, OneRowPerPair, ClosedBy, Listed, Fingerprint, DismissedOnlyAs, SameDismissalsBut;
    cs := FindCandidates(session, r, min, order);
    NothingClosed(TablesOf(session), r, cs[..0]);
    NoNewRows(session.dismissals, session.assets.Keys);
    for n := 0 to |cs|
      invariant session.KeysBelowSequences() && OneRowPerPair(session.dismissals)
      invariant ClosedBy(old(TablesOf(session)), TablesOf(session), r, cs[..n])
      invariant NewRowsAmong(old(session.dismissals), session.dismissals, session.assets.Keys)
    {
      ghost var before := TablesOf(session);
      assert cs[n] in multiset(cs);
      ListedMeaning(old(TablesOf(session)), r, min, order, cs[n]);
      var ok := DismissCandidate(session, cs[n].a, cs[n].b, r, now);
      OneMoreClosed(old(TablesOf(session)), before, TablesOf(session), r, cs[..n], cs[n]);
      OneMoreRow(old(session.dismissals), before.dismissals, session.dismissals, session.assets.Keys, cs[n].a, cs[n].b);
      assert cs[..n + 1] == cs[..n] + [cs[n]];
    }
    assert cs[..|cs|] == cs;
  }

  /** After that a search, whatever order it sees the assets in, lists exactly the pairs that it
      would have listed before and that the dismissed list did not hold. */
  lemma LaterSearchLists(t: Tables, u: Tables, r: Reader, min: int, later: seq<Id>, cs: seq<Candidate>, c: Candidate)
    requires forall i :: 0 <= i < |later| ==> later[i] in t.assets
    requires forall i, j :: 0 <= i < j < |later| ==> later[i] != later[j]
    requires ClosedBy(t, u, r, cs)
    ensures c in Listed(u, r, min, later) <==> c in Listed(t, r, min, later) && !Offered(cs, c.a, c.b)
  {
    ListedMeaning(u, r, min, later, c);
    ListedMeaning(t, r, min, later, c);
    if Before(later, c.a, c.b) {
      ClosedDecides(t, u, r, cs, c.a, c.b);
    }
  }

  /** In particular the same search lists nothing; only a pair that scores enough in one order of the
      assets and not in the other can be left. */
  lemma DismissAllEmptiesTheList(t: Tables, u: Tables, r: Reader, min: int, order: seq<Id>, cs: seq<Candidate>)
    requires forall i :: 0 <= i < |order| ==> order[i] in t.assets
    requires forall i, j :: 0 <= i < j < |order| ==> order[i] != order[j]
    requires multiset(cs) == multiset(Listed(t, r, min, order)) && ClosedBy(t, u, r, cs)
    ensures Listed(u, r, min, order) == []
  {
    var left := Listed(u, r, min, order);
    if left != [] {
      LaterSearchLists(t, u, r, min, order, cs, left[0]);
      ListedIsOffered(t, r, min, order, cs, left[0]);
    }
  }

  lemma ListedIsOffered(t: Tables, r: Reader, min: int, order: seq<Id>, cs: seq<Candidate>, e: Candidate)
    requires forall i :: 0 <= i < |order| ==> order[i] in t.assets
    requires multiset(cs) == multiset(Listed(t, r, min, order))
    ensures e in Listed(t, r, min, order) ==> Offered(cs, e.a, e.b)
  {
    if e in Listed(t, r, min, order) {
      assert e in multiset(cs);
      var i :| 0 <= i < |cs| && cs[i] == e;
      assert Between(cs[i].a, cs[i].b, e.a, e.b);
    }
  }

  // Both assets of the pair have the identity that they had.
  ghost predicate SameIdentities(r: Reader, t: Tables, u: Tables, a: Id, b: Id)
    requires a in t.assets && b in t.assets && a in u.assets && b in u.assets
  {
    && SameIdentity(r, t.assets, t.interfaces, u.assets, u.interfaces, a)
    && SameIdentity(r, t.assets, t.interfaces, u.assets, u.interfaces, b)
  }

  lemma SameIdentitiesMeaning(r: Reader, t: Tables, u: Tables, a: Id, b: Id)
    requires a in t.assets && b in t.assets && a in u.assets && b in u.assets
    ensures SameIdentities(r, t, u, a, b) ==>
      Fingerprint(r, u.assets, u.interfaces, a, b) == Fingerprint(r, t.assets, t.interfaces, a, b)
    ensures (forall w, x, y, z :: r.hash(w, x) == r.hash(y, z) ==> w == y && x == z)
            && Fingerprint(r, u.assets, u.interfaces, a, b) == Fingerprint(r, t.assets, t.interfaces, a, b) ==>
      SameIdentities(r, t, u, a, b)
  {
    hide SameIdentity, IdentityOf;
    IdentityMeaning(r, t.assets, t.interfaces, u.assets, u.interfaces, a);
    IdentityMeaning(r, t.assets, t.interfaces, u.assets, u.interfaces, b);
  }

  lemma NotLinked(t: Tables, a: Id, b: Id)
    ensures AlreadyLinked(t, a, b) <==> Linked(t.relationships, a, b) || Linked(t.relationships, b, a)
  {
  }

  /** While both assets have the type, name, vendor and MACs of the dismissal the pair stays away, whatever
      else has changed: addresses, owners, other assets, the score, or the order of the query. */
  lemma DismissedStaysAway(t: Tables, u: Tables, r: Reader, min: int, order: seq<Id>, a: Id, b: Id)
    requires a in t.assets && b in t.assets && a in u.assets && b in u.assets && a != b
    requires forall i :: 0 <= i < |order| ==> order[i] in u.assets
    requires DismissedAs(u.dismissals, a, b, Fingerprint(r, t.assets, t.interfaces, a, b))
    requires SameIdentities(r, t, u, a, b)
    ensures forall score :: Candidate(a, b, score) !in Listed(u, r, min, order)
    ensures forall score :: Candidate(b, a, score) !in Listed(u, r, min, order)
  {
    SameIdentitiesMeaning(r, t, u, a, b);
    FingerprintEitherWay(r, u.assets, u.interfaces, a, b);
    hide Fingerprint, SameIdentities, Listed, DismissedAs, AlreadyLinked;
    DismissedEitherWay(u.dismissals, a, b, Fingerprint(r, u.assets, u.interfaces, a, b));
    forall score: int
      ensures Candidate(a, b, score) !in Listed(u, r, min, order)
      ensures Candidate(b, a, score) !in Listed(u, r, min, order)
    {
      ListedMeaning(u, r, min, order, Candidate(a, b, score));
      ListedMeaning(u, r, min, order, Candidate(b, a, score));
    }
  }

  /** A dismissal hides the pair only as long as those columns are the dismissed ones: with an injective
      hash, a pair of which one of them changed is offered again exactly when it is unlinked and scores
      enough. */
  lemma ChangedIdentityIsOfferedAgain(t: Tables, u: Tables, r: Reader, min: int, order: seq<Id>, a: Id, b: Id)
    requires a in t.assets && b in t.assets && a in u.assets && b in u.assets && a != b
    requires forall i :: 0 <= i < |order| ==> order[i] in u.assets
    requires forall w, x, y, z :: r.hash(w, x) == r.hash(y, z) ==> w == y && x == z
    requires DismissedOnlyAs(u.dismissals, a, b, Fingerprint(r, t.assets, t.interfaces, a, b))
    requires !SameIdentities(r, t, u, a, b)
    ensures var score := r.score(u.assets, u.interfaces, a, b);
      Candidate(a, b, score) in Listed(u, r, min, order) <==>
        Before(order, a, b) && !Linked(u.relationships, a, b) && !Linked(u.relationships, b, a) && score >= min
  {
    SameIdentitiesMeaning(r, t, u, a, b);
    NotLinked(u, a, b);
    hide Fingerprint, SameIdentities, Listed, DismissedAs, AlreadyLinked, Linked;
    ListedMeaning(u, r, min, order, Candidate(a, b, r.score(u.assets, u.interfaces, a, b)));
  }

  /** A linked pair is on no list, and a pair that was never dismissed is on it exactly when it is unlinked
      and scores enough. */
  lemma UndismissedIsOffered(t: Tables, r: Reader, min: int, order: seq<Id>, a: Id, b: Id)
    requires forall i :: 0 <= i < |order| ==> order[i] in t.assets
    requires Before(order, a, b)
    ensures var c := Candidate(a, b, r.score(t.assets, t.interfaces, a, b));
      && (Linked(t.relationships, a, b) || Linked(t.relationships, b, a) ==> c !in Listed(t, r, min, order))
      && ((forall k :: k in t.dismissals ==> !Between(t.dismissals[k].assetA, t.dismissals[k].assetB, a, b)) ==>
            (c in Listed(t, r, min, order) <==>
               !Linked(t.relationships, a, b) && !Linked(t.relationships, b, a) && c.score >= min))
  {
    NotLinked(t, a, b);
    hide Fingerprint, Listed, AlreadyLinked, Linked;
    ListedMeaning(t, r, min, order, Candidate(a, b, r.score(t.assets, t.interfaces, a, b)));
  }
}
