/** "Same physical device" links, stored as two mirrored rows (app/correlate.py). */
module Links {
  import opened Basics
  import opened Models
  import opened AssetChildren
  import opened MergeQuotient

  const SAME_DEVICE: string := "same_physical_device"

  predicate LinkRow(t: map<Id, Relationship>, k: Id, a: Id, b: Id) {
    k in t && t[k].kind == SAME_DEVICE && t[k].assetId == a && t[k].relatedId == b
  }

  /** No asset is linked to itself, no link is stored twice, and each link has its mirror row. */
  ghost predicate Mirrored(t: map<Id, Relationship>) {
    && (forall k, a :: !LinkRow(t, k, a, a))
    && (forall k, l, a, b :: LinkRow(t, k, a, b) && LinkRow(t, l, a, b) ==> k == l)
    && (forall k, a, b :: LinkRow(t, k, a, b) ==> Linked(t, b, a))
  }

  ghost predicate Linked(t: map<Id, Relationship>, a: Id, b: Id) {
    exists k :: LinkRow(t, k, a, b)
  }

  predicate Between(x: Id, y: Id, a: Id, b: Id) {
    (x == a && y == b) || (x == b && y == a)
  }

  // Every link but the one between `a` and `b` is as it was.
  ghost predicate SameLinksBut(t: map<Id, Relationship>, u: map<Id, Relationship>, a: Id, b: Id) {
    forall x, y :: !Between(x, y, a, b) ==> (Linked(u, x, y) <==> Linked(t, x, y))
  }

  // No row was changed or added, but for rows between `a` and `b`.
  ghost predicate NoNewEnds(t: map<Id, Relationship>, u: map<Id, Relationship>, a: Id, b: Id) {
    forall k :: k in u ==> (k in t && u[k] == t[k]) || Between(u[k].assetId, u[k].relatedId, a, b)
  }

  // Rows of other kinds stay as they are.
  ghost predicate OtherKindsKept(t: map<Id, Relationship>, u: map<Id, Relationship>) {
    && (forall k :: k in t && t[k].kind != SAME_DEVICE ==> k in u && u[k] == t[k])
    && (forall k :: k in u && u[k].kind != SAME_DEVICE ==> k in t)
  }

  // The two rows of a new link, each with the detail, and no other change; none when there is nothing to link.
  ghost predicate RowsLinked(t: map<Id, Relationship>, u: map<Id, Relationship>, a: Id, b: Id, detail: Text) {
    if a == b || Linked(t, a, b) then u == t
    else
      exists k: Id, l: Id :: k in u && l in u && k != l && k !in t && l !in t
        && u == t[k := Relationship(a, b, "same_physical_device", detail)]
                 [l := Relationship(b, a, "same_physical_device", detail)]
  }

  /** `link_assets` */
  method LinkAssets(session: Session, a: Id, b: Id, detail: Text) returns (linked: bool)
    requires session.KeysBelowSequences() && Mirrored(session.relationships)
    modifies session`relationships, session`nextRelationship
    ensures session.KeysBelowSequences() && Mirrored(session.relationships)
    ensures linked <==> a != b
    ensures linked ==> Linked(session.relationships, a, b) && Linked(session.relationships, b, a)
    ensures SameLinksBut(old(session.relationships), session.relationships, a, b)
    ensures OtherKindsKept(old(session.relationships), session.relationships)
    ensures NoNewEnds(old(session.relationships), session.relationships, a, b)
    ensures RowsLinked(old(session.relationships), session.relationships, a, b, detail)
  {
    if a == b {
      return false;
    }
    if k: Id :| k in session.relationships && LinkRow(session.relationships, k, a, b) {
      assert Linked(session.relationships, b, a);
      return true;
    }
    var t := session.relationships;
    var k, l := session.nextRelationship, session.nextRelationship + 1;
    session.relationships :=
      t[k := Relationship(a, b, SAME_DEVICE, detail)][l := Relationship(b, a, SAME_DEVICE, detail)];
    session.nextRelationship := session.nextRelationship + 2;
    LinkAdded(t, a, b, detail, k, l);
    return true;
  }

  lemma LinkAdded(t: map<Id, Relationship>, a: Id, b: Id, detail: Text, k: Id, l: Id)
    requires Mirrored(t) && a != b && !Linked(t, a, b) && k !in t && l !in t && k != l
    ensures var u := t[k := Relationship(a, b, SAME_DEVICE, detail)][l := Relationship(b, a, SAME_DEVICE, detail)];
      Mirrored(u) && Linked(u, a, b) && Linked(u, b, a) && SameLinksBut(t, u, a, b)
  {
    var u := t[k := Relationship(a, b, SAME_DEVICE, detail)][l := Relationship(b, a, SAME_DEVICE, detail)];
    assert LinkRow(u, k, a, b) && LinkRow(u, l, b, a);
    forall i, x, y | LinkRow(t, i, x, y) ensures LinkRow(u, i, x, y) {
    }
    forall i ensures !LinkRow(t, i, a, b) && !LinkRow(t, i, b, a) {
      assert LinkRow(t, i, a, b) ==> Linked(t, a, b);
      assert LinkRow(t, i, b, a) ==> Linked(t, a, b);
    }
    forall i: Id, j: Id, x: Id, y: Id | LinkRow(u, i, x, y) && LinkRow(u, j, x, y) ensures i == j {
      assert i != k && i != l ==> LinkRow(t, i, x, y);
      assert j != k && j != l ==> LinkRow(t, j, x, y);
    }
    forall i: Id, x: Id, y: Id | LinkRow(u, i, x, y) ensures Linked(u, y, x) {
      if i != k && i != l {
        assert LinkRow(t, i, x, y);
        var j :| LinkRow(t, j, y, x);
        assert LinkRow(u, j, y, x);
      }
    }
    forall x: Id, y: Id | !Between(x, y, a, b) ensures Linked(u, x, y) <==> Linked(t, x, y) {
      if Linked(u, x, y) {
        var i :| LinkRow(u, i, x, y);
        assert LinkRow(t, i, x, y);
      }
    }
  }

  predicate MirrorOf(t: map<Id, Relationship>, k: Id, l: Id) {
    && k in t && l in t && t[l].assetId == t[k].relatedId && t[l].relatedId == t[k].assetId && t[l].kind == t[k].kind
  }

  // Row `k` goes, with one of its mirror rows if it has any, and no other row goes or changes.
  ghost predicate RowUnlinked(t: map<Id, Relationship>, u: map<Id, Relationship>, k: Id) {
    && k !in u && u.Keys <= t.Keys && (forall l :: l in u ==> u[l] == t[l])
    && (forall l :: l in t && l !in u ==> l == k || MirrorOf(t, k, l))
    && (forall l, m :: l in t && m in t && l !in u && m !in u && l != k && m != k ==> l == m)
    && ((exists l :: MirrorOf(t, k, l)) ==> exists l :: MirrorOf(t, k, l) && l !in u)
  }

  lemma PairUnlinked(t: map<Id, Relationship>, k: Id, l: Id)
    requires k in t && MirrorOf(t, k, l)
    ensures RowUnlinked(t, t - {k, l}, k)
  {
  }

  lemma LoneRowUnlinked(t: map<Id, Relationship>, k: Id)
    requires k in t && forall l :: !MirrorOf(t, k, l)
    ensures RowUnlinked(t, t - {k}, k)
  {
  }

  // What that means for the links.
  ghost predicate LinkGone(t: map<Id, Relationship>, u: map<Id, Relationship>, r: Relationship) {
    if r.kind == SAME_DEVICE then
      && !Linked(u, r.assetId, r.relatedId) && !Linked(u, r.relatedId, r.assetId)
      && SameLinksBut(t, u, r.assetId, r.relatedId) && OtherKindsKept(t, u)
    else forall x, y :: Linked(u, x, y) <==> Linked(t, x, y)
  }

  /** `unlink_assets`: the row and the mirror of it, when the row is one of the asset's. */
  method UnlinkAssets(session: Session, a: Id, k: Id)
    requires Mirrored(session.relationships)
    modifies session`relationships
    ensures Mirrored(session.relationships)
    ensures forall k :: k in session.relationships ==>
      k in old(session.relationships) && session.relationships[k] == old(session.relationships)[k]
    ensures var t, u := old(session.relationships), session.relationships;
      if k in t && t[k].assetId == a then RowUnlinked(t, u, k) && LinkGone(t, u, t[k]) else u == t
  {
    var t := session.relationships;
    if k !in t || t[k].assetId != a {
      return;
    }
    var rel := t[k];
    session.relationships := t - {k};
    if l: Id :| l in t && t[l].assetId == rel.relatedId && t[l].relatedId == rel.assetId && t[l].kind == rel.kind {
      session.relationships := t - {k, l};
      PairUnlinked(t, k, l);
      if rel.kind == SAME_DEVICE {
        assert LinkRow(t, k, a, rel.relatedId) && LinkRow(t, l, rel.relatedId, a);
        LinkRemoved(t, k, l, a, rel.relatedId);
      } else {
        OtherRowsRemoved(t, {k, l});
      }
    } else {
      assert rel.kind == SAME_DEVICE ==> LinkRow(t, k, a, rel.relatedId) && Linked(t, rel.relatedId, a);
      LoneRowUnlinked(t, k);
      OtherRowsRemoved(t, {k});
    }
  }

  lemma OtherRowsRemoved(t: map<Id, Relationship>, gone: set<Id>)
    requires Mirrored(t) && forall k :: k in gone && k in t ==> t[k].kind != SAME_DEVICE
    ensures Mirrored(t - gone) && forall x, y :: Linked(t - gone, x, y) <==> Linked(t, x, y)
  {
    forall k, x, y ensures LinkRow(t - gone, k, x, y) <==> LinkRow(t, k, x, y) {
    }
    forall x, y ensures Linked(t - gone, x, y) <==> Linked(t, x, y) {
      if Linked(t, x, y) {
        var k :| LinkRow(t, k, x, y);
        assert LinkRow(t - gone, k, x, y);
      }
    }
  }

  lemma LinkRemoved(t: map<Id, Relationship>, k: Id, l: Id, a: Id, b: Id)
    requires Mirrored(t) && LinkRow(t, k, a, b) && LinkRow(t, l, b, a)
    ensures var u := t - {k, l};
      Mirrored(u) && !Linked(u, a, b) && !Linked(u, b, a) && SameLinksBut(t, u, a, b) && OtherKindsKept(t, u)
  {
    var u := t - {k, l};
    assert forall i, x, y :: LinkRow(u, i, x, y) ==> LinkRow(t, i, x, y);
    forall i: Id, x: Id, y: Id | LinkRow(t, i, x, y) && !Between(x, y, a, b) ensures LinkRow(u, i, x, y) {
    }
    forall i: Id, x: Id, y: Id | LinkRow(u, i, x, y) ensures Linked(u, y, x) {
      assert !Between(x, y, a, b);
      var j :| LinkRow(t, j, y, x);
      assert LinkRow(u, j, y, x);
    }
    forall x: Id, y: Id | !Between(x, y, a, b) ensures Linked(u, x, y) <==> Linked(t, x, y) {
      if Linked(t, x, y) {
        var i :| LinkRow(t, i, x, y);
        assert LinkRow(u, i, x, y);
      }
    }
  }

  /** `remove_same_device_link`: finds either of the two rows of the link, whichever comes first. */
  method RemoveSameDeviceLink(session: Session, a: Id, b: Id) returns (found: bool)
    requires Mirrored(session.relationships)
    modifies session`relationships
    ensures Mirrored(session.relationships)
    ensures forall k :: k in session.relationships ==>
      k in old(session.relationships) && session.relationships[k] == old(session.relationships)[k]
    ensures found <==> old(Linked(session.relationships, a, b))
    ensures !Linked(session.relationships, a, b) && !Linked(session.relationships, b, a)
    ensures SameLinksBut(old(session.relationships), session.relationships, a, b)
    ensures OtherKindsKept(old(session.relationships), session.relationships)
  {
    var t := session.relationships;
    if k: Id :| k in t && t[k].kind == SAME_DEVICE && t[k].assetId in {a, b} && t[k].relatedId in {a, b} {
      assert LinkRow(t, k, t[k].assetId, t[k].relatedId);
      assert Linked(t, t[k].relatedId, t[k].assetId) && Linked(t, t[k].assetId, t[k].relatedId);
      UnlinkAssets(session, t[k].assetId, k);
      return true;
    }
    assert forall k :: !LinkRow(t, k, a, b) && !LinkRow(t, k, b, a);
    return false;
  }

  // ---- deleting and merging keep the mirror ----

  lemma DeleteKeepsMirror(t: map<Id, Relationship>, a: Id)
    requires Mirrored(t)
    ensures var u := Kept(t, RelationshipOf(a));
      Mirrored(u) && forall x, y :: Linked(u, x, y) <==> Linked(t, x, y) && x != a && y != a
  {
    var u := Kept(t, RelationshipOf(a));
    assert forall k, x, y :: LinkRow(u, k, x, y) <==> LinkRow(t, k, x, y) && x != a && y != a;
    forall k, x, y | LinkRow(u, k, x, y) ensures Linked(u, y, x) {
      var j :| LinkRow(t, j, y, x);
      assert LinkRow(u, j, y, x);
    }
    forall x, y ensures Linked(u, x, y) <==> Linked(t, x, y) && x != a && y != a {
      if Linked(t, x, y) && x != a && y != a {
        var k :| LinkRow(t, k, x, y);
        assert LinkRow(u, k, x, y);
      }
    }
  }

  lemma LinkedIsTriple(t: map<Id, Relationship>, a: Id, b: Id)
    ensures Linked(t, a, b) <==> (a, b, SAME_DEVICE) in Triples(t)
  {
    if Linked(t, a, b) {
      var k :| LinkRow(t, k, a, b);
      assert TripleOf(t[k]) == (a, b, SAME_DEVICE);
    }
    if (a, b, SAME_DEVICE) in Triples(t) {
      var k :| k in t && TripleOf(t[k]) == (a, b, SAME_DEVICE);
      assert LinkRow(t, k, a, b);
    }
  }

  ghost predicate LinkedBefore(t: map<Id, Relationship>, s: Id, d: Id, x: Id, y: Id) {
    exists a, b :: Linked(t, a, b) && To(s, {d}, a) == x && To(s, {d}, b) == y
  }

  /** After a merge two assets are linked exactly when some assets that became them were. */
  lemma MergedLinks(t: map<Id, Relationship>, u: map<Id, Relationship>, s: Id, d: Id, x: Id, y: Id)
    requires s != d && Cleaned(Changed(t, RelationshipOf(d), Repointed(s, d)), u, s)
    ensures Linked(u, x, y) <==> (!(x == s && y == s) && LinkedBefore(t, s, d, x, y))
  {
    TriplesUnited(t, u, s, d);
    LinkedIsTriple(u, x, y);
    if Linked(u, x, y) {
      var r :| r in Triples(t) && TripleTo(s, {d}, r) == (x, y, SAME_DEVICE);
      LinkedIsTriple(t, r.0, r.1);
    }
    if !(x == s && y == s) && LinkedBefore(t, s, d, x, y) {
      var a, b :| Linked(t, a, b) && To(s, {d}, a) == x && To(s, {d}, b) == y;
      LinkedIsTriple(t, a, b);
      assert TripleTo(s, {d}, (a, b, SAME_DEVICE)) in TriplesTo(Triples(t), s, {d});
    }
  }

  lemma MergeKeepsMirror(t: map<Id, Relationship>, u: map<Id, Relationship>, s: Id, d: Id)
    requires s != d && Mirrored(t) && Cleaned(Changed(t, RelationshipOf(d), Repointed(s, d)), u, s)
    ensures Mirrored(u)
  {
    forall k, x, y | LinkRow(u, k, x, y) ensures x != y && Linked(u, y, x) {
      hide Cleaned;
      assert Linked(u, x, y);
      MergedLinks(t, u, s, d, x, y);
      MergedLinks(t, u, s, d, y, x);
      var a, b :| Linked(t, a, b) && To(s, {d}, a) == x && To(s, {d}, b) == y;
      var i :| LinkRow(t, i, a, b);
    }
    forall k, l, x, y | LinkRow(u, k, x, y) && LinkRow(u, l, x, y) ensures k == l {
      MergedRowsDiffer(t, u, s, d, k, l, x, y);
    }
  }

  lemma MergedRowsDiffer(t: map<Id, Relationship>, u: map<Id, Relationship>, s: Id, d: Id, k: Id, l: Id, x: Id, y: Id)
    requires s != d && Mirrored(t) && Cleaned(Changed(t, RelationshipOf(d), Repointed(s, d)), u, s)
    requires LinkRow(u, k, x, y) && LinkRow(u, l, x, y)
    ensures k == l
  {
    var m := Changed(t, RelationshipOf(d), Repointed(s, d));
    var kept :| Representatives(m, RowsWhere(m, ProperLink(s)), kept, TripleOf, {})
      && u == Thinned(m, RowsWhere(m, RelationshipOf(s)), kept);
    if !Touches(m[k], s) {
      assert LinkRow(t, k, x, y) && LinkRow(t, l, x, y);
    }
  }
}
