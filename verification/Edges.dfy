// One parent relation between two registries.  The parent keeps a counter; the relation is in order
// when every child names a parent, every parent's counter is the number of children that name it,
// and a child that needs an active parent has one.  The four relations of the document graph are
// instances, so each structural change is justified once, here, for any relation.
module Edges {
  import opened Registries

  // How to read one relation off the records: the parent's counter and whether it is active, the
  // parent that a child names, and whether the child needs that parent to be active.
  datatype Relation<!P, !C> = Relation(
    children: P -> nat, active: P -> bool, parent: C -> Handle, needy: C -> bool)

  ghost function Kids<C>(kids: map<Handle, C>, parent: C -> Handle, h: Handle): set<Handle> {
    set k | k in kids && parent(kids[k]) == h
  }

  ghost predicate Linked<P, C>(rel: Relation<P, C>, parents: map<Handle, P>, kids: map<Handle, C>) {
    match rel
    case Relation(children, active, parent, needy) =>
      && (forall k :: k in kids ==> parent(kids[k]) in parents)
      && (forall k :: k in kids && needy(kids[k]) ==> active(parents[parent(kids[k])]))
      && (forall h :: h in parents ==> children(parents[h]) == |Kids(kids, parent, h)|)
  }

  lemma KidsAfterPut<C>(kids: map<Handle, C>, parent: C -> Handle, k: Handle, kid: C, h: Handle)
    ensures |Kids(kids[k := kid], parent, h)| ==
            |Kids(kids, parent, h) - {k}| + if h == parent(kid) then 1 else 0
  {
    var after := Kids(kids[k := kid], parent, h);
    assert after - {k} == Kids(kids, parent, h) - {k};
    assert |after| == |after - {k}| + if h == parent(kid) then 1 else 0;
  }

  lemma KidsAfterRemove<C>(kids: map<Handle, C>, parent: C -> Handle, gone: Handle, h: Handle)
    requires gone in kids
    ensures |Kids(kids - {gone}, parent, h)| ==
            |Kids(kids, parent, h)| - if h == parent(kids[gone]) then 1 else 0
  {
    assert Kids(kids - {gone}, parent, h) == Kids(kids, parent, h) - {gone};
  }

  // A new child raises its parent's counter by one.
  lemma Link<P, C>(rel: Relation<P, C>, parents: map<Handle, P>, kids: map<Handle, C>,
                   k: Handle, kid: C, raised: P)
    requires Linked(rel, parents, kids)
    requires k !in kids && rel.parent(kid) in parents
    requires rel.active(raised) <==> rel.active(parents[rel.parent(kid)])
    requires rel.needy(kid) ==> rel.active(raised)
    requires rel.children(raised) == rel.children(parents[rel.parent(kid)]) + 1
    ensures Linked(rel, parents[rel.parent(kid) := raised], kids[k := kid])
  {
    forall h ensures |Kids(kids[k := kid], rel.parent, h)| ==
                     |Kids(kids, rel.parent, h)| + if h == rel.parent(kid) then 1 else 0
    {
      KidsAfterPut(kids, rel.parent, k, kid, h);
      assert Kids(kids, rel.parent, h) - {k} == Kids(kids, rel.parent, h);
    }
  }

  // The parent of a child is there and its counter is not zero.
  lemma ParentIsCounted<P, C>(rel: Relation<P, C>, parents: map<Handle, P>, kids: map<Handle, C>,
                              k: Handle)
    requires Linked(rel, parents, kids) && k in kids
    ensures rel.parent(kids[k]) in parents && rel.children(parents[rel.parent(kids[k])]) > 0
    ensures rel.needy(kids[k]) ==> rel.active(parents[rel.parent(kids[k])])
  {
    assert k in Kids(kids, rel.parent, rel.parent(kids[k]));
  }

  // Removing a child lowers its parent's counter by one.
  lemma Unlink<P, C>(rel: Relation<P, C>, parents: map<Handle, P>, kids: map<Handle, C>,
                     gone: Handle, lowered: P)
    requires Linked(rel, parents, kids) && gone in kids
    requires rel.parent(kids[gone]) in parents
    requires rel.active(lowered) <==> rel.active(parents[rel.parent(kids[gone])])
    requires rel.children(lowered) == rel.children(parents[rel.parent(kids[gone])]) - 1
    ensures Linked(rel, parents[rel.parent(kids[gone]) := lowered], kids - {gone})
  {
    forall h ensures |Kids(kids - {gone}, rel.parent, h)| ==
                     |Kids(kids, rel.parent, h)| - if h == rel.parent(kids[gone]) then 1 else 0
    {
      KidsAfterRemove(kids, rel.parent, gone, h);
    }
  }

  // Renaming a child's parent moves one unit between two counters.
  lemma Move<P, C>(rel: Relation<P, C>, parents: map<Handle, P>, kids: map<Handle, C>,
                   k: Handle, moved: C, lowered: P, raised: P)
    requires Linked(rel, parents, kids) && k in kids && rel.parent(kids[k]) in parents
    requires rel.parent(moved) in parents && rel.parent(moved) != rel.parent(kids[k])
    requires rel.active(lowered) <==> rel.active(parents[rel.parent(kids[k])])
    requires rel.active(raised) <==> rel.active(parents[rel.parent(moved)])
    requires rel.needy(moved) ==> rel.active(raised)
    requires rel.children(lowered) == rel.children(parents[rel.parent(kids[k])]) - 1
    requires rel.children(raised) == rel.children(parents[rel.parent(moved)]) + 1
    ensures Linked(rel, parents[rel.parent(kids[k]) := lowered][rel.parent(moved) := raised],
                   kids[k := moved])
  {
    forall h ensures |Kids(kids[k := moved], rel.parent, h)| ==
      |Kids(kids, rel.parent, h)| + (if h == rel.parent(moved) then 1 else 0)
                                  - (if h == rel.parent(kids[k]) then 1 else 0)
    {
      KidsAfterPut(kids, rel.parent, k, moved, h);
      var before := Kids(kids, rel.parent, h);
      assert |before| == |before - {k}| + if h == rel.parent(kids[k]) then 1 else 0;
    }
  }

  lemma NewParent<P, C>(rel: Relation<P, C>, parents: map<Handle, P>, kids: map<Handle, C>,
                        h: Handle, newcomer: P)
    requires Linked(rel, parents, kids)
    requires h !in parents && rel.children(newcomer) == 0
    ensures Linked(rel, parents[h := newcomer], kids)
  {
    assert Kids(kids, rel.parent, h) == {};
  }

  // A zero counter means that no child names the parent.
  lemma ZeroMeansChildless<P, C>(rel: Relation<P, C>, parents: map<Handle, P>, kids: map<Handle, C>,
                                 h: Handle)
    requires Linked(rel, parents, kids) && h in parents
    ensures rel.children(parents[h]) == 0 <==> forall k :: k in kids ==> rel.parent(kids[k]) != h
  {
    assert rel.children(parents[h]) == 0 <==> Kids(kids, rel.parent, h) == {};
    assert forall k :: k in Kids(kids, rel.parent, h) <==> k in kids && rel.parent(kids[k]) == h;
  }

  lemma DropParent<P, C>(rel: Relation<P, C>, parents: map<Handle, P>, kids: map<Handle, C>,
                         gone: Handle)
    requires Linked(rel, parents, kids)
    requires gone in parents && rel.children(parents[gone]) == 0
    ensures Linked(rel, parents - {gone}, kids)
  {
    ZeroMeansChildless(rel, parents, kids, gone);
  }

  // A change that keeps a parent's counter, and deactivates it only if no child needs it.
  lemma TouchParent<P, C>(rel: Relation<P, C>, parents: map<Handle, P>, kids: map<Handle, C>,
                          h: Handle, touched: P)
    requires Linked(rel, parents, kids) && h in parents
    requires rel.children(touched) == rel.children(parents[h])
    requires rel.active(touched) ||
             forall k :: k in kids && rel.parent(kids[k]) == h ==> !rel.needy(kids[k])
    ensures Linked(rel, parents[h := touched], kids)
  {
  }

  // A change that keeps the parent that a child names.
  lemma TouchKid<P, C>(rel: Relation<P, C>, parents: map<Handle, P>, kids: map<Handle, C>,
                       k: Handle, touched: C)
    requires Linked(rel, parents, kids) && k in kids
    requires rel.parent(touched) == rel.parent(kids[k]) && rel.parent(touched) in parents
    requires rel.needy(touched) ==> rel.active(parents[rel.parent(touched)])
    ensures Linked(rel, parents, kids[k := touched])
  {
    forall h ensures Kids(kids[k := touched], rel.parent, h) == Kids(kids, rel.parent, h) {
    }
  }
}
