/** find_contours (dxfgeom.py): take entities one at a time as seeds, grow
    each seed into a contour, and keep the contours of more than one member;
    seeds that join nothing are handed back as lines and arcs. */
module Stitch {
  import opened Geom
  import opened Contours

  /* What holds between seeds. `all` is the input, `orig` the orientations
     at the start, `loc` the contours kept, `left` the seeds that joined
     nothing (lines and arcs together), `elements` what is still to do. */

  /** Every entity is valid and at most reversed; those still to do and the
      leftovers are untouched. */
  ghost predicate Oriented(all: seq<Entity>, orig: map<Entity, Orient>, left: seq<Entity>, elements: seq<Entity>)
    reads set e | e in all
  {
    && (forall e :: e in all ==> e in orig && e.Valid() && Reoriented(orig[e], e.Orientation()))
    && (forall e :: e in elements ==> e in all && e.Orientation() == orig[e])
    && (forall e :: e in left ==> e in all && e !in elements && e.Orientation() == orig[e])
  }

  /** Every kept contour is valid, has more than one member, and owns none of
      the entities still to do. */
  ghost predicate KeptValid(all: seq<Entity>, loc: seq<Contour>, elements: seq<Entity>)
    reads loc, set e | e in all
  {
    forall c :: c in loc ==>
      (forall m :: m in c.ent ==> m in all && m !in elements) && c.Valid() && c.nument > 1
  }

  /** Contour members, leftovers and entities still to do are the input, each once. */
  ghost predicate Partitioned(all: seq<Entity>, loc: seq<Contour>, left: seq<Entity>, elements: seq<Entity>)
    reads loc
  {
    NoRepeats(Members(loc) + left + elements) && multiset(Members(loc) + left + elements) == multiset(all)
  }

  /** Nothing could have been joined: the ends of a kept contour meet no
      entity still to do and no leftover, a leftover meets no entity still to
      do and no other leftover, and the ends of two kept contours do not meet. */
  ghost predicate Apart(all: seq<Entity>, loc: seq<Contour>, left: seq<Entity>, elements: seq<Entity>)
    reads loc, set e | e in all
    requires forall e :: e in left ==> e in all
    requires forall e :: e in elements ==> e in all
  {
    && (forall c, e :: c in loc && e in elements ==> !Meets(c.Orientation(), e.Orientation()))
    && (forall c, e :: c in loc && e in left ==> !Meets(c.Orientation(), e.Orientation()))
    && (forall l, e :: l in left && e in elements ==> !Meets(l.Orientation(), e.Orientation()))
    && (forall l, l' :: l in left && l' in left && l != l' ==> !Meets(l.Orientation(), l'.Orientation()))
    && (forall i, j :: 0 <= i < j < |loc| ==> !Meets(loc[i].Orientation(), loc[j].Orientation()))
  }

  /** No contour end meets an entity of `es`. */
  ghost predicate EndsMeetNone(loc: seq<Contour>, es: seq<Entity>)
    reads loc, set e | e in es
  {
    forall c, e :: c in loc && e in es ==> !Meets(c.Orientation(), e.Orientation())
  }

  /** No two distinct entities of `es` meet. */
  ghost predicate PairwiseApart(es: seq<Entity>)
    reads set e | e in es
  {
    forall l, l' :: l in es && l' in es && l != l' ==> !Meets(l.Orientation(), l'.Orientation())
  }

  /** The ends of no two contours meet. */
  ghost predicate ContoursApart(loc: seq<Contour>)
    reads loc
  {
    forall i, j :: 0 <= i < j < |loc| ==> !Meets(loc[i].Orientation(), loc[j].Orientation())
  }

  ghost predicate FindInv(all: seq<Entity>, orig: map<Entity, Orient>, loc: seq<Contour>,
                          left: seq<Entity>, elements: seq<Entity>)
    reads loc, set e | e in all
  {
    && Oriented(all, orig, left, elements)
    && KeptValid(all, loc, elements)
    && Partitioned(all, loc, left, elements)
    && Apart(all, loc, left, elements)
  }

  /** The ends of a valid contour whose members were reversed at most meet
      nothing that none of those members met before. */
  twostate lemma EndsApart(new cn: Contour, new pool: seq<Entity>, x: Orient)
    requires old(allocated(pool))
    requires cn.Valid()
    requires forall m :: m in cn.ent ==> m in pool && Reoriented(old(m.Orientation()), m.Orientation())
    requires forall m :: m in pool ==> !Meets(x, old(m.Orientation()))
    ensures !Meets(cn.Orientation(), x) && !Meets(x, cn.Orientation())
  {
    var a, b := cn.ent[0], cn.ent[|cn.ent| - 1];
    EndsMeet(cn, x);
    MeetsSymmetric(cn.Orientation(), x);
    MeetsSymmetric(a.Orientation(), x);
    MeetsSymmetric(b.Orientation(), x);
    MeetsReoriented(x, old(a.Orientation()), a.Orientation());
    MeetsReoriented(x, old(b.Orientation()), b.Orientation());
  }

  /** A contour none of whose fields and members changed is as valid as before. */
  twostate lemma ValidUnchanged(c: Contour)
    requires unchanged(c) && forall m :: m in c.ent ==> unchanged(m)
    ensures c.Valid() == old(c.Valid())
  {
    var s := c.ent;
    assert AllValid(s) == old(AllValid(s));
    assert BoxHolds(c.GetBB(), s) == old(BoxHolds(c.GetBB(), s));
    forall i | 0 <= i < |s|
      ensures s[i].StartPoint() == old(s[i].StartPoint()) && s[i].EndPoint() == old(s[i].EndPoint())
    {
      assert s[i] in s;
    }
  }

  /** Contours whose fields did not change have the same members. */
  twostate lemma {:induction false} MembersUnchanged(loc: seq<Contour>)
    requires forall c :: c in loc ==> unchanged(c)
    ensures Members(loc) == old(Members(loc))
  {
    if loc != [] {
      var init, last := loc[..|loc| - 1], loc[|loc| - 1];
      assert forall c :: c in init ==> c in loc;
      MembersUnchanged(init);
      assert last in loc;
    }
  }
  /* The seed `first` has been grown into the fresh contour cn over `others`;
     `rest` is what did not join. The lemmas below take the outcome of Seed as
     their preconditions and show that FindInv carries over, for a contour
     that is kept and for a seed that is handed back. */

  twostate lemma KeptOriented(new all: seq<Entity>, new orig: map<Entity, Orient>, new left: seq<Entity>,
                              new first: Entity, new others: seq<Entity>, new rest: seq<Entity>)
    requires old(allocated(all) && allocated(orig) && allocated(left) && allocated(first) && allocated(others))
    requires old(Oriented(all, orig, left, [first] + others))
    requires forall e :: e in rest ==> e in others && e.Orientation() == old(e.Orientation())
    requires forall e :: e in others ==> e.Valid() && Reoriented(old(e.Orientation()), e.Orientation())
    requires forall e :: e in all && e !in others ==> unchanged(e)
    ensures Oriented(all, orig, left, rest)
  {
    forall e | e in all
      ensures e in orig && e.Valid() && Reoriented(orig[e], e.Orientation())
    {
      if e in others {
        assert e in [first] + others;
      }
    }
    forall e | e in left
      ensures e in all && e !in rest && e.Orientation() == orig[e]
    {
      assert e !in [first] + others;
    }
    forall e | e in rest
      ensures e in all && e.Orientation() == orig[e]
    {
      assert e in [first] + others;
    }
  }
  twostate lemma KeptStillValid(new all: seq<Entity>, new loc: seq<Contour>, new first: Entity,
                                new others: seq<Entity>, new cn: Contour, new rest: seq<Entity>)
    requires old(allocated(all) && allocated(loc) && allocated(first) && allocated(others))
    requires old(KeptValid(all, loc, [first] + others))
    requires forall e :: e in [first] + others ==> e in all
    requires cn.Valid() && cn.nument > 1 && NoRepeats(cn.ent + rest)
    requires multiset(cn.ent) + multiset(rest) == multiset([first] + others)
    requires forall e :: e in rest ==> e in others
    requires forall e :: e in all && e !in others ==> unchanged(e)
    requires forall c :: c in loc ==> unchanged(c)
    ensures KeptValid(all, loc + [cn], rest)
  {
    NoRepeatsApart(cn.ent, rest);
    forall c | c in loc + [cn]
      ensures (forall m :: m in c.ent ==> m in all && m !in rest) && c.Valid() && c.nument > 1
    {
      if c in loc {
        assert forall m :: m in c.ent ==> m !in others && unchanged(m);
        ValidUnchanged(c);
      } else {
        forall m | m in cn.ent
          ensures m in all
        {
          assert m in multiset(cn.ent);
          assert m in multiset([first] + others);
        }
      }
    }
  }
  twostate lemma KeptPartitioned(new all: seq<Entity>, new loc: seq<Contour>, new left: seq<Entity>,
                                 new first: Entity, new others: seq<Entity>, new cn: Contour, new rest: seq<Entity>)
    requires old(allocated(all) && allocated(loc) && allocated(left) && allocated(first) && allocated(others))
    requires old(Partitioned(all, loc, left, [first] + others))
    requires multiset(cn.ent) + multiset(rest) == multiset([first] + others)
    requires forall c :: c in loc ==> unchanged(c)
    ensures Partitioned(all, loc + [cn], left, rest)
  {
    var before := old(Members(loc)) + left + ([first] + others);
    MembersUnchanged(loc);
    MembersAppend(loc, cn);
    var after := Members(loc + [cn]) + left + rest;
    assert multiset(after) == multiset(before);
    NoRepeatsSub(before, after);
  }

  /** The new contour meets neither a left-over entity nor an earlier contour. */
  twostate lemma NewContourApart(new all: seq<Entity>, new loc: seq<Contour>, new left: seq<Entity>,
                                 new first: Entity, new others: seq<Entity>, new cn: Contour, new rest: seq<Entity>)
    requires old(allocated(all) && allocated(loc) && allocated(left) && allocated(first) && allocated(others))
    requires forall e :: e in [first] + others ==> e in all
    requires forall e :: e in left ==> e in all && e !in [first] + others
    requires old(Apart(all, loc, left, [first] + others))
    requires cn.Valid() && multiset(cn.ent) + multiset(rest) == multiset([first] + others)
    requires forall e :: e in others ==> Reoriented(old(e.Orientation()), e.Orientation())
    requires forall e :: e in all && e !in others ==> unchanged(e)
    requires forall c :: c in loc ==> unchanged(c)
    ensures forall l :: l in left ==> !Meets(cn.Orientation(), l.Orientation()) && !Meets(l.Orientation(), cn.Orientation())
    ensures forall i :: 0 <= i < |loc| ==> !Meets(loc[i].Orientation(), cn.Orientation())
  {
    var pool := [first] + others;
    forall m | m in cn.ent
      ensures m in pool && Reoriented(old(m.Orientation()), m.Orientation())
    {
      assert m in multiset(cn.ent);
      assert m in multiset(pool);
    }
    forall l | l in left
      ensures !Meets(cn.Orientation(), l.Orientation()) && !Meets(l.Orientation(), cn.Orientation())
    {
      EndsApart(cn, pool, l.Orientation());
    }
    forall i | 0 <= i < |loc|
      ensures !Meets(loc[i].Orientation(), cn.Orientation())
    {
      assert loc[i] in loc;
      EndsApart(cn, pool, loc[i].Orientation());
    }
  }

  twostate lemma KeptApart(new all: seq<Entity>, new loc: seq<Contour>, new left: seq<Entity>,
                           new first: Entity, new others: seq<Entity>, new cn: Contour, new rest: seq<Entity>)
    requires old(allocated(all) && allocated(loc) && allocated(left) && allocated(first) && allocated(others))
    requires forall e :: e in [first] + others ==> e in all
    requires forall e :: e in left ==> e in all && e !in [first] + others
    requires first !in others
    requires old(Apart(all, loc, left, [first] + others))
    requires cn.Valid() && multiset(cn.ent) + multiset(rest) == multiset([first] + others)
    requires forall e :: e in rest ==> e in others && e.Orientation() == old(e.Orientation())
    requires forall e :: e in others ==> Reoriented(old(e.Orientation()), e.Orientation())
    requires forall e :: e in rest ==> !Meets(cn.Orientation(), e.Orientation())
    requires forall e :: e in all && e !in others ==> unchanged(e)
    requires forall c :: c in loc ==> unchanged(c)
    ensures Apart(all, loc + [cn], left, rest)
  {
    var pool := [first] + others;
    NewContourApart(all, loc, left, first, others, cn, rest);
    var loc' := loc + [cn];
    forall c, e | c in loc' && e in rest
      ensures !Meets(c.Orientation(), e.Orientation())
    {
      if c != cn {
        assert c in loc && e in pool;
      }
    }
    forall c, e | c in loc' && e in left
      ensures !Meets(c.Orientation(), e.Orientation())
    {
      if c != cn {
        assert c in loc;
      }
    }
    forall l, e | l in left && e in rest
      ensures !Meets(l.Orientation(), e.Orientation())
    {
      assert e in pool;
    }
    forall i, j | 0 <= i < j < |loc'|
      ensures !Meets(loc'[i].Orientation(), loc'[j].Orientation())
    {
      if j < |loc| {
        assert loc'[i] == loc[i] && loc'[j] == loc[j];
        assert loc[i] in loc && loc[j] in loc;
      }
    }
  }
  twostate lemma LeftOriented(new all: seq<Entity>, new orig: map<Entity, Orient>, new left: seq<Entity>,
                              new first: Entity, new others: seq<Entity>, new rest: seq<Entity>)
    requires old(allocated(all) && allocated(orig) && allocated(left) && allocated(first) && allocated(others))
    requires old(Oriented(all, orig, left, [first] + others)) && first !in others
    requires forall e :: e in rest ==> e in others && e.Orientation() == old(e.Orientation())
    requires forall e :: e in others ==> e.Valid() && Reoriented(old(e.Orientation()), e.Orientation())
    requires forall e :: e in all && e !in others ==> unchanged(e)
    ensures Oriented(all, orig, left + [first], rest)
  {
    KeptOriented(all, orig, left, first, others, rest);
    assert first in [first] + others;
  }

  twostate lemma LeftStillValid(new all: seq<Entity>, new loc: seq<Contour>, new first: Entity,
                                new others: seq<Entity>, new rest: seq<Entity>)
    requires old(allocated(all) && allocated(loc) && allocated(first) && allocated(others))
    requires old(KeptValid(all, loc, [first] + others))
    requires forall e :: e in rest ==> e in others
    requires forall e :: e in all && e !in others ==> unchanged(e)
    requires forall c :: c in loc ==> unchanged(c)
    ensures KeptValid(all, loc, rest)
  {
    forall c | c in loc
      ensures (forall m :: m in c.ent ==> m in all && m !in rest) && c.Valid() && c.nument > 1
    {
      assert forall m :: m in c.ent ==> m !in others && unchanged(m);
      ValidUnchanged(c);
    }
  }

  twostate lemma LeftPartitioned(new all: seq<Entity>, new loc: seq<Contour>, new left: seq<Entity>,
                                 new first: Entity, new others: seq<Entity>, new rest: seq<Entity>)
    requires old(allocated(all) && allocated(loc) && allocated(left) && allocated(first) && allocated(others))
    requires old(Partitioned(all, loc, left, [first] + others))
    requires multiset(rest) == multiset(others)
    requires forall c :: c in loc ==> unchanged(c)
    ensures Partitioned(all, loc, left + [first], rest)
  {
    var before := old(Members(loc)) + left + ([first] + others);
    MembersUnchanged(loc);
    var after := Members(loc) + (left + [first]) + rest;
    assert multiset(after) == multiset(before);
    NoRepeatsSub(before, after);
  }

  /** Apart reads only orientations: if none of them changed, it still holds. */
  twostate lemma ApartStill(new all: seq<Entity>, new loc: seq<Contour>, new left: seq<Entity>,
                            new pool: seq<Entity>)
    requires old(allocated(all) && allocated(loc) && allocated(left) && allocated(pool))
    requires forall e :: e in left ==> e in all && e.Orientation() == old(e.Orientation())
    requires forall e :: e in pool ==> e in all && e.Orientation() == old(e.Orientation())
    requires forall c :: c in loc ==> unchanged(c)
    requires old(Apart(all, loc, left, pool))
    ensures Apart(all, loc, left, pool)
  {
    forall c | c in loc
      ensures c.Orientation() == old(c.Orientation())
    {
    }
  }

  /** Handing back a seed that meets nothing still to do keeps Apart. */
  lemma LeftApart(all: seq<Entity>, loc: seq<Contour>, left: seq<Entity>,
                  first: Entity, others: seq<Entity>, rest: seq<Entity>)
    requires forall e :: e in [first] + others ==> e in all
    requires forall e :: e in left ==> e in all
    requires Apart(all, loc, left, [first] + others)
    requires forall e :: e in rest ==> e in others && !Meets(first.Orientation(), e.Orientation())
    ensures Apart(all, loc, left + [first], rest)
  {
    var pool := [first] + others;
    var left' := left + [first];
    assert first in pool;
    forall c, e | c in loc && e in rest
      ensures !Meets(c.Orientation(), e.Orientation())
    {
      assert e in pool;
    }
    forall c, e | c in loc && e in left'
      ensures !Meets(c.Orientation(), e.Orientation())
    {
    }
    forall l, e | l in left' && e in rest
      ensures !Meets(l.Orientation(), e.Orientation())
    {
      if l != first {
        assert e in pool;
      }
    }
    forall l, l' | l in left' && l' in left' && l != l'
      ensures !Meets(l.Orientation(), l'.Orientation())
    {
      if l == first {
        MeetsSymmetric(l.Orientation(), l'.Orientation());
      }
    }
  }

  /** The seed and the rest were not reversed, so Apart carries over to the
      state after Seed, and then to the seed handed back. */
  twostate lemma LeftStillApart(new all: seq<Entity>, new loc: seq<Contour>, new left: seq<Entity>,
                                new first: Entity, new others: seq<Entity>, new rest: seq<Entity>)
    requires old(allocated(all) && allocated(loc) && allocated(left) && allocated(first) && allocated(others))
    requires forall e :: e in [first] + others ==> e in all
    requires forall e :: e in left ==> e in all && e !in [first] + others
    requires first !in others && multiset(rest) == multiset(others)
    requires old(Apart(all, loc, left, [first] + others))
    requires forall e :: e in rest ==> e in others && e.Orientation() == old(e.Orientation())
    requires forall e :: e in rest ==> !Meets(first.Orientation(), e.Orientation())
    requires forall e :: e in all && e !in others ==> unchanged(e)
    requires forall c :: c in loc ==> unchanged(c)
    ensures Apart(all, loc, left + [first], rest)
  {
    forall e | e in [first] + others
      ensures e.Orientation() == old(e.Orientation())
    {
      if e != first {
        assert e in multiset(rest);
      }
    }
    ApartStill(all, loc, left, [first] + others);
    LeftApart(all, loc, left, first, others, rest);
  }

  /** A grown contour of more than one member is kept. */
  twostate lemma KeptKeepsInv(new all: seq<Entity>, new orig: map<Entity, Orient>, new loc: seq<Contour>,
                              new left: seq<Entity>, new first: Entity, new others: seq<Entity>,
                              new cn: Contour, new rest: seq<Entity>)
    requires old(allocated(all) && allocated(orig) && allocated(loc) && allocated(left)
                 && allocated(first) && allocated(others))
    requires old(FindInv(all, orig, loc, left, [first] + others)) && first !in others
    requires cn.Valid() && cn.nument > 1 && NoRepeats(cn.ent + rest)
    requires multiset(cn.ent) + multiset(rest) == multiset([first] + others)
    requires forall e :: e in rest ==> e in others && e.Orientation() == old(e.Orientation())
    requires forall e :: e in others ==> e.Valid() && Reoriented(old(e.Orientation()), e.Orientation())
    requires forall e :: e in rest ==> !Meets(cn.Orientation(), e.Orientation())
    requires forall e :: e in all && e !in others ==> unchanged(e)
    requires forall c :: c in loc ==> unchanged(c)
    ensures FindInv(all, orig, loc + [cn], left, rest)
  {
    KeptOriented(all, orig, left, first, others, rest);
    KeptStillValid(all, loc, first, others, cn, rest);
    KeptPartitioned(all, loc, left, first, others, cn, rest);
    KeptApart(all, loc, left, first, others, cn, rest);
  }

  /** A contour of one member holds only the seed, since nothing left over
      is the seed; so the leftovers are the other entities. */
  lemma SeedAlone(first: Entity, others: seq<Entity>, members: seq<Entity>, rest: seq<Entity>)
    requires |members| == 1 && first !in others && forall e :: e in rest ==> e in others
    requires multiset(members) + multiset(rest) == multiset([first] + others)
    ensures members == [first] && multiset(rest) == multiset(others)
  {
    assert first in multiset(members) + multiset(rest);
    assert first !in rest;
    assert members == [members[0]];
    assert multiset(members) == multiset{first};
    assert multiset([first] + others) == multiset{first} + multiset(others);
    assert multiset(rest) == multiset{first} + multiset(rest) - multiset{first};
  }

  /** A seed that joined nothing is handed back. */
  twostate lemma LeftKeepsInv(new all: seq<Entity>, new orig: map<Entity, Orient>, new loc: seq<Contour>,
                              new left: seq<Entity>, new first: Entity, new others: seq<Entity>,
                              new cn: Contour, new rest: seq<Entity>)
    requires old(allocated(all) && allocated(orig) && allocated(loc) && allocated(left)
                 && allocated(first) && allocated(others))
    requires old(FindInv(all, orig, loc, left, [first] + others)) && first !in others
    requires cn.Valid() && cn.nument == 1
    requires multiset(cn.ent) + multiset(rest) == multiset([first] + others)
    requires forall e :: e in rest ==> e in others && e.Orientation() == old(e.Orientation())
    requires forall e :: e in others ==> e.Valid() && Reoriented(old(e.Orientation()), e.Orientation())
    requires forall e :: e in rest ==> !Meets(cn.Orientation(), e.Orientation())
    requires forall e :: e in all && e !in others ==> unchanged(e)
    requires forall c :: c in loc ==> unchanged(c)
    ensures FindInv(all, orig, loc, left + [first], rest)
  {
    SeedAlone(first, others, cn.ent, rest);
    forall e | e in rest
      ensures !Meets(first.Orientation(), e.Orientation())
    {
      assert first.Orientation().start == cn.Orientation().start;
      assert first.Orientation().end == cn.Orientation().end;
    }
    LeftOriented(all, orig, left, first, others, rest);
    LeftStillValid(all, loc, first, others, rest);
    LeftPartitioned(all, loc, left, first, others, rest);
    LeftStillApart(all, loc, left, first, others, rest);
  }

  /** FindInv does not depend on the order of the leftovers. */
  lemma LeftReordered(all: seq<Entity>, orig: map<Entity, Orient>, loc: seq<Contour>,
                      left: seq<Entity>, left': seq<Entity>, elements: seq<Entity>)
    requires FindInv(all, orig, loc, left, elements) && multiset(left') == multiset(left)
    ensures FindInv(all, orig, loc, left', elements)
  {
    forall x
      ensures x in left' <==> x in left
    {
      assert x in left' <==> x in multiset(left');
      assert x in left <==> x in multiset(left);
    }
    NoRepeatsSub(Members(loc) + left + elements, Members(loc) + left' + elements);
  }

  /** Lines 447-458: a contour is made from `first` and grown until a whole
      pass over `others` joins nothing. */
  method Seed(first: Entity, others: seq<Entity>, ghost all: seq<Entity>, ghost loc: seq<Contour>)
      returns (cn: Contour, rest: seq<Entity>)
    requires first.Valid() && NoRepeats([first] + others)
    requires forall e :: e in others ==> e.Valid()
    modifies set e | e in others
    ensures fresh(cn) && cn.Valid() && cn.seed == first && NoRepeats(cn.ent + rest)
    ensures multiset(cn.ent) + multiset(rest) == multiset([first] + others)
    ensures 1 <= cn.nument && cn.nument + |rest| == 1 + |others|
    ensures forall e :: e in rest ==> e in others && e.Orientation() == old(e.Orientation())
    ensures forall e :: e in others ==> e.Valid() && Reoriented(old(e.Orientation()), e.Orientation())
    ensures forall e :: e in rest ==> !Meets(cn.Orientation(), e.Orientation())
    ensures forall e :: e in all && e !in others ==> unchanged(e)
    ensures forall c :: c in loc ==> unchanged(c)
  {
    cn := new Contour(first);
    rest := Grow(cn, others);
  }

  /** Seed, and the proof that its outcome keeps FindInv. */
  method SeedKeepsInv(ghost all: seq<Entity>, ghost orig: map<Entity, Orient>, ghost loc: seq<Contour>,
                      ghost left: seq<Entity>, elements: seq<Entity>)
      returns (cn: Contour, rest: seq<Entity>)
    requires FindInv(all, orig, loc, left, elements) && |elements| > 0
    modifies set e | e in elements
    ensures 1 <= cn.nument && |rest| < |elements|
    ensures cn.nument > 1 ==> FindInv(all, orig, loc + [cn], left, rest)
    ensures cn.nument == 1 ==> FindInv(all, orig, loc, left + [elements[0]], rest)
  {
    var first, others := elements[0], elements[1..];
    assert elements == [first] + others;
    NoRepeatsSub(Members(loc) + left + elements, elements);
    NoRepeatsApart([first], others);
    cn, rest := Seed(first, others, all, loc);
    if cn.nument > 1 {
      KeptKeepsInv(all, orig, loc, left, first, others, cn, rest);
    } else {
      LeftKeepsInv(all, orig, loc, left, first, others, cn, rest);
    }
  }

  /** One turn of the outer loop: pop a seed, grow it, and keep the contour
      or hand the seed back as a line or an arc. */
  method FindStep(ghost all: seq<Entity>, ghost orig: map<Entity, Orient>, loc: seq<Contour>,
                  remlines: seq<Entity>, remarcs: seq<Entity>, elements: seq<Entity>)
      returns (loc': seq<Contour>, remlines': seq<Entity>, remarcs': seq<Entity>, elements': seq<Entity>)
    requires FindInv(all, orig, loc, remlines + remarcs, elements) && |elements| > 0
    requires (forall e :: e in remlines ==> e.kind == LineKind) && (forall e :: e in remarcs ==> e.kind == ArcKind)
    modifies set e | e in elements
    ensures FindInv(all, orig, loc', remlines' + remarcs', elements')
    ensures (forall e :: e in remlines' ==> e.kind == LineKind) && (forall e :: e in remarcs' ==> e.kind == ArcKind)
    ensures |elements'| < |elements|
  {
    var first := elements[0];
    var cn;
    cn, elements' := SeedKeepsInv(all, orig, loc, remlines + remarcs, elements);
    if cn.nument > 1 {
      loc', remlines', remarcs' := loc + [cn], remlines, remarcs;
    } else {
      loc' := loc;
      if first.kind == LineKind {
        remlines', remarcs' := remlines + [first], remarcs;
      } else {
        remlines', remarcs' := remlines, remarcs + [first];
      }
      LeftReordered(all, orig, loc, remlines + remarcs + [first], remlines' + remarcs', elements');
    }
  }

  /** The loop starts with everything still to do. */
  lemma FindStart(all: seq<Entity>, orig: map<Entity, Orient>)
    requires NoRepeats(all)
    requires forall e :: e in all ==> e.Valid() && e in orig && orig[e] == e.Orientation()
    ensures FindInv(all, orig, [], [], all)
  {
    assert Members([]) + [] + all == all;
  }

  /** With nothing left to do, FindInv states what find_contours returns. */
  lemma FindDone(all: seq<Entity>, orig: map<Entity, Orient>, loc: seq<Contour>,
                 remlines: seq<Entity>, remarcs: seq<Entity>)
    requires FindInv(all, orig, loc, remlines + remarcs, [])
    ensures NoRepeats(Members(loc) + remlines + remarcs)
    ensures multiset(Members(loc) + remlines + remarcs) == multiset(all)
    ensures forall c :: c in loc ==> c.Valid() && c.nument > 1
    ensures forall e :: e in all ==> e.Valid() && e in orig && Reoriented(orig[e], e.Orientation())
    ensures forall e :: e in remlines + remarcs ==> e in all && e.Orientation() == orig[e]
    ensures EndsMeetNone(loc, remlines + remarcs) && PairwiseApart(remlines + remarcs) && ContoursApart(loc)
  {
    DonePartitioned(all, loc, remlines, remarcs);
  }

  /** With nothing left to do, the members and the leftovers are the input. */
  lemma DonePartitioned(all: seq<Entity>, loc: seq<Contour>, remlines: seq<Entity>, remarcs: seq<Entity>)
    requires Partitioned(all, loc, remlines + remarcs, [])
    ensures NoRepeats(Members(loc) + remlines + remarcs)
    ensures multiset(Members(loc) + remlines + remarcs) == multiset(all)
  {
    var m, left := Members(loc), remlines + remarcs;
    assert m + left + [] == m + left;
    assert m + left == m + remlines + remarcs;
  }

  /** The outer loop of find_contours, stated against the orientations
      `orig` the entities had on entry. */
  method FindLoop(ghost all: seq<Entity>, ghost orig: map<Entity, Orient>, lol: seq<Entity>, loa: seq<Entity>)
      returns (loc: seq<Contour>, remlines: seq<Entity>, remarcs: seq<Entity>)
    requires all == lol + loa && NoRepeats(all)
    requires forall e :: e in all ==> e.Valid() && e in orig && orig[e] == e.Orientation()
    modifies set e | e in all
    ensures NoRepeats(Members(loc) + remlines + remarcs)
    ensures multiset(Members(loc) + remlines + remarcs) == multiset(all)
    ensures forall c :: c in loc ==> c.Valid() && c.nument > 1
    ensures forall e :: e in remlines ==> e.kind == LineKind
    ensures forall e :: e in remarcs ==> e.kind == ArcKind
    ensures forall e :: e in all ==> e.Valid() && e in orig && Reoriented(orig[e], e.Orientation())
    ensures forall e :: e in remlines + remarcs ==> e in all && e.Orientation() == orig[e]
    ensures EndsMeetNone(loc, remlines + remarcs) && PairwiseApart(remlines + remarcs) && ContoursApart(loc)
  {
    var elements := lol + loa;
    loc, remlines, remarcs := [], [], [];
    FindStart(all, orig);
    while |elements| > 0
      invariant FindInv(all, orig, loc, remlines + remarcs, elements)
      invariant forall e :: e in remlines ==> e.kind == LineKind
      invariant forall e :: e in remarcs ==> e.kind == ArcKind
      decreases |elements|
    {
      loc, remlines, remarcs, elements := FindStep(all, orig, loc, remlines, remarcs, elements);
    }
    FindDone(all, orig, loc, remlines, remarcs);
  }

  /** find_contours: every input entity ends up in exactly one kept contour
      or among the leftovers, lines and arcs apart; every kept contour is
      valid and has more than one member; entities are at most reversed, and
      the leftovers not at all; and no further join is possible: no contour
      end meets a leftover, no two leftovers meet, and no two contours' ends
      meet. */
  method FindContours(lol: seq<Entity>, loa: seq<Entity>)
      returns (loc: seq<Contour>, remlines: seq<Entity>, remarcs: seq<Entity>)
    requires NoRepeats(lol + loa)
    requires forall e :: e in lol + loa ==> e.Valid()
    modifies set e | e in lol + loa
    ensures NoRepeats(Members(loc) + remlines + remarcs)
    ensures multiset(Members(loc) + remlines + remarcs) == multiset(lol + loa)
    ensures forall c :: c in loc ==> c.Valid() && c.nument > 1
    ensures forall e :: e in remlines ==> e.kind == LineKind
    ensures forall e :: e in remarcs ==> e.kind == ArcKind
    ensures forall e :: e in lol + loa ==> e.Valid() && Reoriented(old(e.Orientation()), e.Orientation())
    ensures forall e :: e in remlines + remarcs ==> e in lol + loa
    ensures forall e :: e in remlines + remarcs ==> e.Orientation() == old(e.Orientation())
    ensures EndsMeetNone(loc, remlines + remarcs) && PairwiseApart(remlines + remarcs) && ContoursApart(loc)
  {
    ghost var all := lol + loa;
    ghost var orig := map e | e in all :: e.Orientation();
    assert forall e :: e in all ==> e in orig && orig[e] == old(e.Orientation());
    loc, remlines, remarcs := FindLoop(all, orig, lol, loa);
  }
}
