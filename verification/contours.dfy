/** Contours (chains of entities joined end to end, dxfgeom.py) and the
    inner loops of find_contours, which grow one contour from its seed. */
module Contours {
  import opened Geom

  /** No element occurs more than once. */
  ghost predicate NoRepeats<T>(s: seq<T>) {
    forall x | x in s :: multiset(s)[x] <= 1
  }

  lemma NoRepeatsDisjoint<T>(a: seq<T>, b: seq<T>, x: T)
    requires NoRepeats(a + b) && x in b
    ensures x !in a
  {
    assert x in a + b;
    assert multiset(a + b) == multiset(a) + multiset(b);
  }

  /** A sequence whose elements are drawn from one without repeats has none either. */
  lemma NoRepeatsSub<T>(s: seq<T>, t: seq<T>)
    requires NoRepeats(s) && multiset(t) <= multiset(s)
    ensures NoRepeats(t)
  {
    forall x | x in t
      ensures multiset(t)[x] <= 1
    {
      assert x in multiset(t);
      assert x in multiset(s);
    }
  }

  /** Deleting element n of b from a sequence without repeats. */
  lemma RemoveAt<T>(a: seq<T>, b: seq<T>, n: int)
    requires NoRepeats(a + b) && 0 <= n < |b|
    ensures b[n] !in a && b[n] !in b[..n] + b[n + 1..]
    ensures multiset(b) == multiset(b[..n] + b[n + 1..]) + multiset{b[n]}
    ensures forall x :: x in b[..n] + b[n + 1..] <==> x in b && x != b[n]
  {
    var others := b[..n] + b[n + 1..];
    assert b == b[..n] + [b[n]] + b[n + 1..];
    assert multiset(b) == multiset(others) + multiset{b[n]};
    NoRepeatsDisjoint(a, b, b[n]);
    NoRepeatsSub(a + b, others + [b[n]]);
    NoRepeatsDisjoint(others, [b[n]], b[n]);
  }

  /** Each member ends within Delta of where the next one starts. */
  ghost predicate Chained(s: seq<Entity>)
    reads s
  {
    forall i :: 0 < i < |s| ==> Near(s[i - 1].EndPoint(), s[i].StartPoint())
  }

  /** The new orientation is the old one, or the old one reversed. */
  predicate Reoriented(before: Orient, after: Orient) {
    after == before || after == before.Flip()
  }

  lemma MeetsReoriented(a: Orient, before: Orient, after: Orient)
    requires Reoriented(before, after)
    ensures Meets(a, after) <==> Meets(a, before)
  {
    MeetsFlip(a, before);
  }

  /** Every entity of s is valid. */
  ghost predicate AllValid(s: seq<Entity>)
    reads s
  {
    forall m :: m in s ==> m.Valid()
  }

  /** b holds both endpoints of every entity of s. */
  ghost predicate BoxHolds(b: Box, s: seq<Entity>)
    reads s
  {
    forall m :: m in s ==> b.Contains(m.StartPoint()) && b.Contains(m.EndPoint())
  }

  /** What member m adds to the box of a contour grown from `seed`: the
      seed's endpoint box, and any other member's own box. */
  function Part(base: Box, seed: Entity, m: Entity): Box {
    if m == seed then base else m.box
  }

  /** The box merge_bb builds up for a contour with members s: the seed's
      endpoint box merged with the box of every other member. */
  function Span(base: Box, seed: Entity, s: seq<Entity>): Box {
    if s == [] then base else MergeBB(Span(base, seed, s[..|s| - 1]), Part(base, seed, s[|s| - 1]))
  }

  lemma SpanAppend(base: Box, seed: Entity, s: seq<Entity>, e: Entity)
    ensures Span(base, seed, s + [e]) == MergeBB(Span(base, seed, s), Part(base, seed, e))
  {
    assert (s + [e])[..|s|] == s;
  }

  /** Merging is commutative and associative, so a member joined at the front
      adds its box just as one joined at the back does. */
  lemma {:induction false} SpanPrepend(base: Box, seed: Entity, e: Entity, s: seq<Entity>)
    ensures Span(base, seed, [e] + s) == MergeBB(Span(base, seed, s), Part(base, seed, e))
  {
    if s != [] {
      var init, last := s[..|s| - 1], s[|s| - 1];
      assert ([e] + s)[..|s|] == [e] + init;
      SpanPrepend(base, seed, e, init);
    }
  }

  /** Span is the least box that encloses the seed's endpoint box and the box
      of every other member. */
  lemma {:induction false} SpanLeast(base: Box, seed: Entity, s: seq<Entity>, c: Box)
    ensures Span(base, seed, s).Encloses(base)
    ensures forall m :: m in s && m != seed ==> Span(base, seed, s).Encloses(m.box)
    ensures c.Encloses(base) && (forall m :: m in s && m != seed ==> c.Encloses(m.box)) ==>
              c.Encloses(Span(base, seed, s))
  {
    if s != [] {
      var init := s[..|s| - 1];
      assert forall m :: m in init ==> m in s;
      assert forall m :: m in s ==> m in init || m == s[|s| - 1];
      SpanLeast(base, seed, init, c);
    }
  }

  /** The contour invariant on values: members s grown from `seed`, box bb,
      running from start to end. */
  ghost predicate Forms(s: seq<Entity>, bb: Box, start: Point, end: Point, seed: Entity)
    reads s
  {
    && |s| >= 1
    && AllValid(s)
    && bb.WellFormed() && BoxHolds(bb, s)
    && seed in s && bb == Span(EndpointBox(seed.StartPoint(), seed.EndPoint()), seed, s)
    && start == s[0].StartPoint()
    && end == s[|s| - 1].EndPoint()
    && Chained(s)
  }

  lemma FormsAppend(s: seq<Entity>, bb: Box, start: Point, end: Point, seed: Entity, e: Entity)
    requires Forms(s, bb, start, end, seed) && e.Valid() && e !in s && Near(end, e.StartPoint())
    ensures Forms(s + [e], MergeBB(bb, e.GetBB()), start, e.EndPoint(), seed)
  {
    ChainedAppend(s, e);
    BoxGrows(s, e, bb, MergeBB(bb, e.GetBB()));
    SpanAppend(EndpointBox(seed.StartPoint(), seed.EndPoint()), seed, s, e);
  }

  lemma FormsPrepend(s: seq<Entity>, bb: Box, start: Point, end: Point, seed: Entity, e: Entity)
    requires Forms(s, bb, start, end, seed) && e.Valid() && e !in s && Near(e.EndPoint(), start)
    ensures Forms([e] + s, MergeBB(bb, e.GetBB()), e.StartPoint(), end, seed)
  {
    ChainedPrepend(e, s);
    BoxGrows(s, e, bb, MergeBB(bb, e.GetBB()));
    SpanPrepend(EndpointBox(seed.StartPoint(), seed.EndPoint()), seed, e, s);
  }

  /** A chain of entities grown from one seed (Contour in the source). */
  class Contour {
    var x1: real
    var y1: real
    var x2: real
    var y2: real
    var box: Box
    var sw: bool
    var ent: seq<Entity>
    var nument: int
    /** The entity the contour was started from. */
    ghost const seed: Entity

    function StartPoint(): Point reads this { Point(x1, y1) }
    function EndPoint(): Point reads this { Point(x2, y2) }
    function GetBB(): Box reads this { box }
    function Orientation(): Orient reads this { Orient(StartPoint(), EndPoint(), sw) }

    /** The contour invariant: nument counts the members, the contour runs from
        the first member's start to the last member's end, consecutive members
        touch, and the box is well formed and holds every member endpoint; it
        is exactly the seed's endpoint box merged with every other member's box. */
    ghost predicate Valid()
      reads this, ent
    {
      nument == |ent| && Forms(ent, GetBB(), StartPoint(), EndPoint(), seed)
    }

    /** The test of find_contours: `append(e) or prepend(e)` succeeds. */
    predicate Joinable(e: Entity)
      reads this, ent, e
      requires |ent| > 0
    {
      ent[|ent| - 1].Fits(2, e) != 0 || ent[0].Fits(1, e) != 0
    }

    /** A contour of one seed entity; its box comes from the seed's endpoints only. */
    constructor (e: Entity)
      requires e.Valid()
      ensures Valid() && ent == [e] && nument == 1 && !sw && seed == e
      ensures StartPoint() == e.StartPoint() && EndPoint() == e.EndPoint()
      ensures GetBB() == EndpointBox(e.StartPoint(), e.EndPoint())
    {
      seed := e;
      x1, y1, x2, y2 := e.x1, e.y1, e.x2, e.y2;
      box := EndpointBox(e.StartPoint(), e.EndPoint());
      sw := false;
      ent := [e];
      nument := 1;
    }

    /** append: join e after the last member when e touches the last member's
        end, reversing e first when it is its end that touches. The source
        reverses e after extending the list and the box; the two touch
        different objects, so reversing first gives the same final state. */
    method Append(e: Entity) returns (ok: bool)
      requires Valid() && e.Valid() && e !in ent
      modifies this, e
      ensures Valid() && e.Valid()
      ensures ok == (old(ent[|ent| - 1].Fits(2, e)) != 0)
      ensures !ok ==> unchanged(this, e)
      ensures ok ==> ent == old(ent) + [e] && nument == old(nument) + 1
      ensures ok ==> GetBB() == MergeBB(old(GetBB()), e.GetBB())
      ensures ok ==> e.Orientation() == if old(ent[|ent| - 1].Fits(2, e)) == 1
                                        then old(e.Orientation()).Flip() else old(e.Orientation())
      ensures ok ==> StartPoint() == old(StartPoint()) && EndPoint() == e.EndPoint()
      ensures ok ==> Near(old(EndPoint()), e.StartPoint())
    {
      var newfree := ent[|ent| - 1].Fits(2, e);
      if newfree == 0 {
        return false;
      }
      ent[|ent| - 1].FitsMeaning(2, e);
      if newfree == 1 {
        e.Swap();
      }
      AttachLast(e);
      ok := true;
    }

    /** The contour half of append: e, already facing the right way, becomes
        the last member and the box grows to hold it. */
    method AttachLast(e: Entity)
      requires Valid() && e.Valid() && e !in ent && Near(EndPoint(), e.StartPoint())
      modifies this
      ensures Valid()
      ensures ent == old(ent) + [e] && nument == old(nument) + 1
      ensures GetBB() == MergeBB(old(GetBB()), e.GetBB())
      ensures StartPoint() == old(StartPoint()) && EndPoint() == e.EndPoint()
    {
      var bb := MergeBB(GetBB(), e.GetBB());
      FormsAppend(ent, GetBB(), StartPoint(), EndPoint(), seed, e);
      ent := ent + [e];
      nument := nument + 1;
      box := bb;
      x2, y2 := e.x2, e.y2;
    }

    /** prepend: join e before the first member when e touches the first
        member's start, reversing e first when it is its start that touches
        (again reversing before, not after, the list and box update). */
    method Prepend(e: Entity) returns (ok: bool)
      requires Valid() && e.Valid() && e !in ent
      modifies this, e
      ensures Valid() && e.Valid()
      ensures ok == (old(ent[0].Fits(1, e)) != 0)
      ensures !ok ==> unchanged(this, e)
      ensures ok ==> ent == [e] + old(ent) && nument == old(nument) + 1
      ensures ok ==> GetBB() == MergeBB(old(GetBB()), e.GetBB())
      ensures ok ==> e.Orientation() == if old(ent[0].Fits(1, e)) == 2
                                        then old(e.Orientation()).Flip() else old(e.Orientation())
      ensures ok ==> StartPoint() == e.StartPoint() && EndPoint() == old(EndPoint())
      ensures ok ==> Near(e.EndPoint(), old(StartPoint()))
    {
      var newfree := ent[0].Fits(1, e);
      if newfree == 0 {
        return false;
      }
      ent[0].FitsMeaning(1, e);
      if newfree == 2 {
        e.Swap();
      }
      NearSymmetric(StartPoint(), e.EndPoint());
      AttachFirst(e);
      ok := true;
    }

    /** The contour half of prepend: e becomes the first member. */
    method AttachFirst(e: Entity)
      requires Valid() && e.Valid() && e !in ent && Near(e.EndPoint(), StartPoint())
      modifies this
      ensures Valid()
      ensures ent == [e] + old(ent) && nument == old(nument) + 1
      ensures GetBB() == MergeBB(old(GetBB()), e.GetBB())
      ensures StartPoint() == e.StartPoint() && EndPoint() == old(EndPoint())
    {
      var bb := MergeBB(GetBB(), e.GetBB());
      FormsPrepend(ent, GetBB(), StartPoint(), EndPoint(), seed, e);
      ent := [e] + ent;
      nument := nument + 1;
      box := bb;
      x1, y1 := e.x1, e.y1;
    }
  }

  lemma ChainedAppend(s: seq<Entity>, e: Entity)
    requires |s| > 0 && Chained(s) && Near(s[|s| - 1].EndPoint(), e.StartPoint())
    ensures Chained(s + [e])
  {
  }

  lemma ChainedPrepend(e: Entity, s: seq<Entity>)
    requires |s| > 0 && Chained(s) && Near(e.EndPoint(), s[0].StartPoint())
    ensures Chained([e] + s)
  {
  }

  /** A box merged with e's box still holds the endpoints the old box held,
      and those of e. */
  lemma BoxGrows(s: seq<Entity>, e: Entity, old_box: Box, new_box: Box)
    requires BoxHolds(old_box, s) && AllValid(s)
    requires e.Valid() && new_box == MergeBB(old_box, e.GetBB())
    ensures BoxHolds(new_box, s + [e]) && BoxHolds(new_box, [e] + s)
    ensures AllValid(s + [e]) && AllValid([e] + s)
  {
  }

  /** On a valid contour, joinability is exactly "e has an endpoint within
      Delta of the contour's start or end point". */
  lemma JoinableIffMeets(cn: Contour, e: Entity)
    requires cn.Valid()
    ensures cn.Joinable(e) <==> Meets(cn.Orientation(), e.Orientation())
  {
    var first, last := cn.ent[0], cn.ent[|cn.ent| - 1];
    assert first.EndAt(1) == cn.StartPoint();
    assert last.EndAt(2) == cn.EndPoint();
  }

  /** What Grow leaves behind is a fixpoint: an element that meets neither
      end of the contour fits neither its last member at end 2 nor its
      first member at end 1, so another pass would join nothing. */
  lemma ClosedOff(cn: Contour, e: Entity)
    requires cn.Valid() && !Meets(cn.Orientation(), e.Orientation())
    ensures cn.ent[|cn.ent| - 1].Fits(2, e) == 0 && cn.ent[0].Fits(1, e) == 0
  {
    JoinableIffMeets(cn, e);
  }

  /** Whatever meets a valid contour meets its first or its last member. */
  lemma EndsMeet(cn: Contour, x: Orient)
    requires cn.Valid()
    ensures Meets(cn.Orientation(), x) ==>
              Meets(cn.ent[0].Orientation(), x) || Meets(cn.ent[|cn.ent| - 1].Orientation(), x)
  {
  }

  /** No element of a occurs in b when a + b has no repeats. */
  lemma NoRepeatsApart<T>(a: seq<T>, b: seq<T>)
    requires NoRepeats(a + b)
    ensures forall x :: x in a ==> x !in b
  {
    forall x | x in a
      ensures x !in b
    {
      assert multiset(a + b) == multiset(a) + multiset(b);
      assert x in a + b;
    }
  }

  /** The members of all contours, in order. */
  ghost function Members(cs: seq<Contour>): seq<Entity>
    reads cs
  {
    if cs == [] then [] else Members(cs[..|cs| - 1]) + cs[|cs| - 1].ent
  }

  lemma MembersAppend(cs: seq<Contour>, c: Contour)
    ensures Members(cs + [c]) == Members(cs) + c.ent
  {
    assert (cs + [c])[..|cs|] == cs;
  }

  lemma {:induction false} MembersHas(cs: seq<Contour>, c: Contour, m: Entity)
    requires c in cs && m in c.ent
    ensures m in Members(cs)
  {
    if cs[|cs| - 1] != c {
      assert c in cs[..|cs| - 1];
      MembersHas(cs[..|cs| - 1], c, m);
    }
  }

  /** The box of a valid contour is the least box that encloses its seed's
      endpoints and the box of each other member. */
  lemma ContourBox(cn: Contour, c: Box)
    requires cn.Valid()
    ensures cn.GetBB().Encloses(EndpointBox(cn.seed.StartPoint(), cn.seed.EndPoint()))
    ensures forall m :: m in cn.ent && m != cn.seed ==> cn.GetBB().Encloses(m.GetBB())
    ensures c.Encloses(EndpointBox(cn.seed.StartPoint(), cn.seed.EndPoint())) &&
            (forall m :: m in cn.ent && m != cn.seed ==> c.Encloses(m.GetBB())) ==>
              c.Encloses(cn.GetBB())
  {
    SpanLeast(EndpointBox(cn.seed.StartPoint(), cn.seed.EndPoint()), cn.seed, cn.ent, c);
  }

  /** `cn.append(e) or cn.prepend(e)`: prepend is tried only when append fails. */
  method TryJoin(cn: Contour, e: Entity) returns (joined: bool)
    requires cn.Valid() && e.Valid() && e !in cn.ent
    modifies cn, e
    ensures cn.Valid() && e.Valid()
    ensures joined == old(cn.Joinable(e))
    ensures joined == old(Meets(cn.Orientation(), e.Orientation()))
    ensures !joined ==> unchanged(cn, e)
    ensures old(cn.ent[|cn.ent| - 1].Fits(2, e)) != 0 ==> cn.ent == old(cn.ent) + [e]
    ensures joined && old(cn.ent[|cn.ent| - 1].Fits(2, e)) == 0 ==> cn.ent == [e] + old(cn.ent)
    ensures joined ==> cn.GetBB() == MergeBB(old(cn.GetBB()), e.GetBB())
    ensures joined ==> multiset(cn.ent) == old(multiset(cn.ent)) + multiset{e}
    ensures joined ==> cn.nument == old(cn.nument) + 1
    ensures Reoriented(old(e.Orientation()), e.Orientation())
  {
    JoinableIffMeets(cn, e);
    ghost var front := cn.ent[0].Fits(1, e);
    ghost var back := cn.ent[|cn.ent| - 1].Fits(2, e);
    assert cn.Joinable(e) == (back != 0 || front != 0);
    ghost var members := cn.ent;
    joined := cn.Append(e);
    if !joined {
      assert cn.ent[0].Fits(1, e) == front;
      joined := cn.Prepend(e);
    }
    if joined {
      JoinedMultiset(members, e, cn.ent);
    }
  }

  lemma JoinedMultiset(s: seq<Entity>, e: Entity, t: seq<Entity>)
    requires t == s + [e] || t == [e] + s
    ensures multiset(t) == multiset(s) + multiset{e}
  {
  }

  /** What holds between steps of one Scan pass over `elements`: `orig` holds
      the orientations at the start of the pass, `base` the entities of the
      contour and of `elements`, `n0` the contour length, and the first `n`
      members of `rest` were tried without joining. */
  ghost predicate ScanInv(cn: Contour, elements: seq<Entity>, orig: map<Entity, Orient>,
                          base: multiset<Entity>, n0: int, rest: seq<Entity>, n: int)
    reads cn, cn.ent, set e | e in elements
  {
    && 0 <= n <= |rest|
    && cn.Valid() && NoRepeats(cn.ent + rest)
    && multiset(cn.ent) + multiset(rest) == base
    && n0 <= cn.nument && cn.nument + |rest| == n0 + |elements|
    && (forall e :: e in rest ==> e in elements)
    && (forall e :: e in elements ==>
          e in orig && e.Valid() && if e in rest then e.Orientation() == orig[e]
                                    else Reoriented(orig[e], e.Orientation()))
    && (cn.nument == n0 ==> forall k :: 0 <= k < n ==> !Meets(cn.Orientation(), rest[k].Orientation()))
  }

  /** Deleting an element that has just joined the contour keeps ScanInv. */
  twostate lemma JoinedKeepsInv(cn: Contour, new elements: seq<Entity>, new orig: map<Entity, Orient>,
                                new base: multiset<Entity>, new n0: int, new rest: seq<Entity>, new n: int)
    requires old(allocated(elements)) && old(allocated(orig)) && old(allocated(base)) && old(allocated(rest))
    requires old(ScanInv(cn, elements, orig, base, n0, rest, n)) && n < |rest|
    requires rest[n] !in old(cn.ent) && rest[n] !in rest[..n] + rest[n + 1..]
    requires multiset(rest) == multiset(rest[..n] + rest[n + 1..]) + multiset{rest[n]}
    requires forall x :: x in rest[..n] + rest[n + 1..] <==> x in rest && x != rest[n]
    requires cn.Valid() && rest[n].Valid() && Reoriented(old(rest[n].Orientation()), rest[n].Orientation())
    requires multiset(cn.ent) == old(multiset(cn.ent)) + multiset{rest[n]}
    requires cn.nument == old(cn.nument) + 1
    requires forall x :: x in elements && x != rest[n] ==> unchanged(x)
    ensures ScanInv(cn, elements, orig, base, n0, rest[..n] + rest[n + 1..], n)
  {
    var rest' := rest[..n] + rest[n + 1..];
    NoRepeatsSub(old(cn.ent) + rest, cn.ent + rest');
    assert multiset(cn.ent) + multiset(rest') == old(multiset(cn.ent)) + multiset(rest);
    assert cn.nument + |rest'| == old(cn.nument) + |rest|;
    assert cn.nument != n0;
    assert forall e :: e in rest' ==> e in elements;
    JoinedOrientations(elements, orig, rest, n);
  }

  /** Only the element that joined may have been reversed; the others keep
      their orientation and their validity. */
  twostate lemma JoinedOrientations(new elements: seq<Entity>, new orig: map<Entity, Orient>,
                                    new rest: seq<Entity>, n: int)
    requires old(allocated(elements)) && old(allocated(orig)) && old(allocated(rest)) && 0 <= n < |rest|
    requires old(forall e :: e in elements ==>
                   e in orig && e.Valid() && if e in rest then e.Orientation() == orig[e]
                                             else Reoriented(orig[e], e.Orientation()))
    requires forall x :: x in rest[..n] + rest[n + 1..] <==> x in rest && x != rest[n]
    requires rest[n].Valid() && Reoriented(old(rest[n].Orientation()), rest[n].Orientation())
    requires forall x :: x in elements && x != rest[n] ==> unchanged(x)
    ensures forall e :: e in elements ==>
              e in orig && e.Valid() && if e in rest[..n] + rest[n + 1..] then e.Orientation() == orig[e]
                                        else Reoriented(orig[e], e.Orientation())
  {
    forall x | x in elements
      ensures x in orig && x.Valid()
      ensures if x in rest[..n] + rest[n + 1..] then x.Orientation() == orig[x]
              else Reoriented(orig[x], x.Orientation())
    {
      if x != rest[n] {
        assert x.Orientation() == old(x.Orientation()) && x.Valid() == old(x.Valid());
      }
    }
  }

  /** The body of the inner scan: element n either joins the contour and is
      deleted, or stays and the scan moves past it. */
  method ScanStep(cn: Contour, rest: seq<Entity>, n: int, ghost elements: seq<Entity>,
                  ghost orig: map<Entity, Orient>, ghost base: multiset<Entity>, ghost n0: int)
      returns (rest': seq<Entity>, n': int)
    requires ScanInv(cn, elements, orig, base, n0, rest, n) && n < |rest|
    modifies cn, rest[n]
    ensures ScanInv(cn, elements, orig, base, n0, rest', n')
    ensures |rest'| - n' < |rest| - n
  {
    var e := rest[n];
    RemoveAt(cn.ent, rest, n);
    var joined := TryJoin(cn, e);
    if joined {
      rest', n' := rest[..n] + rest[n + 1..], n;
      JoinedKeepsInv(cn, elements, orig, base, n0, rest, n);
    } else {
      rest', n' := rest, n + 1;
    }
  }

  /** One pass of the inner scan of find_contours: try append, then prepend,
      on each remaining element, deleting every element that joins. */
  method Scan(cn: Contour, elements: seq<Entity>) returns (rest: seq<Entity>)
    requires cn.Valid() && NoRepeats(cn.ent + elements)
    requires forall e :: e in elements ==> e.Valid()
    modifies cn, set e | e in elements
    ensures cn.Valid() && NoRepeats(cn.ent + rest)
    ensures multiset(cn.ent) + multiset(rest) == old(multiset(cn.ent)) + multiset(elements)
    ensures old(cn.nument) <= cn.nument && cn.nument + |rest| == old(cn.nument) + |elements|
    ensures forall e :: e in rest ==> e in elements && e.Orientation() == old(e.Orientation())
    ensures forall e :: e in elements ==> e.Valid() && Reoriented(old(e.Orientation()), e.Orientation())
    ensures cn.nument == old(cn.nument) ==> forall e :: e in rest ==> !Meets(cn.Orientation(), e.Orientation())
  {
    ghost var orig := map e | e in elements :: e.Orientation();
    ghost var base := multiset(cn.ent) + multiset(elements);
    ghost var n0 := cn.nument;
    rest := elements;
    var n := 0;
    while n < |rest|
      invariant ScanInv(cn, elements, orig, base, n0, rest, n)
      decreases |rest| - n
    {
      rest, n := ScanStep(cn, rest, n, elements, orig, base, n0);
    }
  }

  /** The `while True` loop of find_contours: scan again until a whole pass
      joins nothing. */
  method Grow(cn: Contour, elements: seq<Entity>) returns (rest: seq<Entity>)
    requires cn.Valid() && NoRepeats(cn.ent + elements)
    requires forall e :: e in elements ==> e.Valid()
    modifies cn, set e | e in elements
    ensures cn.Valid() && NoRepeats(cn.ent + rest)
    ensures multiset(cn.ent) + multiset(rest) == old(multiset(cn.ent)) + multiset(elements)
    ensures old(cn.nument) <= cn.nument && cn.nument + |rest| == old(cn.nument) + |elements|
    ensures forall e :: e in rest ==> e in elements && e.Orientation() == old(e.Orientation())
    ensures forall e :: e in elements ==> e.Valid() && Reoriented(old(e.Orientation()), e.Orientation())
    ensures forall e :: e in rest ==> !Meets(cn.Orientation(), e.Orientation())
  {
    rest := elements;
    var oldlen := cn.nument;
    while true
      invariant cn.Valid() && NoRepeats(cn.ent + rest)
      invariant multiset(cn.ent) + multiset(rest) == old(multiset(cn.ent)) + multiset(elements)
      invariant oldlen == cn.nument && old(cn.nument) <= cn.nument
      invariant cn.nument + |rest| == old(cn.nument) + |elements|
      invariant forall e :: e in rest ==> e in elements && e.Orientation() == old(e.Orientation())
      invariant forall e :: e in elements ==> e.Valid() && Reoriented(old(e.Orientation()), e.Orientation())
      decreases |rest|
    {
      var remaining := Scan(cn, rest);
      rest := remaining;
      if cn.nument == oldlen {
        break;
      }
      oldlen := cn.nument;
    }
  }
}
