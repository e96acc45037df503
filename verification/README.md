# Contour stitching of DXF lines and arcs

This project models the geometric core of a DXF post-processor and proves
properties of the model. The core reads lines and arcs from a drawing and
joins those whose endpoints coincide into ordered chains called contours.
Anything that joins nothing is handed back as a leftover line or arc. The
project also models the output-file naming and the ENTITIES section markers
of the DXF writer.

The model follows the source file by file:

- `geom.dfy` (module `Geom`) holds the `Entity` class: a line or an arc with
  mutable endpoints, a swapped flag and a fixed bounding box. It also holds
  the endpoint test `fits`, the in-place reversal `swap`, the sort order on
  the `(xmin, ymin)` corner, `merge_bb`, and the endpoint tolerance
  `delta = 0.005`. Coordinates are unbounded reals.
- `contours.dfy` (module `Contours`) holds the `Contour` class, whose fields
  `append` and `prepend` update in place. Its invariant `Valid` fixes the
  bounding box exactly: it is the endpoint box of the seed (the entity the
  contour was created from) merged with the box of every other member. It also holds the two inner loops
  of `find_contours`:
  - `Scan` is the `while n < len(elements)` pass, which deletes every element
    that joins;
  - `Grow` is the `while True` loop that repeats passes until one joins
    nothing.
- `stitch.dfy` (module `Stitch`) holds the outer loop of `find_contours`.
  The loop takes seeds from the front of the working list, keeps contours of
  more than one member, and sorts the leftover seeds into lines and arcs.
  Its invariant `FindInv` combines four things:
  - every entity is valid and at most reversed;
  - the kept contours are valid;
  - members, leftovers and the work still to do partition the input;
  - nothing more could have been joined (`Apart`).
- `helpers.dfy` (module `Helpers`) holds `_frange` and `find_entities`.
- `gerber.dfy` (module `Gerber`) holds `newname`, `start_entities` and
  `end_entities` from dxfgerber.py.
- `wrappers.dfy` holds the `Result` type. The source's `assert` and `raise`
  statements become `Failure` results.

## Model

| member | source | states |
|---|---|---|
| Geom.NearSymmetric | dxfgeom.py:65-78 | coincidence within delta on both axes does not depend on which point comes first |
| Geom.EndpointBox | dxfgeom.py:47-51 | the box built from the two endpoints is well formed, holds both endpoints, and lies inside every box that holds them |
| Geom.MergeBB | dxfgeom.py:366-373 | the merged box encloses both boxes; each of its coordinates comes from one of the inputs; two well-formed boxes give a well-formed box |
| Geom.MergeBBLeast | dxfgeom.py:366-373 | every box that encloses both inputs encloses the merged box, so it is the smallest such box |
| Geom.MergeBBKeepsPoints | dxfgeom.py:366-373 | a point of either box is a point of the merged box |
| Geom.FlipInvolution | dxfgeom.py:86-90 | swapping twice restores the endpoints and the swapped flag |
| Geom.FlipKeepsTouches | dxfgeom.py:86-90 | reversing an entity does not change whether it has an endpoint within delta of a point |
| Geom.MeetsSymmetric | dxfgeom.py:55-79 | two entities meet (some endpoint of one within delta of some endpoint of the other) symmetrically |
| Geom.MeetsFlip | dxfgeom.py:86-90 | reversing either entity does not change whether the two meet |
| Geom.Entity.Line | dxfgeom.py:137-139 | a new line runs from (x1, y1) to (x2, y2), is not swapped, has the endpoint box, and is valid |
| Geom.Entity.Arc | dxfgeom.py:178-206 | a new arc has the given endpoints, is not swapped, has the given box (which only widens the endpoint box), and is valid |
| Geom.Entity.Fits | dxfgeom.py:55-79 | fits answers 0, 1 or 2 |
| Geom.Entity.FitsMeaning | dxfgeom.py:55-79 | 2 iff the other's start is within delta of the chosen end; 1 iff its start is not but its end is; 0 iff the index is neither 1 nor 2 or neither endpoint of the other is within delta |
| Geom.Entity.Swap | dxfgeom.py:86-90 | the endpoints are exchanged and the flag toggled; the bounding box and validity do not change |
| Geom.BoxHoldsEnds | dxfgeom.py:81-110 | the box getbb returns holds both points startpoint and endpoint return, for a valid entity; those points are the ends fits compares at index 1 and index 2 |
| Geom.Less | dxfgeom.py:112-120 | a < b iff a.xmin < b.xmin, or the xmin are equal and a.ymin < b.ymin |
| Geom.Greater | dxfgeom.py:122-128 | a > b iff a.xmin > b.xmin, or the xmin are equal and a.ymin > b.ymin |
| Geom.GreaterIsConverse | dxfgeom.py:112-128 | a > b exactly when b < a |
| Geom.LessStrictOrder | dxfgeom.py:112-120 | < is irreflexive and transitive |
| Geom.LessTrichotomy | dxfgeom.py:112-132 | exactly one of a < b, a == b and b < a holds |
| Geom.Equal | dxfgeom.py:130-132 | a == b iff neither a < b nor b < a |
| Geom.EqualIgnoresMaxima | dxfgeom.py:130-132 | xmax and ymax play no part in == |
| Geom.LengthSquaredAsWritten | dxfgeom.py:159-163 | the squared length as written is never negative, and it equals the true squared length whenever x1 equals y1 (so the slip in the formula goes unseen on such lines) |
| Geom.LengthAsWrittenDependsOnDirection | dxfgeom.py:159-163 | as written, the line from (0, 0) to (0, 1) has squared length 1, and the same line reversed has 0 |
| Geom.LengthSquared | dxfgeom.py:159-163 | the corrected squared length is never negative |
| Geom.LengthSquaredSymmetric | dxfgeom.py:159-163 | the corrected squared length is the same in both directions |
| Contours.Contour.constructor | dxfgeom.py:274-279 | a new contour holds just the seed and records it as its seed, has nument 1, runs from the seed's start to its end, takes its box from the seed's endpoints only, and is valid |
| Contours.SpanAppend | dxfgeom.py:290-293 | the box of a contour with e appended is its old box merged with what e adds |
| Contours.SpanPrepend | dxfgeom.py:309-312 | the box of a contour with e prepended is its old box merged with what e adds, the same as if e had been appended |
| Contours.SpanLeast | dxfgeom.py:366-373 | the merged-up box encloses the seed's endpoint box and every other member's box, and lies inside every box that encloses all of them |
| Contours.FormsAppend | dxfgeom.py:290-297 | an entity that starts within delta of the end becomes the last member: the chain, the box (merged with the entity's), and the end point follow |
| Contours.FormsPrepend | dxfgeom.py:309-316 | an entity that ends within delta of the start becomes the first member: the chain, the box (merged with the entity's), and the start point follow |
| Contours.ContourBox | dxfgeom.py:274-317 | a valid contour's box is the least box enclosing its seed's endpoints and every other member's box |
| Contours.Contour.Append | dxfgeom.py:281-298 | it succeeds iff the last member's end 2 fits e; on failure nothing changes; on success e is the new last member, nument grows by 1, the box becomes the merge with e's box, e is reversed iff fits answered 1, the contour ends where e now ends, the new joint is within delta, and validity is kept |
| Contours.Contour.AttachLast | dxfgeom.py:290-297 | an entity that starts within delta of the contour's end becomes the last member; nument, the box and the end point follow, and validity is kept |
| Contours.Contour.Prepend | dxfgeom.py:300-317 | it succeeds iff the first member's end 1 fits e; on failure nothing changes; on success e is inserted at index 0, nument grows by 1, the box is merged, e is reversed iff fits answered 2, the contour starts where e now starts, the new joint is within delta, and validity is kept |
| Contours.Contour.AttachFirst | dxfgeom.py:309-316 | an entity that ends within delta of the contour's start becomes the first member; nument, the box and the start point follow, and validity is kept |
| Contours.ChainedAppend | dxfgeom.py:287-297 | appending an entity that starts within delta of the last member's end keeps consecutive members touching |
| Contours.ChainedPrepend | dxfgeom.py:306-316 | prepending an entity that ends within delta of the first member's start keeps consecutive members touching |
| Contours.BoxGrows | dxfgeom.py:292-293 | the merged box still holds every endpoint of every member, old and new |
| Contours.MeetsReoriented | dxfgeom.py:294-295 | an entity that was possibly reversed meets the same entities as before |
| Contours.JoinableIffMeets | dxfgeom.py:453 | on a valid contour, `append(e) or prepend(e)` can succeed iff an endpoint of e is within delta of the contour's start or end |
| Contours.ClosedOff | dxfgeom.py:450-459 | an element that meets neither end of the contour fits neither the last member at end 2 nor the first member at end 1, so a further pass joins nothing |
| Contours.EndsMeet | dxfgeom.py:453 | whatever meets a valid contour meets its first or its last member |
| Contours.RemoveAt | dxfgeom.py:454 | deleting element n removes exactly that element, which occurred once and is not in the contour |
| Contours.TryJoin | dxfgeom.py:453 | it joins iff e meets the contour; e is appended whenever the last member's end 2 fits it, and prepended only otherwise; on success nument grows by 1 and the box becomes the merge with e's box; on failure nothing changes; e is at most reversed; the contour stays valid, so its box stays the merge of its members' boxes |
| Contours.JoinedKeepsInv | dxfgeom.py:453-454 | deleting an element that has just joined keeps the scan invariant |
| Contours.ScanStep | dxfgeom.py:452-456 | one step of the pass keeps the scan invariant and makes progress |
| Contours.Scan | dxfgeom.py:451-456 | after one pass the contour is valid, so its box is the merge of the seed's endpoint box and the other members' boxes; contour members and remaining elements are the old ones without repeats; the remaining elements keep their orientation and the others are at most reversed; and if the pass joined nothing, no remaining element meets the contour |
| Contours.Grow | dxfgeom.py:449-459 | the loop ends with a valid contour (its box the merge of its seed's endpoint box and its other members' boxes) that no remaining element meets, nothing lost or duplicated, and every element at most reversed |
| Stitch.Seed | dxfgeom.py:447-459 | a seed grown over the remaining elements gives a valid contour whose seed is that entity (so its box is the seed's endpoint box merged with the other members' boxes) and a rest that together hold the seed and the elements once each |
| Stitch.SeedAlone | dxfgeom.py:460-466 | a contour of one member holds only the seed, so the rest is the other elements |
| Stitch.LeftApart | dxfgeom.py:462-466 | handing back a seed that meets nothing still to do keeps the "nothing could have been joined" part of the invariant |
| Stitch.LeftReordered | dxfgeom.py:463-466 | the invariant does not depend on how the leftovers are split between lines and arcs |
| Stitch.KeptKeepsInv | dxfgeom.py:460-461 | keeping a contour of more than one member keeps FindInv |
| Stitch.LeftKeepsInv | dxfgeom.py:462-466 | handing the seed back as a leftover keeps FindInv |
| Stitch.SeedKeepsInv | dxfgeom.py:447-466 | one seed keeps FindInv for whichever outcome it has, and removes at least the seed from the work |
| Stitch.FindStep | dxfgeom.py:446-466 | one outer iteration keeps FindInv, sends leftover lines to remlines and arcs to remarcs, and shortens the work |
| Stitch.FindStart | dxfgeom.py:442-445 | FindInv holds when everything is still to do |
| Stitch.FindDone | dxfgeom.py:467 | with no work left, FindInv gives what find_contours returns |
| Stitch.FindLoop | dxfgeom.py:446-467 | the outer loop ends; it partitions the input into contour members and leftovers; every contour is valid, so its box is exactly the merge of its seed's endpoint box and its other members' boxes; no contour end meets a leftover, no two leftovers meet, and no two contours' ends meet |
| Stitch.FindContours | dxfgeom.py:434-467 | every input entity ends up exactly once, as a member of a returned contour or as a leftover; every contour is valid with nument > 1, so its box is exactly its seed's endpoint box merged with its other members' boxes; leftover lines are lines and leftover arcs are arcs; entities are at most reversed and leftovers not at all; no further join is possible |
| Helpers.RangeCheck | dxfgeom.py:348-353 | the range is accepted iff start differs from end, the step is not 0, and the step points from start towards end; each refusal carries its own message |
| Helpers.FRange | dxfgeom.py:338-364 | it fails exactly when the checks fail, with their message; otherwise the list starts at start, steps by step, has every value before the last short of end and the last at or past end, and holds ceil((end - start) / step) + 1 values |
| Helpers.IndicesFrom | dxfgeom.py:397 | the indices from i on where el holds ename are in range, increasing, and complete |
| Helpers.IndicesFromCount | dxfgeom.py:395-397 | there are as many of them as occurrences of ename from i on |
| Helpers.FindEntities | dxfgeom.py:389-398 | the result lists, in increasing order, exactly the indices where el holds ename, and its length is el.count(ename) |
| Gerber.StripDigits | dxfgerber.py:72 | rstrip of the digits leaves a prefix that does not end in a digit, and everything it removed is digits |
| Gerber.Decimal | dxfgerber.py:79 | str(n) is a nonempty string of digits without a leading zero unless n is 0 |
| Gerber.DecimalRoundTrip | dxfgerber.py:76-79 | int(str(n)) == n |
| Gerber.StripDigitsAppended | dxfgerber.py:72 | digits appended to a stem that does not end in a digit are exactly what rstrip removes |
| Gerber.NewName | dxfgerber.py:65-80 | a new name is itself a DXF name, ending in ".dxf" after at least one character; a refusal carries one of the two messages of the source |
| Gerber.NewNameFails | dxfgerber.py:67-71 | newname refuses a name without the exact extension ".dxf" or ".DXF" ("probably not a DXF file!") and the bare extension ("zero-length file name!"), and accepts every other name |
| Gerber.NewNameValue | dxfgerber.py:72-79 | a new name is the stem, the decimal form of the old counter plus one, and ".dxf" |
| Gerber.NewNameIncrements | dxfgerber.py:65-80 | a new name ends in ".dxf", keeps the old stem, carries the old counter plus one, and is itself accepted by newname |
| Gerber.NewNameDropsZeros | dxfgerber.py:73-79 | "part007.dxf" becomes "part8.dxf" |
| Gerber.NewNameRefusesMixedCase | dxfgerber.py:67-68 | "part.Dxf" is refused |
| Gerber.StartEntities | dxfgerber.py:56-58 | start_entities is the DXF group 0/SECTION followed by the group 2/ENTITIES |
| Gerber.EndEntities | dxfgerber.py:60-63 | end_entities is the group 0/ENDSEC followed by the group 0/EOF, without the final newline |

## Left out

- Arc trigonometry: the centre, radius and angles; endpoints from cos and sin; the quadrant refinement of the box, with its Python 2 integer division at dxfgeom.py:194; `_gensegments`; and `Arc.length`. These are floating-point trigonometry with no exact real model. An arc is an entity whose endpoints and box are given. The box must enclose the endpoint box, since the refinement only ever widens it.
- `Line.length` and `Contour.length` take a square root. Only the squared line length is modelled, for the finding below.
- `dxfdata`, `pdfdata` and `__str__` are text formatting.
- `read_entities` is file input, and `line_from_elist`/`arc_from_elist` parse floats from text.
- `dxf_header` reads the clock, and `main` and dxf2pdf.py are command-line and file glue. The rendering modules they import are not part of this model.
- Floating point: coordinates are exact reals. Rounding in the delta comparisons and in the repeated addition of `_frange` is not modelled.
- The `isinstance` assertions on entity arguments are enforced by Dafny's types.
- `Contour` is a subclass of `Entity` in the source and a separate class here, with the fields and accessors it uses. The Entity methods a contour inherits (`fits`, `swap`, the order) are not applied to contours by the core.
- Contours.Contour.Append: the model reverses e before extending the member list and the box, while the source reverses it after. The two steps touch different objects, so the final state is the same.
- Contours.Contour.Prepend: the same reordering as Append.
- Contours.Contour.Append reverses the candidate when fits answers 1 (its end touches), as dxfgeom.py:294-295 does.
- Stitch.FindContours: requires the input entities to be distinct objects and valid (box holding both endpoints). The source does not check distinctness; an object listed twice could join its own contour, which the model does not describe. Validity holds for every entity the Line and Arc constructors build.
- Stitch.FindContours: an entity that is neither a line nor an arc is dropped by the source. Kind has only those two values, so this case does not arise in the model.
- Geom.Less: `__lt__` returns None when the xmin are equal and a.ymin is not smaller. It is modelled as false, which is how callers treat None.
- Geom.Greater: the same None-for-false reading as Less.
- Helpers.FRange: the assertions become Failure results carrying the assertion's message. Running Python with assertions disabled is not modelled.
- Gerber.NewName: ValueError becomes a Failure result with the same message.

## Findings

| source | as written | input that shows it | evidently intended | confidence | as-written member | corrected member |
|---|---|---|---|---|---|---|
| dxfgeom.py:162 | `dy = self.y2-self.x1` in `Line.length` | the line from (0, 0) to (0, 1) has length 1; after `swap` it runs from (0, 1) to (0, 0) and has length 0 | `dy = self.y2-self.y1`, so that the length is the distance between the endpoints whatever the direction | not executed | Geom.LengthAsWrittenDependsOnDirection | Geom.LengthSquaredSymmetric |
