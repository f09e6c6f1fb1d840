/**
 From a family and a member to an index of the 256-colour palette.

 Family heads (member 1) sit three indices apart from 23 upwards. The other
 members are placed around the head by a zig-zag offset: even families count
 up from member 0 to member 5 and then jump below the head for members 6 to
 9; odd families do the mirror image.
 */
module Palette {
  import opened Decomposition
  import opened Families

  /** The script's `odd`: -1 for an even family, +1 for an odd one. The sign
      starts at -1 for family 0 and flips from each family to the next. */
  function Sign(fam: Family): (odd: int)
    ensures odd == -1 || odd == 1
    ensures fam == 0 ==> odd == -1
    ensures fam > 0 ==> odd == -Sign(fam - 1)
    decreases fam
  {
    if fam % 2 == 0 then -1 else 1
  }

  /** The head colour of a family, the colour of its member 1. Heads lie
      three apart from 23 to 221, and the family is read back from its head. */
  function Head(fam: Family): (head: int)
    ensures 23 <= head <= 221
    ensures head % 3 == 2 && (head - 23) / 3 == fam
  {
    fam * 3 + 23
  }

  /** The script's `mod`: how far a member lands from its family's head. */
  function Offset(fam: Family, mem: Digit): (mod: int)
    ensures -5 <= mod <= 5
    ensures mem == 1 <==> mod == 0
  {
    var odd := Sign(fam);
    if mem > 5 then (mem - 4) * odd else (mem - 1) * (odd * -1)
  }

  /** The colour index of member `mem` of family `fam`. */
  function Colour(fam: Family, mem: Digit): (col: int)
    ensures 18 <= col <= 225
    ensures Head(fam) - 5 <= col <= Head(fam) + 5
    ensures mem == 1 <==> col == Head(fam)
  {
    Head(fam) + Offset(fam, mem)
  }

  /** The offsets of an even family, for members 0 to 9. */
  const EvenOffsets: seq<int> := [-1, 0, 1, 2, 3, 4, -2, -3, -4, -5]

  /** An even family takes its offsets from the table. */
  lemma EvenOffsetTable(fam: Family, mem: Digit)
    requires fam % 2 == 0
    ensures Offset(fam, mem) == EvenOffsets[mem]
  {
  }

  /** Families of opposite parity place every member on opposite sides of
      their heads, at the same distance. */
  lemma OffsetMirror(f: Family, g: Family, mem: Digit)
    requires f % 2 != g % 2
    ensures Offset(f, mem) == -Offset(g, mem)
  {
    assert Sign(f) == -Sign(g);
  }

  /** Within one family the ten members get ten different colours. */
  lemma ColourInjective(fam: Family, m1: Digit, m2: Digit)
    ensures Colour(fam, m1) == Colour(fam, m2) <==> m1 == m2
  {
  }

  /** Member 0 lands next to the head: one below it in an even family, one
      above it in an odd family. */
  lemma MemberZeroBesideHead(fam: Family)
    ensures Colour(fam, 0) == Head(fam) + (if fam % 2 == 0 then -1 else 1)
  {
  }

  /** The smallest and largest colours that any family and member produce. */
  lemma ColourRangeTight()
    ensures Colour(0, 9) == 18
    ensures Colour(66, 5) == 225
    ensures Colour(0, 1) == 23 && Colour(66, 1) == 221
  {
  }

  /** Members 0, 1 and 2 occupy the head and its two neighbours. */
  lemma SmallMembersAroundHead(fam: Family, mem: Digit)
    requires mem <= 2
    ensures Head(fam) - 1 <= Colour(fam, mem) <= Head(fam) + 1
  {
  }

  /** For members 0 to 2 the family can be read back from the colour. */
  lemma FamilyFromColour(fam: Family, mem: Digit)
    requires mem <= 2
    ensures (Colour(fam, mem) - 22) / 3 == fam
  {
  }

  /** Hosts with members 0 to 2 from different families never share a
      colour. */
  lemma NoSmallMemberCollision(f1: Family, m1: Digit, f2: Family, m2: Digit)
    requires m1 <= 2 && m2 <= 2
    ensures Colour(f1, m1) == Colour(f2, m2) ==> f1 == f2 && m1 == m2
  {
  }
}
