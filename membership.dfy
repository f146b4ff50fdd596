/** Which records may join a cluster: the membership rule checked against the
    first member, the window gate checked against the last member, and the
    mate-region test. */
module Membership {
  import opened Alignments

  /** Backward tolerance of the window gate, absorbing slight sort jitter. */
  const Wiggle := 10

  predicate IsSameStrand(orig: Alignment, cand: Alignment)
  {
    orig.negativeStrand == cand.negativeStrand
  }

  predicate IsSameReference(orig: Alignment, cand: Alignment) {
    orig.referenceName == cand.referenceName
  }

  /** Strand agreement is an equivalence between records. */
  lemma SameStrandEquivalence(a: Alignment, b: Alignment, c: Alignment)
    ensures IsSameStrand(a, a)
    ensures IsSameStrand(a, b) ==> IsSameStrand(b, a)
    ensures IsSameStrand(a, b) && IsSameStrand(b, c) ==> IsSameStrand(a, c)
  {
  }

  /** Reference agreement is an equivalence between records. */
  lemma SameReferenceEquivalence(a: Alignment, b: Alignment, c: Alignment)
    ensures IsSameReference(a, a)
    ensures IsSameReference(a, b) ==> IsSameReference(b, a)
    ensures IsSameReference(a, b) && IsSameReference(b, c) ==> IsSameReference(a, c)
  {
  }

  /** Compares only the first-listed categories; decoding the tag of either
      record can fail, the original's tag being decoded first. */
  function IsSameMobileMapping(orig: Alignment, cand: Alignment): (r: Result<bool>)
    ensures r == InvalidCategory <==> orig.categories.None? || cand.categories.None?
    ensures r == Ok(true) <==>
              FirstCategory(orig).Some? && FirstCategory(orig) == FirstCategory(cand)
  {
    if orig.categories.None? || cand.categories.None? then InvalidCategory
    else Ok(orig.categories.value[0] == cand.categories.value[0])
  }

  /** The membership rule. The conjunction short-circuits as in the source:
      when strand (outside split-read mode) or reference already differ, the
      tags are never decoded, so a bad tag cannot raise. */
  function IsValidAddition(splitRead: bool, orig: Alignment, cand: Alignment): (r: Result<bool>)
    ensures r == Ok(true) <==>
              (splitRead || IsSameStrand(orig, cand)) && IsSameReference(orig, cand) &&
              FirstCategory(orig).Some? && FirstCategory(orig) == FirstCategory(cand)
    ensures r == InvalidCategory <==>
              (splitRead || IsSameStrand(orig, cand)) && IsSameReference(orig, cand) &&
              (orig.categories.None? || cand.categories.None?)
  {
    if !splitRead then
      if !IsSameStrand(orig, cand) then Ok(false)
      else if !IsSameReference(orig, cand) then Ok(false)
      else IsSameMobileMapping(orig, cand)
    else
      if !IsSameReference(orig, cand) then Ok(false)
      else IsSameMobileMapping(orig, cand)
  }

  /** The cluster invariant: every later member is a valid addition to the first. */
  ghost predicate MembersAgree(s: seq<Alignment>, splitRead: bool) {
    forall i :: 0 < i < |s| ==> IsValidAddition(splitRead, s[0], s[i]) == Ok(true)
  }

  /** What the invariant means member by member. */
  lemma MembersAgreeWithFirst(s: seq<Alignment>, splitRead: bool, i: nat)
    requires MembersAgree(s, splitRead)
    requires i < |s|
    ensures s[i].referenceName == s[0].referenceName
    ensures FirstCategory(s[i]) == FirstCategory(s[0])
    ensures !splitRead ==> s[i].negativeStrand == s[0].negativeStrand
    ensures i > 0 ==> FirstCategory(s[0]).Some?
  {
    if i > 0 {
      assert IsValidAddition(splitRead, s[0], s[i]) == Ok(true);
    }
  }

  /** Appending a valid addition against the first member keeps the invariant. */
  lemma AppendKeepsAgreement(s: seq<Alignment>, splitRead: bool, rec: Alignment)
    requires MembersAgree(s, splitRead)
    requires s == [] || IsValidAddition(splitRead, s[0], rec) == Ok(true)
    ensures MembersAgree(s + [rec], splitRead)
  {
    var t := s + [rec];
    assert forall i :: 0 < i < |s| ==> t[i] == s[i];
  }

  /** Because agreement with the first member is transitive, any two members
      of a cluster agree with each other on reference and first category, and
      on strand outside split-read mode. */
  lemma MembersPairwiseAgree(s: seq<Alignment>, splitRead: bool, i: nat, j: nat)
    requires MembersAgree(s, splitRead)
    requires i < |s| && j < |s|
    ensures IsSameReference(s[i], s[j])
    ensures FirstCategory(s[i]) == FirstCategory(s[j])
    ensures !splitRead ==> IsSameStrand(s[i], s[j])
  {
    MembersAgreeWithFirst(s, splitRead, i);
    MembersAgreeWithFirst(s, splitRead, j);
  }

  /** The window gate against the last member: same reference, and a start
      offset from the last member's start within [-Wiggle, searchArea]. */
  predicate WithinSearchArea(last: Alignment, cand: Alignment, searchArea: int)
  {
    cand.referenceName == last.referenceName &&
    cand.alignmentStart <= last.alignmentStart + searchArea &&
    cand.alignmentStart >= last.alignmentStart - Wiggle
  }

  lemma WithinSearchAreaWindow(last: Alignment, cand: Alignment, searchArea: int)
    ensures WithinSearchArea(last, cand, searchArea) <==>
              cand.referenceName == last.referenceName &&
              -Wiggle <= cand.alignmentStart - last.alignmentStart <= searchArea
  {
  }

  /** A wider forward radius never shrinks the window. */
  lemma WithinSearchAreaMonotone(last: Alignment, cand: Alignment, a: int, b: int)
    requires a <= b
    requires WithinSearchArea(last, cand, a)
    ensures WithinSearchArea(last, cand, b)
  {
  }

  /** With the last start at 1000 and radius 50: 1045 and 990 pass, 1051 and 989 do not. */
  lemma WithinSearchAreaExample(last: Alignment, cand: Alignment)
    requires last.alignmentStart == 1000 && cand.referenceName == last.referenceName
    ensures cand.alignmentStart == 1045 ==> WithinSearchArea(last, cand, 50)
    ensures cand.alignmentStart == 990 ==> WithinSearchArea(last, cand, 50)
    ensures cand.alignmentStart == 1051 ==> !WithinSearchArea(last, cand, 50)
    ensures cand.alignmentStart == 989 ==> !WithinSearchArea(last, cand, 50)
  {
  }

  function IsMateSameReference(orig: Alignment, cand: Alignment): (r: bool)
  {
    orig.mateReferenceName == cand.mateReferenceName
  }

  /** Having mates on the same reference is an equivalence between records,
      and the mate-region test refines it. */
  lemma MateSameReferenceEquivalence(a: Alignment, b: Alignment, c: Alignment, region: int)
    ensures IsMateSameReference(a, a)
    ensures IsMateSameReference(a, b) ==> IsMateSameReference(b, a)
    ensures IsMateSameReference(a, b) && IsMateSameReference(b, c) ==> IsMateSameReference(a, c)
    ensures IsMateSameReferenceWithinRegion(a, b, region) ==> IsMateSameReference(a, b)
    ensures region >= 0 ==> (IsMateSameReferenceWithinRegion(a, a, region) <==> IsMateSameReference(a, a))
  {
  }

  function Abs(x: int): (r: nat)
    ensures r == x || r == -x
  {
    if x < 0 then -x else x
  }

  /** Mates on the same reference, the candidate's mate start within `region`
      of the original's, both bounds inclusive. */
  function IsMateSameReferenceWithinRegion(orig: Alignment, cand: Alignment, region: int): (r: bool)
    ensures r <==> orig.mateReferenceName == cand.mateReferenceName &&
                   Abs(cand.mateAlignmentStart - orig.mateAlignmentStart) <= region
  {
    var startSearchRegion := orig.mateAlignmentStart - region;
    var endSearchRegion := orig.mateAlignmentStart + region;
    IsMateSameReference(orig, cand) &&
    cand.mateAlignmentStart >= startSearchRegion && cand.mateAlignmentStart <= endSearchRegion
  }

  /** The mate-region test does not depend on which record is the original. */
  lemma MateRegionSymmetric(a: Alignment, b: Alignment, region: int)
    ensures IsMateSameReferenceWithinRegion(a, b, region) == IsMateSameReferenceWithinRegion(b, a, region)
  {
  }
}
