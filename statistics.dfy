/** The summaries computed over a cluster's member list: the mate-reference
    distribution, read-name categories, per-sample names, extent, read names
    and mapping qualities. Each is a function of the members, in order. */
module Statistics {
  import opened Alignments
  import opened CountMaps

  // ---------------------------------------------------------------------
  // Mate distribution
  // ---------------------------------------------------------------------

  /** A member left out of the mate distribution: only mate-unmapped members, and only when asked. */
  predicate Skipped(rec: Alignment, skipUnmapped: bool) {
    skipUnmapped && rec.mateUnmapped
  }

  /** Mate reference names of the members that are not skipped, in member order. */
  function MateKeys(s: seq<Alignment>, skipUnmapped: bool): (keys: seq<string>)
    decreases |s|
  {
    if s == [] then []
    else
      var init := MateKeys(s[..|s| - 1], skipUnmapped);
      var last := s[|s| - 1];
      if Skipped(last, skipUnmapped) then init else init + [last.mateReferenceName]
  }

  lemma MateKeysStep(s: seq<Alignment>, skipUnmapped: bool, i: nat)
    requires i < |s|
    ensures MateKeys(s[..i + 1], skipUnmapped) ==
              if Skipped(s[i], skipUnmapped) then MateKeys(s[..i], skipUnmapped)
              else MateKeys(s[..i], skipUnmapped) + [s[i].mateReferenceName]
  {
    assert s[..i + 1][..i] == s[..i];
  }

  /** The count map the source builds: mate reference name to number of members. */
  function MateCounts(s: seq<Alignment>, skipUnmapped: bool): (counts: map<string, nat>) {
    Tally(map[], MateKeys(s, skipUnmapped))
  }

  /** How many members have an unmapped mate. */
  function MateUnmappedCount(s: seq<Alignment>): (n: nat)
    ensures n <= |s|
    decreases |s|
  {
    if s == [] then 0
    else MateUnmappedCount(s[..|s| - 1]) + (if s[|s| - 1].mateUnmapped then 1 else 0)
  }

  /** How many members that are not skipped have their mate on `ref`. */
  function MatesOn(s: seq<Alignment>, skipUnmapped: bool, ref: string): (n: nat)
    decreases |s|
  {
    if s == [] then 0
    else
      var last := s[|s| - 1];
      MatesOn(s[..|s| - 1], skipUnmapped, ref) +
        (if !Skipped(last, skipUnmapped) && last.mateReferenceName == ref then 1 else 0)
  }

  /** The distinct mate references of the members that are not skipped. */
  ghost function MateReferences(s: seq<Alignment>, skipUnmapped: bool): (refs: set<string>) {
    set i | 0 <= i < |s| && !Skipped(s[i], skipUnmapped) :: s[i].mateReferenceName
  }

  lemma {:induction false} MateKeysLength(s: seq<Alignment>, skipUnmapped: bool)
    ensures |MateKeys(s, skipUnmapped)| == |s| - (if skipUnmapped then MateUnmappedCount(s) else 0)
    decreases |s|
  {
    if s != [] {
      MateKeysLength(s[..|s| - 1], skipUnmapped);
    }
  }

  lemma {:induction false} MateKeysOccurrences(s: seq<Alignment>, skipUnmapped: bool, ref: string)
    ensures Occurrences(MateKeys(s, skipUnmapped), ref) == MatesOn(s, skipUnmapped, ref)
    decreases |s|
  {
    if s != [] {
      var init := MateKeys(s[..|s| - 1], skipUnmapped);
      MateKeysOccurrences(s[..|s| - 1], skipUnmapped, ref);
      if !Skipped(s[|s| - 1], skipUnmapped) {
        assert (init + [s[|s| - 1].mateReferenceName])[..|init|] == init;
      }
    }
  }

  lemma {:induction false} MateKeysElements(s: seq<Alignment>, skipUnmapped: bool)
    ensures forall ref :: ref in MateKeys(s, skipUnmapped) <==> ref in MateReferences(s, skipUnmapped)
    decreases |s|
  {
    if s != [] {
      var t := s[..|s| - 1];
      MateKeysElements(t, skipUnmapped);
      assert forall i :: 0 <= i < |t| ==> t[i] == s[i];
      assert MateReferences(s, skipUnmapped) ==
        MateReferences(t, skipUnmapped) +
        (if Skipped(s[|s| - 1], skipUnmapped) then {} else {s[|s| - 1].mateReferenceName});
    }
  }

  /** The counts sum to the number of members not skipped; with
      `skipUnmapped` those are exactly the members with a mapped mate. */
  lemma MateCountsSum(s: seq<Alignment>, skipUnmapped: bool)
    ensures SumCounts(MateCounts(s, skipUnmapped)) ==
              |s| - (if skipUnmapped then MateUnmappedCount(s) else 0)
  {
    TallySum(map[], MateKeys(s, skipUnmapped));
    MateKeysLength(s, skipUnmapped);
  }

  /** The entry for a reference counts the members whose mate lies on it;
      references no counted mate lies on have no entry. */
  lemma MateCountsAt(s: seq<Alignment>, skipUnmapped: bool, ref: string)
    ensures ref in MateCounts(s, skipUnmapped) <==> MatesOn(s, skipUnmapped, ref) > 0
    ensures ref in MateCounts(s, skipUnmapped) ==>
              MateCounts(s, skipUnmapped)[ref] == MatesOn(s, skipUnmapped, ref)
  {
    TallyAt(map[], MateKeys(s, skipUnmapped), ref);
    MateKeysOccurrences(s, skipUnmapped, ref);
  }

  /** The keys are the distinct mate references, so their number is the
      number of different mate chromosomes. */
  lemma MateCountsKeys(s: seq<Alignment>, skipUnmapped: bool)
    ensures MateCounts(s, skipUnmapped).Keys == MateReferences(s, skipUnmapped)
  {
    MateKeysElements(s, skipUnmapped);
    forall ref
      ensures ref in MateCounts(s, skipUnmapped) <==> ref in MateReferences(s, skipUnmapped)
    {
      TallyAt(map[], MateKeys(s, skipUnmapped), ref);
    }
  }

  /** The highest count is at most the total, and at least one when anything was counted. */
  lemma HighestCountBounds(s: seq<Alignment>, skipUnmapped: bool)
    ensures MaxValue(MateCounts(s, skipUnmapped)) <= |MateKeys(s, skipUnmapped)|
    ensures |MateKeys(s, skipUnmapped)| > 0 ==> MaxValue(MateCounts(s, skipUnmapped)) > 0
  {
    var keys := MateKeys(s, skipUnmapped);
    var m := MateCounts(s, skipUnmapped);
    MaxValueAtMostSum(m);
    TallySum(map[], keys);
    if |keys| > 0 {
      TallyAt(map[], keys, keys[0]);
      assert m[keys[0]] <= MaxValue(m);
    }
  }

  /** The share of counted mates on the most frequent reference, in percent,
      100 by convention when nothing was counted. */
  function Percentage(highest: nat, total: nat): (p: real)
    ensures total == 0 ==> p == 100.0
    ensures 0 < highest <= total ==> 0.0 < p <= 100.0
  {
    if total == 0 then 100.0
    else
      assert highest <= total ==> (highest as real) / (total as real) <= 1.0;
      (highest as real) / (total as real) * 100.0
  }

  // ---------------------------------------------------------------------
  // Read-name categories
  // ---------------------------------------------------------------------

  /** The read-name prefixes that mark how a read pair was mapped. */
  datatype ReadNamePrefixes = ReadNamePrefixes(multipleMapping: string, uniqueMapping: string, unmappedMapping: string)

  datatype MappingCategory = MultipleHit | UniqueHit | UnmappedHit | Unclassified

  /** The prefix tests run in the order multiple, unique, unmapped; the first match wins. */
  function Classify(readName: string, p: ReadNamePrefixes): (c: MappingCategory) {
    if p.multipleMapping <= readName then MultipleHit
    else if p.uniqueMapping <= readName then UniqueHit
    else if p.unmappedMapping <= readName then UnmappedHit
    else Unclassified
  }

  /** How many members fall in category `c`. */
  function CountCategory(s: seq<Alignment>, p: ReadNamePrefixes, c: MappingCategory): (n: nat)
    decreases |s|
  {
    if s == [] then 0
    else CountCategory(s[..|s| - 1], p, c) + (if Classify(s[|s| - 1].readName, p) == c then 1 else 0)
  }

  /** Every member falls in exactly one category, so the three counted ones
      together are at most the cluster size. */
  lemma {:induction false} CategoriesPartition(s: seq<Alignment>, p: ReadNamePrefixes)
    ensures CountCategory(s, p, MultipleHit) + CountCategory(s, p, UniqueHit) +
            CountCategory(s, p, UnmappedHit) + CountCategory(s, p, Unclassified) == |s|
    ensures CountCategory(s, p, MultipleHit) + CountCategory(s, p, UniqueHit) +
            CountCategory(s, p, UnmappedHit) <= |s|
    decreases |s|
  {
    if s != [] {
      CategoriesPartition(s[..|s| - 1], p);
    }
  }

  /** Three reads, one per prefix, give one hit in each category (with
      prefixes none of which starts another). */
  lemma CategoriesExample(a: Alignment, b: Alignment, c: Alignment)
    requires a.readName == "UU_read1" && b.readName == "UM_read2" && c.readName == "UX_read3"
    ensures var p := ReadNamePrefixes("UM", "UU", "UX");
            CountCategory([a, b, c], p, UniqueHit) == 1 &&
            CountCategory([a, b, c], p, MultipleHit) == 1 &&
            CountCategory([a, b, c], p, UnmappedHit) == 1
  {
    var p := ReadNamePrefixes("UM", "UU", "UX");
    assert a.readName[1] == 'U' && "UM"[1] == 'M';
    assert Classify(a.readName, p) == UniqueHit;
    assert Classify(b.readName, p) == MultipleHit;
    assert Classify(c.readName, p) == UnmappedHit;
    assert [a, b, c][..2] == [a, b];
    assert [a, b][..1] == [a];
    assert [a][..0] == [];
    forall k: MappingCategory
      ensures CountCategory([a, b, c], p, k) ==
                (if k == UniqueHit then 1 else 0) + (if k == MultipleHit then 1 else 0) +
                (if k == UnmappedHit then 1 else 0)
    {
      assert CountCategory([a], p, k) == (if k == UniqueHit then 1 else 0);
      assert CountCategory([a, b], p, k) == CountCategory([a], p, k) + (if k == MultipleHit then 1 else 0);
    }
  }

  // ---------------------------------------------------------------------
  // Samples
  // ---------------------------------------------------------------------

  datatype SampleMode = MultiSample | SingleSample

  /** Sentinel sample for a record without a read group in multi-sample mode. */
  const NoReadGroup := "NoRG"

  /** The sample a member is attributed to. */
  function SampleName(rec: Alignment, mode: SampleMode): (name: string) {
    match mode
    case MultiSample => if rec.readGroupSample.None? then NoReadGroup else rec.readGroupSample.value
    case SingleSample => rec.sampleNameTag
  }

  function SampleNames(s: seq<Alignment>, mode: SampleMode): (names: seq<string>)
    ensures |names| == |s|
    ensures forall i :: 0 <= i < |s| ==> names[i] == SampleName(s[i], mode)
  {
    seq(|s|, i requires 0 <= i < |s| => SampleName(s[i], mode))
  }

  /** In multi-sample mode a member without a read group is still counted, under "NoRG". */
  lemma MissingReadGroupCounted(counts: map<string, nat>, s: seq<Alignment>, i: nat)
    requires i < |s| && s[i].readGroupSample.None?
    ensures NoReadGroup in Tally(counts, SampleNames(s, MultiSample))
    ensures Get(Tally(counts, SampleNames(s, MultiSample)), NoReadGroup) >= Get(counts, NoReadGroup) + 1
  {
    var names := SampleNames(s, MultiSample);
    assert names[i] == NoReadGroup;
    TallyAt(counts, names, NoReadGroup);
  }

  // ---------------------------------------------------------------------
  // Extent
  // ---------------------------------------------------------------------

  /** The running maximum of alignment ends, starting from 0. */
  function MaxEnd(s: seq<Alignment>): (end: int)
    ensures end >= 0
    ensures forall i :: 0 <= i < |s| ==> s[i].alignmentEnd <= end
    ensures end == 0 || exists i :: 0 <= i < |s| && s[i].alignmentEnd == end
    decreases |s|
  {
    if s == [] then 0
    else
      var rest := MaxEnd(s[..|s| - 1]);
      assert forall i :: 0 <= i < |s| - 1 ==> s[..|s| - 1][i] == s[i];
      if s[|s| - 1].alignmentEnd > rest then s[|s| - 1].alignmentEnd else rest
  }

  ghost predicate StartsSorted(s: seq<Alignment>) {
    forall i, j :: 0 <= i <= j < |s| ==> s[i].alignmentStart <= s[j].alignmentStart
  }

  /** The cluster start: the first member's start when the input is assumed
      sorted, and 0 otherwise. */
  function ClusterStart(s: seq<Alignment>, assumeSorted: bool): (start: int)
    requires assumeSorted ==> s != []
    ensures !assumeSorted ==> start == 0
    ensures assumeSorted ==> start == s[0].alignmentStart
    ensures assumeSorted ==> exists i :: 0 <= i < |s| && s[i].alignmentStart == start
    ensures assumeSorted && StartsSorted(s) ==> forall i :: 0 <= i < |s| ==> start <= s[i].alignmentStart
  {
    if assumeSorted then s[0].alignmentStart else 0
  }

  /** The span length: end - start + 1. */
  function ClusterSize(s: seq<Alignment>, assumeSorted: bool): (size: int)
    requires assumeSorted ==> s != []
    ensures forall i :: 0 <= i < |s| ==>
              size >= s[i].alignmentEnd - ClusterStart(s, assumeSorted) + 1
  {
    MaxEnd(s) - ClusterStart(s, assumeSorted) + 1
  }

  /** Starts [100, 105, 110] and ends [150, 120, 200], sorted, give the span [100, 200] of length 101. */
  lemma ExtentExample(a: Alignment, b: Alignment, c: Alignment)
    requires a.alignmentStart == 100 && b.alignmentStart == 105 && c.alignmentStart == 110
    requires a.alignmentEnd == 150 && b.alignmentEnd == 120 && c.alignmentEnd == 200
    ensures ClusterStart([a, b, c], true) == 100
    ensures MaxEnd([a, b, c]) == 200
    ensures ClusterSize([a, b, c], true) == 101
  {
    assert [a, b, c][..2] == [a, b];
    assert [a, b][..1] == [a];
    assert [a][..0] == [];
  }

  // ---------------------------------------------------------------------
  // Per-member fields in member order
  // ---------------------------------------------------------------------

  function ReadNames(s: seq<Alignment>): (names: seq<string>)
    ensures |names| == |s|
    ensures forall i :: 0 <= i < |s| ==> names[i] == s[i].readName
  {
    seq(|s|, i requires 0 <= i < |s| => s[i].readName)
  }

  function MappingQualities(s: seq<Alignment>): (qualities: seq<int>)
    ensures |qualities| == |s|
    ensures forall i :: 0 <= i < |s| ==> qualities[i] == s[i].mappingQuality
  {
    seq(|s|, i requires 0 <= i < |s| => s[i].mappingQuality)
  }
}
