/** The cluster itself: an append-only list of alignment records that all
    support one candidate mobile-element insertion, with the counters the
    consensus record is built from. */
module MateClusters {
  import opened Alignments
  import opened Membership
  import opened CountMaps
  import opened Statistics
  import opened Text
  import opened Consensus

  /** The window gate lets a record start up to Wiggle positions before the
      last member, so under assume_sorted the cluster start (the first
      member's start) need not be the least start of the members: a second
      record 5 positions upstream of the first passes both checks. */
  lemma FirstStartNotLeast(a: Alignment, b: Alignment)
    requires a.referenceName == b.referenceName && a.negativeStrand == b.negativeStrand
    requires a.categories.Some? && b.categories.Some? && a.categories.value[0] == b.categories.value[0]
    requires a.alignmentStart == 1000 && b.alignmentStart == 995
    ensures WithinSearchArea(a, b, 50)
    ensures IsValidAddition(false, a, b) == Ok(true) && MembersAgree([a, b], false)
    ensures ClusterStart([a, b], true) > b.alignmentStart
  {
    assert IsValidAddition(false, a, b) == Ok(true);
    assert [a, b][1] == b;
  }

  class MateCluster {
    /** The members, in the order they were accepted. */
    var members: seq<Alignment>
    const assumeSorted: bool
    const splitRead: bool
    const sampleCalling: SampleMode
    var multipleHits: nat
    var uniqueHits: nat
    var unmappedHits: nat
    /** Per-sample counts; never cleared, so every count of samples adds to it. */
    var sampleCount: map<string, nat>

    /** Every member was a valid addition against the first one. */
    ghost predicate Valid()
      reads this
    {
      MembersAgree(members, splitRead)
    }

    constructor (split: bool, sorted: bool, sample: SampleMode)
      ensures Valid()
      ensures splitRead == split && assumeSorted == sorted && sampleCalling == sample
      ensures members == [] && sampleCount == map[]
      ensures multipleHits == 0 && uniqueHits == 0 && unmappedHits == 0
    {
      splitRead := split;
      assumeSorted := sorted;
      sampleCalling := sample;
      members := [];
      multipleHits, uniqueHits, unmappedHits := 0, 0, 0;
      sampleCount := map[];
    }

    /** Offers a record: the first always joins, later ones only when they are
        a valid addition against the first member. An undecodable ME tag is a
        rejection, not an error. */
    method Add(rec: Alignment) returns (added: bool)
      requires Valid()
      modifies this`members
      ensures Valid()
      ensures added <==> old(members) == [] || IsValidAddition(splitRead, old(members)[0], rec) == Ok(true)
      ensures members == if added then old(members) + [rec] else old(members)
    {
      if |members| == 0 {
        AppendKeepsAgreement(members, splitRead, rec);
        members := members + [rec];
        return true;
      }
      var valid := IsValidAddition(splitRead, members[0], rec);
      match valid {
        case Ok(accept) =>
          if accept {
            AppendKeepsAgreement(members, splitRead, rec);
            members := members + [rec];
          }
          added := accept;
        case InvalidCategory =>
          added := false;
      }
    }

    /** The window gate: always open for an empty cluster, otherwise judged
        against the last member. */
    function IsWithinSearchArea(rec: Alignment, searchArea: int): (r: bool)
      reads this
      ensures members == [] ==> r
      ensures members != [] ==> (r <==> WithinSearchArea(members[|members| - 1], rec, searchArea))
    {
      members == [] || WithinSearchArea(members[|members| - 1], rec, searchArea)
    }

    /** Counts the members per mate reference, leaving out members with an
        unmapped mate when `skipUnmapped` holds. */
    method RetrieveMateAlignments(skipUnmapped: bool) returns (countMap: map<string, nat>)
      ensures countMap == MateCounts(members, skipUnmapped)
    {
      countMap := map[];
      var i := 0;
      while i < |members|
        invariant 0 <= i <= |members|
        invariant countMap == Tally(map[], MateKeys(members[..i], skipUnmapped))
      {
        var rec := members[i];
        MateKeysStep(members, skipUnmapped, i);
        if skipUnmapped && rec.mateUnmapped {
          i := i + 1;
          continue;
        }
        var ref := rec.mateReferenceName;
        TallySnoc(map[], MateKeys(members[..i], skipUnmapped), ref);
        if ref in countMap {
          countMap := countMap[ref := countMap[ref] + 1];
        } else {
          countMap := countMap[ref := 1];
        }
        i := i + 1;
      }
      assert members[..i] == members;
    }

    /** The largest count and the total of a count map, visiting its keys in
        an unspecified order. */
    static method HighestAndTotal(countMap: map<string, nat>) returns (highestCount: nat, total: nat)
      ensures highestCount == MaxValue(countMap)
      ensures total == SumCounts(countMap)
    {
      total := 0;
      highestCount := 0;
      var remaining := countMap.Keys;
      ghost var visited: set<string> := {};
      assert Restrict(countMap, remaining) == countMap;
      while remaining != {}
        invariant remaining <= countMap.Keys
        invariant visited == countMap.Keys - remaining
        invariant IsMaxValue(Restrict(countMap, visited), highestCount)
        invariant total + SumCounts(Restrict(countMap, remaining)) == SumCounts(countMap)
        decreases remaining
      {
        var ref :| ref in remaining;
        var currentCount := countMap[ref];
        MaxValueStep(countMap, visited, ref, highestCount);
        SumRestrictStep(countMap, remaining, ref);
        if currentCount > highestCount {
          highestCount := currentCount;
        }
        total := total + currentCount;
        remaining := remaining - {ref};
        visited := visited + {ref};
      }
      assert Restrict(countMap, visited) == countMap;
      assert Restrict(countMap, remaining) == map[];
      MaxValueUnique(countMap, highestCount);
    }

    /** The share, in percent, of counted mates that lie on the most frequent
        mate reference; 100 when no mate was counted. */
    method HighestPercentageOfMatesOnSameChromosome(skipUnmapped: bool) returns (pct: real)
      ensures pct == Percentage(MaxValue(MateCounts(members, skipUnmapped)), |MateKeys(members, skipUnmapped)|)
      ensures MateKeys(members, skipUnmapped) == [] ==> pct == 100.0
      ensures 0.0 < pct <= 100.0
    {
      var countMap := RetrieveMateAlignments(skipUnmapped);
      var highestCount, total := HighestAndTotal(countMap);
      MateCountsSum(members, skipUnmapped);
      MateKeysLength(members, skipUnmapped);
      HighestCountBounds(members, skipUnmapped);
      if total == 0 {
        return 100.0;
      }
      pct := (highestCount as real) / (total as real) * 100.0;
    }

    /** The number of distinct mate references among the counted members. */
    method NumberOfDifferentMateChromosomes(skipUnmapped: bool) returns (n: nat)
      ensures n == |MateReferences(members, skipUnmapped)|
    {
      var countMap := RetrieveMateAlignments(skipUnmapped);
      MateCountsKeys(members, skipUnmapped);
      n := |countMap|;
    }

    /** The first member's start when the input is assumed sorted, else 0. */
    function GetClusterStart(): (start: int)
      reads this
      requires assumeSorted ==> members != []
      ensures assumeSorted ==> start == members[0].alignmentStart
      ensures !assumeSorted ==> start == 0
    {
      ClusterStart(members, assumeSorted)
    }

    /** The running maximum of the members' alignment ends. */
    method GetClusterEnd() returns (end: int)
      ensures end == MaxEnd(members)
    {
      end := 0;
      var i := 0;
      while i < |members|
        invariant 0 <= i <= |members|
        invariant end == MaxEnd(members[..i])
      {
        assert members[..i + 1][..i] == members[..i];
        var currentEnd := members[i].alignmentEnd;
        if currentEnd > end {
          end := currentEnd;
        }
        i := i + 1;
      }
      assert members[..i] == members;
    }

    method GetClusterSize() returns (size: int)
      requires assumeSorted ==> members != []
      ensures size == ClusterSize(members, assumeSorted)
    {
      var end := GetClusterEnd();
      size := end - GetClusterStart() + 1;
    }

    /** Resets the three category counters and counts every member in the
        category of its read-name prefix. */
    method CountCategories(prefixes: ReadNamePrefixes)
      modifies this`multipleHits, this`uniqueHits, this`unmappedHits
      ensures multipleHits == CountCategory(members, prefixes, MultipleHit)
      ensures uniqueHits == CountCategory(members, prefixes, UniqueHit)
      ensures unmappedHits == CountCategory(members, prefixes, UnmappedHit)
    {
      uniqueHits := 0;
      multipleHits := 0;
      unmappedHits := 0;
      for i := 0 to |members|
        invariant multipleHits == CountCategory(members[..i], prefixes, MultipleHit)
        invariant uniqueHits == CountCategory(members[..i], prefixes, UniqueHit)
        invariant unmappedHits == CountCategory(members[..i], prefixes, UnmappedHit)
      {
        assert members[..i + 1][..i] == members[..i];
        var readName := members[i].readName;
        if prefixes.multipleMapping <= readName {
          multipleHits := multipleHits + 1;
        } else if prefixes.uniqueMapping <= readName {
          uniqueHits := uniqueHits + 1;
        } else if prefixes.unmappedMapping <= readName {
          unmappedHits := unmappedHits + 1;
        }
      }
      assert members[..|members|] == members;
    }

    /** Adds one to the count of every member's sample; earlier counts are kept. */
    method CountSamples()
      modifies this`sampleCount
      ensures sampleCount == Tally(old(sampleCount), SampleNames(members, sampleCalling))
    {
      ghost var names := SampleNames(members, sampleCalling);
      for i := 0 to |members|
        invariant sampleCount == Tally(old(sampleCount), names[..i])
      {
        var rec := members[i];
        var name;
        if sampleCalling == MultiSample {
          if rec.readGroupSample.None? {
            name := NoReadGroup;
          } else {
            name := rec.readGroupSample.value;
          }
        } else {
          name := rec.sampleNameTag;
        }
        assert name == names[i];
        assert names[..i + 1] == names[..i] + [name];
        TallySnoc(old(sampleCount), names[..i], name);
        if name in sampleCount {
          sampleCount := sampleCount[name := sampleCount[name] + 1];
        } else {
          sampleCount := sampleCount[name := 1];
        }
      }
      assert names[..|members|] == names;
    }

    /** The members' read names, comma separated, in member order. */
    method GetReadNames() returns (readNames: string)
      requires members != []
      ensures readNames == Join(ReadNames(members))
    {
      ghost var names := ReadNames(members);
      var sb := "";
      for i := 0 to |members|
        invariant i == 0 ==> sb == ""
        invariant i > 0 ==> sb == Join(names[..i]) + ","
      {
        if i > 0 {
          JoinSnoc(names[..i], names[i]);
          assert names[..i + 1] == names[..i] + [names[i]];
        } else {
          assert names[..1] == [names[0]];
        }
        sb := sb + members[i].readName;
        sb := sb + ",";
      }
      assert names[..|members|] == names;
      ghost var joined := Join(names);
      assert (joined + ",")[..|joined|] == joined;
      readNames := sb[..|sb| - 1];
    }

    /** The median of the members' mapping qualities, for a given median. */
    method GetMedianMapq(median: seq<int> -> int) returns (q: int)
      ensures q == median(MappingQualities(members))
    {
      var mapq := [];
      for i := 0 to |members|
        invariant mapq == MappingQualities(members)[..i]
      {
        assert MappingQualities(members)[..i + 1] == MappingQualities(members)[..i] + [members[i].mappingQuality];
        mapq := mapq + [members[i].mappingQuality];
      }
      assert MappingQualities(members)[..|members|] == MappingQualities(members);
      q := median(mapq);
    }

    /** Builds the consensus record of the cluster. Decoding the first
        member's ME tag comes first; when it fails nothing is changed. On
        success the category counters are recomputed and the sample counts
        grow by this cluster's members. */
    method WriteClusterRecord(name: string, prefixes: ReadNamePrefixes,
                              median: seq<int> -> int, nSequence: int -> string)
      returns (result: Result<ClusterRecord>)
      requires members != []
      modifies this`multipleHits, this`uniqueHits, this`unmappedHits, this`sampleCount
      ensures result == InvalidCategory <==> members[0].categories.None?
      ensures result == InvalidCategory ==> unchanged(this)
      ensures result.Ok? ==>
        multipleHits == CountCategory(members, prefixes, MultipleHit) &&
        uniqueHits == CountCategory(members, prefixes, UniqueHit) &&
        unmappedHits == CountCategory(members, prefixes, UnmappedHit) &&
        sampleCount == Tally(old(sampleCount), SampleNames(members, sampleCalling))
      ensures result.Ok? ==>
        var first := members[0];
        var size := ClusterSize(members, assumeSorted);
        result.value == ClusterRecord(
          name, StrandFlags(first.negativeStrand), ChrPrefixed(first.referenceName),
          ClusterStart(members, assumeSorted), median(MappingQualities(members)), Cigar(size),
          "*", 0, nSequence(size), "*",
          IntToString(|members|), IntToString(size), first.categories.value[0],
          BoolToString(splitRead), Join(ReadNames(members)),
          uniqueHits, multipleHits, unmappedHits, sampleCount)
    {
      var first := members[0];
      if first.categories.None? {
        return InvalidCategory;
      }
      var mobileHit := first.categories.value[0];
      var reference := ChrPrefixed(first.referenceName);
      var clusterSize := GetClusterSize();
      var cigar := Cigar(clusterSize);
      var mapq := GetMedianMapq(median);
      var flags := StrandFlags(first.negativeStrand);
      var readNames := GetReadNames();
      CountCategories(prefixes);
      CountSamples();
      result := Ok(ClusterRecord(
        name, flags, reference, GetClusterStart(), mapq, cigar,
        "*", 0, nSequence(clusterSize), "*",
        IntToString(|members|), IntToString(clusterSize), mobileHit,
        BoolToString(splitRead), readNames,
        uniqueHits, multipleHits, unmappedHits, sampleCount));
    }
  }
}
