/** The consensus alignment record written for a finished cluster, and the
    pure rules that build its fields. */
module Consensus {
  import opened Text

  /** The fields the cluster sets on its output record. The tag values
      carry the provenance of the cluster. */
  datatype ClusterRecord = ClusterRecord(
    readName: string,
    flags: int,
    referenceName: string,
    alignmentStart: int,
    mappingQuality: int,
    cigar: string,
    mateReferenceName: string,
    inferredInsertSize: int,
    readString: string,
    baseQualities: string,
    clusterHits: string,
    clusterLength: string,
    mobileHit: string,
    splitCluster: string,
    readNames: string,
    uniqueHits: nat,
    multipleHits: nat,
    unmappedHits: nat,
    sampleCount: map<string, nat>)

  const ChrPrefix := "chr"

  /** The reference name with the "chr" prefix added when it is absent. */
  function ChrPrefixed(reference: string): (r: string)
    ensures ChrPrefix <= r
    ensures ChrPrefix <= reference ==> r == reference
    ensures !(ChrPrefix <= reference) ==> |r| == |reference| + 3 && r[3..] == reference
  {
    if ChrPrefix <= reference then reference else ChrPrefix + reference
  }

  /** Prefixing an already prefixed name changes nothing. */
  lemma ChrPrefixedIdempotent(reference: string)
    ensures ChrPrefixed(ChrPrefixed(reference)) == ChrPrefixed(reference)
  {
  }

  /** One match operation spanning the whole cluster: the decimal size, then "M". */
  function Cigar(size: int): (cigar: string)
    ensures |cigar| > 0 && cigar[|cigar| - 1] == 'M'
    ensures ParseInt(cigar[..|cigar| - 1]) == size
  {
    var digits := IntToString(size);
    IntToStringRoundTrip(size);
    assert (digits + "M")[..|digits|] == digits;
    digits + "M"
  }

  /** SAM flags of the consensus: only bit 0x10 (reverse strand) can be set,
      and it is set exactly for a negative-strand first member. */
  function StrandFlags(negativeStrand: bool): (flags: int)
    ensures 0 <= flags < 32 && flags % 16 == 0
    ensures flags / 16 == 1 <==> negativeStrand
  {
    if !negativeStrand then 0 else 16
  }

  /** Boolean.toString. */
  function BoolToString(b: bool): (s: string) {
    if b then "true" else "false"
  }
}
