# MateCluster: clustering of mobile-element anchor alignments

This project models the cluster aggregation engine of Mobster, the class
`MateCluster`, which lives in `src/main/java/org/umcn/me/sam/MateCluster.java`. A cluster is an append-only list of
alignment records that together support one candidate mobile-element
insertion. The model covers:

- **Membership.** A record joins a non-empty cluster only when it is a valid
  addition against the *first* member. A valid addition has the same
  reference and the same first-listed mobile-element category. It also
  needs the same strand unless the cluster holds split reads. An ME tag that
  cannot be decoded rejects the record.
- **Window gate.** A candidate is compared with the *last* member. It must
  have the same reference. Its start must lie between 10 positions before
  the last start and `searchArea` positions after it.
- **Mate-region test.** Two records pass when their mates are on the same
  reference and the mate starts differ by at most `region`.
- **Statistics.**
  - The mate-reference distribution, optionally skipping members whose mate is unmapped.
  - The highest share of mates on one reference, which is 100 when no mate was counted.
  - The number of distinct mate references.
  - The read-name category counts (multiple, unique or unmapped hit).
  - The per-sample counts. These are kept in a field that is never cleared, so repeated counting accumulates.
  - The comma-joined read names and the median mapping quality.
- **Extent.** The cluster start is the first member's start under
  `assume_sorted`, and 0 otherwise. The end is the running maximum of the
  members' ends, starting from 0. The size is `end - start + 1`.
- **Consensus record.** These are the fields that `writeClusterToSAMWriter` sets:
  - the reference, given the "chr" prefix only when it is absent;
  - the CIGAR `size + "M"`;
  - flags 0 or 16, taken from the first member's strand;
  - the hit count and the span length, rendered as decimal strings;
  - the dominant category;
  - the split-read flag, the read names, the category counts and the sample counts.

Layout:
- `alignments.dfy` holds the alignment record and the decode outcome.
- `membership.dfy` holds the membership rule, the window gate and the mate-region test.
- `count_maps.dfy` holds the name-to-count maps the source fills, with their sums and maxima.
- `statistics.dfy` holds the summaries as functions of the member list.
- `text.dfy` holds the comma join and its split, and Java's decimal rendering of an int with its parse.
- `consensus.dfy` holds the consensus record and its pure field rules.
- `mate_cluster.dfy` holds the class `MateCluster`.

The class owns the member sequence, the three category counters and the
sample-count map. Its methods that change state say exactly what the new
state is. Its loops are proved against specification functions:
- the member loops against those in `statistics.dfy`;
- the key loop of `HighestAndTotal` against `MaxValue` and `SumCounts` in `count_maps.dfy`;
- the read-name loop of `GetReadNames` against `Join` in `text.dfy`.

Collaborators whose code is not part of this model:
- The ME-tag decoder (`MobileSAMTag.parse`) is represented by the record's
  already-decoded `categories` field. `None` stands for a failed decode.
  A successful decode always holds at least one name.
- The read-group lookup is represented by the record's `readGroupSample` field.
- `MathFunction.getMedianFromIntegers` is a function-valued parameter `median`, left uninterpreted.
- `QualityProcessing.createNSequence` is a function-valued parameter `nSequence`, left uninterpreted.
- The read-name prefixes from `SAMDefinitions` are the parameter `ReadNamePrefixes`.

Behaviour of the code worth noting:
- Without `assume_sorted` the cluster start is 0. It is not the least start of the members.
- Under `assume_sorted` the start is the first member's start. The
  backward wiggle lets a later member start earlier than that, as
  `FirstStartNotLeast` shows.
- A strand or reference mismatch rejects a record before its tag is decoded.
  So a bad tag is only reported when those checks pass.

## Model

| member | source | states |
|---|---|---|
| Membership.IsValidAddition | src/main/java/org/umcn/me/sam/MateCluster.java:134-144 | Accepted iff same reference, same decodable first category, and same strand unless split-read. Decode failure is reported only when the strand (outside split-read mode) and reference checks pass. Only element 0 of each category list is compared. |
| Membership.SameStrandEquivalence | src/main/java/org/umcn/me/sam/MateCluster.java:146-148 | Strand agreement is reflexive, symmetric and transitive. |
| Membership.SameReferenceEquivalence | src/main/java/org/umcn/me/sam/MateCluster.java:150-152 | Reference agreement is reflexive, symmetric and transitive. |
| Membership.IsSameMobileMapping | src/main/java/org/umcn/me/sam/MateCluster.java:172-185 | Fails exactly when either tag is undecodable. Otherwise true iff the first-listed categories are equal. |
| Membership.MembersAgreeWithFirst | src/main/java/org/umcn/me/sam/MateCluster.java:138-142 | Under the cluster invariant, every member has the first member's reference and first category, and its strand too outside split-read mode. |
| Membership.MembersPairwiseAgree | src/main/java/org/umcn/me/sam/MateCluster.java:138-142 | Any two members of a cluster agree on reference and first category, and on strand outside split-read mode. |
| Membership.AppendKeepsAgreement | src/main/java/org/umcn/me/sam/MateCluster.java:45-63 | Appending a record that is a valid addition against the first member (or any record to an empty list) keeps the invariant. |
| MateClusters.MateCluster.constructor | src/main/java/org/umcn/me/sam/MateCluster.java:34-43 | A new cluster is empty, with zero counters, an empty sample map and the given modes. |
| MateClusters.MateCluster.Add | src/main/java/org/umcn/me/sam/MateCluster.java:45-63 | Returns true and appends iff the cluster is empty or the record is a valid addition against the first member. On false, including a decode failure, the members are unchanged. Keeps the invariant. |
| Membership.WithinSearchAreaWindow | src/main/java/org/umcn/me/sam/MateCluster.java:196-202 | The gate holds iff same reference and the start offset from the last member lies in [-10, searchArea]. |
| Membership.WithinSearchAreaExample | src/main/java/org/umcn/me/sam/MateCluster.java:198-200 | Last start 1000, radius 50: 1045 and 990 pass, 1051 and 989 fail. |
| Membership.WithinSearchAreaMonotone | src/main/java/org/umcn/me/sam/MateCluster.java:199-200 | A larger forward radius never rejects a record a smaller one admits. |
| MateClusters.MateCluster.IsWithinSearchArea | src/main/java/org/umcn/me/sam/MateCluster.java:187-207 | True on an empty cluster. Otherwise the gate is judged against the last member. |
| Membership.MateSameReferenceEquivalence | src/main/java/org/umcn/me/sam/MateCluster.java:154-156 | Having mates on the same reference is reflexive, symmetric and transitive. The mate-region test implies it, and with a non-negative region it holds for a record against itself exactly when the reference test does. |
| Membership.IsMateSameReferenceWithinRegion | src/main/java/org/umcn/me/sam/MateCluster.java:158-168 | True iff the mate references are equal and the mate starts differ by at most region in absolute value. |
| Membership.MateRegionSymmetric | src/main/java/org/umcn/me/sam/MateCluster.java:158-168 | The mate-region test gives the same answer with the two records swapped. |
| MateClusters.MateCluster.RetrieveMateAlignments | src/main/java/org/umcn/me/sam/MateCluster.java:82-100 | The returned map is the mate-reference tally of the members, skipping mate-unmapped members when asked. |
| CountMaps.Bump | src/main/java/org/umcn/me/sam/MateCluster.java:92-96 | One increment adds the key if missing, raises its count by one from 0 or its old value, and leaves other entries alone. |
| CountMaps.TallyAt | src/main/java/org/umcn/me/sam/MateCluster.java:250-255 | After tallying a list of names, each name's count is its previous count plus its number of occurrences. It has an entry iff it had one or occurs. |
| CountMaps.TallySum | src/main/java/org/umcn/me/sam/MateCluster.java:92-96 | Tallying n names raises the sum of all counts by exactly n. |
| CountMaps.TallyTwice | src/main/java/org/umcn/me/sam/MateCluster.java:233-257 | Tallying the same names twice into a map that is not cleared counts every occurrence twice. |
| CountMaps.MaxValue | src/main/java/org/umcn/me/sam/MateCluster.java:108-113 | The result is at least every count, equals some count, and is 0 for an empty map. |
| Statistics.MateCountsSum | src/main/java/org/umcn/me/sam/MateCluster.java:82-100 | The counts sum to the number of members, minus the mate-unmapped members when those are skipped. |
| Statistics.MateCountsAt | src/main/java/org/umcn/me/sam/MateCluster.java:86-97 | A reference has an entry iff some counted member's mate lies on it. The entry equals the number of such members. |
| Statistics.MateCountsKeys | src/main/java/org/umcn/me/sam/MateCluster.java:127-132 | The map's keys are exactly the distinct mate references of the counted members. |
| Statistics.HighestCountBounds | src/main/java/org/umcn/me/sam/MateCluster.java:105-115 | The highest count is at most the total, and positive when the total is. |
| Statistics.Percentage | src/main/java/org/umcn/me/sam/MateCluster.java:117-124 | Exactly 100 when the total is 0. Otherwise in (0, 100] whenever 0 < highest <= total. |
| MateClusters.MateCluster.HighestAndTotal | src/main/java/org/umcn/me/sam/MateCluster.java:105-115 | Visiting the keys in any order yields the largest count and the sum of the counts. |
| MateClusters.MateCluster.HighestPercentageOfMatesOnSameChromosome | src/main/java/org/umcn/me/sam/MateCluster.java:102-125 | The result is the highest count over the total, as a percentage. It is exactly 100 when nothing was counted and always in (0, 100]. |
| MateClusters.MateCluster.NumberOfDifferentMateChromosomes | src/main/java/org/umcn/me/sam/MateCluster.java:127-132 | The number of distinct mate references among the counted members. |
| Statistics.CategoriesPartition | src/main/java/org/umcn/me/sam/MateCluster.java:65-80 | Each member falls in exactly one of multiple, unique, unmapped or none. So the three counts sum to at most the size. |
| Statistics.CategoriesExample | src/main/java/org/umcn/me/sam/MateCluster.java:72-78 | Three reads with the unique, multiple and unmapped prefixes give one count in each category. |
| MateClusters.MateCluster.CountCategories | src/main/java/org/umcn/me/sam/MateCluster.java:65-80 | The counters are reset and recomputed per member. The multiple prefix is tested first, then unique, then unmapped. |
| MateClusters.MateCluster.CountSamples | src/main/java/org/umcn/me/sam/MateCluster.java:233-257 | The sample map becomes the old map plus one count per member's resolved sample: the read-group sample or "NoRG" in multi-sample mode, the sample-name tag otherwise. |
| Statistics.MissingReadGroupCounted | src/main/java/org/umcn/me/sam/MateCluster.java:238-244 | In multi-sample mode a member without a read group is counted under "NoRG". |
| MateClusters.MateCluster.GetReadNames | src/main/java/org/umcn/me/sam/MateCluster.java:259-270 | The read names of all members in member order, separated by single commas, with no trailing comma. |
| Text.JoinSnoc | src/main/java/org/umcn/me/sam/MateCluster.java:263-266 | Appending one more name appends a comma and that name. |
| Text.SplitJoin | src/main/java/org/umcn/me/sam/MateCluster.java:259-270 | Splitting the joined names at commas recovers the names when none contains a comma. |
| MateClusters.MateCluster.GetMedianMapq | src/main/java/org/umcn/me/sam/MateCluster.java:272-280 | The median function is applied to the members' mapping qualities in member order. |
| Statistics.MaxEnd | src/main/java/org/umcn/me/sam/MateCluster.java:219-231 | At least 0, at least every member's end, and either 0 or some member's end. |
| MateClusters.MateCluster.GetClusterEnd | src/main/java/org/umcn/me/sam/MateCluster.java:219-231 | The running maximum equals MaxEnd of the members. |
| Statistics.ClusterStart | src/main/java/org/umcn/me/sam/MateCluster.java:209-217 | 0 without assume_sorted. With it, the first member's start, which is the least start when the members are sorted by start. |
| MateClusters.MateCluster.GetClusterStart | src/main/java/org/umcn/me/sam/MateCluster.java:209-217 | The first member's start under assume_sorted, and 0 otherwise. |
| Statistics.ClusterSize | src/main/java/org/umcn/me/sam/MateCluster.java:282-284 | The span from the cluster start reaches every member's end. |
| MateClusters.MateCluster.GetClusterSize | src/main/java/org/umcn/me/sam/MateCluster.java:282-284 | Equals the maximum end minus the cluster start plus one. |
| Statistics.ExtentExample | src/main/java/org/umcn/me/sam/MateCluster.java:209-231 | Starts [100,105,110] and ends [150,120,200], sorted, give start 100, end 200 and size 101. |
| MateClusters.FirstStartNotLeast | src/main/java/org/umcn/me/sam/MateCluster.java:209-217 | A record 5 positions upstream of the first member passes the gate and the membership rule, so the cluster start exceeds a member's start. |
| Consensus.ChrPrefixed | src/main/java/org/umcn/me/sam/MateCluster.java:295-298 | The result starts with "chr". It is the name itself when already prefixed, otherwise "chr" followed by the name. |
| Consensus.ChrPrefixedIdempotent | src/main/java/org/umcn/me/sam/MateCluster.java:295-298 | Prefixing twice is prefixing once. |
| Consensus.Cigar | src/main/java/org/umcn/me/sam/MateCluster.java:300-302 | The CIGAR ends in 'M' and the rest parses back to the cluster size. |
| Text.IntToStringRoundTrip | src/main/java/org/umcn/me/sam/MateCluster.java:301 | Parsing the decimal rendering of an int gives the int back. |
| Consensus.StrandFlags | src/main/java/org/umcn/me/sam/MateCluster.java:315-321 | Only SAM bit 0x10 can be set, and it is set exactly for a negative-strand first member. |
| MateClusters.MateCluster.WriteClusterRecord | src/main/java/org/umcn/me/sam/MateCluster.java:286-345 | Fails, changing nothing, exactly when the first member's tag is undecodable. Otherwise builds every consensus field from the functions above, recomputes the category counters and accumulates the sample counts. |

## Left out

- Output: `SAMFileWriter.addAlignment` and SAM serialisation are output I/O. The consensus is returned as a fresh value instead.
- Shared record: the reused `record` field and its `SAMFileHeader` are not modelled, for the same reason.
- Sample-count text: its rendering as a string (HashMap order) is not modelled. The record carries the map itself.
- Logging: the `System.err` messages are left out.
- Median: `MathFunction.getMedianFromIntegers` is an uninterpreted parameter, and no even-count convention is assumed.
- N sequence: `QualityProcessing.createNSequence` is an uninterpreted parameter.
- Tag decoder: `MobileSAMTag.parse` is represented by the decoded `categories` field.
- Read-group lookup: the `SampleBam`/read-group lookup is represented by the `readGroupSample` field.
- Prefixes and tag names: the `SAMDefinitions` prefix constants and the `MobileDefinitions` tag names are not part of this model. Prefixes are a parameter, and tags are fields of `ClusterRecord`.
- Sample modes: `SampleMode` has two values. The source's fallback branch for any other mode reads the sample-name tag, exactly like single-sample mode.
- Floating point: the percentage is exact real arithmetic, not IEEE doubles.
- Missing tags: `getAttribute` can return null on a missing ME or sample-name tag, which throws NullPointerException. This is not modelled, because every record carries both fields.
- Integer width: Java's 32-bit int wrap-around is not modelled. Positions, radii, sizes and counters are unbounded integers, because genomic coordinates and cluster sizes stay far below 2^31.
- Empty cluster: `getReadNames`, `writeClusterToSAMWriter` and `getClusterStart` under `assume_sorted` throw on an empty cluster. These members require a non-empty cluster.
- Vector API: the inherited `Vector` API other than `add`, `firstElement` and `lastElement` can bypass the membership rule, so it is left out. `serialVersionUID` is left out too.
- Lifecycle: no explicit Finalized state is modelled, because the source has none.
- Key order: `HighestAndTotal` visits the keys in an unspecified order. Its results do not depend on that order.
- Text.SplitJoin: holds only for read names without commas, since a name containing a comma cannot be recovered from the joined tag.
- ReadNameRetrieverTest: `src/test/java/org/umcn/me/util/ReadNameRetrieverTest.java` tests a SAM-file reader against an on-disk file. That is file I/O, and the reader is not part of this model.
