/** The alignment records a cluster is built from, as this core sees them:
    immutable values read through their accessors. */
module Alignments {

  datatype Option<+T> = None | Some(value: T)

  /** The outcome of an operation that can raise InvalidCategoryException:
      the ME annotation tag of a record could not be decoded. */
  datatype Result<+T> = Ok(value: T) | InvalidCategory

  /** Mobile-element category names decoded from the ME tag, best hit first.
      The decoder yields at least one name whenever it succeeds. */
  type Categories = s: seq<string> | |s| > 0 witness [""]

  /** One alignment record. `categories` is the decoded ME tag (None when the
      tag cannot be parsed); `readGroupSample` is the sample of the record's
      read group (None when the record has no @RG); `sampleNameTag` is the
      value of the sample-name tag. */
  datatype Alignment = Alignment(
    referenceName: string,
    alignmentStart: int,
    alignmentEnd: int,
    negativeStrand: bool,
    mappingQuality: int,
    readName: string,
    mateReferenceName: string,
    mateAlignmentStart: int,
    mateUnmapped: bool,
    categories: Option<Categories>,
    readGroupSample: Option<string>,
    sampleNameTag: string)

  /** The first-listed (best) mobile-element category, if the tag decodes. */
  function FirstCategory(rec: Alignment): (c: Option<string>)
  {
    match rec.categories
    case None => None
    case Some(names) => Some(names[0])
  }
}
