/**
  The updateinfo data as values: an update record with its string fields, references and
  collections, a collection with its packages. Every string field may be unset (`None`), as a
  fresh object's attributes are.
 */
module UpdateInfoRecords {
  import opened Optional

  /** Checksum kinds of a collection package's `sum`; only SHA-1 is part of this model. */
  datatype ChecksumType = Sha1

  /** The name a checksum kind is written under. */
  function ChecksumName(t: ChecksumType): (r: string)
    ensures ChecksumOfName(r) == Some(t)
  {
    match t
    case Sha1 => "sha1"
  }

  /** The checksum kind a name stands for, if any. */
  function ChecksumOfName(s: string): Option<ChecksumType>
  {
    if s == "sha1" then Some(Sha1) else None
  }

  datatype Reference = Reference(href: Option<string>, id: Option<string>, rtype: Option<string>, title: Option<string>)

  datatype CollectionPackage = CollectionPackage(
    name: Option<string>,
    version: Option<string>,
    release: Option<string>,
    epoch: Option<string>,
    arch: Option<string>,
    src: Option<string>,
    filename: Option<string>,
    sum: Option<string>,
    sumType: Option<ChecksumType>,
    rebootSuggested: bool)

  datatype Collection = Collection(shortname: Option<string>, name: Option<string>, packages: seq<CollectionPackage>)

  datatype Record = Record(
    fromstr: Option<string>,
    status: Option<string>,
    rtype: Option<string>,
    version: Option<string>,
    id: Option<string>,
    title: Option<string>,
    issuedDate: Option<string>,
    updatedDate: Option<string>,
    rights: Option<string>,
    release: Option<string>,
    pushcount: Option<string>,
    severity: Option<string>,
    summary: Option<string>,
    description: Option<string>,
    solution: Option<string>,
    references: seq<Reference>,
    collections: seq<Collection>)

  datatype Info = Info(updates: seq<Record>)
}
