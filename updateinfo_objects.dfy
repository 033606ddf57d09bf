/**
  The updateinfo objects as the bindings expose them: each object has settable attributes,
  unset until assigned, and the container objects grow their lists in place. Appending an object
  stores a copy of its current value, so later changes to the appended object do not reach the
  list; `Value()` is that copy.
 */
module UpdateInfoObjects {
  import opened Optional
  import opened UpdateInfoRecords
  import opened UpdateInfoXml

  class UpdateReference {
    var href: Option<string>
    var id: Option<string>
    var rtype: Option<string>
    var title: Option<string>

    /** A fresh reference has no attribute set. */
    constructor()
      ensures href == id == rtype == title == None
    {
      href, id, rtype, title := None, None, None, None;
    }

    function Value(): Reference
      reads this
    {
      Reference(href, id, rtype, title)
    }
  }

  class UpdateCollectionPackage {
    var name: Option<string>
    var version: Option<string>
    var release: Option<string>
    var epoch: Option<string>
    var arch: Option<string>
    var src: Option<string>
    var filename: Option<string>
    var sum: Option<string>
    var sumType: Option<ChecksumType>
    var rebootSuggested: bool

    /** A fresh package has no attribute set and does not suggest a reboot. */
    constructor()
      ensures name == version == release == epoch == arch == src == filename == sum == None
      ensures sumType == None && !rebootSuggested
    {
      name, version, release, epoch, arch, src := None, None, None, None, None, None;
      filename, sum, sumType, rebootSuggested := None, None, None, false;
    }

    function Value(): CollectionPackage
      reads this
    {
      CollectionPackage(name, version, release, epoch, arch, src, filename, sum, sumType, rebootSuggested)
    }
  }

  class UpdateCollection {
    var shortname: Option<string>
    var name: Option<string>
    var packages: seq<CollectionPackage>

    /** A fresh collection has no name and no packages. */
    constructor()
      ensures shortname == name == None && packages == []
    {
      shortname, name, packages := None, None, [];
    }

    function Value(): Collection
      reads this
    {
      Collection(shortname, name, packages)
    }

    /** Adds a copy of `pkg` after the packages already held; the names stay as they were. */
    method Append(pkg: UpdateCollectionPackage)
      modifies this
      ensures Value() == old(Value()).(packages := old(packages) + [pkg.Value()])
    {
      packages := packages + [pkg.Value()];
    }
  }

  class UpdateRecord {
    var fromstr: Option<string>
    var status: Option<string>
    var rtype: Option<string>
    var version: Option<string>
    var id: Option<string>
    var title: Option<string>
    var issuedDate: Option<string>
    var updatedDate: Option<string>
    var rights: Option<string>
    var release: Option<string>
    var pushcount: Option<string>
    var severity: Option<string>
    var summary: Option<string>
    var description: Option<string>
    var solution: Option<string>
    var references: seq<Reference>
    var collections: seq<Collection>

    /** A fresh record has no field set, no references and no collections. */
    constructor()
      ensures fromstr == status == rtype == version == id == title == None
      ensures issuedDate == updatedDate == rights == release == pushcount == None
      ensures severity == summary == description == solution == None
      ensures references == [] && collections == []
    {
      fromstr, status, rtype, version, id, title := None, None, None, None, None, None;
      issuedDate, updatedDate, rights, release, pushcount := None, None, None, None, None;
      severity, summary, description, solution := None, None, None, None;
      references, collections := [], [];
    }

    function Value(): Record
      reads this
    {
      Record(fromstr, status, rtype, version, id, title, issuedDate, updatedDate, rights, release,
             pushcount, severity, summary, description, solution, references, collections)
    }

    /** Adds a copy of `reference` after the references already held; nothing else changes. */
    method AppendReference(reference: UpdateReference)
      modifies this
      ensures Value() == old(Value()).(references := old(references) + [reference.Value()])
    {
      references := references + [reference.Value()];
    }

    /** Adds a copy of `collection` after the collections already held; nothing else changes. */
    method AppendCollection(collection: UpdateCollection)
      modifies this
      ensures Value() == old(Value()).(collections := old(collections) + [collection.Value()])
    {
      collections := collections + [collection.Value()];
    }
  }

  class UpdateInfo {
    var updates: seq<Record>

    /** A fresh updateinfo holds no records. */
    constructor()
      ensures updates == []
    {
      updates := [];
    }

    function Value(): Info
      reads this
    {
      Info(updates)
    }

    /** Adds a copy of `rec` after the records already held. */
    method Append(rec: UpdateRecord)
      modifies this
      ensures updates == old(updates) + [rec.Value()]
    {
      updates := updates + [rec.Value()];
    }

    /** The XML text of the records held, as `Dump` writes it; the object is left unchanged. */
    method XmlDump() returns (xml: string)
      ensures xml == Dump(Value())
    {
      xml := Dump(Info(updates));
    }
  }
}
