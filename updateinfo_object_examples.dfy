/**
  The updateinfo tests replayed on the objects: building records attribute by attribute,
  appending them, and dumping the container.
 */
module UpdateInfoObjectExamples {
  import opened Optional
  import opened XmlTree
  import opened UpdateInfoRecords
  import opened UpdateInfoXml
  import opened UpdateInfoObjects
  import opened UpdateInfoDumpExamples

  // Assigning a record's string attributes from a value, a few at a time.

  method SetUpdateAttributes(rec: UpdateRecord, r: Record)
    modifies rec
    ensures rec.Value()
         == old(rec.Value()).(fromstr := r.fromstr, status := r.status, rtype := r.rtype, version := r.version)
  {
    rec.fromstr, rec.status, rec.rtype, rec.version := r.fromstr, r.status, r.rtype, r.version;
  }

  method SetIdentity(rec: UpdateRecord, r: Record)
    modifies rec
    ensures rec.Value()
         == old(rec.Value()).(id := r.id, title := r.title, issuedDate := r.issuedDate, updatedDate := r.updatedDate)
  {
    rec.id, rec.title, rec.issuedDate, rec.updatedDate := r.id, r.title, r.issuedDate, r.updatedDate;
  }

  method SetClassification(rec: UpdateRecord, r: Record)
    modifies rec
    ensures rec.Value()
         == old(rec.Value()).(rights := r.rights, release := r.release, pushcount := r.pushcount, severity := r.severity)
  {
    rec.rights, rec.release, rec.pushcount, rec.severity := r.rights, r.release, r.pushcount, r.severity;
  }

  method SetTexts(rec: UpdateRecord, r: Record)
    modifies rec
    ensures rec.Value() == old(rec.Value()).(summary := r.summary, description := r.description, solution := r.solution)
  {
    rec.summary, rec.description, rec.solution := r.summary, r.description, r.solution;
  }

  /**
    A fresh record whose string attributes are assigned from `r`, as the tests set them one by
    one; its references and collections are left empty.
   */
  method NewRecordOf(r: Record) returns (rec: UpdateRecord)
    ensures fresh(rec) && rec.Value() == r.(references := [], collections := [])
  {
    rec := new UpdateRecord();
    SetUpdateAttributes(rec, r);
    SetIdentity(rec, r);
    SetClassification(rec, r);
    SetTexts(rec, r);
  }

  /**
    A fresh updateinfo holds no records; after appending one record it holds exactly one, whose
    fields read back as they were set and which has no references and no collections.
   */
  method SettersExample() returns (before: seq<Record>, after: seq<Record>)
    ensures before == []
    ensures |after| == 1
    ensures after[0].fromstr == Some("from") && after[0].status == Some("status")
    ensures after[0].rtype == Some("type") && after[0].version == Some("version")
    ensures after[0].id == Some("id") && after[0].title == Some("title")
    ensures after[0].issuedDate == Some("issued_date") && after[0].updatedDate == Some("updated_date")
    ensures after[0].rights == Some("rights") && after[0].release == Some("release")
    ensures after[0].pushcount == Some("pushcount") && after[0].severity == Some("severity")
    ensures after[0].summary == Some("summary") && after[0].description == Some("description")
    ensures after[0].solution == Some("solution")
    ensures |after[0].references| == 0 && |after[0].collections| == 0
  {
    var ui := new UpdateInfo();
    before := ui.updates;
    var rec := NewRecordOf(TestRecord());
    ui.Append(rec);
    after := ui.updates;
  }

  /** An empty updateinfo dumps as the declaration and a self-closing `<updates/>`. */
  method DumpExample01() returns (xml: string)
    ensures xml == "<?xml version=\"1.0\" encoding=\"UTF-8\"?>\n<updates/>\n"
  {
    var ui := new UpdateInfo();
    xml := ui.XmlDump();
    DumpEmpty();
  }

  /** One fully set record without references or collections. */
  method DumpExample02() returns (xml: string)
    ensures xml
         == Lines([XML_DECLARATION, "<updates>"]
                  + ([ExpectedStartLine()]
                     + (ExpectedHeadLines() + [Indent(2) + "<references/>"] + [Indent(2) + "<pkglist/>"])
                     + [Indent(1) + "</update>"])
                  + ["</updates>"])
  {
    var ui := new UpdateInfo();
    var rec := NewRecordOf(TestRecord());
    ui.Append(rec);
    assert ui.Value() == Info([TestRecord()]);
    xml := ui.XmlDump();
    DumpOneRecord(TestRecord());
  }

  /** A fresh package set as in the third dump. */
  method NewTestPackage() returns (pkg: UpdateCollectionPackage)
    ensures fresh(pkg) && pkg.Value() == TestPackage()
  {
    pkg := new UpdateCollectionPackage();
    pkg.name, pkg.version, pkg.release := Some("foo"), Some("1.2"), Some("3");
    pkg.epoch, pkg.arch, pkg.src := Some("0"), Some("x86"), Some("foo.src.rpm");
    pkg.filename, pkg.sum, pkg.sumType := Some("foo.rpm"), Some("abcdef"), Some(Sha1);
    pkg.rebootSuggested := true;
  }

  /** A fresh collection named as in the third dump, holding a copy of its one package. */
  method NewTestCollection() returns (col: UpdateCollection)
    ensures fresh(col) && col.Value() == TestCollection()
  {
    var pkg := NewTestPackage();
    col := new UpdateCollection();
    col.shortname := Some("short name");
    col.name := Some("long name");
    col.Append(pkg);
  }

  /** A fresh reference set as in the third dump. */
  method NewTestReference() returns (reference: UpdateReference)
    ensures fresh(reference) && reference.Value() == TestReference()
  {
    reference := new UpdateReference();
    reference.href, reference.id := Some("href"), Some("id");
    reference.rtype, reference.title := Some("type"), Some("title");
  }

  /** The record of the second dump holding one collection of one package and one reference. */
  method DumpExample03() returns (xml: string)
    ensures xml
         == Lines([XML_DECLARATION, "<updates>"]
                  + ([ExpectedStartLine()]
                     + (ExpectedHeadLines() + ExpectedReferenceLines() + ExpectedPkglistLines())
                     + [Indent(1) + "</update>"])
                  + ["</updates>"])
  {
    var col := NewTestCollection();
    var reference := NewTestReference();
    var rec := NewRecordOf(TestRecord());
    rec.AppendCollection(col);
    rec.AppendReference(reference);
    assert rec.Value() == TestRecordWithLists();

    var ui := new UpdateInfo();
    ui.Append(rec);
    assert ui.Value() == Info([TestRecordWithLists()]);
    xml := ui.XmlDump();
    DumpRecordWithLists(TestRecordWithLists());
  }
}
