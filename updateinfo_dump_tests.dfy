/**
  The three dumps of the updateinfo tests, line for line: an empty updateinfo, one fully set
  record without references or collections, and the same record holding one reference and one
  collection of one package.
 */
module UpdateInfoDumpExamples {
  import opened Optional
  import opened XmlTree
  import opened UpdateInfoRecords
  import opened UpdateInfoXml
  import opened UpdateInfoLayout

  /** The record of the setter test, each field set to its own name. */
  function TestRecord(): Record
  {
    Record(Some("from"), Some("status"), Some("type"), Some("version"), Some("id"), Some("title"),
           Some("issued_date"), Some("updated_date"), Some("rights"), Some("release"), Some("pushcount"),
           Some("severity"), Some("summary"), Some("description"), Some("solution"), [], [])
  }

  function TestPackage(): CollectionPackage
  {
    CollectionPackage(Some("foo"), Some("1.2"), Some("3"), Some("0"), Some("x86"), Some("foo.src.rpm"),
                      Some("foo.rpm"), Some("abcdef"), Some(Sha1), true)
  }

  function TestCollection(): Collection
  {
    Collection(Some("short name"), Some("long name"), [TestPackage()])
  }

  function TestReference(): Reference
  {
    Reference(Some("href"), Some("id"), Some("type"), Some("title"))
  }

  /** The record of the third dump: the setter test's record with one collection and one reference. */
  function TestRecordWithLists(): Record
  {
    TestRecord().(references := [TestReference()], collections := [TestCollection()])
  }

  /** An empty updateinfo dumps as the declaration and `<updates/>`. */
  lemma DumpEmpty()
    ensures Dump(Info([])) == "<?xml version=\"1.0\" encoding=\"UTF-8\"?>\n<updates/>\n"
  {
    DumpLines(Info([]));
    var ls := [XML_DECLARATION, "<updates/>"];
    assert ls[1..][1..] == [];
    assert Lines(ls[1..]) == "<updates/>" + "\n" + "";
    assert Lines(ls) == XML_DECLARATION + "\n" + ("<updates/>" + "\n" + "");
    assert "<updates/>" + "\n" + "" == "<updates/>\n";
    assert XML_DECLARATION + "\n" == "<?xml version=\"1.0\" encoding=\"UTF-8\"?>\n";
  }

  // The lines the tests expect, written with the field values in place.

  function ExpectedStartLine(): string
  {
    Indent(1) + "<update" + " from=\"" + "from" + "\"" + " status=\"" + "status" + "\""
    + " type=\"" + "type" + "\"" + " version=\"" + "version" + "\"" + ">"
  }

  /** The eleven text and date children of the test record, at depth 2. */
  function ExpectedHeadLines(): seq<string>
  {
    [Indent(2) + "<id>" + "id" + "</id>",
     Indent(2) + "<title>" + "title" + "</title>",
     Indent(2) + "<issued date=\"" + "issued_date" + "\"/>",
     Indent(2) + "<updated date=\"" + "updated_date" + "\"/>"]
    + [Indent(2) + "<rights>" + "rights" + "</rights>",
       Indent(2) + "<release>" + "release" + "</release>",
       Indent(2) + "<pushcount>" + "pushcount" + "</pushcount>",
       Indent(2) + "<severity>" + "severity" + "</severity>"]
    + [Indent(2) + "<summary>" + "summary" + "</summary>",
       Indent(2) + "<description>" + "description" + "</description>",
       Indent(2) + "<solution>" + "solution" + "</solution>"]
  }

  function ExpectedReferenceLines(): seq<string>
  {
    [Indent(2) + "<references>"]
    + [Indent(3) + "<reference" + " href=\"" + "href" + "\"" + " id=\"" + "id" + "\""
       + " type=\"" + "type" + "\"" + " title=\"" + "title" + "\"" + "/>"]
    + [Indent(2) + "</references>"]
  }

  function ExpectedPackageLines(): seq<string>
  {
    [Indent(4) + "<package" + " name=\"" + "foo" + "\"" + " version=\"" + "1.2" + "\""
     + " relase=\"" + "3" + "\"" + " epoch=\"" + "0" + "\""
     + " arch=\"" + "x86" + "\"" + " src=\"" + "foo.src.rpm" + "\"" + ">",
     Indent(5) + "<filename>" + "foo.rpm" + "</filename>",
     Indent(5) + "<sum" + " type=\"" + "sha1" + "\"" + ">" + "abcdef" + "</sum>"]
    + [Indent(5) + "<reboot_suggested/>"]
    + [Indent(4) + "</package>"]
  }

  function ExpectedCollectionLines(): seq<string>
  {
    [Indent(3) + "<collection" + " short=\"" + "short name" + "\"" + ">"]
    + ([Indent(4) + "<name>" + "long name" + "</name>"] + ExpectedPackageLines())
    + [Indent(3) + "</collection>"]
  }

  function ExpectedPkglistLines(): seq<string>
  {
    [Indent(2) + "<pkglist>"] + ExpectedCollectionLines() + [Indent(2) + "</pkglist>"]
  }

  // The record of the second dump.

  lemma TestRecordHeadLines(r: Record)
    requires r == TestRecord().(references := r.references, collections := r.collections)
    ensures RenderAll(Present(RecordKidSlots(r)), 2)
         == ExpectedHeadLines() + Render(ReferencesElem(r.references), 2) + Render(PkglistElem(r.collections), 2)
  {
    RecordKidLines(r, 2);
  }

  lemma TestRecordStart(r: Record)
    requires r == TestRecord().(references := r.references, collections := r.collections)
    ensures Indent(1) + "<update" + " from=\"" + r.fromstr.value + "\"" + " status=\"" + r.status.value + "\""
            + " type=\"" + r.rtype.value + "\"" + " version=\"" + r.version.value + "\"" + ">"
         == ExpectedStartLine()
  {
  }

  lemma TestRecordKids(r: Record)
    requires r == TestRecord()
    ensures RenderAll(Present(RecordKidSlots(r)), 2)
         == ExpectedHeadLines() + [Indent(2) + "<references/>"] + [Indent(2) + "<pkglist/>"]
  {
    TestRecordHeadLines(r);
    ReferencesLines([], 2);
    PkglistLines([], 2);
  }

  lemma TestRecordLines(r: Record)
    requires r == TestRecord()
    ensures Render(RecordElem(r), 1)
         == [ExpectedStartLine()]
            + (ExpectedHeadLines() + [Indent(2) + "<references/>"] + [Indent(2) + "<pkglist/>"])
            + [Indent(1) + "</update>"]
  {
    TestRecordStart(r);
    TestRecordKids(r);
    RecordLinesWith(r, 1, ExpectedStartLine(),
                    ExpectedHeadLines() + [Indent(2) + "<references/>"] + [Indent(2) + "<pkglist/>"]);
  }

  /**
    The second dump: one fully set record without references or collections, whose lists are
    written as `<references/>` and `<pkglist/>`.
   */
  lemma DumpOneRecord(r: Record)
    requires r == TestRecord()
    ensures Dump(Info([r]))
         == Lines([XML_DECLARATION, "<updates>"]
                  + ([ExpectedStartLine()]
                     + (ExpectedHeadLines() + [Indent(2) + "<references/>"] + [Indent(2) + "<pkglist/>"])
                     + [Indent(1) + "</update>"])
                  + ["</updates>"])
  {
    OneRecordDump(r);
    TestRecordLines(r);
  }

  // The record of the third dump.

  lemma TestReferenceLines(r: Record)
    requires r == TestRecordWithLists()
    ensures Render(ReferencesElem(r.references), 2) == ExpectedReferenceLines()
  {
    var ref := TestReference();
    ReferencesLines(r.references, 2);
    assert ReferenceElems(r.references) == [ReferenceElem(ref)];
    RenderAllOne(ReferenceElem(ref), 3);
    ReferenceLine(ref, 3);
  }

  lemma TestPackageLines(p: CollectionPackage)
    requires p == TestPackage()
    ensures Render(PackageElem(p), 4) == ExpectedPackageLines()
  {
    PackageLines(p, 4);
  }

  lemma TestCollectionLines(c: Collection)
    requires c == TestCollection()
    ensures RenderAll([CollectionElem(c)], 3) == ExpectedCollectionLines()
  {
    var p := TestPackage();
    assert c.shortname.value == "short name" && c.name.value == "long name";
    assert RenderAll(PackageElems(c.packages), 4) == ExpectedPackageLines() by {
      assert PackageElems(c.packages) == [PackageElem(p)];
      RenderAllOne(PackageElem(p), 4);
      TestPackageLines(p);
    }
    CollectionLines(c, 3);
    RenderAllOne(CollectionElem(c), 3);
  }

  lemma TestPkglistLines(r: Record)
    requires r == TestRecordWithLists()
    ensures Render(PkglistElem(r.collections), 2) == ExpectedPkglistLines()
  {
    var c := TestCollection();
    PkglistLines(r.collections, 2);
    assert CollectionElems(r.collections) == [CollectionElem(c)];
    TestCollectionLines(c);
  }

  /**
    The third dump: the record holds one reference, written as one self-closing line, and one
    collection of one package, each nested one level deeper than its parent.
   */
  lemma DumpRecordWithLists(r: Record)
    requires r == TestRecordWithLists()
    ensures Dump(Info([r]))
         == Lines([XML_DECLARATION, "<updates>"]
                  + ([ExpectedStartLine()]
                     + (ExpectedHeadLines() + ExpectedReferenceLines() + ExpectedPkglistLines())
                     + [Indent(1) + "</update>"])
                  + ["</updates>"])
  {
    OneRecordDump(r);
    RecordLines(r, 1);
    TestRecordHeadLines(r);
    TestReferenceLines(r);
    TestPkglistLines(r);
  }
}
