/**
  The updateinfo serialiser: each record value becomes an element tree, and the tree is
  written as formatted text under the XML declaration. Unset fields are left out of the
  tree, except that a checksum kind set without a checksum gives an empty `<sum>`. `InfoOf`
  reads a tree back into the value it encodes; `InfoRoundTrip` proves the tree encoding loses
  nothing.
 */
module UpdateInfoXml {
  import opened Optional
  import opened XmlTree
  import opened UpdateInfoRecords

  // Encoding.

  /** An attribute, present when the field is set. */
  function OptAttr(name: string, v: Option<string>): Option<Attr>
  {
    if v.Some? then Some(Attr(name, v.value)) else None
  }

  /** A text-only child `<name>v</name>`, present when the field is set. */
  function OptText(name: string, v: Option<string>): Option<Element>
  {
    if v.Some? then Some(Element(name, [], Text(v.value))) else None
  }

  /** An empty child carrying the field as its `date` attribute, present when the field is set. */
  function OptDate(name: string, v: Option<string>): Option<Element>
  {
    if v.Some? then Some(Element(name, [Attr("date", v.value)], NoContent)) else None
  }

  const REFERENCE_ATTRS: seq<string> := ["href", "id", "type", "title"]

  function ReferenceAttrSlots(r: Reference): seq<Option<Attr>>
  {
    [OptAttr("href", r.href), OptAttr("id", r.id), OptAttr("type", r.rtype), OptAttr("title", r.title)]
  }

  /** `<reference href id type title/>`. */
  function ReferenceElem(r: Reference): Element
  {
    Element("reference", Present(ReferenceAttrSlots(r)), NoContent)
  }

  /** The attribute names of a package element; the release is written as `relase`. */
  const PACKAGE_ATTRS: seq<string> := ["name", "version", "relase", "epoch", "arch", "src"]

  const PACKAGE_KIDS: seq<string> := ["filename", "sum", "reboot_suggested"]

  function PackageAttrSlots(p: CollectionPackage): seq<Option<Attr>>
  {
    [OptAttr("name", p.name), OptAttr("version", p.version), OptAttr("relase", p.release),
     OptAttr("epoch", p.epoch), OptAttr("arch", p.arch), OptAttr("src", p.src)]
  }

  /** `<sum type="...">sum</sum>`, present when the checksum or its kind is set. */
  function SumSlot(p: CollectionPackage): Option<Element>
  {
    if p.sum.None? && p.sumType.None? then None
    else
      Some(Element("sum",
                   if p.sumType.Some? then [Attr("type", ChecksumName(p.sumType.value))] else [],
                   if p.sum.Some? then Text(p.sum.value) else NoContent))
  }

  function PackageKidSlots(p: CollectionPackage): seq<Option<Element>>
  {
    [OptText("filename", p.filename), SumSlot(p),
     if p.rebootSuggested then Some(Element("reboot_suggested", [], NoContent)) else None]
  }

  function PackageElem(p: CollectionPackage): Element
  {
    Element("package", Present(PackageAttrSlots(p)), Kids(Present(PackageKidSlots(p))))
  }

  function PackageElems(ps: seq<CollectionPackage>): (r: seq<Element>)
    ensures |r| == |ps| && forall i | 0 <= i < |ps| :: r[i] == PackageElem(ps[i])
  {
    seq(|ps|, i requires 0 <= i < |ps| => PackageElem(ps[i]))
  }

  /** `<collection short>`, holding `<name>` and then its packages. */
  function CollectionElem(c: Collection): Element
  {
    Element("collection", Present([OptAttr("short", c.shortname)]),
            Kids(Present([OptText("name", c.name)]) + PackageElems(c.packages)))
  }

  const RECORD_ATTRS: seq<string> := ["from", "status", "type", "version"]

  const RECORD_KIDS: seq<string> :=
    ["id", "title", "issued", "updated", "rights", "release", "pushcount", "severity",
     "summary", "description", "solution", "references", "pkglist"]

  function RecordAttrSlots(r: Record): seq<Option<Attr>>
  {
    [OptAttr("from", r.fromstr), OptAttr("status", r.status), OptAttr("type", r.rtype), OptAttr("version", r.version)]
  }

  function ReferenceElems(refs: seq<Reference>): (r: seq<Element>)
    ensures |r| == |refs| && forall i | 0 <= i < |refs| :: r[i] == ReferenceElem(refs[i])
  {
    seq(|refs|, i requires 0 <= i < |refs| => ReferenceElem(refs[i]))
  }

  function CollectionElems(cols: seq<Collection>): (r: seq<Element>)
    ensures |r| == |cols| && forall i | 0 <= i < |cols| :: r[i] == CollectionElem(cols[i])
  {
    seq(|cols|, i requires 0 <= i < |cols| => CollectionElem(cols[i]))
  }

  /** `<references>` holding one `<reference/>` per reference, self-closing when there is none. */
  function ReferencesElem(refs: seq<Reference>): Element
  {
    Element("references", [], Kids(ReferenceElems(refs)))
  }

  /** `<pkglist>` holding one `<collection>` per collection, self-closing when there is none. */
  function PkglistElem(cols: seq<Collection>): Element
  {
    Element("pkglist", [], Kids(CollectionElems(cols)))
  }

  function RecordKidSlots(r: Record): seq<Option<Element>>
  {
    [OptText("id", r.id), OptText("title", r.title), OptDate("issued", r.issuedDate),
     OptDate("updated", r.updatedDate), OptText("rights", r.rights), OptText("release", r.release),
     OptText("pushcount", r.pushcount), OptText("severity", r.severity), OptText("summary", r.summary),
     OptText("description", r.description), OptText("solution", r.solution),
     Some(ReferencesElem(r.references)), Some(PkglistElem(r.collections))]
  }

  /** `<update from status type version>` with its children in their fixed order. */
  function RecordElem(r: Record): Element
  {
    Element("update", Present(RecordAttrSlots(r)), Kids(Present(RecordKidSlots(r))))
  }

  function RecordElems(rs: seq<Record>): (r: seq<Element>)
    ensures |r| == |rs| && forall i | 0 <= i < |rs| :: r[i] == RecordElem(rs[i])
  {
    seq(|rs|, i requires 0 <= i < |rs| => RecordElem(rs[i]))
  }

  /** `<updates>` holding one `<update>` per record, self-closing when there is none. */
  function InfoElem(info: Info): Element
  {
    Element("updates", [], Kids(RecordElems(info.updates)))
  }

  /** The text `xml_dump` returns for an updateinfo. */
  function Dump(info: Info): string
  {
    DocumentText(InfoElem(info))
  }

  // Decoding.

  function Child(kids: seq<Element>, name: string): Option<Element>
  {
    FirstNamed(kids, ElemName, name)
  }

  function KidsOf(e: Option<Element>): seq<Element>
  {
    if e.Some? && e.value.content.Kids? then e.value.content.kids else []
  }

  function TextOf(e: Option<Element>): Option<string>
  {
    if e.Some? && e.value.content.Text? then Some(e.value.content.text) else None
  }

  function DateOf(e: Option<Element>): Option<string>
  {
    if e.Some? then AttrValue(e.value.attrs, "date") else None
  }

  function ReferenceOf(e: Element): Reference
  {
    Reference(AttrValue(e.attrs, "href"), AttrValue(e.attrs, "id"), AttrValue(e.attrs, "type"), AttrValue(e.attrs, "title"))
  }

  function SumTypeOf(e: Option<Element>): Option<ChecksumType>
  {
    if e.None? then None
    else
      var t := AttrValue(e.value.attrs, "type");
      if t.Some? then ChecksumOfName(t.value) else None
  }

  function PackageOf(e: Element): CollectionPackage
  {
    var kids := KidsOf(Some(e));
    CollectionPackage(
      AttrValue(e.attrs, "name"), AttrValue(e.attrs, "version"), AttrValue(e.attrs, "relase"),
      AttrValue(e.attrs, "epoch"), AttrValue(e.attrs, "arch"), AttrValue(e.attrs, "src"),
      TextOf(Child(kids, "filename")), TextOf(Child(kids, "sum")), SumTypeOf(Child(kids, "sum")),
      Child(kids, "reboot_suggested").Some?)
  }

  /** The children of a collection after its leading `<name>`. */
  function PackagesPart(kids: seq<Element>): seq<Element>
  {
    if kids != [] && kids[0].name == "name" then kids[1..] else kids
  }

  function PackagesOf(ks: seq<Element>): (r: seq<CollectionPackage>)
    ensures |r| == |ks| && forall i | 0 <= i < |ks| :: r[i] == PackageOf(ks[i])
  {
    seq(|ks|, i requires 0 <= i < |ks| => PackageOf(ks[i]))
  }

  function CollectionOf(e: Element): Collection
  {
    var kids := KidsOf(Some(e));
    Collection(AttrValue(e.attrs, "short"), TextOf(Child(kids, "name")), PackagesOf(PackagesPart(kids)))
  }

  function ReferencesOf(ks: seq<Element>): (r: seq<Reference>)
    ensures |r| == |ks| && forall i | 0 <= i < |ks| :: r[i] == ReferenceOf(ks[i])
  {
    seq(|ks|, i requires 0 <= i < |ks| => ReferenceOf(ks[i]))
  }

  function CollectionsOf(ks: seq<Element>): (r: seq<Collection>)
    ensures |r| == |ks| && forall i | 0 <= i < |ks| :: r[i] == CollectionOf(ks[i])
  {
    seq(|ks|, i requires 0 <= i < |ks| => CollectionOf(ks[i]))
  }

  function RecordOf(e: Element): Record
  {
    var a, kids := e.attrs, KidsOf(Some(e));
    var refs, cols := KidsOf(Child(kids, "references")), KidsOf(Child(kids, "pkglist"));
    Record(
      AttrValue(a, "from"), AttrValue(a, "status"), AttrValue(a, "type"), AttrValue(a, "version"),
      TextOf(Child(kids, "id")), TextOf(Child(kids, "title")),
      DateOf(Child(kids, "issued")), DateOf(Child(kids, "updated")),
      TextOf(Child(kids, "rights")), TextOf(Child(kids, "release")), TextOf(Child(kids, "pushcount")),
      TextOf(Child(kids, "severity")), TextOf(Child(kids, "summary")), TextOf(Child(kids, "description")),
      TextOf(Child(kids, "solution")),
      ReferencesOf(refs), CollectionsOf(cols))
  }

  function RecordsOf(ks: seq<Element>): (r: seq<Record>)
    ensures |r| == |ks| && forall i | 0 <= i < |ks| :: r[i] == RecordOf(ks[i])
  {
    seq(|ks|, i requires 0 <= i < |ks| => RecordOf(ks[i]))
  }

  function InfoOf(e: Element): Info
  {
    Info(RecordsOf(KidsOf(Some(e))))
  }

  // Round trip.

  /** Reading back an attribute written from slot `k` gives the field that slot was made of. */
  lemma AttrSlot(slots: seq<Option<Attr>>, names: seq<string>, k: nat, v: Option<string>)
    requires NamedSlots(slots, AttrName, names) && k < |slots| && slots[k] == OptAttr(names[k], v)
    ensures AttrValue(Present(slots), names[k]) == v
  {
    FirstNamedPresent(slots, AttrName, names, k);
  }

  lemma {:induction false} ReferenceRoundTrip(r: Reference)
    ensures ReferenceOf(ReferenceElem(r)) == r
  {
    var slots := ReferenceAttrSlots(r);
    assert NamedSlots(slots, AttrName, REFERENCE_ATTRS);
    AttrSlot(slots, REFERENCE_ATTRS, 0, r.href);
    AttrSlot(slots, REFERENCE_ATTRS, 1, r.id);
    AttrSlot(slots, REFERENCE_ATTRS, 2, r.rtype);
    AttrSlot(slots, REFERENCE_ATTRS, 3, r.title);
  }

  lemma PackageAttrsNamed(p: CollectionPackage)
    ensures NamedSlots(PackageAttrSlots(p), AttrName, PACKAGE_ATTRS)
  {
  }

  lemma PackageKidsNamed(p: CollectionPackage)
    ensures NamedSlots(PackageKidSlots(p), ElemName, PACKAGE_KIDS)
  {
  }

  lemma SumBack(p: CollectionPackage)
    ensures TextOf(SumSlot(p)) == p.sum && SumTypeOf(SumSlot(p)) == p.sumType
  {
    if p.sumType.Some? {
      var t := [Attr("type", ChecksumName(p.sumType.value))];
      assert FirstNamed(t, AttrName, "type") == Some(t[0]);
    } else {
      assert FirstNamed([], AttrName, "type") == None;
    }
  }

  lemma PackageAttrsBack(p: CollectionPackage)
    ensures var a := Present(PackageAttrSlots(p));
            && AttrValue(a, "name") == p.name && AttrValue(a, "version") == p.version
            && AttrValue(a, "relase") == p.release && AttrValue(a, "epoch") == p.epoch
            && AttrValue(a, "arch") == p.arch && AttrValue(a, "src") == p.src
  {
    var slots := PackageAttrSlots(p);
    PackageAttrsNamed(p);
    AttrSlot(slots, PACKAGE_ATTRS, 0, p.name);
    AttrSlot(slots, PACKAGE_ATTRS, 1, p.version);
    AttrSlot(slots, PACKAGE_ATTRS, 2, p.release);
    AttrSlot(slots, PACKAGE_ATTRS, 3, p.epoch);
    AttrSlot(slots, PACKAGE_ATTRS, 4, p.arch);
    AttrSlot(slots, PACKAGE_ATTRS, 5, p.src);
  }

  lemma PackageKidsBack(p: CollectionPackage)
    ensures var k := Present(PackageKidSlots(p));
            && Child(k, "filename") == OptText("filename", p.filename)
            && Child(k, "sum") == SumSlot(p)
            && Child(k, "reboot_suggested").Some? == p.rebootSuggested
  {
    var kids := PackageKidSlots(p);
    PackageKidsNamed(p);
    FirstNamedPresent(kids, ElemName, PACKAGE_KIDS, 0);
    FirstNamedPresent(kids, ElemName, PACKAGE_KIDS, 1);
    FirstNamedPresent(kids, ElemName, PACKAGE_KIDS, 2);
  }

  lemma {:induction false} PackageRoundTrip(p: CollectionPackage)
    ensures PackageOf(PackageElem(p)) == p
  {
    PackageAttrsBack(p);
    PackageKidsBack(p);
    SumBack(p);
  }

  lemma PackagesRoundTrip(ps: seq<CollectionPackage>)
    ensures PackagesOf(PackageElems(ps)) == ps
  {
    forall i | 0 <= i < |ps| ensures PackageOf(PackageElem(ps[i])) == ps[i] {
      PackageRoundTrip(ps[i]);
    }
  }

  /** The children of a collection: its `<name>` is found, and the packages follow it. */
  lemma CollectionKidsBack(name: Option<string>, ps: seq<CollectionPackage>)
    ensures var kids := Present([OptText("name", name)]) + PackageElems(ps);
            TextOf(Child(kids, "name")) == name && PackagesPart(kids) == PackageElems(ps)
  {
    var pes := PackageElems(ps);
    var kids := Present([OptText("name", name)]) + pes;
    assert Present([OptText("name", name)][1..]) == [];
    if name.Some? {
      assert kids == [Element("name", [], Text(name.value))] + pes;
      assert kids[0] == Element("name", [], Text(name.value)) && kids[1..] == pes;
    } else {
      assert kids == pes;
      FirstNamedExists(kids, ElemName, "name");
      assert forall x | x in pes :: x.name == "package";
    }
  }

  lemma {:induction false} CollectionRoundTrip(c: Collection)
    ensures CollectionOf(CollectionElem(c)) == c
  {
    AttrSlot([OptAttr("short", c.shortname)], ["short"], 0, c.shortname);
    CollectionKidsBack(c.name, c.packages);
    PackagesRoundTrip(c.packages);
  }

  lemma RecordAttrsBack(r: Record)
    ensures var a := Present(RecordAttrSlots(r));
            && AttrValue(a, "from") == r.fromstr && AttrValue(a, "status") == r.status
            && AttrValue(a, "type") == r.rtype && AttrValue(a, "version") == r.version
  {
    var slots := RecordAttrSlots(r);
    assert NamedSlots(slots, AttrName, RECORD_ATTRS);
    AttrSlot(slots, RECORD_ATTRS, 0, r.fromstr);
    AttrSlot(slots, RECORD_ATTRS, 1, r.status);
    AttrSlot(slots, RECORD_ATTRS, 2, r.rtype);
    AttrSlot(slots, RECORD_ATTRS, 3, r.version);
  }

  lemma RecordKidNamesDistinct()
    ensures forall i, j | 0 <= i < j < |RECORD_KIDS| :: RECORD_KIDS[i] != RECORD_KIDS[j]
  {
  }

  lemma RecordKidsNamed(r: Record)
    ensures NamedSlots(RecordKidSlots(r), ElemName, RECORD_KIDS)
  {
    RecordKidNamesDistinct();
    var slots := RecordKidSlots(r);
    forall i | 0 <= i < |slots| ensures slots[i].Some? ==> ElemName(slots[i].value) == RECORD_KIDS[i] {
      if i == 0 {} else if i == 1 {} else if i == 2 {} else if i == 3 {} else if i == 4 {}
      else if i == 5 {} else if i == 6 {} else if i == 7 {} else if i == 8 {} else if i == 9 {}
      else if i == 10 {} else if i == 11 {} else {}
    }
  }

  lemma RecordKidBack(r: Record, i: nat)
    requires i < |RECORD_KIDS|
    ensures Child(Present(RecordKidSlots(r)), RECORD_KIDS[i]) == RecordKidSlots(r)[i]
  {
    RecordKidsNamed(r);
    FirstNamedPresent(RecordKidSlots(r), ElemName, RECORD_KIDS, i);
  }

  lemma TextBack(name: string, v: Option<string>)
    ensures TextOf(OptText(name, v)) == v
  {
  }

  lemma DateBack(name: string, v: Option<string>)
    ensures DateOf(OptDate(name, v)) == v
  {
    if v.Some? {
      assert FirstNamed([Attr("date", v.value)], AttrName, "date") == Some(Attr("date", v.value));
    }
  }

  lemma RecordKidsHead(r: Record)
    ensures var k := Present(RecordKidSlots(r));
            && Child(k, "id") == OptText("id", r.id) && Child(k, "title") == OptText("title", r.title)
            && Child(k, "issued") == OptDate("issued", r.issuedDate)
            && Child(k, "updated") == OptDate("updated", r.updatedDate)
  {
    var slots := RecordKidSlots(r);
    assert RECORD_KIDS[0] == "id" && RECORD_KIDS[1] == "title" && RECORD_KIDS[2] == "issued"
        && RECORD_KIDS[3] == "updated";
    assert slots[0] == OptText("id", r.id) && slots[1] == OptText("title", r.title)
        && slots[2] == OptDate("issued", r.issuedDate) && slots[3] == OptDate("updated", r.updatedDate);
    RecordKidBack(r, 0);
    RecordKidBack(r, 1);
    RecordKidBack(r, 2);
    RecordKidBack(r, 3);
  }

  lemma RecordKidsBody(r: Record)
    ensures var k := Present(RecordKidSlots(r));
            && Child(k, "rights") == OptText("rights", r.rights) && Child(k, "release") == OptText("release", r.release)
            && Child(k, "pushcount") == OptText("pushcount", r.pushcount)
            && Child(k, "severity") == OptText("severity", r.severity)
  {
    var slots := RecordKidSlots(r);
    assert RECORD_KIDS[4] == "rights" && RECORD_KIDS[5] == "release" && RECORD_KIDS[6] == "pushcount"
        && RECORD_KIDS[7] == "severity";
    assert slots[4] == OptText("rights", r.rights) && slots[5] == OptText("release", r.release)
        && slots[6] == OptText("pushcount", r.pushcount) && slots[7] == OptText("severity", r.severity);
    RecordKidBack(r, 4);
    RecordKidBack(r, 5);
    RecordKidBack(r, 6);
    RecordKidBack(r, 7);
  }

  lemma RecordKidsTexts(r: Record)
    ensures var k := Present(RecordKidSlots(r));
            && Child(k, "summary") == OptText("summary", r.summary)
            && Child(k, "description") == OptText("description", r.description)
            && Child(k, "solution") == OptText("solution", r.solution)
  {
    var slots := RecordKidSlots(r);
    assert RECORD_KIDS[8] == "summary" && RECORD_KIDS[9] == "description" && RECORD_KIDS[10] == "solution";
    assert slots[8] == OptText("summary", r.summary) && slots[9] == OptText("description", r.description)
        && slots[10] == OptText("solution", r.solution);
    RecordKidBack(r, 8);
    RecordKidBack(r, 9);
    RecordKidBack(r, 10);
  }

  /** The identifying children (`id` to `updated`) read back as the fields they were written from. */
  lemma RecordHeadBack(r: Record)
    ensures var k := Present(RecordKidSlots(r));
            && TextOf(Child(k, "id")) == r.id && TextOf(Child(k, "title")) == r.title
            && DateOf(Child(k, "issued")) == r.issuedDate && DateOf(Child(k, "updated")) == r.updatedDate
  {
    RecordKidsHead(r);
    TextBack("id", r.id);
    TextBack("title", r.title);
    DateBack("issued", r.issuedDate);
    DateBack("updated", r.updatedDate);
  }

  /** The classifying children (`rights` to `severity`) read back as the fields they were written from. */
  lemma RecordBodyBack(r: Record)
    ensures var k := Present(RecordKidSlots(r));
            && TextOf(Child(k, "rights")) == r.rights && TextOf(Child(k, "release")) == r.release
            && TextOf(Child(k, "pushcount")) == r.pushcount && TextOf(Child(k, "severity")) == r.severity
  {
    RecordKidsBody(r);
    TextBack("rights", r.rights);
    TextBack("release", r.release);
    TextBack("pushcount", r.pushcount);
    TextBack("severity", r.severity);
  }

  /** The descriptive children (`summary` to `solution`) read back as the fields they were written from. */
  lemma RecordTextsBack(r: Record)
    ensures var k := Present(RecordKidSlots(r));
            && TextOf(Child(k, "summary")) == r.summary && TextOf(Child(k, "description")) == r.description
            && TextOf(Child(k, "solution")) == r.solution
  {
    RecordKidsTexts(r);
    TextBack("summary", r.summary);
    TextBack("description", r.description);
    TextBack("solution", r.solution);
  }

  /** The `references` and `pkglist` children read back as the lists they were written from. */
  lemma RecordListsBack(r: Record)
    ensures var k := Present(RecordKidSlots(r));
            && KidsOf(Child(k, "references")) == ReferencesElem(r.references).content.kids
            && KidsOf(Child(k, "pkglist")) == PkglistElem(r.collections).content.kids
  {
    RecordKidBack(r, 11);
    RecordKidBack(r, 12);
  }

  lemma ReferencesRoundTrip(refs: seq<Reference>)
    ensures ReferencesOf(ReferenceElems(refs)) == refs
  {
    forall i | 0 <= i < |refs| ensures ReferenceOf(ReferenceElem(refs[i])) == refs[i] {
      ReferenceRoundTrip(refs[i]);
    }
  }

  lemma CollectionsRoundTrip(cols: seq<Collection>)
    ensures CollectionsOf(CollectionElems(cols)) == cols
  {
    forall i | 0 <= i < |cols| ensures CollectionOf(CollectionElem(cols[i])) == cols[i] {
      CollectionRoundTrip(cols[i]);
    }
  }

  lemma {:induction false} RecordRoundTrip(r: Record)
    ensures RecordOf(RecordElem(r)) == r
  {
    RecordAttrsBack(r);
    RecordHeadBack(r);
    RecordBodyBack(r);
    RecordTextsBack(r);
    RecordListsBack(r);
    ReferencesRoundTrip(r.references);
    CollectionsRoundTrip(r.collections);
  }

  /** Reading back the tree an updateinfo is written as gives the same updateinfo: no record,
      field, reference, collection or package is lost or reordered. */
  lemma InfoRoundTrip(info: Info)
    ensures InfoOf(InfoElem(info)) == info
  {
    forall i | 0 <= i < |info.updates| ensures RecordOf(RecordElem(info.updates[i])) == info.updates[i] {
      RecordRoundTrip(info.updates[i]);
    }
  }
}
