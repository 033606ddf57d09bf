/**
  The layout `xml_dump` gives an updateinfo, stated line by line: the order of attributes and
  children, the `date` attributes, the checksum kind, self-closing empty lists and the
  two-space indentation of each nesting level.

  Lines are stated with each attribute as its own piece, ` name="` + value + `"`, so that a
  line reads as the text it stands for.
 */
module UpdateInfoLayout {
  import opened Optional
  import opened XmlTree
  import opened UpdateInfoRecords
  import opened UpdateInfoXml

  // References.

  predicate ReferenceSet(r: Reference)
  {
    r.href.Some? && r.id.Some? && r.rtype.Some? && r.title.Some?
  }

  /** A fully set reference is one self-closing line with its attributes in the order href, id, type, title. */
  lemma ReferenceLine(r: Reference, d: nat)
    requires ReferenceSet(r)
    ensures Render(ReferenceElem(r), d)
         == [Indent(d) + "<reference" + " href=\"" + r.href.value + "\"" + " id=\"" + r.id.value + "\""
             + " type=\"" + r.rtype.value + "\"" + " title=\"" + r.title.value + "\"" + "/>"]
  {
    assert " " + "href" + "=\"" == " href=\"" && " " + "id" + "=\"" == " id=\"";
    assert " " + "type" + "=\"" == " type=\"" && " " + "title" + "=\"" == " title=\"";
    var h, i, t, ti := r.href.value, r.id.value, r.rtype.value, r.title.value;
    PresentAllSome(ReferenceAttrSlots(r));
    assert Present(ReferenceAttrSlots(r)) == [Attr("href", h), Attr("id", i), Attr("type", t), Attr("title", ti)];
    var e := ReferenceElem(r);
    var ind := Indent(d);
    assert Render(e, d) == [ind + EmptyTag(e)];
    EmptyTagStep(ind, e);
    var x0 := ind + "<reference";
    assert ind + "<" + "reference" == x0;
    AttrsText4(x0, "href", " href=\"", h, "id", " id=\"", i, "type", " type=\"", t,
               "title", " title=\"", ti, "/>");
  }

  // Collection packages.

  /** Every package field set, with a SHA-1 checksum and a reboot suggested. */
  predicate PackageSet(p: CollectionPackage)
  {
    p.name.Some? && p.version.Some? && p.release.Some? && p.epoch.Some? && p.arch.Some? && p.src.Some?
    && p.filename.Some? && p.sum.Some? && p.sumType == Some(Sha1) && p.rebootSuggested
  }

  lemma PackageTag(ind: string, n: string, v: string, rel: string, ep: string, ar: string, src: string, c: Content)
    ensures ind + StartTag(Element("package", [Attr("name", n), Attr("version", v), Attr("relase", rel),
                                               Attr("epoch", ep), Attr("arch", ar), Attr("src", src)], c))
         == ind + "<package" + " name=\"" + n + "\"" + " version=\"" + v + "\"" + " relase=\"" + rel + "\""
            + " epoch=\"" + ep + "\"" + " arch=\"" + ar + "\"" + " src=\"" + src + "\"" + ">"
  {
    assert " " + "name" + "=\"" == " name=\"" && " " + "version" + "=\"" == " version=\"";
    assert " " + "relase" + "=\"" == " relase=\"" && " " + "epoch" + "=\"" == " epoch=\"";
    assert " " + "arch" + "=\"" == " arch=\"" && " " + "src" + "=\"" == " src=\"";
    var a0, a1, a2, a3, a4, a5 := Attr("name", n), Attr("version", v), Attr("relase", rel), Attr("epoch", ep), Attr("arch", ar), Attr("src", src);
    StartTagStep(ind, Element("package", [a0, a1, a2, a3, a4, a5], c));
    var x0 := ind + "<package";
    assert ind + "<" + "package" == x0;
    assert [a0, a1, a2, a3, a4, a5] == [a0, a1, a2] + [a3, a4, a5];
    assert [a3, a4, a5] == [a3, a4, a5] + [];
    AttrsText3(x0, "name", " name=\"", n, "version", " version=\"", v, "relase", " relase=\"", rel, [a3, a4, a5], ">");
    var x3 := x0 + " name=\"" + n + "\"" + " version=\"" + v + "\"" + " relase=\"" + rel + "\"";
    AttrsText3(x3, "epoch", " epoch=\"", ep, "arch", " arch=\"", ar, "src", " src=\"", src, [], ">");
    var x6 := x3 + " epoch=\"" + ep + "\"" + " arch=\"" + ar + "\"" + " src=\"" + src + "\"";
    assert x6 + AttrsText([]) == x6;
  }

  /** The start line of a fully set package: its attributes in the order name, version, relase, epoch, arch, src. */
  lemma PackageStartLine(p: CollectionPackage, d: nat)
    requires PackageSet(p)
    ensures Indent(d) + StartTag(PackageElem(p))
         == Indent(d) + "<package" + " name=\"" + p.name.value + "\"" + " version=\"" + p.version.value + "\""
            + " relase=\"" + p.release.value + "\"" + " epoch=\"" + p.epoch.value + "\""
            + " arch=\"" + p.arch.value + "\"" + " src=\"" + p.src.value + "\"" + ">"
  {
    PresentAllSome(PackageAttrSlots(p));
    assert Present(PackageAttrSlots(p))
        == [Attr("name", p.name.value), Attr("version", p.version.value), Attr("relase", p.release.value),
            Attr("epoch", p.epoch.value), Attr("arch", p.arch.value), Attr("src", p.src.value)];
    PackageTag(Indent(d), p.name.value, p.version.value, p.release.value, p.epoch.value, p.arch.value, p.src.value,
               PackageElem(p).content);
  }

  /** `<sum type="sha1">` around the checksum. */
  lemma SumLine(s: string, d: nat)
    ensures Render(Element("sum", [Attr("type", "sha1")], Text(s)), d)
         == [Indent(d) + "<sum" + " type=\"" + "sha1" + "\"" + ">" + s + "</sum>"]
  {
    var e := Element("sum", [Attr("type", "sha1")], Text(s));
    var ind := Indent(d);
    StartTagStep(ind, e);
    assert ind + "<" + "sum" == ind + "<sum";
    assert [Attr("type", "sha1")] + [] == [Attr("type", "sha1")];
    AttrsTextNext(ind + "<sum", "type", " type=\"", "sha1", [], ">");
    var x := ind + "<sum" + " type=\"" + "sha1" + "\"" + ">";
    assert ind + StartTag(e) == x;
    assert EndTag(e) == "</sum>";
    assert Render(e, d) == [ind + (StartTag(e) + s + EndTag(e))];
    assert ind + (StartTag(e) + s + EndTag(e)) == ind + StartTag(e) + s + EndTag(e);
  }

  /** The children of a fully set package: filename, then sum, then reboot_suggested. */
  lemma PackageKidLines(p: CollectionPackage, d: nat)
    requires PackageSet(p)
    ensures RenderAll(Present(PackageKidSlots(p)), d)
         == [Indent(d) + "<filename>" + p.filename.value + "</filename>",
             Indent(d) + "<sum" + " type=\"" + "sha1" + "\"" + ">" + p.sum.value + "</sum>"]
            + [Indent(d) + "<reboot_suggested/>"]
  {
    assert "<filename>" == "<" + "filename" + ">" && "</filename>" == "</" + "filename" + ">";
    assert "<reboot_suggested/>" == "<" + "reboot_suggested" + "/>";
    var f := Element("filename", [], Text(p.filename.value));
    var s := Element("sum", [Attr("type", "sha1")], Text(p.sum.value));
    var b := Element("reboot_suggested", [], NoContent);
    assert PackageKidSlots(p) == [Some(f), Some(s), Some(b)];
    PresentSome3(f, s, b);
    RenderAll3(f, s, b, d);
    TextLineTags("filename", "<filename>", "</filename>", p.filename.value, d);
    SumLine(p.sum.value, d);
    EmptyLineTag("reboot_suggested", "<reboot_suggested/>", d);
  }

  /** A fully set package is its start line, its children one level deeper and `</package>`. */
  lemma PackageLines(p: CollectionPackage, d: nat)
    requires PackageSet(p)
    ensures Render(PackageElem(p), d)
         == [Indent(d) + "<package" + " name=\"" + p.name.value + "\"" + " version=\"" + p.version.value + "\""
             + " relase=\"" + p.release.value + "\"" + " epoch=\"" + p.epoch.value + "\""
             + " arch=\"" + p.arch.value + "\"" + " src=\"" + p.src.value + "\"" + ">",
             Indent(d + 1) + "<filename>" + p.filename.value + "</filename>",
             Indent(d + 1) + "<sum" + " type=\"" + "sha1" + "\"" + ">" + p.sum.value + "</sum>"]
            + [Indent(d + 1) + "<reboot_suggested/>"]
            + [Indent(d) + "</package>"]
  {
    PackageKidLines(p, d + 1);
    PackageStartLine(p, d);
    ParentLines(PackageElem(p), d);
    assert Indent(d) + "</" + "package" + ">" == Indent(d) + "</package>";
  }

  // Collections and the lists of a record.

  lemma CollectionStartLine(c: Collection, d: nat)
    requires c.shortname.Some?
    ensures Indent(d) + StartTag(CollectionElem(c)) == Indent(d) + "<collection" + " short=\"" + c.shortname.value + "\"" + ">"
  {
    var sh := c.shortname.value;
    var ind := Indent(d);
    assert Present([OptAttr("short", c.shortname)]) == [Attr("short", sh)];
    StartTagStep(ind, CollectionElem(c));
    assert ind + "<" + "collection" == ind + "<collection";
    assert [Attr("short", sh)] + [] == [Attr("short", sh)];
    AttrsTextNext(ind + "<collection", "short", " short=\"", sh, [], ">");
  }

  /** The children of a collection with its name set: `<name>`, then one element per package. */
  lemma CollectionKids(c: Collection)
    requires c.name.Some?
    ensures CollectionElem(c).content.kids == [Element("name", [], Text(c.name.value))] + PackageElems(c.packages)
  {
    assert Present([OptText("name", c.name)]) == [Element("name", [], Text(c.name.value))];
  }

  lemma NameLineThen(n: string, ks: seq<Element>, d: nat)
    ensures RenderAll([Element("name", [], Text(n))] + ks, d) == [Indent(d) + "<name>" + n + "</name>"] + RenderAll(ks, d)
  {
    RenderAllCons(Element("name", [], Text(n)), ks, d);
    TextLineTags("name", "<name>", "</name>", n, d);
  }

  lemma CollectionKidLines(c: Collection, d: nat)
    requires c.name.Some?
    ensures RenderAll(CollectionElem(c).content.kids, d)
         == [Indent(d) + "<name>" + c.name.value + "</name>"] + RenderAll(PackageElems(c.packages), d)
  {
    CollectionKids(c);
    NameLineThen(c.name.value, PackageElems(c.packages), d);
  }

  /** A collection with its short name and name set: `<collection short>`, `<name>`, its packages, `</collection>`. */
  lemma CollectionLines(c: Collection, d: nat)
    requires c.shortname.Some? && c.name.Some?
    ensures Render(CollectionElem(c), d)
         == [Indent(d) + "<collection" + " short=\"" + c.shortname.value + "\"" + ">"]
            + ([Indent(d + 1) + "<name>" + c.name.value + "</name>"] + RenderAll(PackageElems(c.packages), d + 1))
            + [Indent(d) + "</collection>"]
  {
    assert "</collection>" == "</" + "collection" + ">";
    var ind := Indent(d);
    var start := ind + "<collection" + " short=\"" + c.shortname.value + "\"" + ">";
    var kids := [Indent(d + 1) + "<name>" + c.name.value + "</name>"] + RenderAll(PackageElems(c.packages), d + 1);
    CollectionStartLine(c, d);
    CollectionKidLines(c, d + 1);
    CollectionKids(c);
    assert ind + "</" + "collection" + ">" == ind + "</collection>";
    ElementLines(CollectionElem(c), d, start, kids, ind + "</collection>");
  }

  /** `<references>` holds one line group per reference, and is `<references/>` when there is none. */
  lemma ReferencesLines(refs: seq<Reference>, d: nat)
    ensures Render(ReferencesElem(refs), d)
         == if refs == [] then [Indent(d) + "<references/>"]
            else [Indent(d) + "<references>"] + RenderAll(ReferenceElems(refs), d + 1) + [Indent(d) + "</references>"]
  {
    assert "<references/>" == "<" + "references" + "/>" && "<references>" == "<" + "references" + ">" && "</references>" == "</" + "references" + ">";
    ListLinesTags("references", "<references/>", "<references>", "</references>", ReferenceElems(refs), d);
  }

  /** `<pkglist>` holds one line group per collection, and is `<pkglist/>` when there is none. */
  lemma PkglistLines(cols: seq<Collection>, d: nat)
    ensures Render(PkglistElem(cols), d)
         == if cols == [] then [Indent(d) + "<pkglist/>"]
            else [Indent(d) + "<pkglist>"] + RenderAll(CollectionElems(cols), d + 1) + [Indent(d) + "</pkglist>"]
  {
    assert "<pkglist/>" == "<" + "pkglist" + "/>" && "<pkglist>" == "<" + "pkglist" + ">" && "</pkglist>" == "</" + "pkglist" + ">";
    ListLinesTags("pkglist", "<pkglist/>", "<pkglist>", "</pkglist>", CollectionElems(cols), d);
  }

  /** The lines of a list of elements are the lines of each element in turn. */
  lemma {:induction false} RenderAllEach(ks: seq<Element>, d: nat, i: nat)
    requires i < |ks|
    ensures RenderAll(ks, d) == RenderAll(ks[..i], d) + Render(ks[i], d) + RenderAll(ks[i + 1..], d)
  {
    assert ks == ks[..i] + ([ks[i]] + ks[i + 1..]);
    RenderAllAppend(ks[..i], [ks[i]] + ks[i + 1..], d);
    RenderAllCons(ks[i], ks[i + 1..], d);
  }

  // Update records.

  /** Every string field of the record set. */
  predicate RecordSet(r: Record)
  {
    r.fromstr.Some? && r.status.Some? && r.rtype.Some? && r.version.Some? && r.id.Some? && r.title.Some?
    && r.issuedDate.Some? && r.updatedDate.Some? && r.rights.Some? && r.release.Some? && r.pushcount.Some?
    && r.severity.Some? && r.summary.Some? && r.description.Some? && r.solution.Some?
  }

  /** The start line of a fully set record: its attributes in the order from, status, type, version. */
  lemma RecordStartLine(r: Record, d: nat)
    requires RecordSet(r)
    ensures Indent(d) + StartTag(RecordElem(r))
         == Indent(d) + "<update" + " from=\"" + r.fromstr.value + "\"" + " status=\"" + r.status.value + "\""
            + " type=\"" + r.rtype.value + "\"" + " version=\"" + r.version.value + "\"" + ">"
  {
    assert " " + "from" + "=\"" == " from=\"" && " " + "status" + "=\"" == " status=\"";
    assert " " + "type" + "=\"" == " type=\"" && " " + "version" + "=\"" == " version=\"";
    var f, s, t, v := r.fromstr.value, r.status.value, r.rtype.value, r.version.value;
    PresentAllSome(RecordAttrSlots(r));
    assert Present(RecordAttrSlots(r)) == [Attr("from", f), Attr("status", s), Attr("type", t), Attr("version", v)];
    var ind := Indent(d);
    StartTagStep(ind, RecordElem(r));
    var x0 := ind + "<update";
    assert ind + "<" + "update" == x0;
    AttrsText4(x0, "from", " from=\"", f, "status", " status=\"", s, "type", " type=\"", t,
               "version", " version=\"", v, ">");
  }

  /** `<name>v</name>` for a text child. */
  lemma TextChildLine(name: string, v: string, d: nat)
    ensures Render(OptText(name, Some(v)).value, d) == [Indent(d) + "<" + name + ">" + v + "</" + name + ">"]
  {
    TextLine(name, v, d);
  }

  /** `<name date="v"/>` for a date child. */
  lemma DateChildLine(name: string, v: string, d: nat)
    ensures Render(OptDate(name, Some(v)).value, d) == [Indent(d) + "<" + name + " date=\"" + v + "\"/>"]
  {
    DateLine(name, v, d);
  }

  /** The children of a fully set record, as present elements, in their fixed order. */
  lemma RecordKidsPresent(r: Record)
    requires RecordSet(r)
    ensures Present(RecordKidSlots(r))
         == [Element("id", [], Text(r.id.value)), Element("title", [], Text(r.title.value)),
             Element("issued", [Attr("date", r.issuedDate.value)], NoContent),
             Element("updated", [Attr("date", r.updatedDate.value)], NoContent)]
            + [Element("rights", [], Text(r.rights.value)), Element("release", [], Text(r.release.value)),
               Element("pushcount", [], Text(r.pushcount.value)), Element("severity", [], Text(r.severity.value))]
            + ([Element("summary", [], Text(r.summary.value)), Element("description", [], Text(r.description.value)),
                Element("solution", [], Text(r.solution.value))]
               + [ReferencesElem(r.references), PkglistElem(r.collections)])
  {
    var k0, k1 := Element("id", [], Text(r.id.value)), Element("title", [], Text(r.title.value));
    var k2 := Element("issued", [Attr("date", r.issuedDate.value)], NoContent);
    var k3 := Element("updated", [Attr("date", r.updatedDate.value)], NoContent);
    var k4, k5 := Element("rights", [], Text(r.rights.value)), Element("release", [], Text(r.release.value));
    var k6, k7 := Element("pushcount", [], Text(r.pushcount.value)), Element("severity", [], Text(r.severity.value));
    var k8, k9 := Element("summary", [], Text(r.summary.value)), Element("description", [], Text(r.description.value));
    var k10 := Element("solution", [], Text(r.solution.value));
    var refs, pkgs := ReferencesElem(r.references), PkglistElem(r.collections);
    var s1, s2 := [Some(k0), Some(k1), Some(k2), Some(k3)], [Some(k4), Some(k5), Some(k6), Some(k7)];
    var s3, s4 := [Some(k8), Some(k9), Some(k10)], [Some(refs), Some(pkgs)];
    assert RecordKidSlots(r) == s1 + s2 + (s3 + s4);
    PresentAppend(s1 + s2, s3 + s4);
    PresentAppend(s1, s2);
    PresentAppend(s3, s4);
    PresentSome4(k0, k1, k2, k3);
    PresentSome4(k4, k5, k6, k7);
    PresentSome3(k8, k9, k10);
    PresentSome2(refs, pkgs);
  }

  lemma RecordKidLines1(id: string, title: string, issued: string, updated: string, d: nat)
    ensures RenderAll([Element("id", [], Text(id)), Element("title", [], Text(title)),
                       Element("issued", [Attr("date", issued)], NoContent),
                       Element("updated", [Attr("date", updated)], NoContent)], d)
         == [Indent(d) + "<id>" + id + "</id>",
             Indent(d) + "<title>" + title + "</title>",
             Indent(d) + "<issued date=\"" + issued + "\"/>",
             Indent(d) + "<updated date=\"" + updated + "\"/>"]
  {
    assert "<id>" == "<" + "id" + ">" && "</id>" == "</" + "id" + ">";
    assert "<title>" == "<" + "title" + ">" && "</title>" == "</" + "title" + ">";
    assert "<issued date=\"" == "<" + "issued" + " date=\"" && "<updated date=\"" == "<" + "updated" + " date=\"";
    RenderAll4(Element("id", [], Text(id)), Element("title", [], Text(title)),
               Element("issued", [Attr("date", issued)], NoContent),
               Element("updated", [Attr("date", updated)], NoContent), d);
    TextLineTags("id", "<id>", "</id>", id, d);
    TextLineTags("title", "<title>", "</title>", title, d);
    DateLineTag("issued", "<issued date=\"", issued, d);
    DateLineTag("updated", "<updated date=\"", updated, d);
  }

  lemma RecordKidLines2(rights: string, release: string, pushcount: string, severity: string, d: nat)
    ensures RenderAll([Element("rights", [], Text(rights)), Element("release", [], Text(release)),
                       Element("pushcount", [], Text(pushcount)), Element("severity", [], Text(severity))], d)
         == [Indent(d) + "<rights>" + rights + "</rights>",
             Indent(d) + "<release>" + release + "</release>",
             Indent(d) + "<pushcount>" + pushcount + "</pushcount>",
             Indent(d) + "<severity>" + severity + "</severity>"]
  {
    assert "<rights>" == "<" + "rights" + ">" && "</rights>" == "</" + "rights" + ">";
    assert "<release>" == "<" + "release" + ">" && "</release>" == "</" + "release" + ">";
    assert "<pushcount>" == "<" + "pushcount" + ">" && "</pushcount>" == "</" + "pushcount" + ">";
    assert "<severity>" == "<" + "severity" + ">" && "</severity>" == "</" + "severity" + ">";
    RenderAll4(Element("rights", [], Text(rights)), Element("release", [], Text(release)),
               Element("pushcount", [], Text(pushcount)), Element("severity", [], Text(severity)), d);
    TextLineTags("rights", "<rights>", "</rights>", rights, d);
    TextLineTags("release", "<release>", "</release>", release, d);
    TextLineTags("pushcount", "<pushcount>", "</pushcount>", pushcount, d);
    TextLineTags("severity", "<severity>", "</severity>", severity, d);
  }

  lemma RecordKidLines3(summary: string, description: string, solution: string, d: nat)
    ensures RenderAll([Element("summary", [], Text(summary)), Element("description", [], Text(description)),
                       Element("solution", [], Text(solution))], d)
         == [Indent(d) + "<summary>" + summary + "</summary>",
             Indent(d) + "<description>" + description + "</description>",
             Indent(d) + "<solution>" + solution + "</solution>"]
  {
    assert "<summary>" == "<" + "summary" + ">" && "</summary>" == "</" + "summary" + ">";
    assert "<description>" == "<" + "description" + ">" && "</description>" == "</" + "description" + ">";
    assert "<solution>" == "<" + "solution" + ">" && "</solution>" == "</" + "solution" + ">";
    RenderAll3(Element("summary", [], Text(summary)), Element("description", [], Text(description)),
               Element("solution", [], Text(solution)), d);
    TextLineTags("summary", "<summary>", "</summary>", summary, d);
    TextLineTags("description", "<description>", "</description>", description, d);
    TextLineTags("solution", "<solution>", "</solution>", solution, d);
  }

  /** The lines of the children of a fully set record, in their fixed order. */
  lemma RecordKidLines(r: Record, d: nat)
    requires RecordSet(r)
    ensures RenderAll(Present(RecordKidSlots(r)), d)
         == [Indent(d) + "<id>" + r.id.value + "</id>",
             Indent(d) + "<title>" + r.title.value + "</title>",
             Indent(d) + "<issued date=\"" + r.issuedDate.value + "\"/>",
             Indent(d) + "<updated date=\"" + r.updatedDate.value + "\"/>"]
            + [Indent(d) + "<rights>" + r.rights.value + "</rights>",
               Indent(d) + "<release>" + r.release.value + "</release>",
               Indent(d) + "<pushcount>" + r.pushcount.value + "</pushcount>",
               Indent(d) + "<severity>" + r.severity.value + "</severity>"]
            + [Indent(d) + "<summary>" + r.summary.value + "</summary>",
               Indent(d) + "<description>" + r.description.value + "</description>",
               Indent(d) + "<solution>" + r.solution.value + "</solution>"]
            + Render(ReferencesElem(r.references), d)
            + Render(PkglistElem(r.collections), d)
  {
    RecordKidsPresent(r);
    var c1 := [Element("id", [], Text(r.id.value)), Element("title", [], Text(r.title.value)),
               Element("issued", [Attr("date", r.issuedDate.value)], NoContent),
               Element("updated", [Attr("date", r.updatedDate.value)], NoContent)];
    var c2 := [Element("rights", [], Text(r.rights.value)), Element("release", [], Text(r.release.value)),
               Element("pushcount", [], Text(r.pushcount.value)), Element("severity", [], Text(r.severity.value))];
    var c3 := [Element("summary", [], Text(r.summary.value)), Element("description", [], Text(r.description.value)),
               Element("solution", [], Text(r.solution.value))];
    RenderAllGroups(c1, c2, c3, ReferencesElem(r.references), PkglistElem(r.collections), d);
    RecordKidLines1(r.id.value, r.title.value, r.issuedDate.value, r.updatedDate.value, d);
    RecordKidLines2(r.rights.value, r.release.value, r.pushcount.value, r.severity.value, d);
    RecordKidLines3(r.summary.value, r.description.value, r.solution.value, d);
  }

  /**
    A fully set record is its start line, its eleven text and date children, its references and
    its pkglist one level deeper, and `</update>`.
   */
  lemma RecordLines(r: Record, d: nat)
    requires RecordSet(r)
    ensures Render(RecordElem(r), d)
         == [Indent(d) + "<update" + " from=\"" + r.fromstr.value + "\"" + " status=\"" + r.status.value + "\""
             + " type=\"" + r.rtype.value + "\"" + " version=\"" + r.version.value + "\"" + ">"]
            + RenderAll(Present(RecordKidSlots(r)), d + 1)
            + [Indent(d) + "</update>"]
  {
    RecordStartLine(r, d);
    RecordKidsPresent(r);
    ParentLines(RecordElem(r), d);
    assert Indent(d) + "</" + "update" + ">" == Indent(d) + "</update>";
  }

  /** `RecordLines` with the start line and the child lines named. */
  lemma RecordLinesWith(r: Record, d: nat, start: string, kids: seq<string>)
    requires RecordSet(r)
    requires Indent(d) + "<update" + " from=\"" + r.fromstr.value + "\"" + " status=\"" + r.status.value + "\""
             + " type=\"" + r.rtype.value + "\"" + " version=\"" + r.version.value + "\"" + ">" == start
    requires RenderAll(Present(RecordKidSlots(r)), d + 1) == kids
    ensures Render(RecordElem(r), d) == [start] + kids + [Indent(d) + "</update>"]
  {
    RecordLines(r, d);
  }

  // The document.

  lemma UpdatesLines(ks: seq<Element>)
    ensures Render(Element("updates", [], Kids(ks)), 0)
         == if ks == [] then ["<updates/>"] else ["<updates>"] + RenderAll(ks, 1) + ["</updates>"]
  {
    ListLines("updates", ks, 0);
    var ind := Indent(0);
    assert ind == "";
    assert ind + "<" + "updates" == "<updates";
    if ks == [] {
      assert "<updates" + "/>" == "<updates/>";
    } else {
      assert "<updates" + ">" == "<updates>";
      assert ind + "</" + "updates" == "</updates";
      assert "</updates" + ">" == "</updates>";
    }
  }

  /** `<updates>` holds one line group per record, and is `<updates/>` when there is none. */
  lemma InfoLines(info: Info)
    ensures Render(InfoElem(info), 0)
         == if info.updates == [] then ["<updates/>"]
            else ["<updates>"] + RenderAll(RecordElems(info.updates), 1) + ["</updates>"]
  {
    UpdatesLines(RecordElems(info.updates));
  }

  /** The dump is the XML declaration followed by the lines of `<updates>`, each ended by a newline. */
  lemma DumpLines(info: Info)
    ensures Dump(info)
         == Lines([XML_DECLARATION]
                  + if info.updates == [] then ["<updates/>"]
                    else ["<updates>"] + RenderAll(RecordElems(info.updates), 1) + ["</updates>"])
  {
    InfoLines(info);
  }

  /** An updateinfo of one record dumps as the declaration, `<updates>`, the record's lines and `</updates>`. */
  lemma OneRecordDump(r: Record)
    ensures Dump(Info([r])) == Lines([XML_DECLARATION, "<updates>"] + Render(RecordElem(r), 1) + ["</updates>"])
  {
    DumpLines(Info([r]));
    assert RecordElems([r]) == [RecordElem(r)];
    RenderAllOne(RecordElem(r), 1);
    WrapShape(XML_DECLARATION, "<updates>", Render(RecordElem(r), 1), "</updates>");
  }

  lemma WrapShape<T>(x: T, open: T, ls: seq<T>, close: T)
    ensures [x] + ([open] + ls + [close]) == [x, open] + ls + [close]
  {
  }

  lemma RecordElemsAppend(us: seq<Record>, r: Record)
    ensures RecordElems(us + [r]) == RecordElems(us) + [RecordElem(r)]
  {
  }

  /** The lines of `<updates>` over non-empty `ks + [e]`: those of `ks`, then those of `e`. */
  lemma UpdatesAppendLines(ks: seq<Element>, e: Element)
    requires ks != []
    ensures Render(Element("updates", [], Kids(ks + [e])), 0)
         == ["<updates>"] + RenderAll(ks, 1) + Render(e, 1) + ["</updates>"]
  {
    UpdatesLines(ks + [e]);
    RenderAllAppend(ks, [e], 1);
    RenderAllOne(e, 1);
  }

  /**
    Appending a record to a non-empty updateinfo leaves the lines of the records already held in
    place and writes the new record's lines after them, just before `</updates>`.
   */
  lemma AppendedRecordDump(us: seq<Record>, r: Record)
    requires us != []
    ensures Dump(Info(us + [r]))
         == Lines([XML_DECLARATION] + (["<updates>"] + RenderAll(RecordElems(us), 1) + Render(RecordElem(r), 1)
                  + ["</updates>"]))
  {
    RecordElemsAppend(us, r);
    UpdatesAppendLines(RecordElems(us), RecordElem(r));
  }
}
