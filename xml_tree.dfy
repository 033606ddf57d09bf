/**
  The XML documents the updateinfo serialiser writes, as a tree of elements, and the formatted
  text a tree is written as: one element per line, each nesting level indented by two more
  spaces, an element without content written self-closing, an element holding only text
  written on one line. Characters are written as they are (no escaping).
 */
module XmlTree {
  import opened Optional

  datatype Attr = Attr(name: string, value: string)

  datatype Element = Element(name: string, attrs: seq<Attr>, content: Content)

  datatype Content = NoContent | Text(text: string) | Kids(kids: seq<Element>)

  function AttrName(a: Attr): string { a.name }

  function ElemName(e: Element): string { e.name }

  // Building element and attribute lists from optional entries.

  /** The entries that are present, in order. */
  function Present<T>(slots: seq<Option<T>>): (r: seq<T>)
    ensures |r| <= |slots|
    decreases |slots|
  {
    if slots == [] then []
    else (if slots[0].Some? then [slots[0].value] else []) + Present(slots[1..])
  }

  /** The first entry of `xs` whose name (under `nameOf`) is `n`. */
  function FirstNamed<T>(xs: seq<T>, nameOf: T -> string, n: string): (r: Option<T>)
    ensures r.Some? ==> r.value in xs && nameOf(r.value) == n
    decreases |xs|
  {
    if xs == [] then None
    else if nameOf(xs[0]) == n then Some(xs[0])
    else FirstNamed(xs[1..], nameOf, n)
  }

  /** Each present entry of `slots` is named as `names` says, and the names are distinct. */
  predicate NamedSlots<T>(slots: seq<Option<T>>, nameOf: T -> string, names: seq<string>)
  {
    && |slots| == |names|
    && (forall i | 0 <= i < |slots| :: slots[i].Some? ==> nameOf(slots[i].value) == names[i])
    && (forall i, j | 0 <= i < j < |names| :: names[i] != names[j])
  }

  lemma NamedSlotsTail<T>(slots: seq<Option<T>>, nameOf: T -> string, names: seq<string>)
    requires slots != [] && NamedSlots(slots, nameOf, names)
    ensures NamedSlots(slots[1..], nameOf, names[1..])
  {
    forall i | 0 <= i < |slots| - 1 ensures slots[1..][i].Some? ==> nameOf(slots[1..][i].value) == names[1..][i] {
      assert slots[1..][i] == slots[i + 1];
    }
    forall i, j | 0 <= i < j < |names| - 1 ensures names[1..][i] != names[1..][j] {
      assert names[1..][i] == names[i + 1] && names[1..][j] == names[j + 1];
    }
  }

  lemma {:induction false} FirstNamedAbsent<T>(slots: seq<Option<T>>, nameOf: T -> string, n: string)
    requires forall i | 0 <= i < |slots| :: slots[i].Some? ==> nameOf(slots[i].value) != n
    ensures FirstNamed(Present(slots), nameOf, n) == None
    decreases |slots|
  {
    if slots != [] {
      assert forall i | 0 <= i < |slots| - 1 :: slots[1..][i] == slots[i + 1];
      FirstNamedAbsent(slots[1..], nameOf, n);
      if slots[0].Some? {
        assert nameOf(slots[0].value) != n;
        var r := [slots[0].value] + Present(slots[1..]);
        assert r[0] == slots[0].value && r[1..] == Present(slots[1..]);
      } else {
        assert Present(slots) == [] + Present(slots[1..]);
        assert Present(slots) == Present(slots[1..]);
        assert FirstNamed(Present(slots[1..]), nameOf, n) == None;
      }
    }
  }

  /**
    Looking up the name of slot `k` among the present entries finds exactly slot `k`: the
    entry when it is present, nothing when it is absent.
   */
  lemma {:induction false} FirstNamedPresent<T>(slots: seq<Option<T>>, nameOf: T -> string, names: seq<string>, k: nat)
    requires NamedSlots(slots, nameOf, names) && k < |slots|
    ensures FirstNamed(Present(slots), nameOf, names[k]) == slots[k]
    decreases |slots|
  {
    var rest := Present(slots[1..]);
    NamedSlotsTail(slots, nameOf, names);
    if k == 0 {
      if slots[0].Some? {
        assert ([slots[0].value] + rest)[0] == slots[0].value;
      } else {
        forall i | 0 <= i < |slots| - 1 ensures slots[1..][i].Some? ==> nameOf(slots[1..][i].value) != names[0] {
          assert slots[1..][i] == slots[i + 1];
        }
        FirstNamedAbsent(slots[1..], nameOf, names[0]);
        assert Present(slots) == [] + rest;
        assert Present(slots) == rest;
      }
    } else {
      FirstNamedPresent(slots[1..], nameOf, names[1..], k - 1);
      if slots[0].Some? {
        assert nameOf(slots[0].value) == names[0] != names[k];
        var r := [slots[0].value] + rest;
        assert r[0] == slots[0].value && r[1..] == rest;
      } else {
        assert Present(slots) == [] + rest;
        assert Present(slots) == rest;
      }
    }
  }

  /** The value of the attribute named `n`, if there is one. */
  function AttrValue(attrs: seq<Attr>, n: string): (r: Option<string>)
    ensures r.Some? <==> exists a | a in attrs :: a.name == n
  {
    FirstNamedExists(attrs, AttrName, n);
    var a := FirstNamed(attrs, AttrName, n);
    if a.Some? then Some(a.value.value) else None
  }

  lemma {:induction false} FirstNamedExists<T>(xs: seq<T>, nameOf: T -> string, n: string)
    ensures FirstNamed(xs, nameOf, n).Some? <==> exists x | x in xs :: nameOf(x) == n
    decreases |xs|
  {
    if xs != [] {
      FirstNamedExists(xs[1..], nameOf, n);
      assert forall x | x in xs :: x == xs[0] || x in xs[1..];
    }
  }

  // Formatted output.

  /** `d` levels of indentation, two spaces each. */
  function Indent(d: nat): (r: string)
    ensures |r| == 2 * d && forall i | 0 <= i < |r| :: r[i] == ' '
  {
    if d == 0 then "" else "  " + Indent(d - 1)
  }

  /** The attributes as written inside a start tag, in order, each ` name="value"`. */
  function AttrsText(attrs: seq<Attr>): string
    decreases |attrs|
  {
    if attrs == [] then ""
    else " " + attrs[0].name + "=\"" + attrs[0].value + "\"" + AttrsText(attrs[1..])
  }

  /** The self-closing tag of an element: `<name attrs/>`. */
  function EmptyTag(e: Element): string
  {
    "<" + e.name + AttrsText(e.attrs) + "/>"
  }

  /** The start tag of an element: `<name attrs>`. */
  function StartTag(e: Element): string
  {
    "<" + e.name + AttrsText(e.attrs) + ">"
  }

  /** The end tag of an element: `</name>`. */
  function EndTag(e: Element): string
  {
    "</" + e.name + ">"
  }

  /** The lines an element is written as at nesting depth `d`. */
  function Render(e: Element, d: nat): seq<string>
    decreases e
  {
    match e.content
    case NoContent => [Indent(d) + EmptyTag(e)]
    case Text(t) => [Indent(d) + (StartTag(e) + t + EndTag(e))]
    case Kids(ks) =>
      if ks == [] then [Indent(d) + EmptyTag(e)]
      else [Indent(d) + StartTag(e)] + RenderAll(ks, d + 1) + [Indent(d) + EndTag(e)]
  }

  /** The lines of a sequence of sibling elements at depth `d`. */
  function RenderAll(ks: seq<Element>, d: nat): seq<string>
    decreases ks
  {
    if ks == [] then [] else Render(ks[0], d) + RenderAll(ks[1..], d)
  }

  /** The lines joined, each ended by a newline. */
  function Lines(ls: seq<string>): string
    decreases |ls|
  {
    if ls == [] then "" else ls[0] + "\n" + Lines(ls[1..])
  }

  const XML_DECLARATION := "<?xml version=\"1.0\" encoding=\"UTF-8\"?>"

  /** A whole document: the XML declaration, then the root element, newline-terminated. */
  function DocumentText(root: Element): string
  {
    Lines([XML_DECLARATION] + Render(root, 0))
  }

  predicate IndentedBy(line: string, d: nat)
  {
    |Indent(d)| <= |line| && line[..|Indent(d)|] == Indent(d)
  }

  lemma IndentPrefix(s: string, d: nat)
    ensures IndentedBy(Indent(d) + s, d)
  {
    assert (Indent(d) + s)[..|Indent(d)|] == Indent(d);
  }

  /**
    Every line an element is written as starts with the indentation of its depth, at least.
    An element with children opens and closes at its own depth and writes its children, in
    order, one level deeper, so every line between its start and end tags is indented by one
    more level.
   */
  lemma {:induction false} RenderIndented(e: Element, d: nat)
    ensures forall i | 0 <= i < |Render(e, d)| :: IndentedBy(Render(e, d)[i], d)
    ensures e.content.Kids? && e.content.kids != [] ==>
              var ls := Render(e, d);
              && 2 <= |ls| && ls[0] == Indent(d) + StartTag(e) && ls[|ls| - 1] == Indent(d) + EndTag(e)
              && ls[1..|ls| - 1] == RenderAll(e.content.kids, d + 1)
              && forall i | 1 <= i < |ls| - 1 :: IndentedBy(ls[i], d + 1)
    decreases e, 1
  {
    var ls := Render(e, d);
    IndentPrefix(EmptyTag(e), d);
    IndentPrefix(StartTag(e), d);
    IndentPrefix(EndTag(e), d);
    match e.content
    case NoContent =>
    case Text(t) =>
      IndentPrefix(StartTag(e) + t + EndTag(e), d);
    case Kids(ks) =>
      if ks != [] {
        var inner := RenderAll(ks, d + 1);
        RenderAllIndented(ks, d + 1);
        assert ls[1..|ls| - 1] == inner;
        forall i | 0 <= i < |inner| ensures IndentedBy(inner[i], d) {
          assert Indent(d + 1) == "  " + Indent(d);
          assert Indent(d + 1)[..|Indent(d)|] == Indent(d);
        }
        forall i | 0 <= i < |ls| ensures IndentedBy(ls[i], d) {
          if 0 < i < |ls| - 1 {
            assert ls[i] == inner[i - 1];
          }
        }
      }
  }

  /** Every line of a sequence of siblings starts with the indentation of their depth. */
  lemma {:induction false} RenderAllIndented(ks: seq<Element>, d: nat)
    ensures forall i | 0 <= i < |RenderAll(ks, d)| :: IndentedBy(RenderAll(ks, d)[i], d)
    decreases ks, 0
  {
    if ks != [] {
      RenderIndented(ks[0], d);
      RenderAllIndented(ks[1..], d);
      var a, b := Render(ks[0], d), RenderAll(ks[1..], d);
      forall i | 0 <= i < |a + b| ensures IndentedBy((a + b)[i], d) {
        if i < |a| { assert (a + b)[i] == a[i]; } else { assert (a + b)[i] == b[i - |a|]; }
      }
    }
  }

  /** An element with no children, or no content, is written as one self-closing line. */
  lemma EmptyElementSelfCloses(name: string, attrs: seq<Attr>, d: nat)
    ensures Render(Element(name, attrs, Kids([])), d) == [Indent(d) + "<" + name + AttrsText(attrs) + "/>"]
    ensures Render(Element(name, attrs, NoContent), d) == [Indent(d) + "<" + name + AttrsText(attrs) + "/>"]
  {
    assert Indent(d) + ("<" + name + AttrsText(attrs) + "/>") == Indent(d) + "<" + name + AttrsText(attrs) + "/>";
  }

  /** When every entry is present, `Present` keeps them all, in order. */
  lemma {:induction false} PresentAllSome<T>(slots: seq<Option<T>>)
    requires forall i | 0 <= i < |slots| :: slots[i].Some?
    ensures |Present(slots)| == |slots|
    ensures forall i | 0 <= i < |slots| :: Present(slots)[i] == slots[i].value
    decreases |slots|
  {
    if slots != [] {
      PresentAllSome(slots[1..]);
      var r := [slots[0].value] + Present(slots[1..]);
      assert Present(slots) == r;
      forall i | 0 <= i < |slots| ensures r[i] == slots[i].value {
        if i > 0 { assert r[i] == Present(slots[1..])[i - 1] && slots[1..][i - 1] == slots[i]; }
      }
    }
  }

  /** `Present` distributes over concatenation. */
  lemma PresentSome2<T>(a: T, b: T)
    ensures Present([Some(a), Some(b)]) == [a, b]
  {
    PresentAllSome([Some(a), Some(b)]);
  }

  lemma PresentSome3<T>(a: T, b: T, c: T)
    ensures Present([Some(a), Some(b), Some(c)]) == [a, b, c]
  {
    PresentAllSome([Some(a), Some(b), Some(c)]);
  }

  lemma PresentSome4<T>(a: T, b: T, c: T, e: T)
    ensures Present([Some(a), Some(b), Some(c), Some(e)]) == [a, b, c, e]
  {
    PresentAllSome([Some(a), Some(b), Some(c), Some(e)]);
  }

  lemma {:induction false} PresentAppend<T>(a: seq<Option<T>>, b: seq<Option<T>>)
    ensures Present(a + b) == Present(a) + Present(b)
    decreases |a|
  {
    if a == [] {
      assert a + b == b;
    } else {
      assert (a + b)[0] == a[0] && (a + b)[1..] == a[1..] + b;
      PresentAppend(a[1..], b);
    }
  }

  lemma {:induction false} RenderAllAppend(a: seq<Element>, b: seq<Element>, d: nat)
    ensures RenderAll(a + b, d) == RenderAll(a, d) + RenderAll(b, d)
    decreases |a|
  {
    if a == [] {
      assert a + b == b;
    } else {
      assert (a + b)[0] == a[0] && (a + b)[1..] == a[1..] + b;
      RenderAllAppend(a[1..], b, d);
    }
  }

  lemma RenderAllOne(e: Element, d: nat)
    ensures RenderAll([e], d) == Render(e, d)
  {
    assert [e][1..] == [];
  }

  lemma {:induction false} LinesAppend(a: seq<string>, b: seq<string>)
    ensures Lines(a + b) == Lines(a) + Lines(b)
    decreases |a|
  {
    if a == [] {
      assert a + b == b;
    } else {
      assert (a + b)[0] == a[0] && (a + b)[1..] == a[1..] + b;
      LinesAppend(a[1..], b);
    }
  }

  /** An element holding only text is one line, `<name>text</name>`. */
  lemma TextLine(name: string, v: string, d: nat)
    ensures Render(Element(name, [], Text(v)), d) == [Indent(d) + "<" + name + ">" + v + "</" + name + ">"]
  {
    var e := Element(name, [], Text(v));
    assert StartTag(e) == "<" + name + ">";
    var i := Indent(d);
    assert i + (("<" + name + ">") + v + ("</" + name + ">")) == i + "<" + name + ">" + v + "</" + name + ">";
  }

  /** An element with children is its start tag, its children one level deeper, its end tag. */
  lemma ParentLines(e: Element, d: nat)
    requires e.content.Kids? && e.content.kids != []
    ensures Render(e, d) == [Indent(d) + StartTag(e)] + RenderAll(e.content.kids, d + 1) + [Indent(d) + "</" + e.name + ">"]
  {
    assert Indent(d) + EndTag(e) == Indent(d) + "</" + e.name + ">";
  }

  lemma AttrsTextCons(a: Attr, rest: seq<Attr>)
    ensures AttrsText([a] + rest) == " " + a.name + "=\"" + a.value + "\"" + AttrsText(rest)
  {
    assert ([a] + rest)[0] == a && ([a] + rest)[1..] == rest;
  }

  lemma RenderAllCons(e: Element, ks: seq<Element>, d: nat)
    ensures RenderAll([e] + ks, d) == Render(e, d) + RenderAll(ks, d)
  {
    assert ([e] + ks)[0] == e && ([e] + ks)[1..] == ks;
  }

  /** An empty element carrying one `date` attribute is one line, `<name date="v"/>`. */
  lemma DateLine(name: string, v: string, d: nat)
    ensures Render(Element(name, [Attr("date", v)], NoContent), d) == [Indent(d) + "<" + name + " date=\"" + v + "\"/>"]
  {
    var e := Element(name, [Attr("date", v)], NoContent);
    AttrsTextCons(Attr("date", v), []);
    assert [Attr("date", v)] + [] == [Attr("date", v)];
    assert AttrsText(e.attrs) == " date=\"" + v + "\"";
    var i := Indent(d);
    assert i + ("<" + name + (" date=\"" + v + "\"") + "/>") == i + "<" + name + " date=\"" + v + "\"/>";
  }

  /** Writing the attributes after a prefix `x`, one attribute at a time. */
  lemma AttrsTextStep(x: string, a: Attr, rest: seq<Attr>)
    ensures x + AttrsText([a] + rest) == x + (" " + a.name + "=\"") + a.value + "\"" + AttrsText(rest)
  {
    AttrsTextCons(a, rest);
    var k, v, r := " " + a.name + "=\"", a.value, AttrsText(rest);
    assert " " + a.name + "=\"" + a.value + "\"" + r == k + (v + ("\"" + r));
    assert x + (k + (v + ("\"" + r))) == x + k + v + "\"" + r;
  }

  /**
    The same step with the attribute's opening ` name="` given as one string `k`, between a
    prefix `x` and a suffix `y`.
   */
  lemma AttrsTextNext(x: string, name: string, k: string, v: string, rest: seq<Attr>, y: string)
    requires k == " " + name + "=\""
    ensures x + AttrsText([Attr(name, v)] + rest) + y == x + k + v + "\"" + AttrsText(rest) + y
  {
    AttrsTextStep(x, Attr(name, v), rest);
  }

  /** Three attribute steps at once. */
  lemma AttrsText3(x: string, n1: string, k1: string, v1: string, n2: string, k2: string, v2: string,
                   n3: string, k3: string, v3: string, rest: seq<Attr>, y: string)
    requires k1 == " " + n1 + "=\"" && k2 == " " + n2 + "=\"" && k3 == " " + n3 + "=\""
    ensures x + AttrsText([Attr(n1, v1), Attr(n2, v2), Attr(n3, v3)] + rest) + y
         == x + k1 + v1 + "\"" + k2 + v2 + "\"" + k3 + v3 + "\"" + AttrsText(rest) + y
  {
    var a1, a2, a3 := Attr(n1, v1), Attr(n2, v2), Attr(n3, v3);
    assert [a1, a2, a3] + rest == [a1] + ([a2, a3] + rest);
    assert [a2, a3] + rest == [a2] + ([a3] + rest);
    var x1 := x + k1 + v1 + "\"";
    var x2 := x1 + k2 + v2 + "\"";
    AttrsTextNext(x, n1, k1, v1, [a2, a3] + rest, y);
    AttrsTextNext(x1, n2, k2, v2, [a3] + rest, y);
    AttrsTextNext(x2, n3, k3, v3, rest, y);
  }

  /** Exactly four attributes, between a prefix `x` and a suffix `y`. */
  lemma AttrsText4(x: string, n1: string, k1: string, v1: string, n2: string, k2: string, v2: string,
                   n3: string, k3: string, v3: string, n4: string, k4: string, v4: string, y: string)
    requires k1 == " " + n1 + "=\"" && k2 == " " + n2 + "=\"" && k3 == " " + n3 + "=\""
    requires k4 == " " + n4 + "=\""
    ensures x + AttrsText([Attr(n1, v1), Attr(n2, v2), Attr(n3, v3), Attr(n4, v4)]) + y
         == x + k1 + v1 + "\"" + k2 + v2 + "\"" + k3 + v3 + "\"" + k4 + v4 + "\"" + y
  {
    var a4 := Attr(n4, v4);
    assert [Attr(n1, v1), Attr(n2, v2), Attr(n3, v3), a4] == [Attr(n1, v1), Attr(n2, v2), Attr(n3, v3)] + [a4];
    AttrsText3(x, n1, k1, v1, n2, k2, v2, n3, k3, v3, [a4], y);
    var x3 := x + k1 + v1 + "\"" + k2 + v2 + "\"" + k3 + v3 + "\"";
    assert [a4] == [a4] + [];
    AttrsTextNext(x3, n4, k4, v4, [], y);
    assert x3 + k4 + v4 + "\"" + AttrsText([]) == x3 + k4 + v4 + "\"";
  }

  lemma StartTagStep(ind: string, e: Element)
    ensures ind + StartTag(e) == ind + "<" + e.name + AttrsText(e.attrs) + ">"
  {
  }

  lemma EmptyTagStep(ind: string, e: Element)
    ensures ind + EmptyTag(e) == ind + "<" + e.name + AttrsText(e.attrs) + "/>"
  {
  }

  /** An element holding only children, without attributes: self-closing when it has none. */
  lemma ListLines(name: string, ks: seq<Element>, d: nat)
    ensures Render(Element(name, [], Kids(ks)), d)
         == if ks == [] then [Indent(d) + "<" + name + "/>"]
            else [Indent(d) + "<" + name + ">"] + RenderAll(ks, d + 1) + [Indent(d) + "</" + name + ">"]
  {
    var e := Element(name, [], Kids(ks));
    if ks == [] {
      EmptyElementSelfCloses(name, [], d);
      assert Indent(d) + "<" + name + "" + "/>" == Indent(d) + "<" + name + "/>";
    } else {
      ParentLines(e, d);
      assert Indent(d) + StartTag(e) == Indent(d) + "<" + name + ">";
    }
  }

  /** `ListLines` with the three tags given as whole strings. */
  lemma ListLinesTags(name: string, empty: string, open: string, close: string, ks: seq<Element>, d: nat)
    requires empty == "<" + name + "/>" && open == "<" + name + ">" && close == "</" + name + ">"
    ensures Render(Element(name, [], Kids(ks)), d)
         == if ks == [] then [Indent(d) + empty] else [Indent(d) + open] + RenderAll(ks, d + 1) + [Indent(d) + close]
  {
    ListLines(name, ks, d);
    var i := Indent(d);
    assert i + "<" + name + "/>" == i + empty;
    assert i + "<" + name + ">" == i + open;
    assert i + "</" + name + ">" == i + close;
  }

  /** An attribute-less empty element as one line, with its tag given as a whole string. */
  lemma EmptyLineTag(name: string, tag: string, d: nat)
    requires tag == "<" + name + "/>"
    ensures Render(Element(name, [], NoContent), d) == [Indent(d) + tag]
  {
    EmptyElementSelfCloses(name, [], d);
    var i := Indent(d);
    assert AttrsText([]) == "";
    assert i + "<" + name + "" + "/>" == i + tag;
  }

  /** A text-only element as one line, with its tags given as whole strings. */
  lemma TextLineTags(name: string, open: string, close: string, v: string, d: nat)
    requires open == "<" + name + ">" && close == "</" + name + ">"
    ensures Render(Element(name, [], Text(v)), d) == [Indent(d) + open + v + close]
  {
    TextLine(name, v, d);
    var i := Indent(d);
    assert i + "<" + name + ">" == i + open;
    var x := i + open + v;
    assert x + "</" + name + ">" == x + close;
  }

  /** An empty element with one `date` attribute as one line, with `<name date="` given as one string. */
  lemma DateLineTag(name: string, open: string, v: string, d: nat)
    requires open == "<" + name + " date=\""
    ensures Render(Element(name, [Attr("date", v)], NoContent), d) == [Indent(d) + open + v + "\"/>"]
  {
    DateLine(name, v, d);
    var i := Indent(d);
    assert i + "<" + name + " date=\"" == i + open;
  }

  lemma RenderAll3(k0: Element, k1: Element, k2: Element, d: nat)
    ensures RenderAll([k0, k1, k2], d) == Render(k0, d) + Render(k1, d) + Render(k2, d)
  {
    RenderAllCons(k0, [k1, k2], d);
    RenderAllCons(k1, [k2], d);
    RenderAllOne(k2, d);
    assert [k0] + [k1, k2] == [k0, k1, k2];
    assert [k1] + [k2] == [k1, k2];
  }

  /** The lines of three groups of children followed by two more children. */
  lemma RenderAllGroups(c1: seq<Element>, c2: seq<Element>, c3: seq<Element>, k0: Element, k1: Element, d: nat)
    ensures RenderAll(c1 + c2 + (c3 + [k0, k1]), d)
         == RenderAll(c1, d) + RenderAll(c2, d) + RenderAll(c3, d) + Render(k0, d) + Render(k1, d)
  {
    var a, b, e, f, g := RenderAll(c1, d), RenderAll(c2, d), RenderAll(c3, d), Render(k0, d), Render(k1, d);
    RenderAllAppend(c1 + c2, c3 + [k0, k1], d);
    RenderAllAppend(c1, c2, d);
    RenderAllAppend(c3, [k0, k1], d);
    assert RenderAll([k0, k1], d) == f + g by {
      RenderAllCons(k0, [k1], d);
      RenderAllOne(k1, d);
      assert [k0] + [k1] == [k0, k1];
    }
    Assoc5(a, b, e, f, g);
  }

  lemma Assoc5<T>(a: seq<T>, b: seq<T>, e: seq<T>, f: seq<T>, g: seq<T>)
    ensures a + b + (e + (f + g)) == a + b + e + f + g
  {
  }

  lemma RenderAll4(k0: Element, k1: Element, k2: Element, k3: Element, d: nat)
    ensures RenderAll([k0, k1, k2, k3], d) == Render(k0, d) + Render(k1, d) + Render(k2, d) + Render(k3, d)
  {
    RenderAllCons(k0, [k1, k2, k3], d);
    RenderAllCons(k1, [k2, k3], d);
    RenderAllCons(k2, [k3], d);
    RenderAllOne(k3, d);
    assert [k0] + [k1, k2, k3] == [k0, k1, k2, k3];
    assert [k1] + [k2, k3] == [k1, k2, k3];
    assert [k2] + [k3] == [k2, k3];
  }

  /** An element with children as its start line, its children's lines and its end line. */
  lemma ElementLines(e: Element, d: nat, start: string, kids: seq<string>, close: string)
    requires e.content.Kids? && e.content.kids != []
    requires Indent(d) + StartTag(e) == start
    requires RenderAll(e.content.kids, d + 1) == kids
    requires Indent(d) + "</" + e.name + ">" == close
    ensures Render(e, d) == [start] + kids + [close]
  {
    ParentLines(e, d);
  }
}
