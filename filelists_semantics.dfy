/**
  A document-level reading of the filelists parser, stated on the tree rather than on the
  event stream: the top-level packages are taken in order, each one is decided on, built from
  its file children and delivered, and the first fatal error ends the walk. The theorem
  `ParseIsTreeSemantics` proves the streaming state machine computes exactly this.
 */
module FilelistsSemantics {
  import opened Optional
  import opened FilelistsDocument
  import opened FilelistsParser

  /** What the caller observes: delivered packages, warning text and the error slot. */
  datatype Result = Result(delivered: seq<Package>, warnings: string, err: Option<ErrorCode>)

  const EMPTY := Result([], "", None)

  /** The file entry a direct child of a package element contributes, if it is a file element. */
  function ChildFiles(n: Node): seq<FileEntry>
  {
    if n.FileNode? then [FileEntry(n.path, FileTypeOf(n.ftype))] else []
  }

  /** The warning a direct child of a package element produces. */
  function ChildWarning(n: Node): string
  {
    if n.FileNode? then TypeWarning(n.ftype) else ""
  }

  /** The file entries a package element contributes: its direct file children, in order. */
  function FilesOf(ch: seq<Node>): seq<FileEntry>
    decreases |ch|
  {
    if ch == [] then [] else ChildFiles(ch[0]) + FilesOf(ch[1..])
  }

  /** The warnings a package element's direct file children produce, in order. */
  function WarningsOf(ch: seq<Node>): string
    decreases |ch|
  {
    if ch == [] then [] else ChildWarning(ch[0]) + WarningsOf(ch[1..])
  }

  /** The effect of one top-level node of the document. */
  function NodeSem(n: Node, newpkgcb: Option<NewPkgCb>, pkgcb: PkgCb, r: Result): Result
  {
    match n
    case FileNode(_, _) => r
    case UnknownNode(_, _) => r
    case PackageNode(id, name, arch, ch) =>
      if id.None? then r.(err := Some(BadXmlFilelists))
      else
        match Decide(newpkgcb, id.value, name, arch)
        case InterruptNew => r.(err := Some(CbInterrupted))
        case Skip => r.(warnings := r.warnings + WarningsOf(ch))
        case Allocate =>
          var p := Package(id.value, name, arch, FilesOf(ch));
          Result(r.delivered + [p], r.warnings + WarningsOf(ch),
                 if pkgcb(p, |r.delivered|) == InterruptDelivery then Some(CbInterrupted) else None)
  }

  /** The effect of a sequence of top-level nodes; nothing happens after a fatal error. */
  function DocSem(ns: seq<Node>, newpkgcb: Option<NewPkgCb>, pkgcb: PkgCb, r: Result): Result
    decreases |ns|
  {
    if ns == [] || r.err.Some? then r
    else DocSem(ns[1..], newpkgcb, pkgcb, NodeSem(ns[0], newpkgcb, pkgcb, r))
  }

  function ResultOutcome(r: Result): Outcome
  {
    Outcome(ReturnCodeOf(r.err), r.err, MessagesOf(r.warnings), r.delivered)
  }

  function Project(c: Ctx): Result
  {
    Result(c.delivered, c.warnings, c.err)
  }

  /** The parser is between packages, outside any ignored element. */
  predicate Between(c: Ctx)
  {
    c.phase == Idle && c.pkg.None? && c.depth == 0
  }

  function AddFiles(pkg: Option<Package>, fs: seq<FileEntry>): Option<Package>
  {
    if pkg.None? then None else Some(pkg.value.(files := pkg.value.files + fs))
  }

  lemma RunOne(c: Ctx, e: Event, newpkgcb: Option<NewPkgCb>, pkgcb: PkgCb)
    ensures Run(c, [e], newpkgcb, pkgcb) == Step(c, e, newpkgcb, pkgcb)
  {
    assert [e][1..] == [];
  }

  /** An element whose opening only raises the ignore depth is skipped with all it holds. */
  lemma Wrapped(c: Ctx, open: Event, ch: seq<Node>, newpkgcb: Option<NewPkgCb>, pkgcb: PkgCb)
    requires c.err.None?
    requires Step(c, open, newpkgcb, pkgcb) == c.(depth := c.depth + 1)
    ensures Run(c, [open] + DocEvents(ch) + [Close], newpkgcb, pkgcb) == c
    decreases ch, 1
  {
    var c1 := c.(depth := c.depth + 1);
    RunAppend(c, [open] + DocEvents(ch), [Close], newpkgcb, pkgcb);
    RunAppend(c, [open], DocEvents(ch), newpkgcb, pkgcb);
    RunOne(c, open, newpkgcb, pkgcb);
    IgnoredSeq(c1, ch, newpkgcb, pkgcb);
    RunOne(c1, Close, newpkgcb, pkgcb);
  }

  /** Whether a node is ignored, with everything nested in it, in context `c`. */
  predicate Ignorable(c: Ctx, n: Node)
  {
    || c.depth > 0
    || n.UnknownNode?
    || (n.PackageNode? && c.phase == InPackage)
    || (n.FileNode? && c.phase == Idle)
  }

  lemma {:induction false} IgnoredNode(c: Ctx, n: Node, newpkgcb: Option<NewPkgCb>, pkgcb: PkgCb)
    requires c.err.None? && Ignorable(c, n)
    ensures Run(c, NodeEvents(n), newpkgcb, pkgcb) == c
    decreases n, 2
  {
    match n
    case FileNode(t, p) =>
      RunOne(c, FileElement(t, p), newpkgcb, pkgcb);
    case PackageNode(id, na, ar, ch) =>
      Wrapped(c, PackageOpen(id, na, ar), ch, newpkgcb, pkgcb);
    case UnknownNode(tag, ch) =>
      Wrapped(c, UnknownOpen(tag), ch, newpkgcb, pkgcb);
  }

  lemma {:induction false} IgnoredSeq(c: Ctx, ns: seq<Node>, newpkgcb: Option<NewPkgCb>, pkgcb: PkgCb)
    requires c.err.None? && c.depth > 0
    ensures Run(c, DocEvents(ns), newpkgcb, pkgcb) == c
    decreases ns, 0
  {
    if ns != [] {
      RunAppend(c, NodeEvents(ns[0]), DocEvents(ns[1..]), newpkgcb, pkgcb);
      IgnoredNode(c, ns[0], newpkgcb, pkgcb);
      IgnoredSeq(c, ns[1..], newpkgcb, pkgcb);
    }
  }

  lemma ChildSem(c: Ctx, n: Node, newpkgcb: Option<NewPkgCb>, pkgcb: PkgCb)
    requires c.err.None? && c.depth == 0 && c.phase == InPackage
    ensures Run(c, NodeEvents(n), newpkgcb, pkgcb)
         == c.(pkg := AddFiles(c.pkg, ChildFiles(n)), warnings := c.warnings + ChildWarning(n))
  {
    if n.FileNode? {
      RunOne(c, FileElement(n.ftype, n.path), newpkgcb, pkgcb);
    } else {
      IgnoredNode(c, n, newpkgcb, pkgcb);
      assert c.warnings + "" == c.warnings;
      if c.pkg.Some? {
        assert c.pkg.value.files + [] == c.pkg.value.files;
      }
    }
  }

  lemma AddFilesTwice(pkg: Option<Package>, a: seq<FileEntry>, b: seq<FileEntry>)
    ensures AddFiles(AddFiles(pkg, a), b) == AddFiles(pkg, a + b)
  {
    if pkg.Some? {
      assert pkg.value.files + a + b == pkg.value.files + (a + b);
    }
  }

  /** The context after a package's direct child `n` has been read. */
  function AfterChild(c: Ctx, n: Node): Ctx
  {
    c.(pkg := AddFiles(c.pkg, ChildFiles(n)), warnings := c.warnings + ChildWarning(n))
  }

  lemma ChildrenCons(c: Ctx, ch: seq<Node>, newpkgcb: Option<NewPkgCb>, pkgcb: PkgCb)
    requires c.err.None? && c.depth == 0 && c.phase == InPackage && ch != []
    ensures Run(c, DocEvents(ch), newpkgcb, pkgcb) == Run(AfterChild(c, ch[0]), DocEvents(ch[1..]), newpkgcb, pkgcb)
  {
    assert DocEvents(ch) == NodeEvents(ch[0]) + DocEvents(ch[1..]);
    RunAppend(c, NodeEvents(ch[0]), DocEvents(ch[1..]), newpkgcb, pkgcb);
    ChildSem(c, ch[0], newpkgcb, pkgcb);
  }

  lemma CtxAddTwice(c: Ctx, f1: seq<FileEntry>, w1: string, f2: seq<FileEntry>, w2: string)
    ensures c.(pkg := AddFiles(c.pkg, f1), warnings := c.warnings + w1)
             .(pkg := AddFiles(AddFiles(c.pkg, f1), f2), warnings := c.warnings + w1 + w2)
         == c.(pkg := AddFiles(c.pkg, f1 + f2), warnings := c.warnings + (w1 + w2))
  {
    AddFilesTwice(c.pkg, f1, f2);
    assert c.warnings + w1 + w2 == c.warnings + (w1 + w2);
  }

  lemma ChildrenCombine(c: Ctx, ch: seq<Node>)
    requires ch != []
    ensures AfterChild(c, ch[0]).(pkg := AddFiles(AfterChild(c, ch[0]).pkg, FilesOf(ch[1..])),
                                  warnings := AfterChild(c, ch[0]).warnings + WarningsOf(ch[1..]))
         == c.(pkg := AddFiles(c.pkg, FilesOf(ch)), warnings := c.warnings + WarningsOf(ch))
  {
    var f1, w1, f2, w2 := ChildFiles(ch[0]), ChildWarning(ch[0]), FilesOf(ch[1..]), WarningsOf(ch[1..]);
    assert FilesOf(ch) == f1 + f2;
    assert WarningsOf(ch) == w1 + w2;
    CtxAddTwice(c, f1, w1, f2, w2);
  }

  lemma ChildrenNil(c: Ctx)
    ensures c.(pkg := AddFiles(c.pkg, FilesOf([])), warnings := c.warnings + WarningsOf([])) == c
  {
    assert c.warnings + "" == c.warnings;
    if c.pkg.Some? {
      assert c.pkg.value.files + [] == c.pkg.value.files;
    }
  }

  /** Inside a package, the children add their file entries and warnings and nothing else. */
  lemma {:induction false} ChildrenSem(c: Ctx, ch: seq<Node>, newpkgcb: Option<NewPkgCb>, pkgcb: PkgCb)
    requires c.err.None? && c.depth == 0 && c.phase == InPackage
    ensures Run(c, DocEvents(ch), newpkgcb, pkgcb)
         == c.(pkg := AddFiles(c.pkg, FilesOf(ch)), warnings := c.warnings + WarningsOf(ch))
    decreases |ch|
  {
    if ch == [] {
      ChildrenNil(c);
    } else {
      ChildrenCons(c, ch, newpkgcb, pkgcb);
      ChildrenSem(AfterChild(c, ch[0]), ch[1..], newpkgcb, pkgcb);
      ChildrenCombine(c, ch);
    }
  }

  lemma NodeStep(c: Ctx, n: Node, newpkgcb: Option<NewPkgCb>, pkgcb: PkgCb)
    requires Between(c) && c.err.None?
    ensures var c' := Run(c, NodeEvents(n), newpkgcb, pkgcb);
            Project(c') == NodeSem(n, newpkgcb, pkgcb, Project(c)) && (Between(c') || c'.err.Some?)
  {
    match n
    case FileNode(t, p) =>
      IgnoredNode(c, n, newpkgcb, pkgcb);
    case UnknownNode(_, _) =>
      IgnoredNode(c, n, newpkgcb, pkgcb);
    case PackageNode(id, na, ar, ch) =>
      var open := PackageOpen(id, na, ar);
      RunAppend(c, [open] + DocEvents(ch), [Close], newpkgcb, pkgcb);
      RunAppend(c, [open], DocEvents(ch), newpkgcb, pkgcb);
      RunOne(c, open, newpkgcb, pkgcb);
      var c1 := Step(c, open, newpkgcb, pkgcb);
      if c1.err.Some? {
        RunAfterError(c1, DocEvents(ch), newpkgcb, pkgcb);
        RunAfterError(c1, [Close], newpkgcb, pkgcb);
      } else {
        ChildrenSem(c1, ch, newpkgcb, pkgcb);
        var c2 := Run(c1, DocEvents(ch), newpkgcb, pkgcb);
        RunOne(c2, Close, newpkgcb, pkgcb);
        assert [] + FilesOf(ch) == FilesOf(ch);
      }
  }

  lemma {:induction false} DocStep(c: Ctx, ns: seq<Node>, newpkgcb: Option<NewPkgCb>, pkgcb: PkgCb)
    requires Between(c) || c.err.Some?
    ensures var c' := Run(c, DocEvents(ns), newpkgcb, pkgcb);
            Project(c') == DocSem(ns, newpkgcb, pkgcb, Project(c)) && (Between(c') || c'.err.Some?)
    decreases |ns|
  {
    if c.err.Some? {
      RunAfterError(c, DocEvents(ns), newpkgcb, pkgcb);
    } else if ns != [] {
      RunAppend(c, NodeEvents(ns[0]), DocEvents(ns[1..]), newpkgcb, pkgcb);
      NodeStep(c, ns[0], newpkgcb, pkgcb);
      DocStep(Run(c, NodeEvents(ns[0]), newpkgcb, pkgcb), ns[1..], newpkgcb, pkgcb);
    }
  }

  // The callback calls, read off the tree.

  /**
    The callback calls a top-level node causes when no error is pending before it: a package
    with `pkgid` is first offered to `newpkgcb` (when there is one) and, if it is built, handed
    to `pkgcb` once its children are read.
   */
  function NodeCalls(n: Node, newpkgcb: Option<NewPkgCb>): seq<Call>
  {
    match n
    case PackageNode(id, name, arch, ch) =>
      if id.None? then []
      else
        var asked := if newpkgcb.None? then [] else [NewPkgCall(None, id.value, name, arch, None)];
        if Decide(newpkgcb, id.value, name, arch) == Allocate
        then asked + [PkgCall(Package(id.value, name, arch, FilesOf(ch)), None)]
        else asked
    case _ => []
  }

  /** The callback calls of a sequence of top-level nodes, in document order, up to the first fatal error. */
  function DocCalls(ns: seq<Node>, newpkgcb: Option<NewPkgCb>, pkgcb: PkgCb, r: Result): seq<Call>
    decreases |ns|
  {
    if ns == [] || r.err.Some? then []
    else NodeCalls(ns[0], newpkgcb) + DocCalls(ns[1..], newpkgcb, pkgcb, NodeSem(ns[0], newpkgcb, pkgcb, r))
  }

  lemma NodeCallsStep(c: Ctx, n: Node, newpkgcb: Option<NewPkgCb>, pkgcb: PkgCb)
    requires Between(c) && c.err.None?
    ensures Run(c, NodeEvents(n), newpkgcb, pkgcb).calls == c.calls + NodeCalls(n, newpkgcb)
  {
    match n
    case FileNode(t, p) =>
      IgnoredNode(c, n, newpkgcb, pkgcb);
      assert c.calls + [] == c.calls;
    case UnknownNode(_, _) =>
      IgnoredNode(c, n, newpkgcb, pkgcb);
      assert c.calls + [] == c.calls;
    case PackageNode(id, na, ar, ch) =>
      var open := PackageOpen(id, na, ar);
      RunAppend(c, [open] + DocEvents(ch), [Close], newpkgcb, pkgcb);
      RunAppend(c, [open], DocEvents(ch), newpkgcb, pkgcb);
      RunOne(c, open, newpkgcb, pkgcb);
      var c1 := Step(c, open, newpkgcb, pkgcb);
      if c1.err.Some? {
        RunAfterError(c1, DocEvents(ch), newpkgcb, pkgcb);
        RunAfterError(c1, [Close], newpkgcb, pkgcb);
        assert c.calls + [] == c.calls;
      } else {
        ChildrenSem(c1, ch, newpkgcb, pkgcb);
        var c2 := Run(c1, DocEvents(ch), newpkgcb, pkgcb);
        RunOne(c2, Close, newpkgcb, pkgcb);
        assert [] + FilesOf(ch) == FilesOf(ch);
        if newpkgcb.None? {
          assert c.calls + [] == c.calls;
        }
      }
  }

  lemma DocCallsCons(pre: seq<Call>, ns: seq<Node>, newpkgcb: Option<NewPkgCb>, pkgcb: PkgCb, r: Result, r1: Result)
    requires ns != [] && r.err.None? && r1 == NodeSem(ns[0], newpkgcb, pkgcb, r)
    ensures pre + NodeCalls(ns[0], newpkgcb) + DocCalls(ns[1..], newpkgcb, pkgcb, r1) == pre + DocCalls(ns, newpkgcb, pkgcb, r)
  {
    var a, b := NodeCalls(ns[0], newpkgcb), DocCalls(ns[1..], newpkgcb, pkgcb, r1);
    assert DocCalls(ns, newpkgcb, pkgcb, r) == a + b;
    CallsAssoc(pre, a, b);
  }

  lemma CallsAssoc(a: seq<Call>, b: seq<Call>, c: seq<Call>)
    ensures a + b + c == a + (b + c)
  {
  }

  lemma {:induction false} DocCallsStep(c: Ctx, ns: seq<Node>, newpkgcb: Option<NewPkgCb>, pkgcb: PkgCb)
    requires Between(c) || c.err.Some?
    ensures Run(c, DocEvents(ns), newpkgcb, pkgcb).calls == c.calls + DocCalls(ns, newpkgcb, pkgcb, Project(c))
    decreases |ns|
  {
    if c.err.Some? {
      RunAfterError(c, DocEvents(ns), newpkgcb, pkgcb);
      assert c.calls + [] == c.calls;
    } else if ns == [] {
      assert c.calls + [] == c.calls;
    } else {
      var n := ns[0];
      var c1 := Run(c, NodeEvents(n), newpkgcb, pkgcb);
      RunAppend(c, NodeEvents(n), DocEvents(ns[1..]), newpkgcb, pkgcb);
      NodeStep(c, n, newpkgcb, pkgcb);
      NodeCallsStep(c, n, newpkgcb, pkgcb);
      DocCallsStep(c1, ns[1..], newpkgcb, pkgcb);
      DocCallsCons(c.calls, ns, newpkgcb, pkgcb, Project(c), Project(c1));
    }
  }

  /** The callbacks the streaming parse invokes are exactly those the tree dictates, in the same order. */
  lemma ParseCallsAreTreeCalls(doc: seq<Node>, newpkgcb: Option<NewPkgCb>, pkgcb: PkgCb)
    ensures Run(INIT, DocEvents(doc), newpkgcb, pkgcb).calls == DocCalls(doc, newpkgcb, pkgcb, EMPTY)
  {
    DocCallsStep(INIT, doc, newpkgcb, pkgcb);
    assert [] + DocCalls(doc, newpkgcb, pkgcb, EMPTY) == DocCalls(doc, newpkgcb, pkgcb, EMPTY);
  }

  /** The streaming parse of a document's events reports exactly the document-level result. */
  lemma ParseIsTreeSemantics(doc: seq<Node>, newpkgcb: Option<NewPkgCb>, pkgcb: PkgCb)
    ensures OutcomeOf(Run(INIT, DocEvents(doc), newpkgcb, pkgcb)) == ResultOutcome(DocSem(doc, newpkgcb, pkgcb, EMPTY))
  {
    DocStep(INIT, doc, newpkgcb, pkgcb);
  }
}
