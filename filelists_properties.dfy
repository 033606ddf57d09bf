/**
  What the filelists parser promises its callers, proved on the document-level semantics and
  carried over to the streaming parse by `ParseIsTreeSemantics`. The callbacks the parser's
  tests install are defined here; the test documents themselves are parameters, described by
  how many packages they hold, which lack `pkgid`, which are named `fake_bash` and which file
  types are bad.
 */
module FilelistsProperties {
  import opened Optional
  import opened FilelistsDocument
  import opened FilelistsParser
  import opened FilelistsSemantics

  // The callbacks of the tests. Their counter argument is the number of earlier calls,
  // which is what their `cbdata` counter holds when they run.

  /** Delivery callback that lets the parse continue; the count it keeps is the number of deliveries. */
  function CountingPkgCb(pkg: Package, parsed: nat): PkgDecision
  {
    Continue
  }

  /** Delivery callback that interrupts the parse on its first call. */
  function InterruptingPkgCb(pkg: Package, parsed: nat): PkgDecision
  {
    InterruptDelivery
  }

  /** Pre-allocation callback that declines packages named `fake_bash` and builds all others. */
  function SkipFakeBash(pkgid: string, name: Option<string>, arch: Option<string>): NewPkgDecision
  {
    if name == Some("fake_bash") then Skip else Allocate
  }

  /** Pre-allocation callback that always interrupts. */
  function InterruptingNewPkgCb(pkgid: string, name: Option<string>, arch: Option<string>): NewPkgDecision
  {
    InterruptNew
  }

  // Descriptions of a document.

  predicate AllHavePkgid(doc: seq<Node>)
  {
    forall i | 0 <= i < |doc| :: doc[i].PackageNode? ==> doc[i].pkgid.Some?
  }

  /** The number of package elements at the top level of the document. */
  function CountPackages(doc: seq<Node>): nat
    decreases |doc|
  {
    if doc == [] then 0 else (if doc[0].PackageNode? then 1 else 0) + CountPackages(doc[1..])
  }

  /** The record a package element stands for. */
  function Record(n: Node): Package
    requires n.PackageNode? && n.pkgid.Some?
  {
    Package(n.pkgid.value, n.name, n.arch, FilesOf(n.children))
  }

  /** The record a top-level node yields when `newpkgcb` lets it through. */
  function KeptNode(n: Node, newpkgcb: Option<NewPkgCb>): seq<Package>
    requires n.PackageNode? ==> n.pkgid.Some?
  {
    if n.PackageNode? && Decide(newpkgcb, n.pkgid.value, n.name, n.arch) == Allocate then [Record(n)] else []
  }

  /** The records of the top-level packages that `newpkgcb` lets through, in document order. */
  function Kept(doc: seq<Node>, newpkgcb: Option<NewPkgCb>): seq<Package>
    requires AllHavePkgid(doc)
    decreases |doc|
  {
    if doc == [] then [] else KeptNode(doc[0], newpkgcb) + Kept(doc[1..], newpkgcb)
  }

  /** The records of all top-level packages, in document order. */
  function Records(doc: seq<Node>): seq<Package>
    requires AllHavePkgid(doc)
  {
    Kept(doc, None)
  }

  /** The warnings the file children of all top-level packages produce, in document order. */
  function DocWarnings(doc: seq<Node>): string
    decreases |doc|
  {
    if doc == [] then "" else NodeWarnings(doc[0]) + DocWarnings(doc[1..])
  }

  function NodeWarnings(n: Node): string
  {
    if n.PackageNode? then WarningsOf(n.children) else ""
  }

  ghost predicate NeverInterruptsNew(newpkgcb: Option<NewPkgCb>)
  {
    newpkgcb.Some? ==> forall id, name, arch :: newpkgcb.value(id, name, arch) != InterruptNew
  }

  ghost predicate AlwaysContinues(pkgcb: PkgCb)
  {
    forall p, n :: pkgcb(p, n) == Continue
  }

  lemma {:induction false} DocSemAppend(a: seq<Node>, b: seq<Node>, newpkgcb: Option<NewPkgCb>, pkgcb: PkgCb, r: Result)
    ensures DocSem(a + b, newpkgcb, pkgcb, r) == DocSem(b, newpkgcb, pkgcb, DocSem(a, newpkgcb, pkgcb, r))
    decreases |a|
  {
    if a == [] {
      assert a + b == b;
    } else if r.err.Some? {
      DocSemAfterError(b, newpkgcb, pkgcb, r);
    } else {
      assert (a + b)[0] == a[0] && (a + b)[1..] == a[1..] + b;
      DocSemAppend(a[1..], b, newpkgcb, pkgcb, NodeSem(a[0], newpkgcb, pkgcb, r));
    }
  }

  lemma DocSemAfterError(ns: seq<Node>, newpkgcb: Option<NewPkgCb>, pkgcb: PkgCb, r: Result)
    requires r.err.Some?
    ensures DocSem(ns, newpkgcb, pkgcb, r) == r
  {
  }

  lemma NodeSemWithoutInterrupt(n: Node, newpkgcb: Option<NewPkgCb>, pkgcb: PkgCb, r: Result)
    requires (n.PackageNode? ==> n.pkgid.Some?) && r.err.None?
    requires NeverInterruptsNew(newpkgcb) && AlwaysContinues(pkgcb)
    ensures NodeSem(n, newpkgcb, pkgcb, r)
         == Result(r.delivered + KeptNode(n, newpkgcb), r.warnings + NodeWarnings(n), None)
  {
    if n.PackageNode? {
      var d := Decide(newpkgcb, n.pkgid.value, n.name, n.arch);
      assert d != InterruptNew;
      if d == Skip {
        assert r.delivered + [] == r.delivered;
      }
    } else {
      assert r.delivered + [] == r.delivered && r.warnings + "" == r.warnings;
    }
  }

  /**
    Without interruption every top-level package is decided on once; those built are handed
    over in document order, the warnings of every package arrive in order, and the parse
    succeeds.
   */
  lemma {:induction false} DeliveryWithoutInterrupt(doc: seq<Node>, newpkgcb: Option<NewPkgCb>, pkgcb: PkgCb, r: Result)
    requires AllHavePkgid(doc) && r.err.None?
    requires NeverInterruptsNew(newpkgcb) && AlwaysContinues(pkgcb)
    ensures DocSem(doc, newpkgcb, pkgcb, r)
         == Result(r.delivered + Kept(doc, newpkgcb), r.warnings + DocWarnings(doc), None)
    decreases |doc|
  {
    if doc == [] {
      assert r.delivered + [] == r.delivered && r.warnings + "" == r.warnings;
    } else {
      var n, rest := doc[0], doc[1..];
      TailHasPkgid(doc);
      var r1 := NodeSem(n, newpkgcb, pkgcb, r);
      NodeSemWithoutInterrupt(n, newpkgcb, pkgcb, r);
      DeliveryWithoutInterrupt(rest, newpkgcb, pkgcb, r1);
      ConcatAssoc(r.delivered, KeptNode(n, newpkgcb), Kept(rest, newpkgcb));
      ConcatAssoc(r.warnings, NodeWarnings(n), DocWarnings(rest));
    }
  }

  lemma ConcatAssoc<T>(a: seq<T>, b: seq<T>, c: seq<T>)
    ensures a + b + c == a + (b + c)
  {
  }

  /** What the streaming parse of a document reports. */
  function Parse(doc: seq<Node>, newpkgcb: Option<NewPkgCb>, pkgcb: PkgCb): Outcome
  {
    OutcomeOf(Run(INIT, DocEvents(doc), newpkgcb, pkgcb))
  }

  lemma {:induction false} KeptLength(doc: seq<Node>)
    requires AllHavePkgid(doc)
    ensures |Records(doc)| == CountPackages(doc)
    decreases |doc|
  {
    if doc != [] {
      TailHasPkgid(doc);
      KeptLength(doc[1..]);
    }
  }

  lemma TailHasPkgid(doc: seq<Node>)
    requires doc != [] && AllHavePkgid(doc)
    ensures AllHavePkgid(doc[1..]) && (doc[0].PackageNode? ==> doc[0].pkgid.Some?)
  {
    assert doc[0] == doc[0 + 0];
    forall i | 0 <= i < |doc[1..]| ensures doc[1..][i].PackageNode? ==> doc[1..][i].pkgid.Some? {
      assert doc[1..][i] == doc[i + 1];
    }
  }

  /**
    A document whose packages all carry `pkgid`, parsed without a pre-allocation callback and
    with a delivery callback that never interrupts, succeeds with no error; every package is
    handed over once, in document order, so the counter ends at the number of packages.
   */
  lemma WellFormedDeliversAll(doc: seq<Node>, pkgcb: PkgCb)
    requires AllHavePkgid(doc) && AlwaysContinues(pkgcb)
    ensures Parse(doc, None, pkgcb) == Outcome(CreOk, None, MessagesOf(DocWarnings(doc)), Records(doc))
    ensures |Parse(doc, None, pkgcb).delivered| == CountPackages(doc)
  {
    ParseIsTreeSemantics(doc, None, pkgcb);
    DeliveryWithoutInterrupt(doc, None, pkgcb, EMPTY);
    assert [] + Records(doc) == Records(doc);
    assert "" + DocWarnings(doc) == DocWarnings(doc);
    KeptLength(doc);
  }

  /**
    The counting delivery callback of the tests, on a document whose packages all carry
    `pkgid`: the parse succeeds and the counter ends at the number of packages.
   */
  lemma CountingPkgCbCountsAll(doc: seq<Node>)
    requires AllHavePkgid(doc)
    ensures Parse(doc, None, CountingPkgCb).ret == CreOk && Parse(doc, None, CountingPkgCb).err.None?
    ensures |Parse(doc, None, CountingPkgCb).delivered| == CountPackages(doc)
  {
    WellFormedDeliversAll(doc, CountingPkgCb);
  }

  // Unknown elements.

  /** The children of a package element with every unknown element (and its subtree) removed. */
  function StripChildren(ch: seq<Node>): (r: seq<Node>)
    ensures forall i | 0 <= i < |r| :: !r[i].UnknownNode?
    decreases |ch|
  {
    if ch == [] then []
    else (if ch[0].UnknownNode? then [] else [ch[0]]) + StripChildren(ch[1..])
  }

  function StripNode(n: Node): Node
  {
    match n
    case PackageNode(id, name, arch, ch) => PackageNode(id, name, arch, StripChildren(ch))
    case _ => n
  }

  /** The document with every unknown element, at the top level or inside a package, removed. */
  function StripUnknown(doc: seq<Node>): seq<Node>
    decreases |doc|
  {
    if doc == [] then []
    else (if doc[0].UnknownNode? then [] else [StripNode(doc[0])]) + StripUnknown(doc[1..])
  }

  lemma {:induction false} StripChildrenKeepsFiles(ch: seq<Node>)
    ensures FilesOf(StripChildren(ch)) == FilesOf(ch)
    ensures WarningsOf(StripChildren(ch)) == WarningsOf(ch)
    decreases |ch|
  {
    if ch != [] {
      var rest := StripChildren(ch[1..]);
      StripChildrenKeepsFiles(ch[1..]);
      if ch[0].UnknownNode? {
        assert StripChildren(ch) == rest;
        assert FilesOf(ch) == [] + FilesOf(ch[1..]);
        assert WarningsOf(ch) == "" + WarningsOf(ch[1..]);
      } else {
        var s := [ch[0]] + rest;
        assert StripChildren(ch) == s && s[0] == ch[0] && s[1..] == rest;
      }
    }
  }

  lemma {:induction false} StripUnknownSem(doc: seq<Node>, newpkgcb: Option<NewPkgCb>, pkgcb: PkgCb, r: Result)
    ensures DocSem(StripUnknown(doc), newpkgcb, pkgcb, r) == DocSem(doc, newpkgcb, pkgcb, r)
    decreases |doc|
  {
    if doc != [] && r.err.None? {
      var rest := StripUnknown(doc[1..]);
      if doc[0].UnknownNode? {
        assert StripUnknown(doc) == rest;
        StripUnknownSem(doc[1..], newpkgcb, pkgcb, r);
      } else {
        var n := doc[0];
        var s := [StripNode(n)] + rest;
        assert StripUnknown(doc) == s && s[0] == StripNode(n) && s[1..] == rest;
        if n.PackageNode? {
          StripChildrenKeepsFiles(n.children);
        }
        assert NodeSem(StripNode(n), newpkgcb, pkgcb, r) == NodeSem(n, newpkgcb, pkgcb, r);
        StripUnknownSem(doc[1..], newpkgcb, pkgcb, NodeSem(n, newpkgcb, pkgcb, r));
      }
    }
  }

  /**
    Unknown elements are ignored silently wherever they appear: whatever the callbacks, the
    parse reports exactly what it reports for the same document without them (the same
    status, error, warnings and delivered packages).
   */
  lemma UnknownElementsIgnored(doc: seq<Node>, newpkgcb: Option<NewPkgCb>, pkgcb: PkgCb)
    ensures Parse(doc, newpkgcb, pkgcb) == Parse(StripUnknown(doc), newpkgcb, pkgcb)
  {
    ParseIsTreeSemantics(doc, newpkgcb, pkgcb);
    ParseIsTreeSemantics(StripUnknown(doc), newpkgcb, pkgcb);
    StripUnknownSem(doc, newpkgcb, pkgcb, EMPTY);
  }

  // A package without pkgid.

  /**
    A package element without `pkgid` ends the parse with `CRE_BADXMLFILELISTS` and an error;
    the packages before it stay delivered (no rollback) and nothing after it is looked at.
   */
  lemma MissingPkgidFails(pre: seq<Node>, name: Option<string>, arch: Option<string>, ch: seq<Node>,
                          post: seq<Node>, newpkgcb: Option<NewPkgCb>, pkgcb: PkgCb)
    requires AllHavePkgid(pre) && NeverInterruptsNew(newpkgcb) && AlwaysContinues(pkgcb)
    ensures Parse(pre + [PackageNode(None, name, arch, ch)] + post, newpkgcb, pkgcb)
         == Outcome(CreBadXmlFilelists, Some(BadXmlFilelists), MessagesOf(DocWarnings(pre)), Kept(pre, newpkgcb))
  {
    var bad := PackageNode(None, name, arch, ch);
    var doc := pre + [bad] + post;
    ParseIsTreeSemantics(doc, newpkgcb, pkgcb);
    assert doc == pre + ([bad] + post);
    DocSemAppend(pre, [bad] + post, newpkgcb, pkgcb, EMPTY);
    DeliveryWithoutInterrupt(pre, newpkgcb, pkgcb, EMPTY);
    var r := DocSem(pre, newpkgcb, pkgcb, EMPTY);
    assert ([bad] + post)[0] == bad && ([bad] + post)[1..] == post;
    DocSemAfterError(post, newpkgcb, pkgcb, NodeSem(bad, newpkgcb, pkgcb, r));
    assert [] + Kept(pre, newpkgcb) == Kept(pre, newpkgcb);
    assert "" + DocWarnings(pre) == DocWarnings(pre);
  }

  // Skipping packages named fake_bash.

  /** The records not named `fake_bash`, in order. */
  function NotFakeBash(ps: seq<Package>): (r: seq<Package>)
    ensures forall i | 0 <= i < |r| :: r[i].name != Some("fake_bash")
    ensures |r| <= |ps|
    decreases |ps|
  {
    if ps == [] then []
    else (if ps[0].name == Some("fake_bash") then [] else [ps[0]]) + NotFakeBash(ps[1..])
  }

  /** The number of top-level packages named `fake_bash`. */
  function CountFakeBash(doc: seq<Node>): nat
    decreases |doc|
  {
    if doc == [] then 0
    else (if doc[0].PackageNode? && doc[0].name == Some("fake_bash") then 1 else 0) + CountFakeBash(doc[1..])
  }

  lemma {:induction false} SkipFakeBashKeeps(doc: seq<Node>)
    requires AllHavePkgid(doc)
    ensures Kept(doc, Some(SkipFakeBash)) == NotFakeBash(Records(doc))
    ensures |NotFakeBash(Records(doc))| == CountPackages(doc) - CountFakeBash(doc)
    decreases |doc|
  {
    if doc != [] {
      TailHasPkgid(doc);
      SkipFakeBashKeeps(doc[1..]);
      var rs := Records(doc[1..]);
      if doc[0].PackageNode? {
        var p := Record(doc[0]);
        assert Records(doc) == [p] + rs;
        assert ([p] + rs)[0] == p && ([p] + rs)[1..] == rs;
        assert NotFakeBash(Records(doc)) == (if p.name == Some("fake_bash") then [] else [p]) + NotFakeBash(rs);
        assert KeptNode(doc[0], Some(SkipFakeBash)) == (if p.name == Some("fake_bash") then [] else [p]);
      } else {
        assert Records(doc) == rs;
      }
    }
  }

  /**
    With the pre-allocation callback that leaves the slot empty for packages named
    `fake_bash`, those packages are never delivered and every other one is, in order; the
    parse still succeeds and the count is the number of packages less the `fake_bash` ones.
   */
  lemma SkippedNeverDelivered(doc: seq<Node>, pkgcb: PkgCb)
    requires AllHavePkgid(doc) && AlwaysContinues(pkgcb)
    ensures Parse(doc, Some(SkipFakeBash), pkgcb)
         == Outcome(CreOk, None, MessagesOf(DocWarnings(doc)), NotFakeBash(Records(doc)))
    ensures |Parse(doc, Some(SkipFakeBash), pkgcb).delivered| == CountPackages(doc) - CountFakeBash(doc)
  {
    var nb: Option<NewPkgCb> := Some(SkipFakeBash);
    ParseIsTreeSemantics(doc, nb, pkgcb);
    DeliveryWithoutInterrupt(doc, nb, pkgcb, EMPTY);
    SkipFakeBashKeeps(doc);
    assert [] + Kept(doc, nb) == Kept(doc, nb);
    assert "" + DocWarnings(doc) == DocWarnings(doc);
  }

  // Interruption by the callbacks.

  /** The delivery callback continues on its first `m - 1` calls and interrupts on the `m`-th. */
  ghost predicate InterruptsOnCall(pkgcb: PkgCb, m: nat)
  {
    forall p: Package, n: nat :: pkgcb(p, n) == (if n + 1 < m then Continue else InterruptDelivery)
  }

  /** A package element with `pkgid`, parsed without `newpkgcb`, is built and handed over. */
  lemma PackageNodeSem(n: Node, pkgcb: PkgCb, r: Result)
    requires n.PackageNode? && n.pkgid.Some?
    ensures NodeSem(n, None, pkgcb, r).delivered == r.delivered + [Record(n)]
    ensures NodeSem(n, None, pkgcb, r).err
         == if pkgcb(Record(n), |r.delivered|) == InterruptDelivery then Some(CbInterrupted) else None
  {
  }

  /** One package of the walk: it is delivered, and the interruption is set on the `m`-th delivery. */
  lemma InterruptStep(n: Node, pkgcb: PkgCb, m: nat, r: Result)
    requires n.PackageNode? && n.pkgid.Some? && InterruptsOnCall(pkgcb, m)
    ensures NodeSem(n, None, pkgcb, r).delivered == r.delivered + [Record(n)]
    ensures NodeSem(n, None, pkgcb, r).err == (if |r.delivered| + 1 < m then None else Some(CbInterrupted))
  {
    PackageNodeSem(n, pkgcb, r);
    assert pkgcb(Record(n), |r.delivered|) == (if |r.delivered| + 1 < m then Continue else InterruptDelivery);
  }

  lemma {:induction false} InterruptSem(doc: seq<Node>, pkgcb: PkgCb, m: nat, r: Result)
    requires AllHavePkgid(doc) && r.err.None? && InterruptsOnCall(pkgcb, m)
    requires |r.delivered| < m <= |r.delivered| + CountPackages(doc)
    ensures DocSem(doc, None, pkgcb, r).err == Some(CbInterrupted)
    ensures m - |r.delivered| <= |Records(doc)|
         && DocSem(doc, None, pkgcb, r).delivered == r.delivered + Records(doc)[..m - |r.delivered|]
    decreases |doc|
  {
    TailHasPkgid(doc);
    KeptLength(doc);
    var n, rest := doc[0], doc[1..];
    var rs := Records(rest);
    var r1 := NodeSem(n, None, pkgcb, r);
    assert DocSem(doc, None, pkgcb, r) == DocSem(rest, None, pkgcb, r1);
    if n.PackageNode? {
      var p := Record(n);
      assert Records(doc) == [p] + rs;
      InterruptStep(n, pkgcb, m, r);
      if |r.delivered| + 1 == m {
        DocSemAfterError(rest, None, pkgcb, r1);
        assert ([p] + rs)[..1] == [p];
      } else {
        KeptLength(rest);
        InterruptSem(rest, pkgcb, m, r1);
        var k := m - |r.delivered|;
        assert ([p] + rs)[..k] == [p] + rs[..k - 1];
        ConcatAssoc(r.delivered, [p], rs[..k - 1]);
      }
    } else {
      assert r1 == r;
      assert CountPackages(doc) == CountPackages(rest) && Records(doc) == rs;
      InterruptSem(rest, pkgcb, m, r);
    }
  }

  /**
    When the delivery callback interrupts on its `m`-th call and the document's first part
    `pre` holds at least `m` packages, all with `pkgid`, the parse returns `CRE_CBINTERRUPTED`
    with an error, and the callback has run exactly `m` times: on the first `m` packages,
    whatever follows them.
   */
  lemma DeliveryInterruptStops(pre: seq<Node>, post: seq<Node>, pkgcb: PkgCb, m: nat)
    requires AllHavePkgid(pre) && InterruptsOnCall(pkgcb, m) && 1 <= m <= CountPackages(pre)
    ensures Parse(pre + post, None, pkgcb).ret == CreCbInterrupted
    ensures Parse(pre + post, None, pkgcb).err == Some(CbInterrupted)
    ensures m <= |Records(pre)| && Parse(pre + post, None, pkgcb).delivered == Records(pre)[..m]
  {
    KeptLength(pre);
    ParseIsTreeSemantics(pre + post, None, pkgcb);
    DocSemAppend(pre, post, None, pkgcb, EMPTY);
    InterruptSem(pre, pkgcb, m, EMPTY);
    DocSemAfterError(post, None, pkgcb, DocSem(pre, None, pkgcb, EMPTY));
    assert [] + Records(pre)[..m] == Records(pre)[..m];
  }

  /** The interrupting delivery callback of the tests stops the parse after its first call. */
  lemma InterruptingPkgCbDeliversOne(pre: seq<Node>, post: seq<Node>)
    requires AllHavePkgid(pre) && 1 <= CountPackages(pre)
    ensures Parse(pre + post, None, InterruptingPkgCb).ret == CreCbInterrupted
    ensures Parse(pre + post, None, InterruptingPkgCb).err.Some?
    ensures |Parse(pre + post, None, InterruptingPkgCb).delivered| == 1
  {
    DeliveryInterruptStops(pre, post, InterruptingPkgCb, 1);
  }

  lemma {:induction false} NewInterruptSem(doc: seq<Node>, pkgcb: PkgCb, r: Result)
    requires AllHavePkgid(doc) && r.err.None? && 1 <= CountPackages(doc)
    ensures DocSem(doc, Some(InterruptingNewPkgCb), pkgcb, r) == r.(err := Some(CbInterrupted))
    decreases |doc|
  {
    TailHasPkgid(doc);
    if !doc[0].PackageNode? {
      NewInterruptSem(doc[1..], pkgcb, r);
    }
  }

  /**
    When the pre-allocation callback interrupts, the parse returns `CRE_CBINTERRUPTED` with an
    error at the first package; the delivery callback never runs and no warning is reported.
    Only the packages up to the first one need `pkgid`: `pre` ends at or after it.
   */
  lemma NewPkgInterruptDeliversNone(pre: seq<Node>, post: seq<Node>, pkgcb: PkgCb)
    requires AllHavePkgid(pre) && 1 <= CountPackages(pre)
    ensures Parse(pre + post, Some(InterruptingNewPkgCb), pkgcb)
         == Outcome(CreCbInterrupted, Some(CbInterrupted), None, [])
  {
    var nb: Option<NewPkgCb> := Some(InterruptingNewPkgCb);
    ParseIsTreeSemantics(pre + post, nb, pkgcb);
    DocSemAppend(pre, post, nb, pkgcb, EMPTY);
    NewInterruptSem(pre, pkgcb, EMPTY);
    DocSemAfterError(post, nb, pkgcb, DocSem(pre, nb, pkgcb, EMPTY));
  }

  // Unknown file types.

  /**
    A document in the shape the bad-file-type tests imply: two packages, the first holding
    one file entry of type `foo`, the second an entry without a type and one of type `dir`.
    Identifiers, names, architectures and paths are parameters.
   */
  function BadTypeDoc(id1: string, name1: Option<string>, arch1: Option<string>, path1: string,
                      id2: string, name2: Option<string>, arch2: Option<string>, path2: string, path3: string): seq<Node>
  {
    [PackageNode(Some(id1), name1, arch1, [FileNode(Some("foo"), path1)]),
     PackageNode(Some(id2), name2, arch2, [FileNode(None, path2), FileNode(Some("dir"), path3)])]
  }

  /** The one warning of the document with a bad file type. */
  lemma BadTypeWarnings(id1: string, name1: Option<string>, arch1: Option<string>, path1: string,
                        id2: string, name2: Option<string>, arch2: Option<string>, path2: string, path3: string)
    ensures DocWarnings(BadTypeDoc(id1, name1, arch1, path1, id2, name2, arch2, path2, path3))
         == "Unknown file type \"foo\";"
  {
    var doc := BadTypeDoc(id1, name1, arch1, path1, id2, name2, arch2, path2, path3);
    var w := UnknownTypeWarning("foo");
    assert w == "Unknown file type \"foo\";";
    assert !KnownFileType("foo");
    assert WarningsOf(doc[0].children) == w + "" by {
      assert doc[0].children[1..] == [];
    }
    assert WarningsOf(doc[1].children) == "" by {
      var ch := doc[1].children;
      assert KnownFileType("dir");
      assert ch[1..][1..] == [];
    }
    assert doc[1..][1..] == [] && doc[1..][0] == doc[1];
    assert DocWarnings(doc[1..]) == "" + "";
    assert DocWarnings(doc) == w + ("" + "");
    assert w + ("" + "") == w;
  }

  /** The packages of the document with a bad file type, the bad entry stored as a regular file. */
  lemma BadTypeRecords(id1: string, name1: Option<string>, arch1: Option<string>, path1: string,
                       id2: string, name2: Option<string>, arch2: Option<string>, path2: string, path3: string)
    ensures Records(BadTypeDoc(id1, name1, arch1, path1, id2, name2, arch2, path2, path3))
         == [Package(id1, name1, arch1, [FileEntry(path1, RegularFile)]),
             Package(id2, name2, arch2, [FileEntry(path2, RegularFile), FileEntry(path3, Dir)])]
  {
    var doc := BadTypeDoc(id1, name1, arch1, path1, id2, name2, arch2, path2, path3);
    assert FilesOf(doc[0].children) == [FileEntry(path1, RegularFile)] + [];
    var ch := doc[1].children;
    assert FilesOf(ch[1..]) == [FileEntry(path3, Dir)] + [];
    assert FilesOf(ch) == [FileEntry(path2, RegularFile)] + FilesOf(ch[1..]);
    assert doc[1..][1..] == [];
    assert Kept(doc[1..], None) == KeptNode(doc[1], None) + [];
    assert Records(doc) == KeptNode(doc[0], None) + Kept(doc[1..], None);
    assert Records(doc) == [Record(doc[0])] + ([Record(doc[1])] + []);
    assert Record(doc[0]) == Package(id1, name1, arch1, [FileEntry(path1, RegularFile)]);
    assert Record(doc[1]) == Package(id2, name2, arch2, [FileEntry(path2, RegularFile), FileEntry(path3, Dir)]);
  }

  /**
    A file entry of type `foo` does not fail the parse: it returns `CRE_OK` with no error, both
    packages are delivered with the bad entry stored as a regular file, and the warning text is
    exactly `Unknown file type "foo";`.
   */
  lemma BadFileTypeWarns(id1: string, name1: Option<string>, arch1: Option<string>, path1: string,
                         id2: string, name2: Option<string>, arch2: Option<string>, path2: string, path3: string,
                         pkgcb: PkgCb)
    requires AlwaysContinues(pkgcb)
    ensures Parse(BadTypeDoc(id1, name1, arch1, path1, id2, name2, arch2, path2, path3), None, pkgcb)
         == Outcome(CreOk, None, Some("Unknown file type \"foo\";"),
                    [Package(id1, name1, arch1, [FileEntry(path1, RegularFile)]),
                     Package(id2, name2, arch2, [FileEntry(path2, RegularFile), FileEntry(path3, Dir)])])
  {
    WellFormedDeliversAll(BadTypeDoc(id1, name1, arch1, path1, id2, name2, arch2, path2, path3), pkgcb);
    BadTypeWarnings(id1, name1, arch1, path1, id2, name2, arch2, path2, path3);
    BadTypeRecords(id1, name1, arch1, path1, id2, name2, arch2, path2, path3);
  }

  // The callback protocol.

  /** A callback call made as the protocol promises: `newpkgcb` finds its out slot empty and no
      pending error, `pkgcb` finds no pending error. */
  predicate CallOk(call: Call)
  {
    match call
    case NewPkgCall(slot, _, _, _, pending) => slot.None? && pending.None?
    case PkgCall(_, pending) => pending.None?
  }

  /** The packages handed to `pkgcb`, in the order of the calls. */
  function Handed(calls: seq<Call>): seq<Package>
    decreases |calls|
  {
    if calls == [] then []
    else Handed(calls[..|calls| - 1]) + (if calls[|calls| - 1].PkgCall? then [calls[|calls| - 1].pkg] else [])
  }

  predicate ProtocolInv(c: Ctx)
  {
    && (c.phase == Idle ==> c.pkg.None?)
    && (forall i | 0 <= i < |c.calls| :: CallOk(c.calls[i]))
    && Handed(c.calls) == c.delivered
  }

  lemma HandedAppend(calls: seq<Call>, call: Call)
    ensures Handed(calls + [call]) == Handed(calls) + (if call.PkgCall? then [call.pkg] else [])
  {
    assert (calls + [call])[..|calls|] == calls;
  }

  /** Recording one well-made call, and delivering its package if it is a `pkgcb` call, keeps the invariant. */
  lemma ProtocolAppend(c: Ctx, call: Call, c2: Ctx)
    requires ProtocolInv(c) && CallOk(call)
    requires c2.calls == c.calls + [call]
    requires c2.delivered == c.delivered + (if call.PkgCall? then [call.pkg] else [])
    requires c2.phase == Idle ==> c2.pkg.None?
    ensures ProtocolInv(c2)
  {
    HandedAppend(c.calls, call);
    forall i | 0 <= i < |c2.calls| ensures CallOk(c2.calls[i]) {
      if i < |c.calls| {
        assert c2.calls[i] == c.calls[i];
      }
    }
  }

  lemma OpenKeepsProtocol(c: Ctx, id: string, name: Option<string>, arch: Option<string>, newpkgcb: NewPkgCb, pkgcb: PkgCb)
    requires ProtocolInv(c) && c.err.None? && c.depth == 0 && c.phase == Idle
    ensures ProtocolInv(Step(c, PackageOpen(Some(id), name, arch), Some(newpkgcb), pkgcb))
  {
    var c2 := Step(c, PackageOpen(Some(id), name, arch), Some(newpkgcb), pkgcb);
    ProtocolAppend(c, NewPkgCall(c.pkg, id, name, arch, c.err), c2);
  }

  lemma CloseKeepsProtocol(c: Ctx, newpkgcb: Option<NewPkgCb>, pkgcb: PkgCb)
    requires ProtocolInv(c) && c.err.None? && c.depth == 0 && c.phase == InPackage && c.pkg.Some?
    ensures ProtocolInv(Step(c, Close, newpkgcb, pkgcb))
  {
    ProtocolAppend(c, PkgCall(c.pkg.value, c.err), Step(c, Close, newpkgcb, pkgcb));
  }

  lemma StepKeepsProtocol(c: Ctx, e: Event, newpkgcb: Option<NewPkgCb>, pkgcb: PkgCb)
    requires ProtocolInv(c)
    ensures ProtocolInv(Step(c, e, newpkgcb, pkgcb))
  {
    if c.err.None? && c.depth == 0 {
      match e
      case PackageOpen(id, name, arch) =>
        if c.phase == Idle && id.Some? && newpkgcb.Some? {
          OpenKeepsProtocol(c, id.value, name, arch, newpkgcb.value, pkgcb);
        }
      case Close =>
        if c.phase == InPackage && c.pkg.Some? {
          CloseKeepsProtocol(c, newpkgcb, pkgcb);
        }
      case _ =>
    }
  }

  lemma {:induction false} RunKeepsProtocol(c: Ctx, es: seq<Event>, newpkgcb: Option<NewPkgCb>, pkgcb: PkgCb)
    requires ProtocolInv(c)
    ensures ProtocolInv(Run(c, es, newpkgcb, pkgcb))
    decreases |es|
  {
    if es != [] {
      StepKeepsProtocol(c, es[0], newpkgcb, pkgcb);
      RunKeepsProtocol(Step(c, es[0], newpkgcb, pkgcb), es[1..], newpkgcb, pkgcb);
    }
  }

  /**
    Over any event sequence, every `newpkgcb` call finds its out slot empty and no pending
    error, every `pkgcb` call finds no pending error, and the packages reported as delivered
    are exactly those handed to `pkgcb`, each once, in call order.
   */
  lemma CallbackPreconditions(es: seq<Event>, newpkgcb: Option<NewPkgCb>, pkgcb: PkgCb)
    ensures var c := Run(INIT, es, newpkgcb, pkgcb);
            (forall i | 0 <= i < |c.calls| :: CallOk(c.calls[i])) && Handed(c.calls) == c.delivered
  {
    RunKeepsProtocol(INIT, es, newpkgcb, pkgcb);
  }

  // The order of the calls.

  /** The `pkgid`s offered to `newpkgcb`, in call order. */
  function AskedIds(calls: seq<Call>): seq<string>
    decreases |calls|
  {
    if calls == [] then []
    else (if calls[0].NewPkgCall? then [calls[0].pkgid] else []) + AskedIds(calls[1..])
  }

  /** The `pkgid`s of the top-level packages, in document order. */
  function PackageIds(doc: seq<Node>): seq<string>
    requires AllHavePkgid(doc)
    decreases |doc|
  {
    if doc == [] then []
    else
      TailHasPkgid(doc);
      (if doc[0].PackageNode? then [doc[0].pkgid.value] else []) + PackageIds(doc[1..])
  }

  lemma {:induction false} AskedIdsAppend(a: seq<Call>, b: seq<Call>)
    ensures AskedIds(a + b) == AskedIds(a) + AskedIds(b)
    decreases |a|
  {
    if a == [] {
      assert a + b == b;
    } else {
      assert (a + b)[0] == a[0] && (a + b)[1..] == a[1..] + b;
      AskedIdsAppend(a[1..], b);
      ConcatAssoc(if a[0].NewPkgCall? then [a[0].pkgid] else [], AskedIds(a[1..]), AskedIds(b));
    }
  }

  lemma NodeAskedIds(n: Node, newpkgcb: NewPkgCb)
    requires n.PackageNode? ==> n.pkgid.Some?
    ensures AskedIds(NodeCalls(n, Some(newpkgcb))) == if n.PackageNode? then [n.pkgid.value] else []
  {
    if n.PackageNode? {
      var ask := NewPkgCall(None, n.pkgid.value, n.name, n.arch, None);
      var p := PkgCall(Package(n.pkgid.value, n.name, n.arch, FilesOf(n.children)), None);
      assert AskedIds([ask]) == [n.pkgid.value] by {
        assert [ask][1..] == [];
      }
      assert AskedIds([ask] + [p]) == [n.pkgid.value] by {
        assert ([ask] + [p])[1..] == [p] && [p][1..] == [];
        assert AskedIds([p]) == [];
      }
    }
  }

  lemma {:induction false} AskedInDocumentOrder(doc: seq<Node>, newpkgcb: NewPkgCb, pkgcb: PkgCb, r: Result)
    requires AllHavePkgid(doc) && r.err.None?
    requires NeverInterruptsNew(Some(newpkgcb)) && AlwaysContinues(pkgcb)
    ensures AskedIds(DocCalls(doc, Some(newpkgcb), pkgcb, r)) == PackageIds(doc)
    decreases |doc|
  {
    if doc != [] {
      TailHasPkgid(doc);
      var r1 := NodeSem(doc[0], Some(newpkgcb), pkgcb, r);
      NodeSemWithoutInterrupt(doc[0], Some(newpkgcb), pkgcb, r);
      AskedInDocumentOrder(doc[1..], newpkgcb, pkgcb, r1);
      AskedIdsAppend(NodeCalls(doc[0], Some(newpkgcb)), DocCalls(doc[1..], Some(newpkgcb), pkgcb, r1));
      NodeAskedIds(doc[0], newpkgcb);
    }
  }

  /**
    When neither callback interrupts, `newpkgcb` is invoked once per top-level package, in
    document order, with that package's `pkgid`.
   */
  lemma NewPkgCbOncePerPackage(doc: seq<Node>, newpkgcb: NewPkgCb, pkgcb: PkgCb)
    requires AllHavePkgid(doc) && NeverInterruptsNew(Some(newpkgcb)) && AlwaysContinues(pkgcb)
    ensures AskedIds(Run(INIT, DocEvents(doc), Some(newpkgcb), pkgcb).calls) == PackageIds(doc)
  {
    ParseCallsAreTreeCalls(doc, Some(newpkgcb), pkgcb);
    AskedInDocumentOrder(doc, newpkgcb, pkgcb, EMPTY);
  }

  /** Every `pkgcb` call comes right after the `newpkgcb` call for the same `pkgid`. */
  predicate DeliveriesFollowAsks(calls: seq<Call>)
  {
    forall i | 0 <= i < |calls| && calls[i].PkgCall? ::
      0 < i && calls[i - 1].NewPkgCall? && calls[i - 1].pkgid == calls[i].pkg.pkgid
  }

  lemma DeliveriesFollowAsksAppend(a: seq<Call>, b: seq<Call>)
    requires DeliveriesFollowAsks(a) && DeliveriesFollowAsks(b)
    ensures DeliveriesFollowAsks(a + b)
  {
    forall i | 0 <= i < |a + b| && (a + b)[i].PkgCall?
      ensures 0 < i && (a + b)[i - 1].NewPkgCall? && (a + b)[i - 1].pkgid == (a + b)[i].pkg.pkgid
    {
      if i < |a| {
        assert (a + b)[i] == a[i] && (a + b)[i - 1] == a[i - 1];
      } else {
        var j := i - |a|;
        assert (a + b)[i] == b[j] && (a + b)[i - 1] == b[j - 1];
      }
    }
  }

  lemma {:induction false} DocCallsFollowAsks(doc: seq<Node>, newpkgcb: NewPkgCb, pkgcb: PkgCb, r: Result)
    ensures DeliveriesFollowAsks(DocCalls(doc, Some(newpkgcb), pkgcb, r))
    decreases |doc|
  {
    if doc != [] && r.err.None? {
      DocCallsFollowAsks(doc[1..], newpkgcb, pkgcb, NodeSem(doc[0], Some(newpkgcb), pkgcb, r));
      DeliveriesFollowAsksAppend(NodeCalls(doc[0], Some(newpkgcb)),
                                 DocCalls(doc[1..], Some(newpkgcb), pkgcb, NodeSem(doc[0], Some(newpkgcb), pkgcb, r)));
    }
  }

  /**
    With a pre-allocation callback, whatever the callbacks decide, each delivery call is
    preceded directly by the pre-allocation call for the same package: the two calls of a
    package come in that order, with nothing in between.
   */
  lemma AskPrecedesDelivery(doc: seq<Node>, newpkgcb: NewPkgCb, pkgcb: PkgCb)
    ensures DeliveriesFollowAsks(Run(INIT, DocEvents(doc), Some(newpkgcb), pkgcb).calls)
  {
    ParseCallsAreTreeCalls(doc, Some(newpkgcb), pkgcb);
    DocCallsFollowAsks(doc, newpkgcb, pkgcb, EMPTY);
  }
}
