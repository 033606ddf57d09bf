/**
  The streaming filelists parser: a state machine over the event sequence that drives the
  two-phase callback protocol.

  Before a package is parsed the optional pre-allocation callback (`newpkgcb`) decides whether
  it is built, skipped, or the whole parse is interrupted; without one every package is built.
  When a built package closes it is handed to the mandatory delivery callback (`pkgcb`), which
  either lets the parse continue or interrupts it. The callback's own state (its `cbdata`) is
  stood for by the number of packages delivered before the call.
 */
module FilelistsParser {
  import opened Optional
  import opened FilelistsDocument

  datatype NewPkgDecision = Allocate | Skip | InterruptNew

  datatype PkgDecision = Continue | InterruptDelivery

  type NewPkgCb = (string, Option<string>, Option<string>) -> NewPkgDecision

  type PkgCb = (Package, nat) -> PkgDecision

  /** The kinds of fatal error; the code the parse returns with it. */
  datatype ErrorCode = BadXmlFilelists | CbInterrupted

  datatype ReturnCode = CreOk | CreBadXmlFilelists | CreCbInterrupted

  /** One invocation of a caller-supplied callback, with what it was handed: the out slot for
      the new package and the pending error slot. */
  datatype Call =
    | NewPkgCall(slot: Option<Package>, pkgid: string, name: Option<string>, arch: Option<string>, pending: Option<ErrorCode>)
    | PkgCall(pkg: Package, pending: Option<ErrorCode>)

  datatype Phase = Idle | InPackage

  /**
    The parse context: the phase, the in-flight package (`None` inside a skipped package),
    the depth inside an ignored element, the packages handed to `pkgcb`, the warning
    accumulator, the single fatal-error slot, and the trace of callback calls.
   */
  datatype Ctx = Ctx(
    phase: Phase,
    pkg: Option<Package>,
    depth: nat,
    delivered: seq<Package>,
    warnings: string,
    err: Option<ErrorCode>,
    calls: seq<Call>)

  const INIT := Ctx(Idle, None, 0, [], "", None, [])

  function AddFile(pkg: Option<Package>, f: FileEntry): Option<Package>
  {
    if pkg.None? then None else Some(pkg.value.(files := pkg.value.files + [f]))
  }

  /** The decision for a package about to open; the default callback always allocates. */
  function Decide(newpkgcb: Option<NewPkgCb>, id: string, name: Option<string>, arch: Option<string>): NewPkgDecision
  {
    if newpkgcb.None? then Allocate else newpkgcb.value(id, name, arch)
  }

  /** The effect of one event on the context. Nothing changes once an error is recorded. */
  function Step(c: Ctx, e: Event, newpkgcb: Option<NewPkgCb>, pkgcb: PkgCb): Ctx
  {
    if c.err.Some? then c
    else if c.depth > 0 then
      match e
      case PackageOpen(_, _, _) => c.(depth := c.depth + 1)
      case UnknownOpen(_) => c.(depth := c.depth + 1)
      case FileElement(_, _) => c
      case Close => c.(depth := c.depth - 1)
    else
      match e
      case UnknownOpen(_) => c.(depth := 1)
      case PackageOpen(id, name, arch) =>
        if c.phase == InPackage then c.(depth := 1)
        else if id.None? then c.(err := Some(BadXmlFilelists))
        else
          var traced := if newpkgcb.None? then c.calls
                        else c.calls + [NewPkgCall(c.pkg, id.value, name, arch, c.err)];
          (match Decide(newpkgcb, id.value, name, arch)
           case Allocate => c.(phase := InPackage, pkg := Some(Package(id.value, name, arch, [])), calls := traced)
           case Skip => c.(phase := InPackage, pkg := None, calls := traced)
           case InterruptNew => c.(err := Some(CbInterrupted), calls := traced))
      case FileElement(t, path) =>
        if c.phase == Idle then c
        else c.(pkg := AddFile(c.pkg, FileEntry(path, FileTypeOf(t))), warnings := c.warnings + TypeWarning(t))
      case Close =>
        if c.phase == Idle then c
        else if c.pkg.None? then c.(phase := Idle)
        else
          var p := c.pkg.value;
          var decision := pkgcb(p, |c.delivered|);
          c.(phase := Idle, pkg := None, delivered := c.delivered + [p],
             calls := c.calls + [PkgCall(p, c.err)],
             err := if decision == InterruptDelivery then Some(CbInterrupted) else None)
  }

  /** The context after consuming a whole event sequence. */
  function Run(c: Ctx, es: seq<Event>, newpkgcb: Option<NewPkgCb>, pkgcb: PkgCb): Ctx
    decreases |es|
  {
    if es == [] then c else Run(Step(c, es[0], newpkgcb, pkgcb), es[1..], newpkgcb, pkgcb)
  }

  function ReturnCodeOf(err: Option<ErrorCode>): (r: ReturnCode)
    ensures r == CreOk <==> err.None?
  {
    match err
    case None => CreOk
    case Some(BadXmlFilelists) => CreBadXmlFilelists
    case Some(CbInterrupted) => CreCbInterrupted
  }

  /** The warning text as handed to the caller: absent when nothing was recorded. */
  function MessagesOf(warnings: string): (m: Option<string>)
    ensures m.None? <==> warnings == ""
    ensures m.Some? ==> m.value == warnings
  {
    if warnings == "" then None else Some(warnings)
  }

  /** What a parse reports to its caller. */
  datatype Outcome = Outcome(ret: ReturnCode, err: Option<ErrorCode>, messages: Option<string>, delivered: seq<Package>)

  function OutcomeOf(c: Ctx): Outcome
  {
    Outcome(ReturnCodeOf(c.err), c.err, MessagesOf(c.warnings), c.delivered)
  }

  lemma {:induction false} RunAfterError(c: Ctx, es: seq<Event>, newpkgcb: Option<NewPkgCb>, pkgcb: PkgCb)
    requires c.err.Some?
    ensures Run(c, es, newpkgcb, pkgcb) == c
    decreases |es|
  {
    if es != [] {
      RunAfterError(Step(c, es[0], newpkgcb, pkgcb), es[1..], newpkgcb, pkgcb);
    }
  }

  lemma {:induction false} RunAppend(c: Ctx, a: seq<Event>, b: seq<Event>, newpkgcb: Option<NewPkgCb>, pkgcb: PkgCb)
    ensures Run(c, a + b, newpkgcb, pkgcb) == Run(Run(c, a, newpkgcb, pkgcb), b, newpkgcb, pkgcb)
    decreases |a|
  {
    if a == [] {
      assert a + b == b;
    } else {
      assert (a + b)[0] == a[0];
      assert (a + b)[1..] == a[1..] + b;
      RunAppend(Step(c, a[0], newpkgcb, pkgcb), a[1..], b, newpkgcb, pkgcb);
    }
  }

  /** The parser data the handlers update while the tokenizer runs. */
  class ParserData {
    var phase: Phase
    var pkg: Option<Package>
    var depth: nat
    var delivered: seq<Package>
    var warnings: string
    var err: Option<ErrorCode>
    var calls: seq<Call>
    const newpkgcb: Option<NewPkgCb>
    const pkgcb: PkgCb

    function Snapshot(): Ctx
      reads this
    {
      Ctx(phase, pkg, depth, delivered, warnings, err, calls)
    }

    constructor (newpkgcb: Option<NewPkgCb>, pkgcb: PkgCb)
      ensures Snapshot() == INIT
      ensures this.newpkgcb == newpkgcb && this.pkgcb == pkgcb
    {
      phase, pkg, depth := Idle, None, 0;
      delivered, warnings, err, calls := [], "", None, [];
      this.newpkgcb, this.pkgcb := newpkgcb, pkgcb;
    }

    /** Handles one event from the tokenizer. */
    method Handle(e: Event)
      modifies this
      ensures Snapshot() == Step(old(Snapshot()), e, newpkgcb, pkgcb)
    {
      if err.Some? {
        return;
      }
      if depth > 0 {
        // inside an ignored element: only its nesting is tracked
        match e {
          case PackageOpen(_, _, _) => depth := depth + 1;
          case UnknownOpen(_) => depth := depth + 1;
          case FileElement(_, _) =>
          case Close => depth := depth - 1;
        }
        return;
      }
      match e
      case UnknownOpen(_) =>
        depth := 1;
      case PackageOpen(id, name, arch) =>
        if phase == InPackage {
          depth := 1;
        } else if id.None? {
          err := Some(BadXmlFilelists);
        } else {
          var decision := Allocate;
          if newpkgcb.Some? {
            calls := calls + [NewPkgCall(pkg, id.value, name, arch, err)];
            decision := newpkgcb.value(id.value, name, arch);
          }
          match decision {
            case Allocate =>
              phase := InPackage;
              pkg := Some(Package(id.value, name, arch, []));
            case Skip =>
              phase := InPackage;
              pkg := None;
            case InterruptNew =>
              err := Some(CbInterrupted);
          }
        }
      case FileElement(t, path) =>
        if phase == InPackage {
          pkg := AddFile(pkg, FileEntry(path, FileTypeOf(t)));
          warnings := warnings + TypeWarning(t);
        }
      case Close =>
        if phase == InPackage {
          if pkg.Some? {
            var p := pkg.value;
            var decision := pkgcb(p, |delivered|);
            calls := calls + [PkgCall(p, err)];
            delivered := delivered + [p];
            if decision == InterruptDelivery {
              err := Some(CbInterrupted);
            }
          }
          phase := Idle;
          pkg := None;
        }
    }
  }

  /**
    Parses a whole document, stopping at the first fatal error. Returns the status code, the
    error, the warning text (absent when there is none) and the packages handed to `pkgcb`
    in the order they were handed over.
   */
  method ParseFilelists(doc: seq<Event>, newpkgcb: Option<NewPkgCb>, pkgcb: PkgCb)
    returns (ret: ReturnCode, err: Option<ErrorCode>, messages: Option<string>, delivered: seq<Package>)
    ensures Outcome(ret, err, messages, delivered) == OutcomeOf(Run(INIT, doc, newpkgcb, pkgcb))
  {
    var pd := new ParserData(newpkgcb, pkgcb);
    var i := 0;
    while i < |doc| && pd.err.None?
      invariant 0 <= i <= |doc|
      invariant pd.newpkgcb == newpkgcb && pd.pkgcb == pkgcb
      invariant Run(INIT, doc, newpkgcb, pkgcb) == Run(pd.Snapshot(), doc[i..], newpkgcb, pkgcb)
    {
      assert doc[i..][0] == doc[i] && doc[i..][1..] == doc[i + 1..];
      pd.Handle(doc[i]);
      i := i + 1;
    }
    if i < |doc| {
      RunAfterError(pd.Snapshot(), doc[i..], newpkgcb, pkgcb);
    }
    ret, err, messages, delivered := ReturnCodeOf(pd.err), pd.err, MessagesOf(pd.warnings), pd.delivered;
  }
}
