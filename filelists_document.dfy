/**
  The filelists document as the parser sees it.

  The XML tokenizer is an external collaborator; what it delivers is modelled as an ordered
  sequence of events. A package element opens with its optional `pkgid`, `name` and `arch`
  attributes, a file element arrives as one event carrying its optional `type` attribute and
  its path, any other element opens with its tag, and `Close` ends the innermost open element.
  The root collection element is not part of the sequence.

  The tree view (`Node`) is the same document before flattening; `DocEvents` is the order in
  which a streaming tokenizer reports it.
 */
module FilelistsDocument {
  import opened Optional

  datatype FileType = RegularFile | Dir | Ghost

  datatype FileEntry = FileEntry(path: string, ftype: FileType)

  /** A completed package record; `pkgid` is mandatory, so it is never absent here. */
  datatype Package = Package(pkgid: string, name: Option<string>, arch: Option<string>, files: seq<FileEntry>)

  datatype Event =
    | PackageOpen(pkgid: Option<string>, name: Option<string>, arch: Option<string>)
    | FileElement(ftype: Option<string>, path: string)
    | UnknownOpen(tag: string)
    | Close

  datatype Node =
    | PackageNode(pkgid: Option<string>, name: Option<string>, arch: Option<string>, children: seq<Node>)
    | FileNode(ftype: Option<string>, path: string)
    | UnknownNode(tag: string, children: seq<Node>)

  function NodeEvents(n: Node): seq<Event>
    decreases n
  {
    match n
    case PackageNode(id, na, ar, ch) => [PackageOpen(id, na, ar)] + DocEvents(ch) + [Close]
    case FileNode(t, p) => [FileElement(t, p)]
    case UnknownNode(tag, ch) => [UnknownOpen(tag)] + DocEvents(ch) + [Close]
  }

  function DocEvents(ns: seq<Node>): seq<Event>
    decreases ns
  {
    if ns == [] then [] else NodeEvents(ns[0]) + DocEvents(ns[1..])
  }

  /** The values of the `type` attribute of a file element that the parser recognises. */
  predicate KnownFileType(v: string)
  {
    v == "file" || v == "dir" || v == "ghost"
  }

  /** The stored type of a file entry: an absent or unrecognised `type` defaults to a regular file. */
  function FileTypeOf(t: Option<string>): (r: FileType)
    ensures r == Dir <==> t == Some("dir")
    ensures r == Ghost <==> t == Some("ghost")
  {
    if t == Some("dir") then Dir
    else if t == Some("ghost") then Ghost
    else RegularFile
  }

  /** The warning entry for one unrecognised `type` value. */
  function UnknownTypeWarning(v: string): string
  {
    "Unknown file type \"" + v + "\";"
  }

  /** The text a file element adds to the warning accumulator: nothing unless its type is unrecognised. */
  function TypeWarning(t: Option<string>): (w: string)
    ensures w == "" <==> t.None? || KnownFileType(t.value)
    ensures w != "" ==> w == UnknownTypeWarning(t.value)
  {
    if t.None? || KnownFileType(t.value) then "" else UnknownTypeWarning(t.value)
  }
}
