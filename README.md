# createrepo_c: filelists parsing protocol and updateinfo serialisation, modelled in Dafny

This project models two parts of createrepo_c as its test suites pin them down.

**The streaming filelists parser** (`cr_xml_parse_filelists`). The tokenizer's output is an
ordered sequence of events:

- a package opens, with optional `pkgid`, `name` and `arch`;
- a file entry arrives, with an optional `type` value and a path;
- some other element opens;
- the innermost open element closes.

The parser walks these events while it updates its parser data:

- the phase;
- the in-flight package, which is absent for a skipped package;
- the nesting depth inside an ignored element;
- the delivered packages;
- the warning buffer;
- a single error slot;
- a trace of callback calls.

It drives two caller-supplied callbacks. The optional `newpkgcb` allocates, skips or
interrupts. The mandatory `pkgcb` continues or interrupts.

- `FilelistsParser.ParserData.Handle` is the per-event handler. It is a class method whose
  new state is the pure transition `Step`.
- `FilelistsParser.ParseFilelists` is the parse loop. It is proved equal to `Run`, the fold of
  `Step`.
- A separate tree view of the document comes with a document-level semantics (`DocSem`).
  `ParseIsTreeSemantics` proves it equal to the streaming parse.
- The tested outcomes are proved for every document of the right shape. These outcomes are
  the return code, whether an error is present, exactly which packages are delivered, and the
  exact warning text. The fixture files are then instances of these general lemmas.

**The updateinfo container and `xml_dump`**.

- `UpdateInfo`, `UpdateRecord`, `UpdateCollection`, `UpdateCollectionPackage` and
  `UpdateReference` are classes.
  - Their attributes are `Option` fields, unset until assigned.
  - Their `append`, `append_collection` and `append_reference` methods grow lists in place.
  - `Value()` is the plain value each object stands for.
- `xml_dump` is a pure function, built in three stages:
  1. a record value becomes an element tree (`RecordElem`);
  2. the tree is rendered as two-space-indented lines (`Render`);
  3. the lines are joined under the XML declaration (`Dump`).
- Its partners are the following:
  - a decoder, `InfoOf`, with the round trip `InfoRoundTrip` on the element tree: the tree
    loses no record, field, reference, collection or package, and keeps their order (the text
    itself is not read back, see below);
  - line-by-line layout lemmas: attribute order, child order, `date` attributes, self-closing
    empty lists and indentation;
  - the three literal dumps of the test suite, proved as lemmas and replayed on the objects.

The files are listed below.

- `optional.dfy`: the `Option` type.
- `filelists_document.dfy`: events, tree nodes, file types and the unknown-type warning text.
- `filelists_parser.dfy`: `Step`, `Run`, the `ParserData` class and `ParseFilelists`.
- `filelists_semantics.dfy`: the tree semantics, and the proof that the event loop computes it.
- `filelists_properties.dfy`: the test callbacks, and the general properties of the parser's outcomes.
- `xml_tree.dfy`: elements, rendering, indentation, and lookup by name.
- `updateinfo_records.dfy`: the updateinfo values.
- `updateinfo_xml.dfy`: the encoding into an element tree, the decoder and the round trip.
- `updateinfo_layout.dfy`: the lines that each kind of element is written as.
- `updateinfo_dump_tests.dfy`: the literal dumps of the tests.
- `updateinfo_objects.dfy`: the binding objects as classes.
- `updateinfo_object_examples.dfy`: the tests replayed on the objects.

## Model

| member | source | states |
|---|---|---|
| FilelistsDocument.FileTypeOf | tests/test_xml_parser_filelists.c:232-243 | A file entry is stored as a directory exactly when its type is `dir`, as a ghost exactly when it is `ghost`, and otherwise as a regular file. This includes the unrecognised `foo`. |
| FilelistsDocument.TypeWarning | tests/test_xml_parser_filelists.c:245-260 | A file entry adds warning text exactly when its type is given and unrecognised. The text it adds is `Unknown file type "<type>";`. |
| FilelistsParser.ReturnCodeOf | tests/test_xml_parser_filelists.c:97-105 | The parse returns `CRE_OK` exactly when no error was set. |
| FilelistsParser.MessagesOf | tests/test_xml_parser_filelists.c:245-256 | The caller's message string is absent exactly when no warning was recorded. Otherwise it is the recorded warning text. |
| FilelistsParser.RunAfterError | tests/test_xml_parser_filelists.c:205-230 | Once the error slot is set, no later event changes anything. No more callbacks run and no more packages are delivered. |
| FilelistsParser.ParserData.constructor | tests/test_xml_parser_filelists.c:110-113 | A fresh parse starts idle, with nothing delivered, no warning, no error and no callback calls. |
| FilelistsParser.ParserData.Handle | tests/test_xml_parser_filelists.c:31-93 | Handling one event updates the parser data exactly as the transition `Step` does. Two cases are covered. On package open, `newpkgcb` allocates, skips or interrupts. On package close, `pkgcb` continues or interrupts. |
| FilelistsParser.ParseFilelists | tests/test_xml_parser_filelists.c:97-105 | The loop's return code, error, messages and delivered packages are those of running `Step` over the whole event sequence. |
| FilelistsSemantics.ParseIsTreeSemantics | tests/test_xml_parser_filelists.c:107-129 | Take any document in tree form. The streaming parse of its events reports exactly the result of the document-level semantics. |
| FilelistsProperties.DeliveryWithoutInterrupt | tests/test_xml_parser_filelists.c:107-129 | The callbacks are assumed never to interrupt, and every package has a `pkgid`. Then exactly the packages that `newpkgcb` lets through are delivered, in document order. The warnings are concatenated, and no error is set. |
| FilelistsProperties.WellFormedDeliversAll | tests/test_xml_parser_filelists.c:107-129 | Without `newpkgcb`, a document whose packages all carry `pkgid` parses to `CRE_OK` with no error. Every package record is delivered, once and in order, so the count equals the number of packages. |
| FilelistsProperties.KeptLength | tests/test_xml_parser_filelists.c:116-128 | There is one record per top-level package element. |
| FilelistsProperties.StripChildrenKeepsFiles | tests/test_xml_parser_filelists.c:131-165 | Removing the unknown elements inside a package changes neither its files nor its warnings. |
| FilelistsProperties.StripUnknownSem | tests/test_xml_parser_filelists.c:131-165 | Removing every unknown element, whether at top level or inside packages, leaves the document semantics unchanged. |
| FilelistsProperties.UnknownElementsIgnored | tests/test_xml_parser_filelists.c:131-165 | Unknown elements anywhere are ignored silently. The whole outcome equals that of the document without them. |
| FilelistsProperties.MissingPkgidFails | tests/test_xml_parser_filelists.c:167-177 | A package without `pkgid` stops the parse with `CRE_BADXMLFILELISTS` and an error. Only the packages before it are delivered. |
| FilelistsProperties.NotFakeBash | tests/test_xml_parser_filelists.c:68-69 | The filtered list holds no package named `fake_bash` and is no longer than its input. |
| FilelistsProperties.SkipFakeBashKeeps | tests/test_xml_parser_filelists.c:52-73 | The skipping `newpkgcb` lets through exactly the records not named `fake_bash`, in order. Their count is the number of packages minus the number named `fake_bash`. |
| FilelistsProperties.SkippedNeverDelivered | tests/test_xml_parser_filelists.c:179-203 | With the skipping `newpkgcb`, the parse returns `CRE_OK` with no error. Exactly the packages not named `fake_bash` are delivered, and packages named `fake_bash` never are. |
| FilelistsProperties.PackageNodeSem | tests/test_xml_parser_filelists.c:31-49 | Without `newpkgcb`, a package with `pkgid` is built and handed to `pkgcb`. The parse is interrupted exactly when `pkgcb` says so. |
| FilelistsProperties.InterruptSem | tests/test_xml_parser_filelists.c:41-49 | Suppose `pkgcb` interrupts on its m-th call. Then the walk ends interrupted, having delivered exactly the first m records. |
| FilelistsProperties.DeliveryInterruptStops | tests/test_xml_parser_filelists.c:205-216 | Suppose `pkgcb` interrupts on its m-th call, and the document's first part holds at least m packages, each with `pkgid`. Whatever follows, the parse returns `CRE_CBINTERRUPTED` with an error, and exactly the first m packages are delivered. |
| FilelistsProperties.InterruptingPkgCbDeliversOne | tests/test_xml_parser_filelists.c:205-216 | With the test's interrupting `pkgcb`, any document whose first package has a `pkgid` returns `CRE_CBINTERRUPTED` with an error, after exactly one delivery. |
| FilelistsProperties.NewInterruptSem | tests/test_xml_parser_filelists.c:75-93 | An interrupting `newpkgcb` sets the interruption at the first package, and nothing is delivered. |
| FilelistsProperties.NewPkgInterruptDeliversNone | tests/test_xml_parser_filelists.c:218-230 | With an interrupting `newpkgcb`, any document whose first package has a `pkgid` makes the parse return `CRE_CBINTERRUPTED` with an error and no messages. `pkgcb` is never run. |
| FilelistsProperties.BadTypeWarnings | tests/test_xml_parser_filelists.c:245-256 | A two-package document with one `foo` entry, and otherwise only untyped or `dir` entries, produces exactly the warning `Unknown file type "foo";`. Identifiers, names, architectures and paths are arbitrary. |
| FilelistsProperties.BadTypeRecords | tests/test_xml_parser_filelists.c:232-243 | Both of that document's packages are kept, and the `foo` entry is stored as a regular file. |
| FilelistsProperties.BadFileTypeWarns | tests/test_xml_parser_filelists.c:232-260 | An unknown file type does not fail the parse. The result is `CRE_OK` with no error, both packages are delivered, and the messages are exactly `Unknown file type "foo";`. |
| FilelistsProperties.OpenKeepsProtocol | tests/test_xml_parser_filelists.c:63-66 | A `newpkgcb` call is made with an empty out slot, a `pkgid` and no pending error. The protocol invariant holds after it. |
| FilelistsProperties.CloseKeepsProtocol | tests/test_xml_parser_filelists.c:34-35 | A `pkgcb` call is made with a built package and no pending error. The package delivered is the one handed over. |
| FilelistsProperties.StepKeepsProtocol | tests/test_xml_parser_filelists.c:31-93 | Every event preserves the protocol invariant. |
| FilelistsProperties.RunKeepsProtocol | tests/test_xml_parser_filelists.c:31-93 | Every event sequence preserves the protocol invariant. |
| FilelistsProperties.CountingPkgCbCountsAll | tests/test_xml_parser_filelists.c:107-129 | With the tests' counting `pkgcb` and no `newpkgcb`, a document whose packages all carry `pkgid` parses to `CRE_OK` with no error. The count equals the number of packages. |
| FilelistsSemantics.ParseCallsAreTreeCalls | tests/test_xml_parser_filelists.c:31-93 | Take any document in tree form. The callbacks the streaming parse makes are exactly those the tree dictates: for each top-level package with `pkgid`, in document order, a `newpkgcb` call (when there is one) and then, if the package is built, one `pkgcb` call with that package. The calls stop at the first fatal error. |
| FilelistsProperties.NewPkgCbOncePerPackage | tests/test_xml_parser_filelists.c:52-73 | Suppose neither callback interrupts and every package has `pkgid`. Then `newpkgcb` is called once per top-level package, in document order, with that package's `pkgid`. |
| FilelistsProperties.AskPrecedesDelivery | tests/test_xml_parser_filelists.c:179-203 | With a `newpkgcb`, whatever the callbacks decide, every `pkgcb` call comes directly after the `newpkgcb` call for the same `pkgid`. |
| FilelistsProperties.CallbackPreconditions | tests/test_xml_parser_filelists.c:31-93 | Over any event sequence, each `newpkgcb` call finds an empty out slot and no pending error. Each `pkgcb` call finds no pending error. The delivered packages are exactly those handed to `pkgcb`, each once, in call order. |
| UpdateInfoRecords.ChecksumName | tests/python/tests/test_updateinfo.py:120 | SHA-1 is written under the name `sha1`, and that name reads back as SHA-1. |
| UpdateInfoObjects.UpdateInfo.constructor | tests/python/tests/test_updateinfo.py:12-15 | A fresh updateinfo holds no records. |
| UpdateInfoObjects.UpdateRecord.constructor | tests/python/tests/test_updateinfo.py:17 | A fresh record has every field unset, and no references and no collections. |
| UpdateInfoObjects.UpdateCollectionPackage.constructor | tests/python/tests/test_updateinfo.py:111 | A fresh package has every attribute unset and suggests no reboot. |
| UpdateInfoObjects.UpdateCollection.constructor | tests/python/tests/test_updateinfo.py:123 | A fresh collection has no names and no packages. |
| UpdateInfoObjects.UpdateReference.constructor | tests/python/tests/test_updateinfo.py:128 | A fresh reference has every attribute unset. |
| UpdateInfoObjects.UpdateInfo.Append | tests/python/tests/test_updateinfo.py:34-36 | Appending adds exactly one record, a copy of the appended object's value, after those already held. |
| UpdateInfoObjects.UpdateCollection.Append | tests/python/tests/test_updateinfo.py:126 | Appending adds the package's value after the packages held. The names are unchanged. |
| UpdateInfoObjects.UpdateRecord.AppendCollection | tests/python/tests/test_updateinfo.py:150 | Appending adds the collection's value after the collections held. Nothing else in the record changes. |
| UpdateInfoObjects.UpdateRecord.AppendReference | tests/python/tests/test_updateinfo.py:151 | Appending adds the reference's value after the references held. Nothing else in the record changes. |
| UpdateInfoObjects.UpdateInfo.XmlDump | tests/python/tests/test_updateinfo.py:86 | The dump is the serialisation `Dump` of the records held. |
| UpdateInfoObjectExamples.SetUpdateAttributes | tests/python/tests/test_updateinfo.py:18-21 | Setting `fromstr`, `status`, `type` and `version` changes those four fields and nothing else. |
| UpdateInfoObjectExamples.SetIdentity | tests/python/tests/test_updateinfo.py:22-25 | Setting `id`, `title`, `issued_date` and `updated_date` changes those four fields and nothing else. |
| UpdateInfoObjectExamples.SetClassification | tests/python/tests/test_updateinfo.py:26-29 | Setting `rights`, `release`, `pushcount` and `severity` changes those four fields and nothing else. |
| UpdateInfoObjectExamples.SetTexts | tests/python/tests/test_updateinfo.py:30-32 | Setting `summary`, `description` and `solution` changes those three fields and nothing else. |
| UpdateInfoObjectExamples.NewRecordOf | tests/python/tests/test_updateinfo.py:17-32 | A record built by setting every string field holds exactly those values, with no references and no collections. |
| UpdateInfoObjectExamples.SettersExample | tests/python/tests/test_updateinfo.py:11-55 | The updates list starts empty. After one append it has length 1. Every field of the stored record reads back as it was set, and the record has 0 references and 0 collections. |
| UpdateInfoObjectExamples.DumpExample01 | tests/python/tests/test_updateinfo.py:57-62 | An empty updateinfo dumps exactly to the declaration line followed by `<updates/>`. |
| UpdateInfoObjectExamples.DumpExample02 | tests/python/tests/test_updateinfo.py:64-107 | The record built by the setters and appended dumps to the expected lines of the second test. |
| UpdateInfoObjectExamples.NewTestPackage | tests/python/tests/test_updateinfo.py:111-121 | The package built by the setters holds the test's values. |
| UpdateInfoObjectExamples.NewTestCollection | tests/python/tests/test_updateinfo.py:123-126 | The collection built by the setters holds the test's names and one copy of the package. |
| UpdateInfoObjectExamples.NewTestReference | tests/python/tests/test_updateinfo.py:128-132 | The reference built by the setters holds the test's values. |
| UpdateInfoObjectExamples.DumpExample03 | tests/python/tests/test_updateinfo.py:109-187 | The record with one collection and one reference appended dumps to the expected lines of the third test. |
| UpdateInfoXml.ReferenceRoundTrip | tests/python/tests/test_updateinfo.py:173 | A reference's element reads back as the same reference. |
| UpdateInfoXml.PackageRoundTrip | tests/python/tests/test_updateinfo.py:178-182 | A package's element reads back as the same package. This covers the attributes, `filename`, the checksum and its kind, and the reboot flag. |
| UpdateInfoXml.PackagesRoundTrip | tests/python/tests/test_updateinfo.py:178-182 | A collection's package elements read back as the same packages, in order. |
| UpdateInfoXml.CollectionRoundTrip | tests/python/tests/test_updateinfo.py:176-183 | A collection's element reads back as the same collection: short name, name and packages. |
| UpdateInfoXml.RecordAttrsBack | tests/python/tests/test_updateinfo.py:91 | The `<update>` attributes `from`, `status`, `type` and `version` read back as the fields they were written from. |
| UpdateInfoXml.RecordHeadBack | tests/python/tests/test_updateinfo.py:92-95 | `<id>` and `<title>` read back as their fields. The `date` attributes of `<issued>` and `<updated>` read back as their fields. |
| UpdateInfoXml.RecordBodyBack | tests/python/tests/test_updateinfo.py:96-99 | `<rights>`, `<release>`, `<pushcount>` and `<severity>` read back as their fields. |
| UpdateInfoXml.RecordTextsBack | tests/python/tests/test_updateinfo.py:100-102 | `<summary>`, `<description>` and `<solution>` read back as their fields. |
| UpdateInfoXml.RecordListsBack | tests/python/tests/test_updateinfo.py:172-184 | The `<references>` and `<pkglist>` children are found by name. They hold the elements written for the record's references and collections. |
| UpdateInfoXml.ReferencesRoundTrip | tests/python/tests/test_updateinfo.py:172-174 | The elements written for a list of references read back as the same references, in order. |
| UpdateInfoXml.CollectionsRoundTrip | tests/python/tests/test_updateinfo.py:175-184 | The elements written for a list of collections read back as the same collections, in order. |
| UpdateInfoXml.RecordRoundTrip | tests/python/tests/test_updateinfo.py:91-105 | A record's element reads back as the same record. |
| UpdateInfoXml.InfoRoundTrip | tests/python/tests/test_updateinfo.py:157-187 | Reading back the `<updates>` element tree gives the same updateinfo. The tree loses or reorders no record, field, reference, collection or package. |
| XmlTree.Indent | tests/python/tests/test_updateinfo.py:158-186 | Depth d is written as exactly 2·d spaces. |
| XmlTree.RenderIndented | tests/python/tests/test_updateinfo.py:158-186 | Every line of an element written at depth d starts with the indentation of depth d. An element with children opens and closes at depth d, the lines in between are exactly its children written at depth d+1, and each of them is indented by d+1 levels. |
| XmlTree.EmptyElementSelfCloses | tests/python/tests/test_updateinfo.py:103-104 | An element with no children or no content is one self-closing line. |
| XmlTree.ListLines | tests/python/tests/test_updateinfo.py:172-175 | A list element is self-closing when empty. Otherwise it is its start tag, its items one level deeper, and its end tag. |
| XmlTree.TextLine | tests/python/tests/test_updateinfo.py:92 | A text child is one line, `<name>value</name>`. |
| XmlTree.DateLine | tests/python/tests/test_updateinfo.py:94 | A date child is one line, `<name date="value"/>`. |
| UpdateInfoLayout.ReferenceLine | tests/python/tests/test_updateinfo.py:173 | A reference is one self-closing line, with attributes in the order href, id, type, title. |
| UpdateInfoLayout.PackageStartLine | tests/python/tests/test_updateinfo.py:178 | The package start tag has attributes in the order name, version, `relase`, epoch, arch, src. |
| UpdateInfoLayout.SumLine | tests/python/tests/test_updateinfo.py:180 | A SHA-1 checksum is written as `<sum type="sha1">value</sum>`. |
| UpdateInfoLayout.PackageKidLines | tests/python/tests/test_updateinfo.py:179-181 | A package's children are `<filename>`, then `<sum type="sha1">`, then `<reboot_suggested/>`, in that order. |
| UpdateInfoLayout.PackageLines | tests/python/tests/test_updateinfo.py:178-182 | A package is written as its start line, its three children one level deeper, and `</package>`. |
| UpdateInfoLayout.CollectionStartLine | tests/python/tests/test_updateinfo.py:176 | A collection's start tag carries its short name as `short`. |
| UpdateInfoLayout.CollectionKidLines | tests/python/tests/test_updateinfo.py:177-182 | A collection's children are `<name>` followed by its packages. |
| UpdateInfoLayout.CollectionLines | tests/python/tests/test_updateinfo.py:176-183 | A collection is written as its start line, `<name>`, its packages one level deeper, and `</collection>`. |
| UpdateInfoLayout.ReferencesLines | tests/python/tests/test_updateinfo.py:172-174 | `<references>` is written as `<references/>` when empty. Otherwise it holds one line group per reference. |
| UpdateInfoLayout.PkglistLines | tests/python/tests/test_updateinfo.py:175-184 | `<pkglist>` is written as `<pkglist/>` when empty. Otherwise it holds one line group per collection. |
| UpdateInfoLayout.RenderAllEach | tests/python/tests/test_updateinfo.py:172-184 | The lines of a list of elements are each element's lines in turn, in list order. |
| UpdateInfoLayout.RecordStartLine | tests/python/tests/test_updateinfo.py:91 | The `<update>` start tag has attributes in the order from, status, type, version. |
| UpdateInfoLayout.RecordKidsPresent | tests/python/tests/test_updateinfo.py:92-104 | The children of a fully set record are, in order: id, title, issued, updated, rights, release, pushcount, severity, summary, description, solution, references, pkglist. |
| UpdateInfoLayout.RecordKidLines | tests/python/tests/test_updateinfo.py:92-104 | The children's lines are the text lines, the `date` lines, and then the lines of the two lists, in that order. |
| UpdateInfoLayout.RecordLines | tests/python/tests/test_updateinfo.py:91-105 | A record is written as its start line, its children one level deeper, and `</update>`. |
| UpdateInfoLayout.InfoLines | tests/python/tests/test_updateinfo.py:90-106 | `<updates>` is written as `<updates/>` when empty. Otherwise it holds one line group per record, one level deeper. |
| UpdateInfoLayout.DumpLines | tests/python/tests/test_updateinfo.py:88-107 | The dump is the declaration followed by the lines of `<updates>`, each ended by a newline. |
| UpdateInfoLayout.OneRecordDump | tests/python/tests/test_updateinfo.py:88-107 | An updateinfo with one record dumps as: the declaration, `<updates>`, the record's lines, `</updates>`. |
| UpdateInfoLayout.AppendedRecordDump | tests/python/tests/test_updateinfo.py:153-155 | Appending a record to a non-empty updateinfo keeps the earlier records' lines in place. The new record's lines follow them, just before `</updates>`. |
| UpdateInfoDumpExamples.DumpEmpty | tests/python/tests/test_updateinfo.py:57-62 | The empty dump is exactly the literal string of the first test. |
| UpdateInfoDumpExamples.TestRecordHeadLines | tests/python/tests/test_updateinfo.py:92-102 | The eleven text and date lines of the test record are those of the expected output. |
| UpdateInfoDumpExamples.TestRecordLines | tests/python/tests/test_updateinfo.py:91-105 | The test record without lists is written with self-closing `<references/>` and `<pkglist/>`. |
| UpdateInfoDumpExamples.DumpOneRecord | tests/python/tests/test_updateinfo.py:88-107 | The second test's dump is exactly its expected lines. |
| UpdateInfoDumpExamples.TestReferenceLines | tests/python/tests/test_updateinfo.py:172-174 | The test reference's list is written as the three expected lines. |
| UpdateInfoDumpExamples.TestPackageLines | tests/python/tests/test_updateinfo.py:178-182 | The test package is written as the five expected lines. |
| UpdateInfoDumpExamples.TestCollectionLines | tests/python/tests/test_updateinfo.py:176-183 | The test collection is written as the expected lines. |
| UpdateInfoDumpExamples.TestPkglistLines | tests/python/tests/test_updateinfo.py:175-184 | The test pkglist is written as the expected lines. |
| UpdateInfoDumpExamples.DumpRecordWithLists | tests/python/tests/test_updateinfo.py:157-187 | The third test's dump is exactly its expected lines, each nesting level indented two spaces deeper. |

## Left out

- The XML tokenizer and decompression. The parser consumes an abstract event sequence. The
  root element of the filelists document is not part of that sequence.
- Fixture files and their contents, and the test harness. Documents are parameters. The
  fixture tests are instances of the general lemmas, given documents of the shape the tests
  describe.
- The parser's implementation file is not part of this model. The transition `Step` follows
  what the tests and callbacks fix. The following are modelling choices:
  - a nested package element is ignored like an unknown element;
  - a file element outside a package is ignored;
  - a package missing `name` or `arch` is accepted without a warning.
- Memory management. This covers freeing packages, errors and strings, and the ownership
  handed to `pkgcb`. Delivery exactly once is stated through the call trace instead.
- Error message text. Only the presence of an error and its code are modelled.
- FilelistsParser.Step: checks that `pkgid` is present, not that it is non-empty, and so does
  `FilelistsSemantics.NodeSem`. A package with `pkgid=""` is delivered. The invariant that
  every delivered package has a non-empty `pkgid` is therefore not promised.
- The callbacks' `cbdata` pointer. A callback's own state is stood for by the number of
  earlier deliveries that it receives.
- Checksum kinds other than SHA-1. Checksum computation is also left out.
- XML escaping of special characters in values.
- The output of unset fields. The serialiser leaves an unset field out of the tree, with one
  exception: a package whose checksum is unset but whose checksum kind is set gets an empty
  `<sum type="sha1"/>` element, so that the kind still reads back. The layout lemmas state
  lines only for fully set records, packages and references, so neither output is pinned.
- `Dump` has no inverse in this model. The round trip is proved on the element tree, not on the
  text. Without escaping, the text of a value that holds markup, such as a title containing
  `</title>`, would not read back.
- The output when `reboot_suggested` is false. The serialiser writes no element in that case,
  but no lemma states the line layout for it.
- Python binding mechanics. Appending stores a copy of the object's current value. Later
  changes to the appended object are not modelled as reaching the list.
- Idempotence of parsing is immediate: the parse is a function of its inputs, so it is not
  stated separately.
- The `relase` attribute name of a collection package is modelled as the expected output
  spells it.
