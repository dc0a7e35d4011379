/**
 * The unit tests of `processContent` (main_test.go), stated on the model:
 * each input is the tree the YAML decoder produces for the test's JSON
 * text, and the merged tree is marshalled with `BlockYaml.RenderDoc`.
 * The proofs go in small steps: key order, one rendered line, one block.
 */
module ManifestExamples {
  import opened Wrappers
  import opened Document
  import opened KeyOrder
  import opened BlockYaml
  import opened Manifest

  /** `BlockYaml.RenderDoc` in the shape of the marshaller `ProcessContent` expects. */
  function Marshal(d: Doc): (r: Result<string, string>)
    ensures r.Success? <==> RenderDoc(d).Some?
    ensures r.Success? ==> r.value == RenderDoc(d).value
  {
    match RenderDoc(d)
    case Some(text) => Success(text)
    case None => Failure("value outside the block-YAML fragment")
  }

  // Key order

  lemma TwoKeys(a: string, b: string)
    requires Le(a, b) && a != b
    ensures SortedKeys({a, b}) == [a, b]
  {
    SortedKeysUnique({a, b}, [a, b]);
  }

  lemma ThreeKeys(a: string, b: string, c: string)
    requires Le(a, b) && a != b && Le(b, c) && b != c && Le(a, c) && a != c
    ensures SortedKeys({a, b, c}) == [a, b, c]
  {
    SortedKeysUnique({a, b, c}, [a, b, c]);
  }

  // Sequences of entries

  lemma OneEntry(m: map<string, Value>, a: string, indent: nat, x: string)
    requires a in m && RenderEntry(a, m[a], indent) == Some(x)
    ensures RenderEntries(m, [a], indent) == Some(x)
  {
    assert [a][1..] == [];
    assert RenderEntries(m, [], indent) == Some("");
    assert x + "" == x;
  }

  lemma TwoEntries(m: map<string, Value>, a: string, b: string, indent: nat, x: string, y: string)
    requires a in m && b in m
    requires RenderEntry(a, m[a], indent) == Some(x) && RenderEntry(b, m[b], indent) == Some(y)
    ensures RenderEntries(m, [a, b], indent) == Some(x + y)
  {
    OneEntry(m, b, indent, y);
    assert [a, b][1..] == [b];
  }

  lemma ThreeEntries(m: map<string, Value>, a: string, b: string, c: string, indent: nat, x: string, y: string, z: string)
    requires a in m && b in m && c in m
    requires RenderEntry(a, m[a], indent) == Some(x) && RenderEntry(b, m[b], indent) == Some(y)
    requires RenderEntry(c, m[c], indent) == Some(z)
    ensures RenderEntries(m, [a, b, c], indent) == Some(x + (y + z))
  {
    TwoEntries(m, b, c, indent, y, z);
    assert [a, b, c][1..] == [b, c];
  }

  // Single lines

  lemma Indent2()
    ensures Indent(2) == "  "
  {
    assert Indent(1) == " ";
  }

  lemma Indent4()
    ensures Indent(4) == "    "
  {
    Indent2();
    assert Indent(3) == "   ";
  }

  /** The keys and values of the tests are written bare. */
  lemma PlainName()
    ensures PlainWord("name") && PlainWord("my_name")
  {
  }

  lemma PlainNamespace()
    ensures PlainWord("namespace") && PlainWord("my_namespace")
  {
  }

  lemma PlainTest()
    ensures PlainWord("test") && PlainWord("sdf")
  {
  }

  lemma PlainFoo()
    ensures PlainWord("foo") && PlainWord("bar")
  {
  }

  lemma PlainKind()
    ensures PlainWord("kind") && PlainWord("my_kind")
  {
  }

  lemma PlainMetadata()
    ensures PlainWord("metadata")
  {
  }

  lemma NameText()
    ensures Indent(2) + "name" + ": " + "my_name" + "\n" == "  name: my_name\n"
  {
    Indent2();
  }

  lemma NamespaceText()
    ensures Indent(2) + "namespace" + ": " + "my_namespace" + "\n" == "  namespace: my_namespace\n"
  {
    Indent2();
    assert "  " + "namespace" == "  namespace";
    assert "  namespace" + ": " == "  namespace: ";
    assert "  namespace: " + "my_namespace" == "  namespace: my_namespace";
  }

  lemma TestText()
    ensures Indent(2) + "test" + ": " + "sdf" + "\n" == "  test: sdf\n"
  {
    Indent2();
  }

  lemma FooText()
    ensures Indent(4) + "foo" + ": " + "bar" + "\n" == "    foo: bar\n"
  {
    Indent4();
  }

  lemma KindText()
    ensures Indent(0) + "kind" + ": " + "my_kind" + "\n" == "kind: my_kind\n"
  {
    assert Indent(0) == "";
  }

  lemma NestedTestHeader()
    ensures Indent(2) + "test" + ":\n" + "    foo: bar\n" == "  test:\n    foo: bar\n"
  {
    Indent2();
  }

  lemma MetadataHeader()
    ensures Indent(0) + "metadata" + ":\n" == "metadata:\n"
  {
    assert Indent(0) == "";
  }

  lemma NameLine()
    ensures RenderEntry("name", Str("my_name"), 2) == Some("  name: my_name\n")
  {
    PlainName();
    NameText();
    assert RenderEntry("name", Str("my_name"), 2) == Some(Indent(2) + "name" + ": " + "my_name" + "\n");
  }

  lemma NamespaceLine()
    ensures RenderEntry("namespace", Str("my_namespace"), 2) == Some("  namespace: my_namespace\n")
  {
    PlainNamespace();
    NamespaceText();
    assert RenderEntry("namespace", Str("my_namespace"), 2)
        == Some(Indent(2) + "namespace" + ": " + "my_namespace" + "\n");
  }

  lemma TestLine()
    ensures RenderEntry("test", Str("sdf"), 2) == Some("  test: sdf\n")
  {
    PlainTest();
    TestText();
    assert RenderEntry("test", Str("sdf"), 2) == Some(Indent(2) + "test" + ": " + "sdf" + "\n");
  }

  lemma FooLine()
    ensures RenderEntry("foo", Str("bar"), 4) == Some("    foo: bar\n")
  {
    PlainFoo();
    FooText();
    assert RenderEntry("foo", Str("bar"), 4) == Some(Indent(4) + "foo" + ": " + "bar" + "\n");
  }

  lemma FooMapping()
    ensures RenderMapping(map["foo" := Str("bar")], 4) == Some("    foo: bar\n")
  {
    var e := map["foo" := Str("bar")];
    assert e.Keys == {"foo"};
    assert SortedKeys({"foo"}) == ["foo"];
    FooLine();
    OneEntry(e, "foo", 4, "    foo: bar\n");
  }

  lemma NestedTestBlock()
    ensures RenderEntry("test", Map(map["foo" := Str("bar")]), 2) == Some("  test:\n    foo: bar\n")
  {
    var e := map["foo" := Str("bar")];
    assert "foo" in e;
    FooMapping();
    PlainTest();
    NestedTestHeader();
    assert RenderEntry("test", Map(e), 2) == Some(Indent(2) + "test" + ":\n" + "    foo: bar\n");
  }

  lemma KindLine()
    ensures RenderEntry("kind", Str("my_kind"), 0) == Some("kind: my_kind\n")
  {
    PlainKind();
    KindText();
    assert RenderEntry("kind", Str("my_kind"), 0) == Some(Indent(0) + "kind" + ": " + "my_kind" + "\n");
  }

  lemma MetadataBlock(meta: map<string, Value>, inner: string)
    requires meta != map[]
    requires RenderMapping(meta, 2) == Some(inner)
    ensures RenderEntry("metadata", Map(meta), 0) == Some("metadata:\n" + inner)
  {
    PlainMetadata();
    MetadataHeader();
    assert RenderEntry("metadata", Map(meta), 0) == Some(Indent(0) + "metadata" + ":\n" + inner);
  }

  // Whole documents

  lemma TopKeys(meta: map<string, Value>)
    ensures SortedKeys(map["kind" := Str("my_kind"), "metadata" := Map(meta)].Keys) == ["kind", "metadata"]
  {
    var d := map["kind" := Str("my_kind"), "metadata" := Map(meta)];
    assert Le("kind", "metadata");
    TwoKeys("kind", "metadata");
    assert d.Keys == {"kind", "metadata"};
  }

  lemma TopEntries(meta: map<string, Value>, inner: string)
    requires meta != map[]
    requires RenderMapping(meta, 2) == Some(inner)
    ensures RenderEntries(map["kind" := Str("my_kind"), "metadata" := Map(meta)], ["kind", "metadata"], 0)
         == Some("kind: my_kind\n" + ("metadata:\n" + inner))
  {
    var d := map["kind" := Str("my_kind"), "metadata" := Map(meta)];
    KindLine();
    MetadataBlock(meta, inner);
    TwoEntries(d, "kind", "metadata", 0, "kind: my_kind\n", "metadata:\n" + inner);
  }

  /** The merged manifest `{kind: my_kind, metadata: meta}` marshals to a `kind:` line, then the metadata block. */
  lemma MarshalTop(meta: map<string, Value>, inner: string)
    requires meta != map[]
    requires RenderMapping(meta, 2) == Some(inner)
    ensures Marshal(map["kind" := Str("my_kind"), "metadata" := Map(meta)])
         == Success("kind: my_kind\n" + ("metadata:\n" + inner))
  {
    var d := map["kind" := Str("my_kind"), "metadata" := Map(meta)];
    TopKeys(meta);
    TopEntries(meta, inner);
    assert "kind" in d;
  }

  /** Metadata `{name: my_name, namespace: my_namespace}`. */
  lemma RenderNameNamespace()
    ensures RenderMapping(map["name" := Str("my_name"), "namespace" := Str("my_namespace")], 2)
         == Some("  name: my_name\n" + "  namespace: my_namespace\n")
  {
    var meta := map["name" := Str("my_name"), "namespace" := Str("my_namespace")];
    assert meta.Keys == {"name", "namespace"};
    assert Le("name", "namespace");
    TwoKeys("name", "namespace");
    NameLine();
    NamespaceLine();
    TwoEntries(meta, "name", "namespace", 2, "  name: my_name\n", "  namespace: my_namespace\n");
  }

  /** Metadata `{name: my_name, namespace: my_namespace, test: v}` where the `test` entry renders to `line`. */
  lemma RenderNameNamespaceTest(v: Value, line: string)
    requires RenderEntry("test", v, 2) == Some(line)
    ensures RenderMapping(map["name" := Str("my_name"), "namespace" := Str("my_namespace"), "test" := v], 2)
         == Some("  name: my_name\n" + ("  namespace: my_namespace\n" + line))
  {
    var meta := map["name" := Str("my_name"), "namespace" := Str("my_namespace"), "test" := v];
    assert meta.Keys == {"name", "namespace", "test"};
    assert Le("name", "namespace") && Le("namespace", "test") && Le("name", "test");
    ThreeKeys("name", "namespace", "test");
    NameLine();
    NamespaceLine();
    ThreeEntries(meta, "name", "namespace", "test", 2, "  name: my_name\n", "  namespace: my_namespace\n", line);
  }

  /** Metadata `{name: my_name, test: sdf}`. */
  lemma RenderNameTest()
    ensures RenderMapping(map["name" := Str("my_name"), "test" := Str("sdf")], 2)
         == Some("  name: my_name\n" + "  test: sdf\n")
  {
    var meta := map["name" := Str("my_name"), "test" := Str("sdf")];
    assert meta.Keys == {"name", "test"};
    assert Le("name", "test");
    TwoKeys("name", "test");
    NameLine();
    TestLine();
    TwoEntries(meta, "name", "test", 2, "  name: my_name\n", "  test: sdf\n");
  }

  // The tests

  lemma MergeNameOnly()
    ensures Merge(map["metadata" := Map(map["name" := Str("foo")])], "my_name", "my_namespace", "my_kind")
         == Success(map["kind" := Str("my_kind"),
                        "metadata" := Map(map["name" := Str("my_name"), "namespace" := Str("my_namespace")])])
  {
    var input := map["metadata" := Map(map["name" := Str("foo")])];
    var meta := map["name" := Str("foo")]["namespace" := Str("my_namespace")]["name" := Str("my_name")];
    var meta' := map["name" := Str("my_name"), "namespace" := Str("my_namespace")];
    assert meta == meta';
    var top := input["kind" := Str("my_kind")]["metadata" := Map(meta)];
    assert top.Keys == {"kind", "metadata"};
    assert top == map["kind" := Str("my_kind"), "metadata" := Map(meta')];
  }

  // The lemmas from here to `NoNamespaceText` are single string-literal facts, kept
  // separate so that each expected-text proof below stays small enough for the solver.
  lemma Assoc(a: string, b: string, c: string, d: string)
    ensures a + (b + (c + d)) == a + b + c + d
  {
  }

  lemma KindMetadataStep()
    ensures "kind: my_kind\n" + "metadata:\n" == "kind: my_kind\nmetadata:\n"
  {
  }

  lemma NameStep()
    ensures "kind: my_kind\nmetadata:\n" + "  name: my_name\n" == "kind: my_kind\nmetadata:\n  name: my_name\n"
  {
  }

  lemma NamespaceStep()
    ensures "kind: my_kind\nmetadata:\n  name: my_name\n" + "  namespace: my_namespace\n"
         == "kind: my_kind\nmetadata:\n  name: my_name\n  namespace: my_namespace\n"
  {
  }

  lemma NameOnlyText()
    ensures "kind: my_kind\n" + ("metadata:\n" + ("  name: my_name\n" + "  namespace: my_namespace\n"))
         == "kind: my_kind\nmetadata:\n  name: my_name\n  namespace: my_namespace\n"
  {
    Assoc("kind: my_kind\n", "metadata:\n", "  name: my_name\n", "  namespace: my_namespace\n");
    KindMetadataStep();
    NameStep();
    NamespaceStep();
  }

  /** TestProcessContentNameOnly. */
  lemma ProcessContentNameOnly()
    ensures ProcessContent(Success(Mapping(map["metadata" := Map(map["name" := Str("foo")])])), Marshal,
                           "my_name", "my_namespace", "my_kind")
         == Processed("kind: my_kind\nmetadata:\n  name: my_name\n  namespace: my_namespace\n", None)
  {
    var meta := map["name" := Str("my_name"), "namespace" := Str("my_namespace")];
    MergeNameOnly();
    RenderNameNamespace();
    MarshalTop(meta, "  name: my_name\n" + "  namespace: my_namespace\n");
    NameOnlyText();
  }
  lemma Assoc5(a: string, b: string, c: string, d: string, e: string)
    ensures a + (b + (c + (d + e))) == (a + (b + (c + d))) + e
  {
  }

  /** The expected name-and-namespace text followed by further `metadata` lines. */
  lemma NameOnlyThen(tail: string)
    ensures "kind: my_kind\n" + ("metadata:\n" + ("  name: my_name\n" + ("  namespace: my_namespace\n" + tail)))
         == "kind: my_kind\nmetadata:\n  name: my_name\n  namespace: my_namespace\n" + tail
  {
    Assoc5("kind: my_kind\n", "metadata:\n", "  name: my_name\n", "  namespace: my_namespace\n", tail);
    NameOnlyText();
  }

  lemma TestStep()
    ensures "kind: my_kind\nmetadata:\n  name: my_name\n  namespace: my_namespace\n" + "  test: sdf\n"
         == "kind: my_kind\nmetadata:\n  name: my_name\n  namespace: my_namespace\n  test: sdf\n"
  {
  }

  lemma NestedTestStep()
    ensures "kind: my_kind\nmetadata:\n  name: my_name\n  namespace: my_namespace\n" + "  test:\n    foo: bar\n"
         == "kind: my_kind\nmetadata:\n  name: my_name\n  namespace: my_namespace\n  test:\n    foo: bar\n"
  {
  }

  lemma NoNamespaceTestStep()
    ensures "kind: my_kind\nmetadata:\n  name: my_name\n" + "  test: sdf\n"
         == "kind: my_kind\nmetadata:\n  name: my_name\n  test: sdf\n"
  {
  }

  lemma NoNamespaceText()
    ensures "kind: my_kind\n" + ("metadata:\n" + ("  name: my_name\n" + ("  test: sdf\n")))
         == "kind: my_kind\nmetadata:\n  name: my_name\n  test: sdf\n"
  {
    Assoc("kind: my_kind\n", "metadata:\n", "  name: my_name\n", "  test: sdf\n");
    KindMetadataStep();
    NameStep();
    NoNamespaceTestStep();
  }

  lemma MergeAdditional(v: Value)
    ensures Merge(map["metadata" := Map(map["name" := Str("foo"), "test" := v])], "my_name", "my_namespace", "my_kind")
         == Success(map["kind" := Str("my_kind"),
                        "metadata" := Map(map["name" := Str("my_name"), "namespace" := Str("my_namespace"), "test" := v])])
  {
    var input := map["metadata" := Map(map["name" := Str("foo"), "test" := v])];
    var meta := map["name" := Str("foo"), "test" := v]["namespace" := Str("my_namespace")]["name" := Str("my_name")];
    var meta' := map["name" := Str("my_name"), "namespace" := Str("my_namespace"), "test" := v];
    assert meta.Keys == meta'.Keys;
    assert meta == meta';
    var top := input["kind" := Str("my_kind")]["metadata" := Map(meta)];
    assert top.Keys == {"kind", "metadata"};
    assert top == map["kind" := Str("my_kind"), "metadata" := Map(meta')];
  }

  /** TestProcessContentAdditional. */
  lemma ProcessContentAdditional()
    ensures ProcessContent(Success(Mapping(map["metadata" := Map(map["name" := Str("foo"), "test" := Str("sdf")])])), Marshal,
                           "my_name", "my_namespace", "my_kind")
         == Processed("kind: my_kind\nmetadata:\n  name: my_name\n  namespace: my_namespace\n  test: sdf\n", None)
  {
    var meta := map["name" := Str("my_name"), "namespace" := Str("my_namespace"), "test" := Str("sdf")];
    MergeAdditional(Str("sdf"));
    TestLine();
    RenderNameNamespaceTest(Str("sdf"), "  test: sdf\n");
    MarshalTop(meta, "  name: my_name\n" + ("  namespace: my_namespace\n" + "  test: sdf\n"));
    NameOnlyThen("  test: sdf\n");
    TestStep();
  }

  /** TestProcessContentAdditionalNested. */
  lemma ProcessContentAdditionalNested()
    ensures ProcessContent(Success(Mapping(map["metadata" := Map(map["name" := Str("foo"),
                                                            "test" := Map(map["foo" := Str("bar")])])])),
                           Marshal, "my_name", "my_namespace", "my_kind")
         == Processed("kind: my_kind\nmetadata:\n  name: my_name\n  namespace: my_namespace\n  test:\n    foo: bar\n", None)
  {
    var nested := Map(map["foo" := Str("bar")]);
    var meta := map["name" := Str("my_name"), "namespace" := Str("my_namespace"), "test" := nested];
    MergeAdditional(nested);
    NestedTestBlock();
    RenderNameNamespaceTest(nested, "  test:\n    foo: bar\n");
    MarshalTop(meta, "  name: my_name\n" + ("  namespace: my_namespace\n" + "  test:\n    foo: bar\n"));
    NameOnlyThen("  test:\n    foo: bar\n");
    NestedTestStep();
  }

  /** TestProcessContentEmpty: the `{}` document gains a fresh metadata mapping. */
  lemma ProcessContentEmpty()
    ensures ProcessContent(Success(Mapping(map[])), Marshal, "my_name", "my_namespace", "my_kind")
         == Processed("kind: my_kind\nmetadata:\n  name: my_name\n  namespace: my_namespace\n", None)
  {
    var meta := map["name" := Str("my_name"), "namespace" := Str("my_namespace")];
    assert map[]["namespace" := Str("my_namespace")]["name" := Str("my_name")] == meta;
    assert Merge(map[], "my_name", "my_namespace", "my_kind")
        == Success(map["kind" := Str("my_kind"), "metadata" := Map(meta)]);
    RenderNameNamespace();
    MarshalTop(meta, "  name: my_name\n" + "  namespace: my_namespace\n");
    NameOnlyText();
  }

  /** TestProcessIllegal: whatever the decoder reports, the result is an error and the empty text. */
  lemma ProcessIllegal(decodeError: string)
    ensures ProcessContent(Failure(decodeError), Marshal, "my_name", "my_namespace", "my_kind")
         == Processed("", Some(ParseYaml(decodeError)))
  {
  }

  /** A null document (`null`, `~`) leaves the decoded map nil; the insertion that would panic is the `NullDocument` error, with the empty text. */
  lemma ProcessNullDocument()
    ensures ProcessContent(Success(Nil), Marshal, "my_name", "my_namespace", "my_kind")
         == Processed("", Some(NullDocument))
  {
  }

  lemma MergeNoNamespace()
    ensures Merge(map["metadata" := Map(map["name" := Str("foo"), "test" := Str("sdf")])], "my_name", "", "my_kind")
         == Success(map["kind" := Str("my_kind"), "metadata" := Map(map["name" := Str("my_name"), "test" := Str("sdf")])])
  {
    var input := map["metadata" := Map(map["name" := Str("foo"), "test" := Str("sdf")])];
    var meta := map["name" := Str("foo"), "test" := Str("sdf")]["name" := Str("my_name")];
    var meta' := map["name" := Str("my_name"), "test" := Str("sdf")];
    assert meta == meta';
    var top := input["kind" := Str("my_kind")]["metadata" := Map(meta)];
    assert top.Keys == {"kind", "metadata"};
    assert top == map["kind" := Str("my_kind"), "metadata" := Map(meta')];
  }

  /** TestProcessContentNoNamespace: no namespace given and none declared, so none is emitted. */
  lemma ProcessContentNoNamespace()
    ensures ProcessContent(Success(Mapping(map["metadata" := Map(map["name" := Str("foo"), "test" := Str("sdf")])])), Marshal,
                           "my_name", "", "my_kind")
         == Processed("kind: my_kind\nmetadata:\n  name: my_name\n  test: sdf\n", None)
  {
    var meta := map["name" := Str("my_name"), "test" := Str("sdf")];
    MergeNoNamespace();
    RenderNameTest();
    MarshalTop(meta, "  name: my_name\n" + "  test: sdf\n");
    NoNamespaceText();
  }

  /** TestProcessContentNoNamespaceProvided: the manifest declares a namespace but none is given. */
  lemma ProcessContentNoNamespaceProvided()
    ensures ProcessContent(Success(Mapping(map["metadata" := Map(map["namespace" := Str("bar"), "name" := Str("foo"),
                                                            "test" := Str("sdf")])])),
                           Marshal, "my_name", "", "my_kind")
         == Processed("", Some(NamespaceConflict))
  {
  }
}
