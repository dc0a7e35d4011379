/**
 * Merging the resource's identity (kind, name, namespace) into a manifest
 * before it is handed to `kubectl apply`.
 */
module Manifest {
  import opened Wrappers
  import opened Document

  datatype ProcessError =
    | ParseYaml(msg: string)     // the YAML library rejected the content
    | NullDocument               // the content is a null document: the decoded map is nil and the first insertion panics
    | MetadataNotMapping         // `metadata` is present but not a mapping: the Go type assertion panics
    | NamespaceConflict          // no namespace given, but the manifest declares one
    | GenerateYaml(msg: string)  // the YAML library could not marshal the merged document

  /**
   * What the YAML library leaves in the target map: the decoded entries, or
   * nil when the content is a null document (`null`, `~`).
   */
  datatype Decoded = Mapping(doc: Doc) | Nil

  /** What `processContent` hands back: Go's (string, error) pair. */
  datatype Processed = Processed(text: string, err: Option<ProcessError>)

  /** The `metadata` entry, or the empty mapping that is inserted when it is absent. */
  function MetadataOf(doc: Doc): Value
  {
    if "metadata" in doc then doc["metadata"] else Map(map[])
  }

  /** The manifest itself already names a namespace in its metadata. */
  predicate DeclaresNamespace(doc: Doc)
  {
    MetadataOf(doc).Map? && "namespace" in MetadataOf(doc).entries
  }

  /** The identity fields of `d` are exactly the resource's. */
  ghost predicate Stamped(d: Doc, name: string, namespace: string, kind: string)
  {
    && "kind" in d && d["kind"] == Str(kind)
    && "metadata" in d && d["metadata"].Map?
    && var meta := d["metadata"].entries;
    && "name" in meta && meta["name"] == Str(name)
    && (namespace != "" ==> "namespace" in meta && meta["namespace"] == Str(namespace))
    && (namespace == "" ==> "namespace" !in meta)
  }

  /**
   * `after` has the keys of `before` plus the identity keys, and every
   * other entry, top level and inside `metadata`, is unchanged.
   */
  ghost predicate KeepsTheRest(before: Doc, after: Doc, namespace: string)
    requires MetadataOf(before).Map?
  {
    var meta := MetadataOf(before).entries;
    && after.Keys == before.Keys + {"kind", "metadata"}
    && (forall k :: k in before && k != "kind" && k != "metadata" ==> after[k] == before[k])
    && after["metadata"].Map?
    && after["metadata"].entries.Keys == meta.Keys + {"name"} + (if namespace != "" then {"namespace"} else {})
    && (forall k :: k in meta && k != "name" && k != "namespace" ==> after["metadata"].entries[k] == meta[k])
  }

  /** The map updates `processContent` performs on the decoded manifest. */
  function Merge(doc: Doc, name: string, namespace: string, kind: string): (r: Result<Doc, ProcessError>)
    ensures r.Failure? <==> !MetadataOf(doc).Map? || (namespace == "" && DeclaresNamespace(doc))
    ensures r.Failure? ==> r.error == if MetadataOf(doc).Map? then NamespaceConflict else MetadataNotMapping
    ensures r.Success? ==> Stamped(r.value, name, namespace, kind) && KeepsTheRest(doc, r.value, namespace)
  {
    var withKind := doc["kind" := Str(kind)];
    match MetadataOf(doc)
    case Map(meta) =>
      if namespace == "" && "namespace" in meta then Failure(NamespaceConflict)
      else
        var meta' := if namespace != "" then meta["namespace" := Str(namespace)] else meta;
        Success(withKind["metadata" := Map(meta'["name" := Str(name)])])
    case _ => Failure(MetadataNotMapping)
  }

  /** Merging an already merged manifest with the same identity changes nothing. */
  lemma MergeIdempotent(doc: Doc, name: string, namespace: string, kind: string)
    requires Merge(doc, name, namespace, kind).Success?
    ensures Merge(Merge(doc, name, namespace, kind).value, name, namespace, kind)
         == Merge(doc, name, namespace, kind)
  {
    var once := Merge(doc, name, namespace, kind).value;
    var twice := Merge(once, name, namespace, kind).value;
    var meta1 := once["metadata"].entries;
    var meta2 := twice["metadata"].entries;
    assert meta2.Keys == meta1.Keys;
    assert meta2 == meta1;
    assert twice == once;
  }

  /**
   * `processContent`: decode (the decoder's answer is `parsed`), merge,
   * and marshal with `marshal`. Every failure yields the empty text.
   */
  function ProcessContent(parsed: Result<Decoded, string>, marshal: Doc -> Result<string, string>,
                          name: string, namespace: string, kind: string): (r: Processed)
    ensures r.err.Some? ==> r.text == ""
    ensures parsed.Failure? ==> r.err == Some(ParseYaml(parsed.error))
    ensures parsed == Success(Nil) ==> r.err == Some(NullDocument)
    ensures parsed.Success? && parsed.value.Mapping? && namespace == "" && DeclaresNamespace(parsed.value.doc) ==>
      r.err == Some(NamespaceConflict)
    ensures parsed.Success? && parsed.value.Mapping? && !MetadataOf(parsed.value.doc).Map? ==>
      r.err == Some(MetadataNotMapping)
    ensures r.err.None? <==> parsed.Success? && parsed.value.Mapping?
                             && Merge(parsed.value.doc, name, namespace, kind).Success?
                             && marshal(Merge(parsed.value.doc, name, namespace, kind).value).Success?
    ensures r.err.None? ==> marshal(Merge(parsed.value.doc, name, namespace, kind).value) == Success(r.text)
    ensures parsed.Success? && parsed.value.Mapping? && Merge(parsed.value.doc, name, namespace, kind).Success?
            && marshal(Merge(parsed.value.doc, name, namespace, kind).value).Failure? ==>
      r.err == Some(GenerateYaml(marshal(Merge(parsed.value.doc, name, namespace, kind).value).error))
  {
    match parsed
    case Failure(e) => Processed("", Some(ParseYaml(e)))
    case Success(Nil) => Processed("", Some(NullDocument))
    case Success(Mapping(doc)) =>
      match Merge(doc, name, namespace, kind)
      case Failure(e) => Processed("", Some(e))
      case Success(merged) =>
        match marshal(merged)
        case Failure(e) => Processed("", Some(GenerateYaml(e)))
        case Success(out) => Processed(out, None)
  }
}
