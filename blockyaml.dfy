/**
 * A small block-style YAML emitter for manifests made only of mappings and
 * plain string scalars, with keys in `KeyOrder` order and two spaces of
 * indentation per level. It stands in for the YAML library's marshaller on
 * that fragment; any other value makes it give up with `None`.
 */
module BlockYaml {
  import opened Wrappers
  import opened Document
  import opened KeyOrder

  predicate WordChar(c: char)
  {
    'a' <= c <= 'z' || 'A' <= c <= 'Z' || '0' <= c <= '9' || c == '_' || c == '-' || c == '.'
  }

  /** Lower-case words that YAML 1.1 resolves to booleans or null, which an emitter must quote. */
  const Reserved: set<string> := {"y", "n", "yes", "no", "on", "off", "true", "false", "null"}

  /** A string the emitter writes bare: starts with a lower-case letter, no spaces or punctuation, not reserved. */
  predicate PlainWord(s: string)
  {
    |s| > 0 && 'a' <= s[0] <= 'z' && (forall i :: 0 <= i < |s| ==> WordChar(s[i])) && s !in Reserved
  }

  function Indent(n: nat): (r: string)
    ensures |r| == n && forall i :: 0 <= i < n ==> r[i] == ' '
  {
    if n == 0 then "" else " " + Indent(n - 1)
  }

  /** The document as block YAML; an empty document is the flow mapping `{}`. */
  function RenderDoc(d: Doc): Option<string>
  {
    if d == map[] then Some("{}\n") else RenderMapping(d, 0)
  }

  /** A non-empty mapping: its entries in key order, each starting at the given indentation. */
  function RenderMapping(m: map<string, Value>, indent: nat): Option<string>
    decreases Map(m), 1, 0
  {
    RenderEntries(m, SortedKeys(m.Keys), indent)
  }

  /** The entries of `m` named by `keys`, in that order. */
  function RenderEntries(m: map<string, Value>, keys: seq<string>, indent: nat): Option<string>
    requires forall i :: 0 <= i < |keys| ==> keys[i] in m
    decreases Map(m), 0, |keys|
  {
    if keys == [] then Some("")
    else
      var head := RenderEntry(keys[0], m[keys[0]], indent);
      var tail := RenderEntries(m, keys[1..], indent);
      if head.None? || tail.None? then None else Some(head.value + tail.value)
  }

  /** One entry: `key: value` for a plain string, `key: {}` for an empty mapping, `key:` and the nested block otherwise. */
  function RenderEntry(k: string, v: Value, indent: nat): Option<string>
    decreases v, 2, 0
  {
    if !PlainWord(k) then None
    else match v
      case Str(s) =>
        if PlainWord(s) then Some(Indent(indent) + k + ": " + s + "\n") else None
      case Map(e) =>
        if e == map[] then Some(Indent(indent) + k + ": {}\n")
        else
          var inner := RenderMapping(e, indent + 2);
          if inner.None? then None else Some(Indent(indent) + k + ":\n" + inner.value)
      case _ => None
  }
}
