/**
 * The command lines handed to `kubectl`: the global `--context` and
 * `--kubeconfig` flags prepended by `kubectl`, and the per-operation
 * arguments of apply, delete and read.
 */
module Kubectl {
  import opened Wrappers

  /**
   * `kubectl`: first `--kubeconfig path` is prepended to the operation's
   * arguments, then `--context ctx` in front of that; an empty value
   * adds nothing.
   */
  function KubectlArgs(context: string, kubeconfig: string, args: seq<string>): (r: seq<string>)
    ensures |r| == |args| + (if context != "" then 2 else 0) + (if kubeconfig != "" then 2 else 0)
    ensures r[|r| - |args|..] == args
    ensures context != "" ==> r[..2] == ["--context", context]
    ensures kubeconfig != "" ==> var at := if context != "" then 2 else 0; r[at..at + 2] == ["--kubeconfig", kubeconfig]
  {
    var withConfig := if kubeconfig != "" then ["--kubeconfig", kubeconfig] + args else args;
    if context != "" then ["--context", context] + withConfig else withConfig
  }

  /** The global flags found at the front of a command line, and what follows them. */
  datatype GlobalFlags = GlobalFlags(context: Option<string>, kubeconfig: Option<string>, rest: seq<string>)

  predicate IsGlobalFlag(a: string)
  {
    a == "--context" || a == "--kubeconfig"
  }

  /**
   * Reads leading `--context v` and `--kubeconfig v` pairs, in any order;
   * a later occurrence of a flag overrides an earlier one.
   */
  function SplitGlobalFlags(argv: seq<string>): (g: GlobalFlags)
    ensures |g.rest| <= |argv| && g.rest == argv[|argv| - |g.rest|..]
    decreases |argv|
  {
    if |argv| >= 2 && IsGlobalFlag(argv[0]) then
      var g := SplitGlobalFlags(argv[2..]);
      if argv[0] == "--context" then
        g.(context := if g.context.Some? then g.context else Some(argv[1]))
      else
        g.(kubeconfig := if g.kubeconfig.Some? then g.kubeconfig else Some(argv[1]))
    else
      GlobalFlags(None, None, argv)
  }

  function NonEmpty(s: string): Option<string>
  {
    if s == "" then None else Some(s)
  }

  /** One flag pair in front of a command line only sets that flag, unless a later pair sets it again. */
  lemma SplitFlagPair(flag: string, value: string, tail: seq<string>)
    requires IsGlobalFlag(flag)
    ensures
      var g := SplitGlobalFlags(tail);
      SplitGlobalFlags([flag, value] + tail)
      == if flag == "--context" then g.(context := if g.context.Some? then g.context else Some(value))
         else g.(kubeconfig := if g.kubeconfig.Some? then g.kubeconfig else Some(value))
  {
    assert ([flag, value] + tail)[2..] == tail;
  }

  /**
   * Reading the flags back off a built command line recovers exactly the
   * context, the kubeconfig path and the operation's arguments, as long
   * as those arguments do not themselves start with a global flag.
   */
  lemma SplitKubectlArgs(context: string, kubeconfig: string, args: seq<string>)
    requires args == [] || !IsGlobalFlag(args[0])
    ensures SplitGlobalFlags(KubectlArgs(context, kubeconfig, args))
         == GlobalFlags(NonEmpty(context), NonEmpty(kubeconfig), args)
  {
    var withConfig := if kubeconfig != "" then ["--kubeconfig", kubeconfig] + args else args;
    var g1 := GlobalFlags(None, NonEmpty(kubeconfig), args);
    assert SplitGlobalFlags(args) == GlobalFlags(None, None, args);
    if kubeconfig != "" {
      SplitFlagPair("--kubeconfig", kubeconfig, args);
      assert SplitGlobalFlags(withConfig) == g1;
    } else {
      assert withConfig == args;
    }
    var line := if context != "" then ["--context", context] + withConfig else withConfig;
    assert KubectlArgs(context, kubeconfig, args) == line;
    if context != "" {
      SplitFlagPair("--context", context, withConfig);
      assert SplitGlobalFlags(line) == g1.(context := Some(context));
    }
  }

  /** The operation arguments `kubectl` is called with by create and update. */
  const ApplyArgs: seq<string> := ["apply", "-f", "-"]

  /** Delete: `delete kind name`, then `-n namespace` only when a namespace is set. */
  function DeleteArgs(kind: string, name: string, namespace: string): (r: seq<string>)
    ensures |r| == if namespace != "" then 5 else 3
    ensures r[..3] == ["delete", kind, name]
    ensures namespace != "" ==> r[3..] == ["-n", namespace]
  {
    var args := ["delete", kind, name];
    if namespace != "" then args + ["-n", namespace] else args
  }

  /** Read: `get --ignore-not-found kind name`, then `-n namespace` only when a namespace is set. */
  function ReadArgs(kind: string, name: string, namespace: string): (r: seq<string>)
    ensures |r| == if namespace != "" then 6 else 4
    ensures r[..4] == ["get", "--ignore-not-found", kind, name]
    ensures namespace != "" ==> r[4..] == ["-n", namespace]
  {
    var args := ["get", "--ignore-not-found", kind, name];
    if namespace != "" then args + ["-n", namespace] else args
  }

  /** The three invocations the lifecycle handlers make. */
  datatype Operation =
    | Apply
    | Delete(kind: string, name: string, namespace: string)
    | Get(kind: string, name: string, namespace: string)

  function OperationArgs(op: Operation): seq<string>
  {
    match op
    case Apply => ApplyArgs
    case Delete(kind, name, namespace) => DeleteArgs(kind, name, namespace)
    case Get(kind, name, namespace) => ReadArgs(kind, name, namespace)
  }

  /** Recognises an operation's argument list by its verb and its length. */
  function ParseOperation(args: seq<string>): Option<Operation>
  {
    if args == ApplyArgs then Some(Apply)
    else if |args| == 3 && args[0] == "delete" then Some(Delete(args[1], args[2], ""))
    else if |args| == 5 && args[0] == "delete" && args[3] == "-n" && args[4] != "" then
      Some(Delete(args[1], args[2], args[4]))
    else if |args| == 4 && args[..2] == ["get", "--ignore-not-found"] then Some(Get(args[2], args[3], ""))
    else if |args| == 6 && args[..2] == ["get", "--ignore-not-found"] && args[4] == "-n" && args[5] != "" then
      Some(Get(args[2], args[3], args[5]))
    else None
  }

  /** No information is lost in an operation's argument list: it parses back to the operation. */
  lemma OperationRoundTrip(op: Operation)
    ensures ParseOperation(OperationArgs(op)) == Some(op)
  {
    match op
    case Apply =>
    case Delete(kind, name, namespace) =>
      var r := DeleteArgs(kind, name, namespace);
      assert r[0] == "delete" && r[1] == kind && r[2] == name;
      if namespace != "" { assert r[3] == "-n" && r[4] == namespace; }
    case Get(kind, name, namespace) =>
      var r := ReadArgs(kind, name, namespace);
      assert r[..2] == ["get", "--ignore-not-found"] && r[2] == kind && r[3] == name;
      if namespace != "" { assert r[4] == "-n" && r[5] == namespace; }
  }

  /** And only such lists parse: a parsed list is exactly the operation's argument list. */
  lemma ParseOperationExact(args: seq<string>)
    requires ParseOperation(args).Some?
    ensures OperationArgs(ParseOperation(args).value) == args
  {
    var op := ParseOperation(args).value;
    match op
    case Apply =>
    case Delete(kind, name, namespace) =>
      assert DeleteArgs(kind, name, namespace)[..3] == args[..3];
    case Get(kind, name, namespace) =>
      assert ReadArgs(kind, name, namespace)[..4] == args[..4];
  }
}
