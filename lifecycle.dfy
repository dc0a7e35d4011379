/**
 * The `k8s_manifest` resource's create, update, delete and read handlers:
 * which kubeconfig they use, which `kubectl` command they run with what on
 * its standard input, and what becomes of the resource id.
 *
 * The YAML library, the file system and `kubectl` itself are the
 * environment, given as oracles; the effects the handlers have on them are
 * returned as a trace.
 */
module Lifecycle {
  import opened Wrappers
  import opened Document
  import opened Manifest
  import opened Kubectl
  import opened Credentials
  import opened Effects
  import Text

  /**
   * The resource's attributes. An unset `namespace` is the empty string,
   * which is also what the schema layer reports as not set.
   */
  datatype ResourceData = ResourceData(name: string, namespace: string, kind: string, content: string, id: string)

  /**
   * The world outside the provider: the YAML library's decoder and encoder,
   * the file system's answers for a temporary kubeconfig, and `kubectl`,
   * which, given its arguments and standard input, either succeeds with
   * its standard output or fails.
   */
  datatype Env = Env(
    parse: string -> Result<Decoded, string>,
    marshal: Doc -> Result<string, string>,
    fs: TempFs,
    kubectl: (seq<string>, string) -> Result<string, string>)

  datatype OpError =
    | DeterminingKubeconfig(configError: ConfigError)
    | ProcessingContent(processError: ProcessError)
    | CommandFailed(msg: string)

  /** A handler's error (if any), the resource id it leaves, and its effects in order. */
  datatype Outcome = Outcome(err: Option<OpError>, id: string, effects: seq<Effect>)

  /** The id create gives a resource: `kind/namespace/name`. */
  function ResourceId(kind: string, namespace: string, name: string): (id: string)
    ensures |id| == |kind| + |namespace| + |name| + 2
    ensures id[..|kind|] == kind && id[|kind|] == '/'
  {
    kind + "/" + namespace + "/" + name
  }

  /** The index of the first `/` in `s`, if there is one. */
  function FirstSlash(s: string): (r: Option<nat>)
    ensures r.Some? ==> r.value < |s| && s[r.value] == '/' && '/' !in s[..r.value]
    ensures r.None? ==> '/' !in s
  {
    if s == [] then None
    else if s[0] == '/' then Some(0)
    else match FirstSlash(s[1..])
      case None => None
      case Some(i) => assert s[..i + 1] == [s[0]] + s[1..][..i]; Some(i + 1)
  }

  /** Reads an id back into kind, namespace and name, splitting at its first two slashes. */
  function SplitId(id: string): Option<(string, string, string)>
  {
    match FirstSlash(id)
    case None => None
    case Some(i) =>
      var tail := id[i + 1..];
      match FirstSlash(tail)
      case None => None
      case Some(j) => Some((id[..i], tail[..j], tail[j + 1..]))
  }

  /** The first `/` of `a + "/" + b` is the one put there, when `a` has none. */
  lemma FirstSlashAfter(a: string, b: string)
    requires '/' !in a
    ensures FirstSlash(a + "/" + b) == Some(|a|)
  {
    var s := a + "/" + b;
    assert s[|a|] == '/';
    assert s[..|a|] == a;
    assert forall i :: 0 <= i < |a| ==> s[i] == a[i];
  }

  /**
   * An id made by create names its resource: as long as the kind and the
   * namespace contain no `/` (the name may), splitting gives them back.
   */
  lemma ResourceIdRoundTrip(kind: string, namespace: string, name: string)
    requires '/' !in kind && '/' !in namespace
    ensures SplitId(ResourceId(kind, namespace, name)) == Some((kind, namespace, name))
  {
    var id := ResourceId(kind, namespace, name);
    assert id == kind + "/" + (namespace + "/" + name);
    FirstSlashAfter(kind, namespace + "/" + name);
    var tail := id[|kind| + 1..];
    assert tail == namespace + "/" + name;
    FirstSlashAfter(namespace, name);
    assert id[..|kind|] == kind;
    assert tail[..|namespace|] == namespace;
    assert tail[|namespace| + 1..] == name;
  }

  /** Two resources whose kinds and namespaces have no `/` get the same id only if they agree on all three. */
  lemma ResourceIdInjective(k1: string, ns1: string, n1: string, k2: string, ns2: string, n2: string)
    requires '/' !in k1 && '/' !in ns1 && '/' !in k2 && '/' !in ns2
    requires ResourceId(k1, ns1, n1) == ResourceId(k2, ns2, n2)
    ensures k1 == k2 && ns1 == ns2 && n1 == n2
  {
    ResourceIdRoundTrip(k1, ns1, n1);
    ResourceIdRoundTrip(k2, ns2, n2);
  }

  /** The command line of an operation under a resolved kubeconfig. */
  function CommandLine(cfg: Config, r: Resolution, op: seq<string>): seq<string>
  {
    KubectlArgs(cfg.kubeconfigContext, r.path, op)
  }

  /** The manifest create and update feed to `kubectl apply`: `processContent` on the resource's attributes. */
  function Processing(d: ResourceData, env: Env): Processed
  {
    ProcessContent(env.parse(d.content), env.marshal, d.name, d.namespace, d.kind)
  }

  /** Resolve the kubeconfig, then run one `kubectl` command with the given input, cleaning up afterwards. */
  function RunWithKubeconfig(d: ResourceData, cfg: Config, env: Env, op: seq<string>, stdin: string): (o: Outcome)
    ensures var r := KubeconfigPath(cfg, env.fs);
      && (r.err.Some? ==> o == Outcome(Some(DeterminingKubeconfig(r.err.value)), d.id, r.effects))
      && (r.err.None? ==>
            var line := CommandLine(cfg, r, op);
            && o.effects == Released(r, [Exec(line, stdin)])
            && o.id == d.id
            && (o.err.None? <==> env.kubectl(line, stdin).Success?)
            && (o.err.Some? ==> o.err == Some(CommandFailed(env.kubectl(line, stdin).error))))
  {
    var r := KubeconfigPath(cfg, env.fs);
    if r.err.Some? then Outcome(Some(DeterminingKubeconfig(r.err.value)), d.id, r.effects)
    else
      var line := CommandLine(cfg, r, op);
      var effects := Released(r, [Exec(line, stdin)]);
      match env.kubectl(line, stdin)
      case Failure(e) => Outcome(Some(CommandFailed(e)), d.id, effects)
      case Success(_) => Outcome(None, d.id, effects)
  }

  /**
   * What create and update share: resolve the kubeconfig, process the
   * manifest, and pipe it to `kubectl apply -f -`. The id is left alone.
   */
  function ApplyManifest(d: ResourceData, cfg: Config, env: Env): (o: Outcome)
    ensures o.id == d.id
    ensures var r := KubeconfigPath(cfg, env.fs); var p := Processing(d, env);
      && (r.err.Some? ==> o == Outcome(Some(DeterminingKubeconfig(r.err.value)), d.id, r.effects))
      && (r.err.None? && p.err.Some? ==> o == Outcome(Some(ProcessingContent(p.err.value)), d.id, Released(r, [])))
      && (r.err.None? && p.err.None? ==> o == RunWithKubeconfig(d, cfg, env, ApplyArgs, p.text))
  {
    var r := KubeconfigPath(cfg, env.fs);
    var p := Processing(d, env);
    if r.err.Some? then Outcome(Some(DeterminingKubeconfig(r.err.value)), d.id, r.effects)
    else if p.err.Some? then Outcome(Some(ProcessingContent(p.err.value)), d.id, Released(r, []))
    else RunWithKubeconfig(d, cfg, env, ApplyArgs, p.text)
  }

  /** Create: apply the manifest, and only once `kubectl` has succeeded record the id `kind/namespace/name`. */
  function Create(d: ResourceData, cfg: Config, env: Env): (o: Outcome)
    ensures o.err.None? <==>
      && KubeconfigPath(cfg, env.fs).err.None?
      && Processing(d, env).err.None?
      && env.kubectl(CommandLine(cfg, KubeconfigPath(cfg, env.fs), ApplyArgs), Processing(d, env).text).Success?
    ensures o.id == if o.err.None? then ResourceId(d.kind, d.namespace, d.name) else d.id
    ensures o.err == ApplyManifest(d, cfg, env).err
    ensures o.effects == ApplyManifest(d, cfg, env).effects
  {
    var o := ApplyManifest(d, cfg, env);
    if o.err.None? then o.(id := ResourceId(d.kind, d.namespace, d.name)) else o
  }

  /** Update: apply the manifest again; the id does not change. */
  function Update(d: ResourceData, cfg: Config, env: Env): (o: Outcome)
    ensures o.id == d.id
    ensures o.err.None? <==> Create(d, cfg, env).err.None?
    ensures o.err == Create(d, cfg, env).err
    ensures o.effects == Create(d, cfg, env).effects
  {
    ApplyManifest(d, cfg, env)
  }

  /** Delete: `kubectl delete kind name [-n namespace]` with nothing on its input; the id is left to the framework. */
  function Delete(d: ResourceData, cfg: Config, env: Env): (o: Outcome)
    ensures o.id == d.id
    ensures var r := KubeconfigPath(cfg, env.fs);
      && (r.err.Some? ==> o.err == Some(DeterminingKubeconfig(r.err.value)) && o.effects == r.effects)
      && (r.err.None? ==>
            var line := KubectlArgs(cfg.kubeconfigContext, r.path, DeleteArgs(d.kind, d.name, d.namespace));
            && o.effects == Released(r, [Exec(line, "")])
            && (o.err.None? <==> env.kubectl(line, "").Success?)
            && (o.err.Some? ==> o.err == Some(CommandFailed(env.kubectl(line, "").error))))
  {
    RunWithKubeconfig(d, cfg, env, DeleteArgs(d.kind, d.name, d.namespace), "")
  }

  /**
   * Read: a resource without a name or a kind (an import of bare state)
   * is forgotten at once, with no command; otherwise
   * `kubectl get --ignore-not-found kind name [-n namespace]` runs, and
   * output that is only white space means the object is gone, so the id
   * is cleared. Any failure leaves the id as it was.
   */
  function Read(d: ResourceData, cfg: Config, env: Env): (o: Outcome)
    ensures d.name == "" || d.kind == "" ==> o == Outcome(None, "", [])
    ensures d.name != "" && d.kind != "" ==>
      var g := RunWithKubeconfig(d, cfg, env, ReadArgs(d.kind, d.name, d.namespace), "");
      && o.err == g.err && o.effects == g.effects
      && (o.err.Some? ==> o.id == d.id)
    ensures d.name != "" && d.kind != "" && o.err.None? ==>
      var line := CommandLine(cfg, KubeconfigPath(cfg, env.fs), ReadArgs(d.kind, d.name, d.namespace));
      o.id == if Text.Blank(env.kubectl(line, "").value) then "" else d.id
  {
    if d.name == "" || d.kind == "" then Outcome(None, "", [])
    else
      var g := RunWithKubeconfig(d, cfg, env, ReadArgs(d.kind, d.name, d.namespace), "");
      if g.err.Some? then g
      else
        var line := CommandLine(cfg, KubeconfigPath(cfg, env.fs), ReadArgs(d.kind, d.name, d.namespace));
        var stdout := env.kubectl(line, "").value;
        if Text.TrimSpace(stdout) == "" then g.(id := "") else g
  }

  /** The `kubectl` runs recorded in one handler's outcome. */
  function CommandsOf(o: Outcome): seq<Effect>
  {
    Commands(o.effects)
  }

  /** Every handler removes the temporary kubeconfig it made exactly once, after its command, and nothing else. */
  lemma HandlersReleaseOnce(d: ResourceData, cfg: Config, env: Env)
    ensures ReleasedOnce(Create(d, cfg, env).effects) && RemovesOnlyOwnFiles(Create(d, cfg, env).effects)
    ensures ReleasedOnce(Update(d, cfg, env).effects) && RemovesOnlyOwnFiles(Update(d, cfg, env).effects)
    ensures ReleasedOnce(Delete(d, cfg, env).effects) && RemovesOnlyOwnFiles(Delete(d, cfg, env).effects)
    ensures ReleasedOnce(Read(d, cfg, env).effects) && RemovesOnlyOwnFiles(Read(d, cfg, env).effects)
  {
    var r := KubeconfigPath(cfg, env.fs);
    var p := Processing(d, env);
    var readLine := CommandLine(cfg, r, ReadArgs(d.kind, d.name, d.namespace));
    var deleteLine := CommandLine(cfg, r, DeleteArgs(d.kind, d.name, d.namespace));
    var applyLine := CommandLine(cfg, r, ApplyArgs);
    KubeconfigReleasedOnce(cfg, env.fs, []);
    KubeconfigReleasedOnce(cfg, env.fs, [Exec(applyLine, p.text)]);
    KubeconfigReleasedOnce(cfg, env.fs, [Exec(deleteLine, "")]);
    KubeconfigReleasedOnce(cfg, env.fs, [Exec(readLine, "")]);
  }

  /**
   * Create and update run `kubectl apply -f -` exactly once, fed the
   * processed manifest, when the kubeconfig and the manifest are both in
   * order, and run nothing otherwise.
   */
  lemma ApplyCommands(d: ResourceData, cfg: Config, env: Env)
    ensures var r := KubeconfigPath(cfg, env.fs); var p := Processing(d, env);
      CommandsOf(Create(d, cfg, env))
      == if r.err.None? && p.err.None? then [Exec(CommandLine(cfg, r, ApplyArgs), p.text)] else []
  {
    var r := KubeconfigPath(cfg, env.fs);
    var p := Processing(d, env);
    var line := CommandLine(cfg, r, ApplyArgs);
    CommandsReleased(cfg, env.fs, []);
    CommandsReleased(cfg, env.fs, [Exec(line, p.text)]);
  }

  /** Delete and read run their one command, with an empty input, whenever the kubeconfig is in order. */
  lemma DeleteReadCommands(d: ResourceData, cfg: Config, env: Env)
    ensures var r := KubeconfigPath(cfg, env.fs);
      CommandsOf(Delete(d, cfg, env))
      == if r.err.None? then [Exec(CommandLine(cfg, r, DeleteArgs(d.kind, d.name, d.namespace)), "")] else []
    ensures var r := KubeconfigPath(cfg, env.fs);
      CommandsOf(Read(d, cfg, env))
      == if d.name != "" && d.kind != "" && r.err.None?
         then [Exec(CommandLine(cfg, r, ReadArgs(d.kind, d.name, d.namespace)), "")] else []
  {
    var r := KubeconfigPath(cfg, env.fs);
    CommandsReleased(cfg, env.fs, [Exec(CommandLine(cfg, r, DeleteArgs(d.kind, d.name, d.namespace)), "")]);
    CommandsReleased(cfg, env.fs, [Exec(CommandLine(cfg, r, ReadArgs(d.kind, d.name, d.namespace)), "")]);
  }

  /**
   * A command a handler runs reads back as the configured context, the
   * resolved kubeconfig path and that handler's operation.
   */
  lemma CommandLinesReadBack(d: ResourceData, cfg: Config, r: Resolution)
    ensures var g := SplitGlobalFlags(CommandLine(cfg, r, ApplyArgs));
      g.context == NonEmpty(cfg.kubeconfigContext) && g.kubeconfig == NonEmpty(r.path)
      && ParseOperation(g.rest) == Some(Operation.Apply)
    ensures var g := SplitGlobalFlags(CommandLine(cfg, r, DeleteArgs(d.kind, d.name, d.namespace)));
      g.context == NonEmpty(cfg.kubeconfigContext) && g.kubeconfig == NonEmpty(r.path)
      && ParseOperation(g.rest) == Some(Operation.Delete(d.kind, d.name, d.namespace))
    ensures var g := SplitGlobalFlags(CommandLine(cfg, r, ReadArgs(d.kind, d.name, d.namespace)));
      g.context == NonEmpty(cfg.kubeconfigContext) && g.kubeconfig == NonEmpty(r.path)
      && ParseOperation(g.rest) == Some(Get(d.kind, d.name, d.namespace))
  {
    SplitKubectlArgs(cfg.kubeconfigContext, r.path, ApplyArgs);
    SplitKubectlArgs(cfg.kubeconfigContext, r.path, DeleteArgs(d.kind, d.name, d.namespace));
    SplitKubectlArgs(cfg.kubeconfigContext, r.path, ReadArgs(d.kind, d.name, d.namespace));
    OperationRoundTrip(Operation.Apply);
    OperationRoundTrip(Operation.Delete(d.kind, d.name, d.namespace));
    OperationRoundTrip(Get(d.kind, d.name, d.namespace));
  }

  /**
   * After a successful create, a read that finds the object (non-blank
   * output) keeps the created id, which names the resource; one that
   * finds nothing clears it.
   */
  lemma ReadAfterCreate(d: ResourceData, cfg: Config, env: Env)
    requires d.name != "" && d.kind != "" && '/' !in d.kind && '/' !in d.namespace
    requires Create(d, cfg, env).err.None?
    requires Read(d.(id := Create(d, cfg, env).id), cfg, env).err.None?
    ensures var created := Create(d, cfg, env).id;
      var line := CommandLine(cfg, KubeconfigPath(cfg, env.fs), ReadArgs(d.kind, d.name, d.namespace));
      var o := Read(d.(id := created), cfg, env);
      && (!Text.Blank(env.kubectl(line, "").value) ==> SplitId(o.id) == Some((d.kind, d.namespace, d.name)))
      && (Text.Blank(env.kubectl(line, "").value) ==> o.id == "")
  {
    ResourceIdRoundTrip(d.kind, d.namespace, d.name);
  }
}
