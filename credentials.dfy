/**
 * `kubeconfigPath`: which kubeconfig file `kubectl` is pointed at, given
 * the provider's `kubeconfig` path and inline `kubeconfig_content`
 * settings. Inline content is written to a fresh temporary file, whose
 * removal is handed back as a cleanup action.
 */
module Credentials {
  import opened Wrappers
  import opened Effects

  /** The provider settings. */
  datatype Config = Config(kubeconfig: string, kubeconfigContent: string, kubeconfigContext: string)

  /**
   * The file system's answers while a temporary kubeconfig is made: the
   * new file's name or why it could not be created, then whether writing
   * the content and closing the file failed.
   */
  datatype TempFs = TempFs(create: Result<string, string>, writeError: Option<string>, closeError: Option<string>)

  datatype ConfigError =
    | BothDefined           // both `kubeconfig` and `kubeconfig_content` are set
    | CreatingFile(msg: string)
    | WritingFile(msg: string)
    | ClosingFile(msg: string)

  /** The cleanup function returned to the caller. */
  datatype Cleanup = NoCleanup | RemoveFile(path: string)

  /** What running a cleanup function does. */
  function Release(c: Cleanup): seq<Effect>
  {
    match c
    case NoCleanup => []
    case RemoveFile(p) => [RemoveTemp(p)]
  }

  /** `kubeconfigPath`'s three results, and the effects it had before returning. */
  datatype Resolution = Resolution(path: string, cleanup: Cleanup, err: Option<ConfigError>, effects: seq<Effect>)

  /** The effects of an operation that resolves the kubeconfig and, on success, defers the cleanup to its end. */
  function Released(r: Resolution, during: seq<Effect>): seq<Effect>
  {
    if r.err.Some? then r.effects else r.effects + during + Release(r.cleanup)
  }

  function KubeconfigPath(cfg: Config, fs: TempFs): (r: Resolution)
    // both set: rejected before any file is touched
    ensures cfg.kubeconfig != "" && cfg.kubeconfigContent != "" ==>
      r == Resolution(cfg.kubeconfig, NoCleanup, Some(BothDefined), [])
    // content only: the path of a new file holding exactly that content, or an error
    ensures cfg.kubeconfig == "" && cfg.kubeconfigContent != "" ==>
      (r.err.None? <==> fs.create.Success? && fs.writeError.None? && fs.closeError.None?)
    ensures cfg.kubeconfig == "" && cfg.kubeconfigContent != "" && r.err.None? ==>
      && r.path == fs.create.value
      && r.effects == [CreateTemp(r.path), WriteTemp(r.path, cfg.kubeconfigContent)]
      && r.cleanup == RemoveFile(r.path)
    ensures cfg.kubeconfigContent != "" && r.err.Some? && r.err != Some(BothDefined) ==>
      r.path == "" && (r.err.value.CreatingFile? <==> r.effects == [])
    // the file could not be created: its error, and nothing touched
    ensures cfg.kubeconfig == "" && cfg.kubeconfigContent != "" && fs.create.Failure? ==>
      r == Resolution("", NoCleanup, Some(CreatingFile(fs.create.error)), [])
    // writing or closing failed: the write error first, then the close error; the file is removed
    ensures cfg.kubeconfig == "" && cfg.kubeconfigContent != "" && fs.create.Success? && r.err.Some? ==>
      var t := fs.create.value;
      && r.effects == [CreateTemp(t), WriteTemp(t, cfg.kubeconfigContent), RemoveTemp(t)]
      && r.err == Some(if fs.writeError.Some? then WritingFile(fs.writeError.value) else ClosingFile(fs.closeError.value))
    // path only, or neither: the given path (possibly empty), nothing to clean up
    ensures cfg.kubeconfigContent == "" ==> r == Resolution(cfg.kubeconfig, NoCleanup, None, [])
    // a failure has already removed whatever file it created
    ensures r.err.Some? ==> ReleasedOnce(r.effects) && RemovesOnlyOwnFiles(r.effects)
    // only the file system is touched
    ensures forall i :: 0 <= i < |r.effects| ==> !r.effects[i].Exec?
  {
    if cfg.kubeconfig != "" && cfg.kubeconfigContent != "" then
      Resolution(cfg.kubeconfig, NoCleanup, Some(BothDefined), [])
    else if cfg.kubeconfigContent != "" then
      match fs.create
      case Failure(e) => Resolution("", NoCleanup, Some(CreatingFile(e)), [])
      case Success(tmp) =>
        var made := [CreateTemp(tmp), WriteTemp(tmp, cfg.kubeconfigContent)];
        ReleaseAfterCommands(tmp, cfg.kubeconfigContent, []);
        assert made + [] + [RemoveTemp(tmp)] == made + [RemoveTemp(tmp)];
        if fs.writeError.Some? then
          Resolution("", RemoveFile(tmp), Some(WritingFile(fs.writeError.value)), made + [RemoveTemp(tmp)])
        else if fs.closeError.Some? then
          Resolution("", RemoveFile(tmp), Some(ClosingFile(fs.closeError.value)), made + [RemoveTemp(tmp)])
        else
          Resolution(tmp, RemoveFile(tmp), None, made)
    else if cfg.kubeconfig != "" then
      Resolution(cfg.kubeconfig, NoCleanup, None, [])
    else
      Resolution("", NoCleanup, None, [])
  }

  /** A temporary file created and written, then commands, then its removal: released once, and only it. */
  lemma ReleaseAfterCommands(tmp: string, content: string, during: seq<Effect>)
    requires forall i :: 0 <= i < |during| ==> during[i].Exec?
    ensures var t := [CreateTemp(tmp), WriteTemp(tmp, content)] + during + [RemoveTemp(tmp)];
            ReleasedOnce(t) && RemovesOnlyOwnFiles(t)
  {
    var t := [CreateTemp(tmp), WriteTemp(tmp, content)] + during + [RemoveTemp(tmp)];
    forall i | 2 <= i < |t| - 1 ensures t[i] == during[i - 2] && t[i].Exec? {
    }
    assert t[0] == CreateTemp(tmp);
  }

  /**
   * Whichever way `kubeconfigPath` goes, when the caller runs commands only
   * after a successful resolution and defers the cleanup to its end, the
   * temporary file (if any) is removed exactly once, after every command.
   */
  lemma KubeconfigReleasedOnce(cfg: Config, fs: TempFs, during: seq<Effect>)
    requires forall i :: 0 <= i < |during| ==> during[i].Exec?
    ensures ReleasedOnce(Released(KubeconfigPath(cfg, fs), during))
    ensures RemovesOnlyOwnFiles(Released(KubeconfigPath(cfg, fs), during))
  {
    var r := KubeconfigPath(cfg, fs);
    if r.err.None? && r.cleanup.RemoveFile? {
      var tmp := r.path;
      ReleaseAfterCommands(tmp, cfg.kubeconfigContent, during);
    } else if r.err.None? {
      assert r.effects == [] && r.cleanup == NoCleanup;
      assert Released(r, during) == during;
    }
  }

  /** The commands run around a resolution are exactly those run after it succeeded. */
  lemma {:induction false} CommandsReleased(cfg: Config, fs: TempFs, during: seq<Effect>)
    ensures Commands(Released(KubeconfigPath(cfg, fs), during))
         == if KubeconfigPath(cfg, fs).err.Some? then [] else Commands(during)
  {
    var r := KubeconfigPath(cfg, fs);
    assert Commands(r.effects) == [];
    if r.err.None? {
      CommandsAppend(r.effects, during);
      CommandsAppend(r.effects + during, Release(r.cleanup));
      assert Commands(Release(r.cleanup)) == [];
    }
  }
}
