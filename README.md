# terraform-provider-k8s, modelled in Dafny

The provider manages a single resource, `k8s_manifest`, by shelling out to
`kubectl`. This project models the decision logic of `main.go`:

- **Manifest merge** (`processContent`). The resource's YAML or JSON content
  is decoded into a mapping, and a `metadata` mapping is added if it is
  missing. Top-level `kind` and `metadata.name` are overwritten. When a
  namespace is given, `metadata.namespace` is overwritten too. When none is
  given, a manifest that declares a namespace of its own is rejected. The
  result is marshalled again, and every failure yields the empty text
  (`Manifest`).
- **Command lines** (`kubectl` and the per-handler argument lists). The
  global `--context` and `--kubeconfig` flags come first, then
  `apply -f -`, or `delete` / `get --ignore-not-found` with their optional
  `-n namespace` (`Kubectl`).
- **Kubeconfig resolution** (`kubeconfigPath`). The outcome is one of:
  - rejecting a path and inline content given together;
  - a temporary file holding the inline content;
  - the given path;
  - nothing.

  The model also tracks when the temporary file is removed
  (`Credentials`, over the effect trace in `Effects`).
- **The lifecycle handlers** (`Create`, `Update`, `Delete`, `Read`). Each
  runs one command with a given standard input. Create records the id
  `kind/namespace/name` only after `apply` succeeded. Read forgets a
  resource that has no name or kind, or whose `get` printed only white
  space (`Lifecycle`, with `strings.TrimSpace` in `Text`).

The YAML library, the file system and `kubectl` are parameters of the
model:

- The decoder's answer is a `Result<Decoded, string>`: a failure message, the
  decoded mapping, or `Nil` for a null document, which leaves Go's map nil.
- The encoder is a function `Doc -> Result<string, string>`.
- The file system's answers for the temporary file are a `TempFs`.
- `kubectl` is a function from its arguments and standard input to its
  output or a failure.

The handlers return their effects in order: temporary-file creation, write
and removal, and each command run. Stating that the temporary file is
removed exactly once, after the command, is a property of that trace.

The unit tests of `processContent` are restated as lemmas
(`ManifestExamples`). They use a small block-YAML emitter (`BlockYaml`,
with sorted keys from `KeyOrder`) in place of the YAML library's encoder.
Their exact expected strings are proved.

`kubectl` prepends `--kubeconfig` first and `--context` in front of it
(main.go:141-148), so the order is `--context c --kubeconfig p <args>`.

## Model

| member | source | states |
|---|---|---|
| Manifest.Merge | main.go:161-177 | Fails exactly when `metadata` is present but not a mapping (the Go type assertion would panic) or when no namespace is given and the manifest declares one, with the matching error; on success `kind` and `metadata.name` are the given ones, `metadata.namespace` is the given namespace when non-empty and absent otherwise, an absent `metadata` is created, and every other top-level and `metadata` entry keeps its value |
| Manifest.MergeIdempotent | main.go:161-177 | Merging an already merged manifest again with the same identity gives the same document |
| Manifest.ProcessContent | main.go:155-184 | Any error comes with the empty text; a decode failure is a parse error and no merge happens; a null document (nil map, where the insertion at main.go:163 panics) is `NullDocument`; the namespace conflict and the not-a-mapping case are reported as such; a marshal failure is `GenerateYaml` with the encoder's message; it succeeds exactly when decoding, merging and marshalling all succeed, and the text is then the marshalled merged document |
| ManifestExamples.ProcessContentNameOnly | main_test.go:8-15 | `{"metadata": {"name": "foo"}}` becomes exactly the test's expected YAML, with the name replaced and the namespace added |
| ManifestExamples.ProcessContentAdditional | main_test.go:17-24 | An extra `metadata.test` entry survives the merge, in key order |
| ManifestExamples.ProcessContentAdditionalNested | main_test.go:26-33 | A nested mapping under `metadata.test` survives the merge unchanged |
| ManifestExamples.ProcessContentEmpty | main_test.go:35-42 | `{}` gets a fresh `metadata` with name and namespace |
| ManifestExamples.ProcessNullDocument | main.go:156-164 | A null document gives the `NullDocument` error and the empty text |
| ManifestExamples.ProcessIllegal | main_test.go:44-48 | Whatever the decoder's message, malformed content gives a parse error and the empty text |
| ManifestExamples.ProcessContentNoNamespace | main_test.go:50-57 | With no namespace given, the output has no `metadata.namespace` and keeps the other entries |
| ManifestExamples.ProcessContentNoNamespaceProvided | main_test.go:59-63 | With no namespace given and one in the manifest, the result is the conflict error and the empty text |
| KeyOrder.SortedKeys | main.go:179 | The marshalled mapping's keys are listed once each, all of them and only them, in strictly increasing order |
| KeyOrder.SortedKeysUnique | main.go:179 | That key order is the only strictly sorted listing of the keys |
| Kubectl.KubectlArgs | main.go:140-148 | The operation's arguments are the unchanged suffix; `--context ctx` leads when a context is set, then `--kubeconfig path` when a path is set; nothing else is added |
| Kubectl.SplitKubectlArgs | main.go:140-148 | Reading the global flags back off a built command line yields exactly the context, the path (each absent when empty) and the operation's arguments |
| Kubectl.DeleteArgs | main.go:242-247 | `delete kind name`, followed by `-n namespace` exactly when a namespace is set |
| Kubectl.ReadArgs | main.go:262-273 | `get --ignore-not-found kind name`, followed by `-n namespace` exactly when a namespace is set |
| Kubectl.OperationRoundTrip | main.go:205-273 | The argument lists of apply, delete and read parse back to the operation they were built for, namespace included |
| Kubectl.ParseOperationExact | main.go:205-273 | Only those argument lists parse: a parsed list is exactly the argument list of the operation parsed |
| Credentials.KubeconfigPath | main.go:104-138 | Path and content together: an error, the path, no cleanup and no file touched; content only: a new file holding exactly the content whose path is returned with its removal as cleanup; if creating fails, the creation error, the empty path, no cleanup and no effect; if writing or closing fails, the write error (else the close error), the empty path, and exactly the trace create, write, remove; path only or neither: the path (possibly empty), no cleanup, no error; no command is run |
| Credentials.KubeconfigReleasedOnce | main.go:104-138 | On every outcome, with the cleanup deferred around any commands run after success, each temporary file is removed exactly once, as the last effect, and only files created earlier are removed |
| Credentials.CommandsReleased | main.go:104-138 | The commands around a resolution are those run after it succeeded, and none when it failed |
| Text.TrimSpace | main.go:287 | The result is the input with only white space cut from both ends, starts and ends with a non-space, and is empty exactly when the input is all white space |
| Lifecycle.ResourceId | main.go:211 | The id starts with the kind followed by `/` and has the length of `kind/namespace/name` |
| Lifecycle.ResourceIdRoundTrip | main.go:211 | When kind and namespace contain no `/`, splitting the id at its first two slashes gives back kind, namespace and name |
| Lifecycle.ResourceIdInjective | main.go:211 | Under the same condition, different resources never get the same id |
| Lifecycle.RunWithKubeconfig | main.go:249-256 | A kubeconfig error is returned with no command run; otherwise the one command with the configured context, the resolved path and the given input runs between the resolution and the cleanup, and the handler fails exactly when it fails, with its message; the id is untouched |
| Lifecycle.ApplyManifest | main.go:223-236 | A kubeconfig error stops before processing; a processing error stops before any command, after the cleanup; otherwise the processed manifest is piped to `kubectl apply -f -`; the id is untouched |
| Lifecycle.Create | main.go:186-213 | Succeeds exactly when the kubeconfig resolves, the manifest is processed and `apply` succeeds; the id becomes `kind/namespace/name` then and is unchanged otherwise; a failure returns its phase's error: the kubeconfig error, the processing error, or the failed command's message |
| Lifecycle.Update | main.go:215-237 | Runs what create runs and fails exactly when it does, with the same error, but leaves the id unchanged |
| Lifecycle.Delete | main.go:239-257 | A kubeconfig error is returned with only the resolution's effects; otherwise `kubectl --context c --kubeconfig p delete kind name [-n namespace]` runs with empty input between the resolution and the cleanup, and delete fails exactly when it fails, with its message; the id is unchanged |
| Lifecycle.Read | main.go:259-291 | Without a name or a kind: success, id cleared, no effect at all; otherwise it runs `get` and fails exactly when resolution or the command fails, with the id unchanged; on success the id is cleared exactly when the output is all white space, and otherwise kept |
| Lifecycle.HandlersReleaseOnce | main.go:194-280 | In all four handlers a temporary kubeconfig is removed exactly once, after the command, and nothing else is removed |
| Lifecycle.ApplyCommands | main.go:200-209 | Create runs `apply` once, with the processed manifest on its input, exactly when the kubeconfig and the manifest are in order, and runs no command otherwise |
| Lifecycle.DeleteReadCommands | main.go:249-286 | Delete and read run their single command with empty input exactly when the kubeconfig resolves (and, for read, name and kind are set), and no command otherwise |
| Lifecycle.CommandLinesReadBack | main.go:140-148 | Every command line a handler runs reads back as the configured context, the resolved kubeconfig path and the handler's own operation |
| Lifecycle.ReadAfterCreate | main.go:207-211 | After a successful create, a read that finds the object keeps an id that names the resource, and one that finds nothing clears it |

## Left out

- Plugin serving, the provider and resource schemas and `ConfigureFunc` (main.go:23-89) are framework wiring. Unset optional attributes are modelled as the empty string, which is also how `GetOk` reports an empty namespace.
- `run` (main.go:91-102) is not modelled: it starts the process and formats its error text from the command line and stderr. A failed command is `CommandFailed` carrying the oracle's message. The phase prefixes that the handlers add to error messages are replaced by the `OpError` constructors.
- `exec.Command` and `os.Environ()` (main.go:150-151) are not modelled: the process environment is not part of the model, and `kubectl` is a function argument.
- Real temporary-file creation, writing, closing and removal are not modelled. They become the `TempFs` answers and the effect trace. Errors from `os.Remove` are ignored by the code and do not appear.
- Read's standard input is nil in the code; it is modelled as the empty string, the same as delete's.
- YAML decoding and encoding (yaml.v2) are oracles. `BlockYaml` only covers the fragment needed by the tests: string keys and values that are plain words, and nested mappings. Quoting, sequences, numbers, booleans, null values and flow style are outside it.
- KeyOrder.SortedKeys: code-point order. yaml.v2 sorts keys in a "natural" order that differs for digit runs and non-letters; the two agree on the keys in the tests.
- Manifest.Merge: nested mapping keys are strings, while yaml.v2 decodes nested mappings with keys of any type. A non-string key named like `namespace` would not count.
- Manifest.Merge: the Go code panics at the type assertion when `metadata` is not a mapping (null included). The model returns the distinct error `MetadataNotMapping` instead.
- Manifest.ProcessContent: for a null document (`null`, `~`) yaml.v2 sets the target map to nil, and the Go code panics when it inserts `metadata` into it (main.go:163). The model returns the distinct error `NullDocument` instead.
- `Document.Value` keeps only what the merge inspects or the tests use: mappings, sequences, strings, integers, booleans and null. Floats, timestamps, binary data and non-string mapping keys are not distinguished; the merge copies such values unchanged.
- Text.TrimSpace: ASCII white space only (space and tab through carriage return). Go's `strings.TrimSpace` also trims Unicode white space such as U+0085 and U+00A0.
