/**
 * The observable side effects of one lifecycle operation, in order: the
 * temporary kubeconfig file's creation, write and removal, and each
 * `kubectl` run with what was fed to its standard input.
 */
module Effects {

  datatype Effect =
    | CreateTemp(path: string)
    | WriteTemp(path: string, content: string)
    | RemoveTemp(path: string)
    | Exec(args: seq<string>, stdin: string)

  /**
   * Every temporary file created is removed exactly once, and that removal
   * is the operation's last effect (so the file exists for every command).
   */
  ghost predicate ReleasedOnce(t: seq<Effect>)
  {
    forall i :: 0 <= i < |t| && t[i].CreateTemp? ==>
      t[|t| - 1] == RemoveTemp(t[i].path) && forall j :: 0 <= j < |t| - 1 ==> t[j] != RemoveTemp(t[i].path)
  }

  /** Only files the operation created itself are removed, after their creation. */
  ghost predicate RemovesOnlyOwnFiles(t: seq<Effect>)
  {
    forall j :: 0 <= j < |t| && t[j].RemoveTemp? ==> exists i :: 0 <= i < j && t[i] == CreateTemp(t[j].path)
  }

  /** The `kubectl` runs among the effects, in order. */
  function Commands(t: seq<Effect>): (r: seq<Effect>)
    ensures forall i :: 0 <= i < |r| ==> r[i].Exec?
    ensures forall e :: e in r <==> e in t && e.Exec?
    ensures |r| <= |t|
    ensures (forall i :: 0 <= i < |t| ==> !t[i].Exec?) ==> r == []
  {
    if t == [] then [] else (if t[0].Exec? then [t[0]] else []) + Commands(t[1..])
  }

  lemma {:induction false} CommandsAppend(a: seq<Effect>, b: seq<Effect>)
    ensures Commands(a + b) == Commands(a) + Commands(b)
  {
    if a == [] {
      assert a + b == b;
    } else {
      assert (a + b)[0] == a[0];
      assert (a + b)[1..] == a[1..] + b;
      CommandsAppend(a[1..], b);
      assert Commands(a + b) == (if a[0].Exec? then [a[0]] else []) + (Commands(a[1..]) + Commands(b));
    }
  }
}
