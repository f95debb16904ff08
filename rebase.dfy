/** `rebase`: maps a path of the proxy's own path space onto a registry's base path. */
module Rebasing {
  import opened Wrappers
  import opened Strings

  /** CouchDB-style rewrite paths that npm clients send under the registry design document. */
  const RewritePrefix: string := "/registry/_design/app/_rewrite/"
  /** The base path at which a CouchDB registry is usually mounted. */
  const RegistryBase: string := "/registry"

  /**
    * The four-way decision table of `rebase`. `None` is JavaScript's `undefined`: the function
    * falls off its end when the base is `/registry` and the path is a rewrite path.
    */
  function Rebase(pathBase: string, path: string): (r: Option<string>)
    ensures r.None? <==> RewritePrefix <= path && pathBase == RegistryBase
  {
    if IndexOf(path, RewritePrefix) != 0 then Some(pathBase + path)
    else if pathBase == "/" then Some(path)
    else if pathBase != RegistryBase then Some(ReplaceFirst(path, RegistryBase, ""))
    else if IndexOf(path, RegistryBase) != 0 then Some(RegistryBase + path)
    else
      assert RegistryBase <= RewritePrefix;
      None
  }

  /** Every path that is not a rewrite path is concatenated to the base, whatever the base. */
  lemma RebaseOrdinary(pathBase: string, path: string)
    requires !(RewritePrefix <= path)
    ensures Rebase(pathBase, path) == Some(pathBase + path)
  {
  }

  /** A registry mounted at the root receives rewrite paths unchanged. */
  lemma RebaseRootBase(path: string)
    requires RewritePrefix <= path
    ensures Rebase("/", path) == Some(path)
  {
  }

  /**
    * A registry mounted anywhere but `/` or `/registry` receives a rewrite path with its leading
    * `/registry` removed, so it starts with `/_design/app/_rewrite/`.
    */
  lemma RebaseOtherBase(pathBase: string, path: string)
    requires RewritePrefix <= path
    requires pathBase != "/" && pathBase != RegistryBase
    ensures Rebase(pathBase, path) == Some(path[|RegistryBase|..])
    ensures RegistryBase + Rebase(pathBase, path).value == path
    ensures "/_design/app/_rewrite/" <= Rebase(pathBase, path).value
  {
    assert RegistryBase <= RewritePrefix;
    assert path[..|RegistryBase|] == RewritePrefix[..|RegistryBase|] == RegistryBase;
    assert ReplaceFirst(path, RegistryBase, "") == "" + path[|RegistryBase|..];
    assert "" + path[|RegistryBase|..] == path[|RegistryBase|..];
    assert IndexOf(path, RewritePrefix) == 0;
    var rest := path[|RegistryBase|..];
    assert RegistryBase + rest == path;
    assert rest[..|"/_design/app/_rewrite/"|] == path[|RegistryBase|..|RewritePrefix|];
  }

  /**
    * The `'/registry' + path` branch never yields a result: whenever `Rebase` returns
    * `/registry` followed by the path, it did so by ordinary concatenation of a non-rewrite path.
    */
  lemma RebaseNeverPrepends(pathBase: string, path: string)
    requires RewritePrefix <= path
    ensures Rebase(pathBase, path) != Some(RegistryBase + path)
  {
    if pathBase != RegistryBase && pathBase != "/" {
      RebaseOtherBase(pathBase, path);
    }
  }
}
