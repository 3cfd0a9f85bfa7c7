/** Jenkins-style `@tmp`, `@libs` and `@script@libs` paths (`JenkinsPathResolver`). */
module RustlinePaths {
  import opened Strings

  /**
   * `Path::join` on text paths: an absolute `p` replaces the base, an empty
   * base gives `p`, otherwise a single '/' separates them. Paths are not
   * normalised.
   */
  function PathJoin(base: string, p: string): (r: string)
    ensures StartsWith(p, "/") ==> r == p
    ensures !StartsWith(p, "/") && base != "" ==> StartsWith(r, base)
  {
    if StartsWith(p, "/") then p
    else if base == "" then p
    else if base[|base| - 1] == '/' then base + p
    else base + "/" + p
  }

  datatype JenkinsPathResolver = JenkinsPathResolver(workspace: string, tmp: string, libs: string, scriptLibs: string)

  /** `JenkinsPathResolver::new`: the three directories under the workspace. */
  function NewResolver(workspace: string): (r: JenkinsPathResolver)
    ensures r.workspace == workspace
    ensures r.tmp == PathJoin(workspace, "@tmp") && r.libs == PathJoin(workspace, "@libs")
    ensures r.scriptLibs == PathJoin(workspace, "@script@libs")
  {
    JenkinsPathResolver(workspace, PathJoin(workspace, "@tmp"), PathJoin(workspace, "@libs"),
      PathJoin(workspace, "@script@libs"))
  }

  /**
   * `resolve`: the prefix chain "@tmp/", "@libs/", "@script@libs/", "@libs",
   * then any other '@' path (by what follows the '@'), then a workspace-relative path.
   */
  function Resolve(r: JenkinsPathResolver, path: string): string {
    if StartsWith(path, "@tmp/") then PathJoin(r.tmp, path[5..])
    else if StartsWith(path, "@libs/") then PathJoin(r.libs, path[6..])
    else if StartsWith(path, "@script@libs/") then PathJoin(r.scriptLibs, path[13..])
    else if StartsWith(path, "@libs") then PathJoin(r.libs, path[5..])
    else if StartsWith(path, "@") then
      var rest := path[1..];
      if StartsWith(rest, "tmp") then r.tmp
      else if StartsWith(rest, "libs") then r.libs
      else if StartsWith(rest, "script@libs") then r.scriptLibs
      else path
    else PathJoin(r.workspace, path)
  }

  /** `is_jenkins_path`. */
  predicate IsJenkinsPath(path: string) {
    StartsWith(path, "@tmp") || StartsWith(path, "@libs") || StartsWith(path, "@script@libs")
  }

  /** Joining in two steps or one gives the same path when neither part is absolute. */
  lemma JoinTwice(base: string, dir: string, p: string)
    requires dir != "" && !StartsWith(dir, "/") && !StartsWith(p, "/") && dir[|dir| - 1] != '/'
    ensures PathJoin(PathJoin(base, dir), p) == PathJoin(base, dir + "/" + p)
  {
    var d := PathJoin(base, dir);
    assert !StartsWith(dir + "/" + p, "/") by {
      assert (dir + "/" + p)[0] == dir[0];
    }
    if base == "" {
    } else if base[|base| - 1] == '/' {
      assert d[|d| - 1] == dir[|dir| - 1];
    } else {
      assert d[|d| - 1] == dir[|dir| - 1];
    }
  }

  /** Where `resolve` sends a path under each of the three special prefixes. */
  lemma ResolvePrefixed(r: JenkinsPathResolver, path: string)
    ensures StartsWith(path, "@tmp/") ==> Resolve(r, path) == PathJoin(r.tmp, path[5..])
    ensures StartsWith(path, "@libs/") ==> Resolve(r, path) == PathJoin(r.libs, path[6..])
    ensures StartsWith(path, "@script@libs/") ==> Resolve(r, path) == PathJoin(r.scriptLibs, path[13..])
  {
    if StartsWith(path, "@libs/") || StartsWith(path, "@script@libs/") {
      assert !StartsWith(path, "@tmp/") by { assert path[1] != 't'; }
    }
    if StartsWith(path, "@script@libs/") {
      assert !StartsWith(path, "@libs/") by { assert path[1] != 'l'; }
    }
  }

  /** "@tmp/x" lands where joining it to the workspace does. */
  lemma TmpUnderWorkspace(workspace: string, x: string)
    requires !StartsWith(x, "/")
    ensures Resolve(NewResolver(workspace), "@tmp/" + x) == PathJoin(workspace, "@tmp/" + x)
  {
    assert "@tmp" + "/" + x == "@tmp/" + x;
    SpecialUnder(workspace, "@tmp", x);
    ResolvePrefixed(NewResolver(workspace), "@tmp/" + x);
  }

  /** "@libs/x" lands where joining it to the workspace does. */
  lemma LibsUnderWorkspace(workspace: string, x: string)
    requires !StartsWith(x, "/")
    ensures Resolve(NewResolver(workspace), "@libs/" + x) == PathJoin(workspace, "@libs/" + x)
  {
    assert "@libs" + "/" + x == "@libs/" + x;
    SpecialUnder(workspace, "@libs", x);
    ResolvePrefixed(NewResolver(workspace), "@libs/" + x);
  }

  /** "@script@libs/x" lands where joining it to the workspace does. */
  lemma ScriptLibsUnderWorkspace(workspace: string, x: string)
    requires !StartsWith(x, "/")
    ensures Resolve(NewResolver(workspace), "@script@libs/" + x) == PathJoin(workspace, "@script@libs/" + x)
  {
    assert "@script@libs" + "/" + x == "@script@libs/" + x;
    SpecialUnder(workspace, "@script@libs", x);
    ResolvePrefixed(NewResolver(workspace), "@script@libs/" + x);
  }

  /** The join of `dir + "/" + x` to the workspace, taken apart at the '/'. */
  lemma SpecialUnder(workspace: string, dir: string, x: string)
    requires dir != "" && dir[0] == '@' && dir[|dir| - 1] != '/' && !StartsWith(x, "/")
    ensures var p := dir + "/" + x;
      StartsWith(p, dir + "/") && p[|dir| + 1..] == x
      && PathJoin(PathJoin(workspace, dir), x) == PathJoin(workspace, p)
  {
    var p := dir + "/" + x;
    assert p[..|dir| + 1] == dir + "/";
    assert p[|dir| + 1..] == x;
    assert !StartsWith(dir, "/") by { assert dir[..1][0] == '@'; }
    JoinTwice(workspace, dir, x);
  }

  /** A path not starting with '@' is relative to the workspace. */
  lemma PlainPathUnderWorkspace(r: JenkinsPathResolver, path: string)
    requires !StartsWith(path, "@")
    ensures Resolve(r, path) == PathJoin(r.workspace, path)
  {
    if |path| >= 4 { assert path[..1] == path[..4][..1]; }
    if |path| >= 5 { assert path[..1] == path[..5][..1]; }
    if |path| >= 6 { assert path[..1] == path[..6][..1]; }
    if |path| >= 13 { assert path[..1] == path[..13][..1]; }
  }

  /** Any path the resolver treats as special starts with '@', and every "@tmp…"/"@libs…" path is special. */
  lemma JenkinsPathShape(path: string)
    ensures IsJenkinsPath(path) ==> StartsWith(path, "@")
    ensures StartsWith(path, "@tmp/") || StartsWith(path, "@libs/") ==> IsJenkinsPath(path)
  {
    if StartsWith(path, "@tmp") || StartsWith(path, "@libs") || StartsWith(path, "@script@libs") {
      assert path[0] == '@';
    }
    if StartsWith(path, "@tmp/") { assert path[..4] == "@tmp"; }
    if StartsWith(path, "@libs/") { assert path[..5] == "@libs"; }
  }
}
