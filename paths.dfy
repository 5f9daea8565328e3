/** Host-path helpers: `joinPaths` (MountConfigUtils.ts), the last-segment rule used to derive a host path
    from a container path, and the post-install suffix rule `updateComfyUIPath`. */
module Paths {
  import opened Strings

  /** No two consecutive `/` characters. */
  predicate NoDoubleSlash(s: string) {
    forall i :: 0 <= i < |s| - 1 ==> !(s[i] == '/' && s[i + 1] == '/')
  }

  /** The characters of `s` other than `/`, in order. */
  function WithoutSlashes(s: string): string {
    if s == [] then [] else (if s[0] == '/' then [] else [s[0]]) + WithoutSlashes(s[1..])
  }

  /** `s.replace(/\/+/g, '/')`: every run of `/` becomes a single `/`. */
  function CollapseSlashes(s: string): string {
    if s == [] then []
    else if |s| >= 2 && s[0] == '/' && s[1] == '/' then CollapseSlashes(s[1..])
    else [s[0]] + CollapseSlashes(s[1..])
  }

  /** Collapsing leaves no `//`, drops only slashes, keeps the first character, and keeps a slash iff there was one. */
  lemma {:induction false} CollapseSlashesSpec(s: string)
    ensures NoDoubleSlash(CollapseSlashes(s))
    ensures WithoutSlashes(CollapseSlashes(s)) == WithoutSlashes(s)
    ensures ('/' in CollapseSlashes(s)) <==> ('/' in s)
    ensures s != [] ==> CollapseSlashes(s) != [] && CollapseSlashes(s)[0] == s[0]
  {
    if s != [] {
      CollapseSlashesSpec(s[1..]);
      var r := CollapseSlashes(s[1..]);
      if |s| >= 2 && s[0] == '/' && s[1] == '/' {
        assert WithoutSlashes(s) == WithoutSlashes(s[1..]);
        assert '/' in s[1..];
      } else {
        var c := [s[0]] + r;
        assert c[1..] == r;
        forall i | 0 <= i < |c| - 1 ensures !(c[i] == '/' && c[i + 1] == '/') {
          if i > 0 { assert c[i] == r[i - 1] && c[i + 1] == r[i]; }
          else if s[0] == '/' { assert |s| >= 2 ==> s[1] != '/'; }
        }
        assert WithoutSlashes(c) == (if s[0] == '/' then [] else [s[0]]) + WithoutSlashes(r);
        assert forall x :: x in c <==> x == s[0] || x in r;
        assert forall x :: x in s <==> x == s[0] || x in s[1..];
      }
    }
  }

  /** A string that already has no `//` is left as it is. */
  lemma {:induction false} CollapseSlashesIdentity(s: string)
    requires NoDoubleSlash(s)
    ensures CollapseSlashes(s) == s
  {
    if s != [] {
      assert NoDoubleSlash(s[1..]) by {
        forall i | 0 <= i < |s[1..]| - 1 ensures !(s[1..][i] == '/' && s[1..][i + 1] == '/') {
          assert s[1..][i] == s[i + 1] && s[1..][i + 1] == s[i + 2];
        }
      }
      CollapseSlashesIdentity(s[1..]);
      if |s| >= 2 { assert !(s[0] == '/' && s[1] == '/'); }
      assert [s[0]] + s[1..] == s;
    }
  }

  /** Collapsing twice is collapsing once. */
  lemma CollapseSlashesIdempotent(s: string)
    ensures CollapseSlashes(CollapseSlashes(s)) == CollapseSlashes(s)
  {
    CollapseSlashesSpec(s);
    CollapseSlashesIdentity(CollapseSlashes(s));
  }

  /** The separator `joinPaths` writes: `\` when the base path has one, `/` otherwise. */
  function Separator(basePath: string): char {
    if '\\' in basePath then '\\' else '/'
  }

  /** `joinPaths(basePath, subPath)`: join with `/`, collapse runs of `/`, then write every `/` as the
      separator chosen from the base path. `.` and `..` are not interpreted. */
  function JoinPaths(basePath: string, subPath: string): string {
    ReplaceChar(CollapseSlashes(basePath + "/" + subPath), '/', Separator(basePath))
  }

  /** With a backslash in the base path the result uses `\` only: it holds no `/`. */
  lemma JoinPathsWindows(basePath: string, subPath: string)
    requires '\\' in basePath
    ensures '/' !in JoinPaths(basePath, subPath)
    ensures |JoinPaths(basePath, subPath)| == |CollapseSlashes(basePath + "/" + subPath)|
  {
    var c := CollapseSlashes(basePath + "/" + subPath);
    assert forall i :: 0 <= i < |c| ==> ReplaceChar(c, '/', '\\')[i] != '/';
  }

  /** Without a backslash in the base path the result is `base + "/" + sub` with every run of `/`
      collapsed, so it never contains `//`; no character but `/` is dropped. */
  lemma JoinPathsPosix(basePath: string, subPath: string)
    requires '\\' !in basePath
    ensures JoinPaths(basePath, subPath) == CollapseSlashes(basePath + "/" + subPath)
    ensures NoDoubleSlash(JoinPaths(basePath, subPath))
    ensures WithoutSlashes(JoinPaths(basePath, subPath)) == WithoutSlashes(basePath + subPath)
  {
    var s := basePath + "/" + subPath;
    assert Separator(basePath) == '/';
    ReplaceSame(CollapseSlashes(s), '/');
    CollapseSlashesSpec(s);
    WithoutSlashesJoin(basePath, subPath);
  }

  /** The joining `/` is not among the characters `WithoutSlashes` keeps. */
  lemma WithoutSlashesJoin(a: string, b: string)
    ensures WithoutSlashes(a + "/" + b) == WithoutSlashes(a + b)
  {
    assert a + "/" + b == a + ("/" + b);
    WithoutSlashesAppend(a, "/" + b);
    assert ("/" + b)[1..] == b;
    assert WithoutSlashes("/" + b) == WithoutSlashes(b);
    WithoutSlashesAppend(a, b);
  }

  lemma ReplaceSame(s: string, c: char)
    ensures ReplaceChar(s, c, c) == s
  {
  }

  lemma {:induction false} WithoutSlashesAppend(a: string, b: string)
    ensures WithoutSlashes(a + b) == WithoutSlashes(a) + WithoutSlashes(b)
  {
    if a == [] {
      assert a + b == b;
    } else {
      var head := if a[0] == '/' then [] else [a[0]];
      assert (a + b)[0] == a[0];
      assert (a + b)[1..] == a[1..] + b;
      WithoutSlashesAppend(a[1..], b);
      assert WithoutSlashes(a + b) == head + WithoutSlashes(a[1..] + b);
      assert WithoutSlashes(a) == head + WithoutSlashes(a[1..]);
    }
  }

  /** `container_path.split('/').pop() || ''`: the text after the last `/`. */
  function LastSegment(path: string): (dir: string)
    ensures '/' !in dir
  {
    var parts := Split(path, '/');
    parts[|parts| - 1]
  }

  /** Splitting `a + "/" + b` splits `a` and `b` separately. */
  lemma {:induction false} SplitAround(a: string, b: string, sep: char)
    ensures Split(a + [sep] + b, sep) == Split(a, sep) + Split(b, sep)
  {
    if a == [] {
      assert [] + [sep] + b == [sep] + b;
      assert ([sep] + b)[1..] == b;
    } else {
      assert (a + [sep] + b)[1..] == a[1..] + [sep] + b;
      SplitAround(a[1..], b, sep);
    }
  }

  /** The last segment of `prefix + "/" + dir` is `dir` when `dir` holds no `/`. */
  lemma LastSegmentOfChild(prefix: string, dir: string)
    requires '/' !in dir
    ensures LastSegment(prefix + "/" + dir) == dir
  {
    SplitAround(prefix, dir, '/');
    SplitFree(dir, '/');
  }

  /** The last segment is a suffix of the path that is either all of it or follows a `/`. */
  lemma LastSegmentSuffix(path: string)
    ensures var d := LastSegment(path);
      |d| <= |path| && path[|path| - |d|..] == d && (|d| < |path| ==> path[|path| - |d| - 1] == '/')
  {
    var parts := Split(path, '/');
    var n := |parts|;
    JoinSplit(path, '/');
    if n > 1 {
      JoinLast(parts, '/');
    }
  }

  lemma {:induction false} JoinLast(parts: seq<string>, sep: char)
    requires |parts| > 1
    ensures Join(parts, sep) == Join(parts[..|parts| - 1], sep) + [sep] + parts[|parts| - 1]
  {
    if |parts| > 2 {
      JoinLast(parts[1..], sep);
      assert parts[1..][..|parts| - 2] == parts[..|parts| - 1][1..];
    }
  }

  /** `updateComfyUIPath` (CreateEnvironmentDialogCopy.tsx): after an install, the path gains a `ComfyUI`
      child written with `/` if the path has one (even if it also has `\`), with `\` if it has only `\`,
      and stays as it is if it has neither. */
  function UpdateComfyUIPath(path: string): (r: string)
    ensures '/' in path ==> r == path + "/ComfyUI"
    ensures '/' !in path && '\\' in path ==> r == path + "\\ComfyUI"
    ensures '/' !in path && '\\' !in path ==> r == path
  {
    if '/' in path then path + "/ComfyUI"
    else if '\\' in path then path + "\\ComfyUI"
    else path
  }

  /** The suffix rule agrees with `joinPaths(path, "ComfyUI")` on a Windows path and on a clean POSIX path
      (no `\`, no `//`, no trailing `/`). */
  lemma UpdateComfyUIPathIsJoin(path: string)
    requires ('\\' in path && '/' !in path)
          || ('/' in path && '\\' !in path && NoDoubleSlash(path) && path[|path| - 1] != '/')
    ensures UpdateComfyUIPath(path) == JoinPaths(path, "ComfyUI")
  {
    var child := "ComfyUI";
    assert '/' !in child by { assert forall i :: 0 <= i < |child| ==> child[i] != '/'; }
    JoinChild(path, child);
    if '/' in path {
      assert path + "/ComfyUI" == path + ['/'] + child;
    } else {
      assert path + "\\ComfyUI" == path + ['\\'] + child;
    }
  }

  /** Joining a child without `/` onto a Windows path or a clean POSIX path only adds the separator. */
  lemma JoinChild(path: string, child: string)
    requires '/' !in child
    requires ('\\' in path && '/' !in path)
          || (path != [] && '\\' !in path && NoDoubleSlash(path) && path[|path| - 1] != '/')
    ensures JoinPaths(path, child) == path + [Separator(path)] + child
  {
    var joined := path + "/" + child;
    if '/' !in path {
      assert NoDoubleSlash(path) && path[|path| - 1] != '/' by {
        assert forall i :: 0 <= i < |path| ==> path[i] in path;
      }
    }
    JoinedNoDoubleSlash(path, child);
    CollapseSlashesIdentity(joined);
    if '\\' in path {
      ReplaceJoinSlash(path, child);
    } else {
      ReplaceSame(joined, '/');
    }
  }

  /** Joining a clean path and a child without `/` makes no `//`. */
  lemma JoinedNoDoubleSlash(path: string, child: string)
    requires NoDoubleSlash(path) && path != [] && path[|path| - 1] != '/' && '/' !in child
    ensures NoDoubleSlash(path + "/" + child)
  {
    var joined := path + "/" + child;
    forall i | 0 <= i < |joined| - 1 ensures !(joined[i] == '/' && joined[i + 1] == '/') {
      if i < |path| - 1 { assert joined[i] == path[i] && joined[i + 1] == path[i + 1]; }
      else if i == |path| - 1 { assert joined[i] == path[i]; }
      else { assert joined[i + 1] == child[i - |path|]; assert child[i - |path|] in child; }
    }
  }

  /** Writing `/` as `\` in `path/child`, neither part holding `/`, touches only the joining slash. */
  lemma ReplaceJoinSlash(path: string, child: string)
    requires '/' !in path && '/' !in child
    ensures ReplaceChar(path + "/" + child, '/', '\\') == path + "\\" + child
  {
    var joined := path + "/" + child;
    var r := ReplaceChar(joined, '/', '\\');
    forall i | 0 <= i < |r| ensures r[i] == (path + "\\" + child)[i] {
      if i < |path| { assert joined[i] == path[i] && path[i] in path; }
      else if i > |path| { assert joined[i] == child[i - |path| - 1] && child[i - |path| - 1] in child; }
    }
  }

  /** On a path holding both separators the two rules disagree: the suffix rule writes `/`, `joinPaths`
      writes `\`. */
  lemma UpdateComfyUIPathMixed(path: string)
    requires '/' in path && '\\' in path
    ensures UpdateComfyUIPath(path)[|path|] == '/'
    ensures '/' !in JoinPaths(path, "ComfyUI")
  {
    JoinPathsWindows(path, "ComfyUI");
  }

  /** A doubled `/` collapses like a single one, wherever it stands. */
  lemma {:induction false} CollapseDouble(p: string, q: string)
    ensures CollapseSlashes(p + "//" + q) == CollapseSlashes(p + "/" + q)
  {
    if p == [] {
      assert p + "//" + q == "//" + q && p + "/" + q == "/" + q;
      assert ("//" + q)[1..] == "/" + q;
    } else {
      assert (p + "//" + q)[1..] == p[1..] + "//" + q;
      assert (p + "/" + q)[1..] == p[1..] + "/" + q;
      assert (p + "//" + q)[0] == (p + "/" + q)[0] == p[0];
      assert (p + "//" + q)[1] == (p + "/" + q)[1];
      CollapseDouble(p[1..], q);
    }
  }

  /** Worked examples: a POSIX join, a Windows join, and runs of `/` collapsed. */
  lemma JoinPathsPosixExample()
    ensures JoinPaths("/a/b", "c") == "/a/b/c"
  {
    var path := "/a/b";
    assert NoDoubleSlash(path) && '\\' !in path by {
      assert forall i :: 0 <= i < |path| ==> path[i] == ['/', 'a', '/', 'b'][i];
    }
    JoinChild(path, "c");
    assert path + ['/'] + "c" == "/a/b/c";
  }

  lemma JoinPathsWindowsExample()
    ensures JoinPaths("C:\\a\\b", "c") == "C:\\a\\b\\c"
  {
    var path := "C:\\a\\b";
    assert path[2] == '\\' && forall i :: 0 <= i < |path| ==> path[i] != '/';
    JoinChild(path, "c");
  }

  lemma JoinPathsCollapseExample()
    ensures JoinPaths("/a//b/", "c") == "/a/b/c"
  {
    assert "/a//b/" + "/" + "c" == "/a" + "//" + "b//c";
    CollapseDouble("/a", "b//c");
    assert "/a" + "/" + "b//c" == "/a/b" + "//" + "c";
    CollapseDouble("/a/b", "c");
    assert Separator("/a//b/") == '/' by {
      assert forall i :: 0 <= i < 6 ==> "/a//b/"[i] != '\\';
    }
    JoinPathsPosixExample();
  }
}
