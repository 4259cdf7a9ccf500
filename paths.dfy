/**
 * POSIX paths as sequences of names, and the destination name that fillmp3 gives
 * a copied file when it mirrors `depth` levels of the file's parent directories.
 *
 * A path is split on '/' into its non-empty names; whether it starts with '/' is
 * kept apart. Over that view `dirname` drops the last name, `basename` keeps only
 * the last name (none at all for a path without names, as `basename("/") == ""`),
 * and `join(a, b)` appends the names of `b` to those of `a` unless `b` is absolute.
 */
module Paths {

  /** One name of a path: not empty, no separator. */
  predicate IsName(s: string) {
    |s| > 0 && '/' !in s
  }

  datatype Path = Path(absolute: bool, names: seq<string>)

  predicate WellFormed(p: Path) {
    forall i :: 0 <= i < |p.names| ==> IsName(p.names[i])
  }

  /** The path without its last name (`os.path.dirname`). */
  function Dirname(p: Path): (r: Path)
    ensures r.absolute == p.absolute
    ensures |p.names| > 0 ==> |r.names| == |p.names| - 1 && forall i :: 0 <= i < |r.names| ==> r.names[i] == p.names[i]
    ensures |p.names| == 0 ==> r == p
  {
    if |p.names| == 0 then p else Path(p.absolute, p.names[..|p.names| - 1])
  }

  /** The last name of the path as a relative path (`os.path.basename`); empty when there is none. */
  function Basename(p: Path): (r: Path)
    ensures !r.absolute && |r.names| <= 1
    ensures |p.names| > 0 ==> r.names == [p.names[|p.names| - 1]]
    ensures |p.names| == 0 ==> r.names == []
  {
    Path(false, if |p.names| == 0 then [] else [p.names[|p.names| - 1]])
  }

  /** `os.path.join(a, b)`: an absolute `b` replaces `a`, otherwise its names follow those of `a`. */
  function Join(a: Path, b: Path): (r: Path)
    ensures b.absolute ==> r == b
    ensures !b.absolute ==> r.absolute == a.absolute && r.names == a.names + b.names
  {
    if b.absolute then b else Path(a.absolute, a.names + b.names)
  }

  // ---------------------------------------------------------------------------
  // Reading a path string into names and writing it back.

  /** Length of the name that starts `s`: everything before the first '/'. */
  function NameLength(s: string): (n: nat)
    ensures n <= |s|
    ensures forall k :: 0 <= k < n ==> s[k] != '/'
    ensures n < |s| ==> s[n] == '/'
  {
    if |s| == 0 || s[0] == '/' then 0 else 1 + NameLength(s[1..])
  }

  /** The non-empty pieces of `s` between separators, in order. */
  function Names(s: string): (r: seq<string>)
    ensures forall i :: 0 <= i < |r| ==> IsName(r[i])
    decreases |s|
  {
    if |s| == 0 then []
    else if s[0] == '/' then Names(s[1..])
    else
      var n := NameLength(s);
      [s[..n]] + Names(s[n..])
  }

  /** A path string read as a path: its names, and whether it starts at the root. */
  function ParsePath(s: string): (p: Path)
    ensures WellFormed(p)
    ensures p.absolute <==> |s| > 0 && s[0] == '/'
  {
    Path(|s| > 0 && s[0] == '/', Names(s))
  }

  /** The names joined by single separators. */
  function JoinNames(names: seq<string>): string
  {
    if |names| == 0 then ""
    else if |names| == 1 then names[0]
    else names[0] + "/" + JoinNames(names[1..])
  }

  /** The canonical string of a path: a leading '/' when absolute, then its names. */
  function Render(p: Path): string
  {
    (if p.absolute then "/" else "") + JoinNames(p.names)
  }

  lemma {:induction false} NameLengthOfName(name: string, rest: string)
    requires '/' !in name
    requires |rest| == 0 || rest[0] == '/'
    ensures NameLength(name + rest) == |name|
  {
    if |name| > 0 {
      assert (name + rest)[1..] == name[1..] + rest;
      NameLengthOfName(name[1..], rest);
    } else {
      assert name + rest == rest;
    }
  }

  lemma {:induction false} NamesOfJoinNames(names: seq<string>)
    requires forall i :: 0 <= i < |names| ==> IsName(names[i])
    ensures Names(JoinNames(names)) == names
  {
    if |names| == 1 {
      var s := names[0];
      NameLengthOfName(s, "");
      assert s + "" == s;
      assert s[|s|..] == "";
      assert s[..|s|] == s;
    } else if |names| > 1 {
      var rest := JoinNames(names[1..]);
      var s := names[0] + ("/" + rest);
      assert JoinNames(names) == s;
      NameLengthOfName(names[0], "/" + rest);
      assert s[..|names[0]|] == names[0];
      assert s[|names[0]|..] == "/" + rest;
      assert ("/" + rest)[1..] == rest;
      NamesOfJoinNames(names[1..]);
      assert [names[0]] + names[1..] == names;
    }
  }

  /** Writing a well-formed path and reading it back gives the same path. */
  lemma ParseRender(p: Path)
    requires WellFormed(p)
    ensures ParsePath(Render(p)) == p
  {
    var body := JoinNames(p.names);
    NamesOfJoinNames(p.names);
    if p.absolute {
      assert Render(p) == "/" + body;
      assert ("/" + body)[1..] == body;
    } else {
      assert Render(p) == body;
      if |p.names| > 0 {
        assert |p.names[0]| > 0 && '/' !in p.names[0];
        assert body[0] == p.names[0][0];
      }
    }
  }

  // ---------------------------------------------------------------------------
  // The destination name of a copied file.

  /** The last `k` elements of `s`: none when `k <= 0`, all of `s` when `k >= |s|`. */
  function LastN<T>(s: seq<T>, k: int): (r: seq<T>)
    ensures k <= 0 ==> r == []
    ensures 0 <= k <= |s| ==> |r| == k
    ensures k >= |s| ==> r == s
    ensures r == s[|s| - |r|..]
  {
    if k <= 0 then [] else if k >= |s| then s else s[|s| - k..]
  }

  /**
   * The destination name of `file` with context depth `depth`: the last `depth`
   * names of its parent directory, then its own name; always relative.
   */
  function TargetOf(file: Path, depth: int): Path
  {
    Path(false, LastN(Dirname(file).names, depth) + Basename(file).names)
  }

  /**
   * The loop at fillmp3.py:78-85: walks up the parent directory `depth` times,
   * putting each directory name in front of the context, then joins the file's name.
   */
  method TargetName(fileName: Path, depth: int) returns (target: Path)
    ensures target == TargetOf(fileName, depth)
  {
    var context := WalkContext(Dirname(fileName), depth);
    target := Join(context, Basename(fileName));
  }

  /** The `for` loop of fillmp3.py:81-83: the context collects the last `depth` names of `sourceName`. */
  method WalkContext(sourceName: Path, depth: int) returns (context: Path)
    ensures context == Path(false, LastN(sourceName.names, depth))
  {
    var parent := sourceName;
    ghost var dir := sourceName.names;
    ghost var taken := 0;
    context := Path(false, []);
    var i := 0;
    assert dir[|dir|..] == [] && dir[..|dir|] == dir;
    while i < depth
      invariant 0 <= i && (i == 0 || i <= depth)
      invariant taken == if i < |dir| then i else |dir|
      invariant context == Path(false, dir[|dir| - taken..])
      invariant parent == Path(sourceName.absolute, dir[..|dir| - taken])
    {
      WalkUp(sourceName.absolute, dir, taken);
      context := Join(Basename(parent), context);
      parent := Dirname(parent);
      i := i + 1;
      if taken < |dir| {
        taken := taken + 1;
      }
    }
    Collected(dir, i, depth, taken);
  }

  /** When the walk stops, the names it collected are the last `depth` names of the parent. */
  lemma Collected<T>(dir: seq<T>, i: int, depth: int, taken: int)
    requires 0 <= i && (i == 0 || i <= depth) && i >= depth
    requires taken == if i < |dir| then i else |dir|
    ensures 0 <= taken <= |dir| && dir[|dir| - taken..] == LastN(dir, depth)
  {
  }

  /**
   * One pass of the loop above, with `taken` names already collected: the last name
   * left in the parent moves to the front of the context; once the parent has no
   * names left, nothing changes.
   */
  lemma WalkUp(absolute: bool, dir: seq<string>, taken: nat)
    requires taken <= |dir|
    ensures var parent := Path(absolute, dir[..|dir| - taken]);
            var context := Path(false, dir[|dir| - taken..]);
            if taken < |dir| then
              Join(Basename(parent), context) == Path(false, dir[|dir| - taken - 1..]) &&
              Dirname(parent) == Path(absolute, dir[..|dir| - taken - 1])
            else
              Join(Basename(parent), context) == context && Dirname(parent) == parent
  {
    var n := |dir| - taken;
    var parent := dir[..n];
    if n > 0 {
      assert parent[n - 1] == dir[n - 1];
      assert parent[..n - 1] == dir[..n - 1];
      assert dir[n - 1..] == [dir[n - 1]] + dir[n..];
    }
  }

  /** The destination name is the file's own path with all but its last `depth` + 1 names removed. */
  lemma TargetIsSuffix(file: Path, depth: int)
    requires |file.names| > 0
    ensures var t := TargetOf(file, depth);
            !t.absolute && 1 <= |t.names| <= |file.names| &&
            (depth >= 0 ==> |t.names| <= depth + 1) &&
            t.names == file.names[|file.names| - |t.names|..]
  {
    var n := file.names;
    var dir := n[..|n| - 1];
    var ctx := LastN(dir, depth);
    assert ctx == dir[|dir| - |ctx|..];
    assert ctx + [n[|n| - 1]] == n[|n| - 1 - |ctx|..];
  }

  /** A depth of zero or less keeps only the file name: `range(0, depth)` is empty. */
  lemma ShallowTarget(file: Path, depth: int)
    requires depth <= 0
    ensures TargetOf(file, depth) == Basename(file)
  {
  }

  /** Depths beyond the number of parent directories add nothing. */
  lemma DeepTarget(file: Path, depth: int)
    requires depth >= |Dirname(file).names|
    ensures TargetOf(file, depth) == Path(false, file.names)
  {
    if |file.names| > 0 {
      assert Dirname(file).names + [file.names[|file.names| - 1]] == file.names;
    }
  }

  /** The path of the example below, `/music/Artist/Album/track.mp3`, by its names. */
  const ExampleTrack := Path(true, ["music", "Artist", "Album", "track.mp3"])

  lemma ExampleAlbum()
    ensures JoinNames(["Album", "track.mp3"]) == "Album/track.mp3"
  {
    assert JoinNames(["track.mp3"]) == "track.mp3";
  }

  lemma ExampleTail()
    ensures JoinNames(["Artist", "Album", "track.mp3"]) == "Artist/Album/track.mp3"
  {
    ExampleAlbum();
    assert ["Artist", "Album", "track.mp3"][1..] == ["Album", "track.mp3"];
  }

  /** `/music/Artist/Album/track.mp3` at depth 2 becomes `Artist/Album/track.mp3`, at depth 0 `track.mp3`. */
  lemma ExampleTargets()
    ensures Render(TargetOf(ExampleTrack, 2)) == "Artist/Album/track.mp3"
    ensures Render(TargetOf(ExampleTrack, 0)) == "track.mp3"
  {
    ExampleTail();
    assert TargetOf(ExampleTrack, 2) == Path(false, ["Artist", "Album", "track.mp3"]);
    assert TargetOf(ExampleTrack, 0) == Path(false, ["track.mp3"]);
  }
}
