/**
 * `parse_playlist` (fillmp3.py:99-110): every line that does not start with '#'
 * names a file; the loader records each file's size under its path.
 *
 * Turning a stripped line into a filesystem path (`urlparse(...).path` then
 * `unquote`) is the parameter `resolve`, and `os.stat(...).st_size` is the
 * parameter `stat`, which answers None for a path that cannot be stat'd.
 */
module Playlist {
  import opened Wrappers
  import opened Text

  /** Why loading stops; the script does not catch either. */
  datatype LoadError =
    | EmptyLine(index: nat)  // `line[0]` on an empty line raises IndexError
    | Missing(path: string)  // `os.stat` raises FileNotFoundError

  /** A line the loader gets past: a comment, or one whose path can be stat'd. */
  predicate LineLoads(line: string, resolve: string -> string, stat: string -> Option<nat>) {
    |line| > 0 && (line[0] == '#' || stat(resolve(Strip(line))).Some?)
  }

  /** Every one of the first `n` lines loads. */
  predicate AllLoad(lines: seq<string>, n: nat, resolve: string -> string, stat: string -> Option<nat>)
    requires n <= |lines|
  {
    forall j :: 0 <= j < n ==> LineLoads(lines[j], resolve, stat)
  }

  /** How a line that does not load stops the loader. */
  function LineError(index: nat, line: string, resolve: string -> string, stat: string -> Option<nat>): LoadError
    requires !LineLoads(line, resolve, stat)
  {
    if |line| == 0 then EmptyLine(index) else Missing(resolve(Strip(line)))
  }

  /** The paths named by the non-comment lines among the first `n`. */
  function Listed(lines: seq<string>, n: nat, resolve: string -> string): set<string>
    requires n <= |lines|
  {
    set j | 0 <= j < n && |lines[j]| > 0 && lines[j][0] != '#' :: resolve(Strip(lines[j]))
  }

  lemma ListedStep(lines: seq<string>, n: nat, resolve: string -> string)
    requires n < |lines|
    ensures Listed(lines, n + 1, resolve) ==
            if |lines[n]| > 0 && lines[n][0] != '#' then Listed(lines, n, resolve) + {resolve(Strip(lines[n]))}
            else Listed(lines, n, resolve)
  {
    var later := Listed(lines, n + 1, resolve);
    var earlier := Listed(lines, n, resolve);
    forall p | p in later ensures p in earlier || (|lines[n]| > 0 && lines[n][0] != '#' && p == resolve(Strip(lines[n]))) {
      var j :| 0 <= j < n + 1 && |lines[j]| > 0 && lines[j][0] != '#' && p == resolve(Strip(lines[j]));
      if j < n {
        assert p in earlier;
      }
    }
  }

  /** The loader's result after the first `n` lines: what the loop's `files` holds, or the error it stopped on. */
  function Loaded(lines: seq<string>, n: nat, resolve: string -> string, stat: string -> Option<nat>)
    : Result<map<string, nat>, LoadError>
    requires n <= |lines|
  {
    if n == 0 then Success(map[])
    else
      match Loaded(lines, n - 1, resolve, stat)
      case Failure(e) => Failure(e)
      case Success(files) =>
        var line := lines[n - 1];
        if |line| == 0 then Failure(EmptyLine(n - 1))
        else if line[0] == '#' then Success(files)
        else
          var path := resolve(Strip(line));
          match stat(path)
          case None => Failure(Missing(path))
          case Some(size) => Success(files[path := size])
  }

  /** Loading the first `n` lines succeeds exactly when every one of them loads. */
  lemma {:induction false} LoadedSucceeds(lines: seq<string>, n: nat, resolve: string -> string, stat: string -> Option<nat>)
    requires n <= |lines|
    ensures Loaded(lines, n, resolve, stat).Success? <==> AllLoad(lines, n, resolve, stat)
  {
    if n > 0 {
      LoadedSucceeds(lines, n - 1, resolve, stat);
      if !AllLoad(lines, n - 1, resolve, stat) {
        var i :| 0 <= i < n - 1 && !LineLoads(lines[i], resolve, stat);
        assert !LineLoads(lines[i], resolve, stat);
      }
    }
  }

  /** A successful load maps the paths of the non-comment lines, and only those, to their sizes. */
  lemma {:induction false} LoadedContents(lines: seq<string>, n: nat, resolve: string -> string, stat: string -> Option<nat>)
    requires n <= |lines|
    requires Loaded(lines, n, resolve, stat).Success?
    ensures var files := Loaded(lines, n, resolve, stat).value;
            files.Keys == Listed(lines, n, resolve) && forall p :: p in files ==> stat(p) == Some(files[p])
  {
    if n > 0 {
      LoadedContents(lines, n - 1, resolve, stat);
      ListedStep(lines, n - 1, resolve);
    }
  }

  /** A failed load reports the error of the first line that does not load. */
  lemma {:induction false} LoadedFailure(lines: seq<string>, n: nat, resolve: string -> string, stat: string -> Option<nat>)
    requires n <= |lines|
    requires Loaded(lines, n, resolve, stat).Failure?
    ensures exists i :: 0 <= i < n && AllLoad(lines, i, resolve, stat) && !LineLoads(lines[i], resolve, stat) &&
              Loaded(lines, n, resolve, stat).error == LineError(i, lines[i], resolve, stat)
  {
    if Loaded(lines, n - 1, resolve, stat).Failure? {
      LoadedFailure(lines, n - 1, resolve, stat);
    } else {
      LoadedSucceeds(lines, n - 1, resolve, stat);
      var i := n - 1;
      assert AllLoad(lines, i, resolve, stat) && !LineLoads(lines[i], resolve, stat);
    }
  }

  /**
   * What loading the first `n` lines means: it succeeds exactly when every one of
   * them loads, and then maps the paths of the non-comment lines to their sizes;
   * otherwise it reports the error of the first line that does not load.
   */
  lemma LoadedMeaning(lines: seq<string>, n: nat, resolve: string -> string, stat: string -> Option<nat>)
    requires n <= |lines|
    ensures Loaded(lines, n, resolve, stat).Success? <==> AllLoad(lines, n, resolve, stat)
    ensures Loaded(lines, n, resolve, stat).Success? ==>
              var files := Loaded(lines, n, resolve, stat).value;
              files.Keys == Listed(lines, n, resolve) && forall p :: p in files ==> stat(p) == Some(files[p])
    ensures Loaded(lines, n, resolve, stat).Failure? ==>
              exists i :: 0 <= i < n && AllLoad(lines, i, resolve, stat) && !LineLoads(lines[i], resolve, stat) &&
                Loaded(lines, n, resolve, stat).error == LineError(i, lines[i], resolve, stat)
  {
    LoadedSucceeds(lines, n, resolve, stat);
    if Loaded(lines, n, resolve, stat).Success? {
      LoadedContents(lines, n, resolve, stat);
    } else {
      LoadedFailure(lines, n, resolve, stat);
    }
  }

  /** The loop of `parse_playlist`: it ends with `Loaded` of all the lines (see LoadedMeaning). */
  method ParsePlaylist(lines: seq<string>, resolve: string -> string, stat: string -> Option<nat>)
    returns (r: Result<map<string, nat>, LoadError>)
    ensures r == Loaded(lines, |lines|, resolve, stat)
  {
    var files: map<string, nat> := map[];
    var i := 0;
    while i < |lines|
      invariant 0 <= i <= |lines|
      invariant Loaded(lines, i, resolve, stat) == Success(files)
    {
      var line := lines[i];
      if |line| == 0 {
        r := Failure(EmptyLine(i));
        StaysFailed(lines, i + 1, |lines|, resolve, stat);
        return;
      }
      if line[0] == '#' {
        i := i + 1;
        continue;
      }
      var fileName := resolve(Strip(line));
      var size := stat(fileName);
      if size.None? {
        r := Failure(Missing(fileName));
        StaysFailed(lines, i + 1, |lines|, resolve, stat);
        return;
      }
      files := files[fileName := size.value];
      i := i + 1;
    }
    return Success(files);
  }

  /** Once a line has stopped the loader, later lines change nothing. */
  lemma {:induction false} StaysFailed(lines: seq<string>, m: nat, n: nat, resolve: string -> string, stat: string -> Option<nat>)
    requires m <= n <= |lines|
    requires Loaded(lines, m, resolve, stat).Failure?
    ensures Loaded(lines, n, resolve, stat) == Loaded(lines, m, resolve, stat)
    decreases n - m
  {
    if m < n {
      StaysFailed(lines, m, n - 1, resolve, stat);
    }
  }
}
