/**
 * `fill` (fillmp3.py:51-96): draw files at random from the playlist without
 * putting them back, and accept each one that still fits the byte budget, until
 * the item count runs out, the playlist is used up, or an oversized file is drawn
 * once too often in a row.
 *
 * The random draw is an arbitrary key of the remaining map: `Next` and
 * `Selector.Step` take it as a parameter that must be a key, `Selector.Run` picks
 * it with `:|`, so every property below holds whatever the draws are.
 */
module Fill {
  import opened Wrappers
  import opened Paths
  import SizeParser
  import Playlist

  /** A file the run accepted: the path it is copied from and its name under the target directory. */
  datatype Entry = Entry(source: string, target: Path)

  /** What became of one draw: accepted, skipped as too large (`tries += 1`), or the `break`. */
  datatype Outcome = Accepted | Skipped | Stopped

  /** One draw: the path taken out of `files`, its size, and its outcome. */
  datatype Draw = Draw(path: string, size: nat, outcome: Outcome)

  /** What the loop reads but never changes: `args.try_small` and `args.context`. */
  datatype Settings = Settings(tryLimit: int, depth: int)

  /**
   * The loop's variables: `files`, `space_left`, `files_left`, `tries`, the
   * accepted entries in the order they were printed and copied, and the history
   * of draws, which the script does not keep but which states what it did.
   */
  datatype State = State(files: map<string, nat>, spaceLeft: int, filesLeft: int, tries: int,
                         chosen: seq<Entry>, log: seq<Draw>)

  /** The destination of a source path (fillmp3.py:78-85). */
  function Target(source: string, depth: int): Path {
    TargetOf(ParsePath(source), depth)
  }

  /** The state before the first draw: all of the playlist, the whole budget and item count, no misses. */
  function Start(files: map<string, nat>, budget: int, number: int): State {
    State(files, budget, number, 0, [], [])
  }

  /** The last draw hit the `break`. */
  predicate Halted(s: State) {
    |s.log| > 0 && s.log[|s.log| - 1].outcome == Stopped
  }

  /** The loop goes on: `files_left != 0 and len(files) > 0`, and no `break` yet. */
  predicate Running(s: State) {
    s.filesLeft != 0 && |s.files| > 0 && !Halted(s)
  }

  /** One pass of the loop body with `choice` as the drawn key (fillmp3.py:66-93). */
  function Next(cfg: Settings, s: State, choice: string): State
    requires choice in s.files
  {
    var size := s.files[choice];
    var files := s.files - {choice};
    if size > s.spaceLeft then
      if s.tries >= cfg.tryLimit then
        s.(files := files, log := s.log + [Draw(choice, size, Stopped)])
      else
        s.(files := files, tries := s.tries + 1, log := s.log + [Draw(choice, size, Skipped)])
    else
      State(files, s.spaceLeft - size, s.filesLeft - 1, 0,
            s.chosen + [Entry(choice, Target(choice, cfg.depth))], s.log + [Draw(choice, size, Accepted)])
  }

  // ---------------------------------------------------------------------------
  // Summaries of the history of draws, each defined draw by draw.

  /** Every path drawn so far. */
  function Drawn(log: seq<Draw>): set<string> {
    if |log| == 0 then {} else Drawn(log[..|log| - 1]) + {log[|log| - 1].path}
  }

  /** The bytes charged so far: the sizes of the accepted draws. */
  function AcceptedSize(log: seq<Draw>): int {
    if |log| == 0 then 0
    else AcceptedSize(log[..|log| - 1]) + (if log[|log| - 1].outcome == Accepted then log[|log| - 1].size else 0)
  }

  /** The entries the accepted draws produced, in the order of the draws. */
  function AcceptedEntries(log: seq<Draw>, depth: int): seq<Entry> {
    if |log| == 0 then []
    else
      var last := log[|log| - 1];
      AcceptedEntries(log[..|log| - 1], depth) +
        (if last.outcome == Accepted then [Entry(last.path, Target(last.path, depth))] else [])
  }

  /** How many oversized draws were skipped since the last acceptance. */
  function TrailingSkips(log: seq<Draw>): nat {
    if |log| == 0 then 0
    else match log[|log| - 1].outcome
      case Accepted => 0
      case Skipped => TrailingSkips(log[..|log| - 1]) + 1
      case Stopped => TrailingSkips(log[..|log| - 1])
  }

  function Max0(x: int): nat {
    if x < 0 then 0 else x
  }

  /** The total size, in `files`, of the sources of `chosen`. */
  function ChosenSize(files: map<string, nat>, chosen: seq<Entry>): int {
    if |chosen| == 0 then 0
    else
      var last := chosen[|chosen| - 1].source;
      ChosenSize(files, chosen[..|chosen| - 1]) + (if last in files then files[last] else 0)
  }

  /** The paths of the accepted draws. */
  function AcceptedPaths(log: seq<Draw>): set<string> {
    if |log| == 0 then {}
    else AcceptedPaths(log[..|log| - 1]) + (if log[|log| - 1].outcome == Accepted then {log[|log| - 1].path} else {})
  }

  /** The paths of the draws that were skipped or hit the `break`. */
  function Rejected(log: seq<Draw>): set<string> {
    if |log| == 0 then {}
    else Rejected(log[..|log| - 1]) + (if log[|log| - 1].outcome == Accepted then {} else {log[|log| - 1].path})
  }

  /** The source paths of `chosen`. */
  function Sources(chosen: seq<Entry>): set<string> {
    if |chosen| == 0 then {} else Sources(chosen[..|chosen| - 1]) + {chosen[|chosen| - 1].source}
  }

  /** Every draw that was not accepted is larger than `space`. */
  predicate MissesExceed(log: seq<Draw>, space: int) {
    |log| == 0 ||
    ((log[|log| - 1].outcome != Accepted ==> log[|log| - 1].size > space) && MissesExceed(log[..|log| - 1], space))
  }

  /** Each draw is a playlist entry not drawn before, with its original size (see DrawnOnce). */
  ghost predicate DrawsFrom(files0: map<string, nat>, log: seq<Draw>) {
    |log| == 0 ||
    (var init := log[..|log| - 1];
     var last := log[|log| - 1];
     DrawsFrom(files0, init) && last.path !in Drawn(init) && last.path in files0 && files0[last.path] == last.size)
  }

  /** None of the draws hit the `break`. */
  predicate NoStops(log: seq<Draw>) {
    |log| == 0 || (log[|log| - 1].outcome != Stopped && NoStops(log[..|log| - 1]))
  }

  /** At no point of the history had more than `limit` draws in a row been skipped. */
  predicate SkipsWithin(log: seq<Draw>, limit: nat) {
    |log| == 0 || (TrailingSkips(log) <= limit && SkipsWithin(log[..|log| - 1], limit))
  }

  /**
   * The loop's variables are what the draws account for: `files` is the playlist
   * minus what was drawn, and the entries, the budget, the item count and the miss
   * counter follow from the accepted and skipped draws.
   */
  ghost predicate Accounts(cfg: Settings, files0: map<string, nat>, budget: int, number: int, s: State) {
    && s.files == files0 - Drawn(s.log)
    && |s.files| + |s.log| == |files0|
    && s.chosen == AcceptedEntries(s.log, cfg.depth)
    && s.spaceLeft == budget - AcceptedSize(s.log)
    && s.filesLeft == number - |s.chosen|
    && s.tries == TrailingSkips(s.log)
  }

  /**
   * Only the last draw can be the `break`; the budget and the item count stay
   * non-negative when they start so; no run of misses was ever longer than the
   * limit; every file that was drawn and not copied is too large for what is left.
   */
  ghost predicate Bounded(cfg: Settings, budget: int, number: int, s: State) {
    && (|s.log| == 0 || NoStops(s.log[..|s.log| - 1]))
    && (budget >= 0 ==> s.spaceLeft >= 0)
    && (number >= 0 ==> s.filesLeft >= 0)
    && SkipsWithin(s.log, Max0(cfg.tryLimit))
    && MissesExceed(s.log, s.spaceLeft)
  }

  /** What holds of every state the loop reaches from `Start(files0, budget, number)`. */
  ghost predicate Reachable(cfg: Settings, files0: map<string, nat>, budget: int, number: int, s: State) {
    DrawsFrom(files0, s.log) && Accounts(cfg, files0, budget, number, s) && Bounded(cfg, budget, number, s)
  }

  lemma StartReachable(cfg: Settings, files0: map<string, nat>, budget: int, number: int)
    ensures Reachable(cfg, files0, budget, number, Start(files0, budget, number))
  {
    assert files0 - Drawn([]) == files0;
  }

  /** The summaries of a history with one more draw. */
  lemma SummariesAppend(log: seq<Draw>, d: Draw, depth: int)
    ensures Drawn(log + [d]) == Drawn(log) + {d.path}
    ensures AcceptedSize(log + [d]) == AcceptedSize(log) + (if d.outcome == Accepted then d.size else 0)
    ensures AcceptedEntries(log + [d], depth) ==
              AcceptedEntries(log, depth) + (if d.outcome == Accepted then [Entry(d.path, Target(d.path, depth))] else [])
    ensures TrailingSkips(log + [d]) ==
              match d.outcome
              case Accepted => 0
              case Skipped => TrailingSkips(log) + 1
              case Stopped => TrailingSkips(log)
  {
    assert (log + [d])[..|log|] == log;
  }

  /** The draw's history gains one draw: `choice` with its size and the outcome `Next` gives it. */
  lemma NextDraw(cfg: Settings, s: State, choice: string)
    requires choice in s.files
    ensures var t := Next(cfg, s, choice);
            && |t.log| == |s.log| + 1
            && t.log == s.log + [t.log[|s.log|]]
            && t.log[|s.log|].path == choice && t.log[|s.log|].size == s.files[choice]
            && t.files == s.files - {choice}
  {
  }

  /** A draw of a key still in `files`, with its size, keeps the draws fresh. */
  lemma AppendKeepsFresh(files0: map<string, nat>, files: map<string, nat>, log: seq<Draw>, d: Draw)
    requires DrawsFrom(files0, log) && files == files0 - Drawn(log)
    requires d.path in files && d.size == files[d.path]
    ensures DrawsFrom(files0, log + [d])
  {
    assert (log + [d])[..|log|] == log;
  }

  /** Drawing a key that is still in `files` keeps `files` the undrawn rest of the playlist. */
  lemma AppendKeepsRest(files0: map<string, nat>, files: map<string, nat>, log: seq<Draw>, d: Draw)
    requires files == files0 - Drawn(log) && |files| + |log| == |files0|
    requires d.path in files
    ensures files - {d.path} == files0 - Drawn(log + [d])
    ensures |files - {d.path}| + |log + [d]| == |files0|
  {
    assert (log + [d])[..|log|] == log;
    assert (files - {d.path}).Keys == files.Keys - {d.path};
  }

  lemma NextKeepsDraws(cfg: Settings, files0: map<string, nat>, s: State, choice: string)
    requires DrawsFrom(files0, s.log) && s.files == files0 - Drawn(s.log) && |s.files| + |s.log| == |files0|
    requires choice in s.files
    ensures var t := Next(cfg, s, choice);
            DrawsFrom(files0, t.log) && t.files == files0 - Drawn(t.log) && |t.files| + |t.log| == |files0|
  {
    var t := Next(cfg, s, choice);
    NextDraw(cfg, s, choice);
    AppendKeepsFresh(files0, s.files, s.log, t.log[|s.log|]);
    AppendKeepsRest(files0, s.files, s.log, t.log[|s.log|]);
  }

  /** The accepted entries and the item count follow the draw. */
  lemma NextKeepsEntries(cfg: Settings, number: int, s: State, choice: string)
    requires s.chosen == AcceptedEntries(s.log, cfg.depth) && s.filesLeft == number - |s.chosen|
    requires choice in s.files
    ensures var t := Next(cfg, s, choice);
            t.chosen == AcceptedEntries(t.log, cfg.depth) && t.filesLeft == number - |t.chosen|
  {
    var t := Next(cfg, s, choice);
    NextDraw(cfg, s, choice);
    SummariesAppend(s.log, t.log[|s.log|], cfg.depth);
  }

  /** The bytes charged and the miss counter follow the draw. */
  lemma NextKeepsCharges(cfg: Settings, budget: int, s: State, choice: string)
    requires s.spaceLeft == budget - AcceptedSize(s.log) && s.tries == TrailingSkips(s.log)
    requires choice in s.files
    ensures var t := Next(cfg, s, choice);
            t.spaceLeft == budget - AcceptedSize(t.log) && t.tries == TrailingSkips(t.log)
  {
    var t := Next(cfg, s, choice);
    NextDraw(cfg, s, choice);
    SummariesAppend(s.log, t.log[|s.log|], cfg.depth);
  }

  lemma NextKeepsAccounts(cfg: Settings, files0: map<string, nat>, budget: int, number: int, s: State, choice: string)
    requires Accounts(cfg, files0, budget, number, s) && DrawsFrom(files0, s.log)
    requires choice in s.files
    ensures Accounts(cfg, files0, budget, number, Next(cfg, s, choice))
  {
    NextKeepsDraws(cfg, files0, s, choice);
    NextKeepsEntries(cfg, number, s, choice);
    NextKeepsCharges(cfg, budget, s, choice);
  }

  lemma NextKeepsBounds(cfg: Settings, files0: map<string, nat>, budget: int, number: int, s: State, choice: string)
    requires Accounts(cfg, files0, budget, number, s) && Bounded(cfg, budget, number, s) && Running(s)
    requires choice in s.files
    ensures Bounded(cfg, budget, number, Next(cfg, s, choice))
  {
    var t := Next(cfg, s, choice);
    NextDraw(cfg, s, choice);
    SummariesAppend(s.log, t.log[|s.log|], cfg.depth);
    assert t.log[..|t.log| - 1] == s.log;
    NextKeepsMisses(cfg, s, choice);
  }

  /** Lowering the space left keeps every missed draw too large. */
  lemma {:induction false} MissesExceedLower(log: seq<Draw>, space: int, lower: int)
    requires MissesExceed(log, space) && lower <= space
    ensures MissesExceed(log, lower)
  {
    if |log| > 0 {
      MissesExceedLower(log[..|log| - 1], space, lower);
    }
  }

  /** A pass only ever lowers `space_left`, and a draw it does not copy is larger than `space_left`. */
  lemma NextKeepsMisses(cfg: Settings, s: State, choice: string)
    requires MissesExceed(s.log, s.spaceLeft) && choice in s.files
    ensures var t := Next(cfg, s, choice); MissesExceed(t.log, t.spaceLeft)
  {
    var t := Next(cfg, s, choice);
    NextDraw(cfg, s, choice);
    MissesExceedLower(s.log, s.spaceLeft, t.spaceLeft);
    assert t.log[..|s.log|] == s.log;
  }

  /** Each pass of the loop body keeps `Reachable`, and the drawn key leaves `files`. */
  lemma NextReachable(cfg: Settings, files0: map<string, nat>, budget: int, number: int, s: State, choice: string)
    requires Reachable(cfg, files0, budget, number, s) && Running(s) && choice in s.files
    ensures Reachable(cfg, files0, budget, number, Next(cfg, s, choice))
    ensures Next(cfg, s, choice).files == s.files - {choice}
  {
    NextKeepsDraws(cfg, files0, s, choice);
    NextKeepsAccounts(cfg, files0, budget, number, s, choice);
    NextKeepsBounds(cfg, files0, budget, number, s, choice);
  }

  /** The drawn key leaves `files`, so `|files|` falls by one on every pass and the loop ends. */
  lemma NextShrinks(cfg: Settings, s: State, choice: string)
    requires choice in s.files
    ensures |Next(cfg, s, choice).files| == |s.files| - 1
  {
    assert |s.files - {choice}| == |s.files| - 1 by {
      assert (s.files - {choice}).Keys == s.files.Keys - {choice};
    }
  }

  /** The state after a pass of the loop body is reachable and has one file fewer. */
  lemma StepReachable(cfg: Settings, files0: map<string, nat>, budget: int, number: int, s: State, choice: string, t: State)
    requires Reachable(cfg, files0, budget, number, s) && Running(s) && choice in s.files
    requires t == Next(cfg, s, choice)
    ensures Reachable(cfg, files0, budget, number, t)
    ensures |t.files| < |s.files|
  {
    NextReachable(cfg, files0, budget, number, s, choice);
    NextShrinks(cfg, s, choice);
  }

  /**
   * The three ways a pass ends: an oversized draw stops the run once the misses
   * reach the limit and is skipped before that, counting one more miss in `tries`
   * and changing nothing else but `files` and the history; a draw that fits is charged and accepted.
   */
  lemma NextCases(cfg: Settings, s: State, choice: string)
    requires choice in s.files
    ensures var t := Next(cfg, s, choice);
            && t.files == s.files - {choice}
            && (Halted(t) <==> s.files[choice] > s.spaceLeft && s.tries >= cfg.tryLimit)
            && (t.log[|s.log|].outcome == Skipped <==> s.files[choice] > s.spaceLeft && s.tries < cfg.tryLimit)
            && (t.log[|s.log|].outcome == Skipped ==> t.tries == s.tries + 1)
            && (s.files[choice] > s.spaceLeft ==>
                  t.spaceLeft == s.spaceLeft && t.filesLeft == s.filesLeft && t.chosen == s.chosen)
            && (s.files[choice] <= s.spaceLeft ==>
                  t.spaceLeft == s.spaceLeft - s.files[choice] && t.filesLeft == s.filesLeft - 1 && t.tries == 0 &&
                  t.chosen == s.chosen + [Entry(choice, Target(choice, cfg.depth))])
  {
  }

  // ---------------------------------------------------------------------------
  // What the invariant says about the history and the run's output.

  lemma {:induction false} DrawnHas(log: seq<Draw>)
    ensures forall i :: 0 <= i < |log| ==> log[i].path in Drawn(log)
  {
    if |log| > 0 {
      DrawnHas(log[..|log| - 1]);
    }
  }

  /** The history of any reachable state draws no path twice, and only playlist entries with their sizes. */
  lemma {:induction false} DrawnOnce(files0: map<string, nat>, log: seq<Draw>)
    requires DrawsFrom(files0, log)
    ensures forall i, j :: 0 <= i < j < |log| ==> log[i].path != log[j].path
    ensures forall i :: 0 <= i < |log| ==> log[i].path in files0 && files0[log[i].path] == log[i].size
    ensures forall p :: p in Drawn(log) ==> p in files0
  {
    if |log| > 0 {
      var init := log[..|log| - 1];
      DrawnOnce(files0, init);
      DrawnHas(init);
      forall i, j | 0 <= i < j < |log| ensures log[i].path != log[j].path {
        assert log[i] == init[i];
        if j < |init| {
          assert log[j] == init[j];
        }
      }
      forall i | 0 <= i < |log| ensures log[i].path in files0 && files0[log[i].path] == log[i].size {
        if i < |init| {
          assert log[i] == init[i];
        }
      }
    }
  }

  /** Only the last draw of a reachable state's history can be the `break`. */
  lemma {:induction false} NoStopsMeaning(log: seq<Draw>)
    ensures NoStops(log) <==> forall i :: 0 <= i < |log| ==> log[i].outcome != Stopped
  {
    if |log| > 0 {
      var init := log[..|log| - 1];
      NoStopsMeaning(init);
      assert forall i :: 0 <= i < |init| ==> init[i] == log[i];
    }
  }

  /** Every accepted entry comes from a draw and carries its own destination. */
  lemma {:induction false} AcceptedFromDraws(log: seq<Draw>, depth: int)
    ensures var chosen := AcceptedEntries(log, depth);
            forall k :: 0 <= k < |chosen| ==>
              chosen[k].source in Drawn(log) && chosen[k].target == Target(chosen[k].source, depth)
  {
    if |log| > 0 {
      var init := log[..|log| - 1];
      var last := log[|log| - 1];
      AcceptedFromDraws(init, depth);
      assert init + [last] == log;
      SummariesAppend(init, last, depth);
    }
  }

  /** Paths drawn at most once give accepted entries with distinct sources. */
  lemma {:induction false} AcceptedDistinct(files0: map<string, nat>, log: seq<Draw>, depth: int)
    requires DrawsFrom(files0, log)
    ensures var chosen := AcceptedEntries(log, depth);
            forall k, m :: 0 <= k < m < |chosen| ==> chosen[k].source != chosen[m].source
  {
    if |log| > 0 {
      var init := log[..|log| - 1];
      var last := log[|log| - 1];
      AcceptedDistinct(files0, init, depth);
      AcceptedFromDraws(init, depth);
      assert init + [last] == log;
      SummariesAppend(init, last, depth);
    }
  }

  /** The bytes charged are the playlist sizes of the accepted entries. */
  lemma {:induction false} AcceptedSizeIsChosenSize(files0: map<string, nat>, log: seq<Draw>, depth: int)
    requires DrawsFrom(files0, log)
    ensures ChosenSize(files0, AcceptedEntries(log, depth)) == AcceptedSize(log)
  {
    if |log| > 0 {
      var init := log[..|log| - 1];
      var last := log[|log| - 1];
      AcceptedSizeIsChosenSize(files0, init, depth);
      assert init + [last] == log;
      SummariesAppend(init, last, depth);
      var before := AcceptedEntries(init, depth);
      var chosen := AcceptedEntries(log, depth);
      if last.outcome == Accepted {
        assert chosen[..|chosen| - 1] == before;
        assert chosen[|chosen| - 1].source == last.path;
      } else {
        assert chosen == before;
      }
    }
  }

  /**
   * The accepted files of any reachable state: distinct playlist entries, each
   * with its own destination, together no larger than a non-negative budget and
   * no more than a non-negative item count; a negative count is never used up.
   */
  lemma ChosenWithinLimits(cfg: Settings, files0: map<string, nat>, budget: int, number: int, s: State)
    requires Reachable(cfg, files0, budget, number, s)
    ensures forall k :: 0 <= k < |s.chosen| ==>
              s.chosen[k].source in files0 && s.chosen[k].target == Target(s.chosen[k].source, cfg.depth)
    ensures forall k, m :: 0 <= k < m < |s.chosen| ==> s.chosen[k].source != s.chosen[m].source
    ensures budget >= 0 ==> 0 <= s.spaceLeft && ChosenSize(files0, s.chosen) == budget - s.spaceLeft <= budget
    ensures number >= 0 ==> |s.chosen| <= number
    ensures number < 0 ==> s.filesLeft < 0
  {
    DrawnOnce(files0, s.log);
    AcceptedFromDraws(s.log, cfg.depth);
    AcceptedDistinct(files0, s.log, cfg.depth);
    AcceptedSizeIsChosenSize(files0, s.log, cfg.depth);
  }

  /** The sources of the accepted entries are the paths of the accepted draws. */
  lemma {:induction false} SourcesOfAccepted(log: seq<Draw>, depth: int)
    ensures Sources(AcceptedEntries(log, depth)) == AcceptedPaths(log)
  {
    if |log| > 0 {
      var init := log[..|log| - 1];
      SourcesOfAccepted(init, depth);
      var before := AcceptedEntries(init, depth);
      var chosen := AcceptedEntries(log, depth);
      if log[|log| - 1].outcome == Accepted {
        assert chosen[..|chosen| - 1] == before;
      } else {
        assert chosen == before;
      }
    }
  }

  /** Every drawn path was either accepted or rejected, and never both. */
  lemma {:induction false} DrawnSplit(files0: map<string, nat>, log: seq<Draw>)
    requires DrawsFrom(files0, log)
    ensures Drawn(log) == AcceptedPaths(log) + Rejected(log)
    ensures AcceptedPaths(log) !! Rejected(log)
  {
    if |log| > 0 {
      DrawnSplit(files0, log[..|log| - 1]);
    }
  }

  /** Each rejected path is a playlist entry larger than `space`. */
  lemma {:induction false} RejectedTooLarge(files0: map<string, nat>, log: seq<Draw>, space: int)
    requires DrawsFrom(files0, log) && MissesExceed(log, space)
    ensures forall p :: p in Rejected(log) ==> p in files0 && files0[p] > space
  {
    if |log| > 0 {
      RejectedTooLarge(files0, log[..|log| - 1], space);
    }
  }

  /**
   * Why a run ends: the item count is used up, every playlist file was copied, or
   * some file that was not copied is larger than what is left of the budget.
   */
  predicate Finished(files: map<string, nat>, budget: int, number: int, chosen: seq<Entry>) {
    || (number >= 0 && |chosen| == number)
    || files.Keys <= Sources(chosen)
    || exists p :: p in files && p !in Sources(chosen) && files[p] > budget - ChosenSize(files, chosen)
  }

  /** A reachable state in which the loop no longer runs has finished for one of those reasons. */
  lemma FinishedAtEnd(cfg: Settings, files0: map<string, nat>, budget: int, number: int, s: State)
    requires Reachable(cfg, files0, budget, number, s) && !Running(s)
    ensures Finished(files0, budget, number, s.chosen)
  {
    DrawnSplit(files0, s.log);
    SourcesOfAccepted(s.log, cfg.depth);
    RejectedTooLarge(files0, s.log, s.spaceLeft);
    AcceptedSizeIsChosenSize(files0, s.log, cfg.depth);
    if Rejected(s.log) != {} {
      var p :| p in Rejected(s.log);
      assert p in files0 && p !in Sources(s.chosen) && files0[p] > budget - ChosenSize(files0, s.chosen);
    } else if s.filesLeft == 0 {
      assert number >= 0 && |s.chosen| == number;
    } else {
      // No draw was refused, so there was no `break`: the playlist ran out.
      forall p | p in files0 ensures p in Sources(s.chosen) {
        assert p !in s.files;
      }
    }
  }

  lemma {:induction false} SkipsCountBack(log: seq<Draw>, i: nat, j: nat)
    requires i <= j <= |log|
    requires forall k :: i <= k < j ==> log[k].outcome == Skipped
    ensures TrailingSkips(log[..j]) >= j - i
    decreases j - i
  {
    if i < j {
      SkipsCountBack(log, i, j - 1);
      assert log[..j][..j - 1] == log[..j - 1];
    }
  }

  lemma {:induction false} SkipsWithinPrefix(log: seq<Draw>, j: nat, limit: nat)
    requires SkipsWithin(log, limit) && j <= |log|
    ensures TrailingSkips(log[..j]) <= limit
    decreases |log|
  {
    if j == |log| {
      assert log[..j] == log;
    } else {
      var init := log[..|log| - 1];
      SkipsWithinPrefix(init, j, limit);
      assert init[..j] == log[..j];
    }
  }

  /** A limit L tolerates at most max(L, 0) misses in a row; in particular none when L <= 0. */
  lemma MissesBounded(cfg: Settings, files0: map<string, nat>, budget: int, number: int, s: State, i: nat, j: nat)
    requires Reachable(cfg, files0, budget, number, s)
    requires i <= j <= |s.log| && forall k :: i <= k < j ==> s.log[k].outcome == Skipped
    ensures j - i <= Max0(cfg.tryLimit)
  {
    SkipsCountBack(s.log, i, j);
    SkipsWithinPrefix(s.log, j, Max0(cfg.tryLimit));
  }

  /** Only the last draw of a reachable state's history can be the `break`. */
  lemma StopsOnlyLast(cfg: Settings, files0: map<string, nat>, budget: int, number: int, s: State)
    requires Reachable(cfg, files0, budget, number, s)
    ensures forall i :: 0 <= i < |s.log| - 1 ==> s.log[i].outcome != Stopped
  {
    if |s.log| > 0 {
      var init := s.log[..|s.log| - 1];
      NoStopsMeaning(init);
      assert forall i :: 0 <= i < |init| ==> init[i] == s.log[i];
    }
  }

  /**
   * A limit of zero or less (the default 0, and the -1 that `-t` stores) never
   * skips: the first oversized draw ends the run, with nothing else changed.
   */
  lemma NoRetryStopsAtFirstMiss(cfg: Settings, files0: map<string, nat>, budget: int, number: int, s: State, choice: string)
    requires Reachable(cfg, files0, budget, number, s) && cfg.tryLimit <= 0
    requires choice in s.files && s.files[choice] > s.spaceLeft
    ensures var t := Next(cfg, s, choice);
            Halted(t) && t.spaceLeft == s.spaceLeft && t.filesLeft == s.filesLeft && t.chosen == s.chosen
  {
  }

  lemma {:induction false} SkipsAtMostDraws(log: seq<Draw>)
    ensures TrailingSkips(log) <= |log|
  {
    if |log| > 0 {
      SkipsAtMostDraws(log[..|log| - 1]);
    }
  }

  /**
   * A limit at least the playlist's size never stops on a miss: the run then ends
   * only when the item count is used up or every file has been drawn.
   */
  lemma LargeLimitNeverStops(cfg: Settings, files0: map<string, nat>, budget: int, number: int, s: State, choice: string)
    requires Reachable(cfg, files0, budget, number, s) && cfg.tryLimit >= |files0|
    requires choice in s.files
    ensures !Halted(Next(cfg, s, choice))
  {
    SkipsAtMostDraws(s.log);
  }

  // ---------------------------------------------------------------------------
  // The loop itself.

  /** The state of one run of the loop; `settings` and the starting values are fixed. */
  class Selector {
    const settings: Settings
    ghost const original: map<string, nat>
    ghost const budget: int
    ghost const number: int

    var files: map<string, nat>
    var spaceLeft: int
    var filesLeft: int
    var tries: int
    var chosen: seq<Entry>
    ghost var log: seq<Draw>

    ghost function Abs(): State
      reads this
    {
      State(files, spaceLeft, filesLeft, tries, chosen, log)
    }

    ghost predicate Valid()
      reads this
    {
      Reachable(settings, original, budget, number, Abs())
    }

    constructor (files: map<string, nat>, budget: int, number: int, settings: Settings)
      ensures Valid()
      ensures this.settings == settings && original == files && this.budget == budget && this.number == number
      ensures Abs() == Start(files, budget, number)
    {
      this.settings := settings;
      original := files;
      this.budget := budget;
      this.number := number;
      this.files := files;
      spaceLeft := budget;
      filesLeft := number;
      tries := 0;
      chosen := [];
      log := [];
      new;
      StartReachable(settings, files, budget, number);
    }

    /**
     * One pass of the loop body with `choice` as the drawn key: it is removed,
     * then skipped, stopped on, or accepted and charged.
     */
    method Step(choice: string) returns (outcome: Outcome)
      requires choice in files
      modifies this
      ensures Abs() == Next(settings, old(Abs()), choice)
      ensures |log| > 0 && outcome == log[|log| - 1].outcome
    {
      ghost var before := Abs();
      ghost var after := Next(settings, before, choice);
      var size := files[choice];
      files := files - {choice};
      if size > spaceLeft {
        if tries >= settings.tryLimit {
          log := log + [Draw(choice, size, Stopped)];
          outcome := Stopped;
          assert after == before.(files := before.files - {choice}, log := before.log + [Draw(choice, size, Stopped)]);
        } else {
          tries := tries + 1;
          log := log + [Draw(choice, size, Skipped)];
          outcome := Skipped;
          assert after == before.(files := before.files - {choice}, tries := before.tries + 1,
                                  log := before.log + [Draw(choice, size, Skipped)]);
        }
      } else {
        var target := TargetName(ParsePath(choice), settings.depth);
        spaceLeft := spaceLeft - size;
        filesLeft := filesLeft - 1;
        tries := 0;
        chosen := chosen + [Entry(choice, target)];
        log := log + [Draw(choice, size, Accepted)];
        outcome := Accepted;
        assert target == Target(choice, settings.depth);
        assert after == State(before.files - {choice}, before.spaceLeft - size, before.filesLeft - 1, 0,
                              before.chosen + [Entry(choice, target)], before.log + [Draw(choice, size, Accepted)]);
      }
      assert Abs() == after;
    }

    /** The `while` loop: draw until the item count or the playlist runs out, or the `break`. */
    method Run()
      requires Valid() && !Halted(Abs())
      modifies this
      ensures Valid() && !Running(Abs())
    {
      while filesLeft != 0 && |files| > 0
        invariant Valid() && !Halted(Abs())
        decreases |files|
      {
        var choice :| choice in files;
        ghost var before := Abs();
        var outcome := Step(choice);
        ghost var after := Abs();
        StepReachable(settings, original, budget, number, before, choice, after);
        if outcome == Stopped {
          assert Halted(after);
          break;
        }
      }
    }
  }

  // ---------------------------------------------------------------------------
  // The whole of `fill`.

  /**
   * The byte budget (fillmp3.py:54-61): 0, then the free space when `fill` is set,
   * then the parsed `--size` when one is given (an empty string counts as none).
   */
  function InitialBudget(fill: bool, freeSpace: nat, size: Option<string>): Result<nat, SizeParser.SizeError>
  {
    if size.Some? && |size.value| > 0 then SizeParser.ParseSize(size.value)
    else Success(if fill then freeSpace else 0)
  }

  /** A given size decides the budget alone; without one it is the free space, or 0 without `fill`. */
  lemma BudgetSources(fill: bool, freeSpace: nat, size: Option<string>, fill': bool, freeSpace': nat)
    ensures size.Some? && |size.value| > 0 ==>
              InitialBudget(fill, freeSpace, size) == InitialBudget(fill', freeSpace', size)
    ensures (size.None? || size.value == "") ==>
              InitialBudget(fill, freeSpace, size) == Success(if fill then freeSpace else 0)
  {
  }

  /** Why the script stops before selecting anything. */
  datatype FillError =
    | PlaylistFailed(loadError: Playlist.LoadError)
    | SizeFailed(sizeError: SizeParser.SizeError)

  /** Everything a finished run guarantees about its output. */
  predicate Selection(files: map<string, nat>, budget: nat, number: int, cfg: Settings, chosen: seq<Entry>) {
    && (forall k :: 0 <= k < |chosen| ==>
          chosen[k].source in files && chosen[k].target == Target(chosen[k].source, cfg.depth))
    && (forall k, m :: 0 <= k < m < |chosen| ==> chosen[k].source != chosen[m].source)
    && ChosenSize(files, chosen) <= budget
    && (number >= 0 ==> |chosen| <= number)
  }

  /**
   * `fill`: load the playlist, settle the budget, run the loop, and return the
   * accepted entries in the order they were copied.
   */
  method Fill(lines: seq<string>, resolve: string -> string, stat: string -> Option<nat>,
              number: int, fill: bool, freeSpace: nat, size: Option<string>, settings: Settings)
    returns (r: Result<seq<Entry>, FillError>)
    ensures Playlist.Loaded(lines, |lines|, resolve, stat).Failure? ==>
              r == Failure(PlaylistFailed(Playlist.Loaded(lines, |lines|, resolve, stat).error))
    ensures Playlist.Loaded(lines, |lines|, resolve, stat).Success? && InitialBudget(fill, freeSpace, size).Failure? ==>
              r == Failure(SizeFailed(InitialBudget(fill, freeSpace, size).error))
    ensures Playlist.Loaded(lines, |lines|, resolve, stat).Success? && InitialBudget(fill, freeSpace, size).Success? ==>
              r.Success?
    ensures r.Success? ==>
              Playlist.Loaded(lines, |lines|, resolve, stat).Success? && InitialBudget(fill, freeSpace, size).Success? &&
              Selection(Playlist.Loaded(lines, |lines|, resolve, stat).value, InitialBudget(fill, freeSpace, size).value,
                        number, settings, r.value) &&
              Finished(Playlist.Loaded(lines, |lines|, resolve, stat).value, InitialBudget(fill, freeSpace, size).value,
                       number, r.value)
  {
    var loaded := Playlist.ParsePlaylist(lines, resolve, stat);
    if loaded.Failure? {
      return Failure(PlaylistFailed(loaded.error));
    }
    var files := loaded.value;
    var spaceLeft: nat := 0;
    if fill {
      spaceLeft := freeSpace;
    }
    if size.Some? && |size.value| > 0 {
      var parsed := SizeParser.ParseSize(size.value);
      if parsed.Failure? {
        return Failure(SizeFailed(parsed.error));
      }
      spaceLeft := parsed.value;
    }
    var selector := new Selector(files, spaceLeft, number, settings);
    selector.Run();
    ChosenWithinLimits(settings, files, spaceLeft, number, selector.Abs());
    FinishedAtEnd(settings, files, spaceLeft, number, selector.Abs());
    return Success(selector.chosen);
  }
}
