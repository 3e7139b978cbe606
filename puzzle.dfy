/**
 * The tactics-puzzle page (src/pages/Puzzle.tsx): a five-level puzzle map with an unlock
 * rule, a five-minute countdown, hints that cost points, and a running score.
 *
 * Each handler is one atomic update of the page's state hooks. The chess position of the
 * puzzle and the move check are chess.js's; `OnMove` receives whether chess.js accepted
 * the move.
 */
module Puzzle {
  import opened Common

  /** The fields of a mock puzzle that the page's logic reads. */
  datatype PuzzleInfo = PuzzleInfo(id: int, difficulty: string, points: int, stars: int, targetSquare: string)

  /** `mockPuzzles` (lines 45-106): ids 1 to 5 in order. */
  const Puzzles: seq<PuzzleInfo> := [
    PuzzleInfo(1, "سهل", 5, 3, "e4"),
    PuzzleInfo(2, "سهل", 5, 2, "e5"),
    PuzzleInfo(3, "متوسط", 8, 3, "f7"),
    PuzzleInfo(4, "متوسط", 10, 0, "f7"),
    PuzzleInfo(5, "صعب", 15, 0, "f7")]

  /** Seconds on the countdown when a puzzle is loaded. */
  const FullTime: int := 300

  /** `ps.find(p => p.id === id)`: the first puzzle with that id. */
  function FindById(ps: seq<PuzzleInfo>, id: int): (r: Option<PuzzleInfo>)
    ensures r.Some? ==> r.value.id == id
    ensures r.Some? ==> exists i :: 0 <= i < |ps| && ps[i] == r.value && forall j :: 0 <= j < i ==> ps[j].id != id
    ensures r.None? ==> forall i :: 0 <= i < |ps| ==> ps[i].id != id
  {
    if ps == [] then None
    else if ps[0].id == id then Some(ps[0])
    else FindById(ps[1..], id)
  }

  /** A level exists exactly when it is 1 to 5, and level n is the n-th puzzle of the catalogue. */
  lemma FindLevel(level: int)
    ensures FindById(Puzzles, level).Some? <==> 1 <= level <= |Puzzles|
    ensures 1 <= level <= |Puzzles| ==> FindById(Puzzles, level) == Some(Puzzles[level - 1])
  {
  }

  /** `currentPuzzleData`: the puzzle of the current level, falling back to the first one. */
  function CurrentData(level: int): (p: PuzzleInfo)
    ensures p in Puzzles
    ensures 1 <= level <= |Puzzles| ==> p == Puzzles[level - 1]
    ensures !(1 <= level <= |Puzzles|) ==> p == Puzzles[0]
  {
    FindLevel(level);
    match FindById(Puzzles, level)
    case Some(p) => p
    case None => Puzzles[0]
  }

  /** `Math.max(1, points - hintsUsed * 2)`: what a solve earns (line 182). */
  function PointsEarned(points: int, hintsUsed: int): (r: int)
    ensures r >= 1
    ensures r >= points - 2 * hintsUsed
    ensures r == 1 || r == points - 2 * hintsUsed
  {
    if points - hintsUsed * 2 > 1 then points - hintsUsed * 2 else 1
  }

  /** The points shown in the info panel (line 382): the same formula without the floor. */
  function DisplayedPoints(points: int, hintsUsed: int): (shown: int)
    ensures shown >= 1 ==> shown == PointsEarned(points, hintsUsed)
    ensures shown < 1 ==> PointsEarned(points, hintsUsed) == 1
  {
    points - hintsUsed * 2
  }

  /**
   * Displayed and earned points agree while the displayed value is at least 1; below that the
   * panel shows the unclamped value (a 5-point puzzle after 3 hints shows -1 and earns 1).
   */
  lemma DisplayedVersusEarned(points: int, hintsUsed: int)
    ensures DisplayedPoints(points, hintsUsed) >= 1 ==> PointsEarned(points, hintsUsed) == DisplayedPoints(points, hintsUsed)
    ensures DisplayedPoints(points, hintsUsed) < 1 ==> PointsEarned(points, hintsUsed) == 1
    ensures DisplayedPoints(5, 3) == -1 && PointsEarned(5, 3) == 1
  {
  }

  /** The unlock rule of `selectLevel` and of the level map (lines 209 and 532). */
  predicate IsUnlocked(completed: set<int>, level: int)
    ensures level == 1 ==> IsUnlocked(completed, level)
    ensures level != 1 ==> (IsUnlocked(completed, level) <==> level - 1 in completed)
    ensures completed == {} ==> (IsUnlocked(completed, level) <==> level == 1)
  {
    level == 1 || level - 1 in completed
  }

  /** Stars lit under the puzzle title (line 360): the puzzle's stars once its level is completed. */
  function StarsShown(completed: set<int>, level: int): (n: int)
    ensures level !in completed ==> n == 0
    ensures level in completed ==> n == CurrentData(level).stars
  {
    if level in completed then CurrentData(level).stars else 0
  }

  /** At start, with levels 1 to 3 completed, exactly levels 1 to 4 are open. */
  lemma InitialUnlocks(level: int)
    ensures IsUnlocked({1, 2, 3}, level) <==> 1 <= level <= 4
  {
  }

  /** Completing levels never locks one: the unlock rule is monotone in the completed set. */
  lemma UnlockMonotone(completed: set<int>, more: set<int>, level: int)
    requires completed <= more && IsUnlocked(completed, level)
    ensures IsUnlocked(more, level)
  {
  }

  /** Solving a level opens the next one and lights the solved level's stars. */
  lemma SolveOpensNextAndLightsStars(completed: set<int>, level: int)
    ensures IsUnlocked(completed + {level}, level + 1)
    ensures StarsShown(completed + {level}, level) == CurrentData(level).stars
    ensures StarsShown(completed - {level}, level) == 0
  {
  }

  /**
   * `mockPuzzles.filter(p => p.difficulty === diff)[0].id`: the id of the first puzzle of
   * that difficulty, if there is one.
   */
  function FirstWithDifficulty(ps: seq<PuzzleInfo>, diff: string): (r: Option<int>)
    ensures r.None? <==> forall i :: 0 <= i < |ps| ==> ps[i].difficulty != diff
    ensures r.Some? ==> exists i :: 0 <= i < |ps| && ps[i].difficulty == diff && ps[i].id == r.value
                                    && forall j :: 0 <= j < i ==> ps[j].difficulty != diff
  {
    if ps == [] then None
    else if ps[0].difficulty == diff then Some(ps[0].id)
    else
      var r := FirstWithDifficulty(ps[1..], diff);
      assert forall i :: 1 <= i < |ps| ==> ps[i] == ps[1..][i - 1];
      assert r.Some? ==> exists i :: 0 <= i < |ps| && ps[i].difficulty == diff && ps[i].id == r.value
                                     && forall j :: 0 <= j < i ==> ps[j].difficulty != diff by {
        if r.Some? {
          var i :| 0 <= i < |ps[1..]| && ps[1..][i].difficulty == diff && ps[1..][i].id == r.value
                   && forall j :: 0 <= j < i ==> ps[1..][j].difficulty != diff;
          assert ps[i + 1] == ps[1..][i];
        }
      }
      r
  }

  /** Easy starts at level 1, medium at level 3, hard at level 5; any other label has no puzzle. */
  lemma DifficultyStarts(diff: string)
    ensures diff == "سهل" ==> FirstWithDifficulty(Puzzles, diff) == Some(1)
    ensures diff == "متوسط" ==> FirstWithDifficulty(Puzzles, diff) == Some(3)
    ensures diff == "صعب" ==> FirstWithDifficulty(Puzzles, diff) == Some(5)
    ensures diff != "سهل" && diff != "متوسط" && diff != "صعب" ==> FirstWithDifficulty(Puzzles, diff).None?
  {
    assert Puzzles[0].difficulty == "سهل" && Puzzles[2].difficulty == "متوسط" && Puzzles[4].difficulty == "صعب";
  }

  /** `getDifficultyColor(diff)`: easy green, hard red, anything else yellow. */
  function DifficultyColor(diff: string): (cls: string)
    ensures diff == "سهل" ==> cls == "text-green-500"
    ensures diff == "صعب" ==> cls == "text-red-500"
    ensures diff != "سهل" && diff != "صعب" ==> cls == "text-yellow-500"
  {
    if diff == "سهل" then "text-green-500"
    else if diff == "صعب" then "text-red-500"
    else "text-yellow-500"
  }

  /** The three catalogue difficulties are drawn in three different colours. */
  lemma DifficultyColorsDistinct()
    ensures DifficultyColor("سهل") != DifficultyColor("متوسط")
    ensures DifficultyColor("متوسط") != DifficultyColor("صعب")
    ensures DifficultyColor("سهل") != DifficultyColor("صعب")
  {
    assert DifficultyColor("سهل")[5] == 'g' && DifficultyColor("متوسط")[5] == 'y' && DifficultyColor("صعب")[5] == 'r';
  }

  /** The per-puzzle part of the page state that loading a puzzle resets. */
  datatype PuzzleView = PuzzleView(currentPuzzle: Option<PuzzleInfo>, timeLeft: int, hintsUsed: int,
                                   showHint: bool, showSolution: bool)

  /**
   * What `loadPuzzle(level)` leaves behind: an existing level becomes the current puzzle
   * with a full clock, no hints used and hint and solution hidden; an unknown level
   * changes nothing.
   */
  function Load(v: PuzzleView, level: int): (w: PuzzleView)
    ensures FindById(Puzzles, level).Some? ==>
      w.currentPuzzle == FindById(Puzzles, level) && w.timeLeft == FullTime && w.hintsUsed == 0
      && !w.showHint && !w.showSolution
    ensures FindById(Puzzles, level).None? ==> w == v
  {
    match FindById(Puzzles, level)
    case Some(p) => PuzzleView(Some(p), FullTime, 0, false, false)
    case None => v
  }

  /** Loading is idempotent: loading the same level again changes nothing more. */
  lemma LoadIdempotent(v: PuzzleView, level: int)
    ensures Load(Load(v, level), level) == Load(v, level)
  {
  }

  /**
   * The effect on `currentLevel` (lines 110-112): when a handler changes the level, the new
   * level's puzzle is loaded; when the level stays the same the effect does not run.
   */
  function AfterLevelChange(v: PuzzleView, oldLevel: int, newLevel: int): (w: PuzzleView)
    ensures oldLevel == newLevel ==> w == v
    ensures oldLevel != newLevel && 1 <= newLevel <= |Puzzles| ==>
      w.currentPuzzle == Some(Puzzles[newLevel - 1]) && w.timeLeft == FullTime && w.hintsUsed == 0
      && !w.showHint && !w.showSolution
    ensures !(1 <= newLevel <= |Puzzles|) ==> w == v
  {
    FindLevel(newLevel);
    if oldLevel != newLevel then Load(v, newLevel) else v
  }

  /** The page's state hooks that its logic reads and writes. */
  class PuzzleSession {
    var difficulty: string
    var timeLeft: int
    var showHint: bool
    var showSolution: bool
    var isLoading: bool
    var score: int
    var hintsUsed: int
    var showLevelMap: bool
    var completedLevels: set<int>
    var currentLevel: int
    var currentPuzzle: Option<PuzzleInfo>

    /**
     * Between handlers nothing is loading, the countdown stays within 0..300, hints and
     * score never go negative, levels are positive, and the three levels completed at
     * start stay completed.
     */
    ghost predicate Valid()
      reads this
    {
      && !isLoading
      && 0 <= timeLeft <= FullTime
      && hintsUsed >= 0
      && score >= 0
      && currentLevel >= 1
      && {1, 2, 3} <= completedLevels
      && (forall l :: l in completedLevels ==> l >= 1)
    }

    /** The current level is one of the catalogue's five. */
    ghost predicate InCatalogue()
      reads this
    {
      1 <= currentLevel <= |Puzzles|
    }

    function View(): PuzzleView
      reads this
    {
      PuzzleView(currentPuzzle, timeLeft, hintsUsed, showHint, showSolution)
    }

    constructor ()
      ensures Valid() && InCatalogue()
      ensures difficulty == "متوسط" && timeLeft == FullTime && !showHint && !showSolution
      ensures score == 0 && hintsUsed == 0 && !showLevelMap
      ensures completedLevels == {1, 2, 3} && currentLevel == 1 && currentPuzzle == None
    {
      difficulty := "متوسط";
      timeLeft := FullTime;
      showHint := false;
      showSolution := false;
      isLoading := false;
      score := 0;
      hintsUsed := 0;
      showLevelMap := false;
      completedLevels := {1, 2, 3};
      currentLevel := 1;
      currentPuzzle := None;
    }

    /** `loadPuzzle(level)`; the loading flag is raised for the lookup and cleared in `finally`. */
    method LoadPuzzle(level: int)
      requires Valid()
      modifies this`isLoading, this`currentPuzzle, this`timeLeft, this`showHint, this`showSolution, this`hintsUsed
      ensures Valid()
      ensures View() == Load(old(View()), level)
    {
      ghost var after := Load(View(), level);
      isLoading := true;
      var puzzle := FindById(Puzzles, level);
      if puzzle.Some? {
        currentPuzzle := puzzle;
        timeLeft := FullTime;
        showHint := false;
        showSolution := false;
        hintsUsed := 0;
      }
      isLoading := false;
      assert View() == after;
    }

    /** The effect that reloads the puzzle after a handler changed `currentLevel` from `before`. */
    method LevelEffect(before: int)
      requires Valid()
      modifies this`isLoading, this`currentPuzzle, this`timeLeft, this`showHint, this`showSolution, this`hintsUsed
      ensures Valid()
      ensures View() == AfterLevelChange(old(View()), before, currentLevel)
    {
      if currentLevel != before {
        LoadPuzzle(currentLevel);
      }
    }

    /** `loadPuzzleByDifficulty(diff)`: jump to the first puzzle of that difficulty, if any. */
    method LoadPuzzleByDifficulty(diff: string)
      requires Valid()
      modifies this`difficulty, this`currentLevel,
               this`isLoading, this`currentPuzzle, this`timeLeft, this`showHint, this`showSolution, this`hintsUsed
      ensures Valid()
      ensures old(InCatalogue()) ==> InCatalogue()
      ensures difficulty == diff
      ensures currentLevel == match FirstWithDifficulty(Puzzles, diff) case Some(id) => id case None => old(currentLevel)
      ensures View() == AfterLevelChange(old(View()), old(currentLevel), currentLevel)
    {
      var before := currentLevel;
      difficulty := diff;
      var first := FirstWithDifficulty(Puzzles, diff);
      if first.Some? {
        FindLevel(first.value);
        currentLevel := first.value;
      }
      LevelEffect(before);
    }

    /** `showHintAction`: show the hint and count one more hint used. */
    method ShowHintAction()
      requires Valid()
      modifies this`showHint, this`hintsUsed
      ensures Valid()
      ensures showHint && hintsUsed == old(hintsUsed) + 1
    {
      showHint := true;
      hintsUsed := hintsUsed + 1;
    }

    /** `revealSolution`: show the solution, which also stops the countdown. */
    method RevealSolution()
      requires Valid()
      modifies this`showSolution
      ensures Valid() && showSolution
    {
      showSolution := true;
    }

    /** One second of the countdown effect (lines 121-126): runs only while time remains and the solution is hidden. */
    method CountdownTick()
      requires Valid()
      modifies this`timeLeft
      ensures Valid()
      ensures timeLeft == if old(timeLeft) > 0 && !showSolution then old(timeLeft) - 1 else old(timeLeft)
    {
      if timeLeft > 0 && !showSolution {
        timeLeft := timeLeft - 1;
      }
    }

    /**
     * `submitSolution`: the current level is marked completed and the score grows by the
     * earned points. `announceUnlock` is whether the "new level" notice is shown.
     */
    method SubmitSolution() returns (earned: int, announceUnlock: bool)
      requires Valid()
      modifies this`completedLevels, this`score
      ensures Valid()
      ensures earned == PointsEarned(CurrentData(currentLevel).points, hintsUsed) && earned >= 1
      ensures completedLevels == old(completedLevels) + {currentLevel}
      ensures score == old(score) + earned
      ensures announceUnlock == (currentLevel + 1 !in old(completedLevels) && currentLevel < |Puzzles|)
    {
      earned := PointsEarned(CurrentData(currentLevel).points, hintsUsed);
      announceUnlock := currentLevel + 1 !in completedLevels && currentLevel < |Puzzles|;
      completedLevels := completedLevels + {currentLevel};
      score := score + earned;
    }

    /** The board's `onMove` callback: a move chess.js accepted solves the puzzle. */
    method OnMove(moveAccepted: bool) returns (ok: bool)
      requires Valid()
      modifies this`completedLevels, this`score
      ensures Valid() && ok == moveAccepted
      ensures moveAccepted ==> completedLevels == old(completedLevels) + {currentLevel}
                               && score == old(score) + PointsEarned(CurrentData(currentLevel).points, hintsUsed)
      ensures !moveAccepted ==> completedLevels == old(completedLevels) && score == old(score)
    {
      if moveAccepted {
        var _, _ := SubmitSolution();
      }
      ok := moveAccepted;
    }

    /** `nextPuzzle`: advance one level while below the last one. */
    method NextPuzzle()
      requires Valid()
      modifies this`currentLevel,
               this`isLoading, this`currentPuzzle, this`timeLeft, this`showHint, this`showSolution, this`hintsUsed
      ensures Valid()
      ensures currentLevel == if old(currentLevel) < |Puzzles| then old(currentLevel) + 1 else old(currentLevel)
      ensures old(InCatalogue()) ==> InCatalogue()
      ensures View() == AfterLevelChange(old(View()), old(currentLevel), currentLevel)
    {
      var before := currentLevel;
      if currentLevel < |Puzzles| {
        currentLevel := currentLevel + 1;
      }
      LevelEffect(before);
    }

    /** The map button (line 268). */
    method OpenLevelMap()
      requires Valid()
      modifies this`showLevelMap
      ensures Valid() && showLevelMap
    {
      showLevelMap := true;
    }

    /**
     * `selectLevel(level)`: an unlocked level becomes current and the map closes; a locked
     * one changes nothing. The map only offers catalogue ids, which keep the level in range.
     */
    method SelectLevel(level: int) returns (unlocked: bool)
      requires Valid()
      modifies this`currentLevel, this`showLevelMap,
               this`isLoading, this`currentPuzzle, this`timeLeft, this`showHint, this`showSolution, this`hintsUsed
      ensures Valid()
      ensures unlocked == IsUnlocked(old(completedLevels), level)
      ensures unlocked ==> currentLevel == level && !showLevelMap
      ensures !unlocked ==> currentLevel == old(currentLevel) && showLevelMap == old(showLevelMap)
      ensures old(InCatalogue()) && 1 <= level <= |Puzzles| ==> InCatalogue()
      ensures View() == AfterLevelChange(old(View()), old(currentLevel), currentLevel)
    {
      var before := currentLevel;
      unlocked := IsUnlocked(completedLevels, level);
      if unlocked {
        currentLevel := level;
        showLevelMap := false;
      }
      LevelEffect(before);
    }
  }
}
