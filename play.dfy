/**
 * The play lobby (src/pages/Play.tsx): quick-play time controls, the three play modes,
 * the physical-board question and the opponent search.
 *
 * Navigation is recorded in two logs: `navigations` for immediate moves to another page
 * and `scheduledNavigations` for the one the search timer performs three seconds later.
 */
module Play {
  import opened Common

  /** Where the simulated opponent search leads. */
  const DemoGamePath := "/game?id=demo_game_123"
  const FriendsPath := "/friends"
  const AiGamePrefix := "/game?mode=ai&physical="

  /** `String(b)` as produced by string concatenation with a boolean. */
  function BoolText(b: bool): string {
    if b then "true" else "false"
  }

  /** The address of a game against the computer, carrying the physical-board answer. */
  function AiGamePath(physical: bool): (path: string)
    ensures |path| > |AiGamePrefix| && path[..|AiGamePrefix|] == AiGamePrefix
  {
    AiGamePrefix + BoolText(physical)
  }

  /** The answer to the physical-board question can be read back from the address. */
  lemma AiGamePathInjective(a: bool, b: bool)
    requires AiGamePath(a) == AiGamePath(b)
    ensures a == b
  {
    assert AiGamePath(a)[|AiGamePrefix|..] == BoolText(a);
    assert AiGamePath(b)[|AiGamePrefix|..] == BoolText(b);
    assert |BoolText(true)| != |BoolText(false)|;
  }

  /** No game address coincides with the friends page or the matchmaking game. */
  lemma GamePathsDistinct(physical: bool)
    ensures AiGamePath(physical) != DemoGamePath && AiGamePath(physical) != FriendsPath
  {
    assert AiGamePath(physical)[6] == 'm' && DemoGamePath[6] == 'i';
    assert |AiGamePath(physical)| > |FriendsPath|;
  }

  class Lobby {
    var selectedTime: string
    var isSearching: bool
    var physicalBoard: bool
    var showModeDialog: bool
    var pendingGameMode: Option<string>
    var navigations: seq<string>
    var scheduledNavigations: seq<string>

    constructor ()
      ensures selectedTime == "10" && !isSearching && !physicalBoard && !showModeDialog
      ensures pendingGameMode.None? && navigations == [] && scheduledNavigations == []
    {
      selectedTime := "10";
      isSearching := false;
      physicalBoard := false;
      showModeDialog := false;
      pendingGameMode := None;
      navigations := [];
      scheduledNavigations := [];
    }

    /** `startGameMode(mode)`: remember the mode and ask about the physical board. */
    method StartGameMode(mode: string)
      modifies this`pendingGameMode, this`showModeDialog
      ensures pendingGameMode == Some(mode) && showModeDialog
    {
      pendingGameMode := Some(mode);
      showModeDialog := true;
    }

    /** `findRandomOpponent`: searching starts and the game page is scheduled. */
    method FindRandomOpponent()
      modifies this`isSearching, this`scheduledNavigations
      ensures isSearching && scheduledNavigations == old(scheduledNavigations) + [DemoGamePath]
    {
      isSearching := true;
      scheduledNavigations := scheduledNavigations + [DemoGamePath];
    }

    /**
     * `confirmGameMode(usePhysical)`: record the answer and close the dialog; a pending
     * "random" starts the search, a pending "ai" opens the game against the computer, any
     * other pending mode does neither; the pending mode is then cleared.
     */
    method ConfirmGameMode(usePhysical: bool)
      modifies this`physicalBoard, this`showModeDialog, this`pendingGameMode,
               this`isSearching, this`navigations, this`scheduledNavigations
      ensures physicalBoard == usePhysical && !showModeDialog && pendingGameMode.None?
      ensures old(pendingGameMode) == Some("random") ==>
        isSearching && scheduledNavigations == old(scheduledNavigations) + [DemoGamePath]
        && navigations == old(navigations)
      ensures old(pendingGameMode) == Some("ai") ==>
        navigations == old(navigations) + [AiGamePath(usePhysical)]
        && isSearching == old(isSearching) && scheduledNavigations == old(scheduledNavigations)
      ensures old(pendingGameMode) != Some("random") && old(pendingGameMode) != Some("ai") ==>
        navigations == old(navigations) && isSearching == old(isSearching)
        && scheduledNavigations == old(scheduledNavigations)
    {
      physicalBoard := usePhysical;
      showModeDialog := false;
      if pendingGameMode == Some("random") {
        FindRandomOpponent();
      } else if pendingGameMode == Some("ai") {
        navigations := navigations + [AiGamePath(usePhysical)];
      }
      pendingGameMode := None;
    }

    /** `quickPlay(timeControl)`: choose the time, then start a random game. */
    method QuickPlay(timeControl: string)
      modifies this`selectedTime, this`pendingGameMode, this`showModeDialog
      ensures selectedTime == timeControl && pendingGameMode == Some("random") && showModeDialog
    {
      selectedTime := timeControl;
      StartGameMode("random");
    }

    /** A play-mode card: friends opens the friends page; the other two start their mode. */
    method ChoosePlayMode(id: string)
      requires id == "friend" || id == "random" || id == "ai"
      modifies this`pendingGameMode, this`showModeDialog, this`navigations
      ensures id == "friend" ==> navigations == old(navigations) + [FriendsPath]
                                 && pendingGameMode == old(pendingGameMode) && showModeDialog == old(showModeDialog)
      ensures id != "friend" ==> pendingGameMode == Some(id) && showModeDialog && navigations == old(navigations)
    {
      if id == "friend" {
        navigations := navigations + [FriendsPath];
      } else {
        StartGameMode(id);
      }
    }

    /**
     * `cancelSearch`: the searching view closes. The navigation the search timer scheduled
     * is not withdrawn.
     */
    method CancelSearch()
      modifies this`isSearching
      ensures !isSearching && scheduledNavigations == old(scheduledNavigations)
    {
      isSearching := false;
    }

    /** The dialog's cancel button: the dialog closes and the pending mode stays. */
    method DismissModeDialog()
      modifies this`showModeDialog
      ensures !showModeDialog && pendingGameMode == old(pendingGameMode)
    {
      showModeDialog := false;
    }

    method SetSelectedTime(t: string)
      modifies this`selectedTime
      ensures selectedTime == t
    {
      selectedTime := t;
    }

    /** The physical-board switch in the settings card. */
    method TogglePhysicalBoard()
      modifies this`physicalBoard
      ensures physicalBoard == !old(physicalBoard)
    {
      physicalBoard := !physicalBoard;
    }
  }
}
