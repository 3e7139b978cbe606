# Arabic chess platform — verified model of the page logic

This project models the client-side logic of an Arabic-language chess platform written as
React pages. It covers:

- the interactive board component with its click-to-select state machine;
- the tactics-puzzle page (levels, unlock rule, countdown, hints, score);
- the live game room (clocks, turn guard, move list, game end, chat);
- pairing a physical smart board;
- the administration panel (moderation, forced game ends, invite deletion, search);
- the friends page, the play lobby, the courses catalogue, the dashboard and the sign-in forms.

There is one Dafny module per page or component, plus `Common` for the shared list and text
helpers and `TimeFormat` for the `m:ss` clock text that two pages use:

| file | module | page |
|---|---|---|
| `common.dfy` | `Common` | `Array.prototype.filter`, ASCII `toLowerCase`, `includes`, `trim` emptiness, decimal numerals |
| `time_format.dfy` | `TimeFormat` | `formatTime` of the puzzle page and the game room |
| `chess_board.dfy` | `ChessBoard` | `src/components/ChessBoard.tsx` |
| `puzzle.dfy` | `Puzzle` | `src/pages/Puzzle.tsx` |
| `game_room.dfy` | `GameRoom` | `src/pages/GameRoom.tsx` |
| `connect_board.dfy` | `ConnectBoard` | `src/pages/ConnectBoard.tsx` |
| `admin.dfy` | `Admin` | `src/pages/Admin.tsx` |
| `friends.dfy` | `Friends` | `src/pages/Friends.tsx` |
| `play.dfy` | `Play` | `src/pages/Play.tsx` |
| `courses.dfy` | `Courses` | `src/pages/Courses.tsx` |
| `dashboard.dfy` | `Dashboard` | `src/pages/Dashboard.tsx` |
| `auth.dfy` | `Auth` | `src/pages/Auth.tsx` |

How the page code is represented:

- A page whose handlers update state hooks becomes a `class`. Each hook is a field. Each handler is a method whose `modifies` clause names exactly the fields the handler sets, and whose `ensures` states the new values.
- Pure helpers become functions. List updates made by `map` or `filter` are functions over `seq`, and the methods assign their results.
- Each handler is one atomic, sequential update. The exception is the clock tick's nested state update, whose React order is modelled in `GameRoom.Room.TimerTickAsWritten`.
- A delayed callback (`setTimeout`, `setInterval`) that changes the page's state is its own method, called when the timer fires: `GameRoom.Room.TimerTick` (and `GameRoom.Room.TimerTickAsWritten`), `Puzzle.PuzzleSession.CountdownTick`, `ConnectBoard.Connection.CompleteQrScan`, `ConnectBoard.Connection.CompleteSerialLookup`, `GameRoom.Room.PhysicalMoveNoticeExpires`. A delayed callback that only navigates is recorded when it is scheduled, as an entry of `scheduledNavigations`: the search timer of the play lobby and the accept-invite timer of the friends page.
- The rules of chess belong to the external chess.js library and are not modelled. Its answers reach the model as data:
  - the board's `Position` is the piece grid, the side to move and the legal destinations of each square;
  - the game room's `HandleMove` receives chess.js's `MoveOutcome` (SAN, FEN, check, mate, draw), or `None` when the move is rejected;
  - the puzzle's `OnMove` receives whether chess.js accepted the move.
- The board's `onMove` callback is a function parameter. Every call is recorded in the `moveRequests` log.
- Navigation is recorded in `navigations` / `scheduledNavigations` logs where a property needs it. Toasts are left out, except where the notice is the property (the game-room `endings` log, the returned `Notice` values of the sign-in forms).
- `toLowerCase` is modelled on ASCII letters only, and `trim()` emptiness on ASCII white space.

## Model

| member | source | states |
|---|---|---|
| Common.Filter | src/pages/Admin.tsx:219 | `filter` keeps exactly the accepted elements: membership iff in the input and accepted; never longer |
| Common.FilterCounts | src/pages/Admin.tsx:219 | each accepted element keeps its multiplicity in the result and every rejected one is dropped |
| Common.FilterAppend | src/pages/Friends.tsx:198 | filtering distributes over concatenation, so survivors keep their relative order |
| Common.FilterIdempotent | src/pages/Friends.tsx:216 | filtering twice with the same test equals filtering once |
| Common.Includes | src/pages/Admin.tsx:247-248 | `includes` holds iff the needle occurs at some position of the text |
| Common.Lower | src/pages/Admin.tsx:247-248 | `toLowerCase` keeps the length and maps each character on its own (upper-case Latin letters to lower case, everything else unchanged) |
| Common.IsBlank | src/pages/GameRoom.tsx:355 | `!text.trim()`: the empty text is blank, and any character that is not white space makes the text non-blank |
| Common.EmptyIncluded | src/pages/Admin.tsx:246-249 | the empty search term occurs in every text |
| Common.ParseDigitsOfDigits | src/pages/Puzzle.tsx:237 | the decimal numeral of `n` reads back as `n` |
| Common.Digits | src/pages/Puzzle.tsx:239 | `toString` of a count: a non-empty run of decimal digits with no leading zero except for 0 itself; `ParseDigitsOfDigits` reads it back |
| TimeFormat.PadTwo | src/pages/Puzzle.tsx:239 | the seconds part is always exactly two digits |
| TimeFormat.FormatTime | src/pages/Puzzle.tsx:236-240 | minutes numeral, a colon, then two digits; every other character is a digit |
| TimeFormat.FormatTimeRoundTrip | src/pages/GameRoom.tsx:376-380 | reading the clock text back gives the same number of seconds |
| TimeFormat.FormatTimeInjective | src/pages/Puzzle.tsx:236-240 | two different second counts never show the same text |
| ChessBoard.AfterClick | src/components/ChessBoard.tsx:24-60 | with moves disabled the selection is unchanged; otherwise a click leaves the old selection, nothing, or the clicked friendly piece with exactly its chess.js destinations |
| ChessBoard.MoveCall | src/components/ChessBoard.tsx:32-34 | `onMove(selected, clicked)` is called iff moves are allowed, a square is selected, the clicked square differs from it and is a highlighted destination |
| ChessBoard.ClickDisabled | src/components/ChessBoard.tsx:25 | with moves disabled a click changes nothing and calls nothing |
| ChessBoard.ClickSelectedDeselects | src/components/ChessBoard.tsx:28-31 | clicking the selected square clears the selection and the destinations |
| ChessBoard.ClickDestinationMoves | src/components/ChessBoard.tsx:32-38 | clicking a destination calls `onMove(selected, clicked)`; accepted gives idle, rejected leaves the selection as it was |
| ChessBoard.ClickOtherSquare | src/components/ChessBoard.tsx:39-49 | with a selection, a non-destination friendly piece is selected with exactly the oracle's destinations; any other square clears the selection |
| ChessBoard.ClickFirstSelection | src/components/ChessBoard.tsx:51-58 | with no selection, a friendly piece is selected with its oracle destinations; an empty or enemy square changes nothing |
| ChessBoard.ClickKeepsConsistent | src/components/ChessBoard.tsx:17-18 | every click keeps "no selection implies no destinations", and destinations are the oracle's for the selected square |
| ChessBoard.BoardWidget.constructor | src/components/ChessBoard.tsx:17-18 | the board starts with nothing selected and no destinations |
| ChessBoard.BoardWidget.HandleSquareClick | src/components/ChessBoard.tsx:24-60 | the new selection state is the transition `AfterClick` of the old one, and exactly the `onMove` call of `MoveCall` (if any) is appended to the call log |
| ChessBoard.BlackViewReversesWhite | src/components/ChessBoard.tsx:21-22 | the black file and rank lists are the reverses of the white ones |
| ChessBoard.CellOf | src/components/ChessBoard.tsx:94-96 | every board square is drawn in a display cell, for either orientation |
| ChessBoard.CellOfOnly | src/components/ChessBoard.tsx:94-96 | no other display cell shows that square, so each square is drawn exactly once |
| ChessBoard.ShadeFollowsSquare | src/components/ChessBoard.tsx:62-65 | a square's shade depends on the square, not the orientation: light iff file index plus rank is even (a1 dark, h1 light) |
| ChessBoard.IsLight | src/components/ChessBoard.tsx:62-65 | the diagonal from the top-left cell is light in either orientation; `ShadeFollowsSquare` gives the shade of every square |
| ChessBoard.SymbolTableCovers | src/components/ChessBoard.tsx:11-14 | every piece's colour-and-type key is in the 12-entry table, and its glyph depicts exactly that piece |
| ChessBoard.PieceSymbol | src/components/ChessBoard.tsx:85-89 | the glyph is empty iff there is no piece; a piece's glyph reads back as that piece |
| ChessBoard.PieceSymbolInjective | src/components/ChessBoard.tsx:11-14 | two different pieces never share a glyph |
| ChessBoard.IndexOf | src/components/ChessBoard.tsx:97 | `indexOf` gives the first position of the element, or -1 when absent |
| ChessBoard.AsWrittenReadsDisplayColumn | src/components/ChessBoard.tsx:97 | as written, the piece lookup uses the display column, not the square's file |
| ChessBoard.DrawnPieceAsWritten | src/components/ChessBoard.tsx:97 | in the white orientation the cell draws the piece on the square it is labelled with; `AsWrittenReadsDisplayColumn` and `MirroredForBlack` give the black case |
| ChessBoard.MirroredForBlack | src/components/ChessBoard.tsx:97 | with black orientation and a queen on d1 beside a king on e1, the cell of d1 draws the king |
| ChessBoard.DrawnPieceFollowsSquare | src/components/ChessBoard.tsx:94-97 | the corrected lookup draws each square's own piece in both orientations, and equals the as-written lookup for white |
| ChessBoard.DrawnPiece | src/components/ChessBoard.tsx:94-97 | the corrected lookup agrees with the page's own in the white orientation; `DrawnPieceFollowsSquare` shows it draws each square's piece in both |
| Puzzle.FindById | src/pages/Puzzle.tsx:132 | `find` returns the first catalogue puzzle with the id, or no puzzle has it |
| Puzzle.FindLevel | src/pages/Puzzle.tsx:108 | a level exists iff it is 1 to 5, and level n is the n-th catalogue puzzle |
| Puzzle.CurrentData | src/pages/Puzzle.tsx:108 | for a level of the catalogue (1 to 5) the displayed puzzle is that level's puzzle; for any other level it is the first puzzle |
| Puzzle.PointsEarned | src/pages/Puzzle.tsx:182 | a solve earns at least 1 and otherwise exactly points minus two per hint |
| Puzzle.DisplayedVersusEarned | src/pages/Puzzle.tsx:382 | the panel's points equal the earned points while at least 1; below that they differ (5 points, 3 hints: shows -1, earns 1) |
| Puzzle.DisplayedPoints | src/pages/Puzzle.tsx:382 | the points shown on the panel are the points a solve earns whenever they are at least 1; when they drop below 1 a solve still earns 1 |
| Puzzle.IsUnlocked | src/pages/Puzzle.tsx:532 | level 1 is always open; any other level is open iff the level before it is completed; with nothing completed only level 1 is open |
| Puzzle.InitialUnlocks | src/pages/Puzzle.tsx:41 | with levels 1-3 completed at start, exactly levels 1-4 are open |
| Puzzle.UnlockMonotone | src/pages/Puzzle.tsx:532 | completing more levels never locks an open level |
| Puzzle.SolveOpensNextAndLightsStars | src/pages/Puzzle.tsx:360 | a solved level opens the next one and lights its stars; an unsolved level lights none |
| Puzzle.StarsShown | src/pages/Puzzle.tsx:360 | no stars lit before a level is completed; its puzzle's stars afterwards |
| Puzzle.FirstWithDifficulty | src/pages/Puzzle.tsx:156-158 | the id of the first puzzle with that difficulty, or none iff no puzzle has it |
| Puzzle.DifficultyStarts | src/pages/Puzzle.tsx:154-160 | easy starts at level 1, medium at 3, hard at 5; any other label finds nothing |
| Puzzle.DifficultyColor | src/pages/Puzzle.tsx:242-248 | easy is green, hard is red, and any other difficulty is drawn yellow |
| Puzzle.DifficultyColorsDistinct | src/pages/Puzzle.tsx:242-248 | the three difficulties get three different colours |
| Puzzle.Load | src/pages/Puzzle.tsx:132-142 | loading an existing level resets the clock to 300, hints to 0 and hides hint and solution; an unknown level changes none of these |
| Puzzle.LoadIdempotent | src/pages/Puzzle.tsx:128-152 | loading the same level twice is the same as loading it once |
| Puzzle.AfterLevelChange | src/pages/Puzzle.tsx:110-112 | the puzzle is reloaded exactly when the level changed: a new catalogue level starts on a fresh clock with no hints used, the hint and the solution hidden; a level outside the catalogue leaves the view as it was; the same level changes nothing |
| Puzzle.PuzzleSession.constructor | src/pages/Puzzle.tsx:30-41 | initial hooks: medium difficulty, 300 s, score 0, levels 1-3 completed, level 1 |
| Puzzle.PuzzleSession.LoadPuzzle | src/pages/Puzzle.tsx:128-152 | the view becomes `Load(old view, level)` and the loading flag ends cleared |
| Puzzle.PuzzleSession.LevelEffect | src/pages/Puzzle.tsx:110-112 | reloads the puzzle after a level change, and only then |
| Puzzle.PuzzleSession.LoadPuzzleByDifficulty | src/pages/Puzzle.tsx:154-160 | the difficulty is set; the level becomes the first puzzle of that difficulty or stays; the level stays within 1-5 |
| Puzzle.PuzzleSession.ShowHintAction | src/pages/Puzzle.tsx:162-164 | the hint shows and the hint count grows by exactly one |
| Puzzle.PuzzleSession.RevealSolution | src/pages/Puzzle.tsx:171-172 | the solution shows |
| Puzzle.PuzzleSession.CountdownTick | src/pages/Puzzle.tsx:121-126 | the clock drops by one only while positive and the solution is hidden; it never goes negative |
| Puzzle.PuzzleSession.SubmitSolution | src/pages/Puzzle.tsx:179-200 | the current level joins the completed set (none removed); the score grows by the earned points (at least 1); the unlock notice shows iff the next level was not completed and a next level exists |
| Puzzle.PuzzleSession.OnMove | src/pages/Puzzle.tsx:221-234 | an accepted move solves the puzzle and returns true; a rejected one changes nothing and returns false |
| Puzzle.PuzzleSession.NextPuzzle | src/pages/Puzzle.tsx:202-206 | the level grows by one only below 5, so it never exceeds 5; the new level's puzzle is loaded |
| Puzzle.PuzzleSession.OpenLevelMap | src/pages/Puzzle.tsx:268 | the level map opens |
| Puzzle.PuzzleSession.SelectLevel | src/pages/Puzzle.tsx:208-219 | an open level becomes current and closes the map; a locked one changes nothing; the result is the unlock rule |
| GameRoom.NewRow | src/pages/GameRoom.tsx:220-225 | a new row is numbered `floor(historyLength / 2) + 1` and holds only the mover's SAN |
| GameRoom.RecordMove | src/pages/GameRoom.tsx:227-240 | if the last row lacks the mover's entry it is filled and the length is kept, else exactly one row is appended; earlier rows never change |
| GameRoom.WhiteMoveOpensRow | src/pages/GameRoom.tsx:231-238 | after complete rows, a white move appends a row; numbered from the game's whole history, that row is one past the last |
| GameRoom.BlackMoveFillsRow | src/pages/GameRoom.tsx:231-235 | a black move fills the black entry of the row its white move opened |
| GameRoom.ReplayPairsMoves | src/pages/GameRoom.tsx:220-240 | after n alternating moves there are ceil(n/2) rows holding moves 2k (white) and 2k+1 (black, once played); numbered from the game's whole history, as evidently intended, row k is numbered k+1 |
| GameRoom.Replay | src/pages/GameRoom.tsx:220-240 | replaying n moves gives at most n rows; `ReplayPairsMoves` gives their exact pairing and numbering |
| GameRoom.ReplayAsWrittenNumbersEveryRowOne | src/pages/GameRoom.tsx:209-221 | with the history of the FEN copy the page numbers from, the rows pair the moves exactly as intended but every row is numbered 1 |
| GameRoom.ReplayAsWritten | src/pages/GameRoom.tsx:209-240 | as the page numbers rows, at most one row per move and the newest row is always numbered 1; `ReplayAsWrittenNumbersEveryRowOne` extends this to every row |
| GameRoom.RecordMoveRenumbered | src/pages/GameRoom.tsx:221-240 | recording one move with the copy's history length and with the true one keeps the two lists equal up to row numbers, every as-written row numbered 1 |
| GameRoom.SecondRowNumberedOne | src/pages/GameRoom.tsx:209-221 | after e4 e5 Nf3 the second row should be numbered 2, and the page numbers it 1 |
| GameRoom.EndMessage | src/pages/GameRoom.tsx:304-318 | on checkmate the notice says lost iff it is the player's turn, and won otherwise; no other reason says won or lost |
| GameRoom.CheckmateAfterFlipSaysWon | src/pages/GameRoom.tsx:305-308 | read after the turn flip, the same rule tells the mover they won, and tells the mated side they lost |
| GameRoom.Room.constructor | src/pages/GameRoom.tsx:52-101 | initial state: white to move, both clocks 600 and running, empty move list, no moves played, one system chat message |
| GameRoom.Room.HandleGameEnd | src/pages/GameRoom.tsx:298-324 | the clocks stop and the notice for the reason is recorded |
| GameRoom.Room.TimerTick | src/pages/GameRoom.tsx:172-195 | the tick as evidently intended: only the side to move loses a second, only while positive; a clock at 0 ends the game on time and stops the clocks; nothing happens once stopped |
| GameRoom.Room.TimerTickAsWritten | src/pages/GameRoom.tsx:176-191 | the tick as written: the same clock updates, but the clocks keep running, and each tick while a clock reads 0 adds one more time-out notice |
| GameRoom.TimeoutNoticeRepeats | src/pages/GameRoom.tsx:176-191 | as written, two ticks from white's last second leave the clocks running and show the time-out notice twice |
| GameRoom.TimeoutNoticeOnce | src/pages/GameRoom.tsx:172-195 | with the corrected tick the same two ticks stop the clocks and show the notice once |
| GameRoom.Room.HandleMove | src/pages/GameRoom.tsx:197-280 | refused (false, nothing changes) unless it is the player's turn and chess.js accepts; otherwise the position updates, the game gains one move and the move list records it numbered from that count, the turn flips, flags are copied, mate ends the game as a win, a draw ends it as a draw |
| GameRoom.Room.HandleMoveAsWritten | src/pages/GameRoom.tsx:197-280 | the same guard and updates as the page writes them: a new row is numbered 1, and a mating move by the player ends the game with the "lost" notice, because the notice reads the turn that passed the guard |
| GameRoom.Room.HandleOpponentMove | src/pages/GameRoom.tsx:282-293 | the position is replaced and the game gains one move; a physical move raises the physical-move badge |
| GameRoom.Room.PhysicalMoveNoticeExpires | src/pages/GameRoom.tsx:292 | the physical-move badge is cleared |
| GameRoom.Room.HandleResign | src/pages/GameRoom.tsx:326-333 | a confirmed resignation ends the game with reason resign; otherwise nothing changes |
| GameRoom.Room.HandleDrawResponse | src/pages/GameRoom.tsx:345-352 | an accepted draw ends the game with reason draw; otherwise nothing changes |
| GameRoom.Room.SetChatInput | src/pages/GameRoom.tsx:625 | the chat box holds the typed text |
| GameRoom.Room.HandleSendMessage | src/pages/GameRoom.tsx:354-367 | blank input changes nothing; otherwise exactly one text message with the raw input, signed by the player, is appended and the input is cleared |
| ConnectBoard.DemoBoard | src/pages/ConnectBoard.tsx:38-43 | the simulated board reports the serial it was found under and 85% battery |
| ConnectBoard.StatusText | src/pages/ConnectBoard.tsx:118-127 | "متصل" iff connected, "جاري الاتصال..." iff connecting, and the default "غير متصل" otherwise |
| ConnectBoard.StatusTextInjective | src/pages/ConnectBoard.tsx:118-127 | the three connection states have three different texts |
| ConnectBoard.Connection.ShowsBoardDetails | src/pages/ConnectBoard.tsx:156 | the board details are shown iff the status is connected: in a valid state a connected board always has its details |
| ConnectBoard.Connection.constructor | src/pages/ConnectBoard.tsx:21-24 | starts disconnected, with no method, serial or board |
| ConnectBoard.Connection.ChooseMethod | src/pages/ConnectBoard.tsx:217 | the connection method is set or cleared |
| ConnectBoard.Connection.SetSerialNumber | src/pages/ConnectBoard.tsx:317 | the serial number holds the typed text |
| ConnectBoard.Connection.ConnectViaQr | src/pages/ConnectBoard.tsx:26-27 | the status becomes connecting |
| ConnectBoard.Connection.CompleteQrScan | src/pages/ConnectBoard.tsx:36-43 | the scan always connects to the demo board with serial SCH-2024-001 |
| ConnectBoard.Connection.ConnectViaSerial | src/pages/ConnectBoard.tsx:52-68 | a blank serial is refused with the status unchanged; otherwise the status becomes connecting and the current serial is looked up |
| ConnectBoard.Connection.CompleteSerialLookup | src/pages/ConnectBoard.tsx:71-92 | exactly SCH-2024-001 connects with a board reporting that serial; any other serial ends disconnected |
| ConnectBoard.Connection.Disconnect | src/pages/ConnectBoard.tsx:96-98 | disconnected with no board |
| Admin.SetBanned | src/pages/Admin.tsx:162-164 | exactly the users with the id get the flag; all other fields and users are unchanged; length and order are kept |
| Admin.SetBannedIdempotent | src/pages/Admin.tsx:181-183 | banning (or unbanning) twice equals doing it once |
| Admin.SetBannedLastWins | src/pages/Admin.tsx:159-195 | of two moderation actions on the same user, the later one decides |
| Admin.BanThenUnbanRestores | src/pages/Admin.tsx:159-195 | banning then unbanning a user who was not banned restores the list |
| Admin.GameStatusLabel | src/pages/Admin.tsx:460-476 | a game is labelled active iff it offers the force-end button; every other game is labelled finished |
| Admin.ShowsEndButton | src/pages/Admin.tsx:472 | every active game offers the force-end button and an ended game never does; `GameStatusLabel` ties it to the status label |
| Admin.EndGameIn | src/pages/Admin.tsx:200-202 | exactly the games with the id become "ended"; nothing else changes |
| Admin.EndedGameIsFinished | src/pages/Admin.tsx:460-476 | an ended game is labelled finished, has no end button, and ending it again changes nothing |
| Admin.DeleteInviteFrom | src/pages/Admin.tsx:219 | exactly the invites with the id are removed; the others keep their multiplicity |
| Admin.DeleteInviteKeepsOrder | src/pages/Admin.tsx:219 | deletion keeps the remaining invites in order |
| Admin.DeleteAbsentInvite | src/pages/Admin.tsx:219 | deleting an absent id changes nothing |
| Admin.FilteredUsers | src/pages/Admin.tsx:246-249 | a user is listed iff the lower-cased term occurs in the lower-cased username or e-mail |
| Admin.EmptySearchListsAll | src/pages/Admin.tsx:246-249 | an empty term lists every user, in order |
| Admin.SearchIgnoresTermCase | src/pages/Admin.tsx:247-248 | terms that differ only in ASCII letter case list the same users |
| Admin.StatusBadge | src/pages/Admin.tsx:233-243 | online is a green "متصل" badge, in-game a yellow "في مباراة" badge, offline a secondary "غير متصل" badge, and any other status is shown verbatim in an outlined badge |
| Admin.UserBadge | src/pages/Admin.tsx:388-392 | a banned user shows the ban badge whatever the status; otherwise the status badge |
| Admin.BanBadgeDistinct | src/pages/Admin.tsx:388-392 | no status badge coincides with the ban badge |
| Admin.AdminPanel.constructor | src/pages/Admin.tsx:29-33 | empty search term and empty lists |
| Admin.AdminPanel.LoadAdminData | src/pages/Admin.tsx:137-149 | the lists become the mock users, games and invites |
| Admin.AdminPanel.SetSearchTerm | src/pages/Admin.tsx:29 | the search term holds the typed text |
| Admin.AdminPanel.BanUser | src/pages/Admin.tsx:159-176 | users become `SetBanned(old users, id, true)` |
| Admin.AdminPanel.UnbanUser | src/pages/Admin.tsx:178-195 | users become `SetBanned(old users, id, false)` |
| Admin.AdminPanel.EndGame | src/pages/Admin.tsx:197-214 | games become `EndGameIn(old games, id)` |
| Admin.AdminPanel.DeleteInvite | src/pages/Admin.tsx:216-231 | invites become `DeleteInviteFrom(old invites, id)` |
| Admin.AdminPanel.ListedUsers | src/pages/Admin.tsx:373 | the table lists exactly the users matching the current term |
| Friends.StatusBadge | src/pages/Friends.tsx:230-238 | online iff online and not in a game; in a game iff the status or the flag says so (and not online-idle); offline otherwise |
| Friends.InviteOnlyWhenOnlineBadge | src/pages/Friends.tsx:351 | the invite control is offered iff the badge says online; a friend in a game is never offered one |
| Friends.OffersGameInvite | src/pages/Friends.tsx:351 | an online friend who is not in a game is offered the invite control, and no friend in a game, in-game or offline ever is |
| Friends.FilteredFriends | src/pages/Friends.tsx:240-242 | a friend is listed iff the lower-cased term occurs in the lower-cased username |
| Friends.EmptySearchListsAll | src/pages/Friends.tsx:240-242 | an empty term lists every friend, in order |
| Friends.WithoutInvite | src/pages/Friends.tsx:198 | exactly the invites with the id are removed; the others keep their multiplicity |
| Friends.WithoutInviteKeepsOrder | src/pages/Friends.tsx:216 | removal keeps the remaining invites in order |
| Friends.WithoutInviteIdempotent | src/pages/Friends.tsx:216 | removing twice equals removing once |
| Friends.FriendsPage.constructor | src/pages/Friends.tsx:30-34 | empty search, time "10", empty lists |
| Friends.FriendsPage.LoadFriendsData | src/pages/Friends.tsx:104-107 | the friends become the mock friends |
| Friends.FriendsPage.LoadInvites | src/pages/Friends.tsx:117-121 | the only writer of the sent invites: both invite lists become the mock data |
| Friends.FriendsPage.SetSearchTerm | src/pages/Friends.tsx:305 | the search box holds the typed text |
| Friends.FriendsPage.SetSelectedTime | src/pages/Friends.tsx:353 | the chosen time control is stored |
| Friends.RequestButtonEnabled | src/pages/Friends.tsx:309 | the request button is enabled iff the search box holds at least one character, spaces included |
| Friends.FriendsPage.SendFriendRequest | src/pages/Friends.tsx:151-158 | the search box is cleared, which disables the request button |
| Friends.FriendsPage.AcceptInvite | src/pages/Friends.tsx:189-203 | the invite is removed, the game page is scheduled, the sent invites are untouched |
| Friends.FriendsPage.DeclineInvite | src/pages/Friends.tsx:213-216 | the invite is removed; the sent invites are untouched |
| Friends.FriendsPage.ListedFriends | src/pages/Friends.tsx:318 | the cards show exactly the friends matching the current term |
| Play.AiGamePath | src/pages/Play.tsx:133 | the address of a game against the computer starts with the fixed prefix |
| Play.AiGamePathInjective | src/pages/Play.tsx:133 | the physical-board answer can be read back from the address |
| Play.GamePathsDistinct | src/pages/Play.tsx:48 | the computer-game address is neither the friends page nor the matchmaking game |
| Play.Lobby.constructor | src/pages/Play.tsx:25-29 | time "10", not searching, no physical board, dialog closed, no pending mode |
| Play.Lobby.StartGameMode | src/pages/Play.tsx:120-123 | the mode is pending and the dialog opens |
| Play.Lobby.FindRandomOpponent | src/pages/Play.tsx:76-99 | searching starts and the matchmaking game page is scheduled |
| Play.Lobby.ConfirmGameMode | src/pages/Play.tsx:125-136 | the answer is stored and the dialog closes; pending random starts the search, pending ai opens the computer game, anything else does neither; the pending mode is cleared |
| Play.Lobby.QuickPlay | src/pages/Play.tsx:138-141 | the time is set, then a random game is pending with the dialog open |
| Play.Lobby.ChoosePlayMode | src/pages/Play.tsx:40-68 | the friend card opens the friends page; the other two start their mode |
| Play.Lobby.CancelSearch | src/pages/Play.tsx:111-112 | searching stops; the scheduled navigation stays |
| Play.Lobby.DismissModeDialog | src/pages/Play.tsx:383 | the dialog closes and the pending mode is kept |
| Play.Lobby.SetSelectedTime | src/pages/Play.tsx:266 | the chosen time is stored |
| Play.Lobby.TogglePhysicalBoard | src/pages/Play.tsx:290 | the physical-board setting flips |
| Courses.FilteredCourses | src/pages/Courses.tsx:129-131 | "all" returns the list unchanged; any other category gives exactly its courses with their multiplicities |
| Courses.FilterByCategoryIdempotent | src/pages/Courses.tsx:129-131 | filtering again by the same category changes nothing |
| Courses.FilterByCategoryKeepsOrder | src/pages/Courses.tsx:131 | the filtered courses keep catalogue order |
| Courses.StrategyCategoryEmpty | src/pages/Courses.tsx:120-127 | the strategy category has a button but no course |
| Courses.LevelColor | src/pages/Courses.tsx:149-156 | beginner is green, intermediate yellow, advanced red, and any other level gray |
| Courses.LevelColorsDistinct | src/pages/Courses.tsx:149-156 | the three levels get three different colours, none of them gray |
| Courses.FreshEnrolmentShowsZero | src/pages/Courses.tsx:424 | as written, an enrolled course at 0% renders a stray "0" |
| Courses.ProgressCell | src/pages/Courses.tsx:242 | a bar is shown iff enrolled with defined, non-zero progress, at that percentage; never a stray "0"; elsewhere agrees with the page |
| Courses.ProgressCellAsWritten | src/pages/Courses.tsx:242 | as written, the cell is a stray "0" exactly for an enrolled course at progress 0, and a bar, at the course's percentage, exactly when the intended cell shows one |
| Courses.CatalogueProgress | src/pages/Courses.tsx:53-110 | in the catalogue only the two enrolled courses show a bar (75% and 30%) |
| Courses.CoursesPage.constructor | src/pages/Courses.tsx:50-51 | no course open, category "all" |
| Courses.CoursesPage.VisibleCourses | src/pages/Courses.tsx:129-131 | the cards are catalogue courses, all of them under "all" |
| Courses.CoursesPage.SelectCategory | src/pages/Courses.tsx:368 | the category is set and the open course kept |
| Courses.CoursesPage.OpenCourse | src/pages/Courses.tsx:387 | the course opens |
| Courses.CoursesPage.CloseCourse | src/pages/Courses.tsx:199 | the detail view closes with the category kept |
| Courses.CoursesPage.EnrollInCourse | src/pages/Courses.tsx:133-139 | no page state changes |
| Courses.CoursesPage.StartLesson | src/pages/Courses.tsx:141-147 | no page state changes |
| Dashboard.StatusColor | src/pages/Dashboard.tsx:131-138 | online gets the green dot, in-game the primary-coloured one, offline and unknown statuses the gray one |
| Dashboard.StatusText | src/pages/Dashboard.tsx:140-147 | online reads "متاح", in-game "في مباراة", offline "غير متصل", and any other status "غير معروف" |
| Dashboard.StatusTextInjective | src/pages/Dashboard.tsx:140-147 | the label of a known status determines it |
| Dashboard.ChallengeIffAvailable | src/pages/Dashboard.tsx:303 | the challenge button shows iff the friend is labelled available, iff the dot is green |
| Dashboard.ShowsChallenge | src/pages/Dashboard.tsx:303 | the challenge button is shown exactly for the friends whose status dot is green |
| Dashboard.WithoutInvite | src/pages/Dashboard.tsx:125 | exactly the invites with the id are removed; the others keep their multiplicity |
| Dashboard.WithoutInviteKeepsOrder | src/pages/Dashboard.tsx:125 | the remaining invites keep their order |
| Dashboard.DashboardPage.constructor | src/pages/Dashboard.tsx:80-99 | the lists are the mock friends and invites |
| Dashboard.DashboardPage.HandleAcceptInvite | src/pages/Dashboard.tsx:112-120 | the invite list is unchanged |
| Dashboard.DashboardPage.HandleDeclineInvite | src/pages/Dashboard.tsx:122-129 | the invites become `WithoutInvite(old invites, id)` |
| Auth.BalancedEndsLowered | src/pages/Auth.tsx:43-45 | a log of whole submissions alternates raise and lower and ends lowered |
| Auth.SubmissionKeepsBalanced | src/pages/Auth.tsx:60-83 | one more raise-then-lower keeps the log whole |
| Auth.AuthForm.constructor | src/pages/Auth.tsx:10-17 | empty forms, not loading |
| Auth.AuthForm.SetLoginData | src/pages/Auth.tsx:10 | the login form holds the typed data |
| Auth.AuthForm.SetRegisterData | src/pages/Auth.tsx:11-16 | the registration form holds the typed data |
| Auth.AuthForm.HandleLogin | src/pages/Auth.tsx:20-46 | loading is set true, then false whatever the outcome; the forms are untouched |
| Auth.AuthForm.HandleRegister | src/pages/Auth.tsx:48-84 | mismatching passwords are refused with loading untouched; otherwise loading goes true then false; the forms are untouched |

## Left out

- The rules of chess are left out: legality, SAN, FEN, check, mate and draw belong to the chess.js library. They enter the model only as the oracle data described above. The promotion default `'q'` of the game room is part of chess.js's answer.
- The highlight classes of a board square (selected ring, destination dot, king-in-check pulse) are left out. They are CSS class strings that change no state.
- Timers and their delays are left out: each callback is a method called when it fires. Wall-clock time is not modelled. Neither is clearing an interval when a hook dependency changes.
- React scheduling is left out: batching, render timing and stale closures. Each handler is one sequential update. Two places where React's order changes an outcome are modelled as findings: the checkmate notice, which reads a stale turn, and the time-out tick, whose nested `isRunning: false` update is overwritten by the updater's own result.
- Toast contents are left out, except the game-end notices and the sign-in outcomes. Toast-only handlers are left out: the game room's draw offer, the friends page's game invite, the dashboard's quick game.
- `window.confirm` in the game room's resign handler becomes the `confirmed` parameter.
- The REST and socket calls exist in the source only as comments and are not modelled. The admin access check compares a constant role and always passes. The sign-in handlers' request is the `requestSucceeds` parameter.
- `Date.now()` message ids, timestamps and `toLocaleTimeString` are left out.
- The game room's sound, fullscreen and connection indicators and the player ratings are left out: they are display-only state.
- The level-map SVG progress ratio of the puzzle page is left out (fractional display arithmetic). The node positions are constants and are left out too.
- The decimal course ratings and the lesson list of the courses page are left out (static display data).
- Common.Lower: `toLowerCase` is modelled on ASCII letters only. The Arabic names in the data have no case, and full Unicode case mapping is not modelled.
- Common.IsBlank: `trim()` emptiness covers only the ASCII white-space characters, not the other Unicode spaces JavaScript also strips.
- GameRoom.Room.HandleMove: the turn guard reads the player's colour, which the page fixes to white. The opponent's moves arrive through `HandleOpponentMove`, which only replaces the position, as in the source. So the alternating replay of `ReplayPairsMoves` describes the move-list updater itself, not a sequence the page performs. The move count `plies` that numbers the rows stands for the history of a game that keeps it; the page has no such count.
- GameRoom.Room: the game's `status` field is never changed by any handler, so it stays "active" after the game ends. The model keeps that behaviour.
- Play.Lobby.CancelSearch: the navigation scheduled by the search timer is not withdrawn, as in the source.

## Findings

| source | as written | input that shows it | evidently intended | confidence | as-written member | corrected member |
|---|---|---|---|---|---|---|
| src/components/ChessBoard.tsx:97 | the piece drawn in a cell is `board[8 - rank][files.indexOf(file)]`, which indexes the board by the display column | black orientation with a queen on d1 and a king on e1: the cell labelled d1 draws the king | each square draws its own piece, `board[8 - rank][file - 'a']` | not executed; latent, since every shipped caller passes the white orientation | ChessBoard.MirroredForBlack | ChessBoard.DrawnPieceFollowsSquare |
| src/pages/GameRoom.tsx:176-191, 299 | `handleGameEnd('timeout')` is called inside the `setTimers` updater. Its `isRunning: false` update is queued before the updater's own result, which still has `isRunning` true and is applied last | white to move with 1 second left and black with 600, two ticks: the clocks keep running and the time-out notice is shown twice, then once more every second | the clocks stop and the notice is shown once | not executed; reachable by not moving for 600 seconds; the outcome depends on React applying the updater's result after the nested update | GameRoom.TimeoutNoticeRepeats | GameRoom.TimeoutNoticeOnce |
| src/pages/GameRoom.tsx:263-264, 307 | after the player's own mating move, `handleGameEnd('checkmate')` reads the turn from before the move. The turn guard made that turn equal to the player's colour | hypothetically, the player (white) plays a move that chess.js reports as checkmate: the notice says "للأسف، خسرت المباراة" | the player who mates is told "مبروك! فزت بالمباراة" | not executed; latent, since the page lets the player make one move only, from the start position (the opponent's moves arrive only through the commented-out socket handler, so the turn never comes back), and no first move mates | GameRoom.Room.HandleMoveAsWritten | GameRoom.Room.HandleMove |
| src/pages/GameRoom.tsx:209, 221 | the row number is `floor(gameCopy.history().length / 2) + 1`, where `gameCopy = new Chess(game.fen())` starts with an empty history, so the length is always 1 | hypothetically, white plays e4, black e5, white Nf3: the Nf3 row is numbered 1, like every row | row k is numbered k+1, the full-move number | not executed; latent, since the page records only the player's one move (the opponent's moves arrive only through the commented-out socket handler), and that first row is rightly numbered 1 | GameRoom.ReplayAsWrittenNumbersEveryRowOne | GameRoom.ReplayPairsMoves |
| src/pages/Courses.tsx:242, 424 | `isEnrolled && progress && <bar/>` evaluates to the number 0 for an enrolled course at 0%, and React renders it as the text "0" | hypothetically, the tactics course enrolled with progress 0 | nothing is rendered when there is no progress | not executed; latent, since the course list is a constant whose enrolled courses have progress 75 and 30, and `enrollInCourse` only shows a notice | Courses.FreshEnrolmentShowsZero | Courses.ProgressCell |
