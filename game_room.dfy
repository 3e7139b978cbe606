/**
 * The live game room (src/pages/GameRoom.tsx): two countdown clocks, the local player's
 * move handler with its turn guard, the numbered white/black move list, game-end handling
 * and the chat box.
 *
 * chess.js decides whether a move is legal and reports its SAN, the new FEN, the history
 * length and the check/mate/draw flags; `HandleMove` receives that answer as a
 * `MoveOutcome` (or `None` when chess.js rejects the move).
 */
module GameRoom {
  import opened Common

  // ---------------------------------------------------------------------------
  // Move list (lines 220-240)
  // ---------------------------------------------------------------------------

  /**
   * A row of the move list: its number, the white and black SAN (optional fields in the
   * page), and the SAN and FEN of the move that created the row.
   */
  datatype MoveRow = MoveRow(moveNumber: int, white: Option<string>, black: Option<string>, san: string, fen: string)

  function Entry(row: MoveRow, side: Side): Option<string> {
    if side == White then row.white else row.black
  }

  /** `!lastMove.white` / `!lastMove.black`: the entry is missing or the empty string. */
  predicate Lacks(entry: Option<string>) {
    entry.None? || entry.value == ""
  }

  /** `{ ...lastMove, [side]: san }` */
  function WithEntry(row: MoveRow, side: Side, san: string): MoveRow {
    if side == White then row.(white := Some(san)) else row.(black := Some(san))
  }

  /** The row a move opens: number `floor(historyLength / 2) + 1`, holding the mover's SAN. */
  function NewRow(mover: Side, san: string, fen: string, historyLength: nat): (row: MoveRow)
    ensures row.moveNumber == historyLength / 2 + 1
    ensures Entry(row, mover) == Some(san) && Entry(row, mover.Other()).None?
  {
    MoveRow(historyLength / 2 + 1,
            if mover == White then Some(san) else None,
            if mover == Black then Some(san) else None,
            san, fen)
  }

  /**
   * The `setMoves` updater: when the last row lacks the mover's entry it is filled in and the
   * list keeps its length; otherwise exactly one new row is appended. Earlier rows never change.
   */
  function RecordMove(rows: seq<MoveRow>, mover: Side, san: string, fen: string, historyLength: nat): (r: seq<MoveRow>)
    ensures |rows| > 0 && Lacks(Entry(rows[|rows| - 1], mover)) ==>
      |r| == |rows| && r[..|rows| - 1] == rows[..|rows| - 1]
      && Entry(r[|rows| - 1], mover) == Some(san)
      && Entry(r[|rows| - 1], mover.Other()) == Entry(rows[|rows| - 1], mover.Other())
      && r[|rows| - 1].moveNumber == rows[|rows| - 1].moveNumber
    ensures !(|rows| > 0 && Lacks(Entry(rows[|rows| - 1], mover))) ==>
      |r| == |rows| + 1 && r[..|rows|] == rows && r[|rows|] == NewRow(mover, san, fen, historyLength)
  {
    if |rows| > 0 && Lacks(Entry(rows[|rows| - 1], mover)) then
      rows[|rows| - 1 := WithEntry(rows[|rows| - 1], mover, san)]
    else
      rows + [NewRow(mover, san, fen, historyLength)]
  }

  /** The side that plays the i-th move (0-based) of a game starting with White. */
  function MoverOf(i: nat): Side {
    if i % 2 == 0 then White else Black
  }

  /**
   * The history length the page reads after a move: `gameCopy` is built with
   * `new Chess(game.fen())`, which starts with an empty history, so after the move it holds
   * exactly that one move.
   */
  const CopyHistoryLength: nat := 1

  /**
   * The move list after recording the given moves one by one, alternately by White and
   * Black, numbering each new row from the number of moves played so far: the history
   * length that a game keeping its whole history reports after the move.
   */
  function Replay(sans: seq<string>, fens: seq<string>): (rows: seq<MoveRow>)
    requires |fens| == |sans|
    ensures |rows| <= |sans|
  {
    if sans == [] then []
    else
      var n := |sans|;
      RecordMove(Replay(sans[..n - 1], fens[..n - 1]), MoverOf(n - 1), sans[n - 1], fens[n - 1], n)
  }

  /** The same replay as the page computes it, with the history length of the FEN copy. */
  function ReplayAsWritten(sans: seq<string>, fens: seq<string>): (rows: seq<MoveRow>)
    requires |fens| == |sans|
    ensures |rows| <= |sans|
    ensures |rows| > 0 ==> rows[|rows| - 1].moveNumber == 1
  {
    if sans == [] then []
    else
      var n := |sans|;
      RecordMove(ReplayAsWritten(sans[..n - 1], fens[..n - 1]), MoverOf(n - 1), sans[n - 1], fens[n - 1], CopyHistoryLength)
  }

  /** Row k holds move 2k as White's entry and move 2k + 1, once played, as Black's. */
  predicate RowPairs(row: MoveRow, k: nat, sans: seq<string>) {
    && row.moveNumber == k + 1
    && 2 * k < |sans|
    && row.white == Some(sans[2 * k])
    && row.black == (if 2 * k + 1 < |sans| then Some(sans[2 * k + 1]) else None)
  }

  /** After n moves there are ceil(n/2) rows and every row is paired as above. */
  predicate Paired(rows: seq<MoveRow>, sans: seq<string>) {
    && |rows| == (|sans| + 1) / 2
    && forall k: nat :: k < |rows| ==> RowPairs(rows[k], k, sans)
  }

  /** A White move opens a new row after a list whose rows are all complete. */
  lemma {:induction false} WhiteMoveOpensRow(rows: seq<MoveRow>, prefix: seq<string>, san: string, fen: string)
    requires |prefix| % 2 == 0 && Paired(rows, prefix)
    requires forall i :: 0 <= i < |prefix| ==> prefix[i] != ""
    ensures Paired(RecordMove(rows, White, san, fen, |prefix| + 1), prefix + [san])
  {
    var sans := prefix + [san];
    if |rows| > 0 {
      var k := |rows| - 1;
      assert RowPairs(rows[k], k, prefix);
      assert 2 * k + 1 == |prefix| - 1;
      assert !Lacks(Entry(rows[k], White));
    }
    var r := RecordMove(rows, White, san, fen, |prefix| + 1);
    assert r == rows + [NewRow(White, san, fen, |prefix| + 1)];
    forall k: nat | k < |r| ensures RowPairs(r[k], k, sans) {
      if k < |rows| {
        assert RowPairs(rows[k], k, prefix);
        assert sans[2 * k] == prefix[2 * k] && sans[2 * k + 1] == prefix[2 * k + 1];
      }
    }
  }

  /** A Black move completes the last row, which was waiting for it. */
  lemma {:induction false} BlackMoveFillsRow(rows: seq<MoveRow>, prefix: seq<string>, san: string, fen: string)
    requires |prefix| % 2 == 1 && Paired(rows, prefix)
    ensures Paired(RecordMove(rows, Black, san, fen, |prefix| + 1), prefix + [san])
  {
    var sans := prefix + [san];
    var k := |rows| - 1;
    assert RowPairs(rows[k], k, prefix);
    assert 2 * k == |prefix| - 1;
    assert Lacks(Entry(rows[k], Black));
    var r := RecordMove(rows, Black, san, fen, |prefix| + 1);
    forall j: nat | j < |r| ensures RowPairs(r[j], j, sans) {
      if j < k {
        assert r[j] == rows[j];
        assert RowPairs(rows[j], j, prefix);
        assert sans[2 * j] == prefix[2 * j] && sans[2 * j + 1] == prefix[2 * j + 1];
      } else {
        assert sans[2 * j] == prefix[2 * j];
      }
    }
  }

  /**
   * Moves pair up into numbered rows: after n moves there are ceil(n/2) rows, row k is
   * numbered k + 1 and holds move 2k as White's entry and move 2k + 1 (if played) as
   * Black's.
   */
  lemma {:induction false} ReplayPairsMoves(sans: seq<string>, fens: seq<string>)
    requires |fens| == |sans|
    requires forall i :: 0 <= i < |sans| ==> sans[i] != ""
    ensures Paired(Replay(sans, fens), sans)
  {
    if sans != [] {
      var n := |sans|;
      var prefix, pfens := sans[..n - 1], fens[..n - 1];
      assert sans == prefix + [sans[n - 1]];
      ReplayPairsMoves(prefix, pfens);
      if (n - 1) % 2 == 0 {
        WhiteMoveOpensRow(Replay(prefix, pfens), prefix, sans[n - 1], fens[n - 1]);
      } else {
        BlackMoveFillsRow(Replay(prefix, pfens), prefix, sans[n - 1], fens[n - 1]);
      }
    }
  }

  /**
   * As written, the list pairs the moves exactly as intended but every row is numbered 1:
   * the numbers come from the one-move history of the FEN copy.
   */
  lemma {:induction false} ReplayAsWrittenNumbersEveryRowOne(sans: seq<string>, fens: seq<string>)
    requires |fens| == |sans|
    ensures RenumberedOne(ReplayAsWritten(sans, fens), Replay(sans, fens))
  {
    if sans != [] {
      var n := |sans|;
      var prefix, pfens := sans[..n - 1], fens[..n - 1];
      ReplayAsWrittenNumbersEveryRowOne(prefix, pfens);
      var a, b := ReplayAsWritten(prefix, pfens), Replay(prefix, pfens);
      RecordMoveRenumbered(a, b, MoverOf(n - 1), sans[n - 1], fens[n - 1], n);
      assert ReplayAsWritten(sans, fens) == RecordMove(a, MoverOf(n - 1), sans[n - 1], fens[n - 1], CopyHistoryLength);
      assert Replay(sans, fens) == RecordMove(b, MoverOf(n - 1), sans[n - 1], fens[n - 1], n);
    }
  }

  /** `a` is `b` with every row numbered 1. */
  predicate RenumberedOne(a: seq<MoveRow>, b: seq<MoveRow>) {
    |a| == |b| && forall k :: 0 <= k < |b| ==> a[k] == b[k].(moveNumber := 1)
  }

  /** Recording one move keeps two lists that differ only in their row numbers that way. */
  lemma RecordMoveRenumbered(a: seq<MoveRow>, b: seq<MoveRow>, mover: Side, san: string, fen: string, n: nat)
    requires RenumberedOne(a, b)
    ensures RenumberedOne(RecordMove(a, mover, san, fen, CopyHistoryLength), RecordMove(b, mover, san, fen, n))
  {
    if |b| > 0 {
      assert Entry(a[|a| - 1], mover) == Entry(b[|b| - 1], mover);
    }
  }

  /** White's second move (the third move of the game) opens a row the page numbers 1, not 2. */
  lemma SecondRowNumberedOne()
    ensures |Replay(["e4", "e5", "Nf3"], ["", "", ""])| == 2
            && Replay(["e4", "e5", "Nf3"], ["", "", ""])[1].moveNumber == 2
    ensures |ReplayAsWritten(["e4", "e5", "Nf3"], ["", "", ""])| == 2
            && ReplayAsWritten(["e4", "e5", "Nf3"], ["", "", ""])[1].moveNumber == 1
  {
    ReplayPairsMoves(["e4", "e5", "Nf3"], ["", "", ""]);
    ReplayAsWrittenNumbersEveryRowOne(["e4", "e5", "Nf3"], ["", "", ""]);
  }

  // ---------------------------------------------------------------------------
  // Game end (lines 298-324)
  // ---------------------------------------------------------------------------

  datatype EndReason = Checkmate | Timeout | Resign | Draw

  const LostMessage := "للأسف، خسرت المباراة"
  const WonMessage := "مبروك! فزت بالمباراة"

  /**
   * The notice `handleGameEnd` shows. On checkmate it reads whose turn it is: the side to
   * move is the mated side, so the local player lost exactly when it is their turn.
   */
  function EndMessage(reason: EndReason, turn: Side, player: Side): (msg: string)
    ensures reason == Checkmate ==> (msg == LostMessage <==> turn == player)
    ensures reason == Checkmate ==> (msg == WonMessage <==> turn != player)
    ensures reason != Checkmate ==> msg != LostMessage && msg != WonMessage
  {
    assert LostMessage[0] != WonMessage[0];
    match reason
    case Checkmate => if turn == player then LostMessage else WonMessage
    case Timeout => "انتهى الوقت"
    case Resign => "استسلم اللاعب"
    case Draw => "انتهت المباراة بالتعادل"
  }

  /**
   * Read after the turn flip, the same rule names the mover the winner: once the player
   * has moved it is the opponent's turn, and the opponent is the mated side.
   */
  lemma CheckmateAfterFlipSaysWon(player: Side)
    ensures EndMessage(Checkmate, player.Other(), player) == WonMessage
    ensures EndMessage(Checkmate, player, player) == LostMessage
  {
  }

  // ---------------------------------------------------------------------------
  // The room's state
  // ---------------------------------------------------------------------------

  datatype MessageKind = Text | Emoji | System

  /** A chat entry without its generated id and timestamp. */
  datatype ChatMessage = ChatMessage(userId: string, username: string, message: string, kind: MessageKind)

  /** What chess.js reports for an accepted move. */
  datatype MoveOutcome = MoveOutcome(san: string, fen: string, inCheck: bool, isCheckmate: bool, isDraw: bool)

  function PlayerId(side: Side): string {
    if side == White then "user1" else "user2"
  }

  function PlayerName(side: Side): string {
    if side == White then "أحمد الشطرنجي" else "فاطمة الاستراتيجية"
  }

  const StartFen := "rnbqkbnr/pppppppp/8/8/8/8/PPPPPPPP/RNBQKBNR w KQkq - 0 1"
  const StartSeconds := 600

  class Room {
    /** The colour the local user plays; the page fixes it to white. */
    const currentPlayer: Side
    var fen: string
    var status: string
    var currentTurn: Side
    var isCheck: bool
    var isCheckmate: bool
    var isDraw: bool
    var whiteTime: int
    var blackTime: int
    var isRunning: bool
    var moves: seq<MoveRow>
    var chat: seq<ChatMessage>
    var chatInput: string
    var isPhysicalMove: bool
    /** Each `handleGameEnd` call: the reason and the notice it showed. */
    var endings: seq<(EndReason, string)>
    /**
     * The moves the game has seen, by either side: the history length a game that keeps its
     * history reports. The page itself has no such count (see `CopyHistoryLength`).
     */
    var plies: nat

    /** Neither clock is ever negative. */
    ghost predicate Valid()
      reads this
    {
      whiteTime >= 0 && blackTime >= 0
    }

    constructor ()
      ensures Valid() && currentPlayer == White
      ensures fen == StartFen && status == "active" && currentTurn == White
      ensures !isCheck && !isCheckmate && !isDraw
      ensures whiteTime == StartSeconds && blackTime == StartSeconds && isRunning
      ensures moves == [] && chatInput == "" && !isPhysicalMove && endings == [] && plies == 0
      ensures chat == [ChatMessage("system", "النظام", "بدأت المباراة! حظاً موفقاً للاعبين", System)]
    {
      currentPlayer := White;
      fen := StartFen;
      status := "active";
      currentTurn := White;
      isCheck, isCheckmate, isDraw := false, false, false;
      whiteTime, blackTime := StartSeconds, StartSeconds;
      isRunning := true;
      moves := [];
      chat := [ChatMessage("system", "النظام", "بدأت المباراة! حظاً موفقاً للاعبين", System)];
      chatInput := "";
      isPhysicalMove := false;
      endings := [];
      plies := 0;
    }

    /** `handleGameEnd(reason)`: stop the clocks and show the notice for the reason. */
    method HandleGameEnd(reason: EndReason)
      requires Valid()
      modifies this`isRunning, this`endings
      ensures Valid() && !isRunning
      ensures endings == old(endings) + [(reason, EndMessage(reason, currentTurn, currentPlayer))]
    {
      isRunning := false;
      endings := endings + [(reason, EndMessage(reason, currentTurn, currentPlayer))];
    }

    /**
     * One second of the clock interval (lines 172-195) as evidently intended. Only the side to
     * move loses a second, and only while its clock is positive; a clock at zero ends the game
     * on time and stops the clocks. `TimerTickAsWritten` is the page's own version.
     */
    method TimerTick()
      requires Valid()
      modifies this`whiteTime, this`blackTime, this`isRunning, this`endings
      ensures Valid()
      ensures !old(isRunning) ==> whiteTime == old(whiteTime) && blackTime == old(blackTime)
                                  && isRunning == old(isRunning) && endings == old(endings)
      ensures old(isRunning) ==>
        whiteTime == (if currentTurn == White && old(whiteTime) > 0 then old(whiteTime) - 1 else old(whiteTime))
        && blackTime == (if currentTurn == Black && old(blackTime) > 0 then old(blackTime) - 1 else old(blackTime))
      ensures old(isRunning) && (whiteTime == 0 || blackTime == 0) ==>
        !isRunning && endings == old(endings) + [(Timeout, EndMessage(Timeout, currentTurn, currentPlayer))]
      ensures old(isRunning) && whiteTime != 0 && blackTime != 0 ==> isRunning && endings == old(endings)
    {
      if !isRunning {
        return;
      }
      if currentTurn == White && whiteTime > 0 {
        whiteTime := whiteTime - 1;
      } else if currentTurn == Black && blackTime > 0 {
        blackTime := blackTime - 1;
      }
      if whiteTime == 0 || blackTime == 0 {
        HandleGameEnd(Timeout);
      }
    }

    /**
     * The clock interval as the page writes it. `handleGameEnd('timeout')` runs inside the
     * `setTimers` updater: its own `isRunning: false` update is queued first, and the updater's
     * result, a copy of the clocks that still runs, is applied after it. So the clocks keep
     * running, and every tick while a clock reads zero shows the time-out notice again.
     */
    method TimerTickAsWritten()
      requires Valid()
      modifies this`whiteTime, this`blackTime, this`isRunning, this`endings
      ensures Valid() && isRunning == old(isRunning)
      ensures !old(isRunning) ==> whiteTime == old(whiteTime) && blackTime == old(blackTime) && endings == old(endings)
      ensures old(isRunning) ==>
        whiteTime == (if currentTurn == White && old(whiteTime) > 0 then old(whiteTime) - 1 else old(whiteTime))
        && blackTime == (if currentTurn == Black && old(blackTime) > 0 then old(blackTime) - 1 else old(blackTime))
      ensures old(isRunning) && (whiteTime == 0 || blackTime == 0) ==>
        endings == old(endings) + [(Timeout, EndMessage(Timeout, currentTurn, currentPlayer))]
      ensures old(isRunning) && whiteTime != 0 && blackTime != 0 ==> endings == old(endings)
    {
      if !isRunning {
        return;
      }
      if currentTurn == White && whiteTime > 0 {
        whiteTime := whiteTime - 1;
      } else if currentTurn == Black && blackTime > 0 {
        blackTime := blackTime - 1;
      }
      if whiteTime == 0 || blackTime == 0 {
        var running := isRunning;
        HandleGameEnd(Timeout);
        // the updater's own copy of the clocks is applied after the nested update
        isRunning := running;
      }
    }

    /**
     * `handleMove`: refused unless it is the local player's turn; otherwise chess.js's
     * answer decides. An accepted move updates the position, records the SAN in the move
     * list, flips the turn, copies the check flags, and ends the game on mate or draw.
     *
     * This is the handler as evidently intended: the new row is numbered from the game's
     * whole history, and the game end is read after the turn flip, so the player who mates
     * is told they won. `HandleMoveAsWritten` is the page's own version.
     */
    method HandleMove(outcome: Option<MoveOutcome>) returns (ok: bool)
      requires Valid()
      modifies this`fen, this`moves, this`currentTurn, this`isCheck, this`isCheckmate, this`isDraw,
               this`isRunning, this`endings, this`plies
      ensures Valid()
      ensures ok <==> old(currentTurn) == currentPlayer && outcome.Some?
      ensures !ok ==> fen == old(fen) && moves == old(moves) && currentTurn == old(currentTurn)
                      && isCheck == old(isCheck) && isCheckmate == old(isCheckmate) && isDraw == old(isDraw)
                      && isRunning == old(isRunning) && endings == old(endings) && plies == old(plies)
      ensures ok ==>
        var m := outcome.value;
        && fen == m.fen && plies == old(plies) + 1
        && moves == RecordMove(old(moves), currentPlayer, m.san, m.fen, plies)
        && currentTurn == currentPlayer.Other()
        && isCheck == m.inCheck && isCheckmate == m.isCheckmate && isDraw == m.isDraw
        && (m.isCheckmate ==> !isRunning && endings == old(endings) + [(Checkmate, WonMessage)])
        && (!m.isCheckmate && m.isDraw ==> !isRunning && endings == old(endings) + [(Draw, EndMessage(Draw, currentTurn, currentPlayer))])
        && (!m.isCheckmate && !m.isDraw ==> isRunning == old(isRunning) && endings == old(endings))
    {
      if currentTurn != currentPlayer {
        return false;
      }
      if outcome.None? {
        return false;
      }
      var m := outcome.value;
      fen := m.fen;
      plies := plies + 1;
      moves := RecordMove(moves, currentPlayer, m.san, m.fen, plies);
      currentTurn := if currentPlayer == White then Black else White;
      isCheck, isCheckmate, isDraw := m.inCheck, m.isCheckmate, m.isDraw;
      if m.isCheckmate {
        HandleGameEnd(Checkmate);
      } else if m.isDraw {
        HandleGameEnd(Draw);
      }
      ok := true;
    }

    /**
     * `handleMove` as the page writes it. The new row is numbered from the one-move history
     * of the FEN copy, and `handleGameEnd` runs in the closure of the render that passed the
     * turn guard, so it still sees the turn before the flip: the player's own colour.
     */
    method HandleMoveAsWritten(outcome: Option<MoveOutcome>) returns (ok: bool)
      requires Valid()
      modifies this`fen, this`moves, this`currentTurn, this`isCheck, this`isCheckmate, this`isDraw,
               this`isRunning, this`endings
      ensures Valid()
      ensures ok <==> old(currentTurn) == currentPlayer && outcome.Some?
      ensures !ok ==> fen == old(fen) && moves == old(moves) && currentTurn == old(currentTurn)
                      && isCheck == old(isCheck) && isCheckmate == old(isCheckmate) && isDraw == old(isDraw)
                      && isRunning == old(isRunning) && endings == old(endings)
      ensures ok ==>
        var m := outcome.value;
        && fen == m.fen
        && moves == RecordMove(old(moves), currentPlayer, m.san, m.fen, CopyHistoryLength)
        && (|moves| > |old(moves)| ==> moves[|moves| - 1].moveNumber == 1)
        && currentTurn == currentPlayer.Other()
        && isCheck == m.inCheck && isCheckmate == m.isCheckmate && isDraw == m.isDraw
        && (m.isCheckmate ==> !isRunning && endings == old(endings) + [(Checkmate, LostMessage)])
        && (!m.isCheckmate && m.isDraw ==> !isRunning && endings == old(endings) + [(Draw, EndMessage(Draw, currentTurn, currentPlayer))])
        && (!m.isCheckmate && !m.isDraw ==> isRunning == old(isRunning) && endings == old(endings))
    {
      if currentTurn != currentPlayer {
        return false;
      }
      if outcome.None? {
        return false;
      }
      var m := outcome.value;
      fen := m.fen;
      moves := RecordMove(moves, currentPlayer, m.san, m.fen, CopyHistoryLength);
      isCheck, isCheckmate, isDraw := m.inCheck, m.isCheckmate, m.isDraw;
      if m.isCheckmate {
        HandleGameEnd(Checkmate);
      } else if m.isDraw {
        HandleGameEnd(Draw);
      }
      currentTurn := if currentPlayer == White then Black else White;
      ok := true;
    }

    /**
     * `handleOpponentMove(san, fen, isPhysical)`: adopt the new position; flag a move made on
     * the physical board. The opponent's move is one more move of the game.
     */
    method HandleOpponentMove(newFen: string, isPhysical: bool)
      requires Valid()
      modifies this`fen, this`isPhysicalMove, this`plies
      ensures Valid() && fen == newFen && plies == old(plies) + 1
      ensures isPhysicalMove == (isPhysical || old(isPhysicalMove))
    {
      fen := newFen;
      plies := plies + 1;
      if isPhysical {
        isPhysicalMove := true;
      }
    }

    /** The three-second timer that hides the physical-move badge. */
    method PhysicalMoveNoticeExpires()
      requires Valid()
      modifies this`isPhysicalMove
      ensures Valid() && !isPhysicalMove
    {
      isPhysicalMove := false;
    }

    /** `handleResign`, with the confirmation dialog's answer as a parameter. */
    method HandleResign(confirmed: bool)
      requires Valid()
      modifies this`isRunning, this`endings
      ensures Valid()
      ensures confirmed ==> !isRunning && endings == old(endings) + [(Resign, EndMessage(Resign, currentTurn, currentPlayer))]
      ensures !confirmed ==> isRunning == old(isRunning) && endings == old(endings)
    {
      if confirmed {
        HandleGameEnd(Resign);
      }
    }

    /** `handleDrawResponse(accept)`: an accepted draw ends the game. */
    method HandleDrawResponse(accept: bool)
      requires Valid()
      modifies this`isRunning, this`endings
      ensures Valid()
      ensures accept ==> !isRunning && endings == old(endings) + [(Draw, EndMessage(Draw, currentTurn, currentPlayer))]
      ensures !accept ==> isRunning == old(isRunning) && endings == old(endings)
    {
      if accept {
        HandleGameEnd(Draw);
      }
    }

    /** The chat input's change handler. */
    method SetChatInput(text: string)
      modifies this`chatInput
      ensures chatInput == text
    {
      chatInput := text;
    }

    /**
     * `handleSendMessage`: blank input is ignored; otherwise one text message with the raw
     * input, signed by the local player, is appended and the input is cleared.
     */
    method HandleSendMessage()
      requires Valid()
      modifies this`chat, this`chatInput
      ensures Valid()
      ensures IsBlank(old(chatInput)) ==> chat == old(chat) && chatInput == old(chatInput)
      ensures !IsBlank(old(chatInput)) ==>
        chat == old(chat) + [ChatMessage(PlayerId(currentPlayer), PlayerName(currentPlayer), old(chatInput), Text)]
        && chatInput == ""
    {
      if IsBlank(chatInput) {
        return;
      }
      chat := chat + [ChatMessage(PlayerId(currentPlayer), PlayerName(currentPlayer), chatInput, Text)];
      chatInput := "";
    }
  }

  /**
   * As written, white's clock running out (one second left, white to move) never stops the
   * game: two ticks leave the clocks running and show the time-out notice twice.
   */
  method TimeoutNoticeRepeats() returns (r: Room)
    ensures r.isRunning && r.whiteTime == 0 && r.blackTime == StartSeconds
    ensures r.endings == [(Timeout, EndMessage(Timeout, White, White)), (Timeout, EndMessage(Timeout, White, White))]
  {
    r := new Room();
    r.whiteTime := 1;
    r.TimerTickAsWritten();
    r.TimerTickAsWritten();
  }

  /** With the corrected tick the same two seconds stop the game and show the notice once. */
  method TimeoutNoticeOnce() returns (r: Room)
    ensures !r.isRunning && r.whiteTime == 0 && r.blackTime == StartSeconds
    ensures r.endings == [(Timeout, EndMessage(Timeout, White, White))]
  {
    r := new Room();
    r.whiteTime := 1;
    r.TimerTick();
    r.TimerTick();
  }
}
