/**
 * Pairing a physical smart board (src/pages/ConnectBoard.tsx): by QR scan or by serial
 * number, with a simulated lookup that completes after a delay.
 *
 * The delayed completions (`setTimeout` callbacks) are the methods `CompleteQrScan` and
 * `CompleteSerialLookup`, called when the timer fires; the serial lookup compares the
 * serial number captured when the connection was started.
 */
module ConnectBoard {
  import opened Common

  datatype ConnectionStatus = Disconnected | Connecting | Connected

  datatype ConnectionMethod = Qr | Serial

  datatype BoardInfo = BoardInfo(model: string, version: string, battery: int, serialNumber: string)

  /** The only serial number the simulated lookup recognises. */
  const KnownSerial := "SCH-2024-001"

  function DemoBoard(serial: string): (b: BoardInfo)
    ensures b.serialNumber == serial && b.battery == 85
  {
    BoardInfo("SmartChess Pro", "2.1.4", 85, serial)
  }

  /**
   * `getStatusText()`: "connected" and "connecting" have their own texts; the default
   * branch, which is where "disconnected" falls, reads "غير متصل".
   */
  function StatusText(s: ConnectionStatus): (text: string)
    ensures text == "متصل" <==> s == Connected
    ensures text == "جاري الاتصال..." <==> s == Connecting
    ensures s != Connected && s != Connecting ==> text == "غير متصل"
  {
    match s
    case Connected => "متصل"
    case Connecting => "جاري الاتصال..."
    case Disconnected => "غير متصل"
  }

  /** The three states are shown with three different texts. */
  lemma StatusTextInjective(a: ConnectionStatus, b: ConnectionStatus)
    requires StatusText(a) == StatusText(b)
    ensures a == b
  {
    assert StatusText(Connected)[0] != StatusText(Connecting)[0];
    assert StatusText(Connected)[0] != StatusText(Disconnected)[0];
    assert |StatusText(Connected)| != |StatusText(Disconnected)|;
  }

  class Connection {
    var connectionMethod: Option<ConnectionMethod>
    var serialNumber: string
    var status: ConnectionStatus
    var boardInfo: Option<BoardInfo>

    /** The page only reports a connection together with the board it is connected to. */
    ghost predicate Valid()
      reads this
    {
      status == Connected ==> boardInfo.Some?
    }

    /** The details card (model, version, battery, serial) is shown exactly when connected. */
    predicate ShowsBoardDetails()
      reads this
      requires Valid()
      ensures ShowsBoardDetails() <==> status == Connected
    {
      status == Connected && boardInfo.Some?
    }

    constructor ()
      ensures Valid()
      ensures connectionMethod.None? && serialNumber == "" && status == Disconnected && boardInfo.None?
    {
      connectionMethod := None;
      serialNumber := "";
      status := Disconnected;
      boardInfo := None;
    }

    /** The method picker and its back buttons. */
    method ChooseMethod(m: Option<ConnectionMethod>)
      requires Valid()
      modifies this`connectionMethod
      ensures Valid() && connectionMethod == m
    {
      connectionMethod := m;
    }

    /** The serial number input. */
    method SetSerialNumber(text: string)
      requires Valid()
      modifies this`serialNumber
      ensures Valid() && serialNumber == text
    {
      serialNumber := text;
    }

    /** `connectViaQR`: the status becomes connecting until the scan completes. */
    method ConnectViaQr()
      requires Valid()
      modifies this`status
      ensures Valid() && status == Connecting
    {
      status := Connecting;
    }

    /** The scan's completion: connected to the demo board. */
    method CompleteQrScan()
      requires Valid()
      modifies this`status, this`boardInfo
      ensures Valid() && status == Connected && boardInfo == Some(DemoBoard(KnownSerial))
    {
      status := Connected;
      boardInfo := Some(DemoBoard(KnownSerial));
    }

    /**
     * `connectViaSerial`: a blank serial number is refused and nothing changes; otherwise
     * the status becomes connecting and a lookup of the current serial number is scheduled.
     */
    method ConnectViaSerial() returns (lookup: Option<string>)
      requires Valid()
      modifies this`status
      ensures Valid()
      ensures IsBlank(serialNumber) ==> lookup.None? && status == old(status)
      ensures !IsBlank(serialNumber) ==> lookup == Some(serialNumber) && status == Connecting
    {
      if IsBlank(serialNumber) {
        return None;
      }
      status := Connecting;
      lookup := Some(serialNumber);
    }

    /**
     * The lookup's completion for the captured serial: the known serial connects to a board
     * reporting that serial; any other serial leaves the page disconnected and the last
     * board information untouched.
     */
    method CompleteSerialLookup(captured: string)
      requires Valid()
      modifies this`status, this`boardInfo
      ensures Valid()
      ensures captured == KnownSerial ==> status == Connected && boardInfo == Some(DemoBoard(captured))
      ensures captured != KnownSerial ==> status == Disconnected && boardInfo == old(boardInfo)
    {
      if captured == KnownSerial {
        status := Connected;
        boardInfo := Some(DemoBoard(captured));
      } else {
        status := Disconnected;
      }
    }

    /** `disconnect`: back to disconnected, with no board. */
    method Disconnect()
      requires Valid()
      modifies this`status, this`boardInfo
      ensures Valid() && status == Disconnected && boardInfo.None?
    {
      status := Disconnected;
      boardInfo := None;
    }
  }
}
