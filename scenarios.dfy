/** Clients of the driver, each a short sequence of file operations on GPIO 23
    whose outcome follows from the operations' contracts alone: the
    behaviour a user of the device file sees, and the ways in which the code
    as written departs from it. */
module GpioLedScenarios {
  import opened Gpio
  import opened Registration
  import opened GpioLed

  /** ASCII 'x', a byte that is not a command. */
  const AsciiX: byte := 0x78

  /** A freshly opened pin reads low, and reading twice gives the same byte. */
  method OpenThenReadTwice() returns (openRc: int, first: seq<byte>, second: seq<byte>)
    ensures openRc == 0 && first == [0] && second == first
  {
    var pin := new Pin(GpioPin, true);
    var driver := new Driver(pin);
    openRc := driver.Open(true, true, true);
    var _, a := driver.Read(1);
    var _, b := driver.Read(1);
    first, second := a, b;
  }

  /** The last write decides the level: "1" then "0" reads 0, and "0" then
      "1" reads 1. */
  method WriteRoundTrips() returns (afterOneZero: seq<byte>, afterZeroOne: seq<byte>)
    ensures afterOneZero == [0] && afterZeroOne == [1]
  {
    var pin := new Pin(GpioPin, true);
    var driver := new Driver(pin);
    var rc := driver.Open(true, true, true);
    var overrun;
    rc, overrun := driver.Write([Ascii1], 1, false);
    rc, overrun := driver.Write([Ascii0], 1, false);
    var _, a := driver.Read(1);
    rc, overrun := driver.Write([Ascii0], 1, false);
    rc, overrun := driver.Write([Ascii1], 1, false);
    var _, b := driver.Read(1);
    afterOneZero, afterZeroOne := a, b;
  }

  /** A whole session: open, write "1", read 1, write "x" (not a command, so
      the pin goes low and the write still consumes its byte), read 0, an
      empty write that keeps the pin low, close, and open again. */
  method SessionScenario() returns (openRc: int, high: seq<byte>, consumed: int, low: seq<byte>,
                                    emptyWrite: int, closed: int, reopened: int)
    ensures openRc == 0 && high == [1] && consumed == 1 && low == [0]
    ensures emptyWrite == 0 && closed == 0 && reopened == 0
  {
    var pin := new Pin(GpioPin, true);
    var driver := new Driver(pin);
    openRc := driver.Open(true, true, true);
    var _, _ := driver.Write([Ascii1], 1, false);
    var _, h := driver.Read(1);
    var overrun;
    consumed, overrun := driver.Write([AsciiX], 1, false);
    var _, l := driver.Read(1);
    emptyWrite, overrun := driver.Write([], 0, false);
    high, low := h, l;
    assert pin.level == 0;
    closed := driver.Release();
    reopened := driver.Open(true, true, true);
  }

  /** A write of eleven bytes whose first is '1'. As written, the copy stores
      the eleventh byte past the end of rec_buf and the pin goes high; where
      copy_from_user checks the size of its destination, it copies nothing
      and the pin goes low; the bounded write stores nothing past rec_buf and
      drives the pin high. */
  method LongWrite() returns (overrun: seq<byte>, highUnchecked: bool,
                              refused: seq<byte>, highChecked: bool, highBounded: bool)
    ensures overrun == [AsciiX] && highUnchecked
    ensures refused == [] && !highChecked
    ensures highBounded
  {
    var user := [Ascii1, Ascii0, Ascii0, Ascii0, Ascii0, Ascii0, Ascii0, Ascii0, Ascii0, Ascii0, AsciiX];
    var pin := new Pin(GpioPin, true);
    var driver := new Driver(pin);
    var rc := driver.Open(true, true, true);
    rc, overrun := driver.Write(user, 11, false);
    assert overrun == [Stored(user, 11)[10]];
    highUnchecked := pin.level == 1;
    rc, refused := driver.Write(user, 11, true);
    highChecked := pin.level == 1;
    rc := driver.WriteBounded(user, 11);
    highBounded := pin.level == 1;
  }

  /** After a release the pin can be opened again, with the open as written. */
  method ReleaseThenReopen() returns (first: int, closed: int, second: int)
    ensures first == 0 && closed == 0 && second == 0
  {
    var pin := new Pin(GpioPin, true);
    var driver := new Driver(pin);
    first := driver.Open(true, true, true);
    closed := driver.Release();
    second := driver.Open(true, true, true);
  }

  /** As written, a second open of a pin that is already owned fails but frees
      the pin on its way out: the first session no longer owns it and a third
      open succeeds while the first session is still open. */
  method SecondOpenStealsPin() returns (first: int, second: int, stillOwned: bool, third: int)
    ensures first == 0 && second == -1 && !stillOwned && third == 0
  {
    var pin := new Pin(GpioPin, true);
    var driver := new Driver(pin);
    first := driver.Open(true, true, true);
    second := driver.Open(true, true, true);
    stillOwned := pin.requested;
    third := driver.Open(true, true, true);
  }

  /** With the stray gpio_free removed, a second open fails and leaves the
      first session's ownership alone, and so does every further open. */
  method SecondOpenIsRefused() returns (first: int, second: int, stillOwned: bool, third: int)
    ensures first == 0 && second == -1 && stillOwned && third == -1
  {
    var pin := new Pin(GpioPin, true);
    var driver := new Driver(pin);
    first := driver.OpenSafe(true, true, true);
    second := driver.OpenSafe(true, true, true);
    stillOwned := pin.requested;
    third := driver.OpenSafe(true, true, true);
  }

  /** As written, opening the device on a platform where GPIO 23 is invalid
      destroys the device node of the loaded module; the open as corrected
      leaves it registered. */
  method InvalidPinOpen() returns (loaded: int, asWritten: int, nodeAfterAsWritten: bool,
                                   corrected: int, nodeAfterCorrected: bool)
    ensures loaded == 0 && asWritten == -1 && !nodeAfterAsWritten
    ensures corrected == -1 && nodeAfterCorrected
  {
    var pin := new Pin(GpioPin, false);
    var driver := new Driver(pin);
    loaded := driver.Init(true, true, true, true);
    asWritten := driver.Open(true, true, true);
    nodeAfterAsWritten := DevNode in driver.held;

    var other := new Driver(pin);
    var _ := other.Init(true, true, true, true);
    corrected := other.OpenSafe(true, true, true);
    nodeAfterCorrected := DevNode in other.held;
  }

  /** As written, a read hands over the level byte but reports 0 bytes read,
      which a caller takes for end of file; the corrected read reports 1. */
  method ReadReportsNothing() returns (asWritten: int, delivered: seq<byte>, corrected: int)
    ensures asWritten == 0 && |delivered| == 1 && corrected == 1
  {
    var pin := new Pin(GpioPin, true);
    var driver := new Driver(pin);
    var _ := driver.Open(true, true, true);
    asWritten, delivered := driver.Read(1);
    var counted, _ := driver.ReadCounted(1);
    corrected := counted;
  }

  /** Loading and unloading the module: init succeeds holding all four
      registrations and exit gives every one back. */
  method LoadUnload() returns (loaded: int, heldWhileLoaded: set<Resource>, heldAfter: set<Resource>)
    ensures loaded == 0 && heldWhileLoaded == AllResources && heldAfter == {}
  {
    var pin := new Pin(GpioPin, true);
    var driver := new Driver(pin);
    loaded := driver.Init(true, true, true, true);
    heldWhileLoaded := driver.held;
    driver.Exit();
    heldAfter := driver.held;
  }
}
