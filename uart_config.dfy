/**
 * The pure translations of the Windows UART port: the HAL's configuration
 * enumerations, the values handed to the serial-port library, and the
 * host port name derived from a logical port number.
 */
module UartConfig {

  import opened Wrappers

  /** The HAL's baud-rate enumeration. C enumerations are integers, so a
      value outside the five named rates is possible; `Unrecognized` is it. */
  datatype BaudRate =
    | Baud9600 | Baud19200 | Baud38400 | Baud57600 | Baud115200
    | Unrecognized(code: int)

  /** The HAL's stop-bit setting; `OtherStopBits` is any other enumeration value. */
  datatype StopBits = StopBits1 | StopBits2 | OtherStopBits(code: int)

  /** The HAL's parity setting; `OtherParity` is any other enumeration value. */
  datatype Parity = ParityNone | ParityOdd | ParityEven | OtherParity(code: int)

  /** The HAL configuration the caller passes to open, copied into the device. */
  datatype Config = Config(baudRate: BaudRate, stopBits: StopBits, parity: Parity)

  /** The serial-port library's parity values. */
  datatype SpParity = SpParityNone | SpParityOdd | SpParityEven

  /** The serial-port library's flow-control values. */
  datatype SpFlowControl = SpFlowNone | SpFlowXonXoff | SpFlowRtsCts | SpFlowDtrDsr

  /** The line settings open applies to the transport, in the order it applies them. */
  datatype LineSettings = LineSettings(
    baudRate: int, dataBits: int, stopBits: int, parity: SpParity, flowControl: SpFlowControl)

  /** The five rates the HAL names. */
  predicate IsStandardRate(n: int) {
    n == 9600 || n == 19200 || n == 38400 || n == 57600 || n == 115200
  }

  /** Numeric baud rate of an enumerated rate; anything unrecognised falls back to 9600. */
  function BaudRateToInt(baud: BaudRate): (n: int)
    ensures IsStandardRate(n)
    ensures n == 9600 <==> (baud == Baud9600 || baud.Unrecognized?)
  {
    match baud
    case Baud9600 => 9600
    case Baud19200 => 19200
    case Baud38400 => 38400
    case Baud57600 => 57600
    case Baud115200 => 115200
    case Unrecognized(_) => 9600
  }

  /** The enumerated rate with a given numeric value, if the HAL names one:
      the inverse of BaudRateToInt on the named rates. */
  function BaudRateOf(n: int): (baud: Option<BaudRate>)
    ensures baud.Some? <==> IsStandardRate(n)
    ensures baud.Some? ==> !baud.value.Unrecognized?
  {
    if n == 9600 then Some(Baud9600)
    else if n == 19200 then Some(Baud19200)
    else if n == 38400 then Some(Baud38400)
    else if n == 57600 then Some(Baud57600)
    else if n == 115200 then Some(Baud115200)
    else None
  }

  /** A named rate and its number determine each other. */
  lemma BaudRateRoundTrip(baud: BaudRate, n: int)
    requires !baud.Unrecognized?
    ensures BaudRateToInt(baud) == n <==> BaudRateOf(n) == Some(baud)
  {
    match baud
    case Baud9600 =>
    case Baud19200 =>
    case Baud38400 =>
    case Baud57600 =>
    case Baud115200 =>
  }

  /** Stop bits passed to the library: two exactly for StopBits2, one otherwise. */
  function StopBitsCount(stopBits: StopBits): (n: int)
    ensures n == 1 || n == 2
    ensures n == 2 <==> stopBits == StopBits2
  {
    if stopBits == StopBits2 then 2 else 1
  }

  /** Library parity: odd or even when requested, none for every other value. */
  function SpParityOf(parity: Parity): (p: SpParity)
    ensures p == SpParityOdd <==> parity == ParityOdd
    ensures p == SpParityEven <==> parity == ParityEven
    ensures p == SpParityNone <==> !(parity == ParityOdd || parity == ParityEven)
  {
    if parity == ParityOdd then SpParityOdd
    else if parity == ParityEven then SpParityEven
    else SpParityNone
  }

  /** Everything open applies after the port is open: rate, eight data bits,
      stop bits, parity, and flow control forced off. */
  function SettingsFor(cfg: Config): (s: LineSettings)
    ensures IsStandardRate(s.baudRate)
    ensures s.dataBits == 8 && s.flowControl == SpFlowNone
    ensures s.stopBits == 2 <==> cfg.stopBits == StopBits2
    ensures s.baudRate == BaudRateToInt(cfg.baudRate)
    ensures s.stopBits == StopBitsCount(cfg.stopBits) && s.parity == SpParityOf(cfg.parity)
  {
    LineSettings(BaudRateToInt(cfg.baudRate), 8, StopBitsCount(cfg.stopBits),
                 SpParityOf(cfg.parity), SpFlowNone)
  }

  // ---------------------------------------------------------------------
  // Decimal rendering, as printf's "%u" does it.

  predicate IsDigit(c: char) {
    '0' <= c <= '9'
  }

  predicate AllDigits(s: string) {
    forall i :: 0 <= i < |s| ==> IsDigit(s[i])
  }

  function DigitValue(c: char): (d: nat)
    requires IsDigit(c)
    ensures d < 10
  {
    (c as int) - ('0' as int)
  }

  function DigitChar(d: nat): (c: char)
    requires d < 10
    ensures IsDigit(c) && DigitValue(c) == d
  {
    (('0' as int) + d) as char
  }

  /** The decimal numeral of n: non-empty, digits only, no leading zero. */
  function Decimal(n: nat): (s: string)
    ensures |s| >= 1 && AllDigits(s)
    ensures s[0] == '0' ==> n == 0
    ensures |s| == 1 <==> n < 10
    decreases n
  {
    if n < 10 then [DigitChar(n)] else Decimal(n / 10) + [DigitChar(n % 10)]
  }

  /** The number a string of digits denotes, read most significant digit first. */
  function DecimalValue(s: string): nat
    requires AllDigits(s)
    decreases |s|
  {
    if s == [] then 0 else DecimalValue(s[..|s| - 1]) * 10 + DigitValue(s[|s| - 1])
  }

  /** Reading back a rendered numeral gives the number. */
  lemma {:induction false} DecimalRoundTrip(n: nat)
    ensures DecimalValue(Decimal(n)) == n
    decreases n
  {
    var s := Decimal(n);
    if n < 10 {
      assert s[..0] == [];
    } else {
      assert s[..|s| - 1] == Decimal(n / 10);
      DecimalRoundTrip(n / 10);
    }
  }

  /** A numeral that does not start with zero denotes a positive number. */
  lemma {:induction false} DecimalValuePositive(s: string)
    requires |s| >= 1 && AllDigits(s) && s[0] != '0'
    ensures DecimalValue(s) > 0
    decreases |s|
  {
    if |s| == 1 {
      assert s[..0] == [];
    } else {
      DecimalValuePositive(s[..|s| - 1]);
    }
  }

  /** Rendering the value of a numeral without leading zeros gives the numeral back. */
  lemma {:induction false} DecimalOfValue(s: string)
    requires |s| >= 1 && AllDigits(s)
    requires |s| > 1 ==> s[0] != '0'
    ensures Decimal(DecimalValue(s)) == s
    decreases |s|
  {
    var prefix := s[..|s| - 1];
    if |s| == 1 {
      assert prefix == [];
    } else {
      DecimalValuePositive(prefix);
      DecimalOfValue(prefix);
      var n := DecimalValue(s);
      assert n / 10 == DecimalValue(prefix) && n % 10 == DigitValue(s[|s| - 1]);
      assert s == prefix + [s[|s| - 1]];
    }
  }

  // ---------------------------------------------------------------------
  // Port names.

  /** The host name of logical port dev: "COM" followed by dev + 1 in decimal. */
  function PortName(dev: nat): (name: string)
    ensures |name| >= 4 && name[..3] == "COM" && AllDigits(name[3..])
    ensures name[3] != '0' && DecimalValue(name[3..]) == dev + 1
  {
    var digits := Decimal(dev + 1);
    DecimalRoundTrip(dev + 1);
    assert ("COM" + digits)[3..] == digits;
    "COM" + digits
  }

  /** PortName's contract pins the name down: any "COM" name whose digits have
      no leading zero and denote dev + 1 is exactly the name of port dev. */
  lemma PortNameUnique(dev: nat, name: string)
    requires |name| >= 4 && name[..3] == "COM" && AllDigits(name[3..])
    requires name[3] != '0' && DecimalValue(name[3..]) == dev + 1
    ensures name == PortName(dev)
  {
    DecimalOfValue(name[3..]);
    assert name == name[..3] + name[3..];
    assert PortName(dev) == "COM" + Decimal(dev + 1);
  }

  /** Distinct logical ports get distinct host names. */
  lemma PortNameInjective(a: nat, b: nat)
    requires PortName(a) == PortName(b)
    ensures a == b
  {
    assert PortName(a)[3..] == PortName(b)[3..];
  }

  /** The first logical port is COM1. */
  lemma FirstPortIsCom1()
    ensures PortName(0) == "COM1"
  {
    assert Decimal(1) == "1";
  }
}
