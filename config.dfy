/**
 * Host and port resolution of `WebSocketServer.initialize`: an argument wins
 * when it is truthy, then the environment variable, then the default. The port
 * text goes through Python's `int()`, which is modelled here for base 10.
 */
module Config {
  import opened Wrappers

  const DefaultHost: string := "localhost"
  const DefaultPort: int := 8765
  const HostVariable: string := "WS_HOST"
  const PortVariable: string := "WS_PORT"

  /** The environment as the process sees it. */
  type Environment = map<string, string>

  /** `os.getenv(name, default)`: a variable that is set wins, even when empty. */
  function GetEnv(env: Environment, name: string, default: string): (r: string)
    ensures name in env ==> r == env[name]
    ensures name !in env ==> r == default
  {
    if name in env then env[name] else default
  }

  /** `host or os.getenv('WS_HOST', 'localhost')`; `None` and `""` are falsy. */
  function ResolveHost(hostArg: Option<string>, env: Environment): (h: string)
    ensures hostArg.Some? && hostArg.value != "" ==> h == hostArg.value
    ensures (hostArg == None || hostArg == Some("")) && HostVariable in env ==> h == env[HostVariable]
    ensures (hostArg == None || hostArg == Some("")) && HostVariable !in env ==> h == DefaultHost
  {
    if hostArg.Some? && hostArg.value != "" then hostArg.value
    else GetEnv(env, HostVariable, DefaultHost)
  }

  /**
   * `port or int(os.getenv('WS_PORT', '8765'))`; `None` and `0` are falsy.
   * `None` as a result stands for the `ValueError` that `int()` raises.
   */
  function ResolvePort(portArg: Option<int>, env: Environment): (p: Option<int>)
    ensures portArg.Some? && portArg.value != 0 ==> p == portArg
    ensures (portArg == None || portArg == Some(0)) && PortVariable in env ==> p == PyInt(env[PortVariable])
    ensures (portArg == None || portArg == Some(0)) && PortVariable !in env ==> p == Some(DefaultPort)
  {
    if portArg.Some? && portArg.value != 0 then portArg
    else
      DefaultPortParses();
      PyInt(GetEnv(env, PortVariable, "8765"))
  }

  // ----- Python's int(text) in base 10 -----

  /**
   * The ASCII characters `int()` skips around the digits: space, tab, LF,
   * VT, FF and CR. The separators U+001C-U+001F, which `str.isspace` also
   * accepts, are not among them.
   */
  predicate IsSpace(c: char) {
    c == ' ' || '\U{0009}' <= c <= '\U{000D}'
  }

  predicate IsDigit(c: char) {
    '0' <= c <= '9'
  }

  function DigitValue(c: char): (d: nat)
    requires IsDigit(c)
    ensures d < 10
  {
    (c as int) - ('0' as int)
  }

  function DigitChar(d: nat): (c: char)
    requires d < 10
    ensures IsDigit(c) && DigitValue(c) == d
  {
    (('0' as int) + d) as char
  }

  /** `s` without its leading whitespace. */
  function TrimStart(s: string): (t: string)
    ensures t == [] || !IsSpace(t[0])
    ensures |t| <= |s| && t == s[|s| - |t|..]
    ensures forall i :: 0 <= i < |s| - |t| ==> IsSpace(s[i])
  {
    if s != [] && IsSpace(s[0]) then TrimStart(s[1..]) else s
  }

  /** `s` without its trailing whitespace. */
  function TrimEnd(s: string): (t: string)
    ensures t == [] || !IsSpace(t[|t| - 1])
    ensures |t| <= |s| && t == s[..|t|]
    ensures forall i :: |t| <= i < |s| ==> IsSpace(s[i])
  {
    if s != [] && IsSpace(s[|s| - 1]) then TrimEnd(s[..|s| - 1]) else s
  }

  /** The stripping `int()` does around the digits (see `IsSpace`). */
  function Strip(s: string): string {
    TrimEnd(TrimStart(s))
  }

  /**
   * A run of digits in which single underscores may separate digits
   * (`8_765`), as `int()` accepts since PEP 515.
   */
  predicate IsDigitRun(s: string) {
    && s != []
    && IsDigit(s[0]) && IsDigit(s[|s| - 1])
    && (forall i :: 0 <= i < |s| ==> IsDigit(s[i]) || s[i] == '_')
    && (forall i :: 0 <= i < |s| - 1 ==> s[i] == '_' ==> IsDigit(s[i + 1]))
  }

  /** The value of the digits of `s`, underscores skipped. */
  function DigitsValue(s: string): nat
    requires forall i :: 0 <= i < |s| ==> IsDigit(s[i]) || s[i] == '_'
  {
    if s == [] then 0
    else if s[|s| - 1] == '_' then DigitsValue(s[..|s| - 1])
    else DigitsValue(s[..|s| - 1]) * 10 + DigitValue(s[|s| - 1])
  }

  /** `int(s)`: `None` when Python raises `ValueError`; `PyIntAccepts` states what it accepts. */
  function PyInt(s: string): (r: Option<int>)
    ensures r.Some? ==> s != []
  {
    var t := Strip(s);
    if t == [] then None else SignedValue(t)
  }

  /**
   * What `int()` accepts: once stripped, the text is an optional sign followed
   * by a digit run, whose value it has, negated after a minus sign.
   */
  lemma PyIntAccepts(s: string)
    ensures PyInt(s).Some? <==> Strip(s) != [] && IsDigitRun(Unsigned(Strip(s)))
    ensures PyInt(s).Some? ==>
      var t := Strip(s);
      var v: int := DigitsValue(Unsigned(t));
      PyInt(s).value == if t[0] == '-' then -v else v
  {
  }

  /** Non-empty text without its leading sign, if it has one. */
  function Unsigned(t: string): (u: string)
    requires t != []
    ensures t[0] == '-' || t[0] == '+' ==> u == t[1..]
    ensures t[0] != '-' && t[0] != '+' ==> u == t
  {
    if t[0] == '-' || t[0] == '+' then t[1..] else t
  }

  /** Stripped, non-empty text: an optional sign, then a digit run. */
  function SignedValue(t: string): Option<int>
    requires t != []
  {
    var body := if t[0] == '-' || t[0] == '+' then t[1..] else t;
    if !IsDigitRun(body) then None
    else
      var v: int := DigitsValue(body);
      Some(if t[0] == '-' then -v else v)
  }

  /** The decimal text of a natural number, as `str(n)` writes it. */
  function Decimal(n: nat): (s: string)
    ensures s != [] && IsDigit(s[0])
    ensures forall i :: 0 <= i < |s| ==> IsDigit(s[i])
  {
    if n < 10 then [DigitChar(n)] else Decimal(n / 10) + [DigitChar(n % 10)]
  }

  lemma {:induction false} DecimalValue(n: nat)
    ensures DigitsValue(Decimal(n)) == n
  {
    if n >= 10 {
      var s := Decimal(n);
      assert s[..|s| - 1] == Decimal(n / 10);
      DecimalValue(n / 10);
    }
  }

  /** Text that neither starts nor ends with whitespace is left alone by `strip()`. */
  lemma StripKeeps(s: string)
    requires s != [] && !IsSpace(s[0]) && !IsSpace(s[|s| - 1])
    ensures Strip(s) == s
  {
    assert TrimStart(s) == s;
  }

  lemma StripDecimal(n: nat)
    ensures Strip(Decimal(n)) == Decimal(n)
  {
    StripKeeps(Decimal(n));
  }

  /** `int(str(n)) == n` for every natural number: the port text round-trips. */
  lemma PyIntDecimal(n: nat)
    ensures PyInt(Decimal(n)) == Some(n)
  {
    StripDecimal(n);
    DecimalValue(n);
  }

  /** `int("-" + str(n)) == -n`: a leading minus sign is read. */
  lemma PyIntNegative(n: nat)
    ensures PyInt("-" + Decimal(n)) == Some(-(n as int))
  {
    DecimalValue(n);
    PyIntMinusDigits(Decimal(n), n);
  }

  /** `int()` of a minus sign followed by plain digits of value `v` is `-v`. */
  lemma PyIntMinusDigits(d: string, v: nat)
    requires d != [] && forall i :: 0 <= i < |d| ==> IsDigit(d[i])
    requires DigitsValue(d) == v
    ensures PyInt("-" + d) == Some(-(v as int))
  {
    var s := "-" + d;
    assert s[0] == '-' && s[|s| - 1] == d[|d| - 1];
    StripKeeps(s);
    PyIntStripped(s);
    MinusDigits(d);
  }

  /** Text that `strip()` leaves alone is read by its sign and digits alone. */
  lemma PyIntStripped(s: string)
    requires s != [] && Strip(s) == s
    ensures PyInt(s) == SignedValue(s)
  {
  }

  /** A minus sign followed by plain digits reads as the negated value of the digits. */
  lemma MinusDigits(d: string)
    requires d != [] && forall i :: 0 <= i < |d| ==> IsDigit(d[i])
    ensures SignedValue("-" + d) == Some(-(DigitsValue(d) as int))
  {
    var s := "-" + d;
    assert s[0] == '-' && s[1..] == d;
    PlainDigitsRun(d);
  }

  /** Digits without underscores form a digit run. */
  lemma PlainDigitsRun(d: string)
    requires d != [] && forall i :: 0 <= i < |d| ==> IsDigit(d[i])
    ensures IsDigitRun(d)
  {
  }

  /**
   * Text that starts with a character that is neither whitespace, a sign nor
   * a digit is rejected: `strip()` keeps that character, and no digit run
   * starts with it.
   */
  lemma PyIntRejectsLeadingJunk(s: string)
    requires s != [] && !IsSpace(s[0]) && !IsSpace(s[|s| - 1])
    requires s[0] != '-' && s[0] != '+' && !IsDigit(s[0])
    ensures PyInt(s) == None
  {
    StripKeeps(s);
    PyIntStripped(s);
  }

  /** A file separator before the digits is not skipped: `int("\x1c8765")` raises. */
  lemma PyIntRejectsSeparator()
    ensures PyInt("\U{001C}8765") == None
  {
    PyIntRejectsLeadingJunk("\U{001C}8765");
  }

  /** The default port text "8765" reads back as 8765. */
  lemma DefaultPortParses()
    ensures PyInt("8765") == Some(DefaultPort)
  {
    assert Decimal(8765) == "8765" by {
      assert Decimal(8) == "8";
      assert Decimal(87) == "87";
      assert Decimal(876) == "876";
    }
    PyIntDecimal(8765);
  }
}
