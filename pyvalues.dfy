/** Python values as they reach the connector and the media objects.
    - Scalar: the values callers pass as keyword arguments (credentials, query
      parameters); the connector only ever turns them into text with str().
      Floats are not represented.
    - Value: a decoded JSON document, the contents of an item's object_dict.
    - Exc / Error: the exceptions that can surface from the modelled code. */
module PyValues {

  datatype Option<+T> = None | Some(value: T)

  datatype Result<+T> = Ok(value: T) | Err(error: Error)

  /** A keyword argument: either not passed at all, or passed with a value
      (possibly None). Python tests presence with `in`, not truthiness. */
  datatype Arg<+T> = Absent | Given(value: T) {
    function GetOr(default: T): T {
      if Given? then value else default
    }
  }

  /** None, a bool, an int or a str. */
  datatype Scalar = Null | Bool(b: bool) | Num(n: int) | Text(s: string)

  /** Python truthiness of a scalar (`x or y` picks y when x is falsy). */
  predicate Truthy(v: Scalar) {
    match v
    case Null => false
    case Bool(b) => b
    case Num(n) => n != 0
    case Text(s) => s != ""
  }

  function DigitChar(d: nat): (c: char)
    requires d < 10
    ensures '0' <= c <= '9' && DigitValue(c) == d
  {
    ('0' as int + d) as char
  }

  /** The value of a decimal digit character. */
  function DigitValue(c: char): int {
    c as int - '0' as int
  }

  /** The number a string of decimal digits spells, most significant first. */
  function DigitsValue(s: string): nat
    requires forall i :: 0 <= i < |s| ==> '0' <= s[i] <= '9'
  {
    if s == [] then 0 else 10 * DigitsValue(s[..|s| - 1]) + DigitValue(s[|s| - 1])
  }

  /** Decimal digits of n, most significant first, without leading zeros. */
  function NatToString(n: nat): (s: string)
    ensures |s| >= 1 && (|s| > 1 ==> s[0] != '0')
    ensures forall i :: 0 <= i < |s| ==> '0' <= s[i] <= '9'
    ensures DigitsValue(s) == n
  {
    if n < 10 then [DigitChar(n)]
    else
      var s := NatToString(n / 10) + [DigitChar(n % 10)];
      assert s[..|s| - 1] == NatToString(n / 10);
      s
  }

  /** Python's str() of a scalar. */
  function Show(v: Scalar): string {
    match v
    case Null => "None"
    case Bool(b) => if b then "True" else "False"
    case Num(n) => if n < 0 then "-" + NatToString(-n) else NatToString(n)
    case Text(s) => s
  }

  /** A decoded JSON value (floats are not represented). */
  datatype Value =
    | VNull
    | VBool(b: bool)
    | VInt(i: int)
    | VStr(s: string)
    | VList(items: seq<Value>)
    | VDict(entries: map<string, Value>)

  /** `d.get(key, default)` */
  function DictGet(d: map<string, Value>, key: string, default: Value): Value {
    if key in d then d[key] else default
  }

  /** An exception raised by the HTTP transport. requests' exception classes
      form a hierarchy: a ConnectTimeout is both a Timeout and a
      ConnectionError, so both flags may be set. */
  datatype Exc = Exc(name: string, isTimeout: bool, isConnectionError: bool)

  datatype Error =
    | ValueError(message: string)
    | KeyError(key: string)
    | TypeError
    | AttributeError(attribute: string)
      /** requests.exceptions.Timeout(message, url) */
    | Timeout(message: string, url: string)
      /** requests.exceptions.ConnectionError(message) */
    | ConnectionError(message: string)
      /** a transport exception that no except clause caught, unchanged */
    | Uncaught(exc: Exc)
      /** what `.json()` raises on a body that does not decode as JSON */
    | JsonDecodeError
      /** a name that is not defined where it is used */
    | NameError(name: string)
}
