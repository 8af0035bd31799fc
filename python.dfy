/** The slice of the Python runtime the tools rely on: optional and
    error-carrying results, the exceptions the core raises, the dynamically
    typed values found in configuration files and query results, and the
    few string operations the core performs on them. */
module Python {

  datatype Option<+T> = None | Some(value: T)

  /** The exceptions raised by the core.  A `KeyError` carries the missing
      key, an `AttributeError` the attribute name that was looked up. */
  datatype Error =
    | KeyError(key: Value)
    | AttributeError(name: string)
    | TypeError(message: string)
    | ValueError(message: string)
    | NotImplementedError(dbType: Value)
    | DatabaseError(message: string)
    | IndexError(message: string)

  /** A computation that either returns a value or raises an exception. */
  datatype Result<+T> = Ok(value: T) | Err(error: Error) {
    predicate IsFailure() { Err? }

    function PropagateFailure<U>(): Result<U>
      requires Err?
    {
      Err(error)
    }

    function Extract(): T
      requires Ok?
    {
      value
    }
  }

  /** A Python value.  `Scalar` stands for every other scalar (floats,
      dates, decimals, ...) and carries the text `str()` gives for it;
      `Nan` is the missing value pandas fills in; `StructV` is an instance
      of lib/types.py's `Struct`, a `dict` subclass, and `DictV` a plain
      `dict`.  Dictionary entries keep their insertion order. */
  datatype Value =
    | Str(s: string)
    | Int(i: int)
    | Bool(b: bool)
    | NoneValue
    | Nan
    | Scalar(text: string)
    | ListV(items: seq<Value>)
    | DictV(entries: seq<(string, Value)>)
    | StructV(entries: seq<(string, Value)>)
  {
    /** `isinstance(v, dict)`: a `Struct` is a `dict` too. */
    predicate IsDict() { DictV? || StructV? }
  }

  /** Python truthiness of an optional string argument (`if s:`). */
  predicate Truthy(s: Option<string>) { s.Some? && s.value != [] }

  // ---------------------------------------------------------------------
  // Text

  function DigitChar(d: nat): (c: char)
    requires d < 10
    ensures '0' <= c <= '9'
  {
    "0123456789"[d]
  }

  /** Decimal digits of a natural number, most significant first. */
  function NatToString(n: nat): (s: string)
    ensures |s| >= 1
    ensures forall i :: 0 <= i < |s| ==> '0' <= s[i] <= '9'
    decreases n
  {
    if n < 10 then [DigitChar(n)] else NatToString(n / 10) + [DigitChar(n % 10)]
  }

  /** `str(i)` for an integer. */
  function IntToString(i: int): string
  {
    if i < 0 then "-" + NatToString(-i) else NatToString(i)
  }

  /** `str(v)`, the text an f-string substitutes for `v`.  Containers are
      rendered the way Python prints them, except that quotes inside
      strings are not escaped. */
  function Show(v: Value): string
    decreases v, 2
  {
    match v
    case Str(s) => s
    case Int(i) => IntToString(i)
    case Bool(b) => if b then "True" else "False"
    case NoneValue => "None"
    case Nan => "nan"
    case Scalar(t) => t
    case ListV(items) => "[" + ReprItems(v, items) + "]"
    case DictV(entries) => "{" + ReprEntries(v, entries) + "}"
    case StructV(entries) => "{" + ReprEntries(v, entries) + "}"
  }

  /** `repr(v)`: strings are quoted, everything else prints as `str`. */
  function Repr(v: Value): string
    decreases v, 3
  {
    if v.Str? then "'" + v.s + "'" else Show(v)
  }

  function ReprItems(ghost parent: Value, items: seq<Value>): string
    requires forall i :: 0 <= i < |items| ==> items[i] < parent
    decreases parent, 1, |items|
  {
    if items == [] then ""
    else if |items| == 1 then Repr(items[0])
    else Repr(items[0]) + ", " + ReprItems(parent, items[1..])
  }

  function ReprEntries(ghost parent: Value, entries: seq<(string, Value)>): string
    requires forall i :: 0 <= i < |entries| ==> entries[i].1 < parent
    decreases parent, 1, |entries|
  {
    if entries == [] then ""
    else
      var head := "'" + entries[0].0 + "': " + Repr(entries[0].1);
      if |entries| == 1 then head else head + ", " + ReprEntries(parent, entries[1..])
  }

  predicate StartsWith(s: string, prefix: string)
  {
    |prefix| <= |s| && s[..|prefix|] == prefix
  }

  predicate EndsWith(s: string, suffix: string)
  {
    |suffix| <= |s| && s[|s| - |suffix|..] == suffix
  }

  /** `sep.join(parts)`. */
  function Join(sep: string, parts: seq<string>): string
  {
    if parts == [] then ""
    else if |parts| == 1 then parts[0]
    else parts[0] + sep + Join(sep, parts[1..])
  }

  /** `s.lstrip(c)` for a single character `c`. */
  function LStrip(s: string, c: char): (r: string)
    ensures |r| <= |s| && r == s[|s| - |r|..]
    ensures r == [] || r[0] != c
    ensures forall i :: 0 <= i < |s| - |r| ==> s[i] == c
  {
    if s != [] && s[0] == c then LStrip(s[1..], c) else s
  }
}
