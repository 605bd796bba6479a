/**
 * The JSON value that `json.loads` hands to the parsers, and the Python
 * operations the parsers apply to it: truthiness, `dict.get`, iteration,
 * `str()`, `list()` and `int()`.  JSON numbers are integers here.
 */
module Json {
  import opened Wrappers
  import opened PyText

  /** A decoded JSON value: `None`, `bool`, `int`, `str`, `list`, or `dict` (members in insertion order). */
  datatype Json =
    | Null
    | Bool(b: bool)
    | Int(i: int)
    | Str(s: string)
    | Arr(items: seq<Json>)
    | Obj(members: seq<(string, Json)>)

  /** `bool(j)`: `None`, `False`, `0`, `""`, `[]` and `{}` are falsy. */
  predicate Truthy(j: Json)
  {
    match j
    case Null => false
    case Bool(b) => b
    case Int(i) => i != 0
    case Str(s) => s != []
    case Arr(items) => items != []
    case Obj(members) => members != []
  }

  /** Lookup of `key` among the members of a dict. */
  function Lookup(members: seq<(string, Json)>, key: string): (r: Option<Json>)
    ensures r.Some? <==> exists i :: 0 <= i < |members| && members[i].0 == key
  {
    if members == [] then None
    else if members[0].0 == key then Some(members[0].1)
    else Lookup(members[1..], key)
  }

  /** The first member under `key` is the one found. */
  lemma {:induction false} LookupAt(members: seq<(string, Json)>, i: nat, key: string)
    requires i < |members| && members[i].0 == key
    requires forall k :: 0 <= k < i ==> members[k].0 != key
    ensures Lookup(members, key) == Some(members[i].1)
  {
    if i > 0 {
      LookupAt(members[1..], i - 1, key);
    }
  }

  /** `j.get(key, default)`: only a dict has `.get`; anything else raises `AttributeError`. */
  function Get(j: Json, key: string, default: Json := Null): (r: Result<Json>)
    ensures r.Ok? <==> j.Obj?
  {
    match j
    case Obj(members) =>
      (match Lookup(members, key) case Some(v) => Ok(v) case None => Ok(default))
    case _ => Err("AttributeError: object has no attribute 'get'")
  }

  /** `repr(s)` for a string: single quotes unless only a single quote occurs. */
  function ReprStr(s: string): string
  {
    var q := if '\'' in s && '"' !in s then '"' else '\'';
    [q] + ReprChars(s, q) + [q]
  }

  function HexDigit(d: nat): char
    requires d < 16
  {
    if d < 10 then DigitChar(d) else ('a' as int + d - 10) as char
  }

  /** The body of `repr(s)` with quote character `q`. */
  function ReprChars(s: string, q: char): string
  {
    if s == [] then ""
    else
      var c := s[0];
      var e :=
        if c == q || c == '\\' then ['\\', c]
        else if c == '\t' then "\\t"
        else if c == '\n' then "\\n"
        else if c == '\r' then "\\r"
        else if c < ' ' || c == '\U{7F}' then ['\\', 'x', HexDigit(c as int / 16), HexDigit(c as int % 16)]
        else [c];
      e + ReprChars(s[1..], q)
  }

  /** `repr(j)` */
  function Repr(j: Json): string
  {
    match j
    case Str(s) => ReprStr(s)
    case Arr(items) =>
      "[" + Join(seq(|items|, k requires 0 <= k < |items| => Repr(items[k])), ", ") + "]"
    case Obj(members) =>
      "{" + Join(seq(|members|, k requires 0 <= k < |members| =>
                   ReprStr(members[k].0) + ": " + Repr(members[k].1)), ", ") + "}"
    case Null => "None"
    case Bool(b) => if b then "True" else "False"
    case Int(i) => Decimal(i)
  }

  /** A list of strings as a payload value. */
  function Strs(xs: seq<string>): (r: Json)
    ensures r.Arr? && |r.items| == |xs| && forall k :: 0 <= k < |xs| ==> r.items[k] == Str(xs[k])
  {
    Arr(seq(|xs|, k requires 0 <= k < |xs| => Str(xs[k])))
  }

  /** `str(j)`, which is also what an f-string interpolates. */
  function PyStr(j: Json): (r: string)
    ensures !j.Str? ==> r == Repr(j)
  {
    match j
    case Str(s) => s
    case _ => Repr(j)
  }

  /** `list(j)`, and equally the items a `for` loop over `j` visits: a list's items,
      a string's characters, a dict's keys; other values are not iterable. */
  function PyList(j: Json): (r: Result<seq<Json>>)
    ensures r.Ok? <==> j.Arr? || j.Str? || j.Obj?
    ensures j.Arr? ==> r == Ok(j.items)
    ensures j.Str? ==> r.Ok? && |r.value| == |j.s|
  {
    match j
    case Arr(items) => Ok(items)
    case Str(s) => Ok(seq(|s|, k requires 0 <= k < |s| => Str([s[k]])))
    case Obj(members) => Ok(seq(|members|, k requires 0 <= k < |members| => Str(members[k].0)))
    case _ => Err("TypeError: object is not iterable")
  }

  /** The text between the optional sign and the end of an `int()` literal:
      digits, with single underscores allowed between digits. */
  predicate DigitBody(b: string)
  {
    && b != [] && IsDigit(b[0]) && IsDigit(b[|b| - 1])
    && (forall k :: 0 <= k < |b| ==> IsDigit(b[k]) || b[k] == '_')
    && (forall k :: 0 <= k < |b| - 1 ==> !(b[k] == '_' && b[k + 1] == '_'))
  }

  /** `b` with its underscores removed. */
  function Digits(b: string): (d: string)
    requires forall k :: 0 <= k < |b| ==> IsDigit(b[k]) || b[k] == '_'
    ensures forall k :: 0 <= k < |d| ==> IsDigit(d[k])
    ensures (forall k :: 0 <= k < |b| ==> IsDigit(b[k])) ==> d == b
  {
    if b == [] then [] else (if b[0] == '_' then [] else [b[0]]) + Digits(b[1..])
  }

  /** `int(s)` for a base-10 string literal, surrounding whitespace allowed. */
  function ParseIntLiteral(s: string): Result<int>
  {
    var t := Strip(s);
    var negative := t != [] && t[0] == '-';
    var body := if t != [] && (t[0] == '-' || t[0] == '+') then t[1..] else t;
    if DigitBody(body) then
      var v: int := DigitsValue(Digits(body));
      Ok(if negative then -v else v)
    else Err("ValueError: invalid literal for int() with base 10")
  }

  /** `int(j)`: ints as they are, `bool` as 0/1 (a subclass of `int`), strings parsed;
      `None`, lists and dicts raise `TypeError`. */
  function PyInt(j: Json): (r: Result<int>)
    ensures j.Int? ==> r == Ok(j.i)
    ensures j.Null? || j.Arr? || j.Obj? ==> r.Err?
  {
    match j
    case Int(i) => Ok(i)
    case Bool(b) => Ok(if b then 1 else 0)
    case Str(s) => ParseIntLiteral(s)
    case _ => Err("TypeError: int() argument must be a string or a number")
  }

  /** A string whose first character is neither whitespace, a sign nor a digit is not an `int()` literal. */
  lemma NonNumericRaises(s: string)
    requires s != [] && !IsSpace(s[0]) && !IsDigit(s[0]) && s[0] != '-' && s[0] != '+'
    ensures PyInt(Str(s)).Err?
  {
    assert LStrip(s) == s;
    assert RStrip(s)[0] == s[0];
  }

  lemma {:induction false} DigitsValueOfDecimal(n: nat)
    ensures DigitsValue(NatDecimal(n)) == n
  {
    if n >= 10 {
      DigitsValueOfDecimal(n / 10);
      var s := NatDecimal(n / 10);
      assert (s + [DigitChar(n % 10)])[..|s|] == s;
    }
  }

  lemma StripUnchanged(s: string)
    requires s != [] && !IsSpace(s[0]) && !IsSpace(s[|s| - 1])
    ensures Strip(s) == s
  {
    assert LStrip(s) == s;
  }

  lemma DecimalBody(n: nat)
    ensures DigitBody(NatDecimal(n)) && DigitsValue(Digits(NatDecimal(n))) == n
  {
    var d := NatDecimal(n);
    assert Digits(d) == d;
    DigitsValueOfDecimal(n);
  }

  /** `int(str(i)) == i`: the decimal text of an int parses back to it. */
  lemma IntOfStrRoundTrip(i: int)
    ensures PyInt(Str(Decimal(i))) == Ok(i)
  {
    var n: nat := if i < 0 then -i else i;
    var d := NatDecimal(n);
    var s := Decimal(i);
    DecimalBody(n);
    StripUnchanged(s);
    var t := Strip(s);
    assert t == s;
    var body := if t != [] && (t[0] == '-' || t[0] == '+') then t[1..] else t;
    if i < 0 {
      assert s == "-" + d;
      assert body == d;
    } else {
      assert body == d;
    }
    var v: int := DigitsValue(Digits(body));
    assert v == n;
  }
}
