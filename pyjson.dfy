/**
 A decoded JSON payload as the bot's Python code sees it, together with the
 few Python operations the bot applies to such values: truthiness, the `in`
 operator with a string key, subscription with a string key, `dict.get`, and
 `str()` of a value placed in an f-string.
 */
module PyJson {

  datatype Option<+T> = None | Some(value: T)

  /** The two built-in exception kinds that reach the bot's handlers. */
  datatype Error = KeyError(msg: string) | TypeError(msg: string)

  /** A value or the exception that was raised instead; usable with `:-`. */
  datatype Result<+T> = Ok(value: T) | Err(error: Error) {
    predicate IsFailure() { Err? }
    function PropagateFailure<U>(): Result<U> requires Err? { Err(error) }
    function Extract(): T requires Ok? { value }
  }

  /** What `json.loads` yields: None, bool, int, str, list or dict. */
  datatype Json =
    | Null
    | Bool(b: bool)
    | Int(i: int)
    | Str(s: string)
    | Arr(items: seq<Json>)
    | Obj(fields: map<string, Json>)

  /** Python's truth value of a decoded value. */
  predicate Truthy(j: Json) {
    match j
    case Null => false
    case Bool(b) => b
    case Int(i) => i != 0
    case Str(s) => s != ""
    case Arr(xs) => xs != []
    case Obj(m) => m != map[]
  }

  /** The name Python reports for the value's type in a TypeError. */
  function TypeName(j: Json): string {
    match j
    case Null => "NoneType"
    case Bool(_) => "bool"
    case Int(_) => "int"
    case Str(_) => "str"
    case Arr(_) => "list"
    case Obj(_) => "dict"
  }

  /** Does `k` occur in `s` as a contiguous piece (Python's `k in s` on two strings)? */
  predicate IsSubstring(k: string, s: string)
    decreases |s|
  {
    (|k| <= |s| && s[..|k|] == k) || (s != [] && IsSubstring(k, s[1..]))
  }

  /** `k` occupies positions `i` to `i + |k|` of `s`. */
  predicate OccursAt(k: string, s: string, i: int) {
    0 <= i && i + |k| <= |s| && s[i..i + |k|] == k
  }

  /** `IsSubstring` agrees with the textbook definition: some window of `s` equals `k`. */
  lemma {:induction false} SubstringAt(k: string, s: string)
    ensures IsSubstring(k, s) <==> exists i :: OccursAt(k, s, i)
    decreases |s|
  {
    if IsSubstring(k, s) {
      if |k| <= |s| && s[..|k|] == k {
        assert OccursAt(k, s, 0);
      } else {
        SubstringAt(k, s[1..]);
        var i :| OccursAt(k, s[1..], i);
        assert s[i + 1..i + 1 + |k|] == s[1..][i..i + |k|];
        assert OccursAt(k, s, i + 1);
      }
    } else if exists i :: OccursAt(k, s, i) {
      var i :| OccursAt(k, s, i);
      if i > 0 {
        assert s[1..][i - 1..i - 1 + |k|] == s[i..i + |k|];
        assert OccursAt(k, s[1..], i - 1);
        SubstringAt(k, s[1..]);
      }
    }
  }

  /**
   `key in container` for a string key: a dict tests its keys, a list its
   elements, a string its substrings; None, bool and int are not containers.
   */
  function Contains(container: Json, key: string): Result<bool> {
    match container
    case Obj(m) => Ok(key in m)
    case Arr(xs) => Ok(Str(key) in xs)
    case Str(s) => Ok(IsSubstring(key, s))
    case _ => Err(TypeError("argument of type '" + TypeName(container) + "' is not iterable"))
  }

  /** `container[key]` for a string key: only a dict can be indexed by a string. */
  function Index(container: Json, key: string): Result<Json> {
    match container
    case Obj(m) => if key in m then Ok(m[key]) else Err(KeyError(key))
    case Str(_) => Err(TypeError("string indices must be integers, not 'str'"))
    case Arr(_) => Err(TypeError("list indices must be integers or slices, not str"))
    case _ => Err(TypeError("'" + TypeName(container) + "' object is not subscriptable"))
  }

  /** `d.get(key)` on a dict: the value, or None when the key is absent. */
  function Get(fields: map<string, Json>, key: string): Json {
    if key in fields then fields[key] else Null
  }

  function DigitChar(d: nat): char
    requires d < 10
  {
    "0123456789"[d]
  }

  function DigitValue(c: char): nat {
    if '0' <= c <= '9' then (c as int - '0' as int) as nat else 0
  }

  /** Decimal digits of `n`, most significant first, without leading zeros. */
  function NatText(n: nat): (t: string)
    ensures t != []
    ensures forall i :: 0 <= i < |t| ==> '0' <= t[i] <= '9'
    ensures |t| > 1 ==> t[0] != '0'
  {
    if n < 10 then [DigitChar(n)] else NatText(n / 10) + [DigitChar(n % 10)]
  }

  /** The number a string of decimal digits denotes. */
  function DecimalValue(t: string): nat {
    if t == [] then 0 else 10 * DecimalValue(t[..|t| - 1]) + DigitValue(t[|t| - 1])
  }

  /** Reading back the digits of `n` gives `n`. */
  lemma {:induction false} NatTextRoundTrip(n: nat)
    ensures DecimalValue(NatText(n)) == n
  {
    var t := NatText(n);
    if n < 10 {
      assert t[..|t| - 1] == [];
    } else {
      NatTextRoundTrip(n / 10);
      assert t[..|t| - 1] == NatText(n / 10);
    }
  }

  /** `str(i)` for a Python int. */
  function IntText(i: int): string {
    if i < 0 then "-" + NatText(-i) else NatText(i)
  }

  /**
   `str(j)`, as an f-string renders a field value. Exact for None, bools, ints
   and strings; a list or dict renders as its type name in angle brackets
   here (Python prints its repr).
   */
  function Display(j: Json): string {
    match j
    case Null => "None"
    case Bool(b) => if b then "True" else "False"
    case Int(i) => IntText(i)
    case Str(s) => s
    case _ => "<" + TypeName(j) + ">"
  }

  /** The escape sequence `repr` writes for one character inside `quote`-delimited text. */
  function EscapeChar(c: char, quote: char): string {
    if c == '\\' then "\\\\"
    else if c == quote then ['\\', quote]
    else if c == '\n' then "\\n"
    else if c == '\r' then "\\r"
    else if c == '\t' then "\\t"
    else [c]
  }

  function Escape(s: string, quote: char): string {
    if s == [] then [] else EscapeChar(s[0], quote) + Escape(s[1..], quote)
  }

  /**
   `repr(s)` of a str: single quotes unless `s` holds a single quote and no
   double quote, in which case double quotes.
   */
  function PyRepr(s: string): string {
    var quote := if '\'' in s && '"' !in s then '"' else '\'';
    [quote] + Escape(s, quote) + [quote]
  }

  /** `str(error)`: a KeyError prints the repr of its argument, a TypeError the argument itself. */
  function ErrorText(e: Error): string {
    match e
    case KeyError(m) => PyRepr(m)
    case TypeError(m) => m
  }

  /** Characters that `repr` writes unchanged between `quote`s (as far as this model escapes). */
  predicate Plain(c: char, quote: char) {
    c != '\\' && c != quote && c != '\n' && c != '\r' && c != '\t'
  }

  lemma {:induction false} PlainEscape(s: string, quote: char)
    requires forall i :: 0 <= i < |s| ==> Plain(s[i], quote)
    ensures Escape(s, quote) == s
  {
    if s != [] {
      assert Plain(s[0], quote);
      PlainEscape(s[1..], quote);
    }
  }

  /**
   The repr of a string with no backslash or control character only adds
   quotes: double ones when it holds a single quote and no double quote,
   single ones when it holds no single quote.
   */
  lemma PlainRepr(s: string)
    requires forall i :: 0 <= i < |s| ==> s[i] !in "\\\n\r\t"
    ensures '\'' in s && '"' !in s ==> PyRepr(s) == "\"" + s + "\""
    ensures '\'' !in s ==> PyRepr(s) == "'" + s + "'"
  {
    if '\'' in s && '"' !in s {
      PlainEscape(s, '"');
    } else if '\'' !in s {
      PlainEscape(s, '\'');
    }
  }
}
