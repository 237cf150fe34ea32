/** Shared vocabulary of the model: optional values, results, the JSON-like values that travel
    through the control protocol, and the few pieces of Python's built-in behaviour (truthiness,
    str(), repr() of a string, str.lower(), str() of an exception) that the backend relies on. */
module Common {

  datatype Option<+T> = None | Some(value: T)

  datatype Result<+T, +E> = Ok(value: T) | Err(error: E)

  /** A value as the backend sees it after json.loads, or a Python object a caller passed in.
      Other stands for every value the core only prints, tests for truth or serializes
      (floats, arbitrary objects): its type name, its str() text, its truth value and
      whether json.dumps accepts it. */
  datatype Value =
    | Null
    | Bool(b: bool)
    | Int(i: int)
    | Str(s: string)
    | Obj(fields: map<string, Value>)
    | List(items: seq<Value>)
    | Other(typeName: string, shown: string, truthy: bool, serializable: bool)

  /** A JSON object (a Python dict with string keys). */
  type Json = map<string, Value>

  /** Python's truth value of a value. */
  predicate Truthy(v: Value) {
    match v
    case Null => false
    case Bool(b) => b
    case Int(i) => i != 0
    case Str(s) => s != ""
    case Obj(m) => m != map[]
    case List(xs) => xs != []
    case Other(_, _, t, _) => t
  }

  /** dict.get(key) with the default None. */
  function Get(m: Json, key: string): (v: Value)
    ensures key in m ==> v == m[key]
    ensures key !in m ==> v == Null
  {
    if key in m then m[key] else Null
  }

  /** Whether json.dumps accepts the value. */
  predicate Serializable(v: Value) {
    match v
    case Obj(m) => forall k | k in m :: Serializable(m[k])
    case List(xs) => forall i | 0 <= i < |xs| :: Serializable(xs[i])
    case Other(_, _, _, ser) => ser
    case _ => true
  }

  function TypeName(v: Value): string {
    match v
    case Null => "NoneType"
    case Bool(_) => "bool"
    case Int(_) => "int"
    case Str(_) => "str"
    case Obj(_) => "dict"
    case List(_) => "list"
    case Other(t, _, _, _) => t
  }

  function Digit(d: nat): char
    requires d < 10
  {
    "0123456789"[d]
  }

  function NatToString(n: nat): (r: string)
    ensures |r| >= 1
    ensures forall i | 0 <= i < |r| :: '0' <= r[i] <= '9'
  {
    if n < 10 then [Digit(n)] else NatToString(n / 10) + [Digit(n % 10)]
  }

  /** str() of a Python int. */
  function IntToString(i: int): string {
    if i < 0 then "-" + NatToString(-i) else NatToString(i)
  }

  /** str() of a value. A non-empty dict or list is shown as "{...}" or "[...]": the text of
      its items is not part of this model. */
  function Show(v: Value): string {
    match v
    case Null => "None"
    case Bool(b) => if b then "True" else "False"
    case Int(i) => IntToString(i)
    case Str(s) => s
    case Obj(m) => if m == map[] then "{}" else "{...}"
    case List(xs) => if xs == [] then "[]" else "[...]"
    case Other(_, shown, _, _) => shown
  }

  /** The quote character repr() chooses for a string. */
  function QuoteFor(s: string): char {
    if '\'' in s && '"' !in s then '"' else '\''
  }

  function HexDigit(d: nat): char
    requires d < 16
  {
    "0123456789abcdef"[d]
  }

  /** A character repr() copies as it is: printable ASCII other than the backslash. */
  predicate PlainChar(c: char) {
    ' ' <= c <= '~' && c != '\\'
  }

  /** How repr writes one character inside quotes q: the backslash, the quote, \n, \r and \t
      behind a backslash, every other ASCII control character as \xNN, the rest as it is. */
  function EscapeChar(c: char, q: char): (e: string)
    requires PlainChar(q)
    ensures PlainChar(c) && c != q ==> e == [c]
    ensures c as int < 128 ==> forall i | 0 <= i < |e| :: ' ' <= e[i] <= '~'
  {
    if c == '\\' then "\\\\"
    else if c == q then ['\\', q]
    else if c == '\n' then "\\n"
    else if c == '\r' then "\\r"
    else if c == '\t' then "\\t"
    else if c as int < 32 || c as int == 127 then "\\x" + [HexDigit(c as int / 16), HexDigit(c as int % 16)]
    else [c]
  }

  /** The body of repr(s) between its quotes. */
  function Escaped(s: string, q: char): (r: string)
    requires PlainChar(q)
    ensures (forall i | 0 <= i < |s| :: PlainChar(s[i]) && s[i] != q) ==> r == s
    ensures (forall i | 0 <= i < |s| :: s[i] as int < 128) ==> forall i | 0 <= i < |r| :: ' ' <= r[i] <= '~'
  {
    if s == [] then []
    else
      var e := EscapeChar(s[0], q);
      var rest := Escaped(s[1..], q);
      assert forall i | 0 <= i < |e| + |rest| :: (e + rest)[i] == if i < |e| then e[i] else rest[i - |e|];
      e + rest
  }

  /** repr() of a Python str: quoted, with a text that copies plain characters and shows no
      ASCII control character raw. */
  function PyRepr(s: string): (r: string)
    ensures |r| >= 2 && r[0] == r[|r| - 1] == QuoteFor(s)
    ensures (forall i | 0 <= i < |s| :: PlainChar(s[i]) && s[i] != '\'') ==> r == "'" + s + "'"
    ensures (forall i | 0 <= i < |s| :: s[i] as int < 128) ==> forall i | 0 <= i < |r| :: ' ' <= r[i] <= '~'
  {
    var q := QuoteFor(s);
    [q] + Escaped(s, q) + [q]
  }

  function LowerChar(c: char): char {
    if 'A' <= c <= 'Z' then (c as int + 32) as char else c
  }

  /** str.lower() on ASCII letters. */
  function Lower(s: string): (r: string)
    ensures |r| == |s|
    ensures forall i | 0 <= i < |s| :: r[i] == LowerChar(s[i])
  {
    seq(|s|, i requires 0 <= i < |s| => LowerChar(s[i]))
  }

  lemma LowerIdempotent(s: string)
    ensures Lower(Lower(s)) == Lower(s)
  {
  }

  /** `needle in haystack` for two Python strs. */
  predicate IsSubstring(needle: string, haystack: string) {
    needle <= haystack || (haystack != [] && IsSubstring(needle, haystack[1..]))
  }

  /** A raised Python exception: KeyError keeps its key, every other kind its message. */
  datatype PyError =
    | KeyError(key: string)
    | Raised(kind: string, message: string)

  /** str() of an exception; for a KeyError this is the repr() of the missing key. */
  function ErrorText(e: PyError): string {
    match e
    case KeyError(k) => PyRepr(k)
    case Raised(_, msg) => msg
  }

  function NotImplemented(msg: string): PyError {
    Raised("NotImplementedError", msg)
  }
}
