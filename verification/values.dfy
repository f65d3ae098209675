/** Python values as the downloader sees them: decoded JSON, truthiness,
    `dict.get`, `in`, iteration, `str()` and `int()`, plus the two ways a
    Python expression can end (a value or a raised exception). */
module Values {

  datatype Option<+T> = None | Some(value: T) {
    function GetOr(default: T): T {
      match this
      case Some(v) => v
      case None => default
    }
  }

  /** How a Python expression ends: with a value, or by raising an exception.
      Failure-compatible, so `:-` propagates a raise. */
  datatype Outcome<+T> = Returns(value: T) | Raises {
    predicate IsFailure() {
      Raises?
    }

    function PropagateFailure<U>(): Outcome<U>
      requires Raises?
    {
      Raises
    }

    function Extract(): T
      requires Returns?
    {
      value
    }
  }

  /** A decoded JSON value. Numbers are integers only. An object keeps its
      members in document order; `json.loads` lets a later duplicate key win
      while the key keeps the position of its first occurrence. */
  datatype Json =
    | JNull
    | JBool(b: bool)
    | JNum(n: int)
    | JStr(s: string)
    | JArr(elems: seq<Json>)
    | JObj(members: seq<Member>)

  datatype Member = Member(key: string, value: Json)

  /** Behaviour of the Python runtime that the model does not define:
      the system MIME table behind `mimetypes.guess_extension`, and `repr`
      of lists and dicts (used when `str()` meets a container). */
  datatype Host = Host(guessExtension: string -> Option<string>, containerRepr: Json -> string)

  /** The value stored under `k` in a decoded object (the last duplicate). */
  function Lookup(ms: seq<Member>, k: string): (r: Option<Json>)
    ensures r.None? <==> forall i :: 0 <= i < |ms| ==> ms[i].key != k
    ensures r.Some? ==> exists i :: 0 <= i < |ms| && ms[i] == Member(k, r.value)
                                    && forall j :: i < j < |ms| ==> ms[j].key != k
  {
    if |ms| == 0 then None
    else if ms[|ms| - 1].key == k then Some(ms[|ms| - 1].value)
    else Lookup(ms[..|ms| - 1], k)
  }

  predicate HasKey(ms: seq<Member>, k: string) {
    Lookup(ms, k).Some?
  }

  /** `d.get(k)`: a missing key reads as `None`, which is JSON null. */
  function Get(ms: seq<Member>, k: string): Json {
    Lookup(ms, k).GetOr(JNull)
  }

  /** `d.get(k, default)`: the default only when the key is missing, not when it is null. */
  function GetOr(ms: seq<Member>, k: string, default: Json): Json {
    Lookup(ms, k).GetOr(default)
  }

  /** `x.get(k)` on any value: only dicts have a `get` method. */
  function DotGet(j: Json, k: string): Outcome<Json> {
    if j.JObj? then Returns(Get(j.members, k)) else Raises
  }

  /** `x.get(k, default)` on any value. */
  function DotGetOr(j: Json, k: string, default: Json): Outcome<Json> {
    if j.JObj? then Returns(GetOr(j.members, k, default)) else Raises
  }

  /** The distinct keys of an object, in the order a Python dict iterates them. */
  function Keys(ms: seq<Member>): (ks: seq<string>)
    ensures |ms| > 0 ==> |ks| > 0
    ensures forall k :: k in ks <==> HasKey(ms, k)
    ensures forall i, j :: 0 <= i < j < |ks| ==> ks[i] != ks[j]
  {
    if |ms| == 0 then []
    else
      var ks := Keys(ms[..|ms| - 1]);
      if ms[|ms| - 1].key in ks then ks else ks + [ms[|ms| - 1].key]
  }

  /** Python truthiness of a decoded JSON value. */
  predicate Truthy(j: Json) {
    match j
    case JNull => false
    case JBool(b) => b
    case JNum(n) => n != 0
    case JStr(s) => |s| > 0
    case JArr(a) => |a| > 0
    case JObj(ms) => |ms| > 0
  }

  /** The values `len()` accepts. */
  predicate Sized(j: Json) {
    j.JStr? || j.JArr? || j.JObj?
  }

  /** What iterating a sized value yields (as `list.extend` does):
      the elements of a list, the one-character strings of a string,
      the keys of a dict. */
  function Elements(j: Json): (xs: seq<Json>)
    requires Sized(j)
    ensures Truthy(j) <==> |xs| > 0
    ensures j.JArr? ==> xs == j.elems
  {
    match j
    case JArr(a) => a
    case JStr(s) => seq(|s|, i requires 0 <= i < |s| => JStr([s[i]]))
    case JObj(ms) => var ks := Keys(ms); seq(|ks|, i requires 0 <= i < |ks| => JStr(ks[i]))
  }

  /** `s.startswith(prefix)`. */
  predicate StartsWith(s: string, prefix: string) {
    |prefix| <= |s| && s[..|prefix|] == prefix
  }

  /** `needle in hay` for two strings. */
  predicate IsSubstring(needle: string, hay: string) {
    exists i :: 0 <= i <= |hay| && StartsWith(hay[i..], needle)
  }

  /** `key in x` for a string key: dict membership, substring test on a
      string, element test on a list; other values are not containers. */
  function Contains(j: Json, key: string): (r: Outcome<bool>)
    ensures r.Raises? <==> !Sized(j)
    ensures j.JObj? ==> r == Returns(HasKey(j.members, key))
  {
    match j
    case JObj(ms) => Returns(HasKey(ms, key))
    case JStr(s) => Returns(IsSubstring(key, s))
    case JArr(a) => Returns(JStr(key) in a)
    case _ => Raises
  }

  /** `x[key]` for a string key: only a dict holding the key answers. */
  function Subscript(j: Json, key: string): (r: Outcome<Json>)
    ensures r.Returns? <==> j.JObj? && HasKey(j.members, key)
    ensures r.Returns? ==> r.value == Get(j.members, key)
  {
    if j.JObj? && HasKey(j.members, key) then Returns(Get(j.members, key)) else Raises
  }

  function DigitChar(d: nat): char
    requires d < 10
  {
    "0123456789"[d]
  }

  function NatToDecimal(n: nat): (s: string)
    ensures |s| > 0
    ensures forall i :: 0 <= i < |s| ==> '0' <= s[i] <= '9'
  {
    if n < 10 then [DigitChar(n)] else NatToDecimal(n / 10) + [DigitChar(n % 10)]
  }

  function IntToDecimal(n: int): string {
    if n < 0 then "-" + NatToDecimal(-n) else NatToDecimal(n)
  }

  /** `str(x)` / an f-string field: exact for scalars; containers go to the host's `repr`. */
  function Str(j: Json, host: Host): string {
    match j
    case JNull => "None"
    case JBool(b) => if b then "True" else "False"
    case JNum(n) => IntToDecimal(n)
    case JStr(s) => s
    case _ => host.containerRepr(j)
  }

  predicate IsDigit(c: char) {
    '0' <= c <= '9'
  }

  predicate AllDigits(s: string) {
    forall i :: 0 <= i < |s| ==> IsDigit(s[i])
  }

  /** The strings `int()` accepts, in the ASCII form `[+-]?[0-9]+`. */
  predicate IsIntLiteral(s: string) {
    if |s| > 0 && (s[0] == '+' || s[0] == '-') then |s| > 1 && AllDigits(s[1..])
    else |s| > 0 && AllDigits(s)
  }

  function DigitsValue(s: string): nat
    requires AllDigits(s)
  {
    if |s| == 0 then 0 else 10 * DigitsValue(s[..|s| - 1]) + (s[|s| - 1] as int - '0' as int)
  }

  /** `int(s)` for a string: `None` where Python raises `ValueError`. */
  function ParseInt(s: string): (r: Option<int>)
    ensures r.Some? <==> IsIntLiteral(s)
  {
    if !IsIntLiteral(s) then None
    else if s[0] == '-' then var v: int := DigitsValue(s[1..]); Some(-v)
    else if s[0] == '+' then Some(DigitsValue(s[1..]))
    else Some(DigitsValue(s))
  }

  /** `int(x)` for a value it accepts. */
  function IntOf(j: Json): (n: int)
    requires IntConvertible(j)
    ensures j.JNum? ==> n == j.n
    ensures j.JBool? ==> n == if j.b then 1 else 0
    ensures j.JStr? ==> Some(n) == ParseInt(j.s)
  {
    match j
    case JNum(n) => n
    case JBool(b) => if b then 1 else 0
    case JStr(s) => ParseInt(s).value
  }

  /** Whether `int(x)` returns for a decoded JSON value. */
  predicate IntConvertible(j: Json) {
    match j
    case JNum(_) => true
    case JBool(_) => true
    case JStr(s) => IsIntLiteral(s)
    case _ => false
  }
}
