/** JSON values as Python's `json` module decodes them, and the Python operations
    the extraction code applies to decoded values (truthiness, `in`, `.get`,
    subscripting, iteration, comparison with an int), each with the exception
    CPython raises when the value has the wrong type.

    An exception is represented by the text `str(e)` gives for it: every handler
    in the extraction code is `except Exception`, so the text is all that a
    caller can observe. */
module PyJson {

  /** A decoded JSON value. `Null` is Python's `None`. Floats are not modelled;
      an object's key order is not modelled. */
  datatype Json =
    | Null
    | Bool(b: bool)
    | Int(i: int)
    | Str(s: string)
    | Arr(items: seq<Json>)
    | Obj(fields: map<string, Json>)

  /** One issue or hotspot record: a decoded JSON object. */
  type Finding = map<string, Json>

  /** A raised exception, by its `str(e)` text. */
  datatype Exc = Exc(message: string)

  datatype Result<T> = Ok(value: T) | Err(error: Exc) {
    predicate IsFailure() { Err? }
    function PropagateFailure<U>(): Result<U> requires Err? { Err(error) }
    function Extract(): T requires Ok? { value }
  }

  datatype Option<T> = None | Some(value: T)

  /** Items already produced, put in front of the outcome of the rest. */
  function Prepend<T>(done: seq<T>, rest: Result<seq<T>>): Result<seq<T>> {
    if rest.Err? then rest else Ok(done + rest.value)
  }

  lemma PrependNothing<T>(rest: Result<seq<T>>)
    ensures Prepend([], rest) == rest
  {
    if rest.Ok? {
      assert [] + rest.value == rest.value;
    }
  }

  lemma PrependTwice<T>(done: seq<T>, more: seq<T>, rest: Result<seq<T>>)
    ensures Prepend(done, Prepend(more, rest)) == Prepend(done + more, rest)
  {
    if rest.Ok? {
      assert done + (more + rest.value) == (done + more) + rest.value;
    }
  }

  /** `bool(v)`. */
  predicate Truthy(v: Json) {
    match v
    case Null => false
    case Bool(b) => b
    case Int(i) => i != 0
    case Str(s) => s != ""
    case Arr(a) => a != []
    case Obj(o) => |o| != 0
  }

  /** `type(v).__name__`. */
  function TypeName(v: Json): string {
    match v
    case Null => "NoneType"
    case Bool(_) => "bool"
    case Int(_) => "int"
    case Str(_) => "str"
    case Arr(_) => "list"
    case Obj(_) => "dict"
  }

  predicate IsSubstring(needle: string, hay: string)
    decreases |hay|
  {
    |needle| <= |hay| && (hay[..|needle|] == needle || IsSubstring(needle, hay[1..]))
  }

  /** The TypeError raised by `key in v` when `v` is not a container. */
  function NotContainer(v: Json): Exc {
    Exc("argument of type '" + TypeName(v) + "' is not iterable")
  }

  /** `key in v`. */
  function Contains(v: Json, key: string): Result<bool> {
    match v
    case Obj(o) => Ok(key in o)
    case Arr(a) => Ok(Str(key) in a)
    case Str(s) => Ok(IsSubstring(key, s))
    case _ => Err(NotContainer(v))
  }

  /** The AttributeError raised when `v` has no method `name`. */
  function NoAttribute(v: Json, name: string): Exc {
    Exc("'" + TypeName(v) + "' object has no attribute '" + name + "'")
  }

  /** `v.get(key, default)`. */
  function Get(v: Json, key: string, default: Json): Result<Json> {
    match v
    case Obj(o) => Ok(if key in o then o[key] else default)
    case _ => Err(NoAttribute(v, "get"))
  }

  /** `v[key]` for a string key; a missing key raises KeyError, whose text is `repr(key)`. */
  function Index(v: Json, key: string): (r: Result<Json>)
    ensures r.Ok? <==> v.Obj? && key in v.fields
    ensures r.Ok? ==> r.value == v.fields[key]
  {
    match v
    case Obj(o) => if key in o then Ok(o[key]) else Err(Exc(ReprStr(key)))
    case Arr(_) => Err(Exc("list indices must be integers or slices, not str"))
    case Str(_) => Err(Exc("string indices must be integers, not 'str'"))
    case _ => Err(Exc("'" + TypeName(v) + "' object is not subscriptable"))
  }

  /** `v[0]`. */
  function IndexFirst(v: Json): Result<Json> {
    match v
    case Arr(a) => if |a| > 0 then Ok(a[0]) else Err(Exc("list index out of range"))
    case Str(s) => if |s| > 0 then Ok(Str([s[0]])) else Err(Exc("string index out of range"))
    case Obj(_) => Err(Exc("0"))
    case _ => Err(Exc("'" + TypeName(v) + "' object is not subscriptable"))
  }

  /** `v[k]` for a key that is itself a JSON value, where the code swallows any
      exception: `None` stands for "raised". Object keys are strings, so only a
      string key can be present; lists and strings accept int (and bool) indices. */
  function SubscriptAny(v: Json, k: Json): Option<Json> {
    match v
    case Obj(o) => if k.Str? && k.s in o then Some(o[k.s]) else None
    case Arr(a) =>
      var n := |a|;
      (match k
       case Int(i) => if -n <= i < n then Some(a[if i < 0 then i + n else i]) else None
       case Bool(b) => if b && n > 1 then Some(a[1]) else if !b && n > 0 then Some(a[0]) else None
       case _ => None)
    case Str(s) =>
      var n := |s|;
      (match k
       case Int(i) => if -n <= i < n then Some(Str([s[if i < 0 then i + n else i]])) else None
       case Bool(b) => if b && n > 1 then Some(Str([s[1]])) else if !b && n > 0 then Some(Str([s[0]])) else None
       case _ => None)
    case _ => None
  }

  /** `v.get(k, default)` for a key that is a JSON value, where the code swallows any
      exception (`None`: raised, as for a list or dict key, which is unhashable). */
  function GetAny(v: Json, k: Json, default: Json): Option<Json> {
    match v
    case Obj(o) =>
      if k.Arr? || k.Obj? then None
      else if k.Str? && k.s in o then Some(o[k.s])
      else Some(default)
    case _ => None
  }

  /** The one-character strings of `s`, as iterating a Python string gives them. */
  function Chars(s: string): (r: seq<Json>)
    ensures |r| == |s|
    ensures forall i :: 0 <= i < |s| ==> r[i] == Str([s[i]])
  {
    if s == [] then [] else [Str([s[0]])] + Chars(s[1..])
  }

  /** `list(v)`. Iterating a dict gives its keys; only their number is kept here,
      because every use the code makes of such a key (subscripting it with a string,
      calling `.get` on it) raises in the same way whatever its text. */
  function Iter(v: Json): Result<seq<Json>> {
    match v
    case Arr(a) => Ok(a)
    case Str(s) => Ok(Chars(s))
    case Obj(o) => Ok(seq(|o|, _ => Str("")))
    case _ => Err(Exc("'" + TypeName(v) + "' object is not iterable"))
  }

  /** The integer a JSON number or bool stands for in Python arithmetic. */
  predicate IsNumber(v: Json) { v.Int? || v.Bool? }

  function NumberValue(v: Json): int
    requires IsNumber(v)
  {
    if v.Int? then v.i else if v.b then 1 else 0
  }

  /** `v > n`, `v >= n` for an int `n`. */
  function Greater(v: Json, n: int): Result<bool> {
    if IsNumber(v) then Ok(NumberValue(v) > n)
    else Err(Exc("'>' not supported between instances of '" + TypeName(v) + "' and 'int'"))
  }

  function GreaterEq(v: Json, n: int): Result<bool> {
    if IsNumber(v) then Ok(NumberValue(v) >= n)
    else Err(Exc("'>=' not supported between instances of '" + TypeName(v) + "' and 'int'"))
  }

  /** `v == 0` (never raises; `False == 0` in Python). */
  predicate EqualsZero(v: Json) { IsNumber(v) && NumberValue(v) == 0 }

  /** `v // 500`; Dafny's division is Euclidean, which is floor division for a positive divisor. */
  function FloorDiv500(v: Json): Result<int> {
    if IsNumber(v) then Ok(NumberValue(v) / 500)
    else Err(Exc("unsupported operand type(s) for //: '" + TypeName(v) + "' and 'int'"))
  }

  /** `re.search(pattern, v) is not None`, with the regular expression as an abstract
      predicate on strings; a non-string subject raises. */
  function Search(matches: string -> bool, v: Json): Result<bool> {
    if v.Str? then Ok(matches(v.s))
    else Err(Exc("expected string or bytes-like object, got '" + TypeName(v) + "'"))
  }

  /** `acc.extend(v)`: only a list has `extend`; the argument must be iterable. */
  function Extend(acc: Json, v: Json): Result<Json> {
    if !acc.Arr? then Err(NoAttribute(acc, "extend"))
    else
      var more :- Iter(v);
      Ok(Arr(acc.items + more))
  }

  // ---------------------------------------------------------------------------
  // Strings

  /** Python's `str.isspace` for one character. */
  predicate IsSpace(c: char) {
    ('\t' <= c <= '\r') || ('\U{1C}' <= c <= ' ') || c == '\U{85}' || c == '\U{A0}'
    || c == '\U{1680}' || ('\U{2000}' <= c <= '\U{200A}') || c == '\U{2028}' || c == '\U{2029}'
    || c == '\U{202F}' || c == '\U{205F}' || c == '\U{3000}'
  }

  /** `s.lstrip()`. */
  function LStrip(s: string): (r: string)
    ensures |r| <= |s| && r == s[|s| - |r|..]
    ensures r == [] || !IsSpace(r[0])
    ensures forall i :: 0 <= i < |s| - |r| ==> IsSpace(s[i])
  {
    if s != [] && IsSpace(s[0]) then LStrip(s[1..]) else s
  }

  /** `len(s) - len(s.lstrip())`: the number of leading whitespace characters. */
  function LeadingSpace(s: string): nat {
    |s| - |LStrip(s)|
  }

  /** `" " * n`. */
  function Spaces(n: nat): (r: string)
    ensures |r| == n && forall i :: 0 <= i < n ==> r[i] == ' '
  {
    if n == 0 then "" else Spaces(n - 1) + " "
  }

  /** `s.replace("/", "_")`. */
  function SlashToUnderscore(s: string): (r: string)
    ensures |r| == |s|
    ensures forall i :: 0 <= i < |s| ==> r[i] == (if s[i] == '/' then '_' else s[i])
  {
    if s == [] then "" else [if s[0] == '/' then '_' else s[0]] + SlashToUnderscore(s[1..])
  }

  /** `s.rstrip("/")`: removes every trailing slash. */
  function RStripSlashes(s: string): (r: string)
    ensures |r| <= |s| && r == s[..|r|]
    ensures r == [] || r[|r| - 1] != '/'
    ensures forall i :: |r| <= i < |s| ==> s[i] == '/'
  {
    if s != [] && s[|s| - 1] == '/' then RStripSlashes(s[..|s| - 1]) else s
  }

  /** `s[:-2]` (Python slicing never raises; a shorter string becomes empty). */
  function DropLast2(s: string): (r: string)
    ensures |s| >= 2 ==> r == s[..|s| - 2]
    ensures |s| < 2 ==> r == ""
  {
    if |s| >= 2 then s[..|s| - 2] else ""
  }

  /** `str(n)` for an int. */
  function Decimal(n: int): string
    decreases if n < 0 then 1 - n else n
  {
    if n < 0 then "-" + Decimal(-n)
    else if n < 10 then [['0','1','2','3','4','5','6','7','8','9'][n]]
    else Decimal(n / 10) + Decimal(n % 10)
  }

  /** `str(v)`. The `repr` of a list or dict is not modelled: it is passed in. */
  function PyStr(v: Json, reprContainer: Json -> string): string {
    match v
    case Null => "None"
    case Bool(b) => if b then "True" else "False"
    case Int(i) => Decimal(i)
    case Str(s) => s
    case _ => reprContainer(v)
  }

  function EscapeChar(c: char, quote: char): string {
    if c == '\\' then "\\\\"
    else if c == quote then ['\\', quote]
    else if c == '\n' then "\\n"
    else if c == '\r' then "\\r"
    else if c == '\t' then "\\t"
    else [c]
  }

  function Escape(s: string, quote: char): string {
    if s == [] then "" else EscapeChar(s[0], quote) + Escape(s[1..], quote)
  }

  /** `repr(s)`: single quotes unless the text holds a single quote and no double
      quote; backslash, the quote, newline, carriage return and tab are escaped
      (other non-printable characters are not escaped here). */
  function ReprStr(s: string): string {
    var quote := if '\'' in s && '"' !in s then '"' else '\'';
    [quote] + Escape(s, quote) + [quote]
  }

  function JoinReprs(ss: seq<string>): string {
    if ss == [] then "" else if |ss| == 1 then ReprStr(ss[0]) else ReprStr(ss[0]) + ", " + JoinReprs(ss[1..])
  }

  /** `str(ss)` for a list of strings, as an f-string prints it. */
  function ReprList(ss: seq<string>): string {
    "[" + JoinReprs(ss) + "]"
  }

  /** `os.path.join(dir, name)` on POSIX, for a relative `name`. */
  function PathJoin(dir: string, name: string): string {
    if dir == "" || dir[|dir| - 1] == '/' then dir + name else dir + "/" + name
  }

  /** The longest prefix of `s` that ends with a slash (empty when there is none). */
  function ThroughLastSlash(s: string): (r: string)
    ensures |r| <= |s| && r == s[..|r|]
    ensures r == [] || r[|r| - 1] == '/'
    ensures '/' !in s[|r|..]
  {
    if s == [] then []
    else if s[|s| - 1] == '/' then s
    else
      var r := ThroughLastSlash(s[..|s| - 1]);
      assert s[|r|..] == s[..|s| - 1][|r|..] + [s[|s| - 1]];
      r
  }

  /** The index of the first `"://"` in `s`, if any. */
  function SchemeSeparator(s: string): (r: Option<nat>)
    ensures r.Some? ==> r.value + 3 <= |s| && s[r.value..r.value + 3] == "://"
    decreases |s|
  {
    if |s| < 3 then None
    else if s[..3] == "://" then Some(0)
    else match SchemeSeparator(s[1..])
         case None => None
         case Some(i) => Some(i + 1)
  }

  /** `urllib.parse.urljoin(base, rel)` for a relative path `rel` (no scheme, no
      leading slash, no dot segments): `rel` replaces the last segment of the
      path of `base`; a `scheme://host` base without a path gets `/rel`. */
  function UrlJoin(base: string, rel: string): string {
    match SchemeSeparator(base)
    case Some(i) =>
      var rest := base[i + 3..];
      if '/' !in rest then base + "/" + rel
      else base[..i + 3] + ThroughLastSlash(rest) + rel
    case None => ThroughLastSlash(base) + rel
  }

  // ---------------------------------------------------------------------------
  // Properties of the string helpers used by the extraction code

  lemma {:induction false} LeadingSpaceOfIndented(n: nat, body: string)
    requires body == [] || !IsSpace(body[0])
    ensures LeadingSpace(Spaces(n) + body) == n
    ensures LStrip(Spaces(n) + body) == body
  {
    if n > 0 {
      assert Spaces(n) + body == [' '] + (Spaces(n - 1) + body) by {
        SpacesCons(n);
      }
      LeadingSpaceOfIndented(n - 1, body);
    } else {
      assert Spaces(n) + body == body;
    }
  }

  lemma SpacesCons(n: nat)
    requires n > 0
    ensures Spaces(n) == [' '] + Spaces(n - 1)
  {
    assert |Spaces(n)| == |[' '] + Spaces(n - 1)|;
  }

  lemma {:induction false} SpacesAdd(m: nat, n: nat)
    ensures Spaces(m) + Spaces(n) == Spaces(m + n)
  {
    assert |Spaces(m) + Spaces(n)| == |Spaces(m + n)|;
  }
}
