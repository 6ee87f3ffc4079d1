/** The dynamically typed values held in the UniCar document, together with the
    handful of Python built-ins the codecs and the service apply to them:
    str(), int(), truthiness, str.strip(), str.split("|") and str.join(). */
module Values {

  datatype Option<+T> = None | Some(value: T)

  datatype Result<+T, +E> = Ok(value: T) | Err(error: E)

  /** A JSON value. Lists are lists of strings (the only lists the app stores:
      stops and offer detail lines); VOther stands for every other JSON value
      (a float, a list holding non-strings) and carries the text Python's str()
      gives it and its truthiness. */
  datatype Value =
    | VNone
    | VBool(b: bool)
    | VInt(i: int)
    | VStr(s: string)
    | VList(items: seq<string>)
    | VMap(entries: map<string, Value>)
    | VOther(text: string, truthy: bool)

  /** dict.get(k, default) */
  function Get(m: map<string, Value>, k: string, default: Value): Value
  {
    if k in m then m[k] else default
  }

  /** Python truthiness (`if x:` / `x or y`). */
  predicate Truthy(v: Value)
  {
    match v
    case VNone => false
    case VBool(b) => b
    case VInt(i) => i != 0
    case VStr(s) => s != ""
    case VList(xs) => xs != []
    case VMap(m) => m != map[]
    case VOther(_, t) => t
  }

  // ---------------------------------------------------------------
  // Whitespace and str.strip()
  // ---------------------------------------------------------------

  /** The characters str.strip() removes, those for which str.isspace()
      holds: the controls 9-13 and 28-31, the space, and the Unicode
      separators and spaces. */
  predicate IsSpace(c: char)
  {
    || ('\t' <= c <= '\r') || ('\U{1C}' <= c <= ' ')
    || c == '\U{85}' || c == '\U{A0}' || c == '\U{1680}' || ('\U{2000}' <= c <= '\U{200A}')
    || c == '\U{2028}' || c == '\U{2029}' || c == '\U{202F}' || c == '\U{205F}' || c == '\U{3000}'
  }

  function StripLeft(s: string): (r: string)
    ensures |r| <= |s| && r == s[|s| - |r|..]
    ensures forall k :: 0 <= k < |s| - |r| ==> IsSpace(s[k])
    ensures r == [] || !IsSpace(r[0])
  {
    if |s| > 0 && IsSpace(s[0]) then StripLeft(s[1..]) else s
  }

  function StripRight(s: string): (r: string)
    ensures |r| <= |s| && r == s[..|r|]
    ensures forall k :: |r| <= k < |s| ==> IsSpace(s[k])
    ensures r == [] || !IsSpace(r[|r| - 1])
  {
    if |s| > 0 && IsSpace(s[|s| - 1]) then StripRight(s[..|s| - 1]) else s
  }

  /** No leading or trailing whitespace. */
  predicate Stripped(s: string)
  {
    s == [] || (!IsSpace(s[0]) && !IsSpace(s[|s| - 1]))
  }

  /** str.strip(): the input without its leading and trailing whitespace. */
  function Strip(s: string): (r: string)
    ensures Stripped(r)
  {
    StripRight(StripLeft(s))
  }

  /** strip() keeps only characters of its input. */
  lemma StripChars(s: string)
    ensures forall c :: c in Strip(s) ==> c in s
  {
    var l := StripLeft(s);
    var r := StripRight(l);
    forall c | c in r
      ensures c in s
    {
      var i :| 0 <= i < |r| && r[i] == c;
      assert l[i] == c;
      assert s[|s| - |l| + i] == c;
    }
  }

  /** A string that already has no surrounding whitespace is left as it is. */
  lemma StripKeeps(s: string)
    requires Stripped(s)
    ensures Strip(s) == s
  {
  }

  /** Stripping twice is stripping once. */
  lemma StripIdempotent(s: string)
    ensures Strip(Strip(s)) == Strip(s)
  {
    StripKeeps(Strip(s));
  }

  // ---------------------------------------------------------------
  // Lower-casing (str.lower())
  // ---------------------------------------------------------------

  function LowerChar(c: char): char
  {
    if 'A' <= c <= 'Z' then (c as int + 32) as char else c
  }

  /** str.lower() on the ASCII letters. */
  function Lower(s: string): (r: string)
    ensures |r| == |s|
  {
    if s == [] then [] else [LowerChar(s[0])] + Lower(s[1..])
  }

  /** A string without upper-case letters is its own lower-casing. */
  lemma {:induction false} LowerKeeps(s: string)
    requires forall i :: 0 <= i < |s| ==> !('A' <= s[i] <= 'Z')
    ensures Lower(s) == s
  {
    if s != [] {
      LowerKeeps(s[1..]);
      assert [s[0]] + s[1..] == s;
    }
  }

  // ---------------------------------------------------------------
  // str.join and str.split
  // ---------------------------------------------------------------

  /** sep.join(xs) */
  function Join(sep: string, xs: seq<string>): string
  {
    if |xs| == 0 then ""
    else if |xs| == 1 then xs[0]
    else xs[0] + sep + Join(sep, xs[1..])
  }

  /** s.split(sep) for a one-character separator: always at least one piece,
      and no piece holds the separator. */
  function Split(s: string, sep: char): (r: seq<string>)
    ensures |r| >= 1
    ensures forall i :: 0 <= i < |r| ==> sep !in r[i]
  {
    if |s| == 0 then [""]
    else if s[0] == sep then [""] + Split(s[1..], sep)
    else
      var t := Split(s[1..], sep);
      [[s[0]] + t[0]] + t[1..]
  }

  lemma {:induction false} SplitNoSeparator(a: string, sep: char)
    requires sep !in a
    ensures Split(a, sep) == [a]
  {
    if |a| > 0 {
      SplitNoSeparator(a[1..], sep);
      assert [a[0]] + a[1..] == a;
    }
  }

  lemma {:induction false} SplitAtSeparator(a: string, sep: char, rest: string)
    requires sep !in a
    ensures Split(a + [sep] + rest, sep) == [a] + Split(rest, sep)
  {
    if |a| == 0 {
      assert a + [sep] + rest == [sep] + rest;
      assert ([sep] + rest)[1..] == rest;
    } else {
      SplitAtSeparator(a[1..], sep, rest);
      var s := a + [sep] + rest;
      assert s[0] == a[0];
      assert s[1..] == a[1..] + [sep] + rest;
      assert [a[0]] + a[1..] == a;
    }
  }

  /** Splitting a join gives the pieces back, provided no piece holds the
      separator and there is at least one piece. */
  lemma {:induction false} SplitJoin(xs: seq<string>, sep: char)
    requires |xs| >= 1
    requires forall i :: 0 <= i < |xs| ==> sep !in xs[i]
    ensures Split(Join([sep], xs), sep) == xs
  {
    if |xs| == 1 {
      SplitNoSeparator(xs[0], sep);
    } else {
      SplitJoin(xs[1..], sep);
      SplitAtSeparator(xs[0], sep, Join([sep], xs[1..]));
      assert [xs[0]] + xs[1..] == xs;
    }
  }

  /** The first character of a join is the first character of its first piece. */
  lemma JoinFirst(sep: string, xs: seq<string>)
    requires |xs| >= 1 && |xs[0]| >= 1
    ensures |Join(sep, xs)| >= 1 && Join(sep, xs)[0] == xs[0][0]
  {
  }

  /** The last character of a join is the last character of its last piece. */
  lemma {:induction false} JoinLast(sep: string, xs: seq<string>)
    requires |xs| >= 1 && |xs[|xs| - 1]| >= 1
    ensures var j := Join(sep, xs); |j| >= 1 && j[|j| - 1] == xs[|xs| - 1][|xs[|xs| - 1]| - 1]
  {
    if |xs| > 1 {
      JoinLast(sep, xs[1..]);
    }
  }

  /** The first element of a concatenation with a non-empty left part. */
  lemma FirstOfAppend<T>(a: seq<T>, b: seq<T>)
    requires |a| > 0
    ensures (a + b)[0] == a[0]
  {
  }

  /** The last element of a concatenation with a non-empty right part. */
  lemma LastOfAppend<T>(a: seq<T>, b: seq<T>)
    requires |b| > 0
    ensures (a + b)[|a + b| - 1] == b[|b| - 1]
  {
  }

  /** Concatenation is associative. */
  lemma AppendAssoc<T>(a: seq<T>, b: seq<T>, c: seq<T>)
    ensures a + b + c == a + (b + c)
  {
  }

  /** A join whose first piece starts and whose last piece ends with a
      non-space character has no surrounding whitespace. */
  lemma JoinStripped(sep: string, xs: seq<string>)
    requires |xs| >= 1 && |xs[0]| >= 1 && |xs[|xs| - 1]| >= 1
    requires !IsSpace(xs[0][0]) && !IsSpace(xs[|xs| - 1][|xs[|xs| - 1]| - 1])
    ensures Stripped(Join(sep, xs))
  {
    JoinFirst(sep, xs);
    JoinLast(sep, xs);
  }

  // ---------------------------------------------------------------
  // Decimal numerals: str(int) and int(str)
  // ---------------------------------------------------------------

  predicate IsDigit(c: char)
  {
    '0' <= c <= '9'
  }

  predicate AllDigits(s: string)
  {
    forall i :: 0 <= i < |s| ==> IsDigit(s[i])
  }

  function DigitsValue(ds: string): nat
    requires AllDigits(ds)
  {
    if ds == [] then 0
    else DigitsValue(ds[..|ds| - 1]) * 10 + (ds[|ds| - 1] as int - '0' as int)
  }

  /** The decimal numeral of a natural number, without leading zeros. */
  function NatToString(n: nat): (r: string)
    ensures |r| >= 1 && AllDigits(r)
    ensures DigitsValue(r) == n
  {
    var d := [(('0' as int) + n % 10) as char];
    if n < 10 then d
    else
      var p := NatToString(n / 10);
      assert (p + d)[..|p + d| - 1] == p;
      p + d
  }

  /** str(n) for an int. */
  function IntToString(n: int): (r: string)
    ensures |r| >= 1 && !IsSpace(r[0]) && !IsSpace(r[|r| - 1])
  {
    if n < 0 then "-" + NatToString(-n) else NatToString(n)
  }

  /** int(s) for a str: optional surrounding whitespace, an optional sign and
      one or more decimal digits; None where Python raises ValueError. */
  function ParseDecimal(s: string): (r: Option<int>)
    ensures r.Some? ==> Strip(s) != ""
  {
    var t := Strip(s);
    if |t| > 0 && (t[0] == '-' || t[0] == '+') then
      var ds := t[1..];
      if |ds| > 0 && AllDigits(ds) then
        var v: int := DigitsValue(ds);
        Some(if t[0] == '-' then -v else v)
      else None
    else if |t| > 0 && AllDigits(t) then Some(DigitsValue(t))
    else None
  }

  /** int(str(n)) == n */
  lemma ParseIntToString(n: int)
    ensures ParseDecimal(IntToString(n)) == Some(n)
  {
    var s := IntToString(n);
    StripKeeps(s);
    if n < 0 {
      assert s[1..] == NatToString(-n);
    } else {
      assert IsDigit(s[0]);
    }
  }

  /** int(v): None where Python raises TypeError or ValueError. */
  function ToInt(v: Value): (r: Option<int>)
    ensures v.VInt? ==> r == Some(v.i)
    ensures v.VNone? || v.VList? || v.VMap? ==> r == None
  {
    match v
    case VInt(i) => Some(i)
    case VBool(b) => Some(if b then 1 else 0)
    case VStr(s) => ParseDecimal(s)
    case _ => None
  }

  /** `try: return int(v) except (TypeError, ValueError): return default`. */
  function IntOr(v: Value, default: int): (r: int)
    ensures ToInt(v).Some? ==> r == ToInt(v).value
    ensures ToInt(v).None? ==> r == default
  {
    match ToInt(v)
    case Some(i) => i
    case None => default
  }

  // ---------------------------------------------------------------
  // str(v)
  // ---------------------------------------------------------------

  function Quoted(xs: seq<string>): (r: seq<string>)
    ensures |r| == |xs|
  {
    seq(|xs|, i requires 0 <= i < |xs| => "'" + xs[i] + "'")
  }

  /** str(v). A list of strings is rendered as Python's repr, without its
      escaping rules; a non-empty dict as a fixed placeholder, since maps here
      keep no insertion order. */
  function Str(v: Value): (r: string)
    ensures v.VStr? ==> r == v.s
    ensures v.VInt? ==> r == IntToString(v.i)
  {
    match v
    case VNone => "None"
    case VBool(b) => if b then "True" else "False"
    case VInt(i) => IntToString(i)
    case VStr(s) => s
    case VList(xs) => "[" + Join(", ", Quoted(xs)) + "]"
    case VMap(m) => if m == map[] then "{}" else "{...}"
    case VOther(t, _) => t
  }
}
