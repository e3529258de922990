/** The small fragment of JavaScript value semantics that the three request
    handlers rely on: values, truthiness, `a || b || c` chains, conversion to a
    string (`String(x)`, template literals, `.toString()`), and decimal numerals. */
module JsValues {

  datatype Option<+T> = None | Some(value: T)

  /** A JavaScript value as the handlers see it. Numbers are integers here;
      objects are maps from property names to values. */
  datatype JsValue =
    | Undefined
    | Null
    | Bool(b: bool)
    | Num(n: int)
    | Str(s: string)
    | Obj(props: map<string, JsValue>)

  /** What a handler answers with `res.status(status).send(body)` or
      `res.status(status).json(body)`: the status and the body before serialisation. */
  datatype Response = Response(status: int, body: JsValue)

  /** JavaScript truthiness: `undefined`, `null`, `false`, `0` and `""` are falsy. */
  predicate Truthy(v: JsValue) {
    match v
    case Undefined => false
    case Null => false
    case Bool(b) => b
    case Num(n) => n != 0
    case Str(s) => s != ""
    case Obj(_) => true
  }

  /** The value of `a || b`: `a` when it is truthy, otherwise `b`. A chain
      `a || b || c` groups to the left, as `(a || b) || c`. */
  function Or(a: JsValue, b: JsValue): (r: JsValue)
    ensures Truthy(a) ==> r == a
    ensures !Truthy(a) ==> r == b
  {
    if Truthy(a) then a else b
  }

  /** `||` is associative, so a left-grouped chain picks the first truthy
      operand, or the last operand when no other is truthy. */
  lemma OrAssociative(a: JsValue, b: JsValue, c: JsValue)
    ensures Or(Or(a, b), c) == Or(a, Or(b, c))
    ensures Truthy(Or(a, b)) <==> Truthy(a) || Truthy(b)
  {
  }

  /** Property read `v.key`. None when the read throws a TypeError, which it
      does on `undefined` and `null`; primitives have no such own property. */
  function Property(v: JsValue, key: string): (r: Option<JsValue>)
    ensures r.None? <==> v.Undefined? || v.Null?
    ensures v.Obj? ==> r == Some(if key in v.props then v.props[key] else Undefined)
  {
    match v
    case Undefined => None
    case Null => None
    case Obj(m) => Some(if key in m then m[key] else Undefined)
    case _ => Some(Undefined)
  }

  /** The message of the TypeError that reading `key` from `undefined` or
      `null` raises, in Node's wording. */
  function ReadErrorMessage(base: JsValue, key: string): string {
    "Cannot read properties of " + ToJsString(base) + " (reading '" + key + "')"
  }

  // ---------------------------------------------------------------------
  // Decimal numerals

  predicate IsDigit(c: char) { '0' <= c <= '9' }

  predicate AllDigits(s: string) { forall i | 0 <= i < |s| :: IsDigit(s[i]) }

  function DigitChar(d: nat): char
    requires d < 10
  {
    (48 + d) as char
  }

  function DigitValue(c: char): nat
    requires IsDigit(c)
  {
    c as int - 48
  }

  /** The shortest decimal numeral of a natural number, as JavaScript prints it. */
  function NatToString(n: nat): (s: string)
    ensures s != [] && AllDigits(s)
    ensures s[0] == '0' ==> n == 0 && s == "0"
  {
    if n < 10 then [DigitChar(n)]
    else NatToString(n / 10) + [DigitChar(n % 10)]
  }

  function ParseNat(s: string): nat
    requires AllDigits(s)
  {
    if s == [] then 0 else 10 * ParseNat(s[..|s| - 1]) + DigitValue(s[|s| - 1])
  }

  lemma {:induction false} ParseNatToString(n: nat)
    ensures ParseNat(NatToString(n)) == n
  {
    if n >= 10 {
      var s := NatToString(n);
      assert s[..|s| - 1] == NatToString(n / 10);
      ParseNatToString(n / 10);
    }
  }

  /** The decimal numeral of an integer (`String(n)` for an integral number). */
  function IntToString(n: int): (s: string)
    ensures s != [] && ':' !in s
  {
    if n < 0 then "-" + NatToString(-n) else NatToString(n)
  }

  /** Reads back a numeral written by IntToString. */
  function ParseInt(s: string): Option<int> {
    if s != [] && s[0] == '-' && AllDigits(s[1..]) then Some(-(ParseNat(s[1..]) as int))
    else if AllDigits(s) then Some(ParseNat(s))
    else None
  }

  lemma IntToStringRoundTrip(n: int)
    ensures ParseInt(IntToString(n)) == Some(n)
  {
    if n < 0 {
      var s := IntToString(n);
      assert s[1..] == NatToString(-n);
      ParseNatToString(-n);
    } else {
      ParseNatToString(n);
    }
  }

  /** `String(v)`: how JavaScript turns a value into a string. */
  function ToJsString(v: JsValue): string {
    match v
    case Undefined => "undefined"
    case Null => "null"
    case Bool(b) => if b then "true" else "false"
    case Num(n) => IntToString(n)
    case Str(s) => s
    case Obj(_) => "[object Object]"
  }

  // ---------------------------------------------------------------------
  // Whitespace, trimming and ASCII case

  /** ECMAScript WhiteSpace and LineTerminator code points: the set that
      `String.prototype.trim` removes and that the regular expression `\s` matches. */
  predicate IsWhiteSpace(c: char) {
    || c == '\t' || c == '\n' || c == '\U{0B}' || c == '\U{0C}' || c == '\r' || c == ' '
    || c == '\U{A0}' || c == '\U{1680}' || ('\U{2000}' <= c <= '\U{200A}')
    || c == '\U{2028}' || c == '\U{2029}' || c == '\U{202F}' || c == '\U{205F}'
    || c == '\U{3000}' || c == '\U{FEFF}'
  }

  /** Removes leading whitespace. */
  function TrimStart(s: string): (r: string)
    ensures |r| <= |s| && r == s[|s| - |r|..]
    ensures forall k | 0 <= k < |s| - |r| :: IsWhiteSpace(s[k])
    ensures r != [] ==> !IsWhiteSpace(r[0])
  {
    if s != [] && IsWhiteSpace(s[0]) then TrimStart(s[1..]) else s
  }

  /** Removes trailing whitespace. */
  function TrimEnd(s: string): (r: string)
    ensures |r| <= |s| && r == s[..|r|]
    ensures forall k | |r| <= k < |s| :: IsWhiteSpace(s[k])
    ensures r != [] ==> !IsWhiteSpace(r[|r| - 1])
  {
    if s != [] && IsWhiteSpace(s[|s| - 1]) then TrimEnd(s[..|s| - 1]) else s
  }

  /** `String.prototype.trim`. */
  function Trim(s: string): string {
    TrimEnd(TrimStart(s))
  }

  /** Every character of `s` is whitespace. */
  predicate WhiteSpaceOnly(s: string) {
    forall k | 0 <= k < |s| :: IsWhiteSpace(s[k])
  }

  /** Trim keeps a contiguous slice of its input, cuts only whitespace, and the
      slice neither starts nor ends with whitespace: this determines it. */
  lemma TrimCharacterisation(s: string)
    ensures exists i, j | 0 <= i <= j <= |s| ::
      Trim(s) == s[i..j] && WhiteSpaceOnly(s[..i]) && WhiteSpaceOnly(s[j..])
    ensures Trim(s) != [] ==> !IsWhiteSpace(Trim(s)[0]) && !IsWhiteSpace(Trim(s)[|Trim(s)| - 1])
  {
    var t := TrimStart(s);
    var i := |s| - |t|;
    var j := i + |TrimEnd(t)|;
    TrimSlices(s, t, i, j);
  }

  lemma TrimSlices(s: string, t: string, i: nat, j: nat)
    requires t == TrimStart(s) && i == |s| - |t| && j == i + |TrimEnd(t)|
    ensures i <= j <= |s| && Trim(s) == s[i..j] && WhiteSpaceOnly(s[..i]) && WhiteSpaceOnly(s[j..])
  {
    TrimIsSlice(s, t, i, j);
    WhiteSpaceSlice(s, 0, i);
    assert s[..i] == s[0..i];
    TrimEndTail(s, t, i, j);
    WhiteSpaceSlice(s, j, |s|);
    assert s[j..] == s[j..|s|];
  }

  lemma TrimIsSlice(s: string, t: string, i: nat, j: nat)
    requires t == TrimStart(s) && i == |s| - |t| && j == i + |TrimEnd(t)|
    ensures i <= j <= |s| && Trim(s) == s[i..j]
  {
    SliceOfSuffix(s, i, j - i);
  }

  lemma SliceOfSuffix(s: string, i: nat, n: nat)
    requires i + n <= |s|
    ensures s[i..][..n] == s[i..i + n]
  {
  }

  lemma TrimEndTail(s: string, t: string, i: nat, j: nat)
    requires t == TrimStart(s) && i == |s| - |t| && j == i + |TrimEnd(t)|
    ensures i <= j <= |s| && forall k | j <= k < |s| :: IsWhiteSpace(s[k])
  {
    assert t == s[i..];
    forall k | j <= k < |s| ensures IsWhiteSpace(s[k]) {
      assert s[k] == t[k - i];
    }
  }

  lemma WhiteSpaceSlice(s: string, a: nat, b: nat)
    requires a <= b <= |s| && forall k | a <= k < b :: IsWhiteSpace(s[k])
    ensures WhiteSpaceOnly(s[a..b])
  {
    forall k | 0 <= k < b - a ensures IsWhiteSpace(s[a..b][k]) {
      assert s[a..b][k] == s[a + k];
    }
  }

  /** A string that neither starts nor ends with whitespace is its own trim. */
  lemma TrimOfTrimmed(s: string)
    requires s != [] ==> !IsWhiteSpace(s[0]) && !IsWhiteSpace(s[|s| - 1])
    ensures Trim(s) == s
  {
  }

  lemma TrimIdempotent(s: string)
    ensures Trim(Trim(s)) == Trim(s)
  {
    TrimCharacterisation(s);
    TrimOfTrimmed(Trim(s));
  }

  predicate IsUpperAscii(c: char) { 'A' <= c <= 'Z' }
  predicate IsLowerAscii(c: char) { 'a' <= c <= 'z' }

  function LowerChar(c: char): char {
    if IsUpperAscii(c) then (c as int + 32) as char else c
  }

  function UpperChar(c: char): char {
    if IsLowerAscii(c) then (c as int - 32) as char else c
  }

  /** `toLowerCase`, restricted to the ASCII letters. */
  function ToLower(s: string): (r: string)
    ensures |r| == |s|
    ensures forall i | 0 <= i < |s| :: r[i] == LowerChar(s[i])
  {
    seq(|s|, i requires 0 <= i < |s| => LowerChar(s[i]))
  }

  /** `toUpperCase`, restricted to the ASCII letters. */
  function ToUpper(s: string): (r: string)
    ensures |r| == |s|
    ensures forall i | 0 <= i < |s| :: r[i] == UpperChar(s[i])
  {
    seq(|s|, i requires 0 <= i < |s| => UpperChar(s[i]))
  }

  /** Lower-casing twice is lower-casing once. */
  lemma ToLowerIdempotent(s: string)
    ensures ToLower(ToLower(s)) == ToLower(s)
  {
    var r := ToLower(s);
    assert forall i | 0 <= i < |r| :: ToLower(r)[i] == r[i];
  }

  /** Upper-casing twice is upper-casing once. */
  lemma ToUpperIdempotent(s: string)
    ensures ToUpper(ToUpper(s)) == ToUpper(s)
  {
    var r := ToUpper(s);
    assert forall i | 0 <= i < |r| :: ToUpper(r)[i] == r[i];
  }

  /** `toLowerCase` leaves no upper-case letter, keeps every other character,
      and turns each upper-case letter into the lower-case letter it is the
      upper case of. */
  lemma ToLowerCharacterisation(s: string)
    ensures |ToLower(s)| == |s|
    ensures NoUpperAscii(ToLower(s))
    ensures forall i | 0 <= i < |s| && !IsUpperAscii(s[i]) :: ToLower(s)[i] == s[i]
    ensures forall i | 0 <= i < |s| && IsUpperAscii(s[i]) ::
      IsLowerAscii(ToLower(s)[i]) && UpperChar(ToLower(s)[i]) == s[i]
  {
  }

  /** `toUpperCase`, symmetrically. */
  lemma ToUpperCharacterisation(s: string)
    ensures |ToUpper(s)| == |s|
    ensures NoLowerAscii(ToUpper(s))
    ensures forall i | 0 <= i < |s| && !IsLowerAscii(s[i]) :: ToUpper(s)[i] == s[i]
    ensures forall i | 0 <= i < |s| && IsLowerAscii(s[i]) ::
      IsUpperAscii(ToUpper(s)[i]) && LowerChar(ToUpper(s)[i]) == s[i]
  {
  }

  predicate NoUpperAscii(s: string) { forall i | 0 <= i < |s| :: !IsUpperAscii(s[i]) }
  predicate NoLowerAscii(s: string) { forall i | 0 <= i < |s| :: !IsLowerAscii(s[i]) }

  // ---------------------------------------------------------------------
  // Splitting

  /** `s.split(sep)` for a one-character separator: the pieces between
      occurrences of `sep`; the empty string splits into one empty piece. */
  function Split(s: string, sep: char): (parts: seq<string>)
    ensures |parts| >= 1
    ensures forall i | 0 <= i < |parts| :: sep !in parts[i]
  {
    if s == [] then [""]
    else
      var rest := Split(s[1..], sep);
      if s[0] == sep then [""] + rest
      else [[s[0]] + rest[0]] + rest[1..]
  }

  /** `parts.join(sep)`. */
  function Join(parts: seq<string>, sep: char): string
    requires |parts| >= 1
  {
    if |parts| == 1 then parts[0] else parts[0] + [sep] + Join(parts[1..], sep)
  }

  /** Splitting loses nothing: joining the pieces again gives back the input. */
  lemma {:induction false} JoinSplit(s: string, sep: char)
    ensures Join(Split(s, sep), sep) == s
  {
    if s != [] {
      var rest := Split(s[1..], sep);
      JoinSplit(s[1..], sep);
      if s[0] == sep {
        assert Split(s, sep)[1..] == rest;
      } else {
        var parts := Split(s, sep);
        if |rest| == 1 {
          assert parts == [[s[0]] + rest[0]];
        } else {
          assert parts[1..] == rest[1..];
          assert Join(rest, sep) == rest[0] + [sep] + Join(rest[1..], sep);
        }
      }
    }
  }

  /** The number of pieces is one more than the number of separators. */
  lemma {:induction false} SplitCount(s: string, sep: char)
    ensures |Split(s, sep)| == multiset(s)[sep] + 1
  {
    if s != [] {
      SplitCount(s[1..], sep);
      assert s == [s[0]] + s[1..];
      assert multiset(s) == multiset([s[0]]) + multiset(s[1..]);
    }
  }
}
