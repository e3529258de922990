/** The canonicalisation helpers of the order webhook (`lc`, `up`,
    `cleanText`, `cleanPhone`, and the trim applied to the postal code),
    which turn personal fields into the form that is hashed. */
module Normalize {
  import opened JsValues

  /** Calling code that `cleanPhone` uses when none is given. */
  const DefaultCallingCode: string := "44"

  /** `lc(s)`: `s.toString().trim().toLowerCase()`. */
  function Lc(v: JsValue): string {
    ToLower(Trim(ToJsString(v)))
  }

  /** `up(s)`: `s.toString().trim().toUpperCase()`. */
  function Up(v: JsValue): string {
    ToUpper(Trim(ToJsString(v)))
  }

  /** The postal code rule: `(...).toString().trim()`. */
  function TrimmedText(v: JsValue): string {
    Trim(ToJsString(v))
  }

  /** Case mapping changes no whitespace into non-whitespace or back. */
  lemma CaseKeepsWhiteSpace(c: char)
    ensures IsWhiteSpace(LowerChar(c)) <==> IsWhiteSpace(c)
    ensures IsWhiteSpace(UpperChar(c)) <==> IsWhiteSpace(c)
  {
  }

  /** Lower-casing a trimmed string leaves it trimmed. */
  lemma LowerKeepsTrimmed(t: string)
    requires Trim(t) == t
    ensures Trim(ToLower(t)) == ToLower(t)
  {
    TrimCharacterisation(t);
    var r := ToLower(t);
    if r != [] {
      CaseKeepsWhiteSpace(t[0]);
      CaseKeepsWhiteSpace(t[|t| - 1]);
    }
    TrimOfTrimmed(r);
  }

  /** Upper-casing a trimmed string leaves it trimmed. */
  lemma UpperKeepsTrimmed(t: string)
    requires Trim(t) == t
    ensures Trim(ToUpper(t)) == ToUpper(t)
  {
    TrimCharacterisation(t);
    var r := ToUpper(t);
    if r != [] {
      CaseKeepsWhiteSpace(t[0]);
      CaseKeepsWhiteSpace(t[|t| - 1]);
    }
    TrimOfTrimmed(r);
  }

  /** `lc` yields a trimmed string without upper-case ASCII letters, and
      applying it again changes nothing. */
  lemma LcCanonical(v: JsValue)
    ensures NoUpperAscii(Lc(v))
    ensures Trim(Lc(v)) == Lc(v)
    ensures Lc(Str(Lc(v))) == Lc(v)
  {
    var t := Trim(ToJsString(v));
    var r := ToLower(t);
    ToLowerCharacterisation(t);
    TrimIdempotent(ToJsString(v));
    LowerKeepsTrimmed(t);
    ToLowerIdempotent(t);
    assert Lc(Str(r)) == ToLower(Trim(r));
  }

  /** `up` yields a trimmed string without lower-case ASCII letters, and
      applying it again changes nothing. */
  lemma UpCanonical(v: JsValue)
    ensures NoLowerAscii(Up(v))
    ensures Trim(Up(v)) == Up(v)
    ensures Up(Str(Up(v))) == Up(v)
  {
    var t := Trim(ToJsString(v));
    var r := ToUpper(t);
    ToUpperCharacterisation(t);
    TrimIdempotent(ToJsString(v));
    UpperKeepsTrimmed(t);
    ToUpperIdempotent(t);
    assert Up(Str(r)) == ToUpper(Trim(r));
  }

  /** The email example: `"Test@Example.com "` canonicalises to `"test@example.com"`. */
  lemma LcEmailExample()
    ensures Lc(Str("Test@Example.com ")) == "test@example.com"
  {
    TrimEmail();
    LowerEmail();
  }

  lemma TrimEmail()
    ensures Trim("Test@Example.com ") == "Test@Example.com"
  {
    var s := "Test@Example.com ";
    assert TrimStart(s) == s;
    assert s[..|s| - 1] == "Test@Example.com";
    assert TrimEnd(s) == TrimEnd(s[..|s| - 1]);
  }

  lemma LowerEmail()
    ensures ToLower("Test@Example.com") == "test@example.com"
  {
    var r := ToLower("Test@Example.com");
    assert r[0] == 't' && r[5] == 'e';
  }

  // ---------------------------------------------------------------------
  // cleanText

  /** A character matched by the regular expression `\w` (no `u` flag). */
  predicate IsWordChar(c: char) {
    IsUpperAscii(c) || IsLowerAscii(c) || IsDigit(c) || c == '_'
  }

  /** A character that `replace(/[^\w\s-]/g, '')` keeps. */
  predicate Kept(c: char) {
    IsWordChar(c) || IsWhiteSpace(c) || c == '-'
  }

  /** `replace(/[^\w\s-]/g, '')`: drops every character outside `\w`, `\s` and `-`. */
  function StripPunctuation(s: string): (r: string)
    ensures |r| <= |s|
    ensures forall i | 0 <= i < |r| :: Kept(r[i])
  {
    if s == [] then []
    else
      var rest := StripPunctuation(s[1..]);
      if Kept(s[0]) then [s[0]] + rest else rest
  }

  /** No whitespace other than the plain space, and never two spaces in a row. */
  predicate SingleSpaced(s: string) {
    && (forall i | 0 <= i < |s| :: IsWhiteSpace(s[i]) ==> s[i] == ' ')
    && (forall i | 0 <= i < |s| - 1 :: !(s[i] == ' ' && s[i + 1] == ' '))
  }

  /** `replace(/\s+/g, ' ')`: every maximal run of whitespace becomes one space. */
  function CollapseWhiteSpace(s: string): (r: string)
    ensures |r| <= |s|
    ensures SingleSpaced(r)
    ensures r != [] && s != [] ==> (IsWhiteSpace(r[0]) <==> IsWhiteSpace(s[0]))
    ensures r == [] <==> s == []
    decreases |s|
  {
    if s == [] then []
    else if IsWhiteSpace(s[0]) then
      var t := TrimStart(s);
      assert |t| < |s|;
      [' '] + CollapseWhiteSpace(t)
    else
      [s[0]] + CollapseWhiteSpace(s[1..])
  }

  /** The string without any whitespace. */
  function NonWhiteSpace(s: string): string {
    if s == [] then []
    else (if IsWhiteSpace(s[0]) then [] else [s[0]]) + NonWhiteSpace(s[1..])
  }

  lemma {:induction false} NonWhiteSpaceOfTrimStart(s: string)
    ensures NonWhiteSpace(TrimStart(s)) == NonWhiteSpace(s)
  {
    if s != [] && IsWhiteSpace(s[0]) {
      NonWhiteSpaceOfTrimStart(s[1..]);
    }
  }

  /** Collapsing whitespace keeps every other character, in order. */
  lemma {:induction false} CollapseKeepsText(s: string)
    ensures NonWhiteSpace(CollapseWhiteSpace(s)) == NonWhiteSpace(s)
    decreases |s|
  {
    if s != [] {
      var r := CollapseWhiteSpace(s);
      if IsWhiteSpace(s[0]) {
        var t := TrimStart(s);
        assert |t| < |s|;
        CollapseKeepsText(t);
        NonWhiteSpaceOfTrimStart(s);
        assert r == [' '] + CollapseWhiteSpace(t);
        assert NonWhiteSpace(r) == NonWhiteSpace(r[1..]) by { assert r[1..] == CollapseWhiteSpace(t); }
      } else {
        CollapseKeepsText(s[1..]);
        assert r[1..] == CollapseWhiteSpace(s[1..]);
      }
    }
  }

  /** A single-spaced string is left as it is: collapsing is idempotent. */
  lemma {:induction false} CollapseSingleSpaced(s: string)
    requires SingleSpaced(s)
    ensures CollapseWhiteSpace(s) == s
    decreases |s|
  {
    if s != [] {
      assert SingleSpaced(s[1..]);
      if IsWhiteSpace(s[0]) {
        var t := TrimStart(s);
        assert t == s[1..] by {
          if |s| > 1 { assert !IsWhiteSpace(s[1]); }
        }
        CollapseSingleSpaced(t);
      } else {
        CollapseSingleSpaced(s[1..]);
      }
    }
  }

  lemma CollapseIdempotent(s: string)
    ensures CollapseWhiteSpace(CollapseWhiteSpace(s)) == CollapseWhiteSpace(s)
  {
    CollapseSingleSpaced(CollapseWhiteSpace(s));
  }

  /** A whitespace run followed by text that does not start with whitespace
      trims to that text. */
  lemma {:induction false} TrimStartOfRun(w: string, b: string)
    requires w != [] && WhiteSpaceOnly(w)
    requires b != [] ==> !IsWhiteSpace(b[0])
    ensures TrimStart(w + b) == b
    decreases |w|
  {
    assert (w + b)[0] == w[0];
    assert (w + b)[1..] == w[1..] + b;
    if |w| > 1 {
      assert WhiteSpaceOnly(w[1..]) by {
        forall k | 0 <= k < |w| - 1 ensures IsWhiteSpace(w[1..][k]) {
          assert w[1..][k] == w[k + 1];
        }
      }
      TrimStartOfRun(w[1..], b);
    } else {
      assert w[1..] + b == b;
    }
  }

  /** Trimming the front of a string that ends in a non-whitespace character
      never reaches what follows it. */
  lemma {:induction false} TrimStartAppend(a: string, c: string)
    requires a != [] && !IsWhiteSpace(a[|a| - 1])
    ensures TrimStart(a + c) == TrimStart(a) + c
    decreases |a|
  {
    assert (a + c)[0] == a[0];
    if IsWhiteSpace(a[0]) {
      assert (a + c)[1..] == a[1..] + c;
      TrimStartAppend(a[1..], c);
    }
  }

  lemma CollapseRunStep(s: string)
    requires s != [] && IsWhiteSpace(s[0])
    ensures CollapseWhiteSpace(s) == [' '] + CollapseWhiteSpace(TrimStart(s))
  {
  }

  lemma CollapseCharStep(s: string)
    requires s != [] && !IsWhiteSpace(s[0])
    ensures CollapseWhiteSpace(s) == [s[0]] + CollapseWhiteSpace(s[1..])
  {
  }

  lemma ConcatAssoc(x: string, y: string, z: string)
    ensures x + (y + z) == (x + y) + z
  {
  }

  /** Collapsing distributes over a split point that is not inside a whitespace run. */
  lemma {:induction false} CollapseConcat(a: string, c: string)
    requires a != [] ==> !IsWhiteSpace(a[|a| - 1])
    ensures CollapseWhiteSpace(a + c) == CollapseWhiteSpace(a) + CollapseWhiteSpace(c)
    decreases |a|
  {
    if a == [] {
      assert a + c == c;
    } else if IsWhiteSpace(a[0]) {
      var t := TrimStart(a);
      TrimStartAppend(a, c);
      assert (a + c)[0] == a[0];
      assert t != [] && t[|t| - 1] == a[|a| - 1];
      CollapseConcat(t, c);
      CollapseRunStep(a + c);
      CollapseRunStep(a);
      ConcatAssoc([' '], CollapseWhiteSpace(t), CollapseWhiteSpace(c));
    } else {
      assert (a + c)[0] == a[0];
      assert (a + c)[1..] == a[1..] + c;
      CollapseConcat(a[1..], c);
      CollapseCharStep(a + c);
      CollapseCharStep(a);
      ConcatAssoc([a[0]], CollapseWhiteSpace(a[1..]), CollapseWhiteSpace(c));
    }
  }

  /** A whitespace run between two words becomes exactly one space. */
  lemma CollapseRun(a: string, w: string, b: string)
    requires a != [] ==> !IsWhiteSpace(a[|a| - 1])
    requires w != [] && WhiteSpaceOnly(w)
    requires b != [] ==> !IsWhiteSpace(b[0])
    ensures CollapseWhiteSpace(a + w + b) == CollapseWhiteSpace(a) + " " + CollapseWhiteSpace(b)
  {
    ConcatAssoc(a, w, b);
    CollapseConcat(a, w + b);
    TrimStartOfRun(w, b);
    assert (w + b)[0] == w[0];
    CollapseRunStep(w + b);
    ConcatAssoc(CollapseWhiteSpace(a), " ", CollapseWhiteSpace(b));
  }

  /** `cleanText(s)`: `lc(s).normalize('NFKD')`, punctuation stripped, whitespace
      collapsed. Unicode compatibility decomposition is the parameter `nfkd`. */
  function CleanText(v: JsValue, nfkd: string -> string): string {
    CollapseWhiteSpace(StripPunctuation(nfkd(Lc(v))))
  }

  lemma {:induction false} StripKeepsNoUpper(s: string)
    requires NoUpperAscii(s)
    ensures NoUpperAscii(StripPunctuation(s))
  {
    if s != [] {
      StripKeepsNoUpper(s[1..]);
    }
  }

  /** Characters a predicate admits survive: collapsing only removes whitespace
      and inserts spaces. */
  lemma {:induction false} CollapseKeepsNoUpper(s: string)
    requires NoUpperAscii(s)
    ensures NoUpperAscii(CollapseWhiteSpace(s))
    decreases |s|
  {
    if s != [] {
      if IsWhiteSpace(s[0]) {
        var t := TrimStart(s);
        assert |t| < |s|;
        assert forall k | 0 <= k < |t| :: t[k] == s[|s| - |t| + k];
        CollapseKeepsNoUpper(t);
      } else {
        CollapseKeepsNoUpper(s[1..]);
      }
    }
  }

  lemma {:induction false} CollapseKeepsKept(s: string)
    requires forall i | 0 <= i < |s| :: Kept(s[i])
    ensures forall i | 0 <= i < |CollapseWhiteSpace(s)| :: Kept(CollapseWhiteSpace(s)[i])
    decreases |s|
  {
    if s != [] {
      if IsWhiteSpace(s[0]) {
        var t := TrimStart(s);
        assert |t| < |s|;
        assert forall k | 0 <= k < |t| :: t[k] == s[|s| - |t| + k];
        CollapseKeepsKept(t);
      } else {
        CollapseKeepsKept(s[1..]);
      }
    }
  }

  /** Whatever the decomposition yields, `cleanText` output consists only of
      `\w` characters, hyphens and single spaces. */
  lemma CleanTextShape(v: JsValue, nfkd: string -> string)
    ensures forall i | 0 <= i < |CleanText(v, nfkd)| ::
      var c := CleanText(v, nfkd)[i]; IsWordChar(c) || c == '-' || c == ' '
    ensures SingleSpaced(CleanText(v, nfkd))
  {
    CollapseKeepsKept(StripPunctuation(nfkd(Lc(v))));
  }

  /** When the decomposition leaves the lower-cased text unchanged (as NFKD
      does for ASCII), `cleanText` output has no upper-case ASCII letter. */
  lemma CleanTextLowerCase(v: JsValue, nfkd: string -> string)
    requires nfkd(Lc(v)) == Lc(v)
    ensures NoUpperAscii(CleanText(v, nfkd))
  {
    LcCanonical(v);
    StripKeepsNoUpper(Lc(v));
    CollapseKeepsNoUpper(StripPunctuation(Lc(v)));
  }

  /** `\w` characters and hyphens are never dropped by `cleanText`. */
  lemma {:induction false} StripKeepsKept(s: string)
    requires forall i | 0 <= i < |s| :: Kept(s[i])
    ensures StripPunctuation(s) == s
  {
    if s != [] {
      StripKeepsKept(s[1..]);
    }
  }

  /** Stripping punctuation happens after the trim, so it can expose a space at
      either end: `"O'Brien ."` cleans to `"obrien "`, with a trailing space. */
  lemma CleanTextTrailingSpace(nfkd: string -> string)
    requires nfkd("o'brien .") == "o'brien ."
    ensures CleanText(Str("O'Brien ."), nfkd) == "obrien "
  {
    LcOBrien();
    StripOBrien();
    SingleSpacedOBrien();
    CollapseSingleSpaced("obrien ");
    calc {
      CleanText(Str("O'Brien ."), nfkd);
      CollapseWhiteSpace(StripPunctuation(nfkd("o'brien .")));
      CollapseWhiteSpace(StripPunctuation("o'brien ."));
      CollapseWhiteSpace("obrien ");
    }
  }

  lemma LcOBrien()
    ensures Lc(Str("O'Brien .")) == "o'brien ."
  {
    TrimOfTrimmed("O'Brien .");
    LowerOBrien();
  }

  lemma LowerOBrien()
    ensures ToLower("O'Brien .") == "o'brien ."
  {
    var r := ToLower("O'Brien .");
    assert r[0] == 'o' && r[2] == 'b';
  }

  lemma StripOBrien()
    ensures StripPunctuation("o'brien .") == "obrien "
  {
    PunctuationDropped();
    StripTwo('o', '\'');
    StripTwo(' ', '.');
    var x := StripPunctuation(['o', '\'']);
    var y := StripPunctuation([' ', '.']);
    assert x == ['o'];
    assert y == [' '];
    StripConcat("brien", [' ', '.']);
    StripKeepsKept("brien");
    var z := StripPunctuation("brien" + [' ', '.']);
    assert z == "brien" + [' '];
    StripConcat(['o', '\''], "brien" + [' ', '.']);
    SpellOBrien();
  }

  // Facts about the literal strings of the O'Brien example, one lemma each, used
  // only by CleanTextTrailingSpace and its helpers.

  lemma SpellOBrien()
    ensures "o'brien ." == ['o', '\''] + ("brien" + [' ', '.'])
    ensures ['o'] + ("brien" + [' ']) == "obrien "
  {
  }

  lemma PunctuationDropped()
    ensures !Kept('\'') && !Kept('.')
  {
  }

  lemma StripTwo(a: char, b: char)
    ensures StripPunctuation([a, b]) ==
      (if Kept(a) then [a] else []) + (if Kept(b) then [b] else [])
  {
    assert [a, b][1..] == [b];
  }

  lemma SingleSpacedOBrien()
    ensures SingleSpaced("obrien ")
  {
  }

  lemma {:induction false} StripConcat(a: string, b: string)
    ensures StripPunctuation(a + b) == StripPunctuation(a) + StripPunctuation(b)
  {
    if a != [] {
      var ab := a + b;
      assert ab[0] == a[0] && ab[1..] == a[1..] + b;
      StripConcat(a[1..], b);
      var head := if Kept(a[0]) then [a[0]] else [];
      assert StripPunctuation(ab) == head + StripPunctuation(ab[1..]);
      assert StripPunctuation(a) == head + StripPunctuation(a[1..]);
    } else {
      assert a + b == b;
    }
  }

  // ---------------------------------------------------------------------
  // cleanPhone

  /** `replace(/\D+/g, '')`: keeps the ASCII digits, in order. */
  function Digits(s: string): (r: string)
    ensures AllDigits(r)
    ensures |r| <= |s|
  {
    if s == [] then []
    else (if IsDigit(s[0]) then [s[0]] else []) + Digits(s[1..])
  }

  lemma {:induction false} DigitsOfDigits(s: string)
    requires AllDigits(s)
    ensures Digits(s) == s
  {
    if s != [] {
      DigitsOfDigits(s[1..]);
    }
  }

  /** Non-digits contribute nothing: a string without digits has no digits. */
  lemma {:induction false} DigitsOfNonDigits(s: string)
    requires forall i | 0 <= i < |s| :: !IsDigit(s[i])
    ensures Digits(s) == []
  {
    if s != [] {
      DigitsOfNonDigits(s[1..]);
    }
  }

  /** `replace(/^0+/, '')`: drops the leading zeros. */
  function StripLeadingZeros(s: string): (r: string)
    ensures |r| <= |s| && r == s[|s| - |r|..]
    ensures forall k | 0 <= k < |s| - |r| :: s[k] == '0'
    ensures r != [] ==> r[0] != '0'
  {
    if s != [] && s[0] == '0' then StripLeadingZeros(s[1..]) else s
  }

  /** `s.startsWith(p)`. */
  predicate HasPrefix(s: string, p: string) {
    |p| <= |s| && s[..|p|] == p
  }

  /** `cleanPhone(p, cc)`. */
  function CleanPhone(p: JsValue, cc: string): string {
    if !Truthy(p) then ""
    else
      var d := Digits(ToJsString(p));
      if HasPrefix(d, cc) then d else cc + StripLeadingZeros(d)
  }

  function Zeros(n: nat): (z: string)
    ensures |z| == n && forall i | 0 <= i < n :: z[i] == '0'
  {
    seq(n, _ => '0')
  }

  lemma {:induction false} DigitsConcat(a: string, b: string)
    ensures Digits(a + b) == Digits(a) + Digits(b)
  {
    if a == [] {
      assert a + b == b;
    } else {
      var ab := a + b;
      assert ab[0] == a[0] && ab[1..] == a[1..] + b;
      DigitsConcat(a[1..], b);
      var head := if IsDigit(a[0]) then [a[0]] else [];
      assert Digits(ab) == head + Digits(ab[1..]);
      assert Digits(a) == head + Digits(a[1..]);
    }
  }

  /** What `cleanPhone(p, cc)` promises for a numeric calling code `cc`: the
      empty string for a falsy input; otherwise a string of digits that starts
      with `cc`. Digits of the input that already start with `cc` are returned
      unchanged; otherwise the result is `cc` followed by the input's digits
      with every leading zero removed. */
  lemma CleanPhoneContract(p: JsValue, cc: string)
    requires AllDigits(cc)
    ensures !Truthy(p) ==> CleanPhone(p, cc) == ""
    ensures Truthy(p) ==> AllDigits(CleanPhone(p, cc)) && HasPrefix(CleanPhone(p, cc), cc)
    ensures Truthy(p) && HasPrefix(Digits(ToJsString(p)), cc) ==>
      CleanPhone(p, cc) == Digits(ToJsString(p))
    ensures Truthy(p) && !HasPrefix(Digits(ToJsString(p)), cc) ==>
      var d, r := Digits(ToJsString(p)), CleanPhone(p, cc);
      && |cc| <= |r| && r[..|cc|] == cc
      && |r| - |cc| <= |d|
      && d == Zeros(|d| - (|r| - |cc|)) + r[|cc|..]
      && (|r| > |cc| ==> r[|cc|] != '0')
  {
    if Truthy(p) {
      var d := Digits(ToJsString(p));
      if !HasPrefix(d, cc) {
        PrefixedStripped(d, cc);
      }
    }
  }

  /** The calling code followed by the digits without their leading zeros. */
  lemma PrefixedStripped(d: string, cc: string)
    requires AllDigits(cc) && AllDigits(d)
    ensures var r := cc + StripLeadingZeros(d);
      && AllDigits(r) && HasPrefix(r, cc)
      && |r| - |cc| <= |d|
      && d == Zeros(|d| - (|r| - |cc|)) + r[|cc|..]
      && (|r| > |cc| ==> r[|cc|] != '0')
  {
    var t := StripLeadingZeros(d);
    StrippedDigits(d);
    var r := cc + t;
    assert r[..|cc|] == cc;
    assert r[|cc|..] == t;
  }

  /** The digits are the stripped zeros followed by what is left, which is all digits. */
  lemma StrippedDigits(d: string)
    requires AllDigits(d)
    ensures var t := StripLeadingZeros(d);
      && AllDigits(t) && d == Zeros(|d| - |t|) + t
  {
    var t := StripLeadingZeros(d);
    forall k | 0 <= k < |t| ensures IsDigit(t[k]) {
      assert t[k] == d[|d| - |t| + k];
    }
    assert d == Zeros(|d| - |t|) + t;
  }

  /** Cleaning an already cleaned number changes nothing. */
  lemma CleanPhoneIdempotent(p: JsValue, cc: string)
    requires AllDigits(cc)
    ensures CleanPhone(Str(CleanPhone(p, cc)), cc) == CleanPhone(p, cc)
  {
    CleanPhoneContract(p, cc);
    var r := CleanPhone(p, cc);
    if r != "" {
      DigitsOfDigits(r);
    }
  }

  /** A national number written with a trunk zero: the zero goes and the
      calling code comes in front. */
  lemma CleanPhoneNational(cc: string, subscriber: string)
    requires AllDigits(subscriber) && subscriber != [] && subscriber[0] != '0'
    requires cc != [] && cc[0] != '0'
    ensures CleanPhone(Str(['0'] + subscriber), cc) == cc + subscriber
  {
    var d := ['0'] + subscriber;
    DigitsOfDigits(d);
    assert d[0] != cc[0];
    assert d[1..] == subscriber;
  }

  /** An international number: the `+` is stripped and the digits, which
      already begin with the calling code, are kept as they are. */
  lemma CleanPhoneInternational(cc: string, digits: string)
    requires AllDigits(digits) && HasPrefix(digits, cc)
    ensures CleanPhone(Str(['+'] + digits), cc) == digits
  {
    var s := ['+'] + digits;
    DigitsConcat(['+'], digits);
    DigitsOfDigits(digits);
    assert Digits(['+']) == [];
    assert Truthy(Str(s)) && ToJsString(Str(s)) == s;
    assert Digits(s) == digits;
  }

  /** `"07911123456"` cleans to `"447911123456"`. */
  lemma CleanPhoneNationalExample()
    ensures CleanPhone(Str("07911123456"), DefaultCallingCode) == "447911123456"
  {
    NationalSpelling();
    CleanPhoneNational(DefaultCallingCode, "7911123456");
  }

  // Spelling facts for the literal numbers of the two examples around them,
  // each used only by its example.

  lemma NationalSpelling()
    ensures "07911123456" == ['0'] + "7911123456"
    ensures DefaultCallingCode + "7911123456" == "447911123456"
    ensures AllDigits("7911123456")
  {
  }

  /** `"+447911123456"` cleans to `"447911123456"`. */
  lemma CleanPhoneInternationalExample()
    ensures CleanPhone(Str("+447911123456"), DefaultCallingCode) == "447911123456"
  {
    InternationalSpelling();
    CleanPhoneInternational(DefaultCallingCode, "447911123456");
  }

  lemma InternationalSpelling()
    ensures "+447911123456" == ['+'] + "447911123456"
    ensures AllDigits("447911123456") && HasPrefix("447911123456", DefaultCallingCode)
  {
    assert "447911123456"[..2] == "44";
  }

  /** A non-empty phone field without a single digit still cleans to the bare
      calling code, which is then hashed as if it were a number. */
  lemma CleanPhoneWithoutDigits(p: JsValue, cc: string)
    requires Truthy(p) && Digits(ToJsString(p)) == ""
    ensures CleanPhone(p, cc) == cc
  {
  }

  lemma CleanPhoneNotAvailableExample()
    ensures CleanPhone(Str("n/a"), DefaultCallingCode) == "44"
  {
    assert Digits("n/a") == "";
    CleanPhoneWithoutDigits(Str("n/a"), DefaultCallingCode);
  }
}
