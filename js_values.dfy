/**
 * The part of JavaScript's value model that the error filter and the order
 * service touch: the payload carried by an RPC error, `typeof v === 'object'`,
 * the `in` operator on property names, and `isNaN(+v)` (the unary plus
 * coercion ToNumber of ECMAScript section 7.1.4, followed by the NaN test).
 *
 * Numbers are integers here; floating-point values (fractions, NaN and the
 * infinities held as numbers) are not part of this model. Strings, however,
 * are coerced by the full StringToNumber grammar of ECMAScript section
 * 7.1.4.1.1, so "12.5e3", "0x1F" and "Infinity" are numeric and "4 04" is not.
 */
module JsValues {
  import opened Sequences

  /** A JavaScript value as a JSON-like tree; `Obj` holds an object's own properties. */
  datatype Value =
    | Undefined
    | Null
    | Bool(b: bool)
    | Num(n: int)
    | Str(s: string)
    | Arr(elems: seq<Value>)
    | Obj(fields: map<string, Value>)

  /** `typeof v === 'object'`: true of null, arrays and objects. */
  predicate IsTypeofObject(v: Value) {
    v.Null? || v.Arr? || v.Obj?
  }

  /**
   * `key in v` for a value whose typeof is 'object' other than null (on null
   * the operator throws). The own keys of an array are its indices and
   * "length"; this model asks only about non-numeric names other than
   * "length", which an array never holds.
   */
  predicate HasProperty(v: Value, key: string)
    requires v.Arr? || v.Obj?
  {
    v.Obj? && key in v.fields
  }

  /**
   * `+v` throws a TypeError ("Cannot convert object to primitive value")
   * instead of giving a number. An object's inherited `valueOf` returns the
   * object itself, so converting it falls through to `toString`; an own
   * `toString` key hides the inherited one, and since a payload value is
   * never callable the conversion then has nothing left to try. An array is
   * converted through its string form, which converts every element other
   * than null and undefined, so it throws when one of those does.
   */
  predicate ToPrimitiveThrows(v: Value) {
    match v
    case Obj(fields) => "toString" in fields
    case Arr(elems) => exists i :: 0 <= i < |elems| && ToPrimitiveThrows(elems[i])
    case _ => false
  }

  /**
   * `isNaN(+v)`: the ToNumber coercion of `v` yields NaN. This is the
   * coercion's result when it does not throw; on a value where it throws
   * (`ToPrimitiveThrows`) the predicate holds as well, which is how a code
   * that is not a number is treated when the throw is not wanted.
   */
  predicate CoercesToNaN(v: Value) {
    match v
    case Undefined => true
    case Null => false
    case Bool(_) => false
    case Num(_) => false
    case Str(s) => !IsStringNumericLiteral(s)
    case Obj(_) => true
    // An array coerces through its string form, the comma-joined elements.
    // Two or more elements always leave a comma in it; a single element is
    // joined as its own string form, with null and undefined giving "".
    case Arr(elems) =>
      if |elems| == 0 then false
      else if |elems| >= 2 then true
      else match elems[0]
        case Null => false
        case Undefined => false
        case Bool(_) => true
        case _ => CoercesToNaN(elems[0])
  }

  /** A value whose conversion throws counts as NaN under `CoercesToNaN`. */
  lemma {:induction false} ThrowingCoercionIsNaN(v: Value)
    requires ToPrimitiveThrows(v)
    ensures CoercesToNaN(v)
  {
    if v.Arr? && |v.elems| == 1 {
      ThrowingCoercionIsNaN(v.elems[0]);
    }
  }

  // ---- StringToNumber (ECMAScript section 7.1.4.1.1) ----

  /** StrWhiteSpaceChar: WhiteSpace (including every Zs space) and LineTerminator. */
  predicate IsStrWhiteSpace(c: char) {
    c == '\t' || c == '\U{000B}' || c == '\U{000C}' || c == '\U{FEFF}'
    || c == ' ' || c == '\U{00A0}' || c == '\U{1680}'
    || ('\U{2000}' <= c <= '\U{200A}') || c == '\U{202F}' || c == '\U{205F}' || c == '\U{3000}'
    || c == '\n' || c == '\r' || c == '\U{2028}' || c == '\U{2029}'
  }

  predicate IsDigit(c: char) { '0' <= c <= '9' }
  predicate IsHexDigit(c: char) { IsDigit(c) || 'a' <= c <= 'f' || 'A' <= c <= 'F' }
  predicate IsOctalDigit(c: char) { '0' <= c <= '7' }
  predicate IsBinaryDigit(c: char) { c == '0' || c == '1' }

  /** DecimalDigits: one or more decimal digits. */
  predicate IsDecimalDigits(s: string) {
    |s| > 0 && forall i :: 0 <= i < |s| ==> IsDigit(s[i])
  }

  /** DecimalDigits, or nothing. */
  predicate IsOptionalDigits(s: string) {
    forall i :: 0 <= i < |s| ==> IsDigit(s[i])
  }

  /** The first index of `s` holding a character of `cs`, or |s| if there is none. */
  function FirstIndexIn(s: string, cs: set<char>): nat {
    FirstIndex(s, c => c in cs)
  }

  /** `s` without its leading white space. */
  function TrimStart(s: string): (r: string)
    ensures |r| <= |s| && r == s[|s| - |r|..]
    ensures forall i :: 0 <= i < |s| - |r| ==> IsStrWhiteSpace(s[i])
    ensures r == [] || !IsStrWhiteSpace(r[0])
  {
    if |s| > 0 && IsStrWhiteSpace(s[0]) then TrimStart(s[1..]) else s
  }

  /** `s` without its trailing white space. */
  function TrimEnd(s: string): (r: string)
    ensures |r| <= |s| && r == s[..|r|]
    ensures forall i :: |r| <= i < |s| ==> IsStrWhiteSpace(s[i])
    ensures r == [] || !IsStrWhiteSpace(r[|r| - 1])
  {
    if |s| > 0 && IsStrWhiteSpace(s[|s| - 1]) then TrimEnd(s[..|s| - 1]) else s
  }

  /** SignedInteger: DecimalDigits with an optional sign. */
  predicate IsSignedInteger(s: string) {
    if |s| > 0 && (s[0] == '+' || s[0] == '-') then IsDecimalDigits(s[1..]) else IsDecimalDigits(s)
  }

  /** `DecimalDigits . DecimalDigits?`, `. DecimalDigits` or `DecimalDigits`. */
  predicate IsMantissa(m: string) {
    var d := FirstIndexIn(m, {'.'});
    if d == |m| then IsDecimalDigits(m)
    else IsOptionalDigits(m[..d]) && IsOptionalDigits(m[d + 1..]) && (d > 0 || d + 1 < |m|)
  }

  /** StrUnsignedDecimalLiteral: Infinity, or a mantissa with an optional ExponentPart. */
  predicate IsStrUnsignedDecimalLiteral(s: string) {
    s == "Infinity" ||
    var k := FirstIndexIn(s, {'e', 'E'});
    IsMantissa(s[..k]) && (k == |s| || IsSignedInteger(s[k + 1..]))
  }

  /** StrDecimalLiteral: an unsigned decimal literal with an optional sign. */
  predicate IsStrDecimalLiteral(s: string) {
    if |s| > 0 && (s[0] == '+' || s[0] == '-') then IsStrUnsignedDecimalLiteral(s[1..])
    else IsStrUnsignedDecimalLiteral(s)
  }

  /** NonDecimalIntegerLiteral: 0x/0X, 0o/0O or 0b/0B and at least one digit, no sign. */
  predicate IsNonDecimalIntegerLiteral(s: string) {
    |s| >= 3 && s[0] == '0' &&
    ((s[1] in {'x', 'X'} && forall i :: 2 <= i < |s| ==> IsHexDigit(s[i])) ||
     (s[1] in {'o', 'O'} && forall i :: 2 <= i < |s| ==> IsOctalDigit(s[i])) ||
     (s[1] in {'b', 'B'} && forall i :: 2 <= i < |s| ==> IsBinaryDigit(s[i])))
  }

  /**
   * StringNumericLiteral: white space only, or a StrNumericLiteral between
   * optional white space. A string that is not one converts to NaN.
   */
  predicate IsStringNumericLiteral(s: string) {
    var t := TrimEnd(TrimStart(s));
    t == [] || IsStrDecimalLiteral(t) || IsNonDecimalIntegerLiteral(t)
  }

  /** Trimming leaves a string that starts and ends outside white space unchanged. */
  lemma TrimUnpadded(s: string)
    requires |s| > 0 && !IsStrWhiteSpace(s[0]) && !IsStrWhiteSpace(s[|s| - 1])
    ensures TrimEnd(TrimStart(s)) == s
  {
  }

  /** The decimal rendering of a status code, such as "404", coerces to a number. */
  lemma DecimalDigitsAreNumeric(s: string)
    requires IsDecimalDigits(s)
    ensures IsStringNumericLiteral(s)
  {
    TrimUnpadded(s);
    var k := FirstIndexIn(s, {'e', 'E'});
    assert k == |s|;
    assert s[..k] == s;
    var d := FirstIndexIn(s, {'.'});
    assert d == |s|;
    assert !(s[0] == '+' || s[0] == '-') by { assert IsDigit(s[0]); }
  }

  /**
   * A string whose first character can start no numeric literal (not white
   * space, a digit, a sign, a point or the `I` of Infinity; a letter such as
   * `a` or `e`, say) coerces to NaN, whatever follows.
   */
  lemma {:induction false} NonNumericStartIsNaN(s: string)
    requires |s| > 0 && !IsStrWhiteSpace(s[0]) && !IsDigit(s[0])
    requires s[0] != '+' && s[0] != '-' && s[0] != '.' && s[0] != 'I'
    ensures CoercesToNaN(Str(s))
  {
    assert TrimStart(s) == s;
    var t := TrimEnd(s);
    assert |t| > 0 && t[0] == s[0];
    assert t != "Infinity";
    var k := FirstIndexIn(t, {'e', 'E'});
    var m := t[..k];
    if k > 0 {
      assert m[0] == t[0];
      var d := FirstIndexIn(m, {'.'});
      assert d > 0;
      if d < |m| {
        assert m[..d][0] == m[0];
      }
    }
    assert !IsMantissa(m);
  }

  /** A string holding anything but a numeric literal, such as "abc", coerces to NaN. */
  lemma LetterStringIsNaN()
    ensures CoercesToNaN(Str("abc"))
  {
    NonNumericStartIsNaN("abc");
  }

  /** White space inside a number, as in "4 04", makes the coercion fail. */
  lemma InnerSpaceIsNaN()
    ensures CoercesToNaN(Str("4 04"))
  {
    var s := "4 04";
    TrimUnpadded(s);
    assert FirstIndexIn(s, {'e', 'E'}) == 4 by {
      assert FirstIndexIn(s[3..], {'e', 'E'}) == 1;
      assert FirstIndexIn(s[2..], {'e', 'E'}) == 2;
      assert FirstIndexIn(s[1..], {'e', 'E'}) == 3;
    }
    assert FirstIndexIn(s, {'.'}) == 4 by {
      assert FirstIndexIn(s[3..], {'.'}) == 1;
      assert FirstIndexIn(s[2..], {'.'}) == 2;
      assert FirstIndexIn(s[1..], {'.'}) == 3;
    }
    assert s[..4] == s;
    assert !IsDecimalDigits(s) by { assert !IsDigit(s[1]); }
  }
}
