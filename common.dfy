/** Values shared by every page: optional values, JavaScript objects with
    string fields, results of remote writes, notifications, and the string
    primitives (`\s`, `trim`, `toLowerCase`, `||` defaults) the pages use. */
module Common {

  datatype Option<+T> = None | Some(value: T)

  /** A JavaScript object whose fields hold strings; a key that is absent
      reads as `undefined`. */
  type Record = map<string, string>

  /** `obj.key || ""`: an absent or empty field reads as the empty string. */
  function FieldOrEmpty(r: Record, key: string): string
  {
    if key in r then r[key] else ""
  }

  /** `obj.key` as an optional value. */
  function Field(r: Record, key: string): Option<string>
  {
    if key in r then Some(r[key]) else None
  }

  /** `{ ...obj, [key]: v }`. A key written `undefined` is kept with that
      value by JavaScript; it reads exactly like an absent key, which is how
      it is represented here. */
  function SetField(r: Record, key: string, v: Option<string>): (r': Record)
    ensures Field(r', key) == v
    ensures forall k :: k != key ==> Field(r', k) == Field(r, k)
  {
    match v
    case Some(s) => r[key := s]
    case None => r - {key}
  }

  /** `x || null` on a string: the empty string becomes null. */
  function NullIfEmpty(s: string): (r: Option<string>)
    ensures r.None? <==> s == ""
    ensures r.Some? ==> r.value == s
  {
    if s == "" then None else Some(s)
  }

  /** `x || ""` on a nullable string. */
  function OrEmpty(s: Option<string>): (r: string)
    ensures s.Some? ==> r == s.value
    ensures s.None? ==> r == ""
  {
    if s.Some? then s.value else ""
  }

  /** `x ?? 0` (and `x || 0`) on a nullable integer. */
  function OrZero(x: Option<int>): (r: int)
    ensures x.Some? ==> r == x.value
    ensures x.None? ==> r == 0
  {
    if x.Some? then x.value else 0
  }

  /** `e.message || fallback` */
  function MessageOr(message: string, fallback: string): string
  {
    if message == "" then fallback else message
  }

  /** The result of a remote insert, update, upsert or delete. */
  datatype WriteResult = WriteOk | WriteFailed(message: string)

  datatype Severity = Info | Success | Warning | Error

  /** The state of a snackbar: `{ open, severity, message }`. */
  datatype Notice = Notice(open: bool, severity: Severity, message: string)

  function Shown(severity: Severity, message: string): Notice
  {
    Notice(true, severity, message)
  }

  /** The status of a pickup request or a donation: "pending", "accepted",
      "pickedup" or "rejected". */
  datatype Status = Pending | Accepted | PickedUp | Rejected

  /** A file chosen in a file input; only its name matters here. */
  datatype FileInfo = FileInfo(name: string)

  /** The result of an upload to object storage, giving the public URL. */
  datatype UploadResult = UploadFailed(message: string) | Uploaded(publicUrl: string)

  predicate IsAsciiLetter(c: char)
  {
    'a' <= c <= 'z' || 'A' <= c <= 'Z'
  }

  predicate IsDigit(c: char)
  {
    '0' <= c <= '9'
  }

  /** The characters JavaScript's `\s` and `String.prototype.trim` treat as
      white space: WhiteSpace, the Zs category and LineTerminator. */
  predicate IsSpace(c: char)
  {
    c == '\t' || c == '\n' || c == '\U{000B}' || c == '\U{000C}' || c == '\r' || c == ' '
    || c == '\U{00A0}' || c == '\U{1680}' || ('\U{2000}' <= c <= '\U{200A}')
    || c == '\U{2028}' || c == '\U{2029}' || c == '\U{202F}' || c == '\U{205F}'
    || c == '\U{3000}' || c == '\U{FEFF}'
  }

  /** Lower-cases an ASCII capital; every other character is kept. */
  function LowerChar(c: char): (d: char)
    ensures 'A' <= c <= 'Z' ==> 'a' <= d <= 'z' && d as int == c as int + 32
    ensures !('A' <= c <= 'Z') ==> d == c
    ensures IsSpace(d) <==> IsSpace(c)
  {
    if 'A' <= c <= 'Z' then (c as int + 32) as char else c
  }

  /** `s.toLowerCase()`, restricted to ASCII capitals. */
  function Lower(s: string): (r: string)
    ensures |r| == |s|
    ensures forall i :: 0 <= i < |s| ==> r[i] == LowerChar(s[i])
  {
    if s == [] then [] else [LowerChar(s[0])] + Lower(s[1..])
  }

  lemma LowerIdempotent(s: string)
    ensures Lower(Lower(s)) == Lower(s)
  {
  }

  /** `s` equals the lower-case word `w` up to ASCII case. */
  predicate SameUpToCase(s: string, w: string)
  {
    |s| == |w| && forall i :: 0 <= i < |s| ==> s[i] == w[i] || s[i] as int + 32 == w[i] as int
  }

  /** Lower-casing gives a lower-case word exactly for its spellings in any
      mix of cases. */
  lemma LowerMatchesWord(s: string, w: string)
    requires forall i :: 0 <= i < |w| ==> 'a' <= w[i] <= 'z'
    ensures Lower(s) == w <==> SameUpToCase(s, w)
  {
    if SameUpToCase(s, w) {
      forall i | 0 <= i < |s| ensures Lower(s)[i] == w[i] {
        if s[i] != w[i] {
          assert 'A' <= s[i] <= 'Z';
        }
      }
    }
    if Lower(s) == w {
      forall i | 0 <= i < |s| ensures s[i] == w[i] || s[i] as int + 32 == w[i] as int {
        assert LowerChar(s[i]) == w[i];
      }
    }
  }

  /** `s.trimStart()`: drops the leading white space (see `TrimStartDropsSpace`). */
  function TrimStart(s: string): (r: string)
    ensures |r| <= |s| && r == s[|s| - |r|..]
  {
    if s != [] && IsSpace(s[0]) then TrimStart(s[1..]) else s
  }

  /** What `TrimStart` drops is white space, and what it keeps does not start
      with white space. */
  lemma {:induction false} TrimStartDropsSpace(s: string)
    ensures var r := TrimStart(s);
      && (r == [] || !IsSpace(r[0]))
      && forall i :: 0 <= i < |s| - |r| ==> IsSpace(s[i])
  {
    if s != [] && IsSpace(s[0]) {
      TrimStartDropsSpace(s[1..]);
      var r := TrimStart(s);
      forall i | 0 < i < |s| - |r| ensures IsSpace(s[i]) {
        assert s[i] == s[1..][i - 1];
      }
    }
  }

  /** `TrimStart` removes exactly a leading run of white space. */
  lemma {:induction false} TrimStartSkipsSpace(run: string, s: string)
    requires forall i :: 0 <= i < |run| ==> IsSpace(run[i])
    requires s == [] || !IsSpace(s[0])
    ensures TrimStart(run + s) == s
  {
    if run == [] {
      assert run + s == s;
    } else {
      assert (run + s)[0] == run[0];
      assert (run + s)[1..] == run[1..] + s;
      TrimStartSkipsSpace(run[1..], s);
    }
  }

  /** `s.trimEnd()`: drops the trailing white space (see `TrimEndDropsSpace`). */
  function TrimEnd(s: string): (r: string)
    ensures |r| <= |s| && r == s[..|r|]
  {
    if s != [] && IsSpace(s[|s| - 1]) then TrimEnd(s[..|s| - 1]) else s
  }

  /** What `TrimEnd` drops is white space, and what it keeps does not end with
      white space. */
  lemma {:induction false} TrimEndDropsSpace(s: string)
    ensures var r := TrimEnd(s);
      && (r == [] || !IsSpace(r[|r| - 1]))
      && forall i :: |r| <= i < |s| ==> IsSpace(s[i])
  {
    if s != [] && IsSpace(s[|s| - 1]) {
      TrimEndDropsSpace(s[..|s| - 1]);
      var r := TrimEnd(s);
      forall i | |r| <= i < |s| - 1 ensures IsSpace(s[i]) {
        assert s[i] == s[..|s| - 1][i];
      }
    }
  }

  /** `s.trim()`: `s` without its leading and trailing white space. */
  function Trim(s: string): (r: string)
    ensures |r| <= |s|
  {
    TrimEnd(TrimStart(s))
  }

  /** A trimmed string neither starts nor ends with white space. */
  lemma TrimStripsOuterSpace(s: string)
    ensures var r := Trim(s); r == [] || (!IsSpace(r[0]) && !IsSpace(r[|r| - 1]))
  {
    var t := TrimStart(s);
    TrimStartDropsSpace(s);
    TrimEndDropsSpace(t);
    if TrimEnd(t) != [] {
      assert TrimEnd(t)[0] == t[0];
    }
  }

  /** A trimmed string is the part of the original that starts where
      `TrimStart` cut it. */
  lemma TrimIsSlice(s: string)
    ensures var k := |s| - |TrimStart(s)|;
      k + |Trim(s)| <= |s| && Trim(s) == s[k..k + |Trim(s)|]
  {
    var t := TrimStart(s);
    var k := |s| - |t|;
    assert t == s[k..];
    assert Trim(s) == t[..|Trim(s)|];
  }

  /** A trimmed string is empty exactly when the string is all white space. */
  lemma TrimEmptyIffBlank(s: string)
    ensures Trim(s) == [] <==> forall i :: 0 <= i < |s| ==> IsSpace(s[i])
  {
    var t := TrimStart(s);
    TrimStartDropsSpace(s);
    TrimEndDropsSpace(t);
    if t != [] {
      assert s[|s| - |t|] == t[0];
    }
  }

  /** A trimmed string is its own trim. */
  lemma TrimIdempotent(s: string)
    ensures Trim(Trim(s)) == Trim(s)
  {
    TrimStripsOuterSpace(s);
  }

  /** What `Number(s)` makes of a string, as far as truthiness and JSON go:
      a zero (either sign), another finite number, an infinity, or NaN. */
  datatype NumberClass = Zero | NonZero | Infinite | NotANumber

  predicate AllDecimal(s: string)
  {
    forall i :: 0 <= i < |s| ==> IsDigit(s[i])
  }

  predicate AllZeros(s: string)
  {
    forall i :: 0 <= i < |s| ==> s[i] == '0'
  }

  /** The radix a `0x`, `0o` or `0b` prefix letter names, or 0 for any other
      character. */
  function RadixOf(c: char): int
  {
    if c == 'x' || c == 'X' then 16
    else if c == 'o' || c == 'O' then 8
    else if c == 'b' || c == 'B' then 2
    else 0
  }

  predicate IsRadixDigit(c: char, radix: int)
  {
    if radix == 16 then IsDigit(c) || 'a' <= c <= 'f' || 'A' <= c <= 'F'
    else '0' <= c && (c as int) < '0' as int + radix
  }

  /** `0x1F`, `0o17`, `0b101`: a prefix and at least one digit of its radix. */
  predicate IsNonDecimalLiteral(t: string)
  {
    |t| >= 3 && t[0] == '0' && RadixOf(t[1]) != 0
    && forall i :: 2 <= i < |t| ==> IsRadixDigit(t[i], RadixOf(t[1]))
  }

  /** The index of the first `a` or `b` in `s`, or `|s|` when there is none. */
  function FindEither(s: string, a: char, b: char): (k: nat)
    ensures k <= |s|
    ensures k < |s| ==> s[k] == a || s[k] == b
  {
    if s == [] || s[0] == a || s[0] == b then 0 else 1 + FindEither(s[1..], a, b)
  }

  /** No `a` or `b` occurs before the index `FindEither` returns. */
  lemma {:induction false} FindEitherIsFirst(s: string, a: char, b: char, i: int)
    requires 0 <= i < FindEither(s, a, b)
    ensures s[i] != a && s[i] != b
  {
    if i > 0 {
      FindEitherIsFirst(s[1..], a, b, i - 1);
    }
  }

  /** The text before the first '.', and the text after it (empty when
      there is no '.'). */
  function IntPart(m: string): string
  {
    m[..FindEither(m, '.', '.')]
  }

  function FracPart(m: string): string
  {
    var d := FindEither(m, '.', '.');
    if d == |m| then "" else m[d + 1..]
  }

  /** The digits of a decimal literal before its exponent: `12`, `12.`,
      `.5`, `12.5`, with at least one digit. */
  predicate IsMantissa(m: string)
  {
    AllDecimal(IntPart(m)) && AllDecimal(FracPart(m)) && IntPart(m) + FracPart(m) != ""
  }

  /** What follows the `e` of an exponent: an optional sign and digits. */
  predicate IsExponent(x: string)
  {
    var y := if x != [] && (x[0] == '+' || x[0] == '-') then x[1..] else x;
    y != [] && AllDecimal(y)
  }

  /** A literal without its sign, if it has one. */
  function Unsigned(t: string): string
  {
    if t != [] && (t[0] == '+' || t[0] == '-') then t[1..] else t
  }

  /** The part of an unsigned decimal literal before its `e` or `E`. */
  function MantissaOf(u: string): string
  {
    u[..FindEither(u, 'e', 'E')]
  }

  /** A decimal literal other than `Infinity`: a mantissa and, optionally,
      `e` or `E` and an exponent. */
  predicate IsUnsignedDecimal(u: string)
  {
    var e := FindEither(u, 'e', 'E');
    IsMantissa(u[..e]) && (e == |u| || IsExponent(u[e + 1..]))
  }

  /** `Number(s)` by the grammar of a JavaScript string numeric literal:
      surrounding white space is ignored, blank text is 0, and a literal is
      zero when its digits are. Anything outside the grammar is NaN. */
  function NumberClassOf(s: string): NumberClass
  {
    LiteralClass(Trim(s))
  }

  /** The class of a literal already stripped of its white space. */
  function LiteralClass(t: string): NumberClass
  {
    if t == "" then Zero
    else if IsNonDecimalLiteral(t) then (if AllZeros(t[2..]) then Zero else NonZero)
    else if Unsigned(t) == "Infinity" then Infinite
    else if IsUnsignedDecimal(Unsigned(t)) then
      var m := MantissaOf(Unsigned(t));
      if AllZeros(IntPart(m) + FracPart(m)) then Zero else NonZero
    else NotANumber
  }

  /** A JavaScript number is falsy when it is a zero or NaN. */
  predicate IsTruthyNumber(s: string)
  {
    NumberClassOf(s) == NonZero || NumberClassOf(s) == Infinite
  }

  /** A string of decimal digits is a number, zero exactly when every digit
      is '0'. */
  lemma DigitsAreNumbers(s: string)
    requires s != [] && AllDecimal(s)
    ensures NumberClassOf(s) == if AllZeros(s) then Zero else NonZero
  {
    FindEitherExact(s, 'e', 'E', |s|);
    assert MantissaOf(s) == s;
    FindEitherExact(s, '.', '.', |s|);
    assert IntPart(s) == s && FracPart(s) == "";
    assert s + "" == s;
    if |s| >= 2 {
      assert IsDigit(s[1]);
    }
    UnsignedDecimalClass(s);
  }

  /** Blank text is the number 0. */
  lemma BlankIsZero(s: string)
    requires forall i :: 0 <= i < |s| ==> IsSpace(s[i])
    ensures NumberClassOf(s) == Zero
  {
    TrimEmptyIffBlank(s);
  }

  /** Text that neither starts nor ends with white space is its own trim. */
  lemma TrimUnspaced(t: string)
    requires t != [] && !IsSpace(t[0]) && !IsSpace(t[|t| - 1])
    ensures Trim(t) == t
  {
  }

  /** `FindEither` returns the first index holding `a` or `b`. */
  lemma {:induction false} FindEitherExact(s: string, a: char, b: char, k: int)
    requires 0 <= k <= |s|
    requires forall i :: 0 <= i < k ==> s[i] != a && s[i] != b
    requires k < |s| ==> s[k] == a || s[k] == b
    ensures FindEither(s, a, b) == k
  {
    if k > 0 {
      FindEitherExact(s[1..], a, b, k - 1);
    }
  }

  /** An unsigned decimal literal without surrounding white space is a
      number, zero exactly when its mantissa's digits are all '0'. */
  lemma UnsignedDecimalClass(s: string)
    requires s != [] && (IsDigit(s[0]) || s[0] == '.') && !IsSpace(s[|s| - 1])
    requires |s| >= 2 ==> RadixOf(s[1]) == 0
    requires IsUnsignedDecimal(s)
    ensures var m := MantissaOf(s);
      NumberClassOf(s) == if AllZeros(IntPart(m) + FracPart(m)) then Zero else NonZero
  {
    TrimUnspaced(s);
    assert Unsigned(s) == s;
    assert s != "Infinity" by {
      assert s[0] != 'I';
    }
  }

  /** `12.5`, `.5`, `12.`, `0.0`: a decimal fraction is a number, zero
      exactly when every digit is '0'. */
  lemma DecimalFractionClass(a: string, b: string)
    requires AllDecimal(a) && AllDecimal(b) && a + b != ""
    ensures NumberClassOf(a + "." + b) == if AllZeros(a + b) then Zero else NonZero
  {
    var s := a + "." + b;
    assert s[..|a|] == a && s[|a|] == '.' && s[|a| + 1..] == b;
    assert forall i :: 0 <= i < |s| ==> IsDigit(s[i]) || s[i] == '.' by {
      forall i | 0 <= i < |s| ensures IsDigit(s[i]) || s[i] == '.' {
        if i < |a| {
          assert s[i] == a[i];
        } else if i > |a| {
          assert s[i] == b[i - |a| - 1];
        }
      }
    }
    FindEitherExact(s, 'e', 'E', |s|);
    assert MantissaOf(s) == s;
    FindEitherExact(s, '.', '.', |a|);
    assert IntPart(s) == a && FracPart(s) == b;
    if |s| >= 2 {
      assert IsDigit(s[1]) || s[1] == '.';
    }
    UnsignedDecimalClass(s);
  }

  /** Text whose first visible character cannot start a numeric literal is
      NaN. */
  lemma NonNumericIsNaN(s: string)
    requires s != [] && !IsSpace(s[0]) && !IsDigit(s[0])
    requires s[0] != '.' && s[0] != '+' && s[0] != '-' && s[0] != 'I'
    ensures NumberClassOf(s) == NotANumber
  {
    var t := TrimStart(s);
    assert t == s;
    TrimEndDropsSpace(s);
    var r := Trim(s);
    assert r == s[..|r|];
    assert r != [] && r[0] == s[0];
    assert Unsigned(r) == r;
    var e := FindEither(r, 'e', 'E');
    if e > 0 {
      var m := r[..e];
      assert m[0] == s[0];
      if FindEither(m, '.', '.') > 0 {
        assert IntPart(m)[0] == s[0];
      }
    }
  }
}
