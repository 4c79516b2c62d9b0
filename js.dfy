/** The few JavaScript value semantics the core relies on: `String.prototype.trim`,
    ASCII case mapping, truthiness of optional numbers, and how a text field reads
    under `!field` and `Number(field)`. */
module Js {
  import opened Wrappers

  /** The characters `trim` removes: WhiteSpace and LineTerminator of ECMA-262. */
  predicate IsSpace(c: char) {
    c == ' ' || c == '\t' || c == '\n' || c == '\r' || c == '\U{000B}' || c == '\U{000C}'
    || c == '\U{00A0}' || c == '\U{1680}' || ('\U{2000}' <= c <= '\U{200A}')
    || c == '\U{2028}' || c == '\U{2029}' || c == '\U{202F}' || c == '\U{205F}'
    || c == '\U{3000}' || c == '\U{FEFF}'
  }

  predicate AllSpace(s: string) {
    forall i :: 0 <= i < |s| ==> IsSpace(s[i])
  }

  function TrimStart(s: string): (r: string)
    ensures |r| <= |s| && r == s[|s| - |r|..]
    ensures r == [] || !IsSpace(r[0])
    ensures AllSpace(s[..|s| - |r|])
  {
    if s != [] && IsSpace(s[0]) then TrimStart(s[1..]) else s
  }

  function TrimEnd(s: string): (r: string)
    ensures |r| <= |s| && r == s[..|r|]
    ensures r == [] || !IsSpace(r[|r| - 1])
    ensures AllSpace(s[|r|..])
  {
    if s != [] && IsSpace(s[|s| - 1]) then TrimEnd(s[..|s| - 1]) else s
  }

  /** `s.trim()`. */
  function Trim(s: string): (r: string)
    ensures r == [] || (!IsSpace(r[0]) && !IsSpace(r[|r| - 1]))
  {
    TrimEnd(TrimStart(s))
  }

  /** `!s.trim()` holds exactly when the text is empty or white space only. */
  lemma {:induction false} TrimEmptyIff(s: string)
    ensures Trim(s) == [] <==> AllSpace(s)
  {
    var t := TrimStart(s);
    if Trim(s) == [] {
      assert AllSpace(t[0..]);
      assert t == [];
      assert s[..|s|] == s;
    } else {
      assert t != [];
      assert t[0] == s[|s| - |t|];
    }
  }

  /** A text that is not blank after trimming stays not blank when trimmed again. */
  lemma {:induction false} TrimIdempotentNonEmpty(s: string)
    requires Trim(s) != ""
    ensures Trim(Trim(s)) != ""
  {
    var t := Trim(s);
    TrimEmptyIff(t);
    assert !IsSpace(t[0]);
  }

  /** Upper-casing of one character, for the ASCII letters. */
  function UpperChar(c: char): char {
    if 'a' <= c <= 'z' then (c as int - 32) as char else c
  }

  /** `s.toUpperCase()`, restricted to ASCII letters. */
  function ToUpper(s: string): (r: string)
    ensures |r| == |s|
    ensures forall i :: 0 <= i < |s| ==> r[i] == UpperChar(s[i])
    ensures forall i :: 0 <= i < |r| ==> !('a' <= r[i] <= 'z')
  {
    if s == [] then [] else [UpperChar(s[0])] + ToUpper(s[1..])
  }

  lemma {:induction false} ToUpperIdempotent(s: string)
    ensures ToUpper(ToUpper(s)) == ToUpper(s)
  {
  }

  /** Lower-casing of one character, for the ASCII letters. */
  function LowerChar(c: char): char {
    if 'A' <= c <= 'Z' then (c as int + 32) as char else c
  }

  /** `s.toLowerCase()`, restricted to ASCII letters. */
  function ToLower(s: string): (r: string)
    ensures |r| == |s|
    ensures forall i :: 0 <= i < |s| ==> r[i] == LowerChar(s[i])
  {
    if s == [] then [] else [LowerChar(s[0])] + ToLower(s[1..])
  }

  /** A text input as the core observes it: `!field` is true only for `Blank`
      (the empty string), and `Number(field)` is 0 for `Blank`, `value` for
      `Numeric` and NaN for `NotANumber`. White space only reads as `Numeric(0)`. */
  datatype NumText = Blank | Numeric(value: real) | NotANumber {

    /** `!!field`. */
    predicate Truthy() { !Blank? }

    /** `Number(field)`, with NaN as `None`. */
    function ToNumber(): Option<real> {
      match this
      case Blank => Some(0.0)
      case Numeric(v) => Some(v)
      case NotANumber => None
    }

    /** The guard `!field || isNaN(Number(field))` that every form uses. */
    predicate MissingOrNaN() { Blank? || NotANumber? }

    /** `Number(field) || 0`. */
    function NumberOrZero(): real {
      match this
      case Numeric(v) => v
      case _ => 0.0
    }
  }

  /** A stored optional number tested for truthiness: absent, null and 0 are false. */
  predicate TruthyNumber(x: Option<real>) {
    x.Some? && x.value != 0.0
  }

  /** `x || 0` on a stored optional number. */
  function NumberOrZero(x: Option<real>): (r: real)
    ensures TruthyNumber(x) ==> r == x.value
    ensures !TruthyNumber(x) ==> r == 0.0
  {
    if x.Some? then x.value else 0.0
  }

  // ---------------------------------------------------------------------------
  // Lists of strings

  /** `xs.filter(x => x !== c)`. */
  function Without(xs: seq<string>, c: string): (r: seq<string>)
    ensures forall x :: x in r <==> x in xs && x != c
  {
    if xs == [] then []
    else (if xs[0] == c then [] else [xs[0]]) + Without(xs[1..], c)
  }

  predicate NoDuplicates(xs: seq<string>) {
    forall i, j :: 0 <= i < j < |xs| ==> xs[i] != xs[j]
  }

  lemma {:induction false} WithoutAbsent(xs: seq<string>, c: string)
    requires c !in xs
    ensures Without(xs, c) == xs
  {
    if xs != [] {
      assert xs[0] != c;
      WithoutAbsent(xs[1..], c);
      assert xs == [xs[0]] + xs[1..];
    }
  }

  lemma {:induction false} WithoutAppend(xs: seq<string>, ys: seq<string>, c: string)
    ensures Without(xs + ys, c) == Without(xs, c) + Without(ys, c)
  {
    if xs == [] {
      assert xs + ys == ys;
    } else {
      assert (xs + ys)[0] == xs[0];
      assert (xs + ys)[1..] == xs[1..] + ys;
      WithoutAppend(xs[1..], ys, c);
    }
  }

  lemma {:induction false} WithoutKeepsNoDuplicates(xs: seq<string>, c: string)
    requires NoDuplicates(xs)
    ensures NoDuplicates(Without(xs, c))
  {
    if xs != [] {
      assert NoDuplicates(xs[1..]);
      WithoutKeepsNoDuplicates(xs[1..], c);
      var rest := Without(xs[1..], c);
      assert xs[0] !in xs[1..] by {
        forall k | 0 <= k < |xs[1..]| ensures xs[1..][k] != xs[0] {
          assert xs[1..][k] == xs[k + 1];
        }
      }
      var r := (if xs[0] == c then [] else [xs[0]]) + rest;
      forall i, j | 0 <= i < j < |r| ensures r[i] != r[j] {
        if xs[0] != c && i == 0 {
          assert r[j] == rest[j - 1];
        } else if xs[0] != c {
          assert r[i] == rest[i - 1] && r[j] == rest[j - 1];
        }
      }
    }
  }
}
