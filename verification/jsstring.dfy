/** The JavaScript string and array operations the interpretation generator
    uses: `split` on a one-character separator, `substring(0, n)`,
    `indexOf`, and template interpolation of a possibly `undefined` value. */
module JsString {

  import opened Wrappers
  import opened JsMath

  /** `s.split(sep)` for a one-character separator: the maximal runs between
      separators, always at least one (possibly empty) field. */
  function Split(s: string, sep: char): (r: seq<string>)
    ensures |r| >= 1
    ensures forall f :: f in r ==> sep !in f
    decreases |s|
  {
    if |s| == 0 then [""]
    else if s[0] == sep then [""] + Split(s[1..], sep)
    else
      var rest := Split(s[1..], sep);
      [[s[0]] + rest[0]] + rest[1..]
  }

  /** `fields.join(sep)`: the inverse of `Split`. */
  function Join(fields: seq<string>, sep: char): string
    requires |fields| >= 1
    decreases |fields|
  {
    if |fields| == 1 then fields[0] else fields[0] + [sep] + Join(fields[1..], sep)
  }

  /** Joining the fields of a split with the same separator gives back the
      original string. */
  lemma {:induction false} SplitJoin(s: string, sep: char)
    ensures Join(Split(s, sep), sep) == s
    decreases |s|
  {
    if |s| == 0 {
    } else if s[0] == sep {
      SplitJoin(s[1..], sep);
      var rest := Split(s[1..], sep);
      assert ([""] + rest)[1..] == rest;
      assert s == [sep] + s[1..];
    } else {
      SplitJoin(s[1..], sep);
      var rest := Split(s[1..], sep);
      var r := [[s[0]] + rest[0]] + rest[1..];
      assert r[1..] == rest[1..];
      if |rest| == 1 {
        assert s == [s[0]] + s[1..];
      } else {
        assert Join(rest, sep) == rest[0] + [sep] + Join(rest[1..], sep);
        assert s == [s[0]] + s[1..];
      }
    }
  }

  /** A split has a second field exactly when the separator occurs. */
  lemma {:induction false} SplitHasSecondField(s: string, sep: char)
    ensures |Split(s, sep)| >= 2 <==> sep in s
    decreases |s|
  {
    if |s| > 0 {
      SplitHasSecondField(s[1..], sep);
      assert s == [s[0]] + s[1..];
    }
  }

  /** The first field of a split runs up to the first separator, and the
      remaining fields are those of the text after it. */
  lemma {:induction false} SplitFirst(s: string, sep: char)
    ensures sep !in s ==> Split(s, sep) == [s]
    ensures sep in s ==> Split(s, sep)[0] == s[..IndexOf(s, sep)]
    ensures sep in s ==> Split(s, sep)[1..] == Split(s[IndexOf(s, sep) + 1..], sep)
    decreases |s|
  {
    if |s| > 0 && s[0] != sep {
      var t := s[1..];
      SplitFirst(t, sep);
      assert s == [s[0]] + t;
      if sep in s {
        var j := IndexOf(t, sep);
        assert IndexOf(s, sep) == j + 1;
        assert s[..j + 1] == [s[0]] + t[..j];
        assert s[j + 2..] == t[j + 1..];
      }
    }
  }

  /** `s.split(sep)[k]`, `undefined` past the last field. Field 0 is the
      text before the first separator (all of s when there is none), and
      no field contains the separator. */
  function Field(s: string, sep: char, k: int): (r: Option<string>)
    ensures r.Some? <==> 0 <= k < |Split(s, sep)|
    ensures r.Some? ==> sep !in r.value
    ensures k == 0 ==> r == Some(if sep in s then s[..IndexOf(s, sep)] else s)
    ensures k > 0 && sep !in s ==> r.None?
  {
    SplitFirst(s, sep);
    JsIndex(Split(s, sep), k)
  }

  /** Field k + 1 of s is field k of the text after the first separator. */
  lemma FieldNext(s: string, sep: char, k: nat)
    requires sep in s
    ensures Field(s, sep, k + 1) == Field(s[IndexOf(s, sep) + 1..], sep, k)
  {
    SplitFirst(s, sep);
  }

  /** `s.substring(0, n)` for n >= 0: the first n characters, or all of s. */
  function Prefix(s: string, n: nat): (r: string)
    ensures r <= s
    ensures |r| == if n < |s| then n else |s|
  {
    if n < |s| then s[..n] else s
  }

  /** `a.indexOf(x)`: the first position holding x, or -1. */
  function IndexOf<T(==)>(a: seq<T>, x: T): (r: int)
    ensures -1 <= r < |a|
    ensures r == -1 <==> x !in a
    ensures r >= 0 ==> a[r] == x && forall j :: 0 <= j < r ==> a[j] != x
    decreases |a|
  {
    if |a| == 0 then -1
    else if a[0] == x then 0
    else
      var k := IndexOf(a[1..], x);
      if k == -1 then -1 else k + 1
  }

  /** `${v}` in a template literal: an `undefined` value prints as
      "undefined". */
  function Show(v: Option<string>): string
  {
    match v
    case None => "undefined"
    case Some(s) => s
  }

  /** The digit character of d. */
  function DigitChar(d: nat): (c: char)
    requires d < 10
    ensures '0' <= c <= '9'
  {
    (48 + d) as char
  }

  /** `${n}` for a non-negative integer: its decimal digits, without
      leading zeros. */
  function DecimalText(n: nat): (s: string)
    ensures |s| >= 1
    ensures forall c :: c in s ==> '0' <= c <= '9'
    ensures |s| > 1 ==> s[0] != '0'
    decreases n
  {
    if n < 10 then [DigitChar(n)] else DecimalText(n / 10) + [DigitChar(n % 10)]
  }

  /** The value of a string of decimal digits. */
  function DecimalValue(s: string): int
    decreases |s|
  {
    if |s| == 0 then 0 else 10 * DecimalValue(s[..|s| - 1]) + (s[|s| - 1] as int - 48)
  }

  /** Reading back the digits of n gives n. */
  lemma {:induction false} DecimalRoundTrip(n: nat)
    ensures DecimalValue(DecimalText(n)) == n
    decreases n
  {
    if n >= 10 {
      DecimalRoundTrip(n / 10);
      var s := DecimalText(n);
      assert s[..|s| - 1] == DecimalText(n / 10);
    }
  }
}
