/**
 * Byte strings and the small scanning functions the message parsers use.
 *
 * A Go `string` is a sequence of bytes. The model writes it as a Dafny
 * `string` in which every character stands for one byte; captured process
 * output is a `Bytes` value and becomes text through `AsText`, which is
 * Go's `string(b)` conversion.
 */
module Text {
  import opened Wrappers

  newtype byte = b: int | 0 <= b < 256

  type Bytes = seq<byte>

  /** Go's `string(b)`: every byte becomes the character with the same code. */
  function AsText(b: Bytes): (r: string)
    ensures |r| == |b|
    ensures forall i :: 0 <= i < |b| ==> r[i] as int == b[i] as int
  {
    seq(|b|, i requires 0 <= i < |b| => (b[i] as int) as char)
  }

  /** `AsText` loses nothing: equal texts come from equal byte strings. */
  lemma AsTextInjective(a: Bytes, b: Bytes)
    requires AsText(a) == AsText(b)
    ensures a == b
  {
    assert |a| == |b|;
    forall i | 0 <= i < |a|
      ensures a[i] == b[i]
    {
      assert AsText(a)[i] == AsText(b)[i];
    }
  }

  /** Go's `strings.Join`. */
  function Join(parts: seq<string>, sep: string): string
    decreases |parts|
  {
    if |parts| == 0 then ""
    else if |parts| == 1 then parts[0]
    else parts[0] + sep + Join(parts[1..], sep)
  }

  /** `s` with the literal `lit` removed from its front, if it starts with it. */
  function Expect(lit: string, s: string): (r: Option<string>)
    ensures r.Some? <==> |lit| <= |s| && s[..|lit|] == lit
    ensures r.Some? ==> s == lit + r.value
  {
    if |lit| <= |s| && s[..|lit|] == lit then Some(s[|lit|..]) else None
  }

  lemma ExpectLiteral(lit: string, rest: string)
    ensures Expect(lit, lit + rest) == Some(rest)
  {
    assert (lit + rest)[..|lit|] == lit;
    assert (lit + rest)[|lit|..] == rest;
  }

  /** Splits `s` before the first occurrence of `c` (or at its end). */
  function Until(c: char, s: string): (r: (string, string))
    ensures r.0 + r.1 == s
    ensures c !in r.0
    ensures r.1 == [] || r.1[0] == c
    decreases |s|
  {
    if s == [] then ("", "")
    else if s[0] == c then ("", s)
    else
      var rest := Until(c, s[1..]);
      var front := [s[0]] + rest.0;
      assert front + rest.1 == [s[0]] + (rest.0 + rest.1);
      assert s == [s[0]] + s[1..];
      assert forall i :: 1 <= i < |front| ==> front[i] == rest.0[i - 1];
      (front, rest.1)
  }

  /** The split `Until` finds is the only one with its two properties. */
  lemma {:induction false} UntilSplits(c: char, a: string, b: string)
    requires c !in a
    requires b == [] || b[0] == c
    ensures Until(c, a + b) == (a, b)
    decreases |a|
  {
    if a == [] {
      assert a + b == b;
    } else {
      assert (a + b)[0] == a[0];
      assert (a + b)[1..] == a[1..] + b;
      UntilSplits(c, a[1..], b);
      assert [a[0]] + a[1..] == a;
    }
  }
}
