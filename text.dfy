/** Small string-scanning toolkit used to read rendered markup back. */
module Text {

  datatype Option<+T> = None | Some(value: T) {
    predicate IsFailure() {
      None?
    }

    function PropagateFailure<U>(): Option<U>
      requires None?
    {
      None
    }

    function Extract(): T
      requires Some?
    {
      value
    }
  }

  /** Text that may stand between two tags: it cannot open or close a tag. */
  predicate IsPlainText(s: string) {
    '<' !in s
  }

  /** Text that may stand inside a double-quoted attribute value and reads back from it unchanged:
      no quote ends the value early, no `&` starts a character reference that would be decoded,
      no carriage return is turned into a line feed and no NUL is replaced. */
  predicate IsAttributeText(s: string) {
    '"' !in s && '&' !in s && '\r' !in s && '\0' !in s
  }

  /** `s` with the literal `lit` removed from its front, or None when `s` does not start with `lit`. */
  function Chomp(lit: string, s: string): (r: Option<string>)
    ensures r.Some? <==> |lit| <= |s| && s[..|lit|] == lit
    ensures r.Some? ==> s == lit + r.value
  {
    if |lit| <= |s| && s[..|lit|] == lit then
      assert s == s[..|lit|] + s[|lit|..];
      Some(s[|lit|..])
    else None
  }

  lemma ChompPrefix(lit: string, rest: string)
    ensures Chomp(lit, lit + rest) == Some(rest)
  {
    assert (lit + rest)[..|lit|] == lit;
    assert (lit + rest)[|lit|..] == rest;
  }

  /** `lit` is not a prefix of `s` when the two differ at some index `k`. */
  /** What follows the first part of a five-part concatenation. */
  lemma AfterFirst5(a: string, b: string, c: string, d: string, e: string)
    ensures (a + b + c + d + e)[|a|..] == b + (c + (d + e))
  {
    assert a + b + c + d + e == a + (b + (c + (d + e)));
  }

  lemma ChompMismatch(lit: string, s: string, k: nat)
    requires k < |lit| && k < |s| && lit[k] != s[k]
    ensures Chomp(lit, s) == None
  {
  }

  /** Index of the first `c` in `s`, or `|s|` when there is none. */
  function IndexOf(s: string, c: char): (k: nat)
    ensures k <= |s|
    ensures c !in s[..k]
    ensures k < |s| ==> s[k] == c
  {
    if s == [] then 0
    else if s[0] == c then 0
    else
      var k := 1 + IndexOf(s[1..], c);
      assert s[..k] == [s[0]] + s[1..][..k - 1];
      k
  }

  /** `s` split just before the first `c`: the text before it and the rest starting at `c`. */
  function SplitAt(s: string, c: char): (r: (string, string))
    ensures r.0 + r.1 == s
    ensures c !in r.0
    ensures r.1 == [] || r.1[0] == c
  {
    var k := IndexOf(s, c);
    assert s == s[..k] + s[k..];
    (s[..k], s[k..])
  }

  lemma {:induction false} IndexOfAfter(x: string, rest: string, c: char)
    requires c !in x
    requires rest != [] && rest[0] == c
    ensures IndexOf(x + rest, c) == |x|
  {
    if x != [] {
      assert (x + rest)[1..] == x[1..] + rest;
      IndexOfAfter(x[1..], rest, c);
    }
  }

  /** Splitting `x + rest` at `c` recovers `x` exactly when `x` holds no `c` and `rest` starts with it. */
  lemma SplitAtAfter(x: string, rest: string, c: char)
    requires c !in x
    requires rest != [] && rest[0] == c
    ensures SplitAt(x + rest, c) == (x, rest)
  {
    IndexOfAfter(x, rest, c);
    assert (x + rest)[..|x|] == x;
    assert (x + rest)[|x|..] == rest;
  }

  // Regrouping a concatenation so that its first part can be read off the front. Stated over
  // arbitrary parts, so that the prover never looks inside the template texts.

  lemma Regroup3(a: string, b: string, c: string, rest: string)
    ensures a + b + c + rest == a + (b + (c + rest))
  {
  }

  lemma Regroup5(a: string, b: string, c: string, d: string, e: string, rest: string)
    ensures a + b + c + d + e + rest == a + (b + (c + (d + (e + rest))))
  {
  }

  lemma Regroup7(a: string, b: string, c: string, d: string, e: string, f: string, g: string, rest: string)
    ensures a + b + c + d + e + f + g + rest == a + (b + (c + (d + (e + (f + (g + rest))))))
  {
  }

  lemma Regroup9(a: string, b: string, c: string, d: string, e: string, f: string, g: string, h: string,
                 i: string, rest: string)
    ensures a + b + c + d + e + f + g + h + i + rest ==
            a + (b + (c + (d + (e + (f + (g + (h + (i + rest))))))))
  {
  }

  lemma Regroup11(a: string, b: string, c: string, d: string, e: string, f: string, g: string, h: string,
                  i: string, j: string, k: string, rest: string)
    ensures a + b + c + d + e + f + g + h + i + j + k + rest ==
            a + (b + (c + (d + (e + (f + (g + (h + (i + (j + (k + rest))))))))))
  {
  }
}
