/** The string operations the transcript code relies on, over sequences of characters. */
module Text {

  /** The characters that str.isspace accepts, so also those str.strip removes. */
  predicate IsSpace(c: char) {
    var n := c as int;
    || 9 <= n <= 13 || 28 <= n <= 32 || n == 0x85 || n == 0xA0 || n == 0x1680
    || 0x2000 <= n <= 0x200A || n == 0x2028 || n == 0x2029 || n == 0x202F || n == 0x205F
    || n == 0x3000
  }

  predicate Blank(s: string) {
    forall i :: 0 <= i < |s| ==> IsSpace(s[i])
  }

  /** How much of s[..n] is left once trailing whitespace is dropped. */
  function TrimmedEnd(s: string, n: nat): (end: nat)
    requires n <= |s|
    ensures end <= n
    ensures end > 0 ==> !IsSpace(s[end - 1])
    ensures forall i :: end <= i < n ==> IsSpace(s[i])
  {
    if n > 0 && IsSpace(s[n - 1]) then TrimmedEnd(s, n - 1) else n
  }

  /** Where s[n..] begins once leading whitespace is dropped. */
  function TrimmedStart(s: string, n: nat): (start: nat)
    requires n <= |s|
    ensures n <= start <= |s|
    ensures start < |s| ==> !IsSpace(s[start])
    ensures forall i :: n <= i < start ==> IsSpace(s[i])
    decreases |s| - n
  {
    if n < |s| && IsSpace(s[n]) then TrimmedStart(s, n + 1) else n
  }

  function RStrip(s: string): string {
    s[..TrimmedEnd(s, |s|)]
  }

  function LStrip(s: string): string {
    s[TrimmedStart(s, 0)..]
  }

  function Strip(s: string): (r: string) {
    LStrip(RStrip(s))
  }

  /** Stripping cuts whitespace off both ends, all of it, and leaves what is between. */
  lemma StripIsMiddle(s: string) returns (a: nat, b: nat)
    ensures a <= b <= |s| && Strip(s) == s[a..b]
    ensures forall i :: 0 <= i < a || b <= i < |s| ==> IsSpace(s[i])
    ensures a < b ==> !IsSpace(s[a]) && !IsSpace(s[b - 1])
  {
    b := TrimmedEnd(s, |s|);
    a := TrimmedStart(s[..b], 0);
    forall i | 0 <= i < a
      ensures IsSpace(s[i])
    {
      assert s[..b][i] == s[i];
    }
    if a < b {
      assert s[..b][a] == s[a];
    }
  }

  /** The text with every whitespace character removed: what no join or strip may change. */
  function Ink(s: string): (r: string) {
    if s == "" then "" else (if IsSpace(s[0]) then "" else [s[0]]) + Ink(s[1..])
  }

  lemma {:induction false} InkConcat(a: string, b: string)
    ensures Ink(a + b) == Ink(a) + Ink(b)
  {
    if a == "" {
      assert a + b == b;
    } else {
      InkConcat(a[1..], b);
      assert (a + b)[1..] == a[1..] + b;
    }
  }

  lemma {:induction false} InkOfBlank(s: string)
    ensures Blank(s) <==> Ink(s) == ""
  {
    if s != "" {
      InkOfBlank(s[1..]);
      assert s == [s[0]] + s[1..];
    }
  }

  /** Stripping removes whitespace only, and leaves nothing exactly when there was only whitespace. */
  lemma StripKeepsInk(s: string)
    ensures Ink(Strip(s)) == Ink(s)
    ensures Strip(s) == "" <==> Blank(s)
  {
    RStripKeepsInk(s);
    var r := RStrip(s);
    var l := LStrip(r);
    var cut := |r| - |l|;
    assert r == r[..cut] + l;
    InkConcat(r[..cut], l);
    InkOfBlank(r[..cut]);
    InkOfBlank(l);
    InkOfBlank(s);
    if l != "" {
      assert !Blank(l) by {
        assert !IsSpace(l[0]);
      }
    }
  }

  lemma RStripKeepsInk(s: string)
    ensures Ink(RStrip(s)) == Ink(s)
  {
    var r := RStrip(s);
    assert s == r + s[|r|..];
    InkConcat(r, s[|r|..]);
    InkOfBlank(s[|r|..]);
  }
}
