/** The text helpers the gateway takes from Go's `strings` package. */
module Text {

  /** White space as `strings.TrimSpace` sees it (Unicode White_Space). */
  predicate IsSpace(c: char) {
    c == ' ' || '\U{0009}' <= c <= '\U{000d}' || c == '\U{0085}' || c == '\U{00a0}' || c == '\U{1680}'
    || '\U{2000}' <= c <= '\U{200a}' || c == '\U{2028}' || c == '\U{2029}' || c == '\U{202f}'
    || c == '\U{205f}' || c == '\U{3000}'
  }

  /** How many leading characters of `s` are white space. */
  function Lead(s: string): (n: nat)
    ensures n <= |s| && forall k :: 0 <= k < n ==> IsSpace(s[k])
    ensures n < |s| ==> !IsSpace(s[n])
  {
    if s != "" && IsSpace(s[0]) then 1 + Lead(s[1..]) else 0
  }

  /** How many trailing characters of `s` are white space. */
  function Trail(s: string): (n: nat)
    ensures n <= |s| && forall k :: |s| - n <= k < |s| ==> IsSpace(s[k])
    ensures n < |s| ==> !IsSpace(s[|s| - n - 1])
  {
    if s != "" && IsSpace(s[|s| - 1]) then 1 + Trail(s[..|s| - 1]) else 0
  }

  function Trim(s: string): string {
    var rest := s[Lead(s)..];
    rest[..|rest| - Trail(rest)]
  }

  predicate Blank(s: string) {
    Trim(s) == ""
  }

  /** A string that trimming leaves alone: empty, or with no space at either end. */
  predicate Trimmed(s: string) {
    s != "" ==> !IsSpace(s[0]) && !IsSpace(s[|s| - 1])
  }

  predicate HasPrefix(s: string, p: string) {
    p <= s
  }

  predicate Contains(s: string, sub: string) {
    exists i :: 0 <= i <= |s| && sub <= s[i..]
  }

  function Join(parts: seq<string>, sep: string): string {
    if parts == [] then "" else if |parts| == 1 then parts[0] else parts[0] + sep + Join(parts[1..], sep)
  }

  /** Bytes of the UTF-8 form of one character. */
  function ByteWidth(c: char): nat {
    if c < '\U{0080}' then 1 else if c < '\U{0800}' then 2 else if c < '\U{10000}' then 3 else 4
  }

  /** `len(s)` in Go: the number of bytes of `s`. */
  function ByteLen(s: string): nat {
    if s == "" then 0 else ByteWidth(s[0]) + ByteLen(s[1..])
  }

  lemma {:induction false} ByteLenConcat(a: string, b: string)
    ensures ByteLen(a + b) == ByteLen(a) + ByteLen(b)
  {
    if a == "" {
      assert a + b == b;
    } else {
      assert (a + b)[1..] == a[1..] + b;
      ByteLenConcat(a[1..], b);
    }
  }

  /** Trimming cuts out a middle piece between two runs of white space, and the piece is trimmed. */
  lemma TrimCut(s: string) returns (i: nat, j: nat)
    ensures i <= j <= |s| && Trim(s) == s[i..j] && Trimmed(Trim(s))
    ensures forall k :: 0 <= k < i || j <= k < |s| ==> IsSpace(s[k])
  {
    i := Lead(s);
    var rest := s[i..];
    var n := |rest| - Trail(rest);
    j := i + n;
    assert rest[..n] == s[i..j];
    forall k | 0 <= k < i || j <= k < |s| ensures IsSpace(s[k]) {
      if j <= k { assert s[k] == rest[k - i]; }
    }
  }

  /** Trimming is determined by its cut: any trimmed middle piece between white space is `Trim(s)`. */
  lemma TrimUnique(s: string, i: nat, j: nat)
    requires i <= j <= |s| && Trimmed(s[i..j])
    requires forall k :: 0 <= k < i || j <= k < |s| ==> IsSpace(s[k])
    ensures Trim(s) == s[i..j]
  {
    var a, b := TrimCut(s);
    assert i < j ==> !IsSpace(s[i]) && !IsSpace(s[j - 1]) by {
      assert i < j ==> s[i..j][0] == s[i] && s[i..j][j - i - 1] == s[j - 1];
    }
    assert a < b ==> !IsSpace(s[a]) && !IsSpace(s[b - 1]) by {
      assert a < b ==> s[a..b][0] == s[a] && s[a..b][b - a - 1] == s[b - 1];
    }
  }

  lemma TrimFixed(s: string)
    ensures Trim(s) == s <==> Trimmed(s)
    ensures Trim(Trim(s)) == Trim(s)
    ensures |Trim(s)| <= |s|
  {
    var i, j := TrimCut(s);
    var t := Trim(s);
    if Trimmed(s) {
      assert s[0..|s|] == s;
      TrimUnique(s, 0, |s|);
    }
    assert t[0..|t|] == t;
    TrimUnique(t, 0, |t|);
  }

  /** Surrounding white space does not matter. */
  lemma TrimPadded(pre: string, s: string, post: string)
    requires forall k :: 0 <= k < |pre| ==> IsSpace(pre[k])
    requires forall k :: 0 <= k < |post| ==> IsSpace(post[k])
    ensures Trim(pre + s + post) == Trim(s)
  {
    var i, j := TrimCut(s);
    var whole := pre + s + post;
    var a, b := |pre| + i, |pre| + j;
    assert whole[a..b] == s[i..j];
    forall k | 0 <= k < a || b <= k < |whole| ensures IsSpace(whole[k]) {
      if |pre| <= k < |pre| + |s| { assert whole[k] == s[k - |pre|]; }
    }
    TrimUnique(whole, a, b);
  }

  /** Every character that survives trimming was in the string, in particular a line break. */
  lemma TrimKeepsOnly(s: string, c: char)
    ensures c in Trim(s) ==> c in s
  {
    var i, j := TrimCut(s);
  }
}
