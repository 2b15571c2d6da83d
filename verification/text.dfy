/**
 * The string operations the bot applies to incoming text and callback data:
 * Python's `str.strip()`, `s.split(sep)[1]`, `str.startswith` and the
 * anchored patterns `^tok$` that the callback handlers are registered with.
 */
module Text {

  /** Python's `str.isspace()` for one character: the characters `str.strip()` removes. */
  predicate IsSpace(c: char) {
    var n := c as int;
    (9 <= n <= 13) || (28 <= n <= 32) || n == 0x85 || n == 0xA0 || n == 0x1680 ||
    (0x2000 <= n <= 0x200A) || n == 0x2028 || n == 0x2029 || n == 0x202F ||
    n == 0x205F || n == 0x3000
  }

  predicate AllSpace(s: string) {
    forall k :: 0 <= k < |s| ==> IsSpace(s[k])
  }

  /** Number of whitespace characters at the front of `s`. */
  function LeadingSpaces(s: string): (n: nat)
    ensures n <= |s|
    ensures AllSpace(s[..n])
    ensures n < |s| ==> !IsSpace(s[n])
  {
    if s == [] || !IsSpace(s[0]) then 0
    else
      var m := LeadingSpaces(s[1..]);
      assert s[1..][..m] == s[1..m + 1];
      1 + m
  }

  /** Number of whitespace characters at the back of `s`. */
  function TrailingSpaces(s: string): (n: nat)
    ensures n <= |s|
    ensures forall k :: |s| - n <= k < |s| ==> IsSpace(s[k])
    ensures n < |s| ==> !IsSpace(s[|s| - 1 - n])
  {
    if s == [] || !IsSpace(s[|s| - 1]) then 0
    else 1 + TrailingSpaces(s[..|s| - 1])
  }

  /**
   * Python's `s.strip()`: `s` without its leading and trailing whitespace.
   * The result is the unique slice of `s` that is padded only by whitespace
   * and is either empty or starts and ends with a non-space character.
   */
  function Strip(s: string): (r: string)
    ensures |r| <= |s|
    ensures r == "" <==> AllSpace(s)
    ensures r != "" ==> !IsSpace(r[0]) && !IsSpace(r[|r| - 1])
    ensures exists i :: 0 <= i <= |s| - |r| && r == s[i..i + |r|] && AllSpace(s[..i]) && AllSpace(s[i + |r|..])
  {
    var i := LeadingSpaces(s);
    var t := s[i..];
    var j := TrailingSpaces(t);
    var r := t[..|t| - j];
    assert r == s[i..i + |r|];
    assert AllSpace(s[i + |r|..]);
    assert i < |s| ==> !IsSpace(t[0]) && r != "";
    assert s[..|s|] == s;
    r
  }

  /** A string that neither starts nor ends with whitespace is its own strip. */
  lemma StripUnpadded(s: string)
    requires s == "" || (!IsSpace(s[0]) && !IsSpace(s[|s| - 1]))
    ensures Strip(s) == s
  {
    if s != "" {
      assert LeadingSpaces(s) == 0;
      assert TrailingSpaces(s) == 0;
    }
  }

  /** Stripping twice is stripping once. */
  lemma StripIdempotent(s: string)
    ensures Strip(Strip(s)) == Strip(s)
  {
    StripUnpadded(Strip(s));
  }

  predicate StartsWith(s: string, prefix: string) {
    |prefix| <= |s| && s[..|prefix|] == prefix
  }

  /** `sep` occurs in `s` at index `k`. */
  predicate OccursAt(s: string, sep: string, k: int) {
    0 <= k && k + |sep| <= |s| && s[k..k + |sep|] == sep
  }

  predicate Contains(s: string, sep: string) {
    exists k :: 0 <= k <= |s| && OccursAt(s, sep, k)
  }

  /**
   * The longest prefix of `t` that stops before the first occurrence of
   * `sep`; all of `t` when `sep` does not occur in it.
   */
  function UpToSeparator(t: string, sep: string): (r: string)
    requires sep != ""
    ensures StartsWith(t, r)
    ensures forall k :: 0 <= k < |r| ==> !OccursAt(t, sep, k)
    ensures |r| < |t| ==> OccursAt(t, sep, |r|)
    decreases |t|
  {
    if |t| < |sep| then t
    else if t[..|sep|] == sep then ""
    else
      var r' := UpToSeparator(t[1..], sep);
      var r := [t[0]] + r';
      assert forall k :: 1 <= k ==> (OccursAt(t, sep, k) <==> OccursAt(t[1..], sep, k - 1)) by {
        forall k | 1 <= k ensures OccursAt(t, sep, k) <==> OccursAt(t[1..], sep, k - 1) {
          OccursAfterFirst(t, sep, k);
        }
      }
      assert t[..|r|] == [t[0]] + t[1..][..|r'|];
      r
  }

  lemma OccursAfterFirst(t: string, sep: string, k: int)
    requires 1 <= k && t != ""
    ensures OccursAt(t, sep, k) <==> OccursAt(t[1..], sep, k - 1)
  {
    if k + |sep| <= |t| {
      var a, b := t[k..k + |sep|], t[1..][k - 1..k - 1 + |sep|];
      assert |a| == |b|;
      forall j | 0 <= j < |a| ensures a[j] == b[j] {
        assert a[j] == t[k + j] && b[j] == t[1..][k - 1 + j];
      }
      assert a == b;
    }
  }

  /**
   * Python's `data.split(sep)[1]` for a `data` that starts with `sep`: the
   * field between the leading separator and the next one (or the end).
   */
  function SecondField(data: string, sep: string): (r: string)
    requires sep != "" && StartsWith(data, sep)
    ensures |r| <= |data| - |sep|
    ensures StartsWith(data[|sep|..], r)
    ensures forall k :: 0 <= k < |r| ==> !OccursAt(data[|sep|..], sep, k)
    ensures |r| < |data| - |sep| ==> OccursAt(data[|sep|..], sep, |r|)
  {
    UpToSeparator(data[|sep|..], sep)
  }

  /** A callback token built as `sep + name` splits back to `name`. */
  lemma SecondFieldOfToken(sep: string, name: string)
    requires sep != "" && !Contains(name, sep)
    ensures StartsWith(sep + name, sep)
    ensures SecondField(sep + name, sep) == name
  {
    assert (sep + name)[..|sep|] == sep;
    assert (sep + name)[|sep|..] == name;
    var r := UpToSeparator(name, sep);
    assert r == name[..|r|];
  }

  /**
   * Python's `re.match('^' + tok + '$', data)`: `$` matches at the end of the
   * string and also just before a final newline.
   */
  predicate MatchesExactly(data: string, tok: string) {
    data == tok || data == tok + "\n"
  }
}
