/**
  String helpers used by both the Python handlers and the TypeScript client:
  `strip()`/`trim()`, `lower()`/`toLowerCase()`, `includes` and JavaScript/Python
  truthiness of optional strings. Whitespace and case are ASCII only.
 */
module Text {
  import opened Wrappers

  /** ASCII whitespace: space, tab, line feed, vertical tab, form feed, carriage return. */
  predicate IsSpace(c: char) {
    c == ' ' || '\t' <= c <= '\r'
  }

  /** Removes leading whitespace. */
  function TrimStart(s: string): (r: string)
    ensures |r| <= |s| && r == s[|s| - |r|..]
    ensures r != [] ==> !IsSpace(r[0])
    ensures forall i :: 0 <= i < |s| - |r| ==> IsSpace(s[i])
  {
    if s != [] && IsSpace(s[0]) then TrimStart(s[1..]) else s
  }

  /** Removes trailing whitespace. */
  function TrimEnd(s: string): (r: string)
    ensures |r| <= |s| && r == s[..|r|]
    ensures r != [] ==> !IsSpace(r[|r| - 1])
    ensures forall i :: |r| <= i < |s| ==> IsSpace(s[i])
  {
    if s != [] && IsSpace(s[|s| - 1]) then TrimEnd(s[..|s| - 1]) else s
  }

  /** Python's `str.strip()` and JavaScript's `String.prototype.trim()`. */
  function Strip(s: string): (r: string)
    ensures |r| <= |s|
    ensures exists k :: OccursAt(s, r, k) && Padding(s, k, k + |r|)
    ensures r != [] ==> !IsSpace(r[0]) && !IsSpace(r[|r| - 1])
    ensures r == [] <==> forall i :: 0 <= i < |s| ==> IsSpace(s[i])
  {
    var front := TrimStart(s);
    var r := TrimEnd(front);
    var k := |s| - |front|;
    assert r == s[k..][..|r|];
    PrefixOfSuffix(s, k, |r|);
    assert OccursAt(s, r, k) && Padding(s, k, k + |r|);
    r
  }

  /** Everything in `s` before `lo` and from `hi` on is whitespace. */
  predicate Padding(s: string, lo: int, hi: int)
    requires 0 <= lo <= hi <= |s|
  {
    (forall i :: 0 <= i < lo ==> IsSpace(s[i])) && (forall i :: hi <= i < |s| ==> IsSpace(s[i]))
  }

  /**
    `Strip` is the only slice of `s` that drops nothing but whitespace and
    has none left at either end: any such slice is `Strip(s)`.
   */
  lemma StripIsUnique(s: string, r: string, k: int)
    requires OccursAt(s, r, k) && Padding(s, k, k + |r|) && Unpadded(r)
    ensures r == Strip(s)
  {
    var t := Strip(s);
    var j :| OccursAt(s, t, j) && Padding(s, j, j + |t|);
    PaddedSlicesAgree(s, r, k, t, j);
  }

  /** Two slices of `s` that drop only whitespace and keep none at their ends are equal. */
  lemma PaddedSlicesAgree(s: string, r: string, k: int, t: string, j: int)
    requires OccursAt(s, r, k) && Padding(s, k, k + |r|) && Unpadded(r)
    requires OccursAt(s, t, j) && Padding(s, j, j + |t|) && Unpadded(t)
    ensures r == t
  {
    // A non-empty slice starts on a character that is not whitespace, so neither can be empty alone.
    assert r != [] ==> s[k] == r[0];
    assert t != [] ==> s[j] == t[0];
    if r != [] && t != [] {
      assert s[k + |r| - 1] == r[|r| - 1] && s[j + |t| - 1] == t[|t| - 1];
      SameBounds(s, k, |r|, j, |t|);
    }
  }

  /** Two padded slices whose end characters are not whitespace have the same bounds. */
  lemma SameBounds(s: string, k: int, n: int, j: int, m: int)
    requires 0 <= k && 0 < n && k + n <= |s| && 0 <= j && 0 < m && j + m <= |s|
    requires Padding(s, k, k + n) && Padding(s, j, j + m)
    requires !IsSpace(s[k]) && !IsSpace(s[k + n - 1]) && !IsSpace(s[j]) && !IsSpace(s[j + m - 1])
    ensures j == k && m == n
  {
  }

  lemma PrefixOfSuffix(s: string, k: nat, n: nat)
    requires k + n <= |s|
    ensures s[k..][..n] == s[k..k + n]
  {
    assert forall i :: 0 <= i < n ==> s[k..][..n][i] == s[k + i] == s[k..k + n][i];
  }

  /** No whitespace at either end, so stripping has nothing to remove. */
  predicate Unpadded(s: string) {
    s != [] ==> !IsSpace(s[0]) && !IsSpace(s[|s| - 1])
  }

  lemma StripUnpadded(s: string)
    requires Unpadded(s)
    ensures Strip(s) == s
  {
  }

  /** Stripping twice is stripping once. */
  lemma StripIdempotent(s: string)
    ensures Strip(Strip(s)) == Strip(s)
  {
    StripUnpadded(Strip(s));
  }

  /** A string's truthiness in Python and JavaScript: present and not empty. */
  predicate Truthy(s: Option<string>) {
    s.Some? && s.value != ""
  }

  /** `s || fallback`: the value when it is truthy, the fallback otherwise. */
  function OrElse(s: Option<string>, fallback: string): (r: string)
    ensures Truthy(s) ==> r == s.value
    ensures !Truthy(s) ==> r == fallback
  {
    if Truthy(s) then s.value else fallback
  }

  function LowerChar(c: char): char {
    if 'A' <= c <= 'Z' then (c as int + 32) as char else c
  }

  /** `lower()` / `toLowerCase()` on ASCII letters. */
  function Lower(s: string): (r: string)
    ensures |r| == |s|
    ensures forall i :: 0 <= i < |s| ==> r[i] == LowerChar(s[i])
  {
    seq(|s|, i requires 0 <= i < |s| => LowerChar(s[i]))
  }

  lemma LowerIdempotent(s: string)
    ensures Lower(Lower(s)) == Lower(s)
  {
  }

  /** `sub` occurs in `s` starting at index `i`. */
  predicate OccursAt(s: string, sub: string, i: int) {
    0 <= i && i + |sub| <= |s| && s[i..i + |sub|] == sub
  }

  /** JavaScript's `s.includes(sub)`. */
  predicate Contains(s: string, sub: string) {
    exists i | 0 <= i <= |s| - |sub| :: OccursAt(s, sub, i)
  }

  lemma ContainsEmpty(s: string)
    ensures Contains(s, "")
  {
    assert OccursAt(s, "", 0);
  }
}
