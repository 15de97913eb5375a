/** Python `str` operations the pipeline relies on, over Dafny strings (one char per code point). */
module PyText {

  // ---------------------------------------------------------------- case

  /** `str.lower()` on one character; only ASCII letters are mapped. */
  function LowerChar(c: char): char {
    if 'A' <= c <= 'Z' then (c as int + 32) as char else c
  }

  function Lower(s: string): (r: string)
    ensures |r| == |s|
    ensures forall i :: 0 <= i < |s| ==> r[i] == LowerChar(s[i])
  {
    seq(|s|, i requires 0 <= i < |s| => LowerChar(s[i]))
  }

  // ---------------------------------------------------------------- search

  predicate StartsWith(s: string, p: string) {
    |p| <= |s| && s[..|p|] == p
  }

  /** `w in s` for two strings, as a left-to-right scan. */
  predicate Contains(s: string, w: string)
    decreases |s|
  {
    StartsWith(s, w) || (s != [] && Contains(s[1..], w))
  }

  /** `w` occurs in `s` starting at index `i`. */
  predicate OccursAt(s: string, w: string, i: int) {
    0 <= i <= |s| - |w| && s[i..i + |w|] == w
  }

  /** The declarative reading of `w in s`: `w` occurs at some index. */
  ghost predicate OccursIn(s: string, w: string) {
    exists i :: OccursAt(s, w, i)
  }

  lemma {:induction false} ContainsIffOccurs(s: string, w: string)
    ensures Contains(s, w) <==> OccursIn(s, w)
    decreases |s|
  {
    if s == [] {
      if Contains(s, w) {
        assert OccursAt(s, w, 0);
      }
      if OccursIn(s, w) {
        var i :| OccursAt(s, w, i);
        assert w == [] && StartsWith(s, w);
      }
    } else {
      ContainsIffOccurs(s[1..], w);
      if Contains(s, w) {
        if StartsWith(s, w) {
          assert OccursAt(s, w, 0);
        } else {
          var i :| OccursAt(s[1..], w, i);
          assert s[1..][i..i + |w|] == s[i + 1..i + 1 + |w|];
          assert OccursAt(s, w, i + 1);
        }
      }
      if OccursIn(s, w) {
        var i :| OccursAt(s, w, i);
        if i == 0 {
          assert StartsWith(s, w);
        } else {
          assert s[1..][i - 1..i - 1 + |w|] == s[i..i + |w|];
          assert OccursAt(s[1..], w, i - 1);
        }
      }
    }
  }

  /** `any(word in s for word in words)` */
  predicate ContainsAny(s: string, words: seq<string>)
    decreases |words|
  {
    words != [] && (Contains(s, words[0]) || ContainsAny(s, words[1..]))
  }

  lemma {:induction false} ContainsAnyIff(s: string, words: seq<string>)
    ensures ContainsAny(s, words) <==> exists k :: 0 <= k < |words| && Contains(s, words[k])
    decreases |words|
  {
    if words != [] {
      ContainsAnyIff(s, words[1..]);
      if exists k :: 0 <= k < |words| && Contains(s, words[k]) {
        var k :| 0 <= k < |words| && Contains(s, words[k]);
        if k > 0 {
          assert words[1..][k - 1] == words[k];
        }
      }
      if ContainsAny(s, words[1..]) {
        var k :| 0 <= k < |words[1..]| && Contains(s, words[1..][k]);
        assert Contains(s, words[k + 1]);
      }
    }
  }

  lemma {:induction false} ContainsOfSuffix(s: string, k: nat, w: string)
    requires k <= |s| && Contains(s[k..], w)
    ensures Contains(s, w)
    decreases k
  {
    if k > 0 {
      assert s[1..][k - 1..] == s[k..];
      ContainsOfSuffix(s[1..], k - 1, w);
    }
  }

  lemma {:induction false} ContainsOfPrefix(s: string, k: nat, w: string)
    requires k <= |s| && Contains(s[..k], w)
    ensures Contains(s, w)
    decreases k
  {
    if StartsWith(s[..k], w) {
      assert s[..k][..|w|] == s[..|w|];
    } else {
      assert s[..k] != [] && Contains(s[..k][1..], w);
      assert s[..k][1..] == s[1..][..k - 1];
      ContainsOfPrefix(s[1..], k - 1, w);
    }
  }

  /** A text that contains a word contains every prefix of it. */
  lemma {:induction false} ContainsPrefixWord(s: string, w: string, p: string)
    requires StartsWith(w, p) && Contains(s, w)
    ensures Contains(s, p)
    decreases |s|
  {
    if !StartsWith(s, w) {
      ContainsPrefixWord(s[1..], w, p);
    }
  }

  lemma StartsWithContains(s: string, w: string)
    requires StartsWith(s, w)
    ensures Contains(s, w)
  {
  }

  // ---------------------------------------------------------------- replace

  /** `s.replace(pat, '')`: drop every non-overlapping occurrence of `pat`, scanning left to right. */
  function RemoveAll(s: string, pat: string): (r: string)
    requires pat != []
    ensures |r| <= |s|
    decreases |s|
  {
    if |s| < |pat| then s
    else if s[..|pat|] == pat then RemoveAll(s[|pat|..], pat)
    else [s[0]] + RemoveAll(s[1..], pat)
  }

  /** The code-fence marker the language-model replies are cleaned of. */
  const Fence: string := "```"

  lemma FenceRemovalKeepsHead(s: string)
    requires |s| >= 1 && s[0] != '`'
    ensures RemoveAll(s, Fence) != [] && RemoveAll(s, Fence)[0] == s[0]
  {
  }

  lemma ShortTextHasNoFence(s: string)
    requires |s| < |Fence|
    ensures !Contains(s, Fence)
  {
    if Contains(s, Fence) {
      ContainsIffOccurs(s, Fence);
    }
  }

  /** Removing every fence cannot splice a new fence together. */
  lemma {:induction false} NoFenceAfterRemoval(s: string)
    ensures !Contains(RemoveAll(s, Fence), Fence)
    decreases |s|
  {
    if |s| < |Fence| {
      ShortTextHasNoFence(s);
    } else if s[..|Fence|] == Fence {
      NoFenceAfterRemoval(s[|Fence|..]);
    } else {
      var rest := RemoveAll(s[1..], Fence);
      assert RemoveAll(s, Fence) == [s[0]] + rest;
      NoFenceAfterRemoval(s[1..]);
      assert ([s[0]] + rest)[1..] == rest;
      if s[0] == '`' {
        if s[1] != '`' {
          FenceRemovalKeepsHead(s[1..]);
          assert !StartsWith([s[0]] + rest, Fence);
        } else {
          assert s[2] != '`';
          if |s| == |Fence| {
            assert rest == s[1..];
          } else {
            assert s[1..][..|Fence|] != Fence;
            assert rest == [s[1]] + RemoveAll(s[2..], Fence);
            FenceRemovalKeepsHead(s[2..]);
            assert rest[1] == s[2];
          }
          assert !StartsWith([s[0]] + rest, Fence);
        }
      } else {
        assert !StartsWith([s[0]] + rest, Fence);
      }
    }
  }

  // ---------------------------------------------------------------- strip

  /** `str.isspace()` for one character: the whitespace set of Python's Unicode database. */
  predicate IsSpace(c: char) {
    var n := c as int;
    (0x09 <= n <= 0x0D) || (0x1C <= n <= 0x20) || n == 0x85 || n == 0xA0 || n == 0x1680
    || (0x2000 <= n <= 0x200A) || n == 0x2028 || n == 0x2029 || n == 0x202F || n == 0x205F || n == 0x3000
  }

  function LStrip(s: string): (r: string)
    ensures |r| <= |s| && r == s[|s| - |r|..]
    ensures r == [] || !IsSpace(r[0])
    decreases |s|
  {
    if s != [] && IsSpace(s[0]) then LStrip(s[1..]) else s
  }

  function RStrip(s: string): (r: string)
    ensures |r| <= |s| && r == s[..|r|]
    ensures r == [] || !IsSpace(r[|r| - 1])
    decreases |s|
  {
    if s != [] && IsSpace(s[|s| - 1]) then RStrip(s[..|s| - 1]) else s
  }

  /** `str.strip()` with no argument. */
  function Strip(s: string): string {
    RStrip(LStrip(s))
  }

  ghost predicate Stripped(s: string) {
    s == [] || (!IsSpace(s[0]) && !IsSpace(s[|s| - 1]))
  }

  lemma StripIsStripped(s: string)
    ensures Stripped(Strip(s))
  {
    var l := LStrip(s);
    var r := RStrip(l);
    if r != [] {
      assert r[0] == l[0];
    }
  }

  lemma StrippedIsFixed(s: string)
    requires Stripped(s)
    ensures Strip(s) == s
  {
  }

  lemma StripIdempotent(s: string)
    ensures Strip(Strip(s)) == Strip(s)
  {
    StripIsStripped(s);
    StrippedIsFixed(Strip(s));
  }

  /** What `Strip` keeps is a contiguous piece of its input, so it finds no word its input lacks. */
  lemma StripKeepsNoWord(s: string, w: string)
    requires !Contains(s, w)
    ensures !Contains(Strip(s), w)
  {
    var l := LStrip(s);
    var r := RStrip(l);
    if Contains(r, w) {
      ContainsOfPrefix(l, |r|, w);
      ContainsOfSuffix(s, |s| - |l|, w);
    }
  }

  // ---------------------------------------------------------------- slicing and joining

  /** `s[:n]` for a string or a list. */
  function Take<T>(s: seq<T>, n: nat): (r: seq<T>)
    ensures |r| <= n && |r| <= |s|
    ensures |s| <= n ==> r == s
    ensures s == r + s[|r|..]
  {
    if |s| <= n then s else s[..n]
  }

  /** `sep.join(parts)` */
  function Join(sep: string, parts: seq<string>): string
    decreases |parts|
  {
    if parts == [] then ""
    else if |parts| == 1 then parts[0]
    else parts[0] + sep + Join(sep, parts[1..])
  }

  // ---------------------------------------------------------------- numbers

  function DigitChar(d: nat): (c: char)
    requires d < 10
    ensures '0' <= c <= '9'
  {
    ('0' as int + d) as char
  }

  /** `str(n)` for a non-negative integer. */
  function NatText(n: nat): (r: string)
    ensures |r| >= 1 && forall i :: 0 <= i < |r| ==> '0' <= r[i] <= '9'
    decreases n
  {
    if n < 10 then [DigitChar(n)] else NatText(n / 10) + [DigitChar(n % 10)]
  }

  /** `str(n)` for an integer. */
  function Decimal(n: int): (r: string)
    ensures |r| >= 1 && (r[0] == '-' || '0' <= r[0] <= '9')
  {
    if n < 0 then "-" + NatText(-n) else NatText(n)
  }

  // ---------------------------------------------------------------- string order

  /** SQLite's BINARY collation on text: code point order, a proper prefix first. */
  predicate TextLe(a: string, b: string)
    decreases |a|
  {
    a == [] || (b != [] && (a[0] < b[0] || (a[0] == b[0] && TextLe(a[1..], b[1..]))))
  }

  lemma {:induction false} TextLeTotal(a: string, b: string)
    ensures TextLe(a, b) || TextLe(b, a)
    decreases |a|
  {
    if a != [] && b != [] && a[0] == b[0] {
      TextLeTotal(a[1..], b[1..]);
    }
  }

  lemma {:induction false} TextLeTransitive(a: string, b: string, c: string)
    requires TextLe(a, b) && TextLe(b, c)
    ensures TextLe(a, c)
    decreases |a|
  {
    if a != [] && b != [] && c != [] && a[0] == b[0] && b[0] == c[0] {
      TextLeTransitive(a[1..], b[1..], c[1..]);
    }
  }
}
