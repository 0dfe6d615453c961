/** The few `String.prototype` operations the core relies on, and the prefix
    test the `includes` scan is built on, over `seq<char>`: one `char` per
    Unicode scalar value. */
module JsString {

  /** `toLowerCase` on one character, restricted to the ASCII letters. */
  function LowerChar(c: char): (r: char)
    ensures !('A' <= r <= 'Z')
    ensures 'A' <= c <= 'Z' ==> r as int == c as int + 32
    ensures !('A' <= c <= 'Z') ==> r == c
  {
    if 'A' <= c <= 'Z' then (c as int + 32) as char else c
  }

  /** `String.prototype.toLowerCase`, ASCII letters only. */
  function ToLowerCase(s: string): (r: string)
    ensures |r| == |s|
    ensures forall k :: 0 <= k < |s| ==> r[k] == LowerChar(s[k])
    ensures forall k :: 0 <= k < |r| ==> !('A' <= r[k] <= 'Z')
    ensures forall k :: 0 <= k < |s| && !('A' <= s[k] <= 'Z') ==> r[k] == s[k]
  {
    seq(|s|, k requires 0 <= k < |s| => LowerChar(s[k]))
  }

  /** Lower-casing twice is lower-casing once. */
  lemma ToLowerCaseIdempotent(s: string)
    ensures ToLowerCase(ToLowerCase(s)) == ToLowerCase(s)
  {
    var once := ToLowerCase(s);
    var twice := ToLowerCase(once);
    assert |twice| == |once|;
    forall k | 0 <= k < |once| ensures twice[k] == once[k] {
      assert twice[k] == LowerChar(once[k]);
    }
  }

  /** `needle` occurs somewhere in `hay` as a contiguous block. */
  ghost predicate IsSubstring(needle: string, hay: string) {
    exists i, j :: 0 <= i <= j <= |hay| && hay[i..j] == needle
  }

  /** The prefix test the `includes` scan is built on, character by
      character. */
  function StartsWith(hay: string, needle: string): (b: bool)
    ensures b ==> |needle| <= |hay|
    ensures needle == [] ==> b
  {
    needle == [] || (hay != [] && hay[0] == needle[0] && StartsWith(hay[1..], needle[1..]))
  }

  /** The character-by-character check decides the prefix relation. */
  lemma {:induction false} StartsWithIsPrefix(hay: string, needle: string)
    ensures StartsWith(hay, needle) <==> needle <= hay
  {
    if needle != [] && hay != [] {
      StartsWithIsPrefix(hay[1..], needle[1..]);
      if hay[0] == needle[0] && needle[1..] <= hay[1..] {
        assert needle == [needle[0]] + needle[1..];
      }
    }
  }

  /** `String.prototype.includes`: a scan over every start position. */
  function Includes(hay: string, needle: string): (b: bool)
    ensures b ==> |needle| <= |hay|
    ensures needle == [] ==> b
    decreases |hay|
  {
    if StartsWith(hay, needle) then true
    else if hay == [] then false
    else Includes(hay[1..], needle)
  }

  /** A successful scan points at an occurrence. */
  lemma {:induction false} IncludesSound(hay: string, needle: string)
    requires Includes(hay, needle)
    ensures IsSubstring(needle, hay)
    decreases |hay|
  {
    StartsWithIsPrefix(hay, needle);
    if needle <= hay {
      assert hay[0..|needle|] == needle;
    } else {
      IncludesSound(hay[1..], needle);
      var i, j :| 0 <= i <= j <= |hay[1..]| && hay[1..][i..j] == needle;
      assert hay[i + 1..j + 1] == needle;
    }
  }

  /** An occurrence starting at `i` is found by the scan. */
  lemma {:induction false} IncludesComplete(hay: string, needle: string, i: nat)
    requires i + |needle| <= |hay| && hay[i..i + |needle|] == needle
    ensures Includes(hay, needle)
    decreases i
  {
    StartsWithIsPrefix(hay, needle);
    if 0 < i && !(needle <= hay) {
      assert hay[1..][i - 1..i - 1 + |needle|] == needle;
      IncludesComplete(hay[1..], needle, i - 1);
    }
  }

  /** The scan finds `needle` exactly when it is a substring of `hay`. */
  lemma IncludesIsSubstring(hay: string, needle: string)
    ensures Includes(hay, needle) <==> IsSubstring(needle, hay)
  {
    if Includes(hay, needle) {
      IncludesSound(hay, needle);
    }
    if IsSubstring(needle, hay) {
      var i, j :| 0 <= i <= j <= |hay| && hay[i..j] == needle;
      IncludesComplete(hay, needle, i);
    }
  }

  /** No start position holds the first two characters of `needle` in a row,
      so the scan cannot find it. */
  lemma {:induction false} IncludesNeedsLeadingPair(hay: string, needle: string)
    requires |needle| >= 2
    requires forall i :: 0 <= i < |hay| - 1 ==> !(hay[i] == needle[0] && hay[i + 1] == needle[1])
    ensures !Includes(hay, needle)
    decreases |hay|
  {
    if hay != [] {
      assert !StartsWith(hay, needle) by {
        if |hay| >= 2 && hay[0] == needle[0] {
          assert !StartsWith(hay[1..], needle[1..]);
        }
      }
      IncludesNeedsLeadingPair(hay[1..], needle);
    }
  }

  /** The same for a lower-cased text, stated on the original characters. */
  lemma LowerIncludesNeedsLeadingPair(s: string, needle: string)
    requires |needle| >= 2
    requires forall i :: 0 <= i < |s| - 1 ==> !(LowerChar(s[i]) == needle[0] && LowerChar(s[i + 1]) == needle[1])
    ensures !Includes(ToLowerCase(s), needle)
  {
    IncludesNeedsLeadingPair(ToLowerCase(s), needle);
  }

  /** `String.prototype.lastIndexOf` for one character: the index of its last
      occurrence, or -1 when it does not occur. */
  function LastIndexOf(s: string, c: char): (r: int)
    ensures -1 <= r < |s|
    ensures r == -1 <==> c !in s
    ensures 0 <= r ==> s[r] == c && c !in s[r + 1..]
    decreases |s|
  {
    if s == [] then -1
    else if s[|s| - 1] == c then |s| - 1
    else
      var r := LastIndexOf(s[..|s| - 1], c);
      assert s == s[..|s| - 1] + [s[|s| - 1]];
      assert 0 <= r ==> s[r + 1..] == s[..|s| - 1][r + 1..] + [s[|s| - 1]];
      r
  }

  /** `String.prototype.slice(start)` for a non-negative start: the suffix
      from `start`, or "" once `start` is past the end. */
  function Slice(s: string, start: nat): (r: string)
    ensures |s| <= start ==> r == ""
    ensures start < |s| ==> r == s[start..]
  {
    if |s| <= start then "" else s[start..]
  }

  /** The unsigned right shift `x >>> 0`: `x` reduced modulo 2^32. */
  function ToUint32(x: int): (r: nat)
    ensures r < 0x1_0000_0000
    ensures 0 <= x < 0x1_0000_0000 ==> r == x
    ensures -0x1_0000_0000 <= x < 0 ==> r == x + 0x1_0000_0000
  {
    x % 0x1_0000_0000
  }
}
