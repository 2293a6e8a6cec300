/** The JavaScript string built-ins the application relies on, stated over
    `seq<char>`: prefix and substring tests, `trim`, `split` on one character
    and on the regular expression `/\s+/`, `join`, and the
    global replacement of a literal pattern by the empty string. */
module Strings {

  /** JavaScript's `\s` class, which is also the set of characters that
      `String.prototype.trim` strips: the ECMAScript WhiteSpace and
      LineTerminator code points. */
  predicate IsSpace(c: char)
  {
    || c == '\t' || c == '\n' || c == '\U{B}' || c == '\U{C}' || c == '\r' || c == ' '
    || c == '\U{A0}' || c == '\U{1680}' || ('\U{2000}' <= c <= '\U{200A}')
    || c == '\U{2028}' || c == '\U{2029}' || c == '\U{202F}' || c == '\U{205F}'
    || c == '\U{3000}' || c == '\U{FEFF}'
  }

  /** JavaScript's `\d` class: the ASCII decimal digits only. */
  predicate IsDigit(c: char)
  {
    '0' <= c <= '9'
  }

  /** `s.startsWith(p)`. */
  predicate StartsWith(s: string, p: string)
  {
    |p| <= |s| && s[..|p|] == p
  }

  /** `s.includes(sub)`, which is also `/sub/.test(s)` for a pattern without
      special characters: `sub` occurs at some position of `s`. */
  predicate Contains(s: string, sub: string)
  {
    StartsWith(s, sub) || (|s| > 0 && Contains(s[1..], sub))
  }

  /** `/\d{3,}/.test(s)`: three ASCII digits in a row somewhere in `s`. */
  predicate HasDigitRun(s: string)
  {
    || (|s| >= 3 && IsDigit(s[0]) && IsDigit(s[1]) && IsDigit(s[2]))
    || (|s| > 0 && HasDigitRun(s[1..]))
  }

  lemma {:induction false} ContainsInSuffix(s: string, a: nat, sub: string)
    requires a <= |s|
    requires Contains(s[a..], sub)
    ensures Contains(s, sub)
  {
    if a > 0 {
      assert s[a..] == s[1..][a - 1..];
      ContainsInSuffix(s[1..], a - 1, sub);
    }
  }

  lemma {:induction false} ContainsInPrefix(s: string, b: nat, sub: string)
    requires b <= |s|
    requires Contains(s[..b], sub)
    ensures Contains(s, sub)
  {
    if StartsWith(s[..b], sub) {
      assert s[..|sub|] == s[..b][..|sub|];
    } else {
      assert s[..b][1..] == s[1..][..b - 1];
      ContainsInPrefix(s[1..], b - 1, sub);
    }
  }

  /** An occurrence inside a slice of `s` is an occurrence in `s`. */
  lemma ContainsInSlice(s: string, a: nat, b: nat, sub: string)
    requires a <= b <= |s|
    requires Contains(s[a..b], sub)
    ensures Contains(s, sub)
  {
    assert s[a..b] == s[a..][..b - a];
    ContainsInPrefix(s[a..], b - a, sub);
    ContainsInSuffix(s, a, sub);
  }

  /** Every character of an occurring `sub` is a character of `s`. */
  lemma {:induction false} ContainsChars(s: string, sub: string)
    requires Contains(s, sub)
    ensures forall k :: 0 <= k < |sub| ==> sub[k] in s
  {
    if StartsWith(s, sub) {
      forall k | 0 <= k < |sub|
        ensures sub[k] in s
      {
        assert s[k] == sub[k];
      }
    } else {
      ContainsChars(s[1..], sub);
      forall k | 0 <= k < |sub|
        ensures sub[k] in s
      {
        var j :| 0 <= j < |s[1..]| && s[1..][j] == sub[k];
        assert s[j + 1] == sub[k];
      }
    }
  }

  /** `s.trimStart()`: drops the leading whitespace. */
  function TrimStart(s: string): (r: string)
    ensures |r| <= |s| && r == s[|s| - |r|..]
    ensures forall k :: 0 <= k < |s| - |r| ==> IsSpace(s[k])
    ensures r == [] || !IsSpace(r[0])
  {
    if |s| > 0 && IsSpace(s[0]) then TrimStart(s[1..]) else s
  }

  /** `s.trimEnd()`: drops the trailing whitespace. */
  function TrimEnd(s: string): (r: string)
    ensures |r| <= |s| && r == s[..|r|]
    ensures forall k :: |r| <= k < |s| ==> IsSpace(s[k])
    ensures r == [] || !IsSpace(r[|r| - 1])
  {
    if |s| > 0 && IsSpace(s[|s| - 1]) then TrimEnd(s[..|s| - 1]) else s
  }

  /** `s.trim()`: a contiguous slice of `s` that neither starts nor ends
      with whitespace, everything cut away being whitespace. */
  function Trim(s: string): (r: string)
    ensures r == [] || (!IsSpace(r[0]) && !IsSpace(r[|r| - 1]))
    ensures exists a: nat, b: nat :: a <= b <= |s| && r == s[a..b]
              && (forall k :: 0 <= k < a ==> IsSpace(s[k]))
              && (forall k :: b <= k < |s| ==> IsSpace(s[k]))
  {
    var t := TrimStart(s);
    var r := TrimEnd(t);
    var a := |s| - |t|;
    assert r == s[a..a + |r|];
    r
  }

  /** A string is blank when `trim` leaves nothing of it, i.e. when
      `!value.trim()` holds in JavaScript. */
  lemma TrimEmptyIffBlank(s: string)
    ensures Trim(s) == [] <==> forall k :: 0 <= k < |s| ==> IsSpace(s[k])
  {
    if Trim(s) != [] {
      var a: nat, b: nat :| a <= b <= |s| && Trim(s) == s[a..b];
      assert !IsSpace(s[a]);
    }
  }

  /** The number of times `c` occurs in `s`. */
  function Count(s: string, c: char): nat
  {
    if |s| == 0 then 0 else (if s[0] == c then 1 else 0) + Count(s[1..], c)
  }

  /** `s.split(c)` for a one-character separator: the pieces between the
      occurrences of `c`, always at least one piece. */
  function Split(s: string, c: char): (r: seq<string>)
    ensures |r| == 1 + Count(s, c)
    ensures forall k :: 0 <= k < |r| ==> c !in r[k]
  {
    if |s| == 0 then [""]
    else if s[0] == c then [""] + Split(s[1..], c)
    else
      var rest := Split(s[1..], c);
      [[s[0]] + rest[0]] + rest[1..]
  }

  /** `parts.join(sep)`; joining no parts gives the empty string. */
  function Join(parts: seq<string>, sep: string): string
  {
    if |parts| == 0 then ""
    else if |parts| == 1 then parts[0]
    else parts[0] + sep + Join(parts[1..], sep)
  }

  /** Joining the pieces of a split with the separator gives back the
      original string. */
  lemma {:induction false} JoinSplit(s: string, c: char)
    ensures Join(Split(s, c), [c]) == s
  {
    if |s| == 0 {
    } else if s[0] == c {
      JoinSplit(s[1..], c);
      assert s == [c] + s[1..];
    } else {
      var rest := Split(s[1..], c);
      JoinSplit(s[1..], c);
      if |rest| == 1 {
        assert Split(s, c) == [[s[0]] + rest[0]];
        assert s == [s[0]] + s[1..];
      } else {
        assert Split(s, c)[1..] == rest[1..];
        assert Join(rest, [c]) == rest[0] + [c] + Join(rest[1..], [c]);
        assert s == [s[0]] + s[1..];
      }
    }
  }

  /** Splitting a join of separator-free parts gives back the parts. */
  lemma {:induction false} SplitJoin(parts: seq<string>, c: char)
    requires |parts| >= 1
    requires forall k :: 0 <= k < |parts| ==> c !in parts[k]
    ensures Split(Join(parts, [c]), c) == parts
  {
    if |parts| == 1 {
      SplitFree(parts[0], c);
    } else {
      SplitJoin(parts[1..], c);
      SplitPrefix(parts[0], Join(parts[1..], [c]), c);
      assert Join(parts, [c]) == parts[0] + ([c] + Join(parts[1..], [c]));
      assert [parts[0]] + parts[1..] == parts;
    }
  }

  lemma {:induction false} SplitFree(s: string, c: char)
    requires c !in s
    ensures Split(s, c) == [s]
  {
    if |s| > 0 {
      SplitFree(s[1..], c);
      assert [s[0]] + s[1..] == s;
    }
  }

  /** Splitting `w + c + t` for a separator-free `w` yields `w` followed by
      the pieces of `t`. */
  lemma {:induction false} SplitPrefix(w: string, t: string, c: char)
    requires c !in w
    ensures Split(w + ([c] + t), c) == [w] + Split(t, c)
  {
    if |w| == 0 {
      assert w + ([c] + t) == [c] + t;
      assert ([c] + t)[1..] == t;
    } else {
      assert (w + ([c] + t))[1..] == w[1..] + ([c] + t);
      SplitPrefix(w[1..], t, c);
      assert [w[0]] + w[1..] == w;
    }
  }

  /** `s.split(/\s+/)`: the pieces between the maximal runs of
      whitespace; a leading or trailing run yields an empty piece. */
  function SplitOnSpace(s: string): (r: seq<string>)
    ensures |r| >= 1
    ensures forall k :: 0 <= k < |r| ==> forall j :: 0 <= j < |r[k]| ==> !IsSpace(r[k][j])
    decreases |s|
  {
    if |s| == 0 then [""]
    else if IsSpace(s[0]) then [""] + SplitOnSpace(TrimStart(s[1..]))
    else
      var rest := SplitOnSpace(s[1..]);
      [[s[0]] + rest[0]] + rest[1..]
  }

  /** The number of positions where a non-space is immediately followed by
      a space. */
  function SpaceEntries(s: string): nat
  {
    if |s| < 2 then 0
    else (if !IsSpace(s[0]) && IsSpace(s[1]) then 1 else 0) + SpaceEntries(s[1..])
  }

  /** The number of maximal runs of whitespace in `s`: a run either starts
      the string or begins right after a non-space. */
  function SpaceRuns(s: string): nat
  {
    (if |s| > 0 && IsSpace(s[0]) then 1 else 0) + SpaceEntries(s)
  }

  lemma {:induction false} SpaceEntriesSkipRun(s: string)
    ensures SpaceEntries(s) == SpaceEntries(TrimStart(s))
    decreases |s|
  {
    if |s| > 0 && IsSpace(s[0]) {
      SpaceEntriesSkipRun(s[1..]);
    }
  }

  /** `s.split(/\s+/).length` is one more than the number of maximal
      whitespace runs of `s`. */
  lemma {:induction false} SplitOnSpaceLength(s: string)
    ensures |SplitOnSpace(s)| == 1 + SpaceRuns(s)
    decreases |s|
  {
    if |s| == 0 {
    } else if IsSpace(s[0]) {
      var t := TrimStart(s[1..]);
      SplitOnSpaceLength(t);
      SpaceEntriesSkipRun(s[1..]);
      assert SpaceEntries(s) == SpaceEntries(s[1..]);
    } else {
      SplitOnSpaceLength(s[1..]);
    }
  }

  /** `s.replace(/p/g, '')` for a literal pattern `p`: scans left to right
      and deletes every non-overlapping occurrence of `p`. */
  function RemoveAll(s: string, p: string): (r: string)
    requires |p| > 0
    ensures |r| <= |s|
    decreases |s|
  {
    if |s| < |p| then s
    else if s[..|p|] == p then RemoveAll(s[|p|..], p)
    else [s[0]] + RemoveAll(s[1..], p)
  }

  const Fence := "```"

  lemma {:induction false} ShortHasNoOccurrence(s: string, sub: string)
    requires |s| < |sub|
    ensures !Contains(s, sub)
  {
    if |s| > 0 {
      ShortHasNoOccurrence(s[1..], sub);
    }
  }

  /** What `RemoveAll(t, Fence)` starts with, `t` started with: one
      backtick (n = 1) or two (n = 2). */
  lemma {:induction false} RemoveFenceStart(t: string, n: nat)
    requires 1 <= n <= 2
    ensures StartsWith(RemoveAll(t, Fence), Fence[..n]) ==> StartsWith(t, Fence[..n])
    decreases |t|
  {
    if |t| >= 3 && t[..3] != Fence {
      var r := RemoveAll(t, Fence);
      var rest := RemoveAll(t[1..], Fence);
      assert r == [t[0]] + rest && r[1..] == rest;
      RemoveFenceStart(t[1..], 1);
      assert t[..2] == [t[0]] + t[1..][..1];
      assert |r| >= 2 ==> r[..2] == [t[0]] + rest[..1];
    }
  }

  /** Deleting every "```" left to right leaves no "```" behind. */
  lemma {:induction false} RemoveFenceLeavesNone(s: string)
    ensures !Contains(RemoveAll(s, Fence), Fence)
    decreases |s|
  {
    var r := RemoveAll(s, Fence);
    if |s| < 3 {
      ShortHasNoOccurrence(s, Fence);
    } else if s[..3] == Fence {
      RemoveFenceLeavesNone(s[3..]);
    } else {
      var rest := RemoveAll(s[1..], Fence);
      RemoveFenceLeavesNone(s[1..]);
      RemoveFenceStart(s[1..], 2);
      assert r == [s[0]] + rest && r[1..] == rest;
      assert s[..3] == [s[0]] + s[1..][..2];
      assert |r| >= 3 ==> r[..3] == [s[0]] + rest[..2];
    }
  }

  /** The decimal digits of `n`, as `String(n)` writes a non-negative
      integer. */
  function NatToString(n: nat): (r: string)
    ensures |r| >= 1
    ensures forall k :: 0 <= k < |r| ==> IsDigit(r[k])
  {
    var d := ["0123456789"[n % 10]];
    if n < 10 then d else NatToString(n / 10) + d
  }

  /** `s.substring(k)` for `k >= 0`: empty when `k` is past the end. */
  function Drop(s: string, k: nat): (r: string)
    ensures |r| == if k <= |s| then |s| - k else 0
  {
    if k <= |s| then s[k..] else ""
  }
}
