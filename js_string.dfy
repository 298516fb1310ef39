/**
 * The JavaScript string operations the client relies on, written out over
 * `seq<char>`: `startsWith`, `includes`, `trim`, `toLowerCase` (ASCII letters
 * only), `split`/`join` on one separator character, `slice(0, n)` and the
 * decimal rendering of a counter.
 */
module JsString {
  import opened Wrappers

  // ---------------------------------------------------------------------------
  // Prefixes and substrings
  // ---------------------------------------------------------------------------

  /** `s.startsWith(p)` */
  predicate StartsWith(s: string, p: string) {
    |p| <= |s| && s[..|p|] == p
  }

  /** `s.includes(t)`: some suffix of `s` starts with `t`. */
  predicate Contains(s: string, t: string)
    decreases |s|
  {
    StartsWith(s, t) || (|s| > 0 && Contains(s[1..], t))
  }

  /** `t` occurs in `s` at position `i`. */
  ghost predicate OccursAt(s: string, t: string, i: int) {
    0 <= i && i + |t| <= |s| && s[i..i + |t|] == t
  }

  /** An occurrence at position `i` is found by `Contains`. */
  lemma {:induction false} OccurrenceIsContained(s: string, t: string, i: int)
    requires OccursAt(s, t, i)
    ensures Contains(s, t)
    decreases i
  {
    if i == 0 {
      assert StartsWith(s, t);
    } else {
      assert s[1..][i - 1..i - 1 + |t|] == s[i..i + |t|];
      OccurrenceIsContained(s[1..], t, i - 1);
    }
  }

  /** What `Contains` finds is an occurrence. */
  lemma {:induction false} ContainedOccurs(s: string, t: string) returns (i: int)
    requires Contains(s, t)
    ensures OccursAt(s, t, i)
    decreases |s|
  {
    if StartsWith(s, t) {
      i := 0;
    } else {
      var j := ContainedOccurs(s[1..], t);
      assert s[1..][j..j + |t|] == s[j + 1..j + 1 + |t|];
      i := j + 1;
    }
  }

  /** `Contains` means exactly that `t` occurs somewhere in `s`. */
  lemma ContainsIff(s: string, t: string)
    ensures Contains(s, t) <==> exists i :: OccursAt(s, t, i)
  {
    if Contains(s, t) {
      var i := ContainedOccurs(s, t);
    }
    forall i | OccursAt(s, t, i) ensures Contains(s, t) {
      OccurrenceIsContained(s, t, i);
    }
  }

  /** Every string contains itself, at position 0. */
  lemma ContainsSelf(s: string)
    ensures Contains(s, s)
  {
    assert s[..|s|] == s;
  }

  /** Every string contains the empty string. */
  lemma ContainsEmpty(s: string)
    ensures Contains(s, "")
  {
    assert s[..0] == "";
  }

  /** Every character of `t` occurs in any string that contains `t`. */
  lemma ContainedCharsOccur(s: string, t: string, k: int)
    requires 0 <= k < |t|
    ensures Contains(s, t) ==> t[k] in s
  {
    if Contains(s, t) {
      var i := ContainedOccurs(s, t);
      assert s[i + k] == s[i..i + |t|][k];
    }
  }

  /** `t` matches `s` at position `i`, compared character by character from offset `j` of `t` on. */
  predicate MatchesFrom(s: string, t: string, i: nat, j: nat)
    decreases |t| - j
  {
    j >= |t| || (i + j < |s| && s[i + j] == t[j] && MatchesFrom(s, t, i, j + 1))
  }

  /** `t` matches `s` at position `i`. */
  predicate MatchesAt(s: string, t: string, i: nat) {
    MatchesFrom(s, t, i, 0)
  }

  lemma {:induction false} MatchesFromIff(s: string, t: string, i: nat, j: nat)
    requires j <= |t| && i + j <= |s|
    ensures MatchesFrom(s, t, i, j) <==> i + |t| <= |s| && s[i + j..i + |t|] == t[j..]
    decreases |t| - j
  {
    if j < |t| && i + j < |s| {
      MatchesFromIff(s, t, i, j + 1);
      if i + |t| <= |s| {
        assert s[i + j..i + |t|] == [s[i + j]] + s[i + j + 1..i + |t|];
        assert t[j..] == [t[j]] + t[j + 1..];
      }
    }
  }

  /** Where it fits, matching character by character is comparing the slice. */
  lemma MatchesAtIff(s: string, t: string, i: nat)
    requires i + |t| <= |s|
    ensures MatchesAt(s, t, i) <==> OccursAt(s, t, i)
  {
    MatchesFromIff(s, t, i, 0);
  }

  /** `s.indexOf(t, i)` as an option: the first position from `i` on where `t` occurs, `None` for -1. */
  function IndexFrom(s: string, t: string, i: nat): (r: Option<nat>)
    ensures r.Some? ==> i <= r.value && r.value + |t| <= |s|
    decreases |s| + 1 - i
  {
    if i + |t| > |s| then None
    else if MatchesAt(s, t, i) then Some(i)
    else IndexFrom(s, t, i + 1)
  }

  /** `s.indexOf(t)` */
  function IndexOf(s: string, t: string): Option<nat> {
    IndexFrom(s, t, 0)
  }

  /** `IndexFrom` finds the first occurrence from `i` on, and `None` means there is none. */
  lemma {:induction false} IndexFromFirst(s: string, t: string, i: nat)
    ensures IndexFrom(s, t, i).Some? ==>
      OccursAt(s, t, IndexFrom(s, t, i).value) && forall j :: i <= j < IndexFrom(s, t, i).value ==> !OccursAt(s, t, j)
    ensures IndexFrom(s, t, i).None? ==> forall j :: i <= j ==> !OccursAt(s, t, j)
    decreases |s| + 1 - i
  {
    if i + |t| <= |s| {
      MatchesAtIff(s, t, i);
      if !MatchesAt(s, t, i) {
        IndexFromFirst(s, t, i + 1);
      }
    }
  }

  /** `indexOf` finds nothing exactly when `includes` is false. */
  lemma IndexOfNoneIff(s: string, t: string)
    ensures IndexOf(s, t).None? <==> !Contains(s, t)
  {
    ContainsIff(s, t);
    IndexFromFirst(s, t, 0);
  }

  /** An occurrence from `i` on with no character before it that could start `t` is the one found. */
  lemma {:induction false} IndexFromSkips(s: string, t: string, i: nat, k: nat)
    requires |t| > 0 && i <= k && OccursAt(s, t, k)
    requires forall p :: i <= p < k ==> s[p] != t[0]
    ensures IndexFrom(s, t, i) == Some(k)
    decreases k - i
  {
    MatchesAtIff(s, t, i);
    if i < k {
      assert !MatchesFrom(s, t, i, 0);
      IndexFromSkips(s, t, i + 1, k);
    }
  }

  /** A slice of a slice is a slice of the whole. */
  lemma SliceOfSlice(s: string, i: nat, j: nat, a: nat, b: nat)
    requires i <= j <= |s| && a <= b <= j - i
    ensures s[i..j][a..b] == s[i + a..i + b]
  {
    assert forall k :: 0 <= k < b - a ==> s[i..j][a..b][k] == s[i + a + k];
  }

  /** Where `x + y` sits at position `i`, `x` sits at `i` and `y` right after it. */
  lemma SliceOfAppend(s: string, i: nat, x: string, y: string)
    requires i + |x + y| <= |s| && s[i..i + |x + y|] == x + y
    ensures s[i..i + |x|] == x && s[i + |x|..i + |x| + |y|] == y
  {
    SliceOfSlice(s, i, i + |x + y|, 0, |x|);
    SliceOfSlice(s, i, i + |x + y|, |x|, |x| + |y|);
    assert (x + y)[..|x|] == x && (x + y)[|x|..] == y;
  }

  /** Where `a + b + c + d + e` sits at position `i`, each piece sits at its own offset, and so does `d + e`. */
  lemma SliceOfAppend5(s: string, i: nat, a: string, b: string, c: string, d: string, e: string)
    requires i + |a + b + c + d + e| <= |s| && s[i..i + |a + b + c + d + e|] == a + b + c + d + e
    ensures s[i..i + |a|] == a && s[i + |a|..i + |a| + |b|] == b
    ensures s[i + |a| + |b|..i + |a| + |b| + |c|] == c
    ensures s[i + |a| + |b| + |c|..i + |a| + |b| + |c| + |d|] == d
    ensures s[i + |a| + |b| + |c|..i + |a| + |b| + |c| + |d| + |e|] == d + e
  {
    SliceOfAppend(s, i, a + b + c + d, e);
    SliceOfAppend(s, i, a + b + c, d);
    SliceOfAppend(s, i, a + b, c);
    SliceOfAppend(s, i, a, b);
    AppendOfSlices(s, i + |a| + |b| + |c|, d, e);
  }

  /** `x` at position `i` and `y` right after it: `x + y` sits at `i`. */
  lemma AppendOfSlices(s: string, i: nat, x: string, y: string)
    requires i + |x| + |y| <= |s| && s[i..i + |x|] == x && s[i + |x|..i + |x| + |y|] == y
    ensures s[i..i + |x + y|] == x + y
  {
    assert s[i..i + |x + y|] == s[i..i + |x|] + s[i + |x|..i + |x| + |y|];
  }

  /** No position from `i` up to `j` holds `c`, so the slice between them does not contain it. */
  lemma NotInSlice(s: string, c: char, i: nat, j: nat)
    requires i <= j <= |s| && forall p :: i <= p < j ==> s[p] != c
    ensures c !in s[i..j]
  {
    assert forall p :: 0 <= p < j - i ==> s[i..j][p] == s[i + p];
  }

  /** The other way round: a character not in the slice is at no position between `i` and `j`. */
  lemma NotInSliceAt(s: string, c: char, i: nat, j: nat)
    requires i <= j <= |s| && c !in s[i..j]
    ensures forall p :: i <= p < j ==> s[p] != c
  {
    assert forall p :: i <= p < j ==> s[p] == s[i..j][p - i];
  }

  /** A string `u` sitting at position `i` of `s`: what `IndexFrom` finds inside `u` it finds at the same place in `s`. */
  lemma {:induction false} IndexFromInside(s: string, u: string, t: string, i: nat, p: nat)
    requires i + |u| <= |s| && s[i..i + |u|] == u
    requires IndexFrom(u, t, p).Some?
    ensures IndexFrom(s, t, i + p) == Some(i + IndexFrom(u, t, p).value)
    decreases |u| + 1 - p
  {
    assert p + |t| <= |u|;
    SliceOfSlice(s, i, i + |u|, p, p + |t|);
    MatchesAtIff(s, t, i + p);
    MatchesAtIff(u, t, p);
    if !MatchesAt(u, t, p) {
      IndexFromInside(s, u, t, i, p + 1);
    }
  }

  /** Where `body + t` sits at `j` and the first `t` in it is the final one, the first `t` from `j` on ends the body. */
  lemma FirstAfter(s: string, j: nat, body: string, t: string)
    requires j + |body + t| <= |s| && s[j..j + |body + t|] == body + t && IndexOf(body + t, t) == Some(|body|)
    ensures IndexFrom(s, t, j) == Some(j + |body|)
  {
    IndexFromInside(s, body + t, t, j, 0);
  }

  /** The first position from `i` on that holds `c`. */
  function FindChar(s: string, c: char, i: nat): (r: Option<nat>)
    ensures r.Some? ==> i <= r.value < |s| && s[r.value] == c
    decreases |s| - i
  {
    if i >= |s| then None
    else if s[i] == c then Some(i)
    else FindChar(s, c, i + 1)
  }

  /** No position before the one `FindChar` finds holds `c`, and `None` means no position from `i` on does. */
  lemma {:induction false} FindCharFirst(s: string, c: char, i: nat)
    ensures FindChar(s, c, i).Some? ==> forall j :: i <= j < FindChar(s, c, i).value ==> s[j] != c
    ensures FindChar(s, c, i).None? ==> forall j :: i <= j < |s| ==> s[j] != c
    decreases |s| - i
  {
    if i < |s| && s[i] != c {
      FindCharFirst(s, c, i + 1);
    }
  }

  /** The first `c` from `i` on is at `k` when `k` holds it and nothing between does. */
  lemma FindCharAt(s: string, c: char, i: nat, k: nat)
    requires i <= k < |s| && s[k] == c && forall p :: i <= p < k ==> s[p] != c
    ensures FindChar(s, c, i) == Some(k)
  {
    FindCharFirst(s, c, i);
  }

  // ---------------------------------------------------------------------------
  // trim
  // ---------------------------------------------------------------------------

  /** The characters `String.prototype.trim` removes (ECMAScript WhiteSpace and LineTerminator). */
  predicate IsWhitespace(c: char) {
    c == ' ' || c == '\t' || c == '\n' || c == '\r' || c == '\U{000B}' || c == '\U{000C}'
    || c == '\U{00A0}' || c == '\U{1680}' || ('\U{2000}' <= c <= '\U{200A}')
    || c == '\U{2028}' || c == '\U{2029}' || c == '\U{202F}' || c == '\U{205F}'
    || c == '\U{3000}' || c == '\U{FEFF}'
  }

  /** Every character of `s` is whitespace (`s.trim() === ''`). */
  predicate IsBlank(s: string) {
    forall i :: 0 <= i < |s| ==> IsWhitespace(s[i])
  }

  function TrimStart(s: string): (r: string)
    ensures |r| <= |s| && r == s[|s| - |r|..]
    ensures r == "" <==> IsBlank(s)
    ensures r != "" ==> !IsWhitespace(r[0])
    decreases |s|
  {
    if |s| > 0 && IsWhitespace(s[0]) then
      var r := TrimStart(s[1..]);
      assert IsBlank(s[1..]) ==> IsBlank(s) by {
        if IsBlank(s[1..]) {
          forall i | 0 <= i < |s| ensures IsWhitespace(s[i]) {
            if i > 0 { assert s[1..][i - 1] == s[i]; }
          }
        }
      }
      assert IsBlank(s) ==> IsBlank(s[1..]) by {
        if IsBlank(s) {
          forall i | 0 <= i < |s| - 1 ensures IsWhitespace(s[1..][i]) { assert s[1..][i] == s[i + 1]; }
        }
      }
      r
    else
      assert s != "" ==> !IsBlank(s);
      s
  }

  function TrimEnd(s: string): (r: string)
    ensures |r| <= |s| && r == s[..|r|]
    ensures r == "" <==> IsBlank(s)
    ensures r != "" ==> !IsWhitespace(r[|r| - 1])
    ensures r != "" && !IsWhitespace(s[0]) ==> !IsWhitespace(r[0])
    decreases |s|
  {
    if |s| > 0 && IsWhitespace(s[|s| - 1]) then
      var p := s[..|s| - 1];
      var r := TrimEnd(p);
      assert IsBlank(p) ==> IsBlank(s) by {
        if IsBlank(p) {
          forall i | 0 <= i < |s| ensures IsWhitespace(s[i]) {
            if i < |s| - 1 { assert p[i] == s[i]; }
          }
        }
      }
      assert IsBlank(s) ==> IsBlank(p) by {
        if IsBlank(s) {
          forall i | 0 <= i < |p| ensures IsWhitespace(p[i]) { assert p[i] == s[i]; }
        }
      }
      assert r != "" ==> p[0] == s[0];
      r
    else
      assert s != "" ==> !IsBlank(s);
      s
  }

  /**
   * `s.trim()`: the empty string exactly when `s` is blank, otherwise a slice of
   * `s` that neither starts nor ends with whitespace.
   */
  function Trim(s: string): (r: string)
    ensures r == "" <==> IsBlank(s)
    ensures r != "" ==> !IsWhitespace(r[0]) && !IsWhitespace(r[|r| - 1])
    ensures |r| <= |s|
  {
    var t := TrimStart(s);
    assert IsBlank(t) ==> IsBlank(s) by {
      if t != "" { assert !IsWhitespace(t[0]); }
    }
    TrimEnd(t)
  }

  /** A string with no surrounding whitespace is its own trim, so trimming twice is trimming once. */
  lemma {:induction false} TrimIdempotent(s: string)
    ensures Trim(Trim(s)) == Trim(s)
  {
    var r := Trim(s);
    if r != "" {
      assert TrimStart(r) == r;
      assert TrimEnd(r) == r;
    }
  }

  // ---------------------------------------------------------------------------
  // toLowerCase (ASCII)
  // ---------------------------------------------------------------------------

  function LowerChar(c: char): char {
    if 'A' <= c <= 'Z' then (c as int + 32) as char else c
  }

  /** `s.toLowerCase()` restricted to the ASCII letters A-Z. */
  function ToLower(s: string): (r: string)
    ensures |r| == |s|
    ensures forall i :: 0 <= i < |s| ==> r[i] == LowerChar(s[i])
  {
    seq(|s|, i requires 0 <= i < |s| => LowerChar(s[i]))
  }

  /** Lower-casing is idempotent. */
  lemma ToLowerIdempotent(s: string)
    ensures ToLower(ToLower(s)) == ToLower(s)
  {
  }

  // ---------------------------------------------------------------------------
  // split / join on one separator character
  // ---------------------------------------------------------------------------

  function Init<T>(s: seq<T>): seq<T>
    requires |s| > 0
  {
    s[..|s| - 1]
  }

  function Last<T>(s: seq<T>): T
    requires |s| > 0
  {
    s[|s| - 1]
  }

  /** `s.split(sep)` for a one-character separator: never empty, `[""]` for `""`. */
  function Split(s: string, sep: char): (r: seq<string>)
    ensures |r| >= 1
    decreases |s|
  {
    if |s| == 0 then [""]
    else if s[0] == sep then [""] + Split(s[1..], sep)
    else
      var t := Split(s[1..], sep);
      [[s[0]] + t[0]] + t[1..]
  }

  /** `parts.join([sep])` */
  function Join(parts: seq<string>, sep: char): string
    decreases |parts|
  {
    if |parts| == 0 then ""
    else if |parts| == 1 then parts[0]
    else parts[0] + [sep] + Join(parts[1..], sep)
  }

  /** The pieces `split` returns never contain the separator. */
  lemma {:induction false} SplitPiecesHaveNoSeparator(s: string, sep: char)
    ensures forall k :: 0 <= k < |Split(s, sep)| ==> sep !in Split(s, sep)[k]
    decreases |s|
  {
    if |s| > 0 {
      SplitPiecesHaveNoSeparator(s[1..], sep);
    }
  }

  /** A string without the separator splits into itself alone. */
  lemma {:induction false} SplitWithoutSeparator(s: string, sep: char)
    requires sep !in s
    ensures Split(s, sep) == [s]
    decreases |s|
  {
    if |s| > 0 {
      assert sep !in s[1..] by {
        forall k | 0 <= k < |s| - 1 ensures s[1..][k] != sep { assert s[1..][k] == s[k + 1]; }
      }
      SplitWithoutSeparator(s[1..], sep);
      assert [s[0]] + s[1..] == s;
    }
  }

  /** Joining what `split` returned gives back the original string. */
  lemma {:induction false} JoinSplit(s: string, sep: char)
    ensures Join(Split(s, sep), sep) == s
    decreases |s|
  {
    if |s| > 0 {
      JoinSplit(s[1..], sep);
      var t := Split(s[1..], sep);
      JoinFirstPiece(s[0], t, sep);
      assert [s[0]] + s[1..] == s;
    }
  }

  /** Joining after a separator or a character put in front of the first piece is putting it in front of the join. */
  lemma JoinFirstPiece(c: char, t: seq<string>, sep: char)
    requires |t| >= 1
    ensures Join([""] + t, sep) == [sep] + Join(t, sep)
    ensures Join([[c] + t[0]] + t[1..], sep) == [c] + Join(t, sep)
  {
    assert ([""] + t)[1..] == t;
    var r := [[c] + t[0]] + t[1..];
    assert r[1..] == t[1..];
  }

  /**
   * Splitting a concatenation: the complete pieces of `a` stay as they are and
   * the last (unterminated) piece of `a` is continued by `b`. This is what makes
   * a carry-over buffer correct.
   */
  lemma {:induction false} SplitConcat(a: string, b: string, sep: char)
    ensures Split(a + b, sep) == Init(Split(a, sep)) + Split(Last(Split(a, sep)) + b, sep)
    decreases |a|
  {
    if |a| == 0 {
      assert a + b == b;
    } else {
      var c, a' := a[0], a[1..];
      assert (a + b)[0] == c && (a + b)[1..] == a' + b;
      SplitConcat(a', b, sep);
      var s', t := Split(a', sep), Split(a' + b, sep);
      var tail := Split(Last(s') + b, sep);
      if c == sep {
        assert Split(a + b, sep) == [""] + t;
        assert Split(a, sep) == [""] + s';
        PrependPiece(s', t, tail);
      } else if |s'| > 1 {
        assert Split(a + b, sep) == [[c] + t[0]] + t[1..];
        assert Split(a, sep) == [[c] + s'[0]] + s'[1..];
        ExtendFirstOfMany(c, s', t, tail);
      } else {
        assert Split(a + b, sep) == [[c] + t[0]] + t[1..];
        assert Split(a, sep) == [[c] + s'[0]];
        var w := [c] + s'[0] + b;
        assert w[0] == c && w[1..] == s'[0] + b;
      }
    }
  }

  /** Putting a piece in front commutes with appending pieces after the last one. */
  lemma PrependPiece(s': seq<string>, t: seq<string>, tail: seq<string>)
    requires |s'| >= 1 && t == Init(s') + tail
    ensures [""] + t == Init([""] + s') + tail && Last([""] + s') == Last(s')
  {
  }

  /** Prefixing the first of several pieces with `c` commutes with appending pieces after the last one. */
  lemma ExtendFirstOfMany(c: char, s': seq<string>, t: seq<string>, tail: seq<string>)
    requires |s'| > 1 && t == Init(s') + tail
    ensures [[c] + t[0]] + t[1..] == Init([[c] + s'[0]] + s'[1..]) + tail
    ensures Last([[c] + s'[0]] + s'[1..]) == Last(s')
  {
    assert t[1..] == Init(s')[1..] + tail;
  }

  /** A separator-free piece followed by the separator splits into that piece and `""`. */
  lemma {:induction false} SplitPieceThenSeparator(l: string, sep: char)
    requires sep !in l
    ensures Split(l + [sep], sep) == [l, ""]
    decreases |l|
  {
    if |l| == 0 {
      assert l + [sep] == [sep];
      assert Split([sep], sep) == [""] + Split([], sep);
    } else {
      assert (l + [sep])[1..] == l[1..] + [sep];
      assert sep !in l[1..] by {
        forall k | 0 <= k < |l| - 1 ensures l[1..][k] != sep { assert l[1..][k] == l[k + 1]; }
      }
      SplitPieceThenSeparator(l[1..], sep);
      assert [l[0]] + l[1..] == l;
    }
  }

  /** When `s` ends with the separator, its last piece is empty. */
  lemma {:induction false} SplitEndingInSeparator(s: string, sep: char)
    requires |s| > 0 && s[|s| - 1] == sep
    ensures Last(Split(s, sep)) == ""
  {
    var p := s[..|s| - 1];
    assert s == p + [sep];
    SplitConcat(p, [sep], sep);
    SplitPiecesHaveNoSeparator(p, sep);
    SplitPieceThenSeparator(Last(Split(p, sep)), sep);
  }

  /** `s.split('.').pop()`: the text after the last separator (all of `s` when there is none). */
  function LastPiece(s: string, sep: char): (r: string)
    ensures sep !in r
  {
    SplitPiecesHaveNoSeparator(s, sep);
    Last(Split(s, sep))
  }

  // ---------------------------------------------------------------------------
  // slice(0, n) and decimal rendering
  // ---------------------------------------------------------------------------

  /** `s.slice(0, n)` for `n >= 0`: the first `n` characters, or all of them. */
  function Take(s: string, n: nat): (r: string)
    ensures |r| == if |s| < n then |s| else n
    ensures r == s[..|r|]
  {
    if |s| <= n then s else s[..n]
  }

  predicate IsDigit(c: char) {
    '0' <= c <= '9'
  }

  /** `String(n)` for a natural number. */
  function NatToString(n: nat): (r: string)
    ensures |r| >= 1
    ensures n >= 10 ==> |r| >= 2
    ensures forall k :: 0 <= k < |r| ==> IsDigit(r[k])
  {
    if n < 10 then ['0' + n as char]
    else NatToString(n / 10) + ['0' + (n % 10) as char]
  }

  /** Different numbers render to different strings. */
  lemma {:induction false} NatToStringInjective(n: nat, m: nat)
    requires NatToString(n) == NatToString(m)
    ensures n == m
  {
    var s := NatToString(n);
    if n >= 10 && m >= 10 {
      assert NatToString(n / 10) == s[..|s| - 1] == NatToString(m / 10);
      NatToStringInjective(n / 10, m / 10);
      assert n % 10 == m % 10 by { assert s[|s| - 1] == '0' + (n % 10) as char == '0' + (m % 10) as char; }
    }
  }

  /** Consecutive numbers render differently. */
  lemma NatToStringSuccDiffers(n: nat)
    ensures NatToString(n) != NatToString(n + 1)
  {
    if NatToString(n) == NatToString(n + 1) {
      NatToStringInjective(n, n + 1);
    }
  }

  /** A run of digits ended by `stop` (not a digit) is determined by the string it starts. */
  lemma DigitPrefixUnique(d1: string, d2: string, stop: char, r1: string, r2: string)
    requires forall k :: 0 <= k < |d1| ==> IsDigit(d1[k])
    requires forall k :: 0 <= k < |d2| ==> IsDigit(d2[k])
    requires !IsDigit(stop)
    requires d1 + [stop] + r1 == d2 + [stop] + r2
    ensures d1 == d2
  {
    var x := d1 + [stop] + r1;
    assert forall k :: 0 <= k < |d1| ==> x[k] == d1[k];
    assert forall k :: 0 <= k < |d2| ==> x[k] == d2[k];
    assert x[|d1|] == stop && x[|d2|] == stop;
    assert |d1| == |d2|;
    assert d1 == x[..|d1|] == d2;
  }
}
