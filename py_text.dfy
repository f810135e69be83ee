/**
 * The piece of Python's string and list semantics that the connection-string
 * decomposition relies on: `str.split(sep)` with a non-empty separator, which
 * cuts at the non-overlapping occurrences of `sep` from left to right, and
 * list subscripting with negative indices and `IndexError`.
 */
module PyText {
  import opened Wrappers

  /** `sep` occurs in `s` starting at index `i`. */
  predicate OccursAt(s: string, sep: string, i: int) {
    0 <= i && i + |sep| <= |s| && s[i..i + |sep|] == sep
  }

  /** An occurrence at `j >= 1` in `s` is an occurrence at `j - 1` in `s[1..]`. */
  lemma OccursShift(s: string, sep: string)
    requires |s| > 0
    ensures forall j :: 1 <= j ==> (OccursAt(s, sep, j) <==> OccursAt(s[1..], sep, j - 1))
  {
    forall j | 1 <= j
      ensures OccursAt(s, sep, j) <==> OccursAt(s[1..], sep, j - 1)
    {
      if j + |sep| <= |s| {
        assert s[1..][j - 1..j - 1 + |sep|] == s[j..j + |sep|];
      }
    }
  }

  /** The index of the leftmost occurrence of `sep` in `s` (what `str.find` returns). */
  function Find(s: string, sep: string): (r: Option<nat>)
    requires |sep| > 0
    ensures r.Some? ==> OccursAt(s, sep, r.value)
    ensures r.Some? ==> forall j :: 0 <= j < r.value ==> !OccursAt(s, sep, j)
    ensures r.None? ==> forall j :: !OccursAt(s, sep, j)
    decreases |s|
  {
    if |s| < |sep| then None
    else if s[..|sep|] == sep then Some(0)
    else
      OccursShift(s, sep);
      match Find(s[1..], sep)
      case None => None
      case Some(i) => Some(i + 1)
  }

  /** `sep.join(pieces)`. */
  function Join(pieces: seq<string>, sep: string): string {
    if |pieces| == 0 then []
    else if |pieces| == 1 then pieces[0]
    else pieces[0] + sep + Join(pieces[1..], sep)
  }

  /** The text before the leftmost occurrence holds no occurrence of its own. */
  lemma PrefixFree(s: string, sep: string, i: nat)
    requires |sep| > 0 && Find(s, sep) == Some(i)
    ensures Find(s[..i], sep).None?
  {
    match Find(s[..i], sep)
    case None =>
    case Some(j) =>
      OccursInPrefix(s, sep, i, j);
      assert false;
  }

  /** An occurrence inside a prefix of `s` is an occurrence in `s`, at the same index. */
  lemma OccursInPrefix(s: string, sep: string, i: nat, j: int)
    requires i <= |s| && OccursAt(s[..i], sep, j)
    ensures OccursAt(s, sep, j) && j + |sep| <= i
  {
    assert s[..i][j..j + |sep|] == s[j..j + |sep|];
  }

  /**
   * `s.split(sep)`: the pieces between the non-overlapping occurrences of
   * `sep`, found from the left; there is always at least one piece.
   */
  function Split(s: string, sep: string): (r: seq<string>)
    requires |sep| > 0
    ensures |r| >= 1
    decreases |s|
  {
    match Find(s, sep)
    case None => [s]
    case Some(i) => [s[..i]] + Split(s[i + |sep|..], sep)
  }

  /** Joining the pieces of `s.split(sep)` back with `sep` gives `s`. */
  lemma {:induction false} SplitJoin(s: string, sep: string)
    requires |sep| > 0
    ensures Join(Split(s, sep), sep) == s
    decreases |s|
  {
    match Find(s, sep)
    case None =>
    case Some(i) =>
      var rest := Split(s[i + |sep|..], sep);
      SplitJoin(s[i + |sep|..], sep);
      assert ([s[..i]] + rest)[1..] == rest;
      assert s == s[..i] + sep + s[i + |sep|..] by {
        assert s[i..i + |sep|] == sep;
        assert s == s[..i] + s[i..i + |sep|] + s[i + |sep|..];
      }
  }

  /** No piece of `s.split(sep)` contains `sep`. */
  lemma {:induction false} SplitPiecesFree(s: string, sep: string)
    requires |sep| > 0
    ensures forall k :: 0 <= k < |Split(s, sep)| ==> Find(Split(s, sep)[k], sep).None?
    decreases |s|
  {
    match Find(s, sep)
    case None =>
    case Some(i) =>
      PrefixFree(s, sep, i);
      SplitPiecesFree(s[i + |sep|..], sep);
  }

  /** Python's `xs[i]`: negative indices count from the end; out of range is an `IndexError`. */
  function PyIndex<T>(xs: seq<T>, i: int): Option<T> {
    if 0 <= i < |xs| then Some(xs[i])
    else if -|xs| <= i < 0 then Some(xs[|xs| + i])
    else None
  }

  /** The number of occurrences of the character `c` in `s`. */
  function Count(s: string, c: char): nat {
    if s == [] then 0 else (if s[0] == c then 1 else 0) + Count(s[1..], c)
  }

  /** A single-character separator occurs exactly where that character stands. */
  lemma OccursChar(s: string, c: char)
    ensures forall j :: OccursAt(s, [c], j) <==> 0 <= j < |s| && s[j] == c
  {
    forall j | 0 <= j < |s|
      ensures OccursAt(s, [c], j) <==> s[j] == c
    {
      assert s[j..j + 1] == [s[j]];
    }
  }

  /** A string that lacks the separator's first character splits into itself. */
  lemma SplitFree(s: string, sep: string)
    requires |sep| > 0 && sep[0] !in s
    ensures Split(s, sep) == [s]
  {
  }

  /**
   * Cutting at the first separator: when the text `a` in front of a separator
   * does not contain the separator's first character, the split of
   * `a + sep + b` is `a` followed by the split of `b`.
   */
  lemma SplitLead(a: string, sep: string, b: string)
    requires |sep| > 0 && sep[0] !in a
    ensures Split(a + sep + b, sep) == [a] + Split(b, sep)
  {
    var s := a + sep + b;
    assert s[|a|..|a| + |sep|] == sep;
    assert OccursAt(s, sep, |a|);
    forall j | 0 <= j < |a|
      ensures !OccursAt(s, sep, j)
    {
      if j + |sep| <= |s| {
        assert s[j..j + |sep|][0] == a[j];
      }
    }
    assert Find(s, sep) == Some(|a|);
    assert s[..|a|] == a;
    assert s[|a| + |sep|..] == b;
  }

  /** `s.split(sep)` has a second piece exactly when `sep` occurs in `s`. */
  lemma SplitHasSecond(s: string, sep: string)
    requires |sep| > 0
    ensures |Split(s, sep)| >= 2 <==> Find(s, sep).Some?
  {
  }

  lemma CountAppend(a: string, b: string, c: char)
    ensures Count(a + b, c) == Count(a, c) + Count(b, c)
  {
    if a == [] {
      assert a + b == b;
    } else {
      assert (a + b)[1..] == a[1..] + b;
      CountAppend(a[1..], b, c);
    }
  }

  lemma CountAbsent(s: string, c: char)
    requires c !in s
    ensures Count(s, c) == 0
  {
    if s != [] {
      CountAbsent(s[1..], c);
    }
  }

  /** Splitting at a single character gives one piece more than there are occurrences. */
  lemma {:induction false} SplitCharCount(s: string, c: char)
    ensures |Split(s, [c])| == Count(s, c) + 1
    decreases |s|
  {
    OccursChar(s, c);
    match Find(s, [c])
    case None =>
      CountAbsent(s, c);
    case Some(i) =>
      PrefixFree(s, [c], i);
      OccursChar(s[..i], c);
      CountAbsent(s[..i], c);
      assert s == s[..i] + [c] + s[i + 1..] by {
        assert s[i..i + 1] == [c];
        assert s == s[..i] + s[i..i + 1] + s[i + 1..];
      }
      CountAppend(s[..i] + [c], s[i + 1..], c);
      CountAppend(s[..i], [c], c);
      assert Count([c], c) == 1;
      SplitCharCount(s[i + 1..], c);
  }

  /** Joined pieces end with the separator followed by the last piece. */
  lemma {:induction false} JoinLast(pieces: seq<string>, sep: string)
    requires |pieces| >= 2
    ensures Join(pieces, sep) == Join(pieces[..|pieces| - 1], sep) + sep + pieces[|pieces| - 1]
  {
    if |pieces| > 2 {
      JoinLast(pieces[1..], sep);
      assert pieces[1..][..|pieces| - 2] == pieces[..|pieces| - 1][1..];
    } else {
      assert pieces[..1] == [pieces[0]];
    }
  }

  /** Two delimiter-free pieces around one separator. */
  lemma SplitTwo(a: string, sep: string, b: string)
    requires |sep| > 0 && sep[0] !in a && sep[0] !in b
    ensures Split(a + sep + b, sep) == [a, b]
  {
    SplitLead(a, sep, b);
    SplitFree(b, sep);
  }

  /** Three delimiter-free pieces around two separators. */
  lemma SplitThree(a: string, sep: string, b: string, c: string)
    requires |sep| > 0 && sep[0] !in a && sep[0] !in b && sep[0] !in c
    ensures Split(a + sep + b + sep + c, sep) == [a, b, c]
  {
    RegroupThree(a, sep, b, c);
    SplitLead(a, sep, b + sep + c);
    SplitTwo(b, sep, c);
  }

  lemma RegroupThree(a: string, sep: string, b: string, c: string)
    ensures a + sep + b + sep + c == a + sep + (b + sep + c)
  {
  }

  /** Four delimiter-free pieces around three separators. */
  lemma SplitFour(a: string, sep: string, b: string, c: string, d: string)
    requires |sep| > 0 && sep[0] !in a && sep[0] !in b && sep[0] !in c && sep[0] !in d
    ensures Split(a + sep + b + sep + c + sep + d, sep) == [a, b, c, d]
  {
    RegroupFour(a, sep, b, c, d);
    SplitLeadThree(a, sep, b, c, d);
  }

  lemma RegroupFour(a: string, sep: string, b: string, c: string, d: string)
    ensures a + sep + b + sep + c + sep + d == a + sep + (b + sep + c + sep + d)
  {
  }

  lemma SplitLeadThree(a: string, sep: string, b: string, c: string, d: string)
    requires |sep| > 0 && sep[0] !in a && sep[0] !in b && sep[0] !in c && sep[0] !in d
    ensures Split(a + sep + (b + sep + c + sep + d), sep) == [a, b, c, d]
  {
    SplitLead(a, sep, b + sep + c + sep + d);
    SplitThree(b, sep, c, d);
  }
}
