/** The string operations the front end relies on: trimming, lower-casing,
    substring search, splitting on a separator and joining. Whitespace and
    case folding are ASCII-only here. */
module Text {
  import Seqs


  /** ASCII whitespace: space, tab, line feed, carriage return, vertical tab, form feed. */
  predicate IsSpace(c: char)
  {
    c == ' ' || c == '\t' || c == '\n' || c == '\r' || c == '\U{B}' || c == '\U{C}'
  }

  /** The first position at or after `i` that is not whitespace, or `|s|`. */
  function SkipSpaces(s: string, i: nat): (j: nat)
    requires i <= |s|
    ensures i <= j <= |s|
    ensures j < |s| ==> !IsSpace(s[j])
    ensures forall k :: i <= k < j ==> IsSpace(s[k])
    decreases |s| - i
  {
    if i < |s| && IsSpace(s[i]) then SkipSpaces(s, i + 1) else i
  }

  /** The end of `s[lo..hi]` once its trailing whitespace is dropped. */
  function SkipTrailing(s: string, lo: nat, hi: nat): (j: nat)
    requires lo <= hi <= |s|
    ensures lo <= j <= hi
    ensures j > lo ==> !IsSpace(s[j - 1])
    ensures forall k :: j <= k < hi ==> IsSpace(s[k])
    decreases hi - lo
  {
    if hi > lo && IsSpace(s[hi - 1]) then SkipTrailing(s, lo, hi - 1) else hi
  }

  /** Drops whitespace at both ends (`String.prototype.trim`); the result
      starts and ends with a non-space. */
  function Trim(s: string): (r: string)
    ensures IsTrimmed(r)
  {
    var a := SkipSpaces(s, 0);
    s[a..SkipTrailing(s, a, |s|)]
  }

  /** The trimmed string is the slice of `s` after its leading whitespace,
      and everything cut off is whitespace. */
  lemma TrimSlice(s: string)
    ensures TrimmedAt(s, Trim(s), SkipSpaces(s, 0))
  {
  }

  /** Neither end of `s` is whitespace. */
  predicate IsTrimmed(s: string)
  {
    s == [] || (!IsSpace(s[0]) && !IsSpace(s[|s| - 1]))
  }

  /** `r` is the slice of `s` at `k` and only whitespace lies outside it. */
  predicate TrimmedAt(s: string, r: string, k: int)
  {
    0 <= k <= |s| - |r|
    && (forall i :: 0 <= i < |r| ==> r[i] == s[k + i])
    && (forall i :: 0 <= i < k ==> IsSpace(s[i]))
    && (forall i :: k + |r| <= i < |s| ==> IsSpace(s[i]))
  }

  /** A string is blank when it holds only whitespace. */
  predicate IsBlank(s: string)
  {
    forall i :: 0 <= i < |s| ==> IsSpace(s[i])
  }

  /** Blank is exactly what trims to nothing, the test the front end writes
      as a falsy trimmed string. */
  lemma BlankIffTrimEmpty(s: string)
    ensures IsBlank(s) <==> Trim(s) == []
  {
    TrimSlice(s);
  }

  /** Trimming a string that is already trimmed changes nothing. */
  lemma TrimTrimmed(s: string)
    requires IsTrimmed(s)
    ensures Trim(s) == s
  {
  }

  /** Trims every piece, keeping their order. */
  function TrimAll(pieces: seq<string>): (r: seq<string>)
    ensures |r| == |pieces|
    ensures forall i :: 0 <= i < |r| ==> r[i] == Trim(pieces[i])
  {
    if pieces == [] then [] else [Trim(pieces[0])] + TrimAll(pieces[1..])
  }

  predicate NonEmpty(s: string) { |s| > 0 }

  /** Trimming cuts only whitespace away, so it adds no separator. */
  lemma TrimmedPiece(p: string, sep: char)
    requires sep !in p
    ensures IsTrimmed(Trim(p)) && sep !in Trim(p)
  {
    TrimSlice(p);
  }

  /** Trimmed pieces of a split are trimmed and hold no separator. */
  lemma TrimmedPieces(pieces: seq<string>, sep: char)
    requires forall i :: 0 <= i < |pieces| ==> sep !in pieces[i]
    ensures forall x :: x in TrimAll(pieces) ==> IsTrimmed(x) && sep !in x
  {
    var t := TrimAll(pieces);
    forall i | 0 <= i < |t|
      ensures IsTrimmed(t[i]) && sep !in t[i]
    {
      TrimmedPiece(pieces[i], sep);
    }
  }

  /** A leading space in front of a trimmed, non-empty string is trimmed away. */
  lemma TrimAfterSpace(s: string)
    requires s != [] && IsTrimmed(s)
    ensures Trim([' '] + s) == s
  {
    var t := [' '] + s;
    assert SkipSpaces(t, 1) == 1;
    assert SkipSpaces(t, 0) == 1;
    assert SkipTrailing(t, 1, |t|) == |t|;
    assert t[1..|t|] == s;
  }

  /** ASCII lower-casing of one character. */
  function Lower(c: char): char
  {
    if 'A' <= c <= 'Z' then (c as int + 32) as char else c
  }

  /** ASCII lower-casing of a string, character by character. */
  function ToLower(s: string): (r: string)
    ensures |r| == |s|
    ensures forall i :: 0 <= i < |s| ==> r[i] == Lower(s[i])
  {
    seq(|s|, i requires 0 <= i < |s| => Lower(s[i]))
  }

  predicate StartsWith(s: string, prefix: string)
  {
    |prefix| <= |s| && s[..|prefix|] == prefix
  }

  /** `sub` sits in `s` at position `i`. */
  predicate OccursAt(s: string, sub: string, i: int)
  {
    0 <= i <= |s| - |sub| && s[i..i + |sub|] == sub
  }

  /** Substring search: `sub` occurs somewhere in `s`. */
  function Contains(s: string, sub: string): (b: bool)
    ensures b <==> exists i :: OccursAt(s, sub, i)
    decreases |s|
  {
    if StartsWith(s, sub) then
      assert OccursAt(s, sub, 0);
      true
    else if s == [] then
      false
    else
      var b := Contains(s[1..], sub);
      assert b ==> exists i :: OccursAt(s, sub, i) by {
        if b {
          var j :| OccursAt(s[1..], sub, j);
          assert s[1..][j..j + |sub|] == s[j + 1..j + 1 + |sub|];
          assert OccursAt(s, sub, j + 1);
        }
      }
      assert (exists i :: OccursAt(s, sub, i)) ==> b by {
        if exists i :: OccursAt(s, sub, i) {
          var i :| OccursAt(s, sub, i);
          assert i != 0;
          assert s[1..][i - 1..i - 1 + |sub|] == s[i..i + |sub|];
          assert OccursAt(s[1..], sub, i - 1);
        }
      }
      b
  }

  /** `sub` occurs in `s` once both are lower-cased. */
  predicate ContainsIgnoringCase(s: string, sub: string)
  {
    Contains(ToLower(s), ToLower(sub))
  }

  /** Splitting on a separator character: the pieces between occurrences
      of `sep`, so there is always at least one piece. */
  function Split(s: string, sep: char): (r: seq<string>)
    ensures |r| >= 1
    ensures forall i :: 0 <= i < |r| ==> sep !in r[i]
    decreases |s|
  {
    if s == [] then [""]
    else if s[0] == sep then [""] + Split(s[1..], sep)
    else
      var rest := Split(s[1..], sep);
      [[s[0]] + rest[0]] + rest[1..]
  }

  /** Joins pieces with a separator string between consecutive pieces. */
  function Join(parts: seq<string>, sep: string): string
  {
    if parts == [] then ""
    else if |parts| == 1 then parts[0]
    else parts[0] + sep + Join(parts[1..], sep)
  }

  /** Splitting a joined text gives back every piece. */
  lemma {:induction false} JoinSplit(s: string, sep: char)
    ensures Join(Split(s, sep), [sep]) == s
    decreases |s|
  {
    if s == [] {
    } else if s[0] == sep {
      JoinSplit(s[1..], sep);
      assert s == [sep] + s[1..];
    } else {
      JoinSplit(s[1..], sep);
      var rest := Split(s[1..], sep);
      assert s == [s[0]] + s[1..];
      if |rest| == 1 {
      } else {
        assert rest == [rest[0]] + rest[1..];
      }
    }
  }

  /** A piece without the separator followed by the separator splits off as the first piece. */
  lemma {:induction false} SplitAfterPiece(a: string, sep: char, rest: string)
    requires sep !in a
    ensures Split(a + [sep] + rest, sep) == [a] + Split(rest, sep)
    decreases |a|
  {
    if a == [] {
      assert a + [sep] + rest == [sep] + rest;
    } else {
      assert (a + [sep] + rest)[1..] == a[1..] + [sep] + rest;
      SplitAfterPiece(a[1..], sep, rest);
      assert [a[0]] + a[1..] == a;
    }
  }

  lemma {:induction false} SplitNoSeparator(a: string, sep: char)
    requires sep !in a
    ensures Split(a, sep) == [a]
    decreases |a|
  {
    if a != [] {
      SplitNoSeparator(a[1..], sep);
      assert [a[0]] + a[1..] == a;
    }
  }

  /** Splitting at one separator splits each side on its own. */
  lemma {:induction false} SplitConcat(a: string, sep: char, b: string)
    ensures Split(a + [sep] + b, sep) == Split(a, sep) + Split(b, sep)
    decreases |a|
  {
    if a == [] {
      assert a + [sep] + b == [sep] + b;
    } else {
      assert (a + [sep] + b)[1..] == a[1..] + [sep] + b;
      SplitConcat(a[1..], sep, b);
    }
  }

  /** Trimming piece by piece distributes over concatenation. */
  lemma TrimAllConcat(x: seq<string>, y: seq<string>)
    ensures TrimAll(x + y) == TrimAll(x) + TrimAll(y)
  {
  }

  /** The pieces of `s` between separators, each trimmed, empty ones
      dropped, in their order in `s`. */
  function Pieces(s: string, sep: char): (r: seq<string>)
    ensures forall x :: x in r ==> x != [] && IsTrimmed(x) && sep !in x
  {
    TrimmedPieces(Split(s, sep), sep);
    Seqs.Filter(TrimAll(Split(s, sep)), NonEmpty)
  }

  /** The pieces on either side of a separator come in order, left side first. */
  lemma PiecesConcat(a: string, sep: char, b: string)
    ensures Pieces(a + [sep] + b, sep) == Pieces(a, sep) + Pieces(b, sep)
  {
    SplitConcat(a, sep, b);
    TrimAllConcat(Split(a, sep), Split(b, sep));
    Seqs.FilterConcat(TrimAll(Split(a, sep)), TrimAll(Split(b, sep)), NonEmpty);
  }

  /** A text without a separator is one piece: its trimmed self, or none
      when that is empty. */
  lemma PiecesSingle(a: string, sep: char)
    requires sep !in a
    ensures Pieces(a, sep) == if Trim(a) == [] then [] else [Trim(a)]
  {
    SplitNoSeparator(a, sep);
    assert TrimAll([a]) == [Trim(a)];
  }
}
