/** Splitting and joining strings at a separator character. */
module Text {

  /** The pieces between the separators; a string without separator is one piece. */
  function SplitAll(s: string, sep: char): (pieces: seq<string>)
    ensures pieces != []
  {
    if s == "" then [""]
    else
      var rest := SplitAll(s[1..], sep);
      if s[0] == sep then [""] + rest else [[s[0]] + rest[0]] + rest[1..]
  }

  function NonEmpty(pieces: seq<string>): seq<string> {
    if pieces == [] then []
    else (if pieces[0] == "" then [] else [pieces[0]]) + NonEmpty(pieces[1..])
  }

  function Split(s: string, sep: char): seq<string> { NonEmpty(SplitAll(s, sep)) }

  function Join(pieces: seq<string>, sep: char): string {
    if pieces == [] then ""
    else if |pieces| == 1 then pieces[0]
    else pieces[0] + [sep] + Join(pieces[1..], sep)
  }

  predicate Free(pieces: seq<string>, sep: char) { forall i | 0 <= i < |pieces| :: sep !in pieces[i] }

  predicate NoneEmpty(pieces: seq<string>) { forall i | 0 <= i < |pieces| :: pieces[i] != "" }

  /** The position of the first separator from `i` on, or the length of the string. */
  function FindAt(s: string, sep: char, i: nat): (r: nat)
    requires i <= |s|
    ensures i <= r <= |s| && (r < |s| ==> s[r] == sep) && forall j | i <= j < r :: s[j] != sep
    decreases |s| - i
  {
    if i == |s| || s[i] == sep then i else FindAt(s, sep, i + 1)
  }

  // ---------------------------------------------------------------- the loop

  function Pieces(s: string, sep: char, allowEmptyEntries: bool): seq<string> {
    if allowEmptyEntries then SplitAll(s, sep) else Split(s, sep)
  }

  /** What a piece adds to the result. */
  function Kept(piece: string, allowEmptyEntries: bool): seq<string> {
    if allowEmptyEntries || piece != "" then [piece] else []
  }

  /** `String::split` and `String::splitAllowingEmptyEntries`. */
  method SplitInternal(s: string, sep: char, allowEmptyEntries: bool) returns (result: seq<string>)
    ensures result == Pieces(s, sep, allowEmptyEntries)
  {
    result := [];
    var start := 0;
    var end := FindFrom(s, sep, start);
    assert FoundUpTo(s, sep, allowEmptyEntries, start, result) by { assert s[0..] == s; }
    while end < |s|
      invariant start <= end <= |s| && sep !in s[start..end] && (end < |s| ==> s[end] == sep)
      invariant FoundUpTo(s, sep, allowEmptyEntries, start, result)
      decreases |s| - start
    {
      NextPiece(s, start, end, sep, allowEmptyEntries, result);
      if allowEmptyEntries || start != end {
        result := result + [s[start..end]];
      } else {
        assert result + [] == result;
      }
      start := end + 1;
      end := FindFrom(s, sep, start);
    }
    assert s[start..end] == s[start..];
    LastPiece(s[start..], sep, allowEmptyEntries);
    if allowEmptyEntries || start != |s| { result := result + [s[start..]]; } else { assert result + [] == result; }
  }

  /** The result holds the pieces before `start`. */
  ghost predicate FoundUpTo(s: string, sep: char, allowEmptyEntries: bool, start: nat, found: seq<string>) {
    start <= |s| && Pieces(s, sep, allowEmptyEntries) == found + Pieces(s[start..], sep, allowEmptyEntries)
  }

  /** The next separator from `start` on, or the length of the string. */
  method FindFrom(s: string, sep: char, start: nat) returns (end: nat)
    requires start <= |s|
    ensures start <= end <= |s| && sep !in s[start..end] && (end < |s| ==> s[end] == sep)
  {
    end := start;
    while end < |s| && s[end] != sep
      invariant start <= end <= |s| && sep !in s[start..end]
    {
      end := end + 1;
    }
  }

  lemma {:induction false} FirstPiece(a: string, b: string, sep: char, allowEmptyEntries: bool)
    requires sep !in a
    ensures Pieces(a + [sep] + b, sep, allowEmptyEntries)
         == Kept(a, allowEmptyEntries) + Pieces(b, sep, allowEmptyEntries)
  {
    SplitFirst(a, b, sep);
    assert ([a] + SplitAll(b, sep))[1..] == SplitAll(b, sep);
  }

  /** One turn of the loop, with the pieces found so far. */
  lemma {:induction false} NextPiece(s: string, start: nat, end: nat, sep: char, allowEmptyEntries: bool,
      found: seq<string>)
    requires start <= end < |s| && s[end] == sep && sep !in s[start..end]
    requires FoundUpTo(s, sep, allowEmptyEntries, start, found)
    ensures FoundUpTo(s, sep, allowEmptyEntries, end + 1, found + Kept(s[start..end], allowEmptyEntries))
  {
    FirstPiece(s[start..end], s[end + 1..], sep, allowEmptyEntries);
    assert s[start..] == s[start..end] + [sep] + s[end + 1..];
    Associate(found, Kept(s[start..end], allowEmptyEntries), Pieces(s[end + 1..], sep, allowEmptyEntries));
  }

  lemma {:induction false} Associate(a: seq<string>, b: seq<string>, c: seq<string>)
    ensures a + (b + c) == a + b + c
  {
  }

  lemma {:induction false} LastPiece(s: string, sep: char, allowEmptyEntries: bool)
    requires sep !in s
    ensures Pieces(s, sep, allowEmptyEntries) == Kept(s, allowEmptyEntries)
  {
    OnePiece(s, sep);
    assert [s][1..] == [];
    assert NonEmpty([s]) == (if s == "" then [] else [s]) + NonEmpty([]);
  }

  // ---------------------------------------------------------------- laws

  lemma {:induction false} OnePiece(s: string, sep: char)
    requires sep !in s
    ensures SplitAll(s, sep) == [s]
  {
    if s != "" {
      OnePiece(s[1..], sep);
      assert [s[0]] + s[1..] == s;
    }
  }

  lemma {:induction false} SplitFirst(a: string, b: string, sep: char)
    requires sep !in a
    ensures SplitAll(a + [sep] + b, sep) == [a] + SplitAll(b, sep)
  {
    var s := a + [sep] + b;
    if a == "" {
      assert s[1..] == b;
    } else {
      SplitFirst(a[1..], b, sep);
      assert s[1..] == a[1..] + [sep] + b && [a[0]] + a[1..] == a;
    }
  }

  lemma {:induction false} SplitAllFree(s: string, sep: char)
    ensures Free(SplitAll(s, sep), sep)
  {
    if s != "" { SplitAllFree(s[1..], sep); }
  }

  lemma {:induction false} NonEmptyKeeps(pieces: seq<string>, sep: char)
    requires Free(pieces, sep)
    ensures Free(NonEmpty(pieces), sep) && NoneEmpty(NonEmpty(pieces))
  {
    if pieces != [] { NonEmptyKeeps(pieces[1..], sep); }
  }

  lemma {:induction false} NonEmptyIdentity(pieces: seq<string>)
    requires NoneEmpty(pieces)
    ensures NonEmpty(pieces) == pieces
  {
    if pieces != [] { NonEmptyIdentity(pieces[1..]); }
  }

  /** Pieces of a split are free of separators and not empty. */
  lemma {:induction false} SplitPieces(s: string, sep: char)
    ensures Free(Split(s, sep), sep) && NoneEmpty(Split(s, sep))
  {
    SplitAllFree(s, sep);
    NonEmptyKeeps(SplitAll(s, sep), sep);
  }

  /** Splitting a concatenation at a separator splits both parts. */
  lemma {:induction false} SplitAllConcat(a: string, b: string, sep: char)
    ensures SplitAll(a + [sep] + b, sep) == SplitAll(a, sep) + SplitAll(b, sep)
  {
    if a == "" {
      assert a + [sep] + b == [sep] + b;
      SplitAllHead(sep, b, sep);
    } else {
      SplitAllConcat(a[1..], b, sep);
      assert a + [sep] + b == [a[0]] + (a[1..] + [sep] + b) && a == [a[0]] + a[1..];
      SplitAllHead(a[0], a[1..] + [sep] + b, sep);
      SplitAllHead(a[0], a[1..], sep);
      PrependConcat(a[0], SplitAll(a[1..], sep), SplitAll(b, sep), sep);
    }
  }

  /** A character in front of some pieces. */
  function Prepend(c: char, pieces: seq<string>, sep: char): seq<string>
    requires pieces != []
  {
    if c == sep then [""] + pieces else [[c] + pieces[0]] + pieces[1..]
  }

  lemma {:induction false} SplitAllHead(c: char, s: string, sep: char)
    ensures SplitAll([c] + s, sep) == Prepend(c, SplitAll(s, sep), sep)
  {
    assert ([c] + s)[1..] == s;
  }

  lemma {:induction false} PrependConcat(c: char, x: seq<string>, y: seq<string>, sep: char)
    requires x != []
    ensures Prepend(c, x + y, sep) == Prepend(c, x, sep) + y
  {
    assert (x + y)[1..] == x[1..] + y && (x + y)[0] == x[0];
  }

  /** Splitting and joining again gives the string back. */
  lemma {:induction false} JoinSplitAll(s: string, sep: char)
    ensures Join(SplitAll(s, sep), sep) == s
  {
    if s != "" {
      JoinSplitAll(s[1..], sep);
      var rest := SplitAll(s[1..], sep);
      if s[0] == sep {
        assert ([""] + rest)[1..] == rest && s == [sep] + s[1..];
      } else {
        JoinHead(rest, s[0], sep);
        assert s == [s[0]] + s[1..];
      }
    }
  }

  lemma {:induction false} JoinHead(pieces: seq<string>, c: char, sep: char)
    requires pieces != []
    ensures Join([[c] + pieces[0]] + pieces[1..], sep) == [c] + Join(pieces, sep)
  {
    var all := [[c] + pieces[0]] + pieces[1..];
    assert all[1..] == pieces[1..];
    if |pieces| > 1 {
      var rest := Join(pieces[1..], sep);
      assert [c] + pieces[0] + [sep] + rest == [c] + (pieces[0] + [sep] + rest);
    }
  }

  /** Joining and splitting again gives the pieces back. */
  lemma {:induction false} SplitAllJoin(pieces: seq<string>, sep: char)
    requires pieces != [] && Free(pieces, sep)
    ensures SplitAll(Join(pieces, sep), sep) == pieces
  {
    if |pieces| == 1 {
      OnePiece(pieces[0], sep);
    } else {
      SplitAllJoin(pieces[1..], sep);
      SplitFirst(pieces[0], Join(pieces[1..], sep), sep);
      assert pieces == [pieces[0]] + pieces[1..];
    }
  }

  lemma {:induction false} SplitJoin(pieces: seq<string>, sep: char)
    requires Free(pieces, sep) && NoneEmpty(pieces)
    ensures Split(Join(pieces, sep), sep) == pieces
  {
    if pieces == [] {
      assert [""][1..] == [] && NonEmpty([""]) == [];
    } else {
      SplitAllJoin(pieces, sep);
      NonEmptyIdentity(pieces);
    }
  }

  lemma {:induction false} NonEmptyConcat(a: seq<string>, b: seq<string>)
    ensures NonEmpty(a + b) == NonEmpty(a) + NonEmpty(b)
  {
    if a == [] {
      assert a + b == b;
    } else {
      assert (a + b)[1..] == a[1..] + b;
      NonEmptyConcat(a[1..], b);
    }
  }

  lemma {:induction false} JoinSnoc(pieces: seq<string>, last: string, sep: char)
    requires pieces != []
    ensures Join(pieces + [last], sep) == Join(pieces, sep) + [sep] + last
  {
    var all := pieces + [last];
    if |pieces| == 1 {
      assert all[1..] == [last];
    } else {
      assert all[1..] == pieces[1..] + [last];
      JoinSnoc(pieces[1..], last, sep);
      assert pieces[0] + [sep] + (Join(pieces[1..], sep) + [sep] + last)
          == pieces[0] + [sep] + Join(pieces[1..], sep) + [sep] + last;
    }
  }
}
