/**
 * NUL-terminated strings as the C code sees them. A C `char` is modelled as a
 * Dafny `char`; nothing in the model interprets a character other than NUL,
 * ',' and ' ', so the width of a character never matters.
 */
module CStrings {

  const NUL: char := '\0'

  /**
   * The string `strlen` measures at the start of `s`: every character before
   * the first NUL, or all of `s` when it holds no NUL.
   */
  function CStr(s: seq<char>): (r: seq<char>)
    ensures r <= s
    ensures NUL !in r
    ensures |r| == |s| || s[|r|] == NUL
    ensures NUL !in s ==> r == s
  {
    if s == [] || s[0] == NUL then [] else [s[0]] + CStr(s[1..])
  }

  /** A NUL-free string followed by its terminator reads back as itself. */
  lemma {:induction false} CStrOfTerminated(s: seq<char>, rest: seq<char>)
    requires NUL !in s
    ensures CStr(s + [NUL] + rest) == s
  {
    if s != [] {
      assert (s + [NUL] + rest)[1..] == s[1..] + [NUL] + rest;
      CStrOfTerminated(s[1..], rest);
    }
  }

  /** The pieces joined in order, with nothing inserted between them. */
  function Concat(pieces: seq<seq<char>>): seq<char>
  {
    if pieces == [] then [] else pieces[0] + Concat(pieces[1..])
  }

  /** Appending one more piece appends its characters at the end. */
  lemma {:induction false} ConcatAppend(pieces: seq<seq<char>>, p: seq<char>)
    ensures Concat(pieces + [p]) == Concat(pieces) + p
  {
    if pieces == [] {
      assert [p][1..] == [];
    } else {
      assert (pieces + [p])[1..] == pieces[1..] + [p];
      ConcatAppend(pieces[1..], p);
    }
  }

  /** Cutting the list of pieces anywhere cuts the joined string at the matching place. */
  lemma {:induction false} ConcatSplit(pieces: seq<seq<char>>, k: nat)
    requires k <= |pieces|
    ensures Concat(pieces) == Concat(pieces[..k]) + Concat(pieces[k..])
  {
    if k > 0 {
      assert pieces[..k][1..] == pieces[1..][..k - 1];
      assert pieces[k..] == pieces[1..][k - 1..];
      ConcatSplit(pieces[1..], k - 1);
    } else {
      assert pieces[k..] == pieces;
    }
  }

  /** Piece `k` sits in the joined string right after the pieces before it. */
  lemma PieceInConcat(pieces: seq<seq<char>>, k: nat)
    requires k < |pieces|
    ensures var at := |Concat(pieces[..k])|;
      at + |pieces[k]| <= |Concat(pieces)| &&
      Concat(pieces)[at..at + |pieces[k]|] == pieces[k]
  {
    ConcatSplit(pieces, k);
    var tail := pieces[k..];
    assert tail[0] == pieces[k];
    assert Concat(tail) == pieces[k] + Concat(tail[1..]);
  }

  /** Joining NUL-free pieces gives a NUL-free string. */
  lemma {:induction false} ConcatNulFree(pieces: seq<seq<char>>)
    requires forall i :: 0 <= i < |pieces| ==> NUL !in pieces[i]
    ensures NUL !in Concat(pieces)
  {
    if pieces != [] {
      ConcatNulFree(pieces[1..]);
    }
  }
}
