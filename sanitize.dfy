/**
 * The doubled-comma rewrite that translate_box applies to the response buffer
 * before handing it to the JSON parser. The loop walks from the right but
 * compares each character with its left neighbour, so every comma that follows
 * a comma in the ORIGINAL text becomes a space: ",,," becomes ",  ".
 */
module CommaSanitizer {
  import opened CStrings

  /** Whether `s` has a comma immediately followed by another comma. */
  predicate HasDoubledComma(s: seq<char>)
  {
    exists j :: 0 < j < |s| && s[j - 1] == ',' && s[j] == ','
  }

  /** What the loop leaves at position `j` of the original text `s`. */
  function Scrubbed(s: seq<char>, j: nat): char
    requires j < |s|
  {
    if 0 < j && s[j - 1] == ',' && s[j] == ',' then ' ' else s[j]
  }

  /** The text after the rewrite, built one position at a time from the right end. */
  function Sanitized(s: seq<char>): (r: seq<char>)
    ensures |r| == |s|
  {
    if |s| < 2 then s else Sanitized(s[..|s| - 1]) + [Scrubbed(s, |s| - 1)]
  }

  /**
   * Position by position: character `j` becomes a space exactly when `j > 0`
   * and the original characters `j - 1` and `j` are both commas; every other
   * character, the first one included, is left as it was.
   */
  lemma {:induction false} SanitizedAt(s: seq<char>, j: nat)
    requires j < |s|
    ensures Sanitized(s)[j] == if 0 < j && s[j - 1] == ',' && s[j] == ',' then ' ' else s[j]
  {
    if |s| >= 2 && j < |s| - 1 {
      SanitizedAt(s[..|s| - 1], j);
    }
  }

  /** After the rewrite no comma is followed by another comma. */
  lemma NoDoubledCommaRemains(s: seq<char>)
    ensures !HasDoubledComma(Sanitized(s))
  {
    var r := Sanitized(s);
    forall j | 0 < j < |r|
      ensures !(r[j - 1] == ',' && r[j] == ',')
    {
      SanitizedAt(s, j - 1);
      SanitizedAt(s, j);
    }
  }

  /** The rewrite changes a text exactly when the text has a doubled comma. */
  lemma SanitizedUnchangedIff(s: seq<char>)
    ensures Sanitized(s) == s <==> !HasDoubledComma(s)
  {
    var r := Sanitized(s);
    if HasDoubledComma(s) {
      var j :| 0 < j < |s| && s[j - 1] == ',' && s[j] == ',';
      SanitizedAt(s, j);
      assert r[j] != s[j];
    } else {
      forall j | 0 <= j < |s|
        ensures r[j] == s[j]
      {
        SanitizedAt(s, j);
      }
    }
  }

  /** Rewriting twice gives the same text as rewriting once. */
  lemma SanitizeIdempotent(s: seq<char>)
    ensures Sanitized(Sanitized(s)) == Sanitized(s)
  {
    NoDoubledCommaRemains(s);
    SanitizedUnchangedIff(Sanitized(s));
  }

  /** The example in the source's own comment. */
  lemma SanitizeThreeCommas()
    ensures Sanitized(",,,") == ",  "
  {
    SanitizedAt(",,,", 0);
    SanitizedAt(",,,", 1);
    SanitizedAt(",,,", 2);
  }

  /** A terminating NUL is never rewritten, and the text before it is rewritten on its own. */
  lemma SanitizeKeepsTerminator(s: seq<char>)
    ensures Sanitized(s + [NUL]) == Sanitized(s) + [NUL]
  {
    var t := s + [NUL];
    if |t| >= 2 {
      assert t[..|t| - 1] == s;
    }
  }

  /**
   * The loop of translate_box over the response buffer: for i from `size`
   * down to 1, a comma at i that follows a comma at i - 1 becomes a space.
   * Its first test reads `mem[size]`, so `size` must index the array.
   */
  method SanitizeCommas(mem: array<char>, size: nat)
    requires size < mem.Length
    modifies mem
    ensures mem[..size + 1] == Sanitized(old(mem[..size + 1]))
    ensures mem[size + 1..] == old(mem[size + 1..])
  {
    ghost var orig := mem[..];
    var i := size;
    while i > 0
      invariant 0 <= i <= size
      invariant forall j :: 0 <= j <= i ==> mem[j] == orig[j]
      invariant forall j :: i < j <= size ==> mem[j] == Scrubbed(orig, j)
      invariant forall j :: size < j < mem.Length ==> mem[j] == orig[j]
    {
      if mem[i - 1] == ',' && mem[i] == ',' {
        mem[i] := ' ';
      }
      i := i - 1;
    }
    ghost var prefix := orig[..size + 1];
    forall j | 0 <= j <= size
      ensures mem[j] == Sanitized(prefix)[j]
    {
      SanitizedAt(prefix, j);
    }
  }
}
