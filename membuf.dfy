/**
 * struct mem_buf: a growable NUL-terminated character buffer, used both for
 * the response body that curl delivers in chunks and for the translation that
 * the sentence loop builds up.
 */
module MemBuffer {
  import opened CStrings

  /** realloc(a, n): a fresh block of `n` characters that keeps the old block's leading characters. */
  method Realloc(a: array<char>, n: nat) returns (b: array<char>)
    ensures fresh(b) && b.Length == n
    ensures n <= a.Length ==> b[..] == a[..n]
    ensures a.Length <= n ==> b[..a.Length] == a[..]
  {
    b := new char[n];
    var keep := if n <= a.Length then n else a.Length;
    var k := 0;
    while k < keep
      invariant 0 <= k <= keep
      invariant b[..k] == a[..k]
    {
      b[k] := a[k];
      k := k + 1;
    }
  }

  /** memcpy(&dst[at], src, len). */
  method MemCpy(dst: array<char>, at: nat, src: seq<char>, len: nat)
    requires len <= |src| && at + len <= dst.Length
    modifies dst
    ensures dst[..at] == old(dst[..at])
    ensures dst[at..at + len] == src[..len]
    ensures dst[at + len..] == old(dst[at + len..])
  {
    var k := 0;
    while k < len
      invariant 0 <= k <= len
      invariant dst[..at] == old(dst[..at])
      invariant dst[at..at + k] == src[..k]
      invariant dst[at + len..] == old(dst[at + len..])
    {
      dst[at + k] := src[k];
      k := k + 1;
    }
  }

  class MemBuf {
    /** The storage: exactly the string plus its terminator. */
    var mem: array<char>
    /** The length of the string, not counting the terminator. */
    var size: nat

    ghost predicate Valid()
      reads this, mem
    {
      mem.Length == size + 1 && mem[size] == NUL
    }

    /** The characters stored before the terminator. */
    function Contents(): seq<char>
      reads this, mem
      requires Valid()
    {
      mem[..size]
    }

    /** mem_buf_new: an empty string in a one-character block holding the terminator. */
    constructor ()
      ensures Valid() && fresh(mem)
      ensures size == 0 && mem.Length == 1 && mem[0] == NUL
      ensures Contents() == []
    {
      mem := new char[1];
      size := 0;
      new;
      mem[0] := NUL;
    }

    /**
     * accumulate_mem_buf(ptr, size, nmemb, m): grow the block to hold the
     * `size * nmemb` characters at `ptr`, copy them after the old string,
     * re-terminate, and report how many characters were taken.
     */
    method Accumulate(ptr: seq<char>, elemSize: nat, nmemb: nat) returns (taken: nat)
      requires Valid()
      requires elemSize * nmemb <= |ptr|
      modifies this
      ensures Valid() && fresh(mem)
      ensures taken == elemSize * nmemb
      ensures size == old(size) + taken
      ensures Contents() == old(Contents()) + ptr[..taken]
    {
      var len := elemSize * nmemb;
      var oldSize := size;
      ghost var before := mem[..size];
      var grown := Realloc(mem, size + len + 1);
      assert grown[..oldSize] == before by {
        assert grown[..mem.Length][..oldSize] == mem[..][..oldSize];
      }
      MemCpy(grown, oldSize, ptr, len);
      assert grown[..oldSize + len] == before + ptr[..len] by {
        assert grown[..oldSize + len][..oldSize] == grown[..oldSize];
        assert grown[..oldSize + len][oldSize..] == grown[oldSize..oldSize + len];
      }
      grown[oldSize + len] := NUL;
      mem := grown;
      size := oldSize + len;
      taken := len;
    }
  }
}
