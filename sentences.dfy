/**
 * Pulling the translation out of the parsed response. The service answers
 * with nested arrays: element 0 of the root is the list of sentence pairs, and
 * element 0 of each pair is one translated fragment. translate_box walks that
 * list with json_array_foreach_element, and insert_sentence appends each
 * fragment to a growable buffer, so the translation is the fragments joined in
 * array order with nothing between them.
 */
module Sentences {
  import opened Wrappers
  import opened CStrings
  import opened MemBuffer

  /** A parsed JSON document. Numbers are kept as integers: their value is never read. */
  datatype Json =
    | Null
    | Bool(b: bool)
    | Number(n: int)
    | Str(s: seq<char>)
    | Arr(elems: seq<Json>)
    | Obj(members: seq<(seq<char>, Json)>)

  /** json_node_get_array: the elements of an array node, and no array (NULL) for any other node. */
  function NodeArray(node: Json): (r: Option<seq<Json>>)
    ensures r.Some? <==> node.Arr?
    ensures r.Some? ==> r.value == node.elems
  {
    if node.Arr? then Some(node.elems) else None
  }

  /**
   * json_array_get_array_element(array, i): NULL when there is no array `arr`, when
   * `i` is out of range, or when element `i` is not an array.
   */
  function ArrayElementArray(arr: Option<seq<Json>>, i: nat): (r: Option<seq<Json>>)
    ensures r.Some? <==> arr.Some? && i < |arr.value| && arr.value[i].Arr?
    ensures r.Some? ==> r.value == arr.value[i].elems
  {
    if arr.Some? && i < |arr.value| then NodeArray(arr.value[i]) else None
  }

  /**
   * json_array_get_string_element(array, i): NULL when there is no array `arr`, when
   * `i` is out of range, or when element `i` is not a string.
   */
  function ArrayElementString(arr: Option<seq<Json>>, i: nat): (r: Option<seq<char>>)
    ensures r.Some? <==> arr.Some? && i < |arr.value| && arr.value[i].Str?
    ensures r.Some? ==> r.value == arr.value[i].s
  {
    if arr.Some? && i < |arr.value| && arr.value[i].Str? then Some(arr.value[i].s) else None
  }

  /**
   * The list the sentence loop walks: element 0 of the root array. When that
   * lookup yields NULL, json_array_foreach_element returns without calling
   * insert_sentence at all, so the loop sees no pairs.
   */
  function SentencePairs(root: Json): (pairs: seq<Json>)
    ensures root.Arr? && |root.elems| > 0 && root.elems[0].Arr? ==> pairs == root.elems[0].elems
    ensures !(root.Arr? && |root.elems| > 0 && root.elems[0].Arr?) ==> pairs == []
  {
    match ArrayElementArray(NodeArray(root), 0)
    case None => []
    case Some(pairs) => pairs
  }

  /**
   * The text insert_sentence appends for one pair: element 0 of the pair, up
   * to its first NUL. None when the pair has no string there, which the source
   * passes on to strlen as a NULL pointer.
   */
  function Fragment(pair: Json): (r: Option<seq<char>>)
    ensures r.Some? <==> pair.Arr? && |pair.elems| > 0 && pair.elems[0].Str?
    ensures r.Some? ==> r.value == CStr(pair.elems[0].s) && NUL !in r.value
  {
    match ArrayElementString(NodeArray(pair), 0)
    case None => None
    case Some(value) => Some(CStr(value))
  }

  /** The fragments of all pairs in array order, or None as soon as one pair has none. */
  function Fragments(pairs: seq<Json>): (r: Option<seq<seq<char>>>)
    ensures r.Some? ==> |r.value| == |pairs|
  {
    if pairs == [] then Some([])
    else
      var init := Fragments(pairs[..|pairs| - 1]);
      var last := Fragment(pairs[|pairs| - 1]);
      if init.Some? && last.Some? then Some(init.value + [last.value]) else None
  }

  /** The text the sentence loop leaves in the translation buffer, or None when it dereferences NULL. */
  function Translation(root: Json): (r: Option<seq<char>>)
    ensures r.Some? <==> forall k :: 0 <= k < |SentencePairs(root)| ==> Fragment(SentencePairs(root)[k]).Some?
    ensures r.Some? ==> NUL !in r.value
  {
    FragmentsAll(SentencePairs(root));
    match Fragments(SentencePairs(root))
    case None => None
    case Some(fs) =>
      ConcatNulFree(fs);
      Some(Concat(fs))
  }

  /**
   * The fragments exist exactly when every pair has a string at element 0, and
   * then fragment `k` is the C string of pair `k`'s element 0.
   */
  lemma {:induction false} FragmentsAll(pairs: seq<Json>)
    ensures Fragments(pairs).Some? <==> forall k :: 0 <= k < |pairs| ==> Fragment(pairs[k]).Some?
    ensures Fragments(pairs).Some? ==>
      |Fragments(pairs).value| == |pairs| &&
      forall k :: 0 <= k < |pairs| ==>
        pairs[k].Arr? && |pairs[k].elems| > 0 && pairs[k].elems[0].Str? &&
        Fragments(pairs).value[k] == CStr(pairs[k].elems[0].s)
  {
    if pairs != [] {
      var init := pairs[..|pairs| - 1];
      FragmentsAll(init);
      assert forall k :: 0 <= k < |init| ==> init[k] == pairs[k];
    }
  }

  /**
   * The translation is the fragments of the pairs in root[0], joined in array
   * order with nothing inserted between them, and it holds no NUL, so setting
   * a text buffer from it (length -1) keeps all of it.
   */
  lemma TranslationJoinsFragments(root: Json, k: nat)
    requires Translation(root).Some? && k < |SentencePairs(root)|
    ensures var pairs := SentencePairs(root);
      var fs := Fragments(pairs).value;
      var t := Translation(root).value;
      NUL !in t && |fs| == |pairs| && Fragment(pairs[k]).Some? &&
      var at := |Concat(fs[..k])|;
      at + |fs[k]| <= |t| && t[at..at + |fs[k]|] == fs[k] == Fragment(pairs[k]).value
  {
    var pairs := SentencePairs(root);
    FragmentsAll(pairs);
    var fs := Fragments(pairs).value;
    assert Translation(root).value == Concat(fs);
    assert fs[k] == Fragment(pairs[k]).value;
    PieceInConcat(fs, k);
    TranslationNulFree(root);
  }

  /** The translation holds no NUL, so a text buffer set from it (length -1) receives all of it. */
  lemma TranslationNulFree(root: Json)
    requires Translation(root).Some?
    ensures NUL !in Translation(root).value
  {
    var pairs := SentencePairs(root);
    FragmentsAll(pairs);
    ConcatNulFree(Fragments(pairs).value);
  }

  /**
   * A response whose root is not an array, is empty, or has no array at
   * element 0 yields an empty translation rather than an error.
   */
  lemma UnexpectedRootGivesEmptyText(root: Json)
    requires !(root.Arr? && |root.elems| > 0 && root.elems[0].Arr?)
    ensures Translation(root) == Some([])
  {
  }

  /** A pair that is not an array, is empty, or has no string first makes the loop fail. */
  lemma {:induction false} MalformedPairFails(root: Json, k: nat)
    requires k < |SentencePairs(root)|
    requires var pair := SentencePairs(root)[k];
      !(pair.Arr? && |pair.elems| > 0 && pair.elems[0].Str?)
    ensures Translation(root) == None
  {
    FragmentsAll(SentencePairs(root));
  }

  /** A response holding a single sentence pair translates to that pair's fragment. */
  lemma SinglePairTranslation(pair: Json, rest: seq<Json>)
    requires Fragment(pair).Some?
    ensures Translation(Arr([Arr([pair])] + rest)) == Fragment(pair)
  {
    var root := Arr([Arr([pair])] + rest);
    assert SentencePairs(root) == [pair];
    assert [pair][..0] == [];
    assert Fragments([pair]) == Some([] + [Fragment(pair).value]);
    assert [] + [Fragment(pair).value] == [Fragment(pair).value];
    assert [Fragment(pair).value][1..] == [];
    assert Concat([Fragment(pair).value]) == Fragment(pair).value + [];
    assert Fragment(pair).value + [] == Fragment(pair).value;
  }

  /** A response whose sentence list holds two pairs translates to their fragments, first then second. */
  lemma TwoPairTranslation(p0: Json, p1: Json, rest: seq<Json>)
    requires Fragment(p0).Some? && Fragment(p1).Some?
    ensures Translation(Arr([Arr([p0, p1])] + rest)) == Some(Fragment(p0).value + Fragment(p1).value)
  {
    var f0, f1 := Fragment(p0).value, Fragment(p1).value;
    var pairs := [p0, p1];
    assert SentencePairs(Arr([Arr(pairs)] + rest)) == pairs;
    assert [p0][..|[p0]| - 1] == [];
    assert Fragments([p0]) == Some([] + [f0]);
    assert [] + [f0] == [f0];
    assert pairs[..|pairs| - 1] == [p0] && pairs[|pairs| - 1] == p1;
    assert Fragments(pairs) == Some([f0] + [f1]);
    ConcatAppend([f0], f1);
    assert [f0][1..] == [];
    assert Concat([f0]) == f0 + [];
    assert f0 + [] == f0;
    assert Concat([f0] + [f1]) == f0 + f1;
  }

  /** A pair whose first element is a NUL-free string contributes exactly that string. */
  lemma FirstStringFragment(text: seq<char>, others: seq<Json>)
    requires NUL !in text
    ensures Fragment(Arr([Str(text)] + others)) == Some(text)
  {
  }

  /**
   * Two sentence pairs "hello" and "world" translate to "helloworld", whatever
   * else the root holds after the sentence list.
   */
  lemma TwoSentencesJoin(rest: seq<Json>)
    ensures Translation(Arr([Arr([Arr([Str("hello"), Str("hallo")]), Arr([Str("world"), Str("Welt")])])] + rest))
      == Some("hello" + "world")
  {
    FirstStringFragment("hello", [Str("hallo")]);
    FirstStringFragment("world", [Str("Welt")]);
    assert [Str("hello")] + [Str("hallo")] == [Str("hello"), Str("hallo")];
    assert [Str("world")] + [Str("Welt")] == [Str("world"), Str("Welt")];
    TwoPairTranslation(Arr([Str("hello"), Str("hallo")]), Arr([Str("world"), Str("Welt")]), rest);
  }

  /** Characters insert_sentence allocates for its copy of a fragment: calloc(sizeof(char), 1). */
  const INSERT_SENTENCE_ALLOC: nat := 1

  /**
   * Characters strlcpy(dst, src, dstsize) stores at `dst`: at most
   * dstsize - 1 characters of `src` and a NUL, nothing when `dstsize` is 0.
   */
  function StrlcpyStores(src: seq<char>, dstsize: nat): (n: nat)
    ensures n <= dstsize
    ensures dstsize > 0 ==> 1 <= n && n - 1 <= |CStr(src)|
    ensures dstsize > 0 ==> (n - 1 == |CStr(src)| <==> |CStr(src)| < dstsize)
  {
    if dstsize == 0 then 0
    else if |CStr(src)| < dstsize - 1 then |CStr(src)| + 1
    else dstsize
  }

  /**
   * strlcpy(dst, src, dstsize): copy `src` up to its NUL, cut to
   * dstsize - 1 characters, and terminate; the caller must own `dstsize`
   * characters at `dst`. It returns the length of `src`.
   */
  method Strlcpy(dst: array<char>, src: seq<char>, dstsize: nat) returns (srcLen: nat)
    requires dstsize <= dst.Length
    modifies dst
    ensures srcLen == |CStr(src)|
    ensures dstsize > 0 ==>
      var n := StrlcpyStores(src, dstsize) - 1;
      dst[..n] == CStr(src)[..n] && dst[n] == NUL && dst[n + 1..] == old(dst[n + 1..])
    ensures dstsize == 0 ==> dst[..] == old(dst[..])
  {
    srcLen := |CStr(src)|;
    if dstsize == 0 {
      return;
    }
    var n := if srcLen < dstsize - 1 then srcLen else dstsize - 1;
    var k := 0;
    while k < n
      invariant 0 <= k <= n
      invariant dst[..k] == CStr(src)[..k]
      invariant dst[k..] == old(dst[k..])
    {
      dst[k] := CStr(src)[k];
      k := k + 1;
    }
    dst[n] := NUL;
  }

  /**
   * insert_sentence as written calls strlcpy(ptr, value, len + 1) on the one
   * character it allocated: strlcpy then stores the whole fragment and its
   * NUL, which overruns the allocation exactly when the fragment is not empty,
   * by the fragment's length.
   */
  lemma InsertSentenceCopyOverruns(value: seq<char>)
    ensures StrlcpyStores(value, |CStr(value)| + 1) == |CStr(value)| + 1
    ensures StrlcpyStores(value, |CStr(value)| + 1) > INSERT_SENTENCE_ALLOC <==> CStr(value) != []
  {
  }

  /**
   * insert_sentence with its copy given room for the fragment and its NUL:
   * append pair[0] (up to its first NUL) to the buffer. It fails, leaving the
   * buffer alone, exactly when the pair has no string at element 0.
   */
  method InsertSentence(pair: Json, res: MemBuf) returns (ok: bool)
    requires res.Valid()
    modifies res
    ensures res.Valid()
    ensures ok == Fragment(pair).Some?
    ensures ok ==> res.Contents() == old(res.Contents()) + Fragment(pair).value
    ensures !ok ==> res.Contents() == old(res.Contents())
  {
    var value := ArrayElementString(NodeArray(pair), 0);
    if value.None? {
      return false;
    }
    var len := |CStr(value.value)|;
    var ptr := new char[len + 1];
    var copied := Strlcpy(ptr, value.value, len + 1);
    // strlcpy reports the whole length, so the `cpy_len < len` error exit never fires.
    assert copied == len;
    assert ptr[..len] == CStr(value.value);
    var _ := res.Accumulate(ptr[..], 1, len);
    ok := true;
  }

  /** One pair without a fragment leaves the whole list without fragments. */
  lemma MissingFragmentSpoils(pairs: seq<Json>, i: nat)
    requires i < |pairs| && Fragment(pairs[i]).None?
    ensures Fragments(pairs).None?
  {
    FragmentsAll(pairs);
  }

  /** When every pair's fragment is known, they are the fragments of the list. */
  lemma FragmentsOfAll(pairs: seq<Json>, fs: seq<seq<char>>)
    requires |fs| == |pairs|
    requires forall k :: 0 <= k < |pairs| ==> Fragment(pairs[k]) == Some(fs[k])
    ensures Fragments(pairs) == Some(fs)
  {
    FragmentsAll(pairs);
    assert Fragments(pairs).Some?;
    assert Fragments(pairs).value == fs;
  }

  /** Appending one more fragment keeps the buffer equal to the prefix and the joined fragments. */
  lemma AppendStep(base: seq<char>, fs: seq<seq<char>>, f: seq<char>, before: seq<char>, after: seq<char>)
    requires before == base + Concat(fs) && after == before + f
    ensures after == base + Concat(fs + [f])
  {
    ConcatAppend(fs, f);
  }

  /**
   * json_array_foreach_element(sentences, insert_sentence, res): append the
   * fragment of every pair in order. It stops at the first pair without one.
   */
  method CollectSentences(pairs: seq<Json>, res: MemBuf) returns (ok: bool)
    requires res.Valid()
    modifies res
    ensures res.Valid()
    ensures ok == Fragments(pairs).Some?
    ensures ok ==> res.Contents() == old(res.Contents()) + Concat(Fragments(pairs).value)
  {
    var i := 0;
    ghost var fs: seq<seq<char>> := [];
    while i < |pairs|
      invariant 0 <= i <= |pairs| && |fs| == i
      invariant forall k :: 0 <= k < i ==> Fragment(pairs[k]) == Some(fs[k])
      invariant res.Valid()
      invariant res.Contents() == old(res.Contents()) + Concat(fs)
    {
      ghost var before := res.Contents();
      var fits := InsertSentence(pairs[i], res);
      if !fits {
        MissingFragmentSpoils(pairs, i);
        return false;
      }
      ghost var f := Fragment(pairs[i]).value;
      AppendStep(old(res.Contents()), fs, f, before, res.Contents());
      fs := fs + [f];
      i := i + 1;
    }
    FragmentsOfAll(pairs, fs);
    ok := true;
  }
}
