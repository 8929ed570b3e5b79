/**
 * The request URL of translate_box: TRANS_URL_FMT with the two language codes
 * and the percent-encoded text substituted by snprintf into a buffer whose
 * length is computed beforehand. As written, that length subtracts 2 for one
 * "%s" although the format has three, so the URL is cut short once the two
 * language codes total more than four characters.
 */
module TranslateUrl {
  import opened CStrings

  const SL_PART: seq<char> := "https://translate.google.com/translate_a/single?client=t&sl="
  const TL_PART: seq<char> := "&tl="
  const Q_PART: seq<char> := "&dt=bd&dt=t&dt=at&q="

  /** TRANS_URL_FMT: the literal text with its three "%s" conversions. */
  const TRANS_URL_FMT: seq<char> := SL_PART + "%s" + TL_PART + "%s" + Q_PART + "%s"

  /** The text the format yields with room to spare: each "%s" replaced by its C string argument. */
  function FormatUrl(sl: seq<char>, tl: seq<char>, q: seq<char>): (full: seq<char>)
    ensures |full| == |TRANS_URL_FMT| - 6 + |CStr(sl)| + |CStr(tl)| + |CStr(q)|
    ensures full[..|SL_PART|] == SL_PART
    ensures full[|full| - |CStr(q)|..] == CStr(q)
  {
    SL_PART + CStr(sl) + TL_PART + CStr(tl) + Q_PART + CStr(q)
  }

  /** snprintf(buf, n, ...): the C string left in `buf`, at most n - 1 characters of the full text. */
  function Snprintf(n: nat, full: seq<char>): (r: seq<char>)
    requires n > 0
    ensures r <= full
    ensures |r| == if |full| < n then |full| else n - 1
  {
    if |full| < n then full else full[..n - 1]
  }

  /**
   * The length translate_box allocates as written: strlen(TRANS_URL_FMT) - 2 + strlen(esc_buf) + 1.
   * That is exactly room for the URL and its NUL when the two language codes total four characters.
   */
  function UrlBufferLenAsWritten(esc: seq<char>): (n: nat)
    ensures n == 89 + |CStr(esc)|
    ensures forall sl, tl :: |CStr(sl)| + |CStr(tl)| == 4 ==> n == |FormatUrl(sl, tl, esc)| + 1
  {
    |TRANS_URL_FMT| - 2 + |CStr(esc)| + 1
  }

  /** The URL translate_box hands to curl as written. */
  function UrlAsWritten(sl: seq<char>, tl: seq<char>, esc: seq<char>): (url: seq<char>)
    ensures url <= FormatUrl(sl, tl, esc)
    ensures |url| == if |CStr(sl)| + |CStr(tl)| <= 4 then |FormatUrl(sl, tl, esc)| else 88 + |CStr(esc)|
  {
    Snprintf(UrlBufferLenAsWritten(esc), FormatUrl(sl, tl, esc))
  }

  /**
   * As written, the URL is complete exactly when the two language codes total
   * at most four characters; otherwise it loses that many characters, minus
   * four, from the end of the encoded text.
   */
  lemma UrlAsWrittenCompleteIff(sl: seq<char>, tl: seq<char>, esc: seq<char>)
    ensures |TRANS_URL_FMT| == 90
    ensures UrlAsWritten(sl, tl, esc) == FormatUrl(sl, tl, esc) <==> |CStr(sl)| + |CStr(tl)| <= 4
    ensures |CStr(sl)| + |CStr(tl)| > 4 ==>
      UrlAsWritten(sl, tl, esc) == FormatUrl(sl, tl, esc)[..|FormatUrl(sl, tl, esc)| - (|CStr(sl)| + |CStr(tl)| - 4)]
  {
  }

  /** Translating Chinese ("zh-CN") into English drops the whole query "hej". */
  lemma ChineseRequestLosesQuery()
    ensures UrlAsWritten("zh-CN", "en", "hej") == SL_PART + "zh-CN" + TL_PART + "en" + Q_PART
    ensures FormatUrl("zh-CN", "en", "hej") == SL_PART + "zh-CN" + TL_PART + "en" + Q_PART + "hej"
  {
    assert CStr("zh-CN") == "zh-CN" && CStr("en") == "en" && CStr("hej") == "hej";
    var full := FormatUrl("zh-CN", "en", "hej");
    assert |full| == 90 - 6 + 5 + 2 + 3;
    assert full[..|full| - 3] == SL_PART + "zh-CN" + TL_PART + "en" + Q_PART;
  }

  /** The length the URL needs: the format less its three "%s", the three strings, and the NUL. */
  function UrlBufferLen(sl: seq<char>, tl: seq<char>, esc: seq<char>): nat
  {
    |TRANS_URL_FMT| - 6 + |CStr(sl)| + |CStr(tl)| + |CStr(esc)| + 1
  }

  /**
   * The request URL with the buffer sized for all three substitutions: the
   * whole format, ending in the complete encoded text.
   */
  function RequestUrl(sl: seq<char>, tl: seq<char>, esc: seq<char>): (url: seq<char>)
    ensures url == FormatUrl(sl, tl, esc)
    ensures url[..|SL_PART|] == SL_PART
    ensures url[|url| - |CStr(esc)|..] == CStr(esc)
  {
    Snprintf(UrlBufferLen(sl, tl, esc), FormatUrl(sl, tl, esc))
  }
}
