# idiom: a verified model of the translation core

idiom is a small GTK program with two text boxes. A button, or text arriving
from the primary selection, picks the *active* box. `translate_box` then sends
that box's text to a web translation service and overwrites the *other* box
with the answer. Changing either language re-translates whichever box is
already active. This project models in Dafny the
parts of `src/main.c` that have precise behaviour, and proves properties of
them:

- **`struct mem_buf`** (`MemBuffer.MemBuf`): a growable NUL-terminated
  character buffer. `mem_buf_new` is the constructor. `accumulate_mem_buf` is
  `Accumulate`, built from small `Realloc` and `MemCpy` models. The class
  invariant is that `mem[size]` is the terminator.
- **The doubled-comma rewrite** (`CommaSanitizer`): an in-place loop over the
  response buffer (`SanitizeCommas`). It is proved against `Sanitized`, a
  function built one position at a time. The lemmas give its pointwise
  meaning, show that no doubled comma survives, and prove idempotence and the
  `",,," -> ",  "` example from the source comment.
- **Sentence extraction** (`Sentences`): the parsed response is a `Json` value.
  The sentence loop (`CollectSentences` and `InsertSentence`) appends element 0
  of every pair in `root[0]`. It is proved to produce `Translation(root)`: the
  fragments joined in array order with nothing between them.
- **The request URL** (`TranslateUrl`): `snprintf` of `TRANS_URL_FMT` into a
  buffer whose size is computed in advance (see Findings).
- **`struct state` and its callbacks** (`TranslatorState`): the class `State` holds
  `active`, `focused`, the clipboard setting, both texts and both language
  codes. Every callback that changes the state is a method proved against `Handle`, a pure step
  function on the value `Machine`, or against one of the step functions `Handle` is built from
  (`FocusIn`, `FocusOut`, `Cleared`). `translate_box` is `TranslateBox`, proved
  against `Translate` and `Apply`. The network, the percent-encoder and the
  JSON parser are the function values in `Services`.

C strings are read the way `strlen` reads them: `CStrings.CStr` is the prefix
before the first NUL. A C `char` is modelled as a Dafny `char`. The model only
interprets NUL, `,` and space, so the character width never matters.

json-glib is not part of this model. Its accessors are taken to behave as its
documented guards say: asking for the array or string element of a missing or
mis-typed node yields NULL, and `json_array_foreach_element` on NULL does
nothing. Two consequences follow:

- A response whose root has no array at element 0 gives an **empty**
  translation, which clears the destination box (`UnexpectedRootGivesEmptyText`).
- A pair whose element 0 is not a string makes `strlen(NULL)` crash. This is
  modelled as the failure `MissingFragment`, with nothing written (`MalformedPairFails`).

The repository's later revisions send the text in a POST body, fetch on a
background thread and report errors without exiting. This revision of
`src/main.c` does none of that, and the model follows it:

- a blocking GET with the text in the query string;
- `errx` exits on transport and parse failures, which the model shows as
  `Failed` outcomes that write neither box.

## Model

| member | source | states |
|---|---|---|
| `CStrings.CStr` | src/main.c:621-626 | `strlen`'s view of a buffer is a NUL-free prefix of it. It ends at the first NUL or at the end. It is the whole buffer when there is no NUL. |
| `CStrings.CStrOfTerminated` | src/main.c:646-648 | A NUL-free string stored with its terminator reads back as exactly that string. |
| `CommaSanitizer.Sanitized` | src/main.c:572-580 | The rewrite keeps the length of the buffer. |
| `CommaSanitizer.SanitizedAt` | src/main.c:572-580 | Character j becomes a space exactly when j > 0 and the original characters j-1 and j are both commas. Every other character, including character 0, is unchanged. |
| `CommaSanitizer.NoDoubledCommaRemains` | src/main.c:572-580 | After the rewrite no comma is immediately followed by another comma. |
| `CommaSanitizer.SanitizedUnchangedIff` | src/main.c:572-580 | The rewrite leaves a text unchanged if and only if the text has no doubled comma. |
| `CommaSanitizer.SanitizeIdempotent` | src/main.c:572-580 | Rewriting twice gives the same text as rewriting once. |
| `CommaSanitizer.SanitizeThreeCommas` | src/main.c:572-577 | `",,,"` becomes `",  "`, as the source comment says. |
| `CommaSanitizer.SanitizeKeepsTerminator` | src/main.c:578-580 | The NUL after the text is never rewritten. The text before it is rewritten as if alone. |
| `CommaSanitizer.SanitizeCommas` | src/main.c:578-580 | The right-to-left loop reads `mem[size]`, so it needs `size` in bounds. It turns `mem[0..size]` into `Sanitized` of the original and leaves the rest of the array alone. |
| `MemBuffer.Realloc` | src/main.c:643 | `realloc` returns a fresh block of the requested length that keeps the old block's leading characters. |
| `MemBuffer.MemCpy` | src/main.c:646 | `memcpy` places the `len` source characters at the offset and changes nothing else. |
| `MemBuffer.MemBuf.constructor` | src/main.c:653-667 | `mem_buf_new` gives `size == 0`, a one-character block with `mem[0] == NUL`, and empty contents. |
| `MemBuffer.MemBuf.Accumulate` | src/main.c:631-651 | Returns `size * nmemb` and grows `size` by that much. The old contents stay as a prefix, the new characters equal `ptr[0..len)`, and `mem[size] == NUL` still holds. |
| `Sentences.NodeArray` | src/main.c:616 | `json_node_get_array` yields the elements exactly for an array node, and NULL for any other node. |
| `Sentences.ArrayElementArray` | src/main.c:588-589 | `json_array_get_array_element(a, i)` yields element i's elements exactly when `a` exists, i is in range and element i is an array. Otherwise it yields NULL. |
| `Sentences.ArrayElementString` | src/main.c:617 | `json_array_get_string_element(a, i)` yields element i's string exactly when `a` exists, i is in range and element i is a string. Otherwise it yields NULL. |
| `Sentences.SentencePairs` | src/main.c:587-592 | The loop walks the elements of `root[0]` when the root is an array whose element 0 is an array. Otherwise it walks nothing. |
| `Sentences.Fragment` | src/main.c:616-626 | A pair contributes text exactly when it is an array whose element 0 is a string. The text is that string up to its NUL, and it has no NUL. |
| `Sentences.Fragments` | src/main.c:591-592 | When the sentence loop gets through every pair, it yields exactly one fragment per pair walked. |
| `Sentences.Translation` | src/main.c:587-593 | The translation exists exactly when every pair walked has a fragment. When it exists it has no NUL. |
| `Sentences.FragmentsAll` | src/main.c:605-626 | The sentence loop succeeds exactly when every pair is an array whose element 0 is a string. Fragment k is then that string up to its NUL. |
| `Sentences.TranslationJoinsFragments` | src/main.c:587-593 | The translation joins the fragments in array order. Fragment k starts exactly where the earlier fragments end, so nothing is inserted between them. |
| `Sentences.TranslationNulFree` | src/main.c:593 | The translation holds no NUL, so `gtk_text_buffer_set_text(..., -1)` receives all of it. |
| `Sentences.UnexpectedRootGivesEmptyText` | src/main.c:587-592 | A root with no array at element 0 gives an empty translation, not an error. |
| `Sentences.MalformedPairFails` | src/main.c:616-621 | A pair that is not an array, or has no string at element 0, makes the translation fail. |
| `Sentences.SinglePairTranslation` | src/main.c:587-593 | A response with one sentence pair translates to that pair's fragment, whatever else the root holds. |
| `Sentences.TwoPairTranslation` | src/main.c:587-593 | A response with two sentence pairs translates to the first pair's fragment followed directly by the second's. |
| `Sentences.TwoSentencesJoin` | src/main.c:587-593 | Pairs "hello" and "world" give "helloworld", whatever else the root holds. |
| `Sentences.StrlcpyStores` | src/main.c:622 | `strlcpy` with a buffer of `dstsize` stores at most `dstsize` characters. With room for at least one, it stores at least the NUL and at most the whole source plus its NUL. It stores the whole source exactly when the source is shorter than `dstsize`. |
| `Sentences.Strlcpy` | src/main.c:622 | `strlcpy` returns the source length. It stores at most `dstsize - 1` characters of the source and a NUL, and changes nothing else. |
| `Sentences.InsertSentenceCopyOverruns` | src/main.c:619-622 | As written, `strlcpy(ptr, value, len + 1)` stores `len + 1` characters. That exceeds the one character allocated exactly when the fragment is not empty. |
| `Sentences.InsertSentence` | src/main.c:605-629 | Appends element 0 of the pair, up to its NUL, to the buffer. It fails, leaving the buffer alone, exactly when there is no such string. The copy is given `len + 1` characters. |
| `Sentences.FragmentsOfAll` | src/main.c:605-626 | When every pair's fragment is known, in order, those are the fragments the sentence loop collects. |
| `Sentences.CollectSentences` | src/main.c:591-592 | `json_array_foreach_element` with `insert_sentence` appends the joined fragments of all pairs. It fails exactly when some pair has no fragment. |
| `TranslateUrl.FormatUrl` | src/main.c:49 | The full URL is `TRANS_URL_FMT` without its three `%s`, plus the three strings up to their NULs. It starts with the fixed prefix up to `sl=` and ends with the query. |
| `TranslateUrl.UrlBufferLenAsWritten` | src/main.c:549 | The buffer gets 89 characters plus the length of the escaped query. That is exactly room for the URL and its NUL when the two language codes total four characters. |
| `TranslateUrl.UrlAsWritten` | src/main.c:549-552 | The URL handed to curl is a prefix of the full URL. It is the whole URL when the language codes total at most four characters, and otherwise 88 characters plus the query length, so its tail is cut off. |
| `TranslateUrl.Snprintf` | src/main.c:552 | `snprintf(buf, n, ...)` leaves a prefix of the full text, at most `n - 1` characters long. |
| `TranslateUrl.UrlAsWrittenCompleteIff` | src/main.c:549-552 | `TRANS_URL_FMT` is 90 characters long. As written, the URL is complete if and only if the two language codes total at most 4 characters. Otherwise its last `(|sl| + |tl| - 4)` characters are lost. |
| `TranslateUrl.ChineseRequestLosesQuery` | src/main.c:549-552 | As written, "zh-CN" to "en" with query "hej" yields a URL that ends at `q=`, with the query lost. |
| `TranslateUrl.RequestUrl` | src/main.c:546-552 | With the buffer sized for all three substitutions, the URL is the whole format. It starts with the service address and ends with the complete encoded text. |
| `TranslatorState.Initial` | src/main.c:138-142 | The state starts with `active == NO_BOX`, and the focused view is the top view. The clipboard setting, texts and language codes are the given ones. |
| `TranslatorState.Other` | src/main.c:510-522 | The destination is the bottom box exactly when the source is the top box, and the top box exactly when the source is the bottom box. |
| `TranslatorState.FocusedView` | src/main.c:448-473 | `focused_text_view` returns no view exactly when no box is focused, and the top view exactly when the top box is focused. |
| `TranslatorState.Response` | src/main.c:538-594 | The result is a transport failure exactly when curl fails, and a parse failure exactly when curl succeeds but the sanitised body does not parse. A successful result has no NUL. |
| `TranslatorState.TranslateFrom` | src/main.c:531-594 | An empty source string translates nothing. Otherwise the outcome carries `Response`'s failure, or its text aimed at the given destination. |
| `TranslatorState.Translate` | src/main.c:510-536 | With no active box nothing is translated. A translation always targets the box other than the active one, and its text has no NUL. |
| `TranslatorState.Apply` | src/main.c:593 | Only a translation writes, and it writes only its destination box. Everything else in the state stays as it was. |
| `TranslatorState.Retranslate` | src/main.c:486-536 | Translating keeps `active` and the clipboard setting. A translation goes to the box opposite the active one. |
| `TranslatorState.FocusIn` | src/main.c:278-301 | Focus-in sets `focused` to the given box and changes nothing else. |
| `TranslatorState.FocusOut` | src/main.c:307-333 | After focus-out no box is focused exactly when the given box, or none, was focused. Otherwise `focused` is kept, and nothing else changes. |
| `TranslatorState.Cleared` | src/main.c:338-346 | `clear_cb` leaves both texts empty and changes nothing else. |
| `TranslatorState.Handle` | src/main.c:201-346 | The focus and clear handlers never translate. A translation targets the box other than the active one after the handler. No handler changes the clipboard setting. |
| `TranslatorState.IdleExactlyWhenNoSource` | src/main.c:510-536 | `translate_box` does nothing exactly when `active` is NO_BOX or the active box's text is empty. Its outcome then does not depend on the network or the parser, and both boxes are unchanged. |
| `TranslatorState.TranslateDirection` | src/main.c:510-522 | TOP_BOX translates the top text from `top_lang` to `bot_lang` into the bottom box. BOT_BOX is the mirror image. A failure writes nothing. |
| `TranslatorState.TranslateKeepsSource` | src/main.c:486-600 | `translate_box` never changes the source box, the languages, `active` or `focused`. |
| `TranslatorState.TranslateMirrors` | src/main.c:510-522 | Exchanging the two boxes exchanges the outcome's destination and the resulting state. |
| `TranslatorState.FocusFollowsEvents` | src/main.c:275-333 | Focus-in sets `focused` to that box. Focus-out resets it to NO_BOX only if that box was focused, and then `focused_text_view` finds no view. |
| `TranslatorState.HandlersTouchOwnFields` | src/main.c:213-273 | Only focus handlers change `focused`, and each combo changes only its own language. Buttons and the clipboard set `active` to their box. Nothing changes the clipboard setting. |
| `TranslatorState.StartsIdle` | src/main.c:138-142 | The initial state has `active == NO_BOX` and `focused == TOP_BOX`. A language change before any button translates nothing. |
| `TranslatorState.ClearedBoxesStayEmpty` | src/main.c:335-346 | `clear_cb` empties both boxes. A button or combo afterwards translates nothing. |
| `TranslatorState.ClipReceivedRetranslates` | src/main.c:201-211 | Received clipboard text sets `active = TOP_BOX`. Text that is present replaces the top box up to its NUL. Then the active box is translated. |
| `TranslatorState.SinglePairResponse` | src/main.c:538-594 | When curl answers and the sanitised body parses to one pair whose element 0 is a NUL-free string, the response is that string. |
| `TranslatorState.ClipboardAnswered` | src/main.c:201-211 | Non-empty NUL-free clipboard text with a successful response `t` puts the text in the top box and `t` in the bottom box, with `active = TOP_BOX`. |
| `TranslatorState.ClipboardTranslatedIntoBottom` | src/main.c:198-211 | Clipboard text goes into the top box with `active = TOP_BOX`. When the service answers with one pair, its fragment goes into the bottom box. |
| `TranslatorState.TransportFailureWritesNothing` | src/main.c:564-565 | When curl fails, neither box is written. |
| `TranslatorState.Receive` | src/main.c:538-564 | curl's write callback fills a fresh buffer with the concatenation of the chunks, in order. |
| `TranslatorState.ExtractTranslation` | src/main.c:591-594 | The sentence loop over a fresh buffer yields exactly `Translation(root)`, read back as a C string. |
| `TranslatorState.Fetch` | src/main.c:538-594 | Fetching, sanitising, parsing and extracting yields exactly `Response`. That is a transport failure, a parse failure of the sanitised body, a missing fragment, or the joined fragments. |
| `TranslatorState.State.constructor` | src/main.c:134-143 | The state from `main` has `active == NO_BOX`, `focused == TOP_BOX`, and the given texts, languages and clipboard setting. |
| `TranslatorState.State.TranslateBox` | src/main.c:486-600 | The outcome is `Translate` of the old state. The new state overwrites only the destination box, and only on success. |
| `TranslatorState.State.OnTopButton` | src/main.c:219-228 | Sets `active = TOP_BOX`, then translates. |
| `TranslatorState.State.OnBotButton` | src/main.c:236-245 | Sets `active = BOT_BOX`, then translates. |
| `TranslatorState.State.OnTopCombo` | src/main.c:250-259 | Sets only `top_lang`, then translates. |
| `TranslatorState.State.OnBotCombo` | src/main.c:264-273 | Sets only `bot_lang`, then translates. |
| `TranslatorState.State.OnClipReceived` | src/main.c:201-211 | Sets `active = TOP_BOX` and puts the text into the top box (a NULL text is ignored), then translates. |
| `TranslatorState.State.OnTopFocusIn` | src/main.c:278-287 | `focused = TOP_BOX`, and the event propagates. |
| `TranslatorState.State.OnBotFocusIn` | src/main.c:292-301 | `focused = BOT_BOX`, and the event propagates. |
| `TranslatorState.State.OnTopFocusOut` | src/main.c:307-317 | `focused` becomes NO_BOX only if it was TOP_BOX. |
| `TranslatorState.State.OnBotFocusOut` | src/main.c:323-333 | `focused` becomes NO_BOX only if it was BOT_BOX. |
| `TranslatorState.State.OnClear` | src/main.c:338-346 | Both text buffers become "" and nothing else changes. |

## Left out

- GTK wiring is left out: the builder lookups and signal connections in `main`, `usage`, `about_cb`, `open_cb`, and the cut/copy/paste signal emission (src/main.c:89-169, 174-179, 351-446). It is UI plumbing. Only the state that `main` initialises and `focused_text_view` are modelled.
- The `getopt` loop in `main` (src/main.c:101-116) and `from_clip_cb` (src/main.c:184-196) are left out as start-up wiring. The model does not derive the clipboard setting from `-p`. It does not say that the primary selection is requested only under `-p`. The constructor takes the setting as given.
- TranslatorState.Response: requests `TranslateUrl.RequestUrl`, the URL built with a buffer sized for all three substitutions, not the truncated `TranslateUrl.UrlAsWritten` the code sends when the language codes total more than four characters. `TranslateFrom`, `Translate`, `Retranslate` and `Handle` inherit this.
- TranslatorState.Fetch: requests the URL built with the corrected buffer size (`TranslateUrl.RequestUrl`), not the truncated one the code builds (`TranslateUrl.UrlAsWritten`). The two differ whenever the language codes total more than four characters: for "zh-CN" to "en" the code sends the query empty, and this model sends it whole. `TranslatorState.Response`, `TranslatorState.State.TranslateBox` and every callback inherit this.
- `replace_text_from_file` and `read_fd` (src/main.c:683-730) are file I/O and are not part of this model. Note that `read_fd` adds `nbytes` rather than the count `read` returned.
- curl is left out as foreign calls: handle setup, options, the error buffer and cleanup (src/main.c:542-568). `curl_easy_escape` and `curl_easy_perform` are the uninterpreted `escape` and `perform` fields of `Services`. The User-Agent header is not modelled. As written, line 554 prepends "User-Agent: " to a macro that already starts with "User-Agent: " (src/main.c:51).
- JSON parsing by json-glib (src/main.c:582-585) is the uninterpreted `parse` field of `Services`. A parse failure is the outcome `Failed(ParseFailed)`.
- Process exits through `err`/`errx` become `Failed` outcomes that write neither box. Allocation failures are not modelled: `calloc`, `realloc`, `curl_easy_init`, `curl_easy_escape` and `curl_slist_append` always succeed here.
- `mem_buf_free` (src/main.c:672-678) is not modelled. Dafny has no deallocation. Its assignments also reach only the by-value copy, not the caller's buffer.
- User edits of the text boxes are not modelled. They happen inside GTK; the texts are plain fields that the callbacks read and overwrite.
- Language ids are strings. A NULL id from `gtk_combo_box_get_active_id` is not modelled.
- JSON numbers are integers, because their value is never read.
- Concurrency, progress pulses and POST bodies are absent from this revision of the code, so they are not modelled.
- MemBuffer.MemBuf.Accumulate: does not model `size_t` wrap-around of `size * nmemb` or `m->size + len + 1`; lengths are unbounded integers.
- TranslateUrl.RequestUrl: does not model the `int` truncation of `len` at src/main.c:545 and 549 for very long texts.
- Sentences.CollectSentences: stops at the first pair without a fragment. The source crashes there instead, and no box is written in either case.

## Findings

| source | as written | input that shows it | evidently intended | confidence | as-written member | corrected member |
|---|---|---|---|---|---|---|
| src/main.c:549 | The URL buffer is `strlen(TRANS_URL_FMT) - 2 + strlen(esc_buf) + 1`. That subtracts 2 for one `%s`, but the format has three and also takes both language codes. | `sl = "zh-CN"`, `tl = "en"`, query `"hej"`: `snprintf` cuts the URL after `q=`. | The size should be the format less six, plus both codes, the encoded text and the NUL, so the query is always sent whole. | not executed; whether it bites depends on the language ids in the interface file, which is not part of this model | `TranslateUrl.ChineseRequestLosesQuery` | `TranslateUrl.RequestUrl` |
| src/main.c:619-622 | `insert_sentence` allocates one character, then calls `strlcpy(ptr, value, len + 1)`, which stores `len + 1` characters. | Any non-empty fragment, such as `"hi there"`, overruns the 1-character block by 8 characters. | Allocate `len + 1` characters for the copy, or append `value` directly. | not executed; the overrun follows from the C library's contract for `strlcpy` | `Sentences.InsertSentenceCopyOverruns` | `Sentences.InsertSentence` |
