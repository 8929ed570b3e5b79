/**
 * struct state and the callbacks that drive it: which box is the source of a
 * translation (`active`), which box has the keyboard focus (`focused`), the
 * two language codes and the text of the two boxes. translate_box reads the
 * active box, fetches a translation for it, and overwrites the other box.
 */
module TranslatorState {
  import opened Wrappers
  import opened CStrings
  import opened CommaSanitizer
  import opened MemBuffer
  import opened Sentences
  import opened TranslateUrl

  /** enum src_pos. */
  datatype SrcPos = NoBox | TopBox | BotBox

  /** enum which_clip: where the text shown at start-up comes from. */
  datatype WhichClip = NoClipboard | Primary | Secondary

  /** The two GtkTextView widgets of struct state. */
  datatype TextView = TopView | BotView

  /**
   * What translate_box gets from code outside this model: the percent-encoding
   * of curl_easy_escape, one curl_easy_perform of a URL (the chunks curl hands
   * to the write callback in order, or None when it reports an error) and the
   * json-glib parser (the root node, or None when parsing fails).
   */
  datatype Services = Services(
    escape: seq<char> -> seq<char>,
    perform: seq<char> -> Option<seq<seq<char>>>,
    parse: seq<char> -> Option<Json>)

  /**
   * Why a translation stops: curl_easy_perform failed (errx exit 2), the
   * sanitised body did not parse (errx exit 2), or a sentence pair had no
   * string first and strlen was handed NULL. In each case the process ends
   * before either box is written.
   */
  datatype FetchError = TransportFailed | ParseFailed | MissingFragment

  /** What one call of translate_box did. */
  datatype Outcome = NotTranslated | Failed(failure: FetchError) | Translated(dst: SrcPos, text: seq<char>)

  /** The value of struct state that the model tracks. */
  datatype Machine = Machine(
    active: SrcPos,
    focused: SrcPos,
    clipboard: WhichClip,
    topText: seq<char>,
    botText: seq<char>,
    topLang: seq<char>,
    botLang: seq<char>)

  /** The state main builds: nothing to translate yet, the top box focused. */
  function Initial(clipboard: WhichClip, topText: seq<char>, botText: seq<char>,
                   topLang: seq<char>, botLang: seq<char>): (m: Machine)
    ensures m.active == NoBox && FocusedView(m.focused) == Some(TopView)
    ensures m.clipboard == clipboard && m.topText == topText && m.botText == botText
    ensures m.topLang == topLang && m.botLang == botLang
  {
    Machine(NoBox, TopBox, clipboard, topText, botText, topLang, botLang)
  }

  /** The other box of a translation. */
  function Other(pos: SrcPos): (dst: SrcPos)
    ensures pos == TopBox <==> dst == BotBox
    ensures pos == BotBox <==> dst == TopBox
  {
    match pos
    case TopBox => BotBox
    case BotBox => TopBox
    case NoBox => NoBox
  }

  /** focused_text_view: the view of the focused box, and none (NULL) when no box is focused. */
  function FocusedView(focused: SrcPos): (v: Option<TextView>)
    ensures v.None? <==> focused == NoBox
    ensures v == Some(TopView) <==> focused == TopBox
  {
    match focused
    case TopBox => Some(TopView)
    case BotBox => Some(BotView)
    case NoBox => None
  }

  /**
   * The fetch-and-extract part of translate_box for the text `text`: request
   * the URL, collect the body, rewrite doubled commas, parse, and join the
   * fragments of the sentence pairs.
   */
  function Response(svc: Services, text: seq<char>, sl: seq<char>, tl: seq<char>): (r: Result<seq<char>, FetchError>)
    ensures r == Failure(TransportFailed) <==> svc.perform(RequestUrl(sl, tl, svc.escape(text))).None?
    ensures r.Success? ==> NUL !in r.value
    ensures r == Failure(ParseFailed) <==>
      svc.perform(RequestUrl(sl, tl, svc.escape(text))).Some? &&
      svc.parse(Sanitized(Concat(svc.perform(RequestUrl(sl, tl, svc.escape(text))).value))).None?
  {
    match svc.perform(RequestUrl(sl, tl, svc.escape(text)))
    case None => Failure(TransportFailed)
    case Some(chunks) =>
      match svc.parse(Sanitized(Concat(chunks)))
      case None => Failure(ParseFailed)
      case Some(root) =>
        match Translation(root)
        case None => Failure(MissingFragment)
        case Some(t) => Success(t)
  }

  /** translate_box once the source has been picked: nothing for an empty source string. */
  function TranslateFrom(src: seq<char>, sl: seq<char>, tl: seq<char>, dst: SrcPos, svc: Services): (o: Outcome)
    ensures o == NotTranslated <==> src == []
    ensures o.Translated? ==> o.dst == dst && Response(svc, src, sl, tl) == Success(o.text)
    ensures o.Failed? ==> Response(svc, src, sl, tl) == Failure(o.failure)
  {
    if src == [] then NotTranslated
    else
      match Response(svc, src, sl, tl)
      case Failure(f) => Failed(f)
      case Success(t) => Translated(dst, t)
  }

  /** translate_box: the active box is the source, the other box the destination. */
  function Translate(m: Machine, svc: Services): (o: Outcome)
    ensures m.active == NoBox ==> o == NotTranslated
    ensures o.Translated? ==> m.active != NoBox && o.dst == Other(m.active) && NUL !in o.text
  {
    match m.active
    case NoBox => NotTranslated
    case TopBox => TranslateFrom(CStr(m.topText), m.topLang, m.botLang, BotBox, svc)
    case BotBox => TranslateFrom(CStr(m.botText), m.botLang, m.topLang, TopBox, svc)
  }

  /** The state after an outcome: a translation overwrites its destination box. */
  function Apply(m: Machine, o: Outcome): (after: Machine)
    ensures after.(topText := m.topText, botText := m.botText) == m
    ensures o.Translated? && o.dst == TopBox ==> after.topText == o.text && after.botText == m.botText
    ensures o.Translated? && o.dst == BotBox ==> after.botText == o.text && after.topText == m.topText
    ensures !o.Translated? ==> after == m
  {
    match o
    case Translated(TopBox, t) => m.(topText := t)
    case Translated(BotBox, t) => m.(botText := t)
    case _ => m
  }

  /** Translate, then apply. */
  function Retranslate(m: Machine, svc: Services): (r: (Machine, Outcome))
    ensures r.0.active == m.active && r.0.clipboard == m.clipboard
    ensures r.1.Translated? ==> r.1.dst == Other(m.active)
  {
    var o := Translate(m, svc);
    (Apply(m, o), o)
  }

  /** top_text_in_cb / bot_text_in_cb: the box that received the focus is the focused one. */
  function FocusIn(m: Machine, pos: SrcPos): (after: Machine)
    ensures after.focused == pos
    ensures after.(focused := m.focused) == m
  {
    m.(focused := pos)
  }

  /** top_text_out_cb / bot_text_out_cb: losing the focus clears it only if that box had it. */
  function FocusOut(m: Machine, pos: SrcPos): (after: Machine)
    ensures after.focused == NoBox <==> m.focused == pos || m.focused == NoBox
    ensures after.focused != NoBox ==> after.focused == m.focused
    ensures after.(focused := m.focused) == m
  {
    if m.focused == pos then m.(focused := NoBox) else m
  }

  /** clear_cb: both text buffers set to "". */
  function Cleared(m: Machine): (after: Machine)
    ensures after.topText == [] && after.botText == []
    ensures after.(topText := m.topText, botText := m.botText) == m
  {
    m.(topText := [], botText := [])
  }

  /** The signals connected in main whose handlers change the state. */
  datatype Event =
    | TopButtonClicked
    | BotButtonClicked
    | TopLangChanged(topId: seq<char>)
    | BotLangChanged(botId: seq<char>)
    | ClipReceived(clipText: Option<seq<char>>)
    | TopFocusIn
    | BotFocusIn
    | TopFocusOut
    | BotFocusOut
    | ClearActivated

  /**
   * The state after one handler and what its translate_box call did.
   * gtk_text_buffer_set_text(buf, text, -1) stores `text` up to its first NUL
   * and ignores a NULL text.
   */
  function Handle(m: Machine, e: Event, svc: Services): (r: (Machine, Outcome))
    ensures (e.TopFocusIn? || e.BotFocusIn? || e.TopFocusOut? || e.BotFocusOut? || e.ClearActivated?) ==>
      r.1 == NotTranslated
    ensures r.1.Translated? ==> r.1.dst == Other(r.0.active)
    ensures r.0.clipboard == m.clipboard
  {
    match e
    case TopButtonClicked => Retranslate(m.(active := TopBox), svc)
    case BotButtonClicked => Retranslate(m.(active := BotBox), svc)
    case TopLangChanged(id) => Retranslate(m.(topLang := id), svc)
    case BotLangChanged(id) => Retranslate(m.(botLang := id), svc)
    case ClipReceived(text) =>
      var m1 := m.(active := TopBox);
      Retranslate(if text.Some? then m1.(topText := CStr(text.value)) else m1, svc)
    case TopFocusIn => (FocusIn(m, TopBox), NotTranslated)
    case BotFocusIn => (FocusIn(m, BotBox), NotTranslated)
    case TopFocusOut => (FocusOut(m, TopBox), NotTranslated)
    case BotFocusOut => (FocusOut(m, BotBox), NotTranslated)
    case ClearActivated => (Cleared(m), NotTranslated)
  }

  /**
   * translate_box does nothing exactly when no box is active or the active
   * box's text is empty; then it makes no request, so its outcome does not
   * depend on the network or the parser at all.
   */
  lemma IdleExactlyWhenNoSource(m: Machine, svc: Services, other: Services)
    ensures var idle := m.active == NoBox ||
                        (m.active == TopBox && CStr(m.topText) == []) ||
                        (m.active == BotBox && CStr(m.botText) == []);
      (Translate(m, svc) == NotTranslated <==> idle) &&
      (idle ==> Translate(m, other) == NotTranslated && Apply(m, Translate(m, svc)) == m)
  {
  }

  /**
   * With TOP_BOX active, the top text is translated from top_lang to bot_lang
   * and overwrites the bottom box; with BOT_BOX active, the bottom text is
   * translated from bot_lang to top_lang and overwrites the top box. A failure
   * writes neither box.
   */
  lemma TranslateDirection(m: Machine, svc: Services)
    requires m.active != NoBox
    ensures var src := if m.active == TopBox then CStr(m.topText) else CStr(m.botText);
      var sl := if m.active == TopBox then m.topLang else m.botLang;
      var tl := if m.active == TopBox then m.botLang else m.topLang;
      var after := Apply(m, Translate(m, svc));
      src != [] ==>
        match Response(svc, src, sl, tl)
        case Failure(f) => Translate(m, svc) == Failed(f) && after == m
        case Success(t) =>
          Translate(m, svc) == Translated(Other(m.active), t) &&
          (m.active == TopBox ==> after == m.(botText := t)) &&
          (m.active == BotBox ==> after == m.(topText := t))
  {
  }

  /** Whatever translate_box does, it leaves the source box, the languages, `active` and `focused` alone. */
  lemma TranslateKeepsSource(m: Machine, svc: Services)
    ensures var after := Apply(m, Translate(m, svc));
      after.active == m.active && after.focused == m.focused && after.clipboard == m.clipboard &&
      after.topLang == m.topLang && after.botLang == m.botLang &&
      (m.active == TopBox ==> after.topText == m.topText) &&
      (m.active == BotBox ==> after.botText == m.botText)
  {
  }

  /** The same state with the two boxes exchanged. */
  function Mirror(m: Machine): Machine
  {
    m.(active := Other(m.active), focused := Other(m.focused),
       topText := m.botText, botText := m.topText,
       topLang := m.botLang, botLang := m.topLang)
  }

  /** The same outcome with its destination exchanged. */
  function MirrorOutcome(o: Outcome): Outcome
  {
    match o
    case Translated(dst, t) => Translated(Other(dst), t)
    case _ => o
  }

  /** Translating from the bottom box is the mirror image of translating from the top box. */
  lemma TranslateMirrors(m: Machine, svc: Services)
    ensures Translate(Mirror(m), svc) == MirrorOutcome(Translate(m, svc))
    ensures Apply(Mirror(m), Translate(Mirror(m), svc)) == Mirror(Apply(m, Translate(m, svc)))
  {
    match m.active
    case NoBox =>
    case TopBox =>
      assert Translate(Mirror(m), svc) == TranslateFrom(CStr(m.topText), m.topLang, m.botLang, TopBox, svc);
    case BotBox =>
      assert Translate(Mirror(m), svc) == TranslateFrom(CStr(m.botText), m.botLang, m.topLang, BotBox, svc);
  }

  /**
   * Focus-in makes that box the focused one; focus-out clears the focus only
   * when that same box had it, so focused_text_view then finds no view.
   */
  lemma FocusFollowsEvents(m: Machine, svc: Services)
    ensures FocusedView(Handle(m, TopFocusIn, svc).0.focused) == Some(TopView)
    ensures FocusedView(Handle(m, BotFocusIn, svc).0.focused) == Some(BotView)
    ensures Handle(m, TopFocusOut, svc).0.focused == if m.focused == TopBox then NoBox else m.focused
    ensures Handle(m, BotFocusOut, svc).0.focused == if m.focused == BotBox then NoBox else m.focused
    ensures FocusedView(Handle(Handle(m, TopFocusIn, svc).0, TopFocusOut, svc).0.focused) == None
    ensures Handle(Handle(m, BotFocusIn, svc).0, TopFocusOut, svc).0.focused == BotBox
  {
  }

  /**
   * Every handler changes only its own field: the focus handlers only
   * `focused`, each combo only its own language, the buttons and the clipboard
   * only `active` (before translating), and clear_cb only the two texts.
   */
  lemma HandlersTouchOwnFields(m: Machine, e: Event, svc: Services)
    ensures var after := Handle(m, e, svc).0;
      (after.focused != m.focused ==> e.TopFocusIn? || e.BotFocusIn? || e.TopFocusOut? || e.BotFocusOut?) &&
      after.topLang == (if e.TopLangChanged? then e.topId else m.topLang) &&
      after.botLang == (if e.BotLangChanged? then e.botId else m.botLang) &&
      after.active == (match e
                       case TopButtonClicked => TopBox
                       case ClipReceived(_) => TopBox
                       case BotButtonClicked => BotBox
                       case _ => m.active) &&
      after.clipboard == m.clipboard
  {
    var m1 := match e
              case TopButtonClicked => m.(active := TopBox)
              case BotButtonClicked => m.(active := BotBox)
              case TopLangChanged(id) => m.(topLang := id)
              case BotLangChanged(id) => m.(botLang := id)
              case ClipReceived(text) =>
                if text.Some? then m.(active := TopBox).(topText := CStr(text.value)) else m.(active := TopBox)
              case _ => m;
    TranslateKeepsSource(m1, svc);
  }

  /**
   * main starts with no active box and the top box focused, so a language
   * change before any button or clipboard text translates nothing.
   */
  lemma StartsIdle(clipboard: WhichClip, topText: seq<char>, botText: seq<char>,
                   topLang: seq<char>, botLang: seq<char>, id: seq<char>, svc: Services)
    ensures var m := Initial(clipboard, topText, botText, topLang, botLang);
      m.active == NoBox && FocusedView(m.focused) == Some(TopView) &&
      Handle(m, TopLangChanged(id), svc) == (m.(topLang := id), NotTranslated) &&
      Handle(m, BotLangChanged(id), svc) == (m.(botLang := id), NotTranslated)
  {
  }

  /** After clear_cb both boxes are empty, and a button or combo then translates nothing. */
  lemma ClearedBoxesStayEmpty(m: Machine, e: Event, svc: Services)
    requires e.TopButtonClicked? || e.BotButtonClicked? || e.TopLangChanged? || e.BotLangChanged?
    ensures var cleared := Handle(m, ClearActivated, svc).0;
      cleared.topText == [] && cleared.botText == [] &&
      Handle(cleared, e, svc).1 == NotTranslated &&
      Handle(cleared, e, svc).0.topText == [] && Handle(cleared, e, svc).0.botText == []
  {
  }

  /** A service answering with a single sentence pair yields that pair's fragment. */
  lemma SinglePairResponse(svc: Services, text: seq<char>, sl: seq<char>, tl: seq<char>, chunks: seq<seq<char>>,
                           fragment: seq<char>, pairRest: seq<Json>, rootRest: seq<Json>)
    requires NUL !in fragment
    requires svc.perform(RequestUrl(sl, tl, svc.escape(text))) == Some(chunks)
    requires svc.parse(Sanitized(Concat(chunks))) == Some(Arr([Arr([Arr([Str(fragment)] + pairRest)])] + rootRest))
    ensures Response(svc, text, sl, tl) == Success(fragment)
  {
    var pair := Arr([Str(fragment)] + pairRest);
    FirstStringFragment(fragment, pairRest);
    SinglePairTranslation(pair, rootRest);
  }

  /** clip_received_cb makes the top box active, stores the text if there is one, and translates. */
  lemma ClipReceivedRetranslates(m: Machine, text: Option<seq<char>>, svc: Services)
    ensures Handle(m, ClipReceived(text), svc) ==
      Retranslate(if text.Some? then m.(active := TopBox, topText := CStr(text.value)) else m.(active := TopBox), svc)
  {
  }

  /** Clipboard text whose request the service answers with `t`: `t` lands in the bottom box. */
  lemma ClipboardAnswered(m: Machine, svc: Services, text: seq<char>, t: seq<char>)
    requires text != [] && NUL !in text
    requires Response(svc, text, m.topLang, m.botLang) == Success(t)
    ensures Handle(m, ClipReceived(Some(text)), svc) ==
      (m.(active := TopBox, topText := text, botText := t), Translated(BotBox, t))
  {
    ClipReceivedRetranslates(m, Some(text), svc);
    assert CStr(text) == text;
    assert Translate(m.(active := TopBox, topText := text), svc) == Translated(BotBox, t);
  }

  /**
   * Clipboard text arriving while the service answers with a single sentence
   * pair whose first element is `fragment` (as in "hej då" from sv to en
   * answered by [[["hi there","hej då",null,null,1]]]): the top box holds
   * the clipboard text, and the bottom box ends up holding `fragment`.
   */
  lemma ClipboardTranslatedIntoBottom(m: Machine, svc: Services, text: seq<char>, chunks: seq<seq<char>>,
                                      fragment: seq<char>, pairRest: seq<Json>, rootRest: seq<Json>)
    requires text != [] && NUL !in text && NUL !in fragment
    requires svc.perform(RequestUrl(m.topLang, m.botLang, svc.escape(text))) == Some(chunks)
    requires svc.parse(Sanitized(Concat(chunks))) == Some(Arr([Arr([Arr([Str(fragment)] + pairRest)])] + rootRest))
    ensures Handle(m, ClipReceived(Some(text)), svc) ==
      (m.(active := TopBox, topText := text, botText := fragment), Translated(BotBox, fragment))
  {
    SinglePairResponse(svc, text, m.topLang, m.botLang, chunks, fragment, pairRest, rootRest);
    ClipboardAnswered(m, svc, text, fragment);
  }

  /** When curl fails, the handler leaves both boxes as they were. */
  lemma TransportFailureWritesNothing(m: Machine, svc: Services)
    requires CStr(m.topText) != []
    requires svc.perform(RequestUrl(m.topLang, m.botLang, svc.escape(CStr(m.topText)))) == None
    ensures Handle(m, TopButtonClicked, svc) == (m.(active := TopBox), Failed(TransportFailed))
  {
  }

  /**
   * curl_easy_perform with accumulate_mem_buf as its write callback: a fresh
   * buffer (mem_buf_new) that receives every chunk in order.
   */
  method Receive(chunks: seq<seq<char>>) returns (rawJson: MemBuf)
    ensures fresh(rawJson) && fresh(rawJson.mem)
    ensures rawJson.Valid() && rawJson.Contents() == Concat(chunks)
  {
    rawJson := new MemBuf();
    var i := 0;
    while i < |chunks|
      invariant 0 <= i <= |chunks|
      invariant fresh(rawJson) && fresh(rawJson.mem)
      invariant rawJson.Valid() && rawJson.Contents() == Concat(chunks[..i])
    {
      var _ := rawJson.Accumulate(chunks[i], 1, |chunks[i]|);
      ConcatAppend(chunks[..i], chunks[i]);
      assert chunks[..i + 1] == chunks[..i] + [chunks[i]];
      i := i + 1;
    }
    assert chunks[..i] == chunks;
  }

  /**
   * The sentence loop of translate_box: a fresh buffer (mem_buf_new) filled
   * by insert_sentence for every pair in root[0], read back as a C string.
   */
  method ExtractTranslation(root: Json) returns (r: Option<seq<char>>)
    ensures r == Translation(root)
  {
    var translation := new MemBuf();
    var ok := CollectSentences(SentencePairs(root), translation);
    if !ok {
      return None;
    }
    TranslationNulFree(root);
    assert translation.Contents() == Translation(root).value;
    assert translation.mem[..] == translation.Contents() + [NUL] + [];
    CStrOfTerminated(translation.Contents(), []);
    r := Some(CStr(translation.mem[..]));
  }

  /**
   * The middle of translate_box: build the URL, let curl fill a buffer,
   * rewrite doubled commas in place, parse, and collect the sentences.
   */
  method Fetch(svc: Services, text: seq<char>, sl: seq<char>, tl: seq<char>) returns (r: Result<seq<char>, FetchError>)
    ensures r == Response(svc, text, sl, tl)
  {
    var url := RequestUrl(sl, tl, svc.escape(text));
    var body := svc.perform(url);
    if body.None? {
      return Failure(TransportFailed);
    }
    var rawJson := Receive(body.value);
    ghost var received := rawJson.Contents();
    assert rawJson.mem[..rawJson.size + 1] == received + [NUL];
    SanitizeCommas(rawJson.mem, rawJson.size);
    SanitizeKeepsTerminator(received);
    var sanitized := rawJson.mem[..rawJson.size];
    assert sanitized == rawJson.mem[..rawJson.size + 1][..rawJson.size];
    assert sanitized == Sanitized(received);
    var root := svc.parse(sanitized);
    if root.None? {
      return Failure(ParseFailed);
    }
    var t := ExtractTranslation(root.value);
    if t.None? {
      return Failure(MissingFragment);
    }
    r := Success(t.value);
  }

  class State {
    var active: SrcPos
    var focused: SrcPos
    var clipboard: WhichClip
    var topText: seq<char>
    var botText: seq<char>
    var topLang: seq<char>
    var botLang: seq<char>

    function Snapshot(): Machine
      reads this
    {
      Machine(active, focused, clipboard, topText, botText, topLang, botLang)
    }

    /** The state main fills in before entering the GTK main loop. */
    constructor (clipboard: WhichClip, topText: seq<char>, botText: seq<char>,
                 topLang: seq<char>, botLang: seq<char>)
      ensures Snapshot() == Initial(clipboard, topText, botText, topLang, botLang)
    {
      this.active := NoBox;
      this.focused := TopBox;
      this.clipboard := clipboard;
      this.topText := topText;
      this.botText := botText;
      this.topLang := topLang;
      this.botLang := botLang;
    }

    /** translate_box. */
    method TranslateBox(svc: Services) returns (o: Outcome)
      modifies this
      ensures o == Translate(old(Snapshot()), svc)
      ensures Snapshot() == Apply(old(Snapshot()), o)
    {
      var srcText, srcLang, dstLang, dst;
      match active {
        case NoBox =>
          return NotTranslated;
        case TopBox =>
          srcText, srcLang, dstLang, dst := topText, topLang, botLang, BotBox;
        case BotBox =>
          srcText, srcLang, dstLang, dst := botText, botLang, topLang, TopBox;
      }
      var src := CStr(srcText);
      if src == [] {
        return NotTranslated;
      }
      var r := Fetch(svc, src, srcLang, dstLang);
      match r {
        case Failure(f) =>
          o := Failed(f);
        case Success(t) =>
          if dst == TopBox {
            topText := t;
          } else {
            botText := t;
          }
          o := Translated(dst, t);
      }
    }

    /** top_but_cb. */
    method OnTopButton(svc: Services) returns (o: Outcome)
      modifies this
      ensures (Snapshot(), o) == Handle(old(Snapshot()), TopButtonClicked, svc)
    {
      active := TopBox;
      o := TranslateBox(svc);
    }

    /** bot_but_cb. */
    method OnBotButton(svc: Services) returns (o: Outcome)
      modifies this
      ensures (Snapshot(), o) == Handle(old(Snapshot()), BotButtonClicked, svc)
    {
      active := BotBox;
      o := TranslateBox(svc);
    }

    /** top_combo_cb, given the id of the language now selected up top. */
    method OnTopCombo(id: seq<char>, svc: Services) returns (o: Outcome)
      modifies this
      ensures (Snapshot(), o) == Handle(old(Snapshot()), TopLangChanged(id), svc)
    {
      topLang := id;
      o := TranslateBox(svc);
    }

    /** bot_combo_cb, given the id of the language now selected below. */
    method OnBotCombo(id: seq<char>, svc: Services) returns (o: Outcome)
      modifies this
      ensures (Snapshot(), o) == Handle(old(Snapshot()), BotLangChanged(id), svc)
    {
      botLang := id;
      o := TranslateBox(svc);
    }

    /** clip_received_cb, given the clipboard text or None (NULL) when there is none. */
    method OnClipReceived(text: Option<seq<char>>, svc: Services) returns (o: Outcome)
      modifies this
      ensures (Snapshot(), o) == Handle(old(Snapshot()), ClipReceived(text), svc)
    {
      ghost var before := Snapshot();
      active := TopBox;
      if text.Some? {
        topText := CStr(text.value);
      }
      ghost var shown := Snapshot();
      assert shown == if text.Some? then before.(active := TopBox, topText := CStr(text.value))
                      else before.(active := TopBox);
      ClipReceivedRetranslates(before, text, svc);
      o := TranslateBox(svc);
      assert (Snapshot(), o) == Retranslate(shown, svc);
    }

    /** top_text_in_cb; FALSE lets GTK go on handling the event. */
    method OnTopFocusIn() returns (stop: bool)
      modifies this
      ensures Snapshot() == FocusIn(old(Snapshot()), TopBox)
      ensures !stop
    {
      focused := TopBox;
      stop := false;
    }

    /** bot_text_in_cb. */
    method OnBotFocusIn() returns (stop: bool)
      modifies this
      ensures Snapshot() == FocusIn(old(Snapshot()), BotBox)
      ensures !stop
    {
      focused := BotBox;
      stop := false;
    }

    /** top_text_out_cb. */
    method OnTopFocusOut() returns (stop: bool)
      modifies this
      ensures Snapshot() == FocusOut(old(Snapshot()), TopBox)
      ensures !stop
    {
      if focused == TopBox {
        focused := NoBox;
      }
      stop := false;
    }

    /** bot_text_out_cb. */
    method OnBotFocusOut() returns (stop: bool)
      modifies this
      ensures Snapshot() == FocusOut(old(Snapshot()), BotBox)
      ensures !stop
    {
      if focused == BotBox {
        focused := NoBox;
      }
      stop := false;
    }

    /** clear_cb. */
    method OnClear()
      modifies this
      ensures Snapshot() == Cleared(old(Snapshot()))
    {
      topText := [];
      botText := [];
    }
  }
}
