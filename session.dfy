/** The stateful half of the content script (src/content/content-script.js):
    the `EnglishLearningAssistant` object with its active flag, its settings
    and the set of page elements it has already processed, driven by the
    messages the popup sends; and the arithmetic that places the dictionary
    tooltip next to a word. Page elements are abstract values carrying what
    the script reads from them. */
module Session {
  import opened Wrappers
  import opened Strings
  import Tagging

  // ---------------------------------------------------------------------
  // Settings

  /** The four settings the content script keeps. */
  datatype Settings = Settings(posTagging: bool, dictionary: bool, translation: bool, apiKey: string)

  /** The settings a fresh assistant starts with. */
  const DefaultSettings := Settings(true, true, true, "")

  /** The settings object of a message: each key may be present or absent. */
  datatype SettingsPatch = SettingsPatch(
    posTagging: Option<bool>, dictionary: Option<bool>, translation: Option<bool>, apiKey: Option<string>)

  /** A message without a settings object (spreading `undefined` adds no key). */
  const NoPatch := SettingsPatch(None, None, None, None)

  function Override<T>(current: T, given: Option<T>): T {
    if given.Some? then given.value else current
  }

  /** `{ ...settings, ...patch }`: every key the patch has replaces the current value. */
  function Merge(s: Settings, p: SettingsPatch): Settings {
    Settings(Override(s.posTagging, p.posTagging), Override(s.dictionary, p.dictionary),
             Override(s.translation, p.translation), Override(s.apiKey, p.apiKey))
  }

  /** Spreading two patches one after the other is spreading their union, the
      later one winning. */
  function Then(p: SettingsPatch, q: SettingsPatch): SettingsPatch {
    SettingsPatch(
      if q.posTagging.Some? then q.posTagging else p.posTagging,
      if q.dictionary.Some? then q.dictionary else p.dictionary,
      if q.translation.Some? then q.translation else p.translation,
      if q.apiKey.Some? then q.apiKey else p.apiKey)
  }

  /** A patch naming every key, drawn from `s`. */
  function Full(s: Settings): SettingsPatch {
    SettingsPatch(Some(s.posTagging), Some(s.dictionary), Some(s.translation), Some(s.apiKey))
  }

  /** Merging keeps the keys a patch leaves out, takes the ones it names, and
      applying the same patch again changes nothing. */
  lemma MergeLaws(s: Settings, p: SettingsPatch, q: SettingsPatch, t: Settings)
    ensures Merge(s, NoPatch) == s
    ensures Merge(s, Full(t)) == t
    ensures Merge(Merge(s, p), p) == Merge(s, p)
    ensures Merge(Merge(s, p), q) == Merge(s, Then(p, q))
  {
  }

  // ---------------------------------------------------------------------
  // Page elements

  /** A page element as the content script sees it: its identity, its tag
      name, its computed `display` and `visibility`, its text content, and
      whether it already holds an `ela-word` span. */
  datatype Element = Element(
    id: nat, tagName: string, display: string, visibility: string, text: string, hasWordSpan: bool)

  /** `shouldProcessElement`: not a script or style element, not hidden, at
      least ten characters of trimmed text, and not yet holding a word span. */
  predicate ShouldProcessElement(e: Element) {
    && e.tagName !in ["SCRIPT", "STYLE", "NOSCRIPT"]
    && e.display != "none" && e.visibility != "hidden"
    && |Trim(e.text)| >= 10
    && !e.hasWordSpan
  }

  /** The identities of a list of elements. */
  function Ids(es: seq<Element>): set<nat> {
    set i | 0 <= i < |es| :: es[i].id
  }

  lemma IdsAppend(es: seq<Element>, e: Element)
    ensures Ids(es + [e]) == Ids(es) + {e.id}
  {
    var r := es + [e];
    assert r[|es|] == e;
    assert forall i :: 0 <= i < |es| ==> r[i] == es[i];
  }

  predicate DistinctIds(es: seq<Element>) {
    forall i, j :: 0 <= i < j < |es| ==> es[i].id != es[j].id
  }

  /** Recording an element with a new identity keeps the identities distinct. */
  lemma RecordNew(es: seq<Element>, e: Element)
    requires DistinctIds(es) && e.id !in Ids(es)
    ensures DistinctIds(es + [e]) && Ids(es + [e]) == Ids(es) + {e.id}
  {
    IdsAppend(es, e);
    assert forall k :: 0 <= k < |es| ==> es[k].id in Ids(es);
  }

  /** `[...new Set(elements)]`: each element once, at its first occurrence. */
  function Dedup(es: seq<Element>): seq<Element> {
    if es == [] then []
    else
      var d := Dedup(es[..|es| - 1]);
      var e := es[|es| - 1];
      if e in d then d else d + [e]
  }

  /** `Dedup` keeps every element of the list and no element twice. */
  lemma {:induction false} DedupSpec(es: seq<Element>)
    ensures forall e :: e in Dedup(es) <==> e in es
    ensures forall i, j :: 0 <= i < j < |Dedup(es)| ==> Dedup(es)[i] != Dedup(es)[j]
  {
    if es != [] {
      var front := es[..|es| - 1];
      var d, e := Dedup(front), es[|es| - 1];
      DedupSpec(front);
      assert es == front + [e];
      if e !in d {
        var r := d + [e];
        assert Dedup(es) == r;
        forall i, j | 0 <= i < j < |r|
          ensures r[i] != r[j]
        {
          assert r[i] == d[i];
          if j == |d| {
            assert r[j] == e && d[i] in d;
          } else {
            assert r[j] == d[j] && d[i] != d[j];
          }
        }
      }
    }
  }

  /** The elements one pass of `processPage` handles, in order, given the
      identities already processed: those not processed before, in this pass
      or earlier, that pass `shouldProcessElement`. */
  function Pending(es: seq<Element>, done: set<nat>): seq<Element> {
    if es == [] then []
    else
      var p := Pending(es[..|es| - 1], done);
      var e := es[|es| - 1];
      if e.id !in done + Ids(p) && ShouldProcessElement(e) then p + [e] else p
  }

  /** One more element of the page: the pass handles it too exactly when it is
      new and passes `shouldProcessElement`. */
  lemma PendingStep(es: seq<Element>, i: nat, done: set<nat>)
    requires i < |es|
    ensures var p := Pending(es[..i], done);
      Pending(es[..i + 1], done) ==
        if es[i].id !in done + Ids(p) && ShouldProcessElement(es[i]) then p + [es[i]] else p
  {
    assert es[..i + 1][..i] == es[..i];
  }

  /** Every handled element comes from the page, passes `shouldProcessElement`,
      was not processed before, and is handled once. */
  lemma {:induction false} PendingSound(es: seq<Element>, done: set<nat>)
    ensures var p := Pending(es, done);
      && (forall k :: 0 <= k < |p| ==> p[k] in es && ShouldProcessElement(p[k]) && p[k].id !in done)
      && DistinctIds(p)
  {
    if es != [] {
      var front := es[..|es| - 1];
      var p := Pending(front, done);
      var e := es[|es| - 1];
      PendingSound(front, done);
      assert forall x :: x in front ==> x in es;
      if e.id !in done + Ids(p) && ShouldProcessElement(e) {
        RecordNew(p, e);
      }
    }
  }

  /** Every element of the page that was not processed before and passes
      `shouldProcessElement` is handled, or one with its identity is. */
  lemma {:induction false} PendingComplete(es: seq<Element>, done: set<nat>)
    ensures forall e :: e in es && e.id !in done && ShouldProcessElement(e) ==>
      e.id in Ids(Pending(es, done))
  {
    if es != [] {
      var front := es[..|es| - 1];
      var p := Pending(front, done);
      var last := es[|es| - 1];
      PendingComplete(front, done);
      assert es == front + [last];
      if last.id !in done + Ids(p) && ShouldProcessElement(last) {
        IdsAppend(p, last);
      }
    }
  }

  /** A pass over a page where nothing is left to process handles nothing. */
  lemma {:induction false} PendingNone(es: seq<Element>, done: set<nat>)
    requires forall e :: e in es ==> e.id in done || !ShouldProcessElement(e)
    ensures Pending(es, done) == []
  {
    if es != [] {
      var front := es[..|es| - 1];
      assert forall x :: x in front ==> x in es;
      PendingNone(front, done);
    }
  }

  /** Each element is processed at most once per session: a second pass over
      the same page, after the first pass's elements were recorded, handles
      nothing. */
  lemma SecondPassIdle(es: seq<Element>, done: set<nat>)
    ensures Pending(es, done + Ids(Pending(es, done))) == []
  {
    PendingComplete(es, done);
    PendingNone(es, done + Ids(Pending(es, done)));
  }

  /** What `processPage` handles with the given settings: nothing when
      part-of-speech tagging is off. */
  function PageWork(s: Settings, found: seq<Element>, done: set<nat>): seq<Element> {
    if s.posTagging then Pending(Dedup(found), done) else []
  }

  // ---------------------------------------------------------------------
  // Messages

  /** A message from the popup: its `type` and its `settings` object. */
  datatype Message = Message(kind: string, settings: SettingsPatch)

  /** The object passed to `sendResponse`. */
  datatype Reply = Done | Status(isActive: bool) | Failed(error: string)

  const NoEnglishText := "英語テキストが見つかりません"
  const UnknownMessageType := "Unknown message type"

  /** The content script's assistant object. The tooltip fields and timers are
      not part of this model. */
  class LearningAssistant {
    var isActive: bool
    var settings: Settings
    /** Identities of the elements processed since the last stop. */
    var processedElements: set<nat>

    constructor()
      ensures !isActive && settings == DefaultSettings && processedElements == {}
    {
      isActive := false;
      settings := DefaultSettings;
      processedElements := {};
    }

    /** `processPage`: the page's elements in selector order (with repeats),
        deduplicated; each one not yet processed that passes
        `shouldProcessElement` is processed and its identity recorded. */
    method ProcessPage(found: seq<Element>) returns (handled: seq<Element>)
      modifies this`processedElements
      ensures handled == PageWork(old(settings), found, old(processedElements))
      ensures processedElements == old(processedElements) + Ids(handled)
    {
      handled := [];
      if !settings.posTagging {
        return;
      }
      var uniqueElements := Dedup(found);
      var done := processedElements;
      for i := 0 to |uniqueElements|
        invariant handled == Pending(uniqueElements[..i], done)
        invariant processedElements == done + Ids(handled)
      {
        var element := uniqueElements[i];
        PendingStep(uniqueElements, i, done);
        if element.id !in processedElements && ShouldProcessElement(element) {
          // processTextElement(element) rewrites the element's text nodes
          IdsAppend(handled, element);
          processedElements := processedElements + {element.id};
          handled := handled + [element];
        }
      }
      assert uniqueElements[..|uniqueElements|] == uniqueElements;
    }

    /** `startLearningMode`: the settings are merged first; without English
        text on the page the call fails and nothing else changes; otherwise
        the page is processed and the mode becomes active. */
    method StartLearningMode(patch: SettingsPatch, bodyText: string, found: seq<Element>)
      returns (reply: Reply)
      modifies this
      ensures settings == Merge(old(settings), patch)
      ensures !Tagging.LooksEnglish(bodyText) ==>
        && reply == Failed(NoEnglishText)
        && isActive == old(isActive) && processedElements == old(processedElements)
      ensures Tagging.LooksEnglish(bodyText) ==>
        && reply == Done && isActive
        && processedElements ==
             old(processedElements) + Ids(PageWork(settings, found, old(processedElements)))
    {
      settings := Merge(settings, patch);
      var english := Tagging.DetectEnglishText(bodyText);
      if !english {
        return Failed(NoEnglishText);
      }
      var _ := ProcessPage(found);
      isActive := true;
      reply := Done;
    }

    /** `stopLearningMode`: the spans are unwrapped (see `Tagging.ClearProcessed`),
        the processed set is emptied and the mode becomes inactive. */
    method StopLearningMode() returns (reply: Reply)
      modifies this
      ensures reply == Done && !isActive && processedElements == {}
      ensures settings == old(settings)
    {
      processedElements := {};
      isActive := false;
      reply := Done;
    }

    /** `updateSettings`: merge, and process the page again when active. */
    method UpdateSettings(patch: SettingsPatch, found: seq<Element>)
      modifies this
      ensures settings == Merge(old(settings), patch) && isActive == old(isActive)
      ensures processedElements == old(processedElements) +
        (if isActive then Ids(PageWork(settings, found, old(processedElements))) else {})
    {
      settings := Merge(settings, patch);
      if isActive {
        var _ := ProcessPage(found);
      }
    }

    /** `handleMessage`: dispatch on the message type. */
    method HandleMessage(message: Message, bodyText: string, found: seq<Element>)
      returns (reply: Reply)
      modifies this
      ensures message.kind == "START_LEARNING_MODE" ==>
        && settings == Merge(old(settings), message.settings)
        && (reply == Done <==> Tagging.LooksEnglish(bodyText))
        && (reply != Done ==> reply == Failed(NoEnglishText) && isActive == old(isActive))
        && (reply == Done ==> isActive)
        && processedElements == old(processedElements) +
             (if Tagging.LooksEnglish(bodyText) then Ids(PageWork(settings, found, old(processedElements))) else {})
      ensures message.kind == "STOP_LEARNING_MODE" ==>
        reply == Done && !isActive && processedElements == {} && settings == old(settings)
      ensures message.kind == "UPDATE_SETTINGS" ==>
        && reply == Done && settings == Merge(old(settings), message.settings) && isActive == old(isActive)
        && processedElements == old(processedElements) +
             (if old(isActive) then Ids(PageWork(settings, found, old(processedElements))) else {})
      ensures message.kind == "CHECK_STATUS" ==>
        && reply == Status(old(isActive))
        && isActive == old(isActive) && settings == old(settings)
        && processedElements == old(processedElements)
      ensures message.kind !in ["START_LEARNING_MODE", "STOP_LEARNING_MODE", "UPDATE_SETTINGS", "CHECK_STATUS"] ==>
        && reply == Failed(UnknownMessageType)
        && isActive == old(isActive) && settings == old(settings)
        && processedElements == old(processedElements)
    {
      match message.kind
      case "START_LEARNING_MODE" =>
        reply := StartLearningMode(message.settings, bodyText, found);
      case "STOP_LEARNING_MODE" =>
        reply := StopLearningMode();
      case "UPDATE_SETTINGS" =>
        UpdateSettings(message.settings, found);
        reply := Done;
      case "CHECK_STATUS" =>
        reply := Status(isActive);
      case _ =>
        reply := Failed(UnknownMessageType);
    }
  }

  // ---------------------------------------------------------------------
  // positionTooltip

  /** The word's bounding rectangle, in viewport coordinates. */
  datatype Rect = Rect(top: int, bottom: int, left: int)

  /** The window's scroll offsets and inner size. */
  datatype Viewport = Viewport(scrollX: int, scrollY: int, innerWidth: int, innerHeight: int)

  /** Where the tooltip's top-left corner goes, in page coordinates. */
  datatype Placement = Placement(top: int, left: int)

  /** The tooltip box the placement assumes: 300 wide, 200 high, 8 away from the word. */
  const TooltipWidth := 300
  const TooltipHeight := 200
  const Gap := 8

  /** `positionTooltip`: below the word and aligned with its left edge,
      pulled left when it would cross the right edge of the window, and put
      above the word when it would cross the bottom edge. */
  function PositionTooltip(rect: Rect, view: Viewport): (p: Placement)
    ensures p.left + TooltipWidth <= view.innerWidth
    ensures p.left <= rect.left + view.scrollX
    ensures p.left == rect.left + view.scrollX <==> rect.left + view.scrollX + TooltipWidth <= view.innerWidth
    ensures p.left != rect.left + view.scrollX ==> p.left + TooltipWidth + 10 == view.innerWidth
  {
    var top := rect.bottom + view.scrollY + 8;
    var left := rect.left + view.scrollX;
    var left' := if left + 300 > view.innerWidth then view.innerWidth - 310 else left;
    var top' := if top + 200 > view.innerHeight + view.scrollY then rect.top + view.scrollY - 208 else top;
    Placement(top', left')
  }

  /** Vertically the tooltip either sits 8 below the word with its bottom
      edge no lower than the window's, or, when that would cross the bottom
      edge, sits with its bottom edge 8 above the word. */
  lemma TooltipPlacement(rect: Rect, view: Viewport)
    ensures var p := PositionTooltip(rect, view);
      ((p.top == rect.bottom + view.scrollY + Gap && p.top + TooltipHeight <= view.innerHeight + view.scrollY)
          || (p.top + TooltipHeight + Gap == rect.top + view.scrollY
              && rect.bottom + view.scrollY + Gap + TooltipHeight > view.innerHeight + view.scrollY))
  {
  }
}
