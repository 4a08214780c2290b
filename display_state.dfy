/** `update_display_data` of `test2.py`: the display globals are updated
    field by field, an absent argument keeping the old value; a text that
    does not continue the current one resets the scroll offset and clears
    the line-image cache. */
module DisplayState {
  import opened Common
  import opened Header

  /** The display globals. `cacheClears` counts the calls that cleared the
      line-image cache. */
  datatype DisplayRecord = DisplayRecord(
    status: string, emoji: string, text: string,
    scrollTop: int, scrollSpeed: int,
    batteryLevel: int, batteryColour: Colour,
    imagePath: string,
    cacheClears: nat)

  /** The arguments of one call; `None` is an argument left at its default. */
  datatype Update = Update(
    status: Option<string>, emoji: Option<string>, text: Option<string>,
    scrollSpeed: Option<int>, batteryLevel: Option<int>, batteryColour: Option<Colour>,
    imagePath: Option<string>)

  /** The new text does not continue the current text. */
  predicate Restarts(current: string, text: Option<string>) {
    text.Some? && !StartsWith(text.value, current)
  }

  /** The record after one call. */
  function Apply(s: DisplayRecord, u: Update): (r: DisplayRecord)
    // every argument given replaces its field; every one left out keeps it
    ensures r.status == u.status.GetOr(s.status)
    ensures r.emoji == u.emoji.GetOr(s.emoji)
    ensures r.text == u.text.GetOr(s.text)
    ensures r.scrollSpeed == u.scrollSpeed.GetOr(s.scrollSpeed)
    ensures r.batteryLevel == u.batteryLevel.GetOr(s.batteryLevel)
    ensures r.batteryColour == u.batteryColour.GetOr(s.batteryColour)
    ensures r.imagePath == u.imagePath.GetOr(s.imagePath)
    // a text that does not continue the old one restarts scrolling and clears the cache, and only such a text does
    ensures Restarts(s.text, u.text) ==> r.scrollTop == 0 && r.cacheClears == s.cacheClears + 1
    ensures !Restarts(s.text, u.text) ==> r.scrollTop == s.scrollTop && r.cacheClears == s.cacheClears
  {
    var restart := Restarts(s.text, u.text);
    DisplayRecord(
      u.status.GetOr(s.status), u.emoji.GetOr(s.emoji), u.text.GetOr(s.text),
      if restart then 0 else s.scrollTop,
      u.scrollSpeed.GetOr(s.scrollSpeed),
      u.batteryLevel.GetOr(s.batteryLevel), u.batteryColour.GetOr(s.batteryColour),
      u.imagePath.GetOr(s.imagePath),
      if restart then s.cacheClears + 1 else s.cacheClears)
  }

  /** The update that only sets the text. */
  function TextOnly(text: string): Update {
    Update(None, None, Some(text), None, None, None, None)
  }

  /** Applying the same call twice is the same as applying it once: the
      second time the text continues itself, so nothing restarts. */
  lemma ApplyIdempotent(s: DisplayRecord, u: Update)
    ensures Apply(Apply(s, u), u) == Apply(s, u)
  {
    assert !Restarts(Apply(s, u).text, u.text);
  }

  /** A call without arguments changes nothing. */
  lemma ApplyEmpty(s: DisplayRecord)
    ensures Apply(s, Update(None, None, None, None, None, None, None)) == s
  {
  }

  /** The texts of a stream of text-only calls, applied in order. */
  function ApplyTexts(s: DisplayRecord, texts: seq<string>): (r: DisplayRecord)
    ensures texts != [] ==> r.text == texts[|texts| - 1]
    ensures texts == [] ==> r == s
  {
    if texts == [] then s else Apply(ApplyTexts(s, texts[..|texts| - 1]), TextOnly(texts[|texts| - 1]))
  }

  /** A text that grows by continuation, as a streamed answer does, keeps the
      scroll position and the cache for the whole stream. */
  lemma {:induction false} StreamKeepsScroll(s: DisplayRecord, texts: seq<string>)
    requires texts != [] ==> StartsWith(texts[0], s.text)
    requires forall i :: 0 < i < |texts| ==> StartsWith(texts[i], texts[i - 1])
    ensures ApplyTexts(s, texts).scrollTop == s.scrollTop
    ensures ApplyTexts(s, texts).cacheClears == s.cacheClears
  {
    if texts != [] {
      var init := texts[..|texts| - 1];
      StreamKeepsScroll(s, init);
      if |texts| > 1 {
        assert ApplyTexts(s, init).text == texts[|texts| - 2];
      }
    }
  }

  /** A continuation keeps the scroll offset and a replacement resets it. */
  lemma ResetExamples(s: DisplayRecord)
    requires s.text == "Hello" && s.scrollTop == 40
    ensures Apply(s, TextOnly("Hello there")).scrollTop == 40
    ensures Apply(s, TextOnly("Goodbye")).scrollTop == 0
    ensures Apply(s, TextOnly("Hell")).scrollTop == 0
  {
    assert !StartsWith("Goodbye", "Hello") by { assert "Goodbye"[0] != "Hello"[0]; }
    assert !StartsWith("Hell", "Hello");
  }

  /** The module globals `update_display_data` assigns. */
  class DisplayGlobals {
    var currentStatus: string
    var currentEmoji: string
    var currentText: string
    var currentScrollTop: int
    var currentScrollSpeed: int
    var currentBatteryLevel: int
    var currentBatteryColour: Colour
    var currentImagePath: string
    var cacheClears: nat

    /** The globals as one record. */
    function Record(): DisplayRecord
      reads this
    {
      DisplayRecord(currentStatus, currentEmoji, currentText, currentScrollTop, currentScrollSpeed,
                    currentBatteryLevel, currentBatteryColour, currentImagePath, cacheClears)
    }

    constructor (init: DisplayRecord)
      ensures Record() == init
    {
      currentStatus := init.status;
      currentEmoji := init.emoji;
      currentText := init.text;
      currentScrollTop := init.scrollTop;
      currentScrollSpeed := init.scrollSpeed;
      currentBatteryLevel := init.batteryLevel;
      currentBatteryColour := init.batteryColour;
      currentImagePath := init.imagePath;
      cacheClears := init.cacheClears;
    }

    /** The first step of `update_display_data`: a text that does not
        continue the current text resets the scroll offset and clears the
        line-image cache. */
    method ResetOnNewText(text: Option<string>)
      modifies this`currentScrollTop, this`cacheClears
      ensures Restarts(currentText, text) ==> currentScrollTop == 0 && cacheClears == old(cacheClears) + 1
      ensures !Restarts(currentText, text) ==> currentScrollTop == old(currentScrollTop) && cacheClears == old(cacheClears)
    {
      if text.Some? && !StartsWith(text.value, currentText) {
        currentScrollTop := 0;
        cacheClears := cacheClears + 1;
      }
    }

    /** `update_display_data`. */
    method UpdateDisplayData(status: Option<string>, emoji: Option<string>, text: Option<string>,
                             scrollSpeed: Option<int>, batteryLevel: Option<int>,
                             batteryColour: Option<Colour>, imagePath: Option<string>)
      modifies this
      ensures Record() == Apply(old(Record()), Update(status, emoji, text, scrollSpeed, batteryLevel, batteryColour, imagePath))
    {
      ResetOnNewText(text);
      if scrollSpeed.Some? {
        currentScrollSpeed := scrollSpeed.value;
      }
      currentStatus := status.GetOr(currentStatus);
      currentEmoji := emoji.GetOr(currentEmoji);
      currentText := text.GetOr(currentText);
      currentBatteryLevel := batteryLevel.GetOr(currentBatteryLevel);
      currentBatteryColour := batteryColour.GetOr(currentBatteryColour);
      currentImagePath := imagePath.GetOr(currentImagePath);
    }
  }
}
