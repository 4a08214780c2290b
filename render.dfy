/** The frame renderer of `OdinSpecter.py` (`RenderThread.render_frame` and
    `RenderThread.render_main_text`): per frame it shows either a full-screen
    image or a header strip plus a scrolling text body, keeps a one-entry
    cache of the rasterised visible lines, and advances the scroll offset.
    Rasters are opaque: a decoded image is a `Raster` and the text tile is a
    record of what is drawn into it. Every call to the display's
    `draw_image` is recorded in `draws`. */
module Render {
  import opened Common
  import opened Scroll
  import opened Header

  /** Height of the header strip: 88 pixels of header plus a 10-pixel margin. */
  const HeaderStripHeight: int := 88 + 10

  /** An image as decoded, cropped and resized by the imaging library. */
  datatype Raster = Raster(id: nat)

  /** What opening the file at the current image path yields. */
  datatype ImageFile = Missing | Unreadable | Decoded(image: Raster)

  /** The rasterised visible lines: a black canvas `width` x `height`, the
      lines drawn at x = 10 from y = `firstY` onwards, one `lineHeight` apart. */
  datatype TextTile = TextTile(width: int, height: int, lines: seq<string>, firstY: int, lineHeight: int)

  /** The line cache: the concatenated visible text it was built for and its tile. */
  datatype TextCache = TextCache(key: string, image: Option<TextTile>)

  /** The body strip after rendering: left black, or with the cached tile
      pasted at vertical position `y`. */
  datatype Body = Blank | Pasted(tile: TextTile, y: int)

  /** How `render_main_text` ends: it returns with the body drawn, or the
      paste raises because no tile has been cached yet. */
  datatype TextOutcome = Rendered(body: Body) | PasteRaised

  /** What a `draw_image` call sends, before conversion to RGB565. */
  datatype Content = FullImage(image: Raster) | HeaderStrip(layout: HeaderLayout) | BodyStrip(body: Body)

  /** One call `draw_image(x, y, w, h, data)` on the display. */
  datatype DrawCall = DrawImage(x: int, y: int, w: int, h: int, content: Content)

  /** Everything a frame reads from outside the model: the image file, the
      wrapped lines of the text, and the font and colour measurements. */
  datatype FrameInputs = FrameInputs(
    file: ImageFile, lines: seq<string>,
    emojiWidth: int, batteryTextWidth: int, batteryTextLineHeight: int, luminance: real)

  /** The tile `render_main_text` builds for a window of lines. */
  function TileFor(lines: seq<string>, h: int, top: int, area: int, width: int): (t: TextTile)
    ensures t.lines == VisibleLines(lines, h, top, area)
    ensures t.firstY == h * FirstVisible(lines, h, top, area)
    ensures t.height == t.firstY + |t.lines| * h && t.width == width && t.lineHeight == h
  {
    var shown := VisibleLines(lines, h, top, area);
    var renderY := h * FirstVisible(lines, h, top, area);
    TextTile(width, renderY + |shown| * h, shown, renderY, h)
  }

  /** The cache update of one call: the key becomes the concatenated visible
      text; the tile is rebuilt only when that key changed. */
  function CacheStep(c: TextCache, lines: seq<string>, h: int, top: int, area: int, width: int): (r: TextCache)
    ensures r.key == Concat(VisibleLines(lines, h, top, area))
    ensures c.key == r.key ==> r == c
    ensures c.key != r.key ==> r.image == Some(TileFor(lines, h, top, area, width))
  {
    var key := Concat(VisibleLines(lines, h, top, area));
    if c.key != key then TextCache(key, Some(TileFor(lines, h, top, area, width))) else c
  }

  /** The cache's tile always shows text whose concatenation is the key. */
  predicate CacheConsistent(c: TextCache) {
    c.image.Some? ==> Concat(c.image.value.lines) == c.key
  }

  /** Each update keeps the cache consistent, starting from the empty cache
      `render_main_text`'s owner is constructed with. */
  lemma CacheStepConsistent(c: TextCache, lines: seq<string>, h: int, top: int, area: int, width: int)
    requires CacheConsistent(c)
    ensures CacheConsistent(CacheStep(c, lines, h, top, area, width))
    ensures CacheConsistent(TextCache("", None))
  {
  }

  /** No tile is cached after an update exactly when none was cached before
      and the visible lines join to the old key. Since an update never drops
      a tile, this happens only from the empty start-up cache, whose key is "". */
  lemma NoTileAfterStep(c: TextCache, lines: seq<string>, h: int, top: int, area: int, width: int)
    ensures CacheStep(c, lines, h, top, area, width).image.None?
            <==> c.image.None? && Concat(VisibleLines(lines, h, top, area)) == c.key
    ensures c.image.Some? ==> CacheStep(c, lines, h, top, area, width).image.Some?
  {
  }

  /** The start-up cache with a first window holding only an empty line:
      the key stays "", so no tile is built and the paste has none. */
  lemma EmptyLineLeavesNoTile()
    ensures CacheStep(TextCache("", None), [""], 24, 0, 182, 240) == TextCache("", None)
  {
    assert IsVisible(0, 24, 0, 182);
    assert VisiblePrefix([""], 1, 24, 0, 182) == [""] by {
      assert VisiblePrefix([""], 0, 24, 0, 182) == [];
    }
    assert VisibleLines([""], 24, 0, 182) == [""];
    assert Concat([""]) == "" by { assert [""][..0] == []; }
  }

  /** Rendering the same window twice is a cache hit the second time: the
      second call changes nothing, so the same tile is pasted again. */
  lemma CacheStepIdempotent(c: TextCache, lines: seq<string>, h: int, top: int, area: int, width: int)
    ensures CacheStep(CacheStep(c, lines, h, top, area, width), lines, h, top, area, width)
            == CacheStep(c, lines, h, top, area, width)
  {
  }

  /** The key is the concatenated text, not the window: three equal lines
      scrolled by one line keep the key "aa", so the tile built for the
      first window (lines from y = 0) is kept for the second one, whose own
      tile would start at y = 10. */
  lemma CacheKeyIgnoresPosition()
    ensures var lines := ["a", "a", "a"];
      var first := CacheStep(TextCache("", None), lines, 10, 0, 10, 240);
      var second := CacheStep(first, lines, 10, 11, 10, 240);
      second == first && second.image != Some(TileFor(lines, 10, 11, 10, 240))
  {
    var lines := ["a", "a", "a"];
    assert VisibleLines(lines, 10, 0, 10) == ["a", "a"];
    assert !IsVisible(0, 10, 11, 10) && IsVisible(1, 10, 11, 10) && IsVisible(2, 10, 11, 10);
    assert VisiblePrefix(lines, 1, 10, 11, 10) == [];
    assert VisiblePrefix(lines, 2, 10, 11, 10) == ["a"];
    assert VisibleLines(lines, 10, 11, 10) == ["a", "a"];
    assert Concat(["a", "a"]) == "aa" by {
      assert ["a", "a"][..1] == ["a"];
      assert Concat(["a"]) == "a" by { assert ["a"][..0] == []; }
    }
    assert FirstVisible(lines, 10, 0, 10) == 0;
    assert FirstVisibleFrom(1, 3, 10, 11, 10) == 1;
    assert FirstVisible(lines, 10, 11, 10) == 1;
  }

  /** The module-level globals the renderer reads and writes. */
  class Globals {
    var currentStatus: string
    var currentEmoji: string
    var currentText: string
    var currentBatteryLevel: Option<int>
    var currentBatteryColour: Option<Colour>
    var currentScrollTop: int
    var currentScrollSpeed: int
    var currentImagePath: string
    var currentImage: Option<Raster>
    var cameraMode: bool

    /** The initial values at the top of the script. */
    constructor ()
      ensures currentStatus == "Hello" && currentText == "Waiting for message..."
      // the emoji literal as the script spells it: the UTF-8 bytes of U+1F604 read as Windows-1252
      ensures currentEmoji == "\U{F0}\U{178}\U{2DC}\U{201E}"
      ensures currentBatteryLevel == Some(100) && currentBatteryColour == Some(Rgb(0x55, 0xFF, 0x00))
      ensures currentScrollTop == 0 && currentScrollSpeed == 6
      ensures currentImagePath == "" && currentImage == None && !cameraMode
    {
      currentStatus := "Hello";
      currentEmoji := "\U{F0}\U{178}\U{2DC}\U{201E}";
      currentText := "Waiting for message...";
      currentBatteryLevel := Some(100);
      currentBatteryColour := Some(Rgb(0x55, 0xFF, 0x00));
      currentScrollTop := 0;
      currentScrollSpeed := 6;
      currentImagePath := "";
      currentImage := None;
      cameraMode := false;
    }
  }

  class RenderThread {
    const lcdWidth: int
    const lcdHeight: int
    /** The display's corner height, the x position of the status text. */
    const cornerHeight: int
    /** Ascent plus descent of the 20-point text font. */
    const mainTextLineHeight: int
    var textCacheImage: Option<TextTile>
    var currentRenderText: string
    /** Every `draw_image` call made so far, oldest first. */
    var draws: seq<DrawCall>
    /** A frame has raised, which ends the render thread's loop. */
    var crashed: bool

    function Cache(): TextCache
      reads this
    {
      TextCache(currentRenderText, textCacheImage)
    }

    constructor (width: int, height: int, corner: int, lineHeight: int)
      ensures lcdWidth == width && lcdHeight == height && cornerHeight == corner
      ensures mainTextLineHeight == lineHeight
      ensures Cache() == TextCache("", None) && draws == [] && !crashed
    {
      lcdWidth := width;
      lcdHeight := height;
      cornerHeight := corner;
      mainTextLineHeight := lineHeight;
      textCacheImage := None;
      currentRenderText := "";
      draws := [];
      crashed := false;
    }

    /** Renders the body text: selects the visible lines, refreshes the line
        cache when their concatenation changed, pastes the cached tile at
        `-current_scroll_top` and then advances the scroll offset. Empty text
        returns at once and changes nothing. When no tile has been cached yet
        the paste raises, before the offset is advanced. `lines` is the
        wrapping of `text`. */
    method RenderMainText(g: Globals, areaHeight: int, text: string, lines: seq<string>, scrollSpeed: int)
      returns (outcome: TextOutcome)
      modifies this`textCacheImage, this`currentRenderText, g`currentScrollTop
      ensures text == "" ==>
        outcome == Rendered(Blank) && Cache() == old(Cache()) && g.currentScrollTop == old(g.currentScrollTop)
      ensures text != "" ==>
        var c := CacheStep(old(Cache()), lines, mainTextLineHeight, old(g.currentScrollTop), areaHeight, lcdWidth);
        && Cache() == c
        && (c.image.None? ==> outcome == PasteRaised && g.currentScrollTop == old(g.currentScrollTop))
        && (c.image.Some? ==>
              outcome == Rendered(Pasted(c.image.value, -old(g.currentScrollTop)))
              && g.currentScrollTop == NextScroll(old(g.currentScrollTop), scrollSpeed, |lines|, mainTextLineHeight, areaHeight))
    {
      if text == "" {
        return Rendered(Blank);
      }
      var lineHeight := mainTextLineHeight;
      var displayLines, renderY := SelectVisible(lines, lineHeight, g.currentScrollTop, areaHeight);

      var renderText := "";
      var k := 0;
      while k < |displayLines|
        invariant 0 <= k <= |displayLines|
        invariant renderText == Concat(displayLines[..k])
      {
        renderText := renderText + displayLines[k];
        assert displayLines[..k + 1][..k] == displayLines[..k];
        k := k + 1;
      }
      assert displayLines[..|displayLines|] == displayLines;

      if currentRenderText != renderText {
        currentRenderText := renderText;
        textCacheImage := Some(TextTile(lcdWidth, renderY + |displayLines| * lineHeight, displayLines, renderY, lineHeight));
      }
      if textCacheImage.None? {
        // `paste(None, ...)` raises: there is no tile to size the region by
        return PasteRaised;
      }
      outcome := Rendered(Pasted(textCacheImage.value, -g.currentScrollTop));

      if scrollSpeed > 0 && g.currentScrollTop < (|lines| + 1) * lineHeight - areaHeight {
        g.currentScrollTop := g.currentScrollTop + scrollSpeed;
      }
    }

    /** The image branch of a frame: the decoded image already held in
        `current_image` is drawn full-screen, otherwise the file is decoded,
        kept and drawn, and a missing or unreadable file changes nothing. */
    method ShowImage(g: Globals, file: ImageFile)
      modifies this`draws, g`currentImage
      ensures old(g.currentImage).Some? ==>
        g.currentImage == old(g.currentImage)
        && draws == old(draws) + [DrawImage(0, 0, lcdWidth, lcdHeight, FullImage(old(g.currentImage).value))]
      ensures old(g.currentImage).None? && file.Decoded? ==>
        g.currentImage == Some(file.image)
        && draws == old(draws) + [DrawImage(0, 0, lcdWidth, lcdHeight, FullImage(file.image))]
      ensures old(g.currentImage).None? && !file.Decoded? ==>
        g.currentImage == None && draws == old(draws)
    {
      if g.currentImage.Some? {
        draws := draws + [DrawImage(0, 0, lcdWidth, lcdHeight, FullImage(g.currentImage.value))];
      } else if file != Missing {
        match file
        case Decoded(image) =>
          g.currentImage := Some(image);
          draws := draws + [DrawImage(0, 0, lcdWidth, lcdHeight, FullImage(image))];
        case Unreadable =>
          // the failure is only logged
      }
    }

    /** The text branch of a frame: `current_image` is cleared, the 98-pixel
        header is drawn and then the body of height `LCD_HEIGHT - 98` below
        it, unless the body's paste raises. */
    method ShowText(g: Globals, text: string, batteryLevel: Option<int>, batteryColour: Option<Colour>, world: FrameInputs)
      modifies this`textCacheImage, this`currentRenderText, this`draws, this`crashed, g`currentScrollTop, g`currentImage
      ensures
        var area := lcdHeight - HeaderStripHeight;
        var top := old(g.currentScrollTop);
        var c := CacheStep(old(Cache()), world.lines, mainTextLineHeight, top, area, lcdWidth);
        var raised := text != "" && c.image.None?;
        && g.currentImage == None
        && Cache() == (if text == "" then old(Cache()) else c)
        && g.currentScrollTop == (if text == "" || raised then top
                                  else NextScroll(top, g.currentScrollSpeed, |world.lines|, mainTextLineHeight, area))
        && crashed == (old(crashed) || raised)
        && draws == old(draws) + [
             DrawImage(0, 0, lcdWidth, HeaderStripHeight,
               HeaderStrip(RenderHeader(g.currentStatus, g.currentEmoji, batteryLevel, batteryColour,
                                        lcdWidth, cornerHeight, world.emojiWidth,
                                        world.batteryTextWidth, world.batteryTextLineHeight, world.luminance)))]
           + (if raised then [] else
                [DrawImage(0, HeaderStripHeight, lcdWidth, area,
                   BodyStrip(if text == "" then Blank else Pasted(c.image.value, -top)))])
    {
      g.currentImage := None;
      DrawHeader(g, batteryLevel, batteryColour, world);
      DrawBody(g, text, world.lines);
    }

    /** The header strip, drawn from the global status and emoji. */
    method DrawHeader(g: Globals, batteryLevel: Option<int>, batteryColour: Option<Colour>, world: FrameInputs)
      modifies this`draws
      ensures draws == old(draws) + [
        DrawImage(0, 0, lcdWidth, HeaderStripHeight,
          HeaderStrip(RenderHeader(g.currentStatus, g.currentEmoji, batteryLevel, batteryColour,
                                   lcdWidth, cornerHeight, world.emojiWidth,
                                   world.batteryTextWidth, world.batteryTextLineHeight, world.luminance)))]
    {
      var header := RenderHeader(g.currentStatus, g.currentEmoji, batteryLevel, batteryColour,
                                 lcdWidth, cornerHeight, world.emojiWidth,
                                 world.batteryTextWidth, world.batteryTextLineHeight, world.luminance);
      draws := draws + [DrawImage(0, 0, lcdWidth, HeaderStripHeight, HeaderStrip(header))];
    }

    /** The body strip below the header, of height `LCD_HEIGHT - 98`. When
        the paste raises, nothing is drawn and the thread is marked crashed. */
    method DrawBody(g: Globals, text: string, lines: seq<string>)
      modifies this`textCacheImage, this`currentRenderText, this`draws, this`crashed, g`currentScrollTop
      ensures
        var area := lcdHeight - HeaderStripHeight;
        var top := old(g.currentScrollTop);
        var c := CacheStep(old(Cache()), lines, mainTextLineHeight, top, area, lcdWidth);
        var raised := text != "" && c.image.None?;
        && Cache() == (if text == "" then old(Cache()) else c)
        && g.currentScrollTop == (if text == "" || raised then top
                                  else NextScroll(top, g.currentScrollSpeed, |lines|, mainTextLineHeight, area))
        && crashed == (old(crashed) || raised)
        && draws == old(draws) + (if raised then [] else
             [DrawImage(0, HeaderStripHeight, lcdWidth, area,
                BodyStrip(if text == "" then Blank else Pasted(c.image.value, -top)))])
    {
      var textAreaHeight := lcdHeight - HeaderStripHeight;
      var outcome := RenderMainText(g, textAreaHeight, text, lines, g.currentScrollSpeed);
      if outcome.PasteRaised? {
        crashed := true;
      } else {
        draws := draws + [DrawImage(0, HeaderStripHeight, lcdWidth, textAreaHeight, BodyStrip(outcome.body))];
      }
    }

    /** One frame. In camera mode nothing happens. With a non-empty image
        path the image branch runs and the header, the body, the cache and
        the scroll offset are not touched; otherwise the text branch runs.
        The header shows the global status and emoji; `scrollTop` is read
        from the globals. A paste with no cached tile raises out of the
        frame, which ends the render thread: `crashed` records it, and no
        frame runs after that. */
    method RenderFrame(g: Globals, status: string, emoji: string, text: string, scrollTop: int,
                       batteryLevel: Option<int>, batteryColour: Option<Colour>, world: FrameInputs)
      requires !crashed
      modifies this`textCacheImage, this`currentRenderText, this`draws, this`crashed, g`currentScrollTop, g`currentImage
      ensures g.cameraMode ==>
        Cache() == old(Cache()) && draws == old(draws) && crashed == old(crashed)
        && g.currentScrollTop == old(g.currentScrollTop) && g.currentImage == old(g.currentImage)
      ensures !g.cameraMode && g.currentImagePath != "" ==>
        && Cache() == old(Cache()) && g.currentScrollTop == old(g.currentScrollTop) && crashed == old(crashed)
        && (old(g.currentImage).Some? ==>
              g.currentImage == old(g.currentImage)
              && draws == old(draws) + [DrawImage(0, 0, lcdWidth, lcdHeight, FullImage(old(g.currentImage).value))])
        && (old(g.currentImage).None? && world.file.Decoded? ==>
              g.currentImage == Some(world.file.image)
              && draws == old(draws) + [DrawImage(0, 0, lcdWidth, lcdHeight, FullImage(world.file.image))])
        && (old(g.currentImage).None? && !world.file.Decoded? ==>
              g.currentImage == None && draws == old(draws))
      ensures !g.cameraMode && g.currentImagePath == "" ==>
        var area := lcdHeight - HeaderStripHeight;
        var top := old(g.currentScrollTop);
        var c := CacheStep(old(Cache()), world.lines, mainTextLineHeight, top, area, lcdWidth);
        var raised := text != "" && c.image.None?;
        && g.currentImage == None
        && Cache() == (if text == "" then old(Cache()) else c)
        && g.currentScrollTop == (if text == "" || raised then top
                                  else NextScroll(top, g.currentScrollSpeed, |world.lines|, mainTextLineHeight, area))
        && crashed == (old(crashed) || raised)
        && draws == old(draws) + [
             DrawImage(0, 0, lcdWidth, HeaderStripHeight,
               HeaderStrip(RenderHeader(g.currentStatus, g.currentEmoji, batteryLevel, batteryColour,
                                        lcdWidth, cornerHeight, world.emojiWidth,
                                        world.batteryTextWidth, world.batteryTextLineHeight, world.luminance)))]
           + (if raised then [] else
                [DrawImage(0, HeaderStripHeight, lcdWidth, area,
                   BodyStrip(if text == "" then Blank else Pasted(c.image.value, -top)))])
    {
      if g.cameraMode {
        return;
      }
      if g.currentImagePath != "" {
        ShowImage(g, world.file);
      } else {
        ShowText(g, text, batteryLevel, batteryColour, world);
      }
    }
  }
}
