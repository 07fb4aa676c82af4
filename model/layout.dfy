/** The layout decisions taken from the window's size: the layout provider
    (`LayoutContext`, TypeScript) and the older `useLayoutMode` hook
    (JavaScript). Both choose the horizontal layout for a landscape tablet;
    they differ in when the compact scale applies. The window size is a
    parameter of each check; listening for resizes is left out, and the root
    font size each check sets is a field. */
module Layout {

  datatype LayoutMode = Vertical | Horizontal

  /** The root font size of the compact scale, and the default (`''`). */
  const CompactFontSize: string := "13.5px"
  const DefaultFontSize: string := ""

  /** Landscape: strictly wider than high. */
  predicate IsLandscape(w: int, h: int) { w > h }

  /** A tablet: at least 960 wide, or at least 768 wide in landscape. */
  predicate IsTablet(w: int, h: int) { w >= 960 || (w >= 768 && IsLandscape(w, h)) }

  /** The layout both versions pick: horizontal for a tablet in landscape. */
  function ModeFor(w: int, h: int): LayoutMode {
    if IsTablet(w, h) && IsLandscape(w, h) then Horizontal else Vertical
  }

  /** The layout is horizontal exactly when the window is wider than high
      and at least 768 wide; a window of equal sides is never horizontal. */
  lemma ModeForSpec(w: int, h: int)
    ensures ModeFor(w, h) == Horizontal <==> w > h && w >= 768
    ensures w <= h ==> ModeFor(w, h) == Vertical
  {
  }

  /** The car's display (1280 by 720) and a phone held upright (390 by
      844) get the horizontal and the vertical layout. */
  lemma ModeExamples()
    ensures ModeFor(1280, 720) == Horizontal && ModeFor(390, 844) == Vertical
    ensures ModeFor(800, 600) == Horizontal && ModeFor(1024, 1366) == Vertical
  {
  }

  // ------------------------------------------------------------ provider

  /** What the provider's check decides. */
  datatype Decision = Decision(mode: LayoutMode, isCompact: bool, isFullscreenBYD: bool, fontSize: string)

  /** `checkLayout`: in the horizontal layout, the full-screen mode of the
      car's display for a height from 680 to 740, and the compact scale for
      a width of at least 1024 and a height of at most 680; in the vertical
      layout neither. */
  function CheckLayout(w: int, h: int): (r: Decision)
    ensures r.mode == ModeFor(w, h)
  {
    var mode := ModeFor(w, h);
    if mode == Horizontal then
      var compact := w >= 1024 && h <= 680;
      Decision(mode, compact, 680 <= h <= 740, if compact then CompactFontSize else DefaultFontSize)
    else Decision(mode, false, false, DefaultFontSize)
  }

  /** The sub-modes only ever apply in the horizontal layout, the compact
      scale comes with the small font size and only with it, and a height of
      exactly 680 is both compact and full screen. */
  lemma CheckLayoutSpec(w: int, h: int)
    ensures var r := CheckLayout(w, h);
      (r.mode == Vertical ==> !r.isCompact && !r.isFullscreenBYD)
      && (r.mode == Horizontal ==> (r.isFullscreenBYD <==> 680 <= h <= 740) && (r.isCompact <==> w >= 1024 && h <= 680))
      && (r.isCompact <==> r.fontSize == CompactFontSize)
      && (r.isCompact ==> h <= 680 && w >= 1024 && w > h)
      && (r.isFullscreenBYD ==> w > h && w >= 768)
  {
    ModeForSpec(w, h);
  }

  /** The car's display is full screen and not compact; at 1280 by 680 it is
      both. */
  lemma CarDisplay()
    ensures CheckLayout(1280, 720) == Decision(Horizontal, false, true, DefaultFontSize)
    ensures CheckLayout(1280, 680) == Decision(Horizontal, true, true, CompactFontSize)
  {
  }

  /** The provider's state. */
  class LayoutProvider {
    var layoutMode: LayoutMode
    var isCompact: bool
    var isFullscreenBYD: bool
    var fontSize: string

    constructor ()
      ensures layoutMode == Vertical && !isCompact && !isFullscreenBYD && fontSize == DefaultFontSize
    {
      layoutMode := Vertical;
      isCompact := false;
      isFullscreenBYD := false;
      fontSize := DefaultFontSize;
    }

    /** `checkLayout()` on the current window size. */
    method Check(w: int, h: int)
      modifies this
      ensures Decision(layoutMode, isCompact, isFullscreenBYD, fontSize) == CheckLayout(w, h)
    {
      var isLandscape := w > h;
      var isTablet := w >= 960 || (w >= 768 && isLandscape);
      var newLayoutMode := Vertical;
      if isTablet && isLandscape {
        newLayoutMode := Horizontal;
      }
      layoutMode := newLayoutMode;
      if newLayoutMode == Horizontal {
        isFullscreenBYD := h >= 680 && h <= 740;
        var isCompactSize := w >= 1024 && h <= 680;
        isCompact := isCompactSize;
        if isCompactSize {
          fontSize := CompactFontSize;
        } else {
          fontSize := DefaultFontSize;
        }
      } else {
        isFullscreenBYD := false;
        isCompact := false;
        fontSize := DefaultFontSize;
      }
    }

    /** The `setLayoutMode` the provider hands out: the mode alone changes. */
    method SetLayoutMode(mode: LayoutMode)
      modifies this
      ensures layoutMode == mode
      ensures isCompact == old(isCompact) && isFullscreenBYD == old(isFullscreenBYD) && fontSize == old(fontSize)
    {
      layoutMode := mode;
    }

    function IsVertical(): bool
      reads this
    {
      layoutMode == Vertical
    }

    function IsHorizontal(): bool
      reads this
    {
      layoutMode == Horizontal
    }

    /** The larger cards: compact and horizontal. */
    function IsLargerCard(): (r: bool)
      reads this
      ensures r <==> isCompact && IsHorizontal()
      ensures r ==> !IsVertical()
    {
      isCompact && layoutMode == Horizontal
    }
  }

  // ------------------------------------------------------------ hook

  /** The hook's compact test: at least 1024 wide and at most 800 high. It
      does not look at the layout, but such a window is wider than high and
      at least 960 wide, so it is always horizontal. */
  predicate HookCompact(w: int, h: int) { w >= 1024 && h <= 800 }

  /** Wherever the provider scales down, the hook does too; the hook also
      scales down horizontal windows the provider leaves alone, such as the
      car's 1280 by 720 display and a 1024 by 800 window; and every window
      the hook scales down gets the horizontal layout. */
  lemma HookAgainstProvider(w: int, h: int)
    ensures CheckLayout(w, h).isCompact ==> HookCompact(w, h)
    ensures HookCompact(w, h) ==> ModeFor(w, h) == Horizontal
    ensures HookCompact(1280, 720) && !CheckLayout(1280, 720).isCompact
    ensures HookCompact(1024, 800) && ModeFor(1024, 800) == Horizontal && !CheckLayout(1024, 800).isCompact
  {
    CheckLayoutSpec(w, h);
  }

  /** The hook's state. */
  class LayoutModeHook {
    var layoutMode: LayoutMode
    var isCompact: bool
    var fontSize: string

    constructor ()
      ensures layoutMode == Vertical && !isCompact
    {
      layoutMode := Vertical;
      isCompact := false;
      fontSize := DefaultFontSize;
    }

    /** `updateLayoutMode()`. */
    method UpdateLayoutMode(w: int, h: int)
      modifies this
      ensures layoutMode == ModeFor(w, h)
      ensures isCompact == old(isCompact) && fontSize == old(fontSize)
    {
      var isLandscape := w > h;
      var isTablet := w >= 960 || (w >= 768 && isLandscape);
      if isTablet && isLandscape {
        layoutMode := Horizontal;
      } else {
        layoutMode := Vertical;
      }
    }

    /** `checkCompact()`. */
    method CheckCompact(w: int, h: int)
      modifies this
      ensures isCompact == HookCompact(w, h)
      ensures fontSize == if isCompact then CompactFontSize else DefaultFontSize
      ensures layoutMode == old(layoutMode)
    {
      var isCompactSize := w >= 1024 && h <= 800;
      isCompact := isCompactSize;
      if isCompactSize {
        fontSize := CompactFontSize;
      } else {
        fontSize := DefaultFontSize;
      }
    }
  }
}
