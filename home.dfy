/**
 * The accessibility settings of the home page (src/modules/Home/Home.jsx):
 * the base font size with its clamped steps, the dark-mode, read-aloud and
 * menu toggles, and the choice of which hovered elements are read aloud.
 */
module Home {
  import opened Wrappers

  // ------------------------------------------------------------------
  // Font size
  // ------------------------------------------------------------------

  const InitialFontSize: int := 16
  const MinFontSize: int := 12
  const MaxFontSize: int := 24
  const FontStep: int := 2

  /** A size the controls can produce: within the bounds and even. */
  predicate ValidFontSize(size: int) {
    MinFontSize <= size <= MaxFontSize && size % 2 == 0
  }

  /** `Math.min(size + 2, 24)`. */
  function IncreaseFont(size: int): (r: int)
    ensures r <= MaxFontSize
    ensures size + FontStep <= MaxFontSize ==> r == size + FontStep
    ensures size + FontStep > MaxFontSize ==> r == MaxFontSize
    ensures ValidFontSize(size) ==> ValidFontSize(r)
  {
    if size + FontStep < MaxFontSize then size + FontStep else MaxFontSize
  }

  /** `Math.max(size - 2, 12)`. */
  function DecreaseFont(size: int): (r: int)
    ensures r >= MinFontSize
    ensures size - FontStep >= MinFontSize ==> r == size - FontStep
    ensures size - FontStep < MinFontSize ==> r == MinFontSize
    ensures ValidFontSize(size) ==> ValidFontSize(r)
  {
    if size - FontStep > MinFontSize then size - FontStep else MinFontSize
  }

  /** A press of one of the two font buttons. */
  datatype FontAction = Increase | Decrease

  function ApplyFontAction(size: int, a: FontAction): int {
    match a
    case Increase => IncreaseFont(size)
    case Decrease => DecreaseFont(size)
  }

  /** The size after a sequence of presses. */
  function ApplyFontActions(size: int, actions: seq<FontAction>): int
    decreases |actions|
  {
    if actions == [] then size
    else ApplyFontActions(ApplyFontAction(size, actions[0]), actions[1..])
  }

  /** No sequence of presses leaves the valid sizes; in particular the size stays even. */
  lemma {:induction false} FontActionsStayValid(size: int, actions: seq<FontAction>)
    requires ValidFontSize(size)
    ensures ValidFontSize(ApplyFontActions(size, actions))
    decreases |actions|
  {
    if actions != [] {
      FontActionsStayValid(ApplyFontAction(size, actions[0]), actions[1..]);
    }
  }

  /** From the initial size, every press sequence gives a valid size. */
  lemma InitialSizeStaysValid(actions: seq<FontAction>)
    ensures ValidFontSize(ApplyFontActions(InitialFontSize, actions))
  {
    FontActionsStayValid(InitialFontSize, actions);
  }

  /** Presses that walk from `from` to a valid size `to`. */
  function PressesTo(from: int, to: int): seq<FontAction>
    decreases if from <= to then to - from else from - to
  {
    if from + FontStep <= to then [Increase] + PressesTo(from + FontStep, to)
    else if from - FontStep >= to then [Decrease] + PressesTo(from - FontStep, to)
    else []
  }

  /** Between two valid sizes, the walk reaches its target exactly. */
  lemma {:induction false} PressesReach(from: int, to: int)
    requires ValidFontSize(from) && ValidFontSize(to)
    ensures ApplyFontActions(from, PressesTo(from, to)) == to
    decreases if from <= to then to - from else from - to
  {
    if from < to {
      PressesReach(from + FontStep, to);
      assert PressesTo(from, to)[1..] == PressesTo(from + FontStep, to);
    } else if from > to {
      PressesReach(from - FontStep, to);
      assert PressesTo(from, to)[1..] == PressesTo(from - FontStep, to);
    }
  }

  /** Every valid size, and only those, can be reached from the initial size. */
  lemma ReachableIffValid(size: int)
    ensures ValidFontSize(size) ==> ApplyFontActions(InitialFontSize, PressesTo(InitialFontSize, size)) == size
    ensures (exists actions :: ApplyFontActions(InitialFontSize, actions) == size) ==> ValidFontSize(size)
  {
    if ValidFontSize(size) {
      PressesReach(InitialFontSize, size);
    }
    if exists actions :: ApplyFontActions(InitialFontSize, actions) == size {
      var actions :| ApplyFontActions(InitialFontSize, actions) == size;
      InitialSizeStaysValid(actions);
    }
  }

  /** Inside the bounds the two buttons undo each other. */
  lemma IncreaseDecreaseInverse(size: int)
    requires ValidFontSize(size)
    ensures size < MaxFontSize ==> DecreaseFont(IncreaseFont(size)) == size
    ensures size > MinFontSize ==> IncreaseFont(DecreaseFont(size)) == size
  {
  }

  // ------------------------------------------------------------------
  // Reading aloud
  // ------------------------------------------------------------------

  /** The tag names whose text is read aloud on hover. */
  const ReadableTags: seq<string> := ["P", "H1", "H2", "H3", "H4", "H5", "H6", "A", "LI", "BUTTON", "SUMMARY"]

  const SpeechLanguage: string := "pt-BR"

  /** A request to the speech synthesiser. */
  datatype Utterance = Utterance(text: string, lang: string)

  /** What `handleTtsMouseOver` asks the synthesiser to say for a hovered element. */
  function SpeechFor(ttsEnabled: bool, tagName: string, innerText: string): (u: Option<Utterance>)
    ensures u.Some? <==> ttsEnabled && tagName in ReadableTags && innerText != ""
    ensures u.Some? ==> u.value.text == innerText && u.value.lang == SpeechLanguage
  {
    if !ttsEnabled then None
    else if tagName in ReadableTags && innerText != "" then Some(Utterance(innerText, SpeechLanguage))
    else None
  }

  // ------------------------------------------------------------------
  // The page's state
  // ------------------------------------------------------------------

  class AccessibilitySettings {
    var isAccessibilityMenuOpen: bool
    var baseFontSize: int
    var isDarkMode: bool
    var isTtsEnabled: bool

    ghost predicate Valid()
      reads this
    {
      ValidFontSize(baseFontSize)
    }

    constructor ()
      ensures Valid()
      ensures !isAccessibilityMenuOpen && baseFontSize == InitialFontSize && !isDarkMode && !isTtsEnabled
    {
      isAccessibilityMenuOpen := false;
      baseFontSize := InitialFontSize;
      isDarkMode := false;
      isTtsEnabled := false;
    }

    /** `fontHandlers.increase`. */
    method Increase()
      requires Valid()
      modifies this`baseFontSize
      ensures Valid()
      ensures baseFontSize == IncreaseFont(old(baseFontSize))
    {
      baseFontSize := IncreaseFont(baseFontSize);
    }

    /** `fontHandlers.decrease`. */
    method Decrease()
      requires Valid()
      modifies this`baseFontSize
      ensures Valid()
      ensures baseFontSize == DecreaseFont(old(baseFontSize))
    {
      baseFontSize := DecreaseFont(baseFontSize);
    }

    /** `darkModeHandler.toggle`. */
    method ToggleDarkMode()
      modifies this`isDarkMode
      ensures isDarkMode == !old(isDarkMode)
    {
      isDarkMode := !isDarkMode;
    }

    /** `ttsHandler.toggle`. */
    method ToggleTts()
      modifies this`isTtsEnabled
      ensures isTtsEnabled == !old(isTtsEnabled)
    {
      isTtsEnabled := !isTtsEnabled;
    }

    /** The header's `onMenuToggle`. */
    method ToggleMenu()
      modifies this`isAccessibilityMenuOpen
      ensures isAccessibilityMenuOpen == !old(isAccessibilityMenuOpen)
    {
      isAccessibilityMenuOpen := !isAccessibilityMenuOpen;
    }

    /** The document's `mouseover` listener: what is spoken for the hovered element, if anything. */
    method HandleTtsMouseOver(tagName: string, innerText: string) returns (u: Option<Utterance>)
      ensures u == SpeechFor(isTtsEnabled, tagName, innerText)
    {
      if !isTtsEnabled {
        return None;
      }
      if tagName in ReadableTags && innerText != "" {
        u := Some(Utterance(innerText, SpeechLanguage));
      } else {
        u := None;
      }
    }
  }
}
