/**
 * The colour decision of the command-line tool: the colour mode, the `NO_COLOR`
 * convention, terminal detection, and the styling helpers, which apply an ANSI
 * style only when colour is on and otherwise hand back the text untouched.
 */
module Colors {
  import opened Wrappers
  import opened Strings

  datatype ColorMode = Auto | Always | Never

  /** `ColorMode::default()`. */
  const DefaultMode: ColorMode := Auto

  /** The one spelling, in lower case, each mode is parsed from. */
  function ModeName(m: ColorMode): string {
    match m
    case Auto => "auto"
    case Always => "always"
    case Never => "never"
  }

  function InvalidModeMessage(s: string): string {
    "Invalid color mode: '" + s + "'. Valid options: auto, always, never"
  }

  /** `ColorMode::from_str`: the lower-cased text must be one of the three names; the
      error quotes the text as given. */
  function ParseColorMode(s: string): (r: Result<ColorMode, string>)
    ensures r.Ok? ==> AsciiLower(s) == ModeName(r.value)
    ensures r.Err? ==> r.error == InvalidModeMessage(s)
    ensures r.Err? ==> forall m :: AsciiLower(s) != ModeName(m)
  {
    var lower := AsciiLower(s);
    if lower == "auto" then Ok(Auto)
    else if lower == "always" then Ok(Always)
    else if lower == "never" then Ok(Never)
    else Err(InvalidModeMessage(s))
  }

  /** Each mode's name parses back to it. */
  lemma ParseModeName(m: ColorMode)
    ensures ParseColorMode(ModeName(m)) == Ok(m)
  {
    var name := ModeName(m);
    assert AsciiLower(name) == name by {
      forall i | 0 <= i < |name|
        ensures AsciiLower(name)[i] == name[i]
      {
        assert 'a' <= name[i] <= 'z';
      }
    }
  }

  /** Parsing ignores ASCII case: texts that agree once lowered parse to the same mode,
      and both fail together. */
  lemma ParseIgnoresCase(s: string, t: string)
    requires AsciiLower(s) == AsciiLower(t)
    ensures ParseColorMode(s).Ok? <==> ParseColorMode(t).Ok?
    ensures ParseColorMode(s).Ok? ==> ParseColorMode(s).value == ParseColorMode(t).value
  {
  }

  /** `NO_COLOR` counts when it is set to a non-empty value. An unset variable, or
      one whose value is not Unicode (which `env::var` reports as an error), is `None`. */
  function NoColor(noColorVar: Option<string>): (b: bool)
    ensures b <==> noColorVar.Some? && noColorVar.value != []
  {
    noColorVar.Some? && noColorVar.UnwrapOr([]) != []
  }

  /** `ColorHelper`: the mode, both terminal flags, and the `NO_COLOR` flag, fixed at
      construction. */
  datatype ColorHelper = ColorHelper(mode: ColorMode, stdoutIsTerminal: bool,
                                     stderrIsTerminal: bool, noColor: bool)
  {
    /** `should_use_colors`: `NO_COLOR` wins; then `Never` is off, `Always` is on, and
        `Auto` follows the terminal flag. */
    function ShouldUseColors(isTerminal: bool): (b: bool)
      ensures noColor ==> !b
      ensures !noColor ==> (b <==> mode == Always || (mode == Auto && isTerminal))
    {
      if noColor then false
      else match mode
        case Never => false
        case Always => true
        case Auto => isTerminal
    }

    function ShouldColorStdout(): bool {
      ShouldUseColors(stdoutIsTerminal)
    }

    function ShouldColorStderr(): bool {
      ShouldUseColors(stderrIsTerminal)
    }

    /** `style()`: a builder carrying the stdout decision. */
    function Style(): (b: StyleBuilder)
      ensures b.shouldColor == ShouldColorStdout()
    {
      StyleBuilder(ShouldColorStdout())
    }

    /** `red`, `green`, `blue`, `yellow`, `cyan`, `magenta`, `bold` and `dimmed`: the
        style when stdout is coloured, `normal()` (no style) otherwise. */
    function Paint(style: Style, text: string): (c: ColoredString)
      ensures c.input == text
      ensures c.style.Some? <==> ShouldColorStdout()
      ensures !ShouldColorStdout() ==> c.Render() == text
    {
      if ShouldColorStdout() then ColoredString(text, Some(style)) else ColoredString(text, None)
    }
  }

  /** `ColorHelper::new`: the terminal flags are inputs; the `NO_COLOR` variable is
      read once. */
  function NewHelper(mode: ColorMode, stdoutIsTerminal: bool, stderrIsTerminal: bool,
                     noColorVar: Option<string>): (h: ColorHelper)
    ensures h.mode == mode
    ensures h.stdoutIsTerminal == stdoutIsTerminal && h.stderrIsTerminal == stderrIsTerminal
    ensures h.noColor <==> noColorVar.Some? && noColorVar.value != []
    ensures h.ShouldColorStdout() <==>
              (noColorVar.None? || noColorVar.value == []) && (mode == Always || (mode == Auto && stdoutIsTerminal))
    ensures h.ShouldColorStderr() <==>
              (noColorVar.None? || noColorVar.value == []) && (mode == Always || (mode == Auto && stderrIsTerminal))
  {
    ColorHelper(mode, stdoutIsTerminal, stderrIsTerminal, NoColor(noColorVar))
  }

  /** In the default mode, without `NO_COLOR`, each stream is coloured exactly when it
      is a terminal. */
  lemma DefaultModeFollowsTerminal(stdoutIsTerminal: bool, stderrIsTerminal: bool)
    ensures var h := NewHelper(DefaultMode, stdoutIsTerminal, stderrIsTerminal, None);
            h.ShouldColorStdout() == stdoutIsTerminal && h.ShouldColorStderr() == stderrIsTerminal
  {
  }

  /** The stdout and stderr decisions can differ only in `Auto` mode without
      `NO_COLOR`, and only when exactly one of the two streams is a terminal. */
  lemma StreamsDifferOnlyByTerminal(h: ColorHelper)
    ensures h.ShouldColorStdout() != h.ShouldColorStderr() ==>
              h.mode == Auto && !h.noColor && h.stdoutIsTerminal != h.stderrIsTerminal
    ensures h.stdoutIsTerminal == h.stderrIsTerminal ==> h.ShouldColorStdout() == h.ShouldColorStderr()
  {
  }

  /** A helper in `Never` mode never colours, whatever the terminals and `NO_COLOR`. */
  lemma NeverMeansPlain(stdoutIsTerminal: bool, stderrIsTerminal: bool, noColorVar: Option<string>)
    ensures var h := NewHelper(Never, stdoutIsTerminal, stderrIsTerminal, noColorVar);
            !h.ShouldColorStdout() && !h.ShouldColorStderr()
  {
  }

  /** A helper in `Always` mode colours both streams exactly when `NO_COLOR` is unset
      or empty. */
  lemma AlwaysMeansColorUnlessNoColor(stdoutIsTerminal: bool, stderrIsTerminal: bool,
                                      noColorVar: Option<string>)
    ensures var h := NewHelper(Always, stdoutIsTerminal, stderrIsTerminal, noColorVar);
            (h.ShouldColorStdout() <==> noColorVar.None? || noColorVar.value == [])
            && h.ShouldColorStderr() == h.ShouldColorStdout()
  {
  }

  // ---------------------------------------------------------------------------
  // Styles
  // ---------------------------------------------------------------------------

  datatype Style = Red | Green | Blue | Yellow | Cyan | Magenta | Bold | Dimmed

  /** The ANSI select-graphic-rendition parameter of each style. */
  function SgrCode(s: Style): (code: string)
    ensures 1 <= |code| <= 2
  {
    match s
    case Red => "31"
    case Green => "32"
    case Yellow => "33"
    case Blue => "34"
    case Magenta => "35"
    case Cyan => "36"
    case Bold => "1"
    case Dimmed => "2"
  }

  /** The text wrapped in one style's escape sequence and the reset sequence. */
  function Painted(s: Style, text: string): (r: string)
    ensures |r| >= |text| + 8
    ensures InfixAt(text, r, 2 + |SgrCode(s)| + 1)
  {
    var open := "\U{1B}[" + SgrCode(s) + "m";
    var painted := open + text + "\U{1B}[0m";
    assert painted[|open|..|open| + |text|] == text;
    painted
  }

  /** A string with at most one style, as the helpers produce it. */
  datatype ColoredString = ColoredString(input: string, style: Option<Style>)
  {
    /** Its `Display`: a plain string prints as itself. */
    function Render(): (r: string)
      ensures style.None? ==> r == input
    {
      match style
      case None => input
      case Some(s) => Painted(s, input)
    }
  }

  /** `StyleBuilder`: only the colour decision. */
  datatype StyleBuilder = StyleBuilder(shouldColor: bool)
  {
    /** Each of its methods: start a chain with the text, then apply the style. */
    function Start(style: Style, text: string): (c: ChainedStyle)
      ensures c.shouldColor == shouldColor
      ensures !shouldColor ==> c.text == text
    {
      ChainedStyle(text, shouldColor).Then(style)
    }
  }

  /** `ChainedStyle`: the text so far and the colour decision. */
  datatype ChainedStyle = ChainedStyle(text: string, shouldColor: bool)
  {
    /** One chained call (`red()`, `bold()`, ...): repaint the text when colouring. */
    function Then(style: Style): (c: ChainedStyle)
      ensures c.shouldColor == shouldColor
      ensures !shouldColor ==> c == this
      ensures shouldColor ==> |c.text| >= |text| + 8 && IsInfix(text, c.text)
    {
      if shouldColor then ChainedStyle(Painted(style, text), shouldColor) else this
    }

    /** Its `Display`. */
    function Display(): string {
      text
    }
  }

  /** A chain of calls, applied left to right. */
  function Chain(c: ChainedStyle, styles: seq<Style>): ChainedStyle
    decreases |styles|
  {
    if styles == [] then c else Chain(c.Then(styles[0]), styles[1..])
  }

  /** With colour off, any chain leaves the chained style as it was. */
  lemma {:induction false} PlainChainKeepsText(c: ChainedStyle, styles: seq<Style>)
    requires !c.shouldColor
    ensures Chain(c, styles) == c
    decreases |styles|
  {
    if styles != [] {
      PlainChainKeepsText(c.Then(styles[0]), styles[1..]);
    }
  }

  /** With colour on, every call wraps what came before: the original text stays
      inside, and each call adds at least an opening and a closing sequence. */
  lemma {:induction false} ColoredChainWraps(c: ChainedStyle, styles: seq<Style>)
    requires c.shouldColor
    ensures Chain(c, styles).shouldColor
    ensures |Chain(c, styles).text| >= |c.text| + 8 * |styles|
    ensures IsInfix(c.text, Chain(c, styles).text)
    decreases |styles|
  {
    if styles == [] {
      assert InfixAt(c.text, c.text, 0);
    } else {
      var next := c.Then(styles[0]);
      ColoredChainWraps(next, styles[1..]);
      InfixTransitive(c.text, next.text, Chain(next, styles[1..]).text);
    }
  }

  /** The whole styling path with the stdout decision off (`NO_COLOR`, `Never`, or
      `Auto` off a terminal): whatever styles are chained, the shown text is the input. */
  lemma StyledTextPlainWhenOff(h: ColorHelper, first: Style, rest: seq<Style>, text: string)
    requires !h.ShouldColorStdout()
    ensures Chain(h.Style().Start(first, text), rest).Display() == text
  {
    PlainChainKeepsText(h.Style().Start(first, text), rest);
  }
}
