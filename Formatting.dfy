/**
 How Carthage decides whether to colour its terminal output, and the table of
 named styles it builds from that decision (Source/carthage/Formatting.swift).

 The colour library's `Color.Wrap` values are the `Style` tags below; what the
 library does when it applies one to a string is the `Painter` parameter, about
 which nothing is assumed.
 */
module ColorFormatting {
  import opened AsciiCase

  datatype Option<T> = None | Some(value: T)

  /** The decorations the source asks the colour library for. */
  datatype Style =
    | BlueBold     // Color.Wrap(foreground: .Blue, style: .Bold)
    | Underlined   // Color.Wrap(styles: .Underlined)
    | Bold         // Color.Wrap(styles: .Bold)
    | Yellow       // Color.Wrap(foreground: .Yellow)
    | Green        // Color.Wrap(foreground: .Green)

  /** Applies a style's escape codes to a string; supplied by the colour library. */
  type Painter = (Style, string) -> string

  /**
   The private `wrap(colorful)(wrap:)(string:)`: decorate when colourful,
   otherwise pass the string through.
   */
  function Wrap(colorful: bool, paint: Painter, style: Style, s: string): (r: string)
    ensures !colorful ==> r == s
    ensures colorful ==> r == paint(style, s)
  {
    if colorful then paint(style, s) else s
  }

  // ---------------------------------------------------------------------------
  // Terminal: the two process facts, passed in rather than queried.

  /**
   `terminalType` is the value of the `TERM` environment variable (None when
   unset); `isTTY` is whether standard output is a terminal.
   */
  datatype Terminal = Terminal(terminalType: Option<string>, isTTY: bool) {

    /** Whether `TERM` names the dumb terminal, compared ignoring case. */
    function IsDumb(): (r: bool)
      ensures r <==> terminalType.Some? && Lower(terminalType.value) == "dumb"
    {
      match terminalType
      case None => false
      case Some(t) => EqualsIgnoringCase(t, "dumb")
    }
  }

  /** `TERM` is dumb exactly for the sixteen capitalisations of "dumb". */
  lemma DumbSpellings(terminal: Terminal)
    ensures terminal.IsDumb() <==>
      terminal.terminalType.Some? && |terminal.terminalType.value| == 4 &&
      (terminal.terminalType.value[0] == 'd' || terminal.terminalType.value[0] == 'D') &&
      (terminal.terminalType.value[1] == 'u' || terminal.terminalType.value[1] == 'U') &&
      (terminal.terminalType.value[2] == 'm' || terminal.terminalType.value[2] == 'M') &&
      (terminal.terminalType.value[3] == 'b' || terminal.terminalType.value[3] == 'B')
  {
  }

  // ---------------------------------------------------------------------------
  // ColorArgument: the user's intent.

  /** The key under which the option is registered with the argument parser. */
  const OptionKey: string := "color"

  datatype ColorArgument = Auto | Never | Always {

    /** The argument type's name. */
    static const Name: string := "color"

    /** The raw value, which is also what is printed. */
    function Description(): (r: string)
      ensures |r| > 0 && forall i :: 0 <= i < |r| ==> IsLower(r[i])
    {
      match this
      case Auto => "auto"
      case Never => "never"
      case Always => "always"
    }

    /** Parses a raw value after lower-casing it; any other text gives None. */
    static function FromString(s: string): (r: Option<ColorArgument>)
      ensures r.Some? ==> r.value.Description() == Lower(s)
      ensures r.None? <==> forall a: ColorArgument :: a.Description() != Lower(s)
    {
      var raw := Lower(s);
      if raw == Auto.Description() then Some(Auto)
      else if raw == Never.Description() then Some(Never)
      else if raw == Always.Description() then Some(Always)
      else None
    }

    /** Always colours, Never does not, Auto colours a TTY unless `TERM` is dumb. */
    function IsColorful(terminal: Terminal): (r: bool)
      ensures r <==> this == Always || (this == Auto && terminal.isTTY && !terminal.IsDumb())
    {
      match this
      case Always => true
      case Never => false
      case Auto => terminal.isTTY && !terminal.IsDumb()
    }
  }

  /** The value used when the option is not given. */
  const DefaultArgument: ColorArgument := Auto

  /** The argument type's name is the key the option is registered under. */
  lemma NameIsOptionKey()
    ensures ColorArgument.Name == OptionKey == "color"
  {
  }

  /** Without the option, colour follows the terminal: on a TTY unless `TERM` is dumb. */
  lemma DefaultIsAuto(terminal: Terminal)
    ensures DefaultArgument == Auto
    ensures DefaultArgument.IsColorful(terminal) <==> terminal.isTTY && !terminal.IsDumb()
    ensures ColorArgument.FromString(DefaultArgument.Description()) == Some(DefaultArgument)
  {
  }

  /** Distinct arguments print differently. */
  lemma DescriptionInjective(a: ColorArgument, b: ColorArgument)
    ensures a.Description() == b.Description() <==> a == b
  {
  }

  /** Printing an argument and parsing it back gives the argument. */
  lemma DescriptionRoundTrip(a: ColorArgument)
    ensures ColorArgument.FromString(a.Description()) == Some(a)
  {
  }

  /** Parsing then printing gives the lower-cased input. */
  lemma FromStringPrints(s: string, a: ColorArgument)
    ensures ColorArgument.FromString(s) == Some(a) <==> a.Description() == Lower(s)
  {
  }

  /** Every capitalisation of a raw value parses to its argument. */
  lemma FromStringAnyCase(s: string, a: ColorArgument)
    requires |s| == |a.Description()|
    requires forall i :: 0 <= i < |s| ==> LowerChar(s[i]) == a.Description()[i]
    ensures ColorArgument.FromString(s) == Some(a)
  {
  }

  /** Parsing ignores case, for the spellings the option's users type. */
  lemma FromStringIgnoresCase()
    ensures ColorArgument.FromString("ALWAYS") == Some(Always)
    ensures ColorArgument.FromString("Always") == Some(Always)
    ensures ColorArgument.FromString("AUTO") == Some(Auto)
    ensures ColorArgument.FromString("NEVER") == Some(Never)
  {
  }

  /** Text that is no raw value in any case is rejected, never defaulted. */
  lemma FromStringRejects()
    ensures ColorArgument.FromString("maybe") == None
    ensures ColorArgument.FromString("") == None
    ensures ColorArgument.FromString("auto ") == None
  {
  }

  /** The explicit intents win over whatever the terminal reports. */
  lemma ExplicitIntentIgnoresTerminal(t1: Terminal, t2: Terminal)
    ensures Always.IsColorful(t1) && !Never.IsColorful(t1)
    ensures Always.IsColorful(t1) == Always.IsColorful(t2)
    ensures Never.IsColorful(t1) == Never.IsColorful(t2)
  {
  }

  /** The four rows of Auto's truth table over (TTY, dumb). */
  lemma AutoTruthTable(term: Option<string>)
    ensures Auto.IsColorful(Terminal(term, true)) == !Terminal(term, true).IsDumb()
    ensures !Auto.IsColorful(Terminal(term, false))
    ensures Auto.IsColorful(Terminal(None, true))
    ensures !Auto.IsColorful(Terminal(Some("dumb"), true))
    ensures !Auto.IsColorful(Terminal(Some("DUMB"), true))
    ensures Auto.IsColorful(Terminal(Some("xterm"), true))
  {
  }

  // ---------------------------------------------------------------------------
  // Formatting: the style table.

  /**
   The styles built from one colour decision. `bulletin`, `url`, `projectName`
   and `path` are the stored closures of the source; `bullets` is precomputed.
   A table is only ever made by `Init`, which `Valid` records.
   */
  datatype Formatting = Formatting(
    colorful: bool,
    paint: Painter,
    bulletin: string -> string,
    bullets: string,
    url: string -> string,
    projectName: string -> string,
    path: string -> string)
  {
    /** Each stored style wraps with its own tag, and `bullets` is the bulletin style of "***" and a space. */
    ghost predicate Valid() {
      (forall s :: bulletin(s) == Wrap(colorful, paint, BlueBold, s)) &&
      (forall s :: url(s) == Wrap(colorful, paint, Underlined, s)) &&
      (forall s :: projectName(s) == Wrap(colorful, paint, Bold, s)) &&
      (forall s :: path(s) == Wrap(colorful, paint, Yellow, s)) &&
      bullets == bulletin("***") + " "
    }

    /** Builds the table from the colour decision. */
    static function Init(colorful: bool, paint: Painter): (f: Formatting)
      ensures f.colorful == colorful && f.paint == paint
      ensures f.Valid()
    {
      var bulletin := (s: string) => Wrap(colorful, paint, BlueBold, s);
      Formatting(
        colorful,
        paint,
        bulletin,
        bulletin("***") + " ",
        (s: string) => Wrap(colorful, paint, Underlined, s),
        (s: string) => Wrap(colorful, paint, Bold, s),
        (s: string) => Wrap(colorful, paint, Yellow, s))
    }

    /** Puts the string between bullets, one space of padding each side, in the bulletin style. */
    function BulletinTitle(s: string): (r: string)
      requires Valid()
      ensures !colorful ==> r == "*** " + s + " ***"
      ensures colorful ==> r == paint(BlueBold, "*** " + s + " ***")
    {
      bulletin("*** " + s + " ***")
    }

    /** Puts the string between quotation marks, in the green style. */
    function Quote(s: string, quotationMark: string := "\""): (r: string)
      ensures !colorful ==> r == quotationMark + s + quotationMark
      ensures colorful ==> r == paint(Green, quotationMark + s + quotationMark)
    {
      Wrap(colorful, paint, Green, quotationMark + s + quotationMark)
    }
  }

  /** Without colour every style of a table passes its input through unchanged. */
  lemma PlainIsIdentity(f: Formatting, s: string, mark: string)
    requires f.Valid() && !f.colorful
    ensures f.bulletin(s) == s
    ensures f.url(s) == s
    ensures f.projectName(s) == s
    ensures f.path(s) == s
    ensures f.Quote(s, mark) == mark + s + mark
    ensures f.Quote(s) == "\"" + s + "\""
    ensures f.Quote("", mark) == mark + mark
  {
  }

  /** Without colour the bullet strings are the bare text. */
  lemma PlainBullets(f: Formatting, s: string)
    requires f.Valid() && !f.colorful
    ensures f.bullets == "*** "
    ensures f.BulletinTitle(s) == "*** " + s + " ***"
  {
  }

  /** Without colour the output does not depend on the colour library at all. */
  lemma PlainIgnoresPainter(p1: Painter, p2: Painter, s: string, mark: string)
    ensures Formatting.Init(false, p1).bulletin(s) == Formatting.Init(false, p2).bulletin(s)
    ensures Formatting.Init(false, p1).bullets == Formatting.Init(false, p2).bullets
    ensures Formatting.Init(false, p1).url(s) == Formatting.Init(false, p2).url(s)
    ensures Formatting.Init(false, p1).projectName(s) == Formatting.Init(false, p2).projectName(s)
    ensures Formatting.Init(false, p1).path(s) == Formatting.Init(false, p2).path(s)
    ensures Formatting.Init(false, p1).Quote(s, mark) == Formatting.Init(false, p2).Quote(s, mark)
  {
  }

  /** With colour each style hands its whole input to the library with its own tag. */
  lemma ColorfulStyles(f: Formatting, s: string, mark: string)
    requires f.Valid() && f.colorful
    ensures f.bulletin(s) == f.paint(BlueBold, s)
    ensures f.bullets == f.paint(BlueBold, "***") + " "
    ensures f.BulletinTitle(s) == f.paint(BlueBold, "*** " + s + " ***")
    ensures f.url(s) == f.paint(Underlined, s)
    ensures f.projectName(s) == f.paint(Bold, s)
    ensures f.path(s) == f.paint(Yellow, s)
    ensures f.Quote(s, mark) == f.paint(Green, mark + s + mark)
  {
  }

  /** In both colour states the bullet strings are the bulletin style of the bare text. */
  lemma BulletsAreBulletins(f: Formatting, s: string)
    requires f.Valid()
    ensures f.bullets == f.bulletin("***") + " "
    ensures f.BulletinTitle(s) == f.bulletin("*** " + s + " ***")
  {
  }

  // ---------------------------------------------------------------------------
  // ColorOptions: the argument together with the table it resolves to.

  datatype ColorOptions = ColorOptions(argument: ColorArgument, formatting: Formatting) {

    /** The table is one that `Formatting.Init` built. */
    ghost predicate Valid() {
      formatting.Valid()
    }

    /** Resolves the argument against the terminal and builds its table. */
    static function Create(argument: ColorArgument, terminal: Terminal, paint: Painter): (o: ColorOptions)
      ensures o.Valid()
      ensures o.argument == argument
      ensures o.formatting.colorful == argument.IsColorful(terminal)
      ensures o.formatting == Formatting.Init(argument.IsColorful(terminal), paint)
    {
      ColorOptions(argument, Formatting.Init(argument.IsColorful(terminal), paint))
    }
  }

  /** Runs from the terminal facts through the argument to a styled path. */
  lemma EndToEnd(paint: Painter)
    ensures var o := ColorOptions.Create(Auto, Terminal(None, false), paint);
      !o.formatting.colorful && o.formatting.path("src/main") == "src/main"
    ensures var o := ColorOptions.Create(Auto, Terminal(None, true), paint);
      o.formatting.colorful && o.formatting.path("src/main") == paint(Yellow, "src/main")
    ensures !ColorOptions.Create(Auto, Terminal(Some("dumb"), true), paint).formatting.colorful
    ensures ColorOptions.Create(Always, Terminal(Some("dumb"), false), paint).formatting.colorful
    ensures var o := ColorOptions.Create(Never, Terminal(None, true), paint);
      !o.formatting.colorful && o.formatting.Quote("x", ">") == ">x>"
  {
  }
}
