# Carthage terminal formatting, modelled in Dafny

This project models how the Carthage command-line tool decides whether to colour
its output, and the style table it builds from that decision
(`Source/carthage/Formatting.swift`). It has three parts:

- **Terminal**: the two process facts, the value of `TERM` and whether standard
  output is a TTY. Here they are fields of a `Terminal` datatype instead of
  environment and `isatty` queries. `IsDumb` compares `TERM` with `"dumb"`, ignoring case.
- **ColorArgument** (`auto` / `never` / `always`): parsing with lower-casing
  (`FromString`), printing (`Description`), and resolving to one boolean (`IsColorful`).
- **Formatting**: the style table built from that boolean. Each style is the
  identity when output is not colourful, and a colour-library decoration when it
  is. `bullets`, `BulletinTitle` and `Quote` add the bullet and quotation text.
  In Swift a table can only be made by `init(_ colorful:)`; the predicate
  `Formatting.Valid` states what that constructor guarantees, and the lemmas
  about styles hold for every valid table.
  `ColorOptions.Create` pairs the argument with its table.

The colour library (PrettyColors) is not part of this model. Each `Color.Wrap`
value the source builds is a `Style` tag (`BlueBold`, `Underlined`, `Bold`,
`Yellow`, `Green`). Applying a tag to a string is a `Painter` function, passed in
as a parameter and stored in the table. Every property below holds for any painter.

Foundation's `lowercaseString` and `caseInsensitiveCompare` are modelled as an
ASCII fold (module `AsciiCase`).

Files:
- `AsciiCase.dfy`: the case fold.
- `Formatting.dfy`: module `ColorFormatting`, which models the source file.

## Model

| member | source | states |
|---|---|---|
| `AsciiCase.LowerChar` | Source/carthage/Formatting.swift:61 | the folded character is never an upper-case letter; a capital maps to its lower-case letter and anything else is unchanged |
| `AsciiCase.Lower` | Source/carthage/Formatting.swift:61 | lower-casing keeps the length, folds every character in place, and leaves no capital |
| `AsciiCase.LowerFixesNoUpper` | Source/carthage/Formatting.swift:61 | a string with no capitals is its own lower-case form |
| `AsciiCase.LowerIdempotent` | Source/carthage/Formatting.swift:61 | lower-casing twice is the same as lower-casing once |
| `AsciiCase.FoldsTo` | Source/carthage/Formatting.swift:28 | exactly a lower-case letter and its capital fold to that letter |
| `AsciiCase.EqualsIgnoringCase` | Source/carthage/Formatting.swift:28 | two strings compare equal ignoring case exactly when they have the same length and their characters fold to the same character, position by position |
| `AsciiCase.EqualsIgnoringCaseLowerLiteral` | Source/carthage/Formatting.swift:28 | comparing ignoring case with a literal that has no capitals is the same as comparing the folded text with the literal |
| `ColorFormatting.Wrap` | Source/carthage/Formatting.swift:15-17 | pass-through when not colourful; the library's decoration for the given style when colourful |
| `ColorFormatting.Terminal.IsDumb` | Source/carthage/Formatting.swift:26-29 | false when `TERM` is unset; true exactly when `TERM` is set and lower-cases to "dumb" |
| `ColorFormatting.DumbSpellings` | Source/carthage/Formatting.swift:26-29 | `TERM` counts as dumb exactly for the sixteen upper/lower-case spellings of "dumb" |
| `ColorFormatting.ColorArgument.Description` | Source/carthage/Formatting.swift:37-56 | the printed raw value is non-empty and all lower-case letters |
| `ColorFormatting.ColorArgument.FromString` | Source/carthage/Formatting.swift:60-62 | a parsed argument's raw value is the lower-cased input; the result is None exactly when no raw value equals the lower-cased input |
| `ColorFormatting.ColorArgument.IsColorful` | Source/carthage/Formatting.swift:43-52 | colourful exactly for Always, or for Auto on a TTY whose `TERM` is not dumb |
| `ColorFormatting.NameIsOptionKey` | Source/carthage/Formatting.swift:58 | the argument type's name, "color", is also the key the option is registered under |
| `ColorFormatting.DefaultIsAuto` | Source/carthage/Formatting.swift:107-110 | the default argument is Auto: without the option, colour is used on a TTY whose `TERM` is not dumb; the default's printed form parses back to it |
| `ColorFormatting.DescriptionInjective` | Source/carthage/Formatting.swift:37-40 | two arguments have the same raw value only if they are the same argument |
| `ColorFormatting.DescriptionRoundTrip` | Source/carthage/Formatting.swift:54-62 | parsing the printed form of any argument gives that argument back |
| `ColorFormatting.FromStringPrints` | Source/carthage/Formatting.swift:60-62 | `FromString(s)` gives `a` if and only if `a`'s raw value is the lower-cased `s` |
| `ColorFormatting.FromStringAnyCase` | Source/carthage/Formatting.swift:60-62 | any text that folds character by character to a raw value parses to that argument |
| `ColorFormatting.FromStringIgnoresCase` | Source/carthage/Formatting.swift:60-62 | "ALWAYS", "Always", "AUTO" and "NEVER" parse to their arguments |
| `ColorFormatting.FromStringRejects` | Source/carthage/Formatting.swift:60-62 | "maybe", the empty string and "auto " (with a trailing space) parse to None, with no default used |
| `ColorFormatting.ExplicitIntentIgnoresTerminal` | Source/carthage/Formatting.swift:44-48 | Always is colourful and Never is not, whatever the terminal facts are |
| `ColorFormatting.AutoTruthTable` | Source/carthage/Formatting.swift:49-50 | Auto: for any `TERM`, a non-TTY is never colourful and a TTY is colourful exactly when `TERM` is not dumb; plus the rows for unset, "dumb", "DUMB" and "xterm" |
| `ColorFormatting.Formatting.Init` | Source/carthage/Formatting.swift:76-83 | the table records the decision and is valid: bulletin, URL, project name and path each wrap with their own style (blue bold, underlined, bold, yellow), and `bullets` is the bulletin style of "***" followed by a space |
| `ColorFormatting.Formatting.BulletinTitle` | Source/carthage/Formatting.swift:88-91 | for a table built by `Init`: `"*** " + s + " ***"` when not colourful, and that text in the blue bold style when colourful |
| `ColorFormatting.Formatting.Quote` | Source/carthage/Formatting.swift:97-100 | the marks surround the text (the default mark is `"`); the green style is applied when colourful, and nothing is applied otherwise |
| `ColorFormatting.PlainIsIdentity` | Source/carthage/Formatting.swift:76-100 | for every table built by `Init` without colour: bulletin, URL, project name and path return their input; quote returns `mark + s + mark`, with `"` as the default mark, including for the empty string |
| `ColorFormatting.PlainBullets` | Source/carthage/Formatting.swift:79-91 | for every table built by `Init` without colour: `bullets` is `"*** "` and the bulletin title is `"*** " + s + " ***"` |
| `ColorFormatting.PlainIgnoresPainter` | Source/carthage/Formatting.swift:15-17 | not colourful: no style's output depends on the colour library |
| `ColorFormatting.ColorfulStyles` | Source/carthage/Formatting.swift:76-100 | for every table built by `Init` with colour: each style hands its whole text to the library with its own tag (bullets and titles with blue bold, quote with green around the marked text) |
| `ColorFormatting.BulletsAreBulletins` | Source/carthage/Formatting.swift:79-91 | for every table built by `Init`, in both colour states: `bullets` is `bulletin("***") + " "` and the title is `bulletin("*** " + s + " ***")` |
| `ColorFormatting.ColorOptions.Create` | Source/carthage/Formatting.swift:103-105 | the options keep the argument unchanged; their table is valid and is the one built from the argument's colour decision on the given terminal |
| `ColorFormatting.EndToEnd` | Source/carthage/Formatting.swift:103-105 | from the terminal facts to output: Auto on a non-TTY leaves `path("src/main")` as it is; Auto on a TTY with `TERM` unset paints it yellow; Auto on a dumb TTY is plain; Always with a dumb `TERM` on a non-TTY is colourful; Never quotes "x" with ">" as ">x>" |

## Left out

- Reading `TERM` with `getEnvironmentVariable` and `isatty(STDOUT_FILENO)` (lines 23 and 33): these are process queries. Their results are the fields of `Terminal`.
- The escape sequences that PrettyColors' `Color.Wrap` writes: that library is not part of this model. It is the `Painter` parameter. So nothing is claimed about decorated output: not that it contains its input, and not that different styles decorate differently. Nothing in `Formatting.swift` promises either.
- `ColorOptions.evaluate` (lines 107-110): this is option wiring for the Commandant and LlamaKit libraries. Only its key and default value are kept, as the constants `OptionKey` (`"color"`) and `DefaultArgument` (`Auto`). The argument type's `name` (line 58) is the constant `ColorArgument.Name`. The usage text and how the parser reports an unparsable value are not modelled.
- `Printable` / `ArgumentType` conformances: only the members they use (`description`, `fromString`, `name`) are modelled.
- `lowercaseString` and `caseInsensitiveCompare` are Unicode-aware in Foundation. Here they fold only the ASCII letters 'A'..'Z'. Non-ASCII capitals (for example 'Ä') and locale rules are not modelled.
- `wrap` is curried in the source (`wrap(colorful)(wrap:)(string:)`). `ColorFormatting.Wrap` takes the same three inputs, plus the painter, in one call.
