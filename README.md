# createLogger, modelled in Dafny

`createLogger` in `src/index.ts` builds a set of labelled log functions in four steps:

1. It lays the caller's partial configuration over the defaults: divider `" "`, continuation prefix `"├-"`, last-line prefix `"└-"`, PREPEND padding, colour on.
2. It normalises every method spec into a full record. A spec is either a bare label or a record whose line prefixes may be missing.
3. It takes the widest visible label length, ignoring ANSI escapes, as the width shared by all methods. Lengths are JavaScript's `.length`, counted in UTF-16 code units, so a character outside the Basic Multilingual Plane counts two.
4. For every method it precomputes three padded prefixes:
   - the label;
   - the continuation prefix;
   - the last-line prefix.

A call to one of these functions joins its arguments with `"\n"` and splits the result on `"\n"`. Every line is prefixed by its position (first, middle, last). The lines are rejoined and the one string is handed to the sink.

The project has three modules:

- `Lines` (`lines.dfy`) models `join("\n")` and `split("\n")` and proves their round trips.
- `Logger` (`logger.dfy`) models each step of `createLogger` as a function and proves:
  - how the configuration merge and spec normalisation behave;
  - that the shared width is the maximum label width;
  - the visible width of every prefix;
  - how many lines an output has and which prefix each line carries, when no label, line prefix or divider holds a line separator;
  - that, under the same condition, the prefixes can be removed again to recover the joined arguments.
- `Scenarios` (`scenarios.dfy`) derives from the model the exact outputs expected by `tests/logger.test.ts`, and the width of a label outside the Basic Multilingual Plane.

`stripAnsi` is a parameter, the `Stripper`. Its regular expression is not modelled. The width lemmas ask only for `KeepsSpaces`: spaces placed before or after a string pass through the stripper unchanged. The real `stripAnsi` has this property for two reasons:

- Every match of its pattern starts with ESC or CSI.
- No match can contain a space.

So a space is never removed, and a space never completes a match. The test scenarios instead state the few concrete facts they use, for example that `"OK"` is left alone and that the green `[OK]` label strips to `[OK]`.

The last-line pad has a quirk. The source pads the last-line prefix by what the continuation prefix `newLine` lacks, not by what `newLineEnd` lacks (`src/index.ts:106-108`). The consequences:

- When `newLine` fits in the shared width, the last line is aligned with the label column exactly when `newLineEnd` is as wide as `newLine`.
- When `newLine` is wider than the shared width, there is no pad, and the last-line prefix is `newLineEnd` at its own width.
- The "should log oneline" test expects exactly this.
- The model follows the code. `Logger.LastLineWidth` states the width that results, and `Scenarios.OnelineLastLineOverhang` shows the one-column overhang.

## Model

| member | source | states |
|---|---|---|
| `Lines.Split` | src/index.ts:135 | splitting on `"\n"` gives one piece more than there are separators, and no piece holds a separator |
| `Lines.Join` | src/index.ts:134 | joining with `"\n"` starts with the first part |
| `Lines.JoinCount` | src/index.ts:134 | separator-free parts join with one separator fewer than there are parts |
| `Lines.SplitNoNewLine` | src/index.ts:135 | text without a separator splits into itself alone |
| `Lines.SplitAfter` | src/index.ts:135 | the text before the first separator is the first piece, and the rest splits on its own |
| `Lines.JoinSplit` | src/index.ts:134-135 | splitting and then joining with `"\n"` gives the original text back |
| `Lines.SplitJoin` | src/index.ts:136-145 | joining separator-free lines and splitting again gives the same lines back |
| `Lines.JoinFlatten` | src/index.ts:134-135 | an argument holding `"\n"` joins exactly like the two arguments on either side of it |
| `Logger.CompleteConfig` | src/index.ts:40-49 | a supplied field overrides its default; a missing field takes the default (`" "`, `"├-"`, `"└-"`, PREPEND, colour on) |
| `Logger.DefaultConfig` | src/index.ts:40-47 | with no configuration, the defaults are used unchanged |
| `Logger.SpreadIdentities` | src/index.ts:40-49 | spreading nothing keeps the base, and spreading a complete configuration replaces it |
| `Logger.Spread` | src/index.ts:40-49 | `{...base, ...over}`; its properties are stated by `Logger.SpreadIdentities` and, for the defaults, by `Logger.CompleteConfig` |
| `Logger.Normalise` | src/index.ts:52-80 | a bare label takes both prefixes from the configuration; a record keeps its label and any prefix it gives, and takes the missing ones from the configuration |
| `Logger.Inferred` | src/index.ts:52-56 | `inferredMethodConfig`: the configuration's two line prefixes and a placeholder label; what a spec keeps of it is stated by `Logger.Normalise` |
| `Logger.NormaliseProperties` | src/index.ts:62-80 | a bare label is the record with only that label; a full record ignores the configuration; normalising twice changes nothing |
| `Logger.CompleteMethods` | src/index.ts:59-82 | the same method names, each with its own label |
| `Logger.Spaces` | src/index.ts:95-101 | `"".padStart(n)` is `n` spaces, and the empty string when `n <= 0` |
| `Logger.Utf16Length` | src/index.ts:87 | `.length` counts at least one and at most two code units per character |
| `Logger.Utf16Append` | src/index.ts:87 | the code units of a concatenation are those of its halves |
| `Logger.Utf16Bmp` | src/index.ts:87 | `.length` equals the number of characters exactly when every character lies in the Basic Multilingual Plane |
| `Logger.Width` | src/index.ts:87 | `stripAnsi(s).length`: between one and two code units per visible character |
| `Logger.SpacesWidth` | src/index.ts:95-101 | a pad of `n` spaces is `max(0, n)` code units long |
| `Logger.WidestExists` | src/index.ts:85-89 | a non-empty method set has a method whose label is at least as wide as every other |
| `Logger.MaxLength` | src/index.ts:85-89 | `maxLength` of one call: every label of the call fits in it, and some label is exactly that wide |
| `Logger.Place` | src/index.ts:102-117 | the text verbatim, with `max(0, n)` spaces before it under PREPEND and after it under APPEND |
| `Logger.Compile` | src/index.ts:94-117 | the label and the continuation prefix are each padded by what they lack of `maxLength`; the last-line prefix gets the continuation prefix's pad; the divider is the configuration's |
| `Logger.Entries` | src/index.ts:91-117 | one entry per method name, each with the configured divider; no methods give no entries |
| `Logger.PlaceWidth` | src/index.ts:95-117 | padding adds exactly the pad spaces to the visible width |
| `Logger.CompileWidths` | src/index.ts:95-117 | the visible widths of the three prefixes: a text narrower than `maxLength` is widened to it, a wider one is kept, and the last-line prefix is its own width plus the continuation prefix's pad |
| `Logger.LabelsAligned` | src/index.ts:85-117 | the padded labels of all methods have the same visible width, the shared maximum |
| `Logger.ContinuationWidth` | src/index.ts:99-105 | a continuation prefix is widened to the shared width when it fits, and otherwise kept |
| `Logger.LastLineWidth` | src/index.ts:106-112 | the last-line prefix is as wide as the continuation prefix's pad plus its own width. When the continuation prefix fits, the last line reaches the shared width exactly when both prefixes are equally wide. When the continuation prefix is wider, the last-line prefix keeps its own width |
| `Logger.CreateLogger` | src/index.ts:91-150 | one emit function per method name, each formatting with that method's entry |
| `Logger.LinePrefix` | src/index.ts:137-143 | the prefix a line gets from its position; stated by `Logger.EmitLines` |
| `Logger.Prefixed` | src/index.ts:136-144 | every line behind the prefix of its position; stated by `Logger.EmitLines` |
| `Logger.Emit` | src/index.ts:120-146 | every output starts with the label and the divider; the line structure is stated by `Logger.EmitLines` and `Logger.EmitRoundTrip` |
| `Logger.EmitLines` | src/index.ts:134-145 | when neither the divider nor any padded prefix holds a line separator, the output has as many lines as the joined input; the first is behind label and divider, the last (of two or more) behind the last-line prefix, every other behind the continuation prefix |
| `Logger.EmitRoundTrip` | src/index.ts:134-145 | when neither the divider nor any padded prefix holds a line separator, removing each line's prefix from an output gives back the arguments joined by `"\n"` |
| `Logger.SingleLine` | src/index.ts:134-145 | input without a separator gives one line behind the label; no arguments give the label and divider alone |
| `Logger.EmbeddedNewLine` | src/index.ts:134-135 | a `"\n"` inside an argument is formatted as a boundary between two arguments |
| `Logger.SpacesSingleLine` | src/index.ts:95-98 | pad strings hold no line separator |
| `Logger.EntriesSingleLine` | src/index.ts:95-117 | when the labels, prefixes and divider are single lines, so are all padded prefixes |
| `Logger.LoggerRoundTrip` | src/index.ts:120-146 | for every method of a logger none of whose labels, line prefixes or divider holds a line separator, the prefixes of any output can be removed again to give the joined arguments |
| `Scenarios.CompiledPrepend` | src/index.ts:102-117 | under PREPEND, each prefix is its pad followed by its text |
| `Scenarios.OneArgument` | src/index.ts:134-145 | one single-line argument is printed behind label and divider |
| `Scenarios.BasicEntry` | tests/logger.test.ts:10-20 | the green `[OK]` label is four columns wide, so both line prefixes get two pad spaces |
| `Scenarios.BasicSplit` | tests/logger.test.ts:28-32 | the three arguments become four lines |
| `Scenarios.BasicOutputLines` | tests/logger.test.ts:33-38 | the four prefixed lines of "should log ok" |
| `Scenarios.BasicLogging` | tests/logger.test.ts:27-38 | "should log ok" produces exactly the expected four-line output |
| `Scenarios.OkEntry` | tests/logger.test.ts:46-52 | a lone `OK` label needs no padding, and the divider is the default `" "`; this holds for the one-method loggers of "Objects & Arrays" and of "Default values" |
| `Scenarios.ObjectLogging` | tests/logger.test.ts:59-62 | the rendered object is printed as `OK { hello: 'world' }` |
| `Scenarios.ArrayLogging` | tests/logger.test.ts:64-67 | the rendered array is printed as `OK [ 'hello', 'world' ]` |
| `Scenarios.ShortLongerWidth` | tests/logger.test.ts:75-90 | the shared width of `SHORT` and `LONGER` is 6 |
| `Scenarios.ShortEntry` | tests/logger.test.ts:75-90 | `SHORT` gets its one pad space before it under PREPEND and after it under APPEND |
| `Scenarios.PrependShort` | tests/logger.test.ts:97-100 | "should prepend short" prints ` SHORT Hello world` |
| `Scenarios.AppendShort` | tests/logger.test.ts:101-104 | "should append short" prints `SHORT  Hello world` |
| `Scenarios.WrappingWidth` | tests/logger.test.ts:111-119 | every label is `OK`, so the shared width is 2 |
| `Scenarios.PlaintextEntry` | tests/logger.test.ts:113 | a bare label gets the default prefixes unpadded |
| `Scenarios.OnelineEntry` | tests/logger.test.ts:114 | `!` gets one pad space, and the default last-line prefix gets the same pad |
| `Scenarios.TwolineEntry` | tests/logger.test.ts:115 | both prefixes `!` get one pad space |
| `Scenarios.ThreeLinesSplit` | tests/logger.test.ts:127 | three single-line arguments stay three lines |
| `Scenarios.PlaintextLines` | tests/logger.test.ts:126-131 | the three prefixed lines of "should log plaintext" |
| `Scenarios.OnelineLines` | tests/logger.test.ts:132-137 | the three prefixed lines of "should log oneline" |
| `Scenarios.TwolineLines` | tests/logger.test.ts:138-143 | the three prefixed lines of "should log twoline" |
| `Scenarios.PlaintextWrapping` | tests/logger.test.ts:126-131 | "should log plaintext" produces exactly its expected output |
| `Scenarios.OnelineWrapping` | tests/logger.test.ts:132-137 | "should log oneline" produces exactly its expected output |
| `Scenarios.TwolineWrapping` | tests/logger.test.ts:138-143 | "should log twoline" produces exactly its expected output |
| `Scenarios.OnelineLastLineOverhang` | tests/logger.test.ts:132-137 | the last-line prefix of `oneline` is one column wider than the shared width, while that of `twoline` matches it |
| `Scenarios.AstralLabel` | src/index.ts:85-98 | a label made of one character outside the Basic Multilingual Plane counts two code units, so next to `OK` it gets no pad |
| `Scenarios.DefaultValues` | tests/logger.test.ts:161-166 | "should log" prints `OK Hello world` |

## Left out

- `stripAnsi` and its regular expression (`src/index.ts:3-8`): the visible-text function is a parameter. Lemmas that depend on its behaviour require either `KeepsSpaces` or concrete facts about the strings they use.
- `util.inspect` and the `color` option (`src/index.ts:123-133`): in the model, arguments arrive as already-rendered strings, so `color` is carried in the configuration but never read.
- The sink `func`, by default `console.log`: an emit function returns the string it would hand to the sink for that call.
- The JavaScript object plumbing (`Object.assign`, `Object.keys`, the key types): method sets are maps from method name to spec, and a logger is a map from method name to emit function.
- Explicit `undefined` values in a partial configuration or a method record: a field that is present but `undefined` would override its default. The model treats such a field as absent.
- `Math.max` of an empty list is `-Infinity`: with no methods the source never uses that value, and `Logger.Entries` gives no entries. The shared width `Logger.MaxLength` is therefore defined only for non-empty method sets.
- The placeholder label `"-"` of the inferred method record is always replaced, because every spec carries a label.
- Labels, line prefixes and dividers that hold `"\n"`: the source accepts them and the formatting functions model them, but each of them adds a line to the output. `Logger.EmitLines`, `Logger.EmitRoundTrip` and `Logger.LoggerRoundTrip` speak only of loggers whose prefixes and divider are single lines (`Logger.SingleLinePrefixes`).
