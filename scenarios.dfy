/** The expected outputs of tests/logger.test.ts, derived from the model. The
    visible-text function is assumed to do only what `stripAnsi` does to these
    strings: plain text passes through, and the one coloured label loses its escapes.
    A multi-line expectation is written as its lines joined by line separators.

    Every concatenation of string literals a scenario needs (`BasicLine0`,
    `PaddedShort`, `LabelLine1` and the like) sits in a one-line lemma of its own,
    and so does every code-unit length of a literal (`OkWidths` and the like): the
    solver settles one literal equality cheaply and many together slowly. The
    fixtures state their size because `MaxLength` needs a non-empty method set. */
module Scenarios {
  import opened Lines
  import opened Logger

  /** The configuration `{ padding, color: false }` of the tests. */
  function Colourless(padding: Option<PadType>): PartialConfig
  {
    PartialConfig(padding, None, None, None, Some(false))
  }

  /** A call with one single-line argument is that argument behind the label. */
  lemma OneArgument(e: Entry, args: seq<string>)
    requires |args| == 1 && NewLine !in args[0]
    ensures Emit(e, args) == e.paddedText + e.divider + args[0]
  {
    SingleLine(e, args);
  }

  /** With PREPEND padding, an entry is its three texts behind their pads. This is
      `Compile` with `Place` unfolded and adds nothing to `Compile`'s own contract: it
      is stated once here so that the scenarios below cost the solver less work. */
  lemma CompiledPrepend(m: MethodConfig, maxLength: int, cfg: LogConfig, strip: Stripper)
    requires cfg.padding == Prepend
    ensures Compile(m, maxLength, cfg, strip)
      == Entry(Spaces(maxLength - Width(strip, m.tag)) + m.tag,
               Spaces(maxLength - Width(strip, m.newLine)) + m.newLine,
               Spaces(maxLength - Width(strip, m.newLine)) + m.newLineEnd,
               cfg.divider)
  {
  }

  /** Text of Basic Multilingual Plane characters is as long in code units as in characters. */
  lemma PlainLength(s: string)
    requires forall i :: 0 <= i < |s| ==> s[i] as int < 0x1_0000
    ensures Utf16Length(s) == |s|
  {
    Utf16Bmp(s);
  }

  /** Code-unit lengths of the plain texts the fixtures measure. */
  lemma OkWidths()
    ensures Utf16Length("OK") == 2 && Utf16Length("├-") == 2 && Utf16Length("!") == 1
  {
    PlainLength("OK"); PlainLength("├-"); PlainLength("!");
  }

  lemma BasicWidths()
    ensures Utf16Length("[OK]") == 4 && Utf16Length("| ") == 2
  {
    PlainLength("[OK]"); PlainLength("| ");
  }

  lemma ShortWidths()
    ensures Utf16Length("SHORT") == 5 && Utf16Length("LONGER") == 6
  {
    PlainLength("SHORT"); PlainLength("LONGER");
  }

  lemma CornerWidths()
    ensures Utf16Length(" └-") == 3 && Utf16Length(" !") == 2
  {
    PlainLength(" └-"); PlainLength(" !");
  }

  // ---------------------------------------------------------------------------
  // "Basic Logging"
  // ---------------------------------------------------------------------------

  /** `chalk.greenBright\`[OK]\``: the label wrapped in the bright-green escapes. */
  const GreenOk: string := "\U{1B}[92m[OK]\U{1B}[39m"

  function BasicSpecs(): (specs: map<string, MethodSpec>)
    ensures |specs| == 1
  {
    map["ok" := Record(GreenOk, Some("| "), Some("\\-"))]
  }

  /** The coloured label counts four visible characters; both line prefixes get
      the two spaces the continuation prefix `"| "` lacks. */
  lemma BasicEntry(strip: Stripper)
    requires strip(GreenOk) == "[OK]" && strip("| ") == "| "
    ensures Entries(BasicSpecs(), Colourless(Some(Prepend)), strip)["ok"] == Entry(GreenOk, "  | ", "  \\-", " ")
  {
    var specs, config := BasicSpecs(), Colourless(Some(Prepend));
    var cfg := CompleteConfig(config);
    var m := MethodConfig(GreenOk, "| ", "\\-");
    BasicWidths();
    assert CompleteMethods(specs, config) == map["ok" := m];
    assert Width(strip, GreenOk) == 4;
    assert MaxLength(specs, config, strip) == 4;
    assert Width(strip, "| ") == 2;
    assert Spaces(0) == "";
    assert Spaces(2) == "  ";
    assert Compile(m, 4, cfg, strip) == Entry(GreenOk, "  | ", "  \\-", " ");
  }

  const BasicArgs: seq<string> :=
    ["This is the best logging library", "It's not even a question", "It even supports multi\nline logs"]

  const BasicLines: seq<string> :=
    ["This is the best logging library", "It's not even a question", "It even supports multi", "line logs"]

  /** The embedded line break splits the third argument in two. */
  lemma BasicSplit()
    ensures Split(Join(BasicArgs)) == BasicLines
  {
    var before := BasicArgs[..2];
    var joined := "It even supports multi" + [NewLine] + "line logs";
    assert joined == "It even supports multi\nline logs";
    assert BasicArgs == before + [joined] + [];
    assert BasicLines == before + ["It even supports multi", "line logs"] + [];
    JoinFlatten(before, "It even supports multi", "line logs", []);
    SplitJoin(BasicLines);
  }

  lemma BasicOutputLines()
    ensures Prefixed(Entry(GreenOk, "  | ", "  \\-", " "), BasicLines)
      == [GreenOk + " This is the best logging library", "  |  It's not even a question",
          "  |  It even supports multi", "  \\- line logs"]
  {
    BasicLine0(); BasicLine1(); BasicLine2(); BasicLine3();
  }

  lemma BasicLine0() ensures GreenOk + " " + "This is the best logging library" == GreenOk + " This is the best logging library" {}
  lemma BasicLine1() ensures "  | " + " " + "It's not even a question" == "  |  It's not even a question" {}
  lemma BasicLine2() ensures "  | " + " " + "It even supports multi" == "  |  It even supports multi" {}
  lemma BasicLine3() ensures "  \\-" + " " + "line logs" == "  \\- line logs" {}

  /** "should log ok". */
  lemma BasicLogging(strip: Stripper)
    requires strip(GreenOk) == "[OK]" && strip("| ") == "| "
    ensures CreateLogger(BasicSpecs(), Colourless(Some(Prepend)), strip)["ok"](BasicArgs)
      == Join([GreenOk + " This is the best logging library", "  |  It's not even a question",
               "  |  It even supports multi", "  \\- line logs"])
  {
    BasicEntry(strip);
    BasicSplit();
    BasicOutputLines();
  }

  // ---------------------------------------------------------------------------
  // "Objects & Arrays" (the values arrive already rendered by `util.inspect`)
  // ---------------------------------------------------------------------------

  /** A logger with the one method `name`, labelled `OK`. */
  function OkOnly(name: string): (specs: map<string, MethodSpec>)
    ensures |specs| == 1
  {
    map[name := Bare("OK")]
  }

  /** A lone two-character label needs no padding, and the divider is the default. */
  lemma OkEntry(strip: Stripper, name: string, config: PartialConfig)
    requires strip("OK") == "OK" && strip("├-") == "├-"
    requires config.divider.None?
    ensures Entries(OkOnly(name), config, strip)[name].paddedText == "OK"
    ensures Entries(OkOnly(name), config, strip)[name].divider == " "
  {
    OkWidths();
    var specs := OkOnly(name);
    var cfg := CompleteConfig(config);
    var m := CompleteMethods(specs, config)[name];
    assert m.tag == "OK";
    assert MaxLength(specs, config, strip) == 2;
    assert Spaces(0) == "";
    assert Entries(specs, config, strip)[name] == Compile(m, 2, cfg, strip);
  }

  const InspectedObject: seq<string> := ["{ hello: 'world' }"]
  const InspectedArray: seq<string> := ["[ 'hello', 'world' ]"]

  lemma InspectedPlain()
    ensures |InspectedObject| == 1 && NewLine !in InspectedObject[0]
    ensures |InspectedArray| == 1 && NewLine !in InspectedArray[0]
  {}

  lemma ObjectLine() ensures "OK" + " " + "{ hello: 'world' }" == "OK { hello: 'world' }" {}
  lemma ArrayLine() ensures "OK" + " " + "[ 'hello', 'world' ]" == "OK [ 'hello', 'world' ]" {}

  /** "can log objects". */
  lemma ObjectLogging(strip: Stripper)
    requires strip("OK") == "OK" && strip("├-") == "├-"
    ensures CreateLogger(OkOnly("ok"), Colourless(None), strip)["ok"](InspectedObject) == "OK { hello: 'world' }"
  {
    OkEntry(strip, "ok", Colourless(None));
    var e := Entries(OkOnly("ok"), Colourless(None), strip)["ok"];
    assert e.paddedText == "OK" && e.divider == " ";
    InspectedPlain();
    OneArgument(e, InspectedObject);
    ObjectLine();
    assert Emit(e, InspectedObject) == "OK { hello: 'world' }";
  }

  /** "can log arrays". */
  lemma ArrayLogging(strip: Stripper)
    requires strip("OK") == "OK" && strip("├-") == "├-"
    ensures CreateLogger(OkOnly("ok"), Colourless(None), strip)["ok"](InspectedArray) == "OK [ 'hello', 'world' ]"
  {
    OkEntry(strip, "ok", Colourless(None));
    var e := Entries(OkOnly("ok"), Colourless(None), strip)["ok"];
    assert e.paddedText == "OK" && e.divider == " ";
    InspectedPlain();
    OneArgument(e, InspectedArray);
    ArrayLine();
    assert Emit(e, InspectedArray) == "OK [ 'hello', 'world' ]";
  }

  // ---------------------------------------------------------------------------
  // "Prepend vs Append"
  // ---------------------------------------------------------------------------

  function ShortLonger(): (specs: map<string, MethodSpec>)
    ensures |specs| == 2
  {
    map["short" := Bare("SHORT"), "longer" := Bare("LONGER")]
  }

  /** The shared width is that of "LONGER", so "SHORT" is one space short. */
  lemma ShortLongerWidth(strip: Stripper, config: PartialConfig)
    requires strip("SHORT") == "SHORT" && strip("LONGER") == "LONGER"
    ensures MaxLength(ShortLonger(), config, strip) == 6
  {
    ShortWidths();
    assert Width(strip, "SHORT") == 5 && Width(strip, "LONGER") == 6;
    var methods := CompleteMethods(ShortLonger(), config);
    assert methods.Keys == {"short", "longer"};
    assert methods["short"].tag == "SHORT" && methods["longer"].tag == "LONGER";
  }

  lemma ShortEntry(strip: Stripper, padding: PadType)
    requires strip("SHORT") == "SHORT" && strip("LONGER") == "LONGER" && strip("├-") == "├-"
    ensures var e := Entries(ShortLonger(), Colourless(Some(padding)), strip)["short"];
      && e.paddedText == (if padding == Prepend then " SHORT" else "SHORT ")
      && e.divider == " "
  {
    ShortWidths(); OkWidths();
    var config := Colourless(Some(padding));
    ShortLongerWidth(strip, config);
    var m := CompleteMethods(ShortLonger(), config)["short"];
    assert m.tag == "SHORT";
    var cfg := CompleteConfig(config);
    assert cfg.padding == padding && cfg.divider == " ";
    assert Entries(ShortLonger(), config, strip)["short"] == Compile(m, 6, cfg, strip);
    assert Spaces(1) == " ";
    assert Compile(m, 6, cfg, strip).paddedText == Place(padding, 1, "SHORT");
    PaddedShort();
  }

  lemma PaddedShort() ensures " " + "SHORT" == " SHORT" && "SHORT" + " " == "SHORT " {}

  const HelloWorld: seq<string> := ["Hello world"]

  lemma HelloWorldPlain() ensures |HelloWorld| == 1 && NewLine !in HelloWorld[0] {}

  lemma PrependLine() ensures " SHORT" + " " + "Hello world" == " SHORT Hello world" {}
  lemma AppendLine() ensures "SHORT " + " " + "Hello world" == "SHORT  Hello world" {}

  /** "should prepend short". */
  lemma PrependShort(strip: Stripper)
    requires strip("SHORT") == "SHORT" && strip("LONGER") == "LONGER" && strip("├-") == "├-"
    ensures CreateLogger(ShortLonger(), Colourless(Some(Prepend)), strip)["short"](HelloWorld) == " SHORT Hello world"
  {
    ShortEntry(strip, Prepend);
    var e := Entries(ShortLonger(), Colourless(Some(Prepend)), strip)["short"];
    assert e.paddedText == " SHORT" && e.divider == " ";
    HelloWorldPlain();
    OneArgument(e, HelloWorld);
    PrependLine();
    assert Emit(e, HelloWorld) == " SHORT Hello world";
  }

  /** "should append short". */
  lemma AppendShort(strip: Stripper)
    requires strip("SHORT") == "SHORT" && strip("LONGER") == "LONGER" && strip("├-") == "├-"
    ensures CreateLogger(ShortLonger(), Colourless(Some(Append)), strip)["short"](HelloWorld) == "SHORT  Hello world"
  {
    ShortEntry(strip, Append);
    var e := Entries(ShortLonger(), Colourless(Some(Append)), strip)["short"];
    assert e.paddedText == "SHORT " && e.divider == " ";
    HelloWorldPlain();
    OneArgument(e, HelloWorld);
    AppendLine();
    assert Emit(e, HelloWorld) == "SHORT  Hello world";
  }

  // ---------------------------------------------------------------------------
  // "Multiline Wrapping"
  // ---------------------------------------------------------------------------

  function Wrapping(): (specs: map<string, MethodSpec>)
    ensures |specs| == 3
  {
    map["plaintext" := Bare("OK"),
        "oneline" := Record("OK", Some("!"), None),
        "twoline" := Record("OK", Some("!"), Some("!"))]
  }

  /** Every label is "OK", so the shared width is 2. */
  lemma WrappingWidth(strip: Stripper)
    requires strip("OK") == "OK" && strip("├-") == "├-" && strip("!") == "!"
    ensures MaxLength(Wrapping(), NoConfig, strip) == 2
  {
    OkWidths();
    var methods := CompleteMethods(Wrapping(), NoConfig);
    assert methods.Keys == {"plaintext", "oneline", "twoline"};
    assert methods["plaintext"].tag == "OK" && methods["oneline"].tag == "OK" && methods["twoline"].tag == "OK";
  }

  /** The default prefixes are as wide as the label and need no padding. */
  lemma PlaintextEntry(strip: Stripper)
    requires strip("OK") == "OK" && strip("├-") == "├-" && strip("!") == "!"
    ensures Entries(Wrapping(), NoConfig, strip)["plaintext"] == Entry("OK", "├-", "└-", " ")
  {
    OkWidths();
    WrappingWidth(strip);
    var m := CompleteMethods(Wrapping(), NoConfig)["plaintext"];
    assert m == MethodConfig("OK", "├-", "└-");
    assert Spaces(0) == "";
    assert Entries(Wrapping(), NoConfig, strip)["plaintext"] == Compile(m, 2, CompleteConfig(NoConfig), strip);
  }

  /** "!" is one short of the width, so it gets one space, and so does the default
      last-line prefix behind it. */
  lemma OnelineEntry(strip: Stripper)
    requires strip("OK") == "OK" && strip("├-") == "├-" && strip("!") == "!"
    ensures Entries(Wrapping(), NoConfig, strip)["oneline"] == Entry("OK", " !", " └-", " ")
  {
    OkWidths();
    WrappingWidth(strip);
    var m := CompleteMethods(Wrapping(), NoConfig)["oneline"];
    assert m == MethodConfig("OK", "!", "└-");
    var cfg := CompleteConfig(NoConfig);
    assert cfg.padding == Prepend && cfg.divider == " ";
    assert Entries(Wrapping(), NoConfig, strip)["oneline"] == Compile(m, 2, cfg, strip);
    CompiledPrepend(m, 2, cfg, strip);
    assert Width(strip, "OK") == 2 && Width(strip, "!") == 1;
    assert Spaces(0) == "" && Spaces(1) == " ";
    PaddedBang();
    PaddedCorner();
  }

  lemma TwolineEntry(strip: Stripper)
    requires strip("OK") == "OK" && strip("├-") == "├-" && strip("!") == "!"
    ensures Entries(Wrapping(), NoConfig, strip)["twoline"] == Entry("OK", " !", " !", " ")
  {
    OkWidths();
    WrappingWidth(strip);
    var m := CompleteMethods(Wrapping(), NoConfig)["twoline"];
    assert m == MethodConfig("OK", "!", "!");
    var cfg := CompleteConfig(NoConfig);
    assert cfg.padding == Prepend && cfg.divider == " ";
    assert Entries(Wrapping(), NoConfig, strip)["twoline"] == Compile(m, 2, cfg, strip);
    CompiledPrepend(m, 2, cfg, strip);
    assert Width(strip, "OK") == 2 && Width(strip, "!") == 1;
    assert Spaces(0) == "" && Spaces(1) == " ";
    PaddedBang();
  }

  lemma PaddedBang() ensures "" + "OK" == "OK" && " " + "!" == " !" {}
  lemma PaddedCorner() ensures " " + "└-" == " └-" {}

  const ThreeLines: seq<string> := ["Line 1", "Line 2", "Line 3"]

  lemma ThreeLinesSplit()
    ensures Split(Join(ThreeLines)) == ThreeLines
  {
    SplitJoin(ThreeLines);
  }

  lemma LabelLine1() ensures "OK" + " " + "Line 1" == "OK Line 1" {}
  lemma PlaintextLine2() ensures "├-" + " " + "Line 2" == "├- Line 2" {}
  lemma PlaintextLine3() ensures "└-" + " " + "Line 3" == "└- Line 3" {}
  lemma BangLine2() ensures " !" + " " + "Line 2" == " ! Line 2" {}
  lemma BangLine3() ensures " !" + " " + "Line 3" == " ! Line 3" {}
  lemma OnelineLine3() ensures " └-" + " " + "Line 3" == " └- Line 3" {}

  lemma PlaintextLines() ensures Prefixed(Entry("OK", "├-", "└-", " "), ThreeLines) == ["OK Line 1", "├- Line 2", "└- Line 3"]
  {
    LabelLine1(); PlaintextLine2(); PlaintextLine3();
  }

  lemma OnelineLines() ensures Prefixed(Entry("OK", " !", " └-", " "), ThreeLines) == ["OK Line 1", " ! Line 2", " └- Line 3"]
  {
    LabelLine1(); BangLine2(); OnelineLine3();
  }

  lemma TwolineLines() ensures Prefixed(Entry("OK", " !", " !", " "), ThreeLines) == ["OK Line 1", " ! Line 2", " ! Line 3"]
  {
    LabelLine1(); BangLine2(); BangLine3();
  }

  /** "should log plaintext". */
  lemma PlaintextWrapping(strip: Stripper)
    requires strip("OK") == "OK" && strip("├-") == "├-" && strip("!") == "!"
    ensures CreateLogger(Wrapping(), NoConfig, strip)["plaintext"](ThreeLines) == Join(["OK Line 1", "├- Line 2", "└- Line 3"])
  {
    PlaintextEntry(strip);
    var e := Entries(Wrapping(), NoConfig, strip)["plaintext"];
    ThreeLinesSplit();
    assert Emit(e, ThreeLines) == Join(Prefixed(e, ThreeLines));
    PlaintextLines();
  }

  /** "should log oneline". */
  lemma OnelineWrapping(strip: Stripper)
    requires strip("OK") == "OK" && strip("├-") == "├-" && strip("!") == "!"
    ensures CreateLogger(Wrapping(), NoConfig, strip)["oneline"](ThreeLines) == Join(["OK Line 1", " ! Line 2", " └- Line 3"])
  {
    OnelineEntry(strip);
    var e := Entries(Wrapping(), NoConfig, strip)["oneline"];
    ThreeLinesSplit();
    assert Emit(e, ThreeLines) == Join(Prefixed(e, ThreeLines));
    OnelineLines();
  }

  /** "should log twoline". */
  lemma TwolineWrapping(strip: Stripper)
    requires strip("OK") == "OK" && strip("├-") == "├-" && strip("!") == "!"
    ensures CreateLogger(Wrapping(), NoConfig, strip)["twoline"](ThreeLines) == Join(["OK Line 1", " ! Line 2", " ! Line 3"])
  {
    TwolineEntry(strip);
    var e := Entries(Wrapping(), NoConfig, strip)["twoline"];
    ThreeLinesSplit();
    assert Emit(e, ThreeLines) == Join(Prefixed(e, ThreeLines));
    TwolineLines();
  }

  /** Of "oneline", the last-line prefix `" └-"` is one visible column wider than
      the label column, since it is padded for `"!"`; "twoline", whose two line
      prefixes agree, stays aligned. */
  lemma OnelineLastLineOverhang(strip: Stripper)
    requires strip("OK") == "OK" && strip("├-") == "├-" && strip("!") == "!"
    requires strip(" └-") == " └-" && strip(" !") == " !"
    ensures MaxLength(Wrapping(), NoConfig, strip) == 2
    ensures Width(strip, Entries(Wrapping(), NoConfig, strip)["oneline"].paddedPreEnd) == 3
    ensures Width(strip, Entries(Wrapping(), NoConfig, strip)["twoline"].paddedPreEnd) == 2
  {
    OkWidths(); CornerWidths();
    WrappingWidth(strip);
    OnelineEntry(strip);
    TwolineEntry(strip);
  }

  // ---------------------------------------------------------------------------
  // "Default values"
  // ---------------------------------------------------------------------------

  lemma DefaultLine() ensures "OK" + " " + "Hello world" == "OK Hello world" {}

  /** "should log": no configuration at all. */
  lemma DefaultValues(strip: Stripper)
    requires strip("OK") == "OK" && strip("├-") == "├-"
    ensures CreateLogger(OkOnly("default"), NoConfig, strip)["default"](HelloWorld) == "OK Hello world"
  {
    OkEntry(strip, "default", NoConfig);
    var e := Entries(OkOnly("default"), NoConfig, strip)["default"];
    assert e.paddedText == "OK" && e.divider == " ";
    HelloWorldPlain();
    OneArgument(e, HelloWorld);
    DefaultLine();
    assert Emit(e, HelloWorld) == "OK Hello world";
  }

  // ---------------------------------------------------------------------------
  // A label outside the Basic Multilingual Plane
  // ---------------------------------------------------------------------------

  /** U+1F680, one character that JavaScript stores as a surrogate pair. */
  const Rocket: string := "\U{1F680}"

  function RocketAndOk(): (specs: map<string, MethodSpec>)
    ensures |specs| == 2
  {
    map["rocket" := Bare(Rocket), "ok" := Bare("OK")]
  }

  /** `.length` counts the rocket as two code units, as wide as `OK`, so the shared
      width is 2 and the rocket label gets no pad. */
  lemma AstralLabel(strip: Stripper)
    requires strip(Rocket) == Rocket && strip("OK") == "OK" && strip("├-") == "├-"
    ensures MaxLength(RocketAndOk(), NoConfig, strip) == 2
    ensures Entries(RocketAndOk(), NoConfig, strip)["rocket"].paddedText == Rocket
  {
    OkWidths();
    assert Utf16Length(Rocket) == 2;
    var methods := CompleteMethods(RocketAndOk(), NoConfig);
    assert methods.Keys == {"rocket", "ok"};
    assert methods["rocket"].tag == Rocket && methods["ok"].tag == "OK";
    assert MaxLength(RocketAndOk(), NoConfig, strip) == 2;
    var m, cfg := methods["rocket"], CompleteConfig(NoConfig);
    assert cfg.padding == Prepend;
    assert Entries(RocketAndOk(), NoConfig, strip)["rocket"] == Compile(m, 2, cfg, strip);
    CompiledPrepend(m, 2, cfg, strip);
    assert Spaces(0) == "";
    assert "" + Rocket == Rocket;
  }
}
