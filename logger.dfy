/** `createLogger` of src/index.ts: the caller's configuration is laid over the
    defaults; each method spec is normalised to a full record; one label width is
    shared by all methods; every method gets three padded prefixes; and an emit
    call turns its (already rendered) arguments into the one string handed to the
    sink. */
module Logger {
  import opened Lines

  datatype Option<+T> = None | Some(value: T) {
    function GetOr(default: T): T
    {
      match this
      case Some(v) => v
      case None => default
    }
  }

  // ---------------------------------------------------------------------------
  // Global configuration
  // ---------------------------------------------------------------------------

  datatype PadType = Prepend | Append

  datatype LogConfig = LogConfig(
    padding: PadType,
    divider: string,
    newLine: string,
    newLineEnd: string,
    color: bool)

  /** `Partial<LogConfig>`: every field may be left out. */
  datatype PartialConfig = PartialConfig(
    padding: Option<PadType>,
    divider: Option<string>,
    newLine: Option<string>,
    newLineEnd: Option<string>,
    color: Option<bool>)

  /** The argument `createLogger` gets when the caller passes no configuration. */
  const NoConfig: PartialConfig := PartialConfig(None, None, None, None, None)

  /** The built-in defaults. */
  const Defaults: LogConfig := LogConfig(Prepend, " ", "├-", "└-", true)

  /** `{...base, ...over}`: a field `over` supplies wins, every other field is `base`'s. */
  function Spread(base: LogConfig, over: PartialConfig): LogConfig
  {
    LogConfig(
      over.padding.GetOr(base.padding),
      over.divider.GetOr(base.divider),
      over.newLine.GetOr(base.newLine),
      over.newLineEnd.GetOr(base.newLineEnd),
      over.color.GetOr(base.color))
  }

  /** Every field of a complete configuration, supplied. */
  function Supplied(c: LogConfig): PartialConfig
  {
    PartialConfig(Some(c.padding), Some(c.divider), Some(c.newLine), Some(c.newLineEnd), Some(c.color))
  }

  /** The configuration `createLogger` works with: the caller's over the defaults.
      A supplied field overrides its default and no other field changes. */
  function CompleteConfig(config: PartialConfig): (r: LogConfig)
    ensures config.padding.Some? ==> r.padding == config.padding.value
    ensures config.padding.None? ==> r.padding == Prepend
    ensures config.divider.Some? ==> r.divider == config.divider.value
    ensures config.divider.None? ==> r.divider == " "
    ensures config.newLine.Some? ==> r.newLine == config.newLine.value
    ensures config.newLine.None? ==> r.newLine == "├-"
    ensures config.newLineEnd.Some? ==> r.newLineEnd == config.newLineEnd.value
    ensures config.newLineEnd.None? ==> r.newLineEnd == "└-"
    ensures config.color.Some? ==> r.color == config.color.value
    ensures config.color.None? ==> r.color
  {
    Spread(Defaults, config)
  }

  /** With no configuration the defaults are used unchanged. */
  lemma DefaultConfig()
    ensures CompleteConfig(NoConfig) == LogConfig(Prepend, " ", "├-", "└-", true)
  {
  }

  /** Spreading nothing keeps the base, and spreading a complete configuration gives it back. */
  lemma SpreadIdentities(base: LogConfig, c: LogConfig)
    ensures Spread(base, NoConfig) == base
    ensures Spread(base, Supplied(c)) == c
  {
  }

  // ---------------------------------------------------------------------------
  // Method specifications
  // ---------------------------------------------------------------------------

  /** A method is given either as a bare label or as a record whose line prefixes may be left out.
      The field `tag` is the source's `label`, renamed because `label` is a Dafny keyword. */
  datatype MethodSpec =
    | Bare(tag: string)
    | Record(tag: string, newLine: Option<string>, newLineEnd: Option<string>)

  /** `Required<MethodConfig>`: a method spec with every field present. */
  datatype MethodConfig = MethodConfig(tag: string, newLine: string, newLineEnd: string)

  /** The record every method spec is spread over. Its label is always replaced. */
  function Inferred(cfg: LogConfig): MethodConfig
  {
    MethodConfig("-", cfg.newLine, cfg.newLineEnd)
  }

  /** A bare label takes both line prefixes from the configuration; a record keeps
      what it gives and takes only the missing prefixes from the configuration. */
  function Normalise(spec: MethodSpec, cfg: LogConfig): (m: MethodConfig)
    ensures spec.Bare? ==> m == MethodConfig(spec.tag, cfg.newLine, cfg.newLineEnd)
    ensures spec.Record? ==> m.tag == spec.tag
    ensures spec.Record? && spec.newLine.Some? ==> m.newLine == spec.newLine.value
    ensures spec.Record? && spec.newLine.None? ==> m.newLine == cfg.newLine
    ensures spec.Record? && spec.newLineEnd.Some? ==> m.newLineEnd == spec.newLineEnd.value
    ensures spec.Record? && spec.newLineEnd.None? ==> m.newLineEnd == cfg.newLineEnd
  {
    var inferred := Inferred(cfg);
    match spec
    case Bare(l) => inferred.(tag := l)
    case Record(l, nl, nle) =>
      inferred.(tag := l, newLine := nl.GetOr(inferred.newLine), newLineEnd := nle.GetOr(inferred.newLineEnd))
  }

  /** The full record written out as a spec. */
  function AsSpec(m: MethodConfig): MethodSpec
  {
    Record(m.tag, Some(m.newLine), Some(m.newLineEnd))
  }

  /** A bare label means the same as a record that gives only that label; a full
      record does not depend on the configuration; so normalising is idempotent. */
  lemma NormaliseProperties(tag: string, m: MethodConfig, spec: MethodSpec, cfg: LogConfig, cfg': LogConfig)
    ensures Normalise(Bare(tag), cfg) == Normalise(Record(tag, None, None), cfg)
    ensures Normalise(AsSpec(m), cfg) == m
    ensures Normalise(AsSpec(Normalise(spec, cfg)), cfg') == Normalise(spec, cfg)
  {
  }

  /** `completeMethods`: every method name, with its spec normalised against the
      complete configuration. */
  function CompleteMethods(specs: map<string, MethodSpec>, config: PartialConfig): (methods: map<string, MethodConfig>)
    ensures methods.Keys == specs.Keys
    ensures forall k :: k in specs ==> methods[k].tag == specs[k].tag
  {
    var cfg := CompleteConfig(config);
    map k | k in specs :: Normalise(specs[k], cfg)
  }

  // ---------------------------------------------------------------------------
  // Visible width
  // ---------------------------------------------------------------------------

  /** `stripAnsi`: removes terminal escape sequences. Its regular expression is not
      modelled; every operation takes it as a parameter. */
  type Stripper = string -> string

  /** JavaScript's `.length`: the number of UTF-16 code units of `s`. */
  function Utf16Length(s: string): (n: nat)
    ensures |s| <= n <= 2 * |s|
  {
    if |s| == 0 then 0 else CodeUnits(s[0]) + Utf16Length(s[1..])
  }

  /** A character from U+10000 on is a surrogate pair of two code units; any other is one. */
  function CodeUnits(c: char): nat
  {
    if c as int >= 0x1_0000 then 2 else 1
  }

  /** The code units of a concatenation are those of its halves. */
  lemma {:induction false} Utf16Append(a: string, b: string)
    ensures Utf16Length(a + b) == Utf16Length(a) + Utf16Length(b)
  {
    if |a| == 0 {
      assert a + b == b;
    } else {
      assert (a + b)[0] == a[0];
      assert (a + b)[1..] == a[1..] + b;
      Utf16Append(a[1..], b);
    }
  }

  /** `.length` counts characters exactly when every character lies in the Basic
      Multilingual Plane. */
  lemma {:induction false} Utf16Bmp(s: string)
    ensures Utf16Length(s) == |s| <==> forall i :: 0 <= i < |s| ==> CodeUnits(s[i]) == 1
  {
    if |s| > 0 {
      Utf16Bmp(s[1..]);
      assert forall i :: 1 <= i < |s| ==> s[i] == s[1..][i - 1];
    }
  }

  /** The visible length `stripAnsi(s).length`, in UTF-16 code units: at least one
      and at most two per visible character. */
  function Width(strip: Stripper, s: string): (w: nat)
    ensures |strip(s)| <= w <= 2 * |strip(s)|
  {
    Utf16Length(strip(s))
  }

  /** `"".padStart(n)`: `n` spaces, and none when `n <= 0`. */
  function Spaces(n: int): (r: string)
    ensures |r| == if n <= 0 then 0 else n
    ensures forall i :: 0 <= i < |r| ==> r[i] == ' '
  {
    if n <= 0 then "" else Spaces(n - 1) + " "
  }

  /** A pad is as long in code units as it has spaces. */
  lemma SpacesWidth(n: int)
    ensures Utf16Length(Spaces(n)) == Pad(n, 0)
  {
    Utf16Bmp(Spaces(n));
  }

  /** Two facts about `stripAnsi`: spaces on either side of a string pass through
      untouched, because no escape sequence contains a space. */
  ghost predicate KeepsSpaces(strip: Stripper)
  {
    && (forall n: int, s: string :: strip(Spaces(n) + s) == Spaces(n) + strip(s))
    && (forall n: int, s: string :: strip(s + Spaces(n)) == strip(s) + Spaces(n))
  }

  /** `k` names a method whose label is at least as wide as every other. */
  predicate IsWidest(methods: map<string, MethodConfig>, strip: Stripper, k: string)
  {
    k in methods && forall j :: j in methods ==> Width(strip, methods[j].tag) <= Width(strip, methods[k].tag)
  }

  /** Some method of a non-empty set has the widest label. */
  lemma {:induction false} WidestExists(methods: map<string, MethodConfig>, strip: Stripper)
    requires |methods| > 0
    ensures exists k :: IsWidest(methods, strip, k)
    decreases |methods|
  {
    var k :| k in methods;
    if !IsWidest(methods, strip, k) {
      var j :| j in methods && Width(strip, methods[j].tag) > Width(strip, methods[k].tag);
      var rest := methods - {k};
      assert j in rest;
      WidestExists(rest, strip);
      var w :| IsWidest(rest, strip, w);
      assert IsWidest(methods, strip, w) by {
        forall i | i in methods
          ensures Width(strip, methods[i].tag) <= Width(strip, methods[w].tag)
        {
          if i != k { assert i in rest; }
        }
      }
    }
  }

  /** `maxLength` of one `createLogger` call, the `Math.max` of the visible label
      lengths: every label fits in it and some label has exactly that length. */
  function MaxLength(specs: map<string, MethodSpec>, config: PartialConfig, strip: Stripper): (m: nat)
    requires |specs| > 0
    ensures forall k :: k in specs ==> Width(strip, specs[k].tag) <= m
    ensures exists k :: k in specs && Width(strip, specs[k].tag) == m
  {
    var methods := CompleteMethods(specs, config);
    WidestExists(methods, strip);
    var k :| IsWidest(methods, strip, k); Width(strip, methods[k].tag)
  }

  // ---------------------------------------------------------------------------
  // Padded prefixes
  // ---------------------------------------------------------------------------

  /** The three padded prefixes of one method and the shared divider. */
  datatype Entry = Entry(paddedText: string, newLinePadding: string, paddedPreEnd: string, divider: string)

  /** `pad + text` under PREPEND and `text + pad` under APPEND, where the pad is
      `"".padStart(n)`: the text verbatim, with `max(0, n)` spaces on the padding side. */
  function Place(dir: PadType, n: int, text: string): (p: string)
    ensures PaddedAs(p, text, Pad(n, 0), dir)
  {
    var pad := Spaces(n);
    if dir == Prepend then pad + text else text + pad
  }

  /** `p` is `text` verbatim with `n` spaces before it (PREPEND) or after it (APPEND). */
  ghost predicate PaddedAs(p: string, text: string, n: nat, dir: PadType)
  {
    && |p| == |text| + n
    && (dir == Prepend ==> p[n..] == text && forall i :: 0 <= i < n ==> p[i] == ' ')
    && (dir == Append ==> p[..|text|] == text && forall i :: |text| <= i < |p| ==> p[i] == ' ')
  }

  /** The padded prefixes of one method for the shared width `maxLength`. The label
      and the continuation prefix are each padded by what their own visible length
      lacks; the last-line prefix is padded by what the CONTINUATION prefix's visible
      length lacks (src/index.ts:106-108). */
  function Compile(m: MethodConfig, maxLength: int, cfg: LogConfig, strip: Stripper): (e: Entry)
    ensures e.divider == cfg.divider
    ensures PaddedAs(e.paddedText, m.tag, Pad(maxLength, Width(strip, m.tag)), cfg.padding)
    ensures PaddedAs(e.newLinePadding, m.newLine, Pad(maxLength, Width(strip, m.newLine)), cfg.padding)
    ensures PaddedAs(e.paddedPreEnd, m.newLineEnd, Pad(maxLength, Width(strip, m.newLine)), cfg.padding)
  {
    Entry(
      Place(cfg.padding, maxLength - Width(strip, m.tag), m.tag),
      Place(cfg.padding, maxLength - Width(strip, m.newLine), m.newLine),
      Place(cfg.padding, maxLength - Width(strip, m.newLine), m.newLineEnd),
      cfg.divider)
  }

  /** Number of pad spaces `"".padStart(maxLength - width)` yields. */
  function Pad(maxLength: int, width: int): nat
  {
    if maxLength - width <= 0 then 0 else maxLength - width
  }

  /** The precomputed entry of every method of one `createLogger` call. With no
      methods there is nothing to compile, and the maximum is never used. */
  function Entries(specs: map<string, MethodSpec>, config: PartialConfig, strip: Stripper): (entries: map<string, Entry>)
    ensures entries.Keys == specs.Keys
    ensures forall k :: k in entries ==> entries[k].divider == CompleteConfig(config).divider
  {
    var cfg := CompleteConfig(config);
    var methods := CompleteMethods(specs, config);
    if |specs| == 0 then map[]
    else
      var maxLength := MaxLength(specs, config, strip);
      map k | k in methods :: Compile(methods[k], maxLength, cfg, strip)
  }

  /** Padding adds exactly the pad spaces to the visible length and nothing else. */
  lemma PlaceWidth(strip: Stripper, dir: PadType, n: int, text: string)
    requires KeepsSpaces(strip)
    ensures Width(strip, Place(dir, n, text)) == Pad(n, 0) + Width(strip, text)
  {
    SpacesWidth(n);
    if dir == Prepend {
      assert strip(Spaces(n) + text) == Spaces(n) + strip(text);
      Utf16Append(Spaces(n), strip(text));
    } else {
      assert strip(text + Spaces(n)) == strip(text) + Spaces(n);
      Utf16Append(strip(text), Spaces(n));
    }
  }

  /** Visible lengths of the three prefixes: the label and the continuation prefix
      are widened to `maxLength` when shorter, and the last-line prefix gets the pad
      of the continuation prefix. */
  lemma CompileWidths(m: MethodConfig, maxLength: int, cfg: LogConfig, strip: Stripper)
    requires KeepsSpaces(strip)
    ensures var e := Compile(m, maxLength, cfg, strip);
      && Width(strip, e.paddedText) == (if Width(strip, m.tag) <= maxLength then maxLength else Width(strip, m.tag))
      && Width(strip, e.newLinePadding) == (if Width(strip, m.newLine) <= maxLength then maxLength else Width(strip, m.newLine))
      && Width(strip, e.paddedPreEnd) == Pad(maxLength, Width(strip, m.newLine)) + Width(strip, m.newLineEnd)
  {
    PlaceWidth(strip, cfg.padding, maxLength - Width(strip, m.tag), m.tag);
    PlaceWidth(strip, cfg.padding, maxLength - Width(strip, m.newLine), m.newLine);
    PlaceWidth(strip, cfg.padding, maxLength - Width(strip, m.newLine), m.newLineEnd);
  }

  /** All first lines of all methods of one logger put their divider at the same
      visible column, the shared width. */
  lemma LabelsAligned(specs: map<string, MethodSpec>, config: PartialConfig, strip: Stripper)
    requires |specs| > 0
    requires KeepsSpaces(strip)
    ensures forall k :: k in specs ==>
      Width(strip, Entries(specs, config, strip)[k].paddedText) == MaxLength(specs, config, strip)
  {
    var cfg, methods := CompleteConfig(config), CompleteMethods(specs, config);
    var maxLength := MaxLength(specs, config, strip);
    forall k | k in specs
      ensures Width(strip, Entries(specs, config, strip)[k].paddedText) == maxLength
    {
      assert Entries(specs, config, strip)[k] == Compile(methods[k], maxLength, cfg, strip);
      CompileWidths(methods[k], maxLength, cfg, strip);
    }
  }

  /** A continuation prefix that fits in the shared width is widened to it; a wider
      one is kept as it is. */
  lemma ContinuationWidth(specs: map<string, MethodSpec>, config: PartialConfig, strip: Stripper, k: string)
    requires |specs| > 0
    requires KeepsSpaces(strip)
    requires k in specs
    ensures var w, maxLength := Width(strip, CompleteMethods(specs, config)[k].newLine), MaxLength(specs, config, strip);
      Width(strip, Entries(specs, config, strip)[k].newLinePadding) == if w <= maxLength then maxLength else w
  {
    var cfg, methods := CompleteConfig(config), CompleteMethods(specs, config);
    var maxLength := MaxLength(specs, config, strip);
    assert Entries(specs, config, strip)[k] == Compile(methods[k], maxLength, cfg, strip);
    CompileWidths(methods[k], maxLength, cfg, strip);
  }

  /** The last-line prefix is padded by what the CONTINUATION prefix lacks. So when
      the continuation prefix fits in the shared width, the last line is aligned
      exactly when its prefix is as wide as the continuation prefix; when the
      continuation prefix is wider, there is no pad and the last-line prefix keeps
      its own width. */
  lemma LastLineWidth(specs: map<string, MethodSpec>, config: PartialConfig, strip: Stripper, k: string)
    requires |specs| > 0
    requires KeepsSpaces(strip)
    requires k in specs
    ensures var m, maxLength := CompleteMethods(specs, config)[k], MaxLength(specs, config, strip);
      && Width(strip, Entries(specs, config, strip)[k].paddedPreEnd)
         == Pad(maxLength, Width(strip, m.newLine)) + Width(strip, m.newLineEnd)
      && (Width(strip, m.newLine) <= maxLength ==>
            (Width(strip, Entries(specs, config, strip)[k].paddedPreEnd) == maxLength
             <==> Width(strip, m.newLineEnd) == Width(strip, m.newLine)))
      && (Width(strip, m.newLine) > maxLength ==>
            Width(strip, Entries(specs, config, strip)[k].paddedPreEnd) == Width(strip, m.newLineEnd))
  {
    var cfg, methods := CompleteConfig(config), CompleteMethods(specs, config);
    var maxLength := MaxLength(specs, config, strip);
    var m := methods[k];
    assert Entries(specs, config, strip)[k] == Compile(m, maxLength, cfg, strip);
    CompileWidths(m, maxLength, cfg, strip);
    var w, wl, we := Width(strip, Entries(specs, config, strip)[k].paddedPreEnd), Width(strip, m.newLine), Width(strip, m.newLineEnd);
    assert w == Pad(maxLength, wl) + we;
    if wl <= maxLength {
      assert Pad(maxLength, wl) == maxLength - wl;
    } else {
      assert Pad(maxLength, wl) == 0;
    }
  }

  // ---------------------------------------------------------------------------
  // Emitting
  // ---------------------------------------------------------------------------

  /** The prefix of line `i` of `n`: the label on the first line, the last-line prefix
      on the last of two or more, the continuation prefix on every other. */
  function LinePrefix(e: Entry, i: nat, n: nat): string
  {
    if i == 0 then e.paddedText + e.divider
    else if i == n - 1 then e.paddedPreEnd + e.divider
    else e.newLinePadding + e.divider
  }

  /** Every line with the prefix of its position. */
  function Prefixed(e: Entry, lines: seq<string>): seq<string>
  {
    seq(|lines|, i requires 0 <= i < |lines| => LinePrefix(e, i, |lines|) + lines[i])
  }

  /** The emit closure of one method: the string handed to the sink for a call with
      the rendered arguments `args`. */
  function Emit(e: Entry, args: seq<string>): (out: string)
    ensures e.paddedText + e.divider <= out
  {
    Join(Prefixed(e, Split(Join(args))))
  }

  /** `createLogger`: method name to emit closure. */
  function CreateLogger(specs: map<string, MethodSpec>, config: PartialConfig, strip: Stripper)
    : (logger: map<string, seq<string> -> string>)
    ensures logger.Keys == specs.Keys
    ensures forall k, args :: k in logger ==> logger[k](args) == Emit(Entries(specs, config, strip)[k], args)
  {
    var entries := Entries(specs, config, strip);
    map k | k in entries :: (args: seq<string>) => Emit(entries[k], args)
  }

  /** No prefix and no divider of `e` holds a line separator. */
  ghost predicate SingleLinePrefixes(e: Entry)
  {
    && NewLine !in e.paddedText
    && NewLine !in e.newLinePadding
    && NewLine !in e.paddedPreEnd
    && NewLine !in e.divider
  }

  /** The output of a call, split into lines: as many lines as the joined arguments
      have, the first behind the label, the last of two or more behind the last-line
      prefix, every other behind the continuation prefix. */
  lemma {:induction false} EmitLines(e: Entry, args: seq<string>)
    requires SingleLinePrefixes(e)
    ensures var input, out := Split(Join(args)), Split(Emit(e, args));
      && |out| == |input| == Count(Join(args)) + 1
      && out[0] == e.paddedText + e.divider + input[0]
      && (|input| > 1 ==> out[|input| - 1] == e.paddedPreEnd + e.divider + input[|input| - 1])
      && (forall i :: 0 < i < |input| - 1 ==> out[i] == e.newLinePadding + e.divider + input[i])
  {
    var input := Split(Join(args));
    var lines := Prefixed(e, input);
    forall i | 0 <= i < |lines| ensures NewLine !in lines[i] {
      assert lines[i] == LinePrefix(e, i, |input|) + input[i];
    }
    SplitJoin(lines);
    var out := Split(Emit(e, args));
    assert out == lines;
    assert out[0] == LinePrefix(e, 0, |input|) + input[0];
    forall i | 0 < i < |input| - 1 ensures out[i] == e.newLinePadding + e.divider + input[i] {
      assert out[i] == LinePrefix(e, i, |input|) + input[i];
    }
  }

  /** Strips the prefix `p` off `line` when `line` starts with it. */
  function RemovePrefix(p: string, line: string): string
  {
    if p <= line then line[|p|..] else line
  }

  /** Reads the text back out of an output: every line loses the prefix of its position. */
  function Unformat(e: Entry, out: string): string
  {
    var lines := Split(out);
    Join(seq(|lines|, i requires 0 <= i < |lines| => RemovePrefix(LinePrefix(e, i, |lines|), lines[i])))
  }

  /** Removing the prefixes gives back the arguments joined by line separators. */
  lemma EmitRoundTrip(e: Entry, args: seq<string>)
    requires SingleLinePrefixes(e)
    ensures Unformat(e, Emit(e, args)) == Join(args)
  {
    var input := Split(Join(args));
    var lines := Prefixed(e, input);
    forall i | 0 <= i < |lines| ensures NewLine !in lines[i] {
      assert lines[i] == LinePrefix(e, i, |input|) + input[i];
    }
    SplitJoin(lines);
    var back := seq(|lines|, i requires 0 <= i < |lines| => RemovePrefix(LinePrefix(e, i, |lines|), lines[i]));
    forall i | 0 <= i < |lines| ensures back[i] == input[i] {
      var p := LinePrefix(e, i, |input|);
      assert lines[i] == p + input[i];
      assert p <= lines[i];
      assert lines[i][|p|..] == input[i];
    }
    assert back == input;
    JoinSplit(Join(args));
  }

  /** A call whose text has no line separator is one line behind the label; a call
      with no arguments is the label and divider alone. */
  lemma SingleLine(e: Entry, args: seq<string>)
    ensures NewLine !in Join(args) ==> Emit(e, args) == e.paddedText + e.divider + Join(args)
    ensures Emit(e, []) == e.paddedText + e.divider
  {
    if NewLine !in Join(args) {
      SplitNoNewLine(Join(args));
      assert Prefixed(e, [Join(args)]) == [e.paddedText + e.divider + Join(args)];
    }
    SplitNoNewLine("");
    assert Prefixed(e, [""]) == [e.paddedText + e.divider + ""];
  }

  /** An argument holding a line separator is formatted as the two arguments either
      side of it. */
  lemma EmbeddedNewLine(e: Entry, before: seq<string>, a: string, b: string, after: seq<string>)
    ensures Emit(e, before + [a + [NewLine] + b] + after) == Emit(e, before + [a, b] + after)
  {
    JoinFlatten(before, a, b, after);
  }

  /** When no label, line prefix or divider holds a line separator, no padded prefix does. */
  lemma EntriesSingleLine(specs: map<string, MethodSpec>, config: PartialConfig, strip: Stripper)
    requires |specs| > 0
    requires NewLine !in CompleteConfig(config).divider
    requires forall k :: k in specs ==>
      var m := CompleteMethods(specs, config)[k];
      NewLine !in m.tag && NewLine !in m.newLine && NewLine !in m.newLineEnd
    ensures forall k :: k in specs ==> SingleLinePrefixes(Entries(specs, config, strip)[k])
  {
    var cfg, methods := CompleteConfig(config), CompleteMethods(specs, config);
    var maxLength := MaxLength(specs, config, strip);
    forall k | k in specs ensures SingleLinePrefixes(Entries(specs, config, strip)[k]) {
      var m := methods[k];
      assert Entries(specs, config, strip)[k] == Compile(m, maxLength, cfg, strip);
      SpacesSingleLine(maxLength - Width(strip, m.tag));
      SpacesSingleLine(maxLength - Width(strip, m.newLine));
    }
  }

  lemma SpacesSingleLine(n: int)
    ensures NewLine !in Spaces(n)
  {
  }

  /** For every method of a logger whose texts are single lines, the prefixes of its
      output can be removed again to give back the joined arguments. */
  lemma LoggerRoundTrip(specs: map<string, MethodSpec>, config: PartialConfig, strip: Stripper, k: string, args: seq<string>)
    requires k in specs
    requires NewLine !in CompleteConfig(config).divider
    requires forall j :: j in specs ==>
      var m := CompleteMethods(specs, config)[j];
      NewLine !in m.tag && NewLine !in m.newLine && NewLine !in m.newLineEnd
    ensures Unformat(Entries(specs, config, strip)[k], CreateLogger(specs, config, strip)[k](args)) == Join(args)
  {
    EntriesSingleLine(specs, config, strip);
    EmitRoundTrip(Entries(specs, config, strip)[k], args);
  }
}
