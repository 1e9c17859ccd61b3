/**
 * The command-line parser: a left-to-right scan of the tokens after the
 * program name, each either a switch, a flag that takes the next token as its
 * value, or an unknown token that ends the program with a usage message.
 *
 * `std::stoi` and `std::stof` are abstract partial conversions (`Converters`);
 * a float is kept as its 32-bit pattern and never interpreted.
 */
module CommandLine {
  import opened Wrappers

  type Int32 = x: int | -0x8000_0000 <= x < 0x8000_0000

  /** A single-precision float, as its bit pattern. */
  datatype Float32 = Float32(bits: bv32)

  /** The text-to-number conversions the parser relies on; `None` is a conversion that throws. */
  datatype Converters = Converters(stoi: string -> Option<Int32>, stof: string -> Option<Float32>)

  /** The parsed configuration. */
  datatype Args = Args(
    help: bool,
    logFile: string,
    resultsFile: string,
    roms: string,
    gpuId: int,
    envName: string,
    testSteps: int,
    frameSkip: int,
    frameStack: int,
    maxEpisodeLength: int,
    displayTest: bool,
    seed: int,
    stepsRatio: int,
    stepsVar: int,
    minOfflineTime: int,
    maxOfflineTime: int,
    numClients: int,
    numSteps: int,
    a3cSteps: int,
    debug: int,
    lr: Float32,
    gamma: Float32,
    tau: Float32,
    optimizer: string)

  /** The declared initial value of every field. */
  function Defaults(): Args {
    Args(
      help := false,
      logFile := "log.txt",
      resultsFile := "results.txt",
      roms := "../roms/",
      gpuId := -1,
      envName := "pong",
      testSteps := 100,
      frameSkip := 4,
      frameStack := 1,
      maxEpisodeLength := 10000,
      displayTest := false,
      seed := 0,
      stepsRatio := 100,
      stepsVar := 100,
      minOfflineTime := 1,
      maxOfflineTime := 10,
      numClients := 4,
      numSteps := 10000,
      a3cSteps := 20,
      debug := 0,
      lr := Float32(0x38D1_B717),     // 0.0001 rounded to single precision
      gamma := Float32(0x3F7D_70A4),  // 0.99 rounded to single precision
      tau := Float32(0x3F80_0000),    // 1.0
      optimizer := "adam")
  }

  datatype Switch = HelpSwitch | DisplayTestSwitch | DebugSwitch
  datatype TextField = LogFile | ResultsFile | EnvName | Roms | Optimizer
  datatype IntField =
    | GpuId | TestSteps | FrameSkip | MaxEpisodeLength | Seed | StepsRatio | StepsVar
    | MinOfflineTime | MaxOfflineTime | NumClients | FrameStack | NumSteps | A3cSteps
  datatype FloatField = Lr | Gamma | Tau

  /** What a token means when the scan reads it as a flag. */
  datatype Flag =
    | SwitchFlag(s: Switch)
    | TextFlag(tf: TextField)
    | IntFlag(f: IntField)
    | FloatFlag(ff: FloatField)
    | ModelFlag
    | Unknown
  {
    predicate TakesValue() {
      TextFlag? || IntFlag? || FloatFlag?
    }
  }

  /** The flag table: every spelling the parser recognises. */
  const FLAGS: map<string, Flag> := map[
    "-h" := SwitchFlag(HelpSwitch), "--help" := SwitchFlag(HelpSwitch),
    "-l" := TextFlag(LogFile), "--log" := TextFlag(LogFile),
    "-r" := TextFlag(ResultsFile), "--results" := TextFlag(ResultsFile),
    "-g" := IntFlag(GpuId), "--gpu" := IntFlag(GpuId),
    "-e" := TextFlag(EnvName), "--env" := TextFlag(EnvName),
    "--roms" := TextFlag(Roms),
    "-t" := IntFlag(TestSteps), "--test" := IntFlag(TestSteps),
    "-f" := IntFlag(FrameSkip), "--frame-skip" := IntFlag(FrameSkip),
    "-m" := IntFlag(MaxEpisodeLength), "--max-episode-length" := IntFlag(MaxEpisodeLength),
    "-d" := SwitchFlag(DisplayTestSwitch), "--display-test" := SwitchFlag(DisplayTestSwitch),
    "-s" := IntFlag(Seed), "--seed" := IntFlag(Seed),
    "-o" := IntFlag(StepsRatio), "--steps-ratio" := IntFlag(StepsRatio),
    "-v" := IntFlag(StepsVar), "--steps-var" := IntFlag(StepsVar),
    "--min-offline-time" := IntFlag(MinOfflineTime),
    "--max-offline-time" := IntFlag(MaxOfflineTime),
    "-c" := IntFlag(NumClients), "--num-clients" := IntFlag(NumClients),
    "--lr" := FloatFlag(Lr),
    "--gamma" := FloatFlag(Gamma),
    "--tau" := FloatFlag(Tau),
    "--frame-stack" := IntFlag(FrameStack),
    "--num-steps" := IntFlag(NumSteps),
    "--a3c-steps" := IntFlag(A3cSteps),
    "--debug" := SwitchFlag(DebugSwitch),
    "--optimizer" := TextFlag(Optimizer),
    "--model" := ModelFlag]

  function Classify(arg: string): Flag {
    if arg in FLAGS then FLAGS[arg] else Unknown
  }

  function SetSwitch(a: Args, s: Switch): Args {
    match s
    case HelpSwitch => a.(help := true)
    case DisplayTestSwitch => a.(displayTest := true)
    case DebugSwitch => a.(debug := 1)
  }

  function GetText(a: Args, f: TextField): string {
    match f
    case LogFile => a.logFile
    case ResultsFile => a.resultsFile
    case EnvName => a.envName
    case Roms => a.roms
    case Optimizer => a.optimizer
  }

  function SetText(a: Args, f: TextField, v: string): (r: Args)
    ensures GetText(r, f) == v
    ensures forall g :: g != f ==> GetText(r, g) == GetText(a, g)
  {
    match f
    case LogFile => a.(logFile := v)
    case ResultsFile => a.(resultsFile := v)
    case EnvName => a.(envName := v)
    case Roms => a.(roms := v)
    case Optimizer => a.(optimizer := v)
  }

  function GetInt(a: Args, f: IntField): int {
    match f
    case GpuId => a.gpuId
    case TestSteps => a.testSteps
    case FrameSkip => a.frameSkip
    case MaxEpisodeLength => a.maxEpisodeLength
    case Seed => a.seed
    case StepsRatio => a.stepsRatio
    case StepsVar => a.stepsVar
    case MinOfflineTime => a.minOfflineTime
    case MaxOfflineTime => a.maxOfflineTime
    case NumClients => a.numClients
    case FrameStack => a.frameStack
    case NumSteps => a.numSteps
    case A3cSteps => a.a3cSteps
  }

  function SetInt(a: Args, f: IntField, v: int): (r: Args)
    ensures GetInt(r, f) == v
    ensures forall g :: g != f ==> GetInt(r, g) == GetInt(a, g)
  {
    match f
    case GpuId => a.(gpuId := v)
    case TestSteps => a.(testSteps := v)
    case FrameSkip => a.(frameSkip := v)
    case MaxEpisodeLength => a.(maxEpisodeLength := v)
    case Seed => a.(seed := v)
    case StepsRatio => a.(stepsRatio := v)
    case StepsVar => a.(stepsVar := v)
    case MinOfflineTime => a.(minOfflineTime := v)
    case MaxOfflineTime => a.(maxOfflineTime := v)
    case NumClients => a.(numClients := v)
    case FrameStack => a.(frameStack := v)
    case NumSteps => a.(numSteps := v)
    case A3cSteps => a.(a3cSteps := v)
  }

  function GetFloat(a: Args, f: FloatField): Float32 {
    match f
    case Lr => a.lr
    case Gamma => a.gamma
    case Tau => a.tau
  }

  function SetFloat(a: Args, f: FloatField, v: Float32): (r: Args)
    ensures GetFloat(r, f) == v
    ensures forall g :: g != f ==> GetFloat(r, g) == GetFloat(a, g)
  {
    match f
    case Lr => a.(lr := v)
    case Gamma => a.(gamma := v)
    case Tau => a.(tau := v)
  }

  datatype ParseError =
    | UnknownArgument(arg: string)
    | InvalidInteger(flag: string, text: string)
    | InvalidFloat(flag: string, text: string)
    | MissingValue(flag: string)

  /** The tokens after the program name. */
  function Options(argv: seq<string>): seq<string> {
    if |argv| == 0 then [] else argv[1..]
  }

  // ---------------------------------------------------------------------------
  // The parser as the source writes it: one scan over argv with an index.
  // ---------------------------------------------------------------------------

  /**
   * No value flag the scan reaches is the last token.  For such a flag the
   * parser reads `argv[argc]`, a null pointer, and builds a string from it or
   * converts it: undefined behaviour the parser does not guard against.
   */
  predicate ValuesPresent(conv: Converters, toks: seq<string>) {
    var r := Lex(conv, toks);
    !(r.Failure? && r.error.MissingValue?)
  }

  /** The parser's loop from index `i` on, with `a` the fields set so far. */
  function Scan(conv: Converters, argv: seq<string>, i: nat, a: Args): Result<Args, ParseError>
    requires i <= |argv| && ValuesPresent(conv, argv[i..])
    decreases |argv| - i
  {
    if i == |argv| then
      Success(a)
    else
      var arg := argv[i];
      assert argv[i..][1..] == argv[i + 1..];
      match Classify(arg)
      case Unknown => Failure(UnknownArgument(arg))
      case ModelFlag => Scan(conv, argv, i + 1, a)
      case SwitchFlag(s) => Scan(conv, argv, i + 1, SetSwitch(a, s))
      case TextFlag(f) =>
        assert argv[i..][2..] == argv[i + 2..];
        Scan(conv, argv, i + 2, SetText(a, f, argv[i + 1]))
      case IntFlag(f) =>
        assert argv[i..][2..] == argv[i + 2..];
        (match conv.stoi(argv[i + 1])
         case None => Failure(InvalidInteger(arg, argv[i + 1]))
         case Some(n) => Scan(conv, argv, i + 2, SetInt(a, f, n)))
      case FloatFlag(f) =>
        assert argv[i..][2..] == argv[i + 2..];
        (match conv.stof(argv[i + 1])
         case None => Failure(InvalidFloat(arg, argv[i + 1]))
         case Some(x) => Scan(conv, argv, i + 2, SetFloat(a, f, x)))
  }

  /**
   * Parse a full argv (program name first).  It agrees with the reference
   * reading below: tokenise the options, then apply them to the defaults.
   */
  function Parse(conv: Converters, argv: seq<string>): (r: Result<Args, ParseError>)
    requires ValuesPresent(conv, Options(argv))
    ensures r == Interpret(conv, Options(argv), Defaults())
    ensures r.Failure? ==> !r.error.MissingValue?
  {
    if |argv| == 0 then
      Success(Defaults())
    else
      ScanAgreesWithInterpret(conv, argv, 1, Defaults());
      Scan(conv, argv, 1, Defaults())
  }

  // ---------------------------------------------------------------------------
  // Reference reading: tokenise into settings, then fold them over the fields.
  // ---------------------------------------------------------------------------

  /** One recognised option with its converted value. */
  datatype Setting =
    | SwitchSetting(s: Switch)
    | TextSetting(tf: TextField, text: string)
    | IntSetting(f: IntField, n: Int32)
    | FloatSetting(ff: FloatField, x: Float32)
    | ModelSetting

  /** Tokenise the options, stopping at the first token that cannot be read. */
  function Lex(conv: Converters, toks: seq<string>): Result<seq<Setting>, ParseError>
    decreases |toks|
  {
    if toks == [] then
      Success([])
    else
      var arg := toks[0];
      var flag := Classify(arg);
      if flag.Unknown? then
        Failure(UnknownArgument(arg))
      else if !flag.TakesValue() then
        var rest :- Lex(conv, toks[1..]);
        Success([if flag.ModelFlag? then ModelSetting else SwitchSetting(flag.s)] + rest)
      else if |toks| == 1 then
        Failure(MissingValue(arg))
      else
        var setting :- Convert(conv, arg, flag, toks[1]);
        var rest :- Lex(conv, toks[2..]);
        Success([setting] + rest)
  }

  /** The value token of a value flag, converted to the field's type. */
  function Convert(conv: Converters, arg: string, flag: Flag, text: string): Result<Setting, ParseError>
    requires flag.TakesValue()
  {
    match flag
    case TextFlag(f) => Success(TextSetting(f, text))
    case IntFlag(f) =>
      (match conv.stoi(text)
       case None => Failure(InvalidInteger(arg, text))
       case Some(n) => Success(IntSetting(f, n)))
    case FloatFlag(f) =>
      (match conv.stof(text)
       case None => Failure(InvalidFloat(arg, text))
       case Some(x) => Success(FloatSetting(f, x)))
  }

  /** The effect of one setting on the fields. */
  function Apply(a: Args, st: Setting): Args {
    match st
    case SwitchSetting(s) => SetSwitch(a, s)
    case TextSetting(f, v) => SetText(a, f, v)
    case IntSetting(f, n) => SetInt(a, f, n)
    case FloatSetting(f, x) => SetFloat(a, f, x)
    case ModelSetting => a
  }

  function ApplyAll(a: Args, sts: seq<Setting>): Args
    decreases |sts|
  {
    if sts == [] then a else ApplyAll(Apply(a, sts[0]), sts[1..])
  }

  /** Tokenise, then apply every setting to `a` in order. */
  function Interpret(conv: Converters, toks: seq<string>, a: Args): Result<Args, ParseError> {
    match Lex(conv, toks)
    case Success(sts) => Success(ApplyAll(a, sts))
    case Failure(e) => Failure(e)
  }

  /** The last value given to an integer field among `sts`, if any. */
  function LastInt(sts: seq<Setting>, f: IntField): Option<int>
    decreases |sts|
  {
    if sts == [] then None
    else
      var later := LastInt(sts[1..], f);
      if later.Some? then later
      else if sts[0].IntSetting? && sts[0].f == f then Some(sts[0].n)
      else None
  }

  /** The last value given to a text field among `sts`, if any. */
  function LastText(sts: seq<Setting>, f: TextField): Option<string>
    decreases |sts|
  {
    if sts == [] then None
    else
      var later := LastText(sts[1..], f);
      if later.Some? then later
      else if sts[0].TextSetting? && sts[0].tf == f then Some(sts[0].text)
      else None
  }

  /** The last value given to a float field among `sts`, if any. */
  function LastFloat(sts: seq<Setting>, f: FloatField): Option<Float32>
    decreases |sts|
  {
    if sts == [] then None
    else
      var later := LastFloat(sts[1..], f);
      if later.Some? then later
      else if sts[0].FloatSetting? && sts[0].ff == f then Some(sts[0].x)
      else None
  }

  // ---------------------------------------------------------------------------
  // Properties.
  // ---------------------------------------------------------------------------

  /** The scan and the reference reading agree on every input the scan accepts. */
  lemma {:induction false} ScanAgreesWithInterpret(conv: Converters, argv: seq<string>, i: nat, a: Args)
    requires i <= |argv| && ValuesPresent(conv, argv[i..])
    ensures Scan(conv, argv, i, a) == Interpret(conv, argv[i..], a)
    decreases |argv| - i
  {
    if i < |argv| {
      var toks := argv[i..];
      assert toks[0] == argv[i];
      assert toks[1..] == argv[i + 1..];
      var flag := Classify(argv[i]);
      if flag.TakesValue() {
        assert toks[2..] == argv[i + 2..];
        if Convert(conv, argv[i], flag, argv[i + 1]).Success? {
          ScanAgreesWithInterpret(conv, argv, i + 2, Apply(a, Convert(conv, argv[i], flag, argv[i + 1]).value));
        }
      } else if !flag.Unknown? {
        ScanAgreesWithInterpret(conv, argv, i + 1, if flag.ModelFlag? then a else SetSwitch(a, flag.s));
      }
    }
  }

  /** Tokenising a concatenation whose first part reads cleanly. */
  lemma {:induction false} LexAppend(conv: Converters, pre: seq<string>, suf: seq<string>)
    requires Lex(conv, pre).Success?
    ensures Lex(conv, pre + suf) ==
      match Lex(conv, suf)
      case Success(more) => Success(Lex(conv, pre).value + more)
      case Failure(e) => Failure(e)
    decreases |pre|
  {
    if pre == [] {
      assert pre + suf == suf;
      assert Lex(conv, pre).value == [];
      if Lex(conv, suf).Success? {
        assert [] + Lex(conv, suf).value == Lex(conv, suf).value;
      }
    } else {
      var whole := pre + suf;
      var flag := Classify(pre[0]);
      assert whole[0] == pre[0];
      if flag.TakesValue() {
        assert whole[1] == pre[1];
        assert whole[2..] == pre[2..] + suf;
        var head := Convert(conv, pre[0], flag, pre[1]).value;
        LexAppend(conv, pre[2..], suf);
        assert Lex(conv, pre).value == [head] + Lex(conv, pre[2..]).value;
        if Lex(conv, suf).Success? {
          var more := Lex(conv, suf).value;
          assert [head] + (Lex(conv, pre[2..]).value + more) == ([head] + Lex(conv, pre[2..]).value) + more;
        }
      } else {
        assert whole[1..] == pre[1..] + suf;
        var head := if flag.ModelFlag? then ModelSetting else SwitchSetting(flag.s);
        LexAppend(conv, pre[1..], suf);
        assert Lex(conv, pre).value == [head] + Lex(conv, pre[1..]).value;
        if Lex(conv, suf).Success? {
          var more := Lex(conv, suf).value;
          assert [head] + (Lex(conv, pre[1..]).value + more) == ([head] + Lex(conv, pre[1..]).value) + more;
        }
      }
    }
  }

  /** Applying a concatenation of settings applies the first part, then the second. */
  lemma {:induction false} ApplyAllAppend(a: Args, xs: seq<Setting>, ys: seq<Setting>)
    ensures ApplyAll(a, xs + ys) == ApplyAll(ApplyAll(a, xs), ys)
    decreases |xs|
  {
    if xs == [] {
      assert xs + ys == ys;
    } else {
      assert (xs + ys)[0] == xs[0];
      assert (xs + ys)[1..] == xs[1..] + ys;
      ApplyAllAppend(Apply(a, xs[0]), xs[1..], ys);
    }
  }

  /** One setting changes its own integer field and no other. */
  lemma ApplyInt(a: Args, st: Setting, f: IntField)
    ensures GetInt(Apply(a, st), f) == (if st.IntSetting? && st.f == f then st.n else GetInt(a, f))
  {
    match st
    case IntSetting(g, n) =>
    case _ =>
  }

  /** One setting changes its own text field and no other. */
  lemma ApplyText(a: Args, st: Setting, f: TextField)
    ensures GetText(Apply(a, st), f) == (if st.TextSetting? && st.tf == f then st.text else GetText(a, f))
  {
    match st
    case TextSetting(g, v) =>
    case _ =>
  }

  /** One setting changes its own float field and no other. */
  lemma ApplyFloat(a: Args, st: Setting, f: FloatField)
    ensures GetFloat(Apply(a, st), f) == (if st.FloatSetting? && st.ff == f then st.x else GetFloat(a, f))
  {
    match st
    case FloatSetting(g, x) =>
    case _ =>
  }

  /** An integer field ends up holding its last value among the settings, or its previous value. */
  lemma {:induction false} ApplyAllLastInt(a: Args, sts: seq<Setting>, f: IntField)
    ensures GetInt(ApplyAll(a, sts), f) == (if LastInt(sts, f).Some? then LastInt(sts, f).value else GetInt(a, f))
    decreases |sts|
  {
    if sts != [] {
      ApplyInt(a, sts[0], f);
      ApplyAllLastInt(Apply(a, sts[0]), sts[1..], f);
    }
  }

  /** A text field ends up holding its last value among the settings, or its previous value. */
  lemma {:induction false} ApplyAllLastText(a: Args, sts: seq<Setting>, f: TextField)
    ensures GetText(ApplyAll(a, sts), f) == (if LastText(sts, f).Some? then LastText(sts, f).value else GetText(a, f))
    decreases |sts|
  {
    if sts != [] {
      ApplyText(a, sts[0], f);
      ApplyAllLastText(Apply(a, sts[0]), sts[1..], f);
    }
  }

  /** A float field ends up holding its last value among the settings, or its previous value. */
  lemma {:induction false} ApplyAllLastFloat(a: Args, sts: seq<Setting>, f: FloatField)
    ensures GetFloat(ApplyAll(a, sts), f) == (if LastFloat(sts, f).Some? then LastFloat(sts, f).value else GetFloat(a, f))
    decreases |sts|
  {
    if sts != [] {
      ApplyFloat(a, sts[0], f);
      ApplyAllLastFloat(Apply(a, sts[0]), sts[1..], f);
    }
  }

  /** Help is requested after the settings exactly when it already was or a help switch occurs among them. */
  lemma {:induction false} ApplyAllHelp(a: Args, sts: seq<Setting>)
    ensures ApplyAll(a, sts).help <==> a.help || SwitchSetting(HelpSwitch) in sts
    decreases |sts|
  {
    if sts != [] {
      ApplyAllHelp(Apply(a, sts[0]), sts[1..]);
      assert sts == [sts[0]] + sts[1..];
    }
  }

  /** Test display is on after the settings exactly when it already was or its switch occurs among them. */
  lemma {:induction false} ApplyAllDisplayTest(a: Args, sts: seq<Setting>)
    ensures ApplyAll(a, sts).displayTest <==> a.displayTest || SwitchSetting(DisplayTestSwitch) in sts
    decreases |sts|
  {
    if sts != [] {
      ApplyAllDisplayTest(Apply(a, sts[0]), sts[1..]);
      assert sts == [sts[0]] + sts[1..];
    }
  }

  /** Debug is 1 after the settings when its switch occurs among them, and unchanged otherwise. */
  lemma {:induction false} ApplyAllDebug(a: Args, sts: seq<Setting>)
    ensures ApplyAll(a, sts).debug == (if SwitchSetting(DebugSwitch) in sts then 1 else a.debug)
    decreases |sts|
  {
    if sts != [] {
      ApplyAllDebug(Apply(a, sts[0]), sts[1..]);
      assert sts == [sts[0]] + sts[1..];
    }
  }

  /** With nothing after the program name, every field holds its declared default. */
  lemma DefaultsWithoutOptions(conv: Converters, argv: seq<string>)
    requires |argv| <= 1
    ensures ValuesPresent(conv, Options(argv))
    ensures Parse(conv, argv).Success?
    ensures var a := Parse(conv, argv).value;
      && !a.help && a.logFile == "log.txt" && a.resultsFile == "results.txt" && a.roms == "../roms/"
      && a.gpuId == -1 && a.envName == "pong" && a.testSteps == 100 && a.frameSkip == 4
      && a.frameStack == 1 && a.maxEpisodeLength == 10000 && !a.displayTest && a.seed == 0
      && a.stepsRatio == 100 && a.stepsVar == 100 && a.minOfflineTime == 1 && a.maxOfflineTime == 10
      && a.numClients == 4 && a.numSteps == 10000 && a.a3cSteps == 20 && a.debug == 0
      && a.lr == Float32(0x38D1_B717) && a.gamma == Float32(0x3F7D_70A4) && a.tau == Float32(0x3F80_0000)
      && a.optimizer == "adam"
  {
    assert Options(argv) == [];
  }

  /** A switch sets its field, consumes no value, and the scan goes on with the next token. */
  lemma SwitchesConsumeNoValue(conv: Converters, argv: seq<string>, i: nat, a: Args)
    requires i < |argv| && ValuesPresent(conv, argv[i..])
    requires Classify(argv[i]).SwitchFlag?
    ensures ValuesPresent(conv, argv[i + 1..])
    ensures argv[i] == "-h" || argv[i] == "--help" ==> Scan(conv, argv, i, a) == Scan(conv, argv, i + 1, a.(help := true))
    ensures argv[i] == "-d" || argv[i] == "--display-test" ==> Scan(conv, argv, i, a) == Scan(conv, argv, i + 1, a.(displayTest := true))
    ensures argv[i] == "--debug" ==> Scan(conv, argv, i, a) == Scan(conv, argv, i + 1, a.(debug := 1))
  {
    assert argv[i..][1..] == argv[i + 1..];
    var s := Classify(argv[i]).s;
    assert Scan(conv, argv, i, a) == Scan(conv, argv, i + 1, SetSwitch(a, s));
    if argv[i] == "-h" || argv[i] == "--help" {
      assert s == HelpSwitch;
    } else if argv[i] == "-d" || argv[i] == "--display-test" {
      assert s == DisplayTestSwitch;
    } else if argv[i] == "--debug" {
      assert s == DebugSwitch;
    }
  }

  /** A value flag stores exactly the next token in its field, and the scan resumes two tokens on. */
  lemma ValueFlagsConsumeNextToken(conv: Converters, argv: seq<string>, i: nat, a: Args)
    requires i + 1 < |argv| && ValuesPresent(conv, argv[i..])
    requires Classify(argv[i]).TakesValue()
    ensures Classify(argv[i]).TextFlag? ==>
      ValuesPresent(conv, argv[i + 2..]) &&
      Scan(conv, argv, i, a) == Scan(conv, argv, i + 2, SetText(a, Classify(argv[i]).tf, argv[i + 1]))
    ensures Classify(argv[i]).IntFlag? && conv.stoi(argv[i + 1]).Some? ==>
      ValuesPresent(conv, argv[i + 2..]) &&
      Scan(conv, argv, i, a) == Scan(conv, argv, i + 2, SetInt(a, Classify(argv[i]).f, conv.stoi(argv[i + 1]).value))
    ensures Classify(argv[i]).FloatFlag? && conv.stof(argv[i + 1]).Some? ==>
      ValuesPresent(conv, argv[i + 2..]) &&
      Scan(conv, argv, i, a) == Scan(conv, argv, i + 2, SetFloat(a, Classify(argv[i]).ff, conv.stof(argv[i + 1]).value))
  {
    assert argv[i..][1..] == argv[i + 1..];
    assert argv[i..][2..] == argv[i + 2..];
  }

  /** Examples: `-c 8` sets the number of clients and `--min-offline-time 3` the minimum offline time. */
  lemma ValueFlagExamples(conv: Converters)
    requires conv.stoi("8") == Some(8) && conv.stoi("3") == Some(3)
    ensures ValuesPresent(conv, ["-c", "8", "--min-offline-time", "3"])
    ensures Parse(conv, ["afdrl", "-c", "8", "--min-offline-time", "3"])
      == Success(Defaults().(numClients := 8, minOfflineTime := 3))
  {
    assert Options(["afdrl", "-c", "8", "--min-offline-time", "3"]) == ["-c", "8", "--min-offline-time", "3"];
    assert ["-c", "8", "--min-offline-time", "3"][2..] == ["--min-offline-time", "3"];
  }

  /**
   * Of a successful parse: every value field holds the value of its flag's
   * last occurrence among the options, or its default when the flag never occurs.
   */
  lemma ParseLastOccurrenceWins(conv: Converters, argv: seq<string>)
    requires ValuesPresent(conv, Options(argv)) && Parse(conv, argv).Success?
    ensures Lex(conv, Options(argv)).Success?
    ensures var a, sts := Parse(conv, argv).value, Lex(conv, Options(argv)).value;
      && (forall f :: GetInt(a, f) == (if LastInt(sts, f).Some? then LastInt(sts, f).value else GetInt(Defaults(), f)))
      && (forall f :: GetText(a, f) == (if LastText(sts, f).Some? then LastText(sts, f).value else GetText(Defaults(), f)))
      && (forall f :: GetFloat(a, f) == (if LastFloat(sts, f).Some? then LastFloat(sts, f).value else GetFloat(Defaults(), f)))
  {
    var sts := Lex(conv, Options(argv)).value;
    forall f: IntField ensures GetInt(ApplyAll(Defaults(), sts), f) == (if LastInt(sts, f).Some? then LastInt(sts, f).value else GetInt(Defaults(), f)) {
      ApplyAllLastInt(Defaults(), sts, f);
    }
    forall f: TextField ensures GetText(ApplyAll(Defaults(), sts), f) == (if LastText(sts, f).Some? then LastText(sts, f).value else GetText(Defaults(), f)) {
      ApplyAllLastText(Defaults(), sts, f);
    }
    forall f: FloatField ensures GetFloat(ApplyAll(Defaults(), sts), f) == (if LastFloat(sts, f).Some? then LastFloat(sts, f).value else GetFloat(Defaults(), f)) {
      ApplyAllLastFloat(Defaults(), sts, f);
    }
  }

  /** An unknown token makes the parse fail, whatever well-formed options precede it. */
  lemma UnknownArgumentFails(conv: Converters, argv: seq<string>, pre: seq<string>, u: string, rest: seq<string>)
    requires |argv| >= 1 && argv[1..] == pre + [u] + rest
    requires Lex(conv, pre).Success?
    requires Classify(u).Unknown?
    ensures ValuesPresent(conv, Options(argv))
    ensures Parse(conv, argv) == Failure(UnknownArgument(u))
  {
    LexAppend(conv, pre, [u] + rest);
    assert pre + [u] + rest == pre + ([u] + rest);
  }

  /** A value flag whose value the integer conversion rejects makes the parse fail. */
  lemma InvalidIntegerFails(conv: Converters, argv: seq<string>, pre: seq<string>, flag: string, text: string, rest: seq<string>)
    requires |argv| >= 1 && argv[1..] == pre + [flag, text] + rest
    requires Lex(conv, pre).Success?
    requires Classify(flag).IntFlag? && conv.stoi(text).None?
    ensures ValuesPresent(conv, Options(argv))
    ensures Parse(conv, argv) == Failure(InvalidInteger(flag, text))
  {
    LexAppend(conv, pre, [flag, text] + rest);
    assert pre + [flag, text] + rest == pre + ([flag, text] + rest);
    assert ([flag, text] + rest)[2..] == rest;
  }

  /** Example: `-s abc` fails when the conversion rejects `abc`. */
  lemma NonNumericSeedFails(conv: Converters)
    requires conv.stoi("abc").None?
    ensures ValuesPresent(conv, ["-s", "abc"])
    ensures Parse(conv, ["afdrl", "-s", "abc"]) == Failure(InvalidInteger("-s", "abc"))
  {
    assert Options(["afdrl", "-s", "abc"]) == ["-s", "abc"];
  }

  /** `--model` reads as a setting of its own and leaves the next token to be read as a flag. */
  lemma LexModelFlag(conv: Converters, post: seq<string>)
    ensures Lex(conv, ["--model"] + post) ==
      match Lex(conv, post)
      case Success(more) => Success([ModelSetting] + more)
      case Failure(e) => Failure(e)
  {
    assert Classify("--model") == ModelFlag;
    assert (["--model"] + post)[1..] == post;
  }

  /**
   * `--model` takes no value: after well-formed options, inserting it changes
   * nothing, so the token after it is read as a flag of its own.
   */
  lemma ModelFlagIsIgnored(conv: Converters, withModel: seq<string>, without: seq<string>, pre: seq<string>, post: seq<string>)
    requires |withModel| >= 1 && withModel[1..] == pre + ["--model"] + post
    requires |without| >= 1 && without[1..] == pre + post
    requires Lex(conv, pre).Success?
    ensures ValuesPresent(conv, Options(withModel)) <==> ValuesPresent(conv, Options(without))
    ensures ValuesPresent(conv, Options(without)) ==> Parse(conv, withModel) == Parse(conv, without)
  {
    var sts := Lex(conv, pre).value;
    var tail := ["--model"] + post;
    assert Options(withModel) == pre + tail;
    assert Options(without) == pre + post;
    LexModelFlag(conv, post);
    LexAppend(conv, pre, tail);
    LexAppend(conv, pre, post);
    if Lex(conv, post).Success? {
      var more := Lex(conv, post).value;
      assert Lex(conv, pre + tail) == Success(sts + ([ModelSetting] + more));
      assert Lex(conv, pre + post) == Success(sts + more);
      ApplyAllAppend(Defaults(), sts, [ModelSetting] + more);
      ApplyAllAppend(Defaults(), sts, more);
      assert ApplyAll(ApplyAll(Defaults(), sts), [ModelSetting] + more) == ApplyAll(ApplyAll(Defaults(), sts), more) by {
        assert ([ModelSetting] + more)[0] == ModelSetting && ([ModelSetting] + more)[1..] == more;
      }
    }
  }

  /** Example: the token after `--model` is not taken as its value, so a file name there is rejected. */
  lemma ModelValueRejected(conv: Converters)
    ensures ValuesPresent(conv, ["--model", "model.pt"])
    ensures Parse(conv, ["afdrl", "--model", "model.pt"]) == Failure(UnknownArgument("model.pt"))
  {
    assert Options(["afdrl", "--model", "model.pt"]) == ["--model", "model.pt"];
    assert "model.pt" !in FLAGS;
    assert ["--model", "model.pt"][1..] == ["model.pt"];
  }

  /**
   * The usage text advertises `--log-file` and `--results-file`, but the flag
   * table only knows `--log` and `--results`: the advertised spellings are
   * rejected as unknown arguments.
   */
  lemma UsageSpellingsRejected(conv: Converters)
    ensures ValuesPresent(conv, ["--log-file", "run.log"])
    ensures Parse(conv, ["afdrl", "--log-file", "run.log"]) == Failure(UnknownArgument("--log-file"))
    ensures ValuesPresent(conv, ["--results-file", "out.txt"])
    ensures Parse(conv, ["afdrl", "--results-file", "out.txt"]) == Failure(UnknownArgument("--results-file"))
  {
    assert Options(["afdrl", "--log-file", "run.log"]) == ["--log-file", "run.log"];
    assert Options(["afdrl", "--results-file", "out.txt"]) == ["--results-file", "out.txt"];
    assert "--log-file" !in FLAGS;
    assert "--results-file" !in FLAGS;
  }
}
