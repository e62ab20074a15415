/** src/config.cc: from command-line words to a Config. */
module Configs {
  import opened Options
  import opened Decimal
  import Numbers

  datatype Subcommand = RUN | INSTALL | REMOVE | START | STOP | STATUS | LIST | LOGS | LEGACY

  datatype Config = Config(
    subcommand: Subcommand,
    serviceName: string,
    frequency: int,
    command: string,
    pidFilename: string,
    synchronous: bool,
    hasPidFile: bool,
    dataDir: string,
    logMaxSizeMb: int,
    logMaxFiles: int,
    jitterMs: int,
    jitterDistribution: string,
    fireProbability: real)

  const DEFAULT := Config(LEGACY, "", 0, "", "", true, false, "", 10, 5, 0, "uniform", 1.0)

  datatype ParseOutput = Ok(config: Config) | Help | ParseError

  /** What kind of value an option takes. */
  datatype Kind = Switch | Int | Text | ImplicitText(implicit: string) | Double

  type OptionTable = map<string, Kind>
  type Values = map<string, string>

  const COMMON_OPTIONS: OptionTable :=
    map["help" := Switch, "synchronous" := ImplicitText("true"), "data-dir" := Text,
        "jitter" := Int, "jitter-distribution" := Text, "fire-probability" := Double,
        "frequency" := Int, "command" := Text]
  const RUN_OPTIONS: OptionTable := COMMON_OPTIONS["pid-file" := Text]["service-name" := Text]
  const INSTALL_OPTIONS: OptionTable := COMMON_OPTIONS
  const NAME_ONLY_OPTIONS: OptionTable := map["help" := Switch, "data-dir" := Text]

  const TRUE_WORDS: set<string> := {"true", "True", "TRUE", "1"}

  predicate Converts(kind: Kind, text: string) {
    match kind
    case Int => Decimal.Parse(text).Some?
    case Double => Numbers.Parse(text).Some?
    case _ => true
  }

  /** boost::program_options on one word: `--name=value` with a non-empty value, or a bare
      `--name` where the option needs no value. */
  function ParseToken(token: string, options: OptionTable): Option<(string, string)> {
    if |token| < 2 || token[..2] != "--" then None
    else
      var body := token[2..];
      var mark := Numbers.Find(body, '=');
      var name := body[..mark];
      if name !in options then None
      else if mark == |body| then
        match options[name]
        case Switch => Some((name, ""))
        case ImplicitText(implicit) => Some((name, implicit))
        case _ => None
      else
        var value := body[mark + 1..];
        if value == "" || options[name].Switch? || !Converts(options[name], value) then None
        else Some((name, value))
  }

  /** All words, each option at most once. */
  function Store(tokens: seq<string>, options: OptionTable): Option<Values> {
    if tokens == [] then Some(map[])
    else
      var before := Store(tokens[..|tokens| - 1], options);
      var last := ParseToken(tokens[|tokens| - 1], options);
      if before.None? || last.None? || last.value.0 in before.value then None
      else Some(before.value[last.value.0 := last.value.1])
  }

  function TextOf(values: Values, name: string, default: string): string {
    if name in values then values[name] else default
  }

  function IntOf(values: Values, name: string, default: int): int {
    if name in values then Decimal.Parse(values[name]).GetOr(default) else default
  }

  /** The double nearest to the decimal that was typed. */
  function NumberOf(values: Values, name: string, default: real): real {
    if name in values && Numbers.Parse(values[name]).Some? then Numbers.Stored(Numbers.Parse(values[name]).value)
    else default
  }

  /** What a complete set of `run` options means: each option or its default. */
  function RunConfig(values: Values, subcommand: Subcommand): Config {
    Config(
      subcommand,
      TextOf(values, "service-name", ""),
      IntOf(values, "frequency", 0),
      TextOf(values, "command", ""),
      TextOf(values, "pid-file", ""),
      TextOf(values, "synchronous", "true") in TRUE_WORDS,
      "pid-file" in values,
      TextOf(values, "data-dir", ""),
      10, 5,
      IntOf(values, "jitter", 0),
      TextOf(values, "jitter-distribution", "uniform"),
      NumberOf(values, "fire-probability", 1.0))
  }

  function RunOutput(tokens: seq<string>, subcommand: Subcommand): ParseOutput {
    var values := Store(tokens, RUN_OPTIONS);
    if values.None? then ParseError
    else if "help" in values.value then Help
    else if "frequency" !in values.value || "command" !in values.value then ParseError
    else Ok(RunConfig(values.value, subcommand))
  }

  /** Installing takes the same options without pid-file and service-name; the name is a word
      of its own. */
  function InstallOutput(tokens: seq<string>, name: string): ParseOutput {
    var values := Store(tokens, INSTALL_OPTIONS);
    if values.None? then ParseError
    else if "help" in values.value then Help
    else if "frequency" !in values.value || "command" !in values.value then ParseError
    else Ok(RunConfig(values.value - {"pid-file", "service-name"}, INSTALL).(serviceName := name))
  }

  method ParseCommonOptions(values: Values, start: Config) returns (config: Config)
    ensures config == start.(
              dataDir := TextOf(values, "data-dir", start.dataDir),
              synchronous := start.synchronous && TextOf(values, "synchronous", "true") in TRUE_WORDS,
              jitterMs := IntOf(values, "jitter", start.jitterMs),
              jitterDistribution := TextOf(values, "jitter-distribution", start.jitterDistribution),
              fireProbability := NumberOf(values, "fire-probability", start.fireProbability))
  {
    config := start;
    if "data-dir" in values {
      config := config.(dataDir := values["data-dir"]);
    }
    if "synchronous" in values {
      var val := values["synchronous"];
      if val != "true" && val != "True" && val != "TRUE" && val != "1" {
        config := config.(synchronous := false);
      }
    }
    if "jitter" in values {
      config := config.(jitterMs := IntOf(values, "jitter", config.jitterMs));
    }
    if "jitter-distribution" in values {
      config := config.(jitterDistribution := values["jitter-distribution"]);
    }
    if "fire-probability" in values {
      config := config.(fireProbability := NumberOf(values, "fire-probability", config.fireProbability));
    }
  }

  method ParseRunArgs(tokens: seq<string>, subcommand: Subcommand) returns (output: ParseOutput)
    ensures output == RunOutput(tokens, subcommand)
  {
    var config := DEFAULT.(subcommand := subcommand);
    var stored := Store(tokens, RUN_OPTIONS);
    if stored.None? {
      return ParseError;
    }
    var values := stored.value;
    if "help" in values {
      return Help;
    }
    if "frequency" !in values {
      return ParseError;
    }
    if "command" !in values {
      return ParseError;
    }
    config := config.(frequency := IntOf(values, "frequency", 0));
    config := config.(command := values["command"]);
    if "pid-file" in values {
      config := config.(pidFilename := values["pid-file"]);
      config := config.(hasPidFile := true);
    }
    if "service-name" in values {
      config := config.(serviceName := values["service-name"]);
    }
    config := ParseCommonOptions(values, config);
    output := Ok(config);
  }

  method ParseInstallArgs(tokens: seq<string>, name: string) returns (output: ParseOutput)
    ensures output == InstallOutput(tokens, name)
  {
    var config := DEFAULT.(subcommand := INSTALL).(serviceName := name);
    var stored := Store(tokens, INSTALL_OPTIONS);
    if stored.None? {
      return ParseError;
    }
    var values := stored.value;
    if "help" in values {
      return Help;
    }
    if "frequency" !in values {
      return ParseError;
    }
    if "command" !in values {
      return ParseError;
    }
    config := config.(frequency := IntOf(values, "frequency", 0));
    config := config.(command := values["command"]);
    config := ParseCommonOptions(values, config);
    output := Ok(config);
  }

  const SUBCOMMANDS: map<string, Subcommand> :=
    map["run" := RUN, "install" := INSTALL, "remove" := REMOVE, "start" := START,
        "stop" := STOP, "status" := STATUS, "list" := LIST, "logs" := LOGS]

  predicate Dashed(word: string) {
    word != "" && word[0] == '-'
  }

  function NameOutput(tokens: seq<string>, subcommand: Subcommand, name: string): ParseOutput {
    var values := Store(tokens, NAME_ONLY_OPTIONS);
    if values.None? then ParseError
    else if "help" in values.value then Help
    else Ok(DEFAULT.(subcommand := subcommand, serviceName := name, dataDir := TextOf(values.value, "data-dir", "")))
  }

  /** parse_args: the words after the program name. */
  function ParseArgs(args: seq<string>): ParseOutput {
    if args == [] then ParseError
    else if args[0] == "--help" || args[0] == "-h" then Help
    else if Dashed(args[0]) then RunOutput(args, LEGACY)
    else if args[0] !in SUBCOMMANDS then ParseError
    else
      var rest := args[1..];
      var named := rest != [] && !Dashed(rest[0]);
      match SUBCOMMANDS[args[0]]
      case RUN => RunOutput(rest, RUN)
      case INSTALL => if named then InstallOutput(rest[1..], rest[0]) else ParseError
      case STATUS => if named then NameOutput(rest[1..], STATUS, rest[0]) else NameOutput(rest, STATUS, "")
      case LIST => NameOutput(rest, LIST, "")
      case other => if named then NameOutput(rest[1..], other, rest[0]) else ParseError
  }
}
