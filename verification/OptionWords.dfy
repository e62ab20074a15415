/** src/config.cc: what a list of words makes of a configuration, whatever order the words are in.
    Nothing here speaks of how the words are parsed. */
module OptionWords {
  import opened Options
  import opened Configs
  import Numbers

  /** The word gives the option this value. */
  predicate Gives(word: string, option: string, value: string) {
    word == "--" + option + "=" + value
  }

  /** The word names the option, with a value or without one. */
  predicate Mentions(word: string, option: string) {
    var head := "--" + option;
    head <= word && (|word| == |head| || word[|head|] == '=')
  }

  predicate Absent(words: seq<string>, option: string) {
    forall k | 0 <= k < |words| :: !Mentions(words[k], option)
  }

  /** The field is what was given for the option, or else the default. */
  ghost predicate TextRead(words: seq<string>, option: string, default: string, field: string) {
    && (forall k, value: string | 0 <= k < |words| && Gives(words[k], option, value) :: field == value)
    && (Absent(words, option) ==> field == default)
  }

  ghost predicate IntRead(words: seq<string>, option: string, default: int, field: int) {
    && (forall k, value: string | 0 <= k < |words| && Gives(words[k], option, value) ::
          Decimal.Parse(value) == Some(field))
    && (Absent(words, option) ==> field == default)
  }

  ghost predicate NumberRead(words: seq<string>, option: string, default: real, field: real) {
    && (forall k, value: string | 0 <= k < |words| && Gives(words[k], option, value) ::
          Numbers.Parse(value).Some? && field == Numbers.Stored(Numbers.Parse(value).value))
    && (Absent(words, option) ==> field == default)
  }

  /** Four words say true, every other one false; the bare option and none at all say true. */
  ghost predicate SynchronousRead(words: seq<string>, field: bool) {
    && (forall k | 0 <= k < |words| && words[k] == "--synchronous=true" :: field)
    && (forall k | 0 <= k < |words| && words[k] == "--synchronous=True" :: field)
    && (forall k | 0 <= k < |words| && words[k] == "--synchronous=TRUE" :: field)
    && (forall k | 0 <= k < |words| && words[k] == "--synchronous=1" :: field)
    && (forall k, value: string | 0 <= k < |words| && Gives(words[k], "synchronous", value)
          && value != "true" && value != "True" && value != "TRUE" && value != "1" :: !field)
    && (forall k | 0 <= k < |words| && words[k] == "--synchronous" :: field)
    && (Absent(words, "synchronous") ==> field)
  }

  /** Every option that `run` and `install` have in common has arrived in its field. */
  ghost predicate OptionsRead(words: seq<string>, c: Config) {
    && !Absent(words, "frequency") && IntRead(words, "frequency", 0, c.frequency)
    && !Absent(words, "command") && TextRead(words, "command", "", c.command)
    && SynchronousRead(words, c.synchronous)
    && TextRead(words, "data-dir", "", c.dataDir)
    && IntRead(words, "jitter", 0, c.jitterMs)
    && TextRead(words, "jitter-distribution", "uniform", c.jitterDistribution)
    && NumberRead(words, "fire-probability", 1.0, c.fireProbability)
    && c.logMaxSizeMb == 10 && c.logMaxFiles == 5
  }

  lemma TokenShape(name: string, value: string)
    requires '=' !in name
    ensures var token, body := "--" + name + "=" + value, name + "=" + value;
            && |token| >= 2 && token[..2] == "--" && token[2..] == body
            && Numbers.Find(body, '=') == |name| < |body| && body[..|name|] == name && body[|name| + 1..] == value
  {
    var body := name + "=" + value;
    assert "--" + name + "=" + value == "--" + body;
    Numbers.FoundAfter(name, '=', value);
    assert body[..|name|] == name;
    assert body[|name| + 1..] == value;
  }

  /** A word is about one option: the one the parser finds, if it accepts the word. */
  lemma TokenMentions(word: string, options: OptionTable)
    requires ParseToken(word, options).Some?
    ensures var name := ParseToken(word, options).value.0;
            && name in options && '=' !in name && Mentions(word, name)
            && forall option | '=' !in option && Mentions(word, option) :: option == name
  {
    var body := word[2..];
    var mark := Numbers.Find(body, '=');
    var name := body[..mark];
    assert word == "--" + body;
    assert "--" + name == word[..2 + mark];
    forall option | '=' !in option && Mentions(word, option) ensures option == name {
      var head := "--" + option;
      assert word[..|head|] == head && body[..|option|] == option;
    }
  }

  /** An option that was given has the given value, if the words are accepted at all. */
  lemma {:induction false} StoredAsGiven(tokens: seq<string>, options: OptionTable, k: nat, name: string, value: string)
    requires k < |tokens| && Store(tokens, options).Some? && ParseToken(tokens[k], options) == Some((name, value))
    ensures name in Store(tokens, options).value && Store(tokens, options).value[name] == value
  {
    var n := |tokens| - 1;
    if k < n {
      StoredAsGiven(tokens[..n], options, k, name, value);
    }
  }

  lemma {:induction false} AcceptedToken(tokens: seq<string>, options: OptionTable, k: nat)
    requires k < |tokens| && Store(tokens, options).Some?
    ensures ParseToken(tokens[k], options).Some?
  {
    var n := |tokens| - 1;
    if k < n {
      AcceptedToken(tokens[..n], options, k);
    }
  }

  /** The stored options are those of the words. */
  lemma {:induction false} StoredMentioned(words: seq<string>, options: OptionTable, option: string)
    requires Store(words, options).Some? && '=' !in option
    ensures option in Store(words, options).value <==> !Absent(words, option)
  {
    hide ParseToken, Mentions;
    if words != [] {
      var n := |words| - 1;
      StoredMentioned(words[..n], options, option);
      TokenMentions(words[n], options);
      assert forall k | 0 <= k < n :: words[..n][k] == words[k];
    }
  }

  lemma GivenToken(word: string, option: string, value: string, options: OptionTable)
    requires Gives(word, option, value) && '=' !in option && ParseToken(word, options).Some?
    ensures value != "" && option in options && Converts(options[option], value)
    ensures ParseToken(word, options) == Some((option, value))
  {
    TokenShape(option, value);
  }

  lemma BareToken(word: string, option: string, options: OptionTable)
    requires word == "--" + option && '=' !in option && option in options
    ensures ParseToken(word, options) == match options[option]
              case Switch => Some((option, ""))
              case ImplicitText(implicit) => Some((option, implicit))
              case _ => None
  {
    assert word[2..] == option;
    Numbers.NotFound(option, '=');
    assert option[..|option|] == option;
  }

  /** The option is among the stored ones, with this value. */
  predicate Holds(values: Values, options: OptionTable, option: string, value: string) {
    value != "" && option in options && Converts(options[option], value) && option in values && values[option] == value
  }

  /** A word that gives a value has stored it. */
  lemma GivenStored(words: seq<string>, options: OptionTable, option: string, k: nat, value: string)
    requires Store(words, options).Some? && '=' !in option && k < |words| && Gives(words[k], option, value)
    ensures Holds(Store(words, options).value, options, option, value)
  {
    hide ParseToken, Store, Gives, Converts;
    AcceptedToken(words, options, k);
    GivenToken(words[k], option, value, options);
    StoredAsGiven(words, options, k, option, value);
  }

  lemma TextStored(words: seq<string>, options: OptionTable, option: string, default: string)
    requires Store(words, options).Some? && '=' !in option
    ensures TextRead(words, option, default, TextOf(Store(words, options).value, option, default))
  {
    hide Store, Gives, Absent;
    var values := Store(words, options).value;
    StoredMentioned(words, options, option);
    forall k, value: string | 0 <= k < |words| && Gives(words[k], option, value)
      ensures TextOf(values, option, default) == value
    {
      GivenStored(words, options, option, k, value);
    }
  }

  lemma IntStored(words: seq<string>, options: OptionTable, option: string, default: int)
    requires Store(words, options).Some? && '=' !in option && option in options && options[option] == Int
    ensures IntRead(words, option, default, IntOf(Store(words, options).value, option, default))
  {
    hide Store, Gives, Absent, Decimal.Parse;
    var values := Store(words, options).value;
    StoredMentioned(words, options, option);
    forall k, value: string | 0 <= k < |words| && Gives(words[k], option, value)
      ensures Decimal.Parse(value) == Some(IntOf(values, option, default))
    {
      GivenStored(words, options, option, k, value);
    }
  }

  lemma NumberStored(words: seq<string>, options: OptionTable, option: string, default: real)
    requires Store(words, options).Some? && '=' !in option && option in options && options[option] == Double
    ensures NumberRead(words, option, default, NumberOf(Store(words, options).value, option, default))
  {
    hide Store, Gives, Absent, Numbers.Parse, Numbers.Stored;
    var values := Store(words, options).value;
    StoredMentioned(words, options, option);
    forall k, value: string | 0 <= k < |words| && Gives(words[k], option, value)
      ensures Numbers.Parse(value).Some?
      ensures NumberOf(values, option, default) == Numbers.Stored(Numbers.Parse(value).value)
    {
      GivenStored(words, options, option, k, value);
    }
  }

  lemma SynchronousStored(words: seq<string>, options: OptionTable)
    requires Store(words, options).Some?
    requires "synchronous" in options && options["synchronous"] == ImplicitText("true")
    ensures SynchronousRead(words, TextOf(Store(words, options).value, "synchronous", "true") in TRUE_WORDS)
  {
    hide Store, Absent, ParseToken, Gives;
    var values := Store(words, options).value;
    StoredMentioned(words, options, "synchronous");
    forall k, value: string | 0 <= k < |words| && Gives(words[k], "synchronous", value)
      ensures "synchronous" in values && values["synchronous"] == value
    {
      GivenStored(words, options, "synchronous", k, value);
    }
    forall k | 0 <= k < |words| && words[k] == "--synchronous"
      ensures "synchronous" in values && values["synchronous"] == "true"
    {
      assert words[k] == "--" + "synchronous";
      BareToken(words[k], "synchronous", options);
      StoredAsGiven(words, options, k, "synchronous", "true");
    }
    forall k | 0 <= k < |words|
      ensures words[k] == "--synchronous=true" ==> Gives(words[k], "synchronous", "true")
      ensures words[k] == "--synchronous=True" ==> Gives(words[k], "synchronous", "True")
      ensures words[k] == "--synchronous=TRUE" ==> Gives(words[k], "synchronous", "TRUE")
      ensures words[k] == "--synchronous=1" ==> Gives(words[k], "synchronous", "1")
    {
      TrueWords(words[k]);
    }
  }

  lemma TrueWords(word: string)
    ensures word == "--synchronous=true" ==> Gives(word, "synchronous", "true")
    ensures word == "--synchronous=True" ==> Gives(word, "synchronous", "True")
    ensures word == "--synchronous=TRUE" ==> Gives(word, "synchronous", "TRUE")
    ensures word == "--synchronous=1" ==> Gives(word, "synchronous", "1")
  {
  }

  lemma {:induction false} StoredKeys(words: seq<string>, options: OptionTable)
    requires Store(words, options).Some?
    ensures Store(words, options).value.Keys <= options.Keys
  {
    hide ParseToken;
    if words != [] {
      StoredKeys(words[..|words| - 1], options);
      TokenMentions(words[|words| - 1], options);
    }
  }

  /** The table has the options that `run` and `install` share. */
  predicate Common(options: OptionTable) {
    && COMMON_OPTIONS.Keys <= options.Keys
    && forall option | option in COMMON_OPTIONS :: options[option] == COMMON_OPTIONS[option]
  }

  lemma CommonKinds(options: OptionTable)
    requires Common(options)
    ensures "frequency" in options && options["frequency"] == Int
    ensures "jitter" in options && options["jitter"] == Int
    ensures "fire-probability" in options && options["fire-probability"] == Double
    ensures "synchronous" in options && options["synchronous"] == ImplicitText("true")
  {
    assert "frequency" in COMMON_OPTIONS && "jitter" in COMMON_OPTIONS;
    assert "fire-probability" in COMMON_OPTIONS && "synchronous" in COMMON_OPTIONS;
  }

  lemma TablesHaveCommon()
    ensures Common(INSTALL_OPTIONS) && Common(RUN_OPTIONS)
  {
  }

  lemma ConfigReads(words: seq<string>, options: OptionTable, subcommand: Subcommand)
    requires Common(options) && Store(words, options).Some?
    requires "frequency" in Store(words, options).value && "command" in Store(words, options).value
    ensures OptionsRead(words, RunConfig(Store(words, options).value, subcommand))
  {
    hide Store, Absent, TextRead, IntRead, NumberRead, SynchronousRead, Common, TextOf, IntOf, NumberOf;
    CommonKinds(options);
    StoredMentioned(words, options, "frequency");
    StoredMentioned(words, options, "command");
    IntStored(words, options, "frequency", 0);
    TextStored(words, options, "command", "");
    SynchronousStored(words, options);
    TextStored(words, options, "data-dir", "");
    IntStored(words, options, "jitter", 0);
    TextStored(words, options, "jitter-distribution", "uniform");
    NumberStored(words, options, "fire-probability", 1.0);
  }

  /** `install`: whatever order the words are in, every option that was given arrives in its field,
      and every other field has its default. */
  lemma InstallReads(words: seq<string>, name: string)
    requires InstallOutput(words, name).Ok?
    ensures var c := InstallOutput(words, name).config;
            && c.subcommand == INSTALL && c.serviceName == name && OptionsRead(words, c)
            && !c.hasPidFile && c.pidFilename == ""
  {
    hide Store, OptionsRead, IntOf, NumberOf;
    var values := Store(words, INSTALL_OPTIONS).value;
    TablesHaveCommon();
    StoredKeys(words, INSTALL_OPTIONS);
    assert values - {"pid-file", "service-name"} == values;
    ConfigReads(words, INSTALL_OPTIONS, INSTALL);
    var c := RunConfig(values, INSTALL);
    OptionsReadRenamed(words, c, name);
  }

  lemma OptionsReadRenamed(words: seq<string>, c: Config, name: string)
    ensures OptionsRead(words, c) ==> OptionsRead(words, c.(serviceName := name))
  {
  }

  /** `run`, and the form without a subcommand: likewise, with two more options. */
  lemma RunReads(words: seq<string>, subcommand: Subcommand)
    requires RunOutput(words, subcommand).Ok?
    ensures var c := RunOutput(words, subcommand).config;
            && c.subcommand == subcommand && OptionsRead(words, c)
            && TextRead(words, "service-name", "", c.serviceName)
            && TextRead(words, "pid-file", "", c.pidFilename) && (c.hasPidFile <==> !Absent(words, "pid-file"))
  {
    hide Store, OptionsRead, TextOf, IntOf, NumberOf, TextRead, Absent;
    TablesHaveCommon();
    ConfigReads(words, RUN_OPTIONS, subcommand);
    TextStored(words, RUN_OPTIONS, "service-name", "");
    TextStored(words, RUN_OPTIONS, "pid-file", "");
    StoredMentioned(words, RUN_OPTIONS, "pid-file");
  }

  /** The word gives the option some value. */
  predicate Valued(word: string, option: string) {
    "--" + option + "=" < word
  }

  function ValueOf(word: string, option: string): (value: string)
    requires Valued(word, option)
    ensures Gives(word, option, value) && value != ""
  {
    word[|option| + 3..]
  }

  /** The words `install` understands. */
  predicate Understood(word: string) {
    || word == "--help" || word == "--synchronous" || Valued(word, "synchronous")
    || Valued(word, "command") || Valued(word, "data-dir") || Valued(word, "jitter-distribution")
    || (Valued(word, "frequency") && Decimal.Parse(ValueOf(word, "frequency")).Some?)
    || (Valued(word, "jitter") && Decimal.Parse(ValueOf(word, "jitter")).Some?)
    || (Valued(word, "fire-probability") && Numbers.Parse(ValueOf(word, "fire-probability")).Some?)
  }

  /** No two words are about one option. */
  ghost predicate NothingTwice(words: seq<string>) {
    forall i, j, option | 0 <= i < j < |words| && '=' !in option && Mentions(words[i], option) ::
      !Mentions(words[j], option)
  }

  lemma ValuedToken(word: string, option: string, options: OptionTable)
    requires Valued(word, option) && '=' !in option && option in options && !options[option].Switch?
    ensures ParseToken(word, options).Some? <==> Converts(options[option], ValueOf(word, option))
  {
    TokenShape(option, ValueOf(word, option));
  }

  lemma UnderstoodParses(word: string)
    requires Understood(word)
    ensures ParseToken(word, INSTALL_OPTIONS).Some? && ParseToken(word, RUN_OPTIONS).Some?
  {
    hide ParseToken, Decimal.Parse, Numbers.Parse, ValueOf;
    TwoTables(word);
    if word == "--help" {
      assert word == "--" + "help";
      BareToken(word, "help", INSTALL_OPTIONS);
    } else if word == "--synchronous" {
      assert word == "--" + "synchronous";
      BareToken(word, "synchronous", INSTALL_OPTIONS);
    } else {
      var option := if Valued(word, "synchronous") then "synchronous" else if Valued(word, "command") then "command"
                    else if Valued(word, "data-dir") then "data-dir"
                    else if Valued(word, "jitter-distribution") then "jitter-distribution"
                    else if Valued(word, "frequency") && Decimal.Parse(ValueOf(word, "frequency")).Some?
                    then "frequency"
                    else if Valued(word, "jitter") && Decimal.Parse(ValueOf(word, "jitter")).Some? then "jitter"
                    else "fire-probability";
      ValuedToken(word, option, INSTALL_OPTIONS);
    }
  }

  lemma TwoTables(word: string)
    ensures ParseToken(word, INSTALL_OPTIONS).Some? ==> ParseToken(word, RUN_OPTIONS).Some?
  {
  }

  /** An accepted word is bare, or has a value that can be converted. */
  lemma TokenForms(word: string, options: OptionTable)
    requires ParseToken(word, options).Some?
    ensures var option := ParseToken(word, options).value.0;
            && option in options && '=' !in option
            && (if options[option].Switch? then word == "--" + option
                else (options[option].ImplicitText? && word == "--" + option) ||
                     (Valued(word, option) && Converts(options[option], ValueOf(word, option))))
  {
    TokenMentions(word, options);
    var body := word[2..];
    var mark := Numbers.Find(body, '=');
    assert word == "--" + body;
    if mark == |body| {
      assert body[..mark] == body;
    } else {
      assert word == "--" + body[..mark] + "=" + body[mark + 1..];
    }
  }

  lemma ParsedIsUnderstood(word: string)
    requires ParseToken(word, INSTALL_OPTIONS).Some?
    ensures Understood(word)
  {
    hide ParseToken, Decimal.Parse, Numbers.Parse;
    TokenForms(word, INSTALL_OPTIONS);
  }

  /** The parser takes a list of words exactly if it takes each of them and none repeats an option. */
  lemma {:induction false} StoreIff(words: seq<string>, options: OptionTable)
    ensures Store(words, options).Some? <==>
              && (forall k | 0 <= k < |words| :: ParseToken(words[k], options).Some?)
              && NothingTwice(words)
  {
    hide ParseToken, Mentions;
    if words != [] {
      var n := |words| - 1;
      var init, last := words[..n], words[n];
      StoreIff(init, options);
      assert forall k | 0 <= k < n :: init[k] == words[k];
      if Store(init, options).Some? && ParseToken(last, options).Some? {
        var option := ParseToken(last, options).value.0;
        TokenMentions(last, options);
        StoredMentioned(init, options, option);
        if option in Store(init, options).value {
          var k :| 0 <= k < n && Mentions(init[k], option);
          assert Mentions(words[k], option) && Mentions(words[n], option);
        }
      }
    }
  }

  /** `install` accepts exactly the lists of words it understands that give frequency and command,
      no option twice, and do not ask for help. */
  lemma InstallAcceptedIff(words: seq<string>, name: string)
    ensures InstallOutput(words, name).Ok? <==>
              && (forall k | 0 <= k < |words| :: Understood(words[k])) && NothingTwice(words)
              && !Absent(words, "frequency") && !Absent(words, "command") && Absent(words, "help")
    ensures InstallOutput(words, name).Help? <==>
              && (forall k | 0 <= k < |words| :: Understood(words[k])) && NothingTwice(words)
              && !Absent(words, "help")
  {
    hide Store, ParseToken, Understood, Absent, NothingTwice, RunConfig;
    StoreIff(words, INSTALL_OPTIONS);
    forall k | 0 <= k < |words| ensures ParseToken(words[k], INSTALL_OPTIONS).Some? <==> Understood(words[k]) {
      if Understood(words[k]) {
        UnderstoodParses(words[k]);
      } else if ParseToken(words[k], INSTALL_OPTIONS).Some? {
        ParsedIsUnderstood(words[k]);
      }
    }
    if Store(words, INSTALL_OPTIONS).Some? {
      StoredMentioned(words, INSTALL_OPTIONS, "frequency");
      StoredMentioned(words, INSTALL_OPTIONS, "command");
      StoredMentioned(words, INSTALL_OPTIONS, "help");
    }
  }

  /** The words `run` understands: two more. */
  predicate RunUnderstood(word: string) {
    Understood(word) || Valued(word, "pid-file") || Valued(word, "service-name")
  }

  lemma RunUnderstoodIff(word: string)
    ensures ParseToken(word, RUN_OPTIONS).Some? <==> RunUnderstood(word)
  {
    hide ParseToken, Understood;
    if Understood(word) {
      UnderstoodParses(word);
    } else if Valued(word, "pid-file") {
      ValuedToken(word, "pid-file", RUN_OPTIONS);
    } else if Valued(word, "service-name") {
      ValuedToken(word, "service-name", RUN_OPTIONS);
    }
    if ParseToken(word, RUN_OPTIONS).Some? {
      ParsedForRun(word);
    }
  }

  lemma ParsedForRun(word: string)
    requires ParseToken(word, RUN_OPTIONS).Some?
    ensures RunUnderstood(word)
  {
    hide ParseToken, Decimal.Parse, Numbers.Parse;
    TokenForms(word, RUN_OPTIONS);
  }

  /** `run` accepts exactly such lists with frequency and command. */
  lemma RunAcceptedIff(words: seq<string>, subcommand: Subcommand)
    ensures RunOutput(words, subcommand).Ok? <==>
              && (forall k | 0 <= k < |words| :: RunUnderstood(words[k])) && NothingTwice(words)
              && !Absent(words, "frequency") && !Absent(words, "command") && Absent(words, "help")
  {
    hide Store, ParseToken, RunUnderstood, Absent, NothingTwice, RunConfig;
    StoreIff(words, RUN_OPTIONS);
    forall k | 0 <= k < |words| ensures ParseToken(words[k], RUN_OPTIONS).Some? <==> RunUnderstood(words[k]) {
      RunUnderstoodIff(words[k]);
    }
    if Store(words, RUN_OPTIONS).Some? {
      StoredMentioned(words, RUN_OPTIONS, "frequency");
      StoredMentioned(words, RUN_OPTIONS, "command");
      StoredMentioned(words, RUN_OPTIONS, "help");
    }
  }

  /** Commands that take a name, or none, read only the data directory. */
  lemma NameReads(words: seq<string>, subcommand: Subcommand, name: string)
    requires NameOutput(words, subcommand, name).Ok?
    ensures var c := NameOutput(words, subcommand, name).config;
            c.subcommand == subcommand && c.serviceName == name && TextRead(words, "data-dir", "", c.dataDir)
  {
    hide Store, TextRead, TextOf;
    TextStored(words, NAME_ONLY_OPTIONS, "data-dir", "");
  }

  lemma NameWordIff(word: string)
    ensures ParseToken(word, NAME_ONLY_OPTIONS).Some? <==> word == "--help" || Valued(word, "data-dir")
  {
    hide ParseToken;
    if word == "--help" {
      assert word == "--" + "help";
      BareToken(word, "help", NAME_ONLY_OPTIONS);
    } else if Valued(word, "data-dir") {
      ValuedToken(word, "data-dir", NAME_ONLY_OPTIONS);
    } else if ParseToken(word, NAME_ONLY_OPTIONS).Some? {
      TokenForms(word, NAME_ONLY_OPTIONS);
    }
  }

  /** These commands understand no other words, and none twice. */
  lemma NameAcceptedIff(words: seq<string>, subcommand: Subcommand, name: string)
    ensures NameOutput(words, subcommand, name).Ok? <==>
              && (forall k | 0 <= k < |words| :: words[k] == "--help" || Valued(words[k], "data-dir"))
              && NothingTwice(words) && Absent(words, "help")
  {
    hide Store, ParseToken, Absent, NothingTwice, TextOf;
    StoreIff(words, NAME_ONLY_OPTIONS);
    forall k | 0 <= k < |words|
      ensures ParseToken(words[k], NAME_ONLY_OPTIONS).Some? <==> words[k] == "--help" || Valued(words[k], "data-dir")
    {
      NameWordIff(words[k]);
    }
    if Store(words, NAME_ONLY_OPTIONS).Some? {
      StoredMentioned(words, NAME_ONLY_OPTIONS, "help");
    }
  }

  lemma Dispatched(first: string, words: seq<string>)
    requires !Dashed(first)
    ensures ParseArgs([first] + words) ==
              if first !in SUBCOMMANDS then ParseError
              else
                var named := words != [] && !Dashed(words[0]);
                match SUBCOMMANDS[first]
                case RUN => RunOutput(words, RUN)
                case INSTALL => if named then InstallOutput(words[1..], words[0]) else ParseError
                case STATUS => if named then NameOutput(words[1..], STATUS, words[0]) else NameOutput(words, STATUS, "")
                case LIST => NameOutput(words, LIST, "")
                case other => if named then NameOutput(words[1..], other, words[0]) else ParseError
  {
    hide RunOutput, InstallOutput, NameOutput;
    var args := [first] + words;
    assert args[0] == first && args[1..] == words && first != "--help" && first != "-h";
  }

  lemma SubcommandWords()
    ensures SUBCOMMANDS.Keys == {"run", "install", "remove", "start", "stop", "status", "list", "logs"}
    ensures SUBCOMMANDS["run"] == RUN && SUBCOMMANDS["install"] == INSTALL && SUBCOMMANDS["remove"] == REMOVE
    ensures SUBCOMMANDS["start"] == START && SUBCOMMANDS["stop"] == STOP && SUBCOMMANDS["status"] == STATUS
    ensures SUBCOMMANDS["list"] == LIST && SUBCOMMANDS["logs"] == LOGS
  {
  }

  /** The first word chooses the command, and for most of them the second one the service. */
  lemma Dispatches(words: seq<string>, name: string)
    requires !Dashed(name)
    ensures ParseArgs(["run"] + words) == RunOutput(words, RUN)
    ensures ParseArgs(["install"] + ([name] + words)) == InstallOutput(words, name)
    ensures ParseArgs(["remove"] + ([name] + words)) == NameOutput(words, REMOVE, name)
    ensures ParseArgs(["start"] + ([name] + words)) == NameOutput(words, START, name)
    ensures ParseArgs(["stop"] + ([name] + words)) == NameOutput(words, STOP, name)
    ensures ParseArgs(["logs"] + ([name] + words)) == NameOutput(words, LOGS, name)
    ensures ParseArgs(["status"] + ([name] + words)) == NameOutput(words, STATUS, name)
    ensures words == [] || Dashed(words[0]) ==> ParseArgs(["status"] + words) == NameOutput(words, STATUS, "")
    ensures ParseArgs(["list"] + words) == NameOutput(words, LIST, "")
    ensures words != [] && Dashed(words[0]) && words[0] != "--help" && words[0] != "-h" ==>
              ParseArgs(words) == RunOutput(words, LEGACY)
  {
    hide RunOutput, InstallOutput, NameOutput, SUBCOMMANDS;
    SubcommandWords();
    var rest := [name] + words;
    assert rest[1..] == words && rest[0] == name;
    Dispatched("run", words);
    Dispatched("install", rest);
    Dispatched("remove", rest);
    Dispatched("start", rest);
    Dispatched("stop", rest);
    Dispatched("logs", rest);
    Dispatched("status", rest);
    Dispatched("status", words);
    Dispatched("list", words);
  }
}
