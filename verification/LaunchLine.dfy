/** The command line `start` builds for a service (src/service_registry.cc), and what the
    shell, the option parser and the executor make of it. */
module LaunchLine {
  import opened Options
  import opened FilePaths
  import opened Decimal
  import opened Shell
  import opened Configs
  import opened OptionWords
  import opened Schedule
  import Numbers
  import Rounding

  /** A row of the services table. */
  datatype ServiceRecord = ServiceRecord(
    name: string,
    command: string,
    frequencyMs: int,
    synchronous: bool,
    jitterMs: int,
    jitterDistribution: string,
    fireProbability: real,
    createdAt: string,
    updatedAt: string)

  /** What `install` stores for a configuration. */
  function RecordOf(c: Config, now: string): ServiceRecord {
    ServiceRecord(c.serviceName, c.command, c.frequency, c.synchronous, c.jitterMs, c.jitterDistribution,
                  c.fireProbability, now, now)
  }

  /** Where things are: the program, the service's PID file and the data directory. */
  datatype Paths = Paths(binary: string, pidFile: string, dataDir: string)

  /** Where they are for a service of an installation. */
  function PathsFor(site: Site, name: string): Paths {
    Paths(site.binary, PidText(site, name), site.dataDir)
  }

  predicate Jittered(s: ServiceRecord) {
    s.jitterMs > 0
  }

  predicate Probabilistic(s: ServiceRecord) {
    s.fireProbability < 1.0
  }

  function Quoted(s: string): string {
    "\"" + s + "\""
  }

  /** An option of the launch line; some values are put in double quotes. */
  datatype Field = Field(name: string, value: string, quoted: bool) {
    function Show(): string {
      " --" + name + "=" + if quoted then Quoted(value) else value
    }

    function Word(): string {
      "--" + name + "=" + value
    }

    /** The option parser accepts the word. */
    predicate Readable() {
      && '=' !in name && name in RUN_OPTIONS && !RUN_OPTIONS[name].Switch?
      && value != "" && Converts(RUN_OPTIONS[name], value)
    }

    /** The shell reads the shown option as one word, and the option parser accepts it. */
    predicate Safe() {
      && AllPlain(name) && Readable()
      && (if quoted then AllQuotable(value) else AllPlain(value))
    }
  }

  function RequiredFields(s: ServiceRecord, p: Paths): seq<Field> {
    [Field("frequency", Print(s.frequencyMs), false),
     Field("command", s.command, true),
     Field("pid-file", p.pidFile, true),
     Field("service-name", s.name, false),
     Field("data-dir", p.dataDir, true)]
  }

  function SynchronousFields(s: ServiceRecord): seq<Field> {
    if s.synchronous then [] else [Field("synchronous", "false", false)]
  }

  function JitterFields(s: ServiceRecord): seq<Field> {
    if Jittered(s) then [Field("jitter", Print(s.jitterMs), false),
                         Field("jitter-distribution", s.jitterDistribution, false)]
    else []
  }

  function ProbabilityFields(s: ServiceRecord): seq<Field> {
    if Probabilistic(s) then [Field("fire-probability", Numbers.Print(s.fireProbability), false)] else []
  }

  /** The options, in the order in which they are written. */
  function Fields(s: ServiceRecord, p: Paths): seq<Field> {
    RequiredFields(s, p) + SynchronousFields(s) + JitterFields(s) + ProbabilityFields(s)
  }

  predicate AllSafe(fields: seq<Field>) {
    forall k | 0 <= k < |fields| :: fields[k].Safe()
  }

  predicate AllReadable(fields: seq<Field>) {
    forall k | 0 <= k < |fields| :: fields[k].Readable()
  }

  function Shown(fields: seq<Field>): string {
    if fields == [] then "" else fields[0].Show() + Shown(fields[1..])
  }

  function WordsOf(fields: seq<Field>): seq<string> {
    if fields == [] then [] else WordsOf(fields[..|fields| - 1]) + [fields[|fields| - 1].Word()]
  }

  /** The text handed to system(). */
  function LaunchText(s: ServiceRecord, p: Paths): string {
    Quoted(p.binary) + " run" + Shown(Fields(s, p)) + " &"
  }

  /** What becomes of a double that is printed with six digits and read as a double again. */
  function Reread(v: real): real {
    Rounding.Rounded(Rounding.Rounded(v, Rounding.SIX_DIGITS), Rounding.DOUBLE)
  }

  /** The configuration the launched daemon runs with. */
  function Daemon(s: ServiceRecord, p: Paths): Config {
    DEFAULT.(
      subcommand := RUN,
      frequency := s.frequencyMs,
      command := s.command,
      pidFilename := p.pidFile,
      hasPidFile := true,
      serviceName := s.name,
      dataDir := p.dataDir,
      synchronous := s.synchronous,
      jitterMs := if Jittered(s) then s.jitterMs else 0,
      jitterDistribution := if Jittered(s) then s.jitterDistribution else "uniform",
      fireProbability := if Probabilistic(s) then Reread(s.fireProbability) else 1.0)
  }

  /** What the launch line needs: quoted parts without special characters, unquoted parts
      plain, nothing empty, and integers that fit an int. */
  predicate Launchable(s: ServiceRecord, p: Paths) {
    && AllQuotable(p.binary) && AllQuotable(p.pidFile) && p.pidFile != "" && AllQuotable(p.dataDir) && p.dataDir != ""
    && AllQuotable(s.command) && s.command != ""
    && AllPlain(s.name) && s.name != ""
    && (Jittered(s) ==> AllPlain(s.jitterDistribution) && s.jitterDistribution != "")
    && Int32(s.frequencyMs) && Int32(s.jitterMs)
  }

  lemma PlainJoin(s: string, t: string)
    requires AllPlain(s) && AllPlain(t)
    ensures AllPlain(s + t)
  {
  }

  lemma StartPlain(name: string)
    requires AllPlain(name)
    ensures AllPlain("--" + name + "=")
  {
  }

  lemma ScanQuotedField(name: string, value: string, rest: string, r: Reader)
    requires AllPlain(name) && AllQuotable(value)
    ensures var f := Field(name, value, true);
            Scan(f.Show() + rest, Bare, r) == Scan(rest, Bare, r.EndWord().Add(f.Word()))
  {
    var f, start := Field(name, value, true), "--" + name + "=";
    StartPlain(name);
    assert f.Show() + rest == " " + start + "\"" + value + "\"" + rest;
    ScanWord(start, value, rest, r);
  }

  lemma ScanPlainField(name: string, value: string, rest: string, r: Reader)
    requires AllPlain(name) && AllPlain(value)
    ensures var f := Field(name, value, false);
            Scan(f.Show() + rest, Bare, r) == Scan(rest, Bare, r.EndWord().Add(f.Word()))
  {
    var f, start := Field(name, value, false), "--" + name + "=";
    StartPlain(name);
    PlainJoin(start, value);
    assert f.Show() + rest == " " + f.Word() + rest;
    ScanPlainWord(f.Word(), rest, r);
  }

  lemma ScanField(field: Field, rest: string, r: Reader)
    requires field.Safe()
    ensures Scan(field.Show() + rest, Bare, r) == Scan(rest, Bare, r.EndWord().Add(field.Word()))
  {
    if field.quoted {
      ScanQuotedField(field.name, field.value, rest, r);
    } else {
      ScanPlainField(field.name, field.value, rest, r);
    }
  }

  lemma ScanEnd(r: Reader)
    ensures Scan(" &", Bare, r) == Complete(r.EndWord().words)
  {
  }

  /** Adding the words of the fields one by one, without looking at their text. */
  function AddWords(fields: seq<Field>, r: Reader): Reader {
    if fields == [] then r else AddWords(fields[1..], r.EndWord().Add(fields[0].Word()))
  }

  /** The shell splits the shown fields back into their words, whatever follows. */
  lemma {:induction false} ScanFields(fields: seq<Field>, rest: string, r: Reader)
    requires AllSafe(fields)
    ensures Scan(Shown(fields) + rest, Bare, r) == Scan(rest, Bare, AddWords(fields, r))
    decreases |fields|
  {
    if fields == [] {
      assert "" + rest == rest;
    } else {
      var more := Shown(fields[1..]) + rest;
      assert Shown(fields) + rest == fields[0].Show() + more;
      ScanField(fields[0], more, r);
      ScanFields(fields[1..], rest, r.EndWord().Add(fields[0].Word()));
    }
  }

  lemma {:induction false} WordsAdded(fields: seq<Field>, r: Reader)
    ensures AddWords(fields, r).EndWord().words == r.EndWord().words + WordsOf(fields)
    decreases |fields|
  {
    if fields != [] {
      var w := fields[0].Word();
      var next := r.EndWord().Add(w);
      WordsAdded(fields[1..], next);
      assert "" + w == w;
      assert next.EndWord().words == r.EndWord().words + [w];
      WordsFront(fields);
    }
  }

  lemma {:induction false} WordsFront(fields: seq<Field>)
    requires fields != []
    ensures WordsOf(fields) == [fields[0].Word()] + WordsOf(fields[1..])
    decreases |fields|
  {
    if |fields| > 1 {
      var init := fields[..|fields| - 1];
      WordsFront(init);
      assert init[1..] == fields[1..][..|fields| - 2];
    }
  }

  /** The scanner after the program name, "run" and the options. */
  function AfterOptions(binary: string, fields: seq<Field>): Reader {
    AddWords(fields, Reader([binary], Some("run")))
  }

  lemma ScanOptions(binary: string, fields: seq<Field>, rest: string)
    requires AllQuotable(binary) && AllSafe(fields)
    ensures Words(Quoted(binary) + " run" + Shown(fields) + rest) == Scan(rest, Bare, AfterOptions(binary, fields))
    ensures AfterOptions(binary, fields).EndWord().words == [binary, "run"] + WordsOf(fields)
  {
    hide Scan, Shown, AllSafe, AllQuotable, WordsOf;
    var start, more := Reader([], None), Shown(fields) + rest;
    assert Quoted(binary) + " run" + Shown(fields) + rest == "\"" + binary + "\"" + (" run" + more);
    ScanQuoted(binary, " run" + more, start);
    assert " run" + more == " " + "run" + more;
    ScanPlainWord("run", more, start.Add(binary));
    var r := start.Add(binary).EndWord().Add("run");
    assert "" + binary == binary && "" + "run" == "run";
    assert r == Reader([binary], Some("run")) && r.EndWord().words == [binary, "run"];
    ScanFields(fields, rest, r);
    WordsAdded(fields, r);
  }

  /** The shell turns a launch line into the program name, "run" and one word per option. */
  lemma ShellWords(binary: string, fields: seq<Field>)
    requires AllQuotable(binary) && AllSafe(fields)
    ensures Words(Quoted(binary) + " run" + Shown(fields) + " &") == Complete([binary, "run"] + WordsOf(fields))
  {
    ScanOptions(binary, fields, " &");
    ScanEnd(AfterOptions(binary, fields));
  }

  lemma PrintPlain(n: int)
    ensures AllPlain(Print(n))
  {
  }

  lemma NumberPlain(v: real)
    ensures AllPlain(Numbers.Print(v)) && Numbers.Print(v) != ""
  {
    hide Numbers.SixDigits;
    if v != 0.0 {
      var (a, e) := Numbers.SixDigits(if v < 0.0 then -v else v);
      var d := Digits(a);
      FixedPlain(d, e);
      ScientificPlain(d, |d| - 1 + e);
      PlainJoin("-", Numbers.Layout(a, e));
    }
  }

  lemma FixedPlain(d: string, e: int)
    requires AllDigits(d) && d != ""
    ensures AllPlain(Numbers.FixedLayout(d, e)) && Numbers.FixedLayout(d, e) != ""
  {
  }

  lemma ScientificPlain(d: string, x: int)
    requires AllDigits(d) && d != ""
    ensures AllPlain(Numbers.ScientificLayout(d, x)) && Numbers.ScientificLayout(d, x) != ""
  {
  }

  lemma SafeJoin(a: seq<Field>, b: seq<Field>)
    requires AllSafe(a) && AllSafe(b)
    ensures AllSafe(a + b)
  {
  }

  predicate GoodName(name: string) {
    AllPlain(name) && '=' !in name && name in RUN_OPTIONS
  }

  lemma RequiredNames()
    ensures GoodName("frequency") && RUN_OPTIONS["frequency"] == Int
    ensures GoodName("command") && RUN_OPTIONS["command"] == Text
    ensures GoodName("pid-file") && RUN_OPTIONS["pid-file"] == Text
    ensures GoodName("service-name") && RUN_OPTIONS["service-name"] == Text
    ensures GoodName("data-dir") && RUN_OPTIONS["data-dir"] == Text
  {
  }

  lemma OptionalNames()
    ensures GoodName("synchronous") && RUN_OPTIONS["synchronous"].ImplicitText?
    ensures GoodName("jitter") && RUN_OPTIONS["jitter"] == Int
  {
  }

  lemma OptionalLongNames()
    ensures GoodName("jitter-distribution") && RUN_OPTIONS["jitter-distribution"] == Text
    ensures GoodName("fire-probability") && RUN_OPTIONS["fire-probability"] == Double
  {
  }

  lemma TextSafe(name: string, value: string, quoted: bool)
    requires GoodName(name) && (RUN_OPTIONS[name] == Text || RUN_OPTIONS[name].ImplicitText?)
    requires value != "" && if quoted then AllQuotable(value) else AllPlain(value)
    ensures Field(name, value, quoted).Safe()
  {
  }

  lemma IntSafe(name: string, n: int)
    requires GoodName(name) && RUN_OPTIONS[name] == Int && Int32(n)
    ensures Field(name, Print(n), false).Safe()
  {
    PrintPlain(n);
    ParsePrint(n);
  }

  lemma NumberSafe(name: string, x: real)
    requires GoodName(name) && RUN_OPTIONS[name] == Double
    ensures Field(name, Numbers.Print(x), false).Safe()
  {
    NumberPlain(x);
    Numbers.ParsePrint(x);
  }

  lemma RequiredSafe(s: ServiceRecord, p: Paths)
    requires Launchable(s, p)
    ensures AllSafe(RequiredFields(s, p))
  {
    RequiredNames();
    IntSafe("frequency", s.frequencyMs);
    TextSafe("command", s.command, true);
    TextSafe("pid-file", p.pidFile, true);
    TextSafe("service-name", s.name, false);
    TextSafe("data-dir", p.dataDir, true);
  }

  lemma OptionalSafe(s: ServiceRecord, p: Paths)
    requires Launchable(s, p)
    ensures AllSafe(SynchronousFields(s)) && AllSafe(JitterFields(s)) && AllSafe(ProbabilityFields(s))
  {
    OptionalNames();
    OptionalLongNames();
    TextSafe("synchronous", "false", false);
    IntSafe("jitter", s.jitterMs);
    if Jittered(s) {
      TextSafe("jitter-distribution", s.jitterDistribution, false);
    }
    NumberSafe("fire-probability", s.fireProbability);
  }

  lemma FieldsSafe(s: ServiceRecord, p: Paths)
    requires Launchable(s, p)
    ensures AllSafe(Fields(s, p))
  {
    var a, b, c, d := RequiredFields(s, p), SynchronousFields(s), JitterFields(s), ProbabilityFields(s);
    RequiredSafe(s, p);
    OptionalSafe(s, p);
    SafeJoin(a, b);
    SafeJoin(a + b, c);
    SafeJoin(a + b + c, d);
  }

  lemma TokenParses(field: Field)
    requires field.Readable()
    ensures ParseToken(field.Word(), RUN_OPTIONS) == Some((field.name, field.value))
  {
    TokenShape(field.name, field.value);
  }

  function ValuesOf(fields: seq<Field>): Values {
    if fields == [] then map[]
    else ValuesOf(fields[..|fields| - 1])[fields[|fields| - 1].name := fields[|fields| - 1].value]
  }

  /** No option is written twice: each is written in its place of a fixed order. */
  function Rank(name: string): int {
    match name
    case "frequency" => 0
    case "command" => 1
    case "pid-file" => 2
    case "service-name" => 3
    case "data-dir" => 4
    case "synchronous" => 5
    case "jitter" => 6
    case "jitter-distribution" => 7
    case _ => 8
  }

  predicate Ordered(fields: seq<Field>) {
    forall i, j | 0 <= i < j < |fields| :: Rank(fields[i].name) < Rank(fields[j].name)
  }

  lemma {:induction false} RanksBelow(fields: seq<Field>, k: int)
    requires forall i | 0 <= i < |fields| :: Rank(fields[i].name) < k
    ensures forall name | name in ValuesOf(fields) :: Rank(name) < k
  {
    if fields != [] {
      RanksBelow(fields[..|fields| - 1], k);
    }
  }

  /** The option parser stores every option of an ordered list of fields it accepts. */
  lemma {:induction false} StoreFields(fields: seq<Field>)
    requires AllReadable(fields) && Ordered(fields)
    ensures Store(WordsOf(fields), RUN_OPTIONS) == Some(ValuesOf(fields))
  {
    if fields != [] {
      var n := |fields| - 1;
      var init := fields[..n];
      StoreFields(init);
      RanksBelow(init, Rank(fields[n].name));
      StoreOneMore(WordsOf(init), ValuesOf(init), fields[n]);
    }
  }

  lemma StoreOneMore(tokens: seq<string>, values: Values, field: Field)
    requires field.Readable() && field.name !in values && Store(tokens, RUN_OPTIONS) == Some(values)
    ensures Store(tokens + [field.Word()], RUN_OPTIONS) == Some(values[field.name := field.value])
  {
    TokenParses(field);
    assert (tokens + [field.Word()])[..|tokens|] == tokens;
  }

  lemma {:induction false} ValuesJoin(a: seq<Field>, b: seq<Field>)
    ensures ValuesOf(a + b) == ValuesOf(a) + ValuesOf(b)
    decreases |b|
  {
    if b == [] {
      assert a + b == a;
    } else {
      ValuesJoin(a, b[..|b| - 1]);
      assert (a + b)[..|a + b| - 1] == a + b[..|b| - 1];
    }
  }

  lemma ValuesOfOne(f: Field)
    ensures ValuesOf([f]) == map[f.name := f.value]
  {
  }

  lemma ValuesOfMore(fields: seq<Field>, f: Field)
    ensures ValuesOf(fields + [f]) == ValuesOf(fields)[f.name := f.value]
  {
    assert (fields + [f])[..|fields|] == fields;
  }

  lemma ValuesOfFive(a: Field, b: Field, c: Field, d: Field, e: Field)
    ensures ValuesOf([a, b, c, d, e]) ==
              map[a.name := a.value, b.name := b.value, c.name := c.value, d.name := d.value, e.name := e.value]
  {
    hide ValuesOf;
    ValuesOfOne(a);
    ValuesOfMore([a], b);
    assert [a] + [b] == [a, b];
    ValuesOfMore([a, b], c);
    assert [a, b] + [c] == [a, b, c];
    ValuesOfMore([a, b, c], d);
    assert [a, b, c] + [d] == [a, b, c, d];
    ValuesOfMore([a, b, c, d], e);
    assert [a, b, c, d] + [e] == [a, b, c, d, e];
  }

  lemma RequiredMean(s: ServiceRecord, p: Paths)
    ensures ValuesOf(RequiredFields(s, p)) ==
              map["frequency" := Print(s.frequencyMs), "command" := s.command, "pid-file" := p.pidFile,
                  "service-name" := s.name, "data-dir" := p.dataDir]
  {
    hide ValuesOf, Print;
    var f := RequiredFields(s, p);
    ValuesOfFive(f[0], f[1], f[2], f[3], f[4]);
    assert f == [f[0], f[1], f[2], f[3], f[4]];
  }

  /** The options of a launched daemon as one table. */
  function DaemonValues(s: ServiceRecord, p: Paths): Values {
    map["frequency" := Print(s.frequencyMs), "command" := s.command, "pid-file" := p.pidFile,
        "service-name" := s.name, "data-dir" := p.dataDir]
    + (if s.synchronous then map[] else map["synchronous" := "false"])
    + (if Jittered(s) then map["jitter" := Print(s.jitterMs), "jitter-distribution" := s.jitterDistribution]
       else map[])
    + (if Probabilistic(s) then map["fire-probability" := Numbers.Print(s.fireProbability)] else map[])
  }

  lemma FieldsAsTable(s: ServiceRecord, p: Paths)
    ensures ValuesOf(Fields(s, p)) == DaemonValues(s, p)
  {
    var a, b, c, d := RequiredFields(s, p), SynchronousFields(s), JitterFields(s), ProbabilityFields(s);
    RequiredMean(s, p);
    OptionalMean(s);
    ValuesJoin(a, b);
    ValuesJoin(a + b, c);
    ValuesJoin(a + b + c, d);
  }

  lemma RequiredInTable(s: ServiceRecord, p: Paths)
    ensures var v := DaemonValues(s, p);
            && "help" !in v && "frequency" in v && "command" in v
            && v["frequency"] == Print(s.frequencyMs) && v["command"] == s.command
  {
  }

  lemma PathsInTable(s: ServiceRecord, p: Paths)
    ensures var v := DaemonValues(s, p);
            && TextOf(v, "service-name", "") == s.name && TextOf(v, "data-dir", "") == p.dataDir
            && "pid-file" in v && v["pid-file"] == p.pidFile
  {
  }

  lemma SynchronousInTable(s: ServiceRecord, p: Paths)
    ensures TextOf(DaemonValues(s, p), "synchronous", "true") in TRUE_WORDS <==> s.synchronous
  {
  }

  lemma JitterLookup(s: ServiceRecord, p: Paths)
    ensures var v := DaemonValues(s, p);
            && ("jitter" in v <==> Jittered(s)) && ("jitter-distribution" in v <==> Jittered(s))
            && (Jittered(s) ==> v["jitter"] == Print(s.jitterMs) && v["jitter-distribution"] == s.jitterDistribution)
  {
  }

  lemma JitterInTable(s: ServiceRecord, p: Paths)
    requires Int32(s.jitterMs)
    ensures IntOf(DaemonValues(s, p), "jitter", 0) == Daemon(s, p).jitterMs
    ensures TextOf(DaemonValues(s, p), "jitter-distribution", "uniform") == Daemon(s, p).jitterDistribution
  {
    ParsePrint(s.jitterMs);
    JitterLookup(s, p);
  }

  lemma NumbersReread(v: real)
    ensures Numbers.Parse(Numbers.Print(v)).Some? && Numbers.Stored(Numbers.Parse(Numbers.Print(v)).value) == Reread(v)
  {
    hide Numbers.Stored, Numbers.Parse, Numbers.Print, Rounding.Rounded;
    Numbers.ParsePrint(v);
  }

  lemma ProbabilityLookup(s: ServiceRecord, p: Paths)
    ensures var v := DaemonValues(s, p);
            && ("fire-probability" in v <==> Probabilistic(s))
            && (Probabilistic(s) ==> v["fire-probability"] == Numbers.Print(s.fireProbability))
  {
  }

  lemma ProbabilityInTable(s: ServiceRecord, p: Paths)
    ensures NumberOf(DaemonValues(s, p), "fire-probability", 1.0) == Daemon(s, p).fireProbability
  {
    hide Numbers.Stored, Reread, Numbers.Parse, Numbers.Print;
    NumbersReread(s.fireProbability);
    ProbabilityLookup(s, p);
  }

  /** The table means the daemon's configuration. */
  lemma TableMeans(s: ServiceRecord, p: Paths)
    requires Int32(s.frequencyMs) && Int32(s.jitterMs)
    ensures RunConfig(DaemonValues(s, p), RUN) == Daemon(s, p)
  {
    RequiredInTable(s, p);
    PathsInTable(s, p);
    SynchronousInTable(s, p);
    JitterInTable(s, p);
    ProbabilityInTable(s, p);
    ParsePrint(s.frequencyMs);
  }

  lemma OptionalMean(s: ServiceRecord)
    ensures ValuesOf(SynchronousFields(s)) == if s.synchronous then map[] else map["synchronous" := "false"]
    ensures ValuesOf(JitterFields(s)) ==
              (if Jittered(s) then map["jitter" := Print(s.jitterMs), "jitter-distribution" := s.jitterDistribution]
               else map[])
    ensures ValuesOf(ProbabilityFields(s)) ==
              if Probabilistic(s) then map["fire-probability" := Numbers.Print(s.fireProbability)] else map[]
  {
  }

  lemma OrderedJoin(a: seq<Field>, b: seq<Field>, k: int)
    requires Ordered(a) && Ordered(b)
    requires forall i | 0 <= i < |a| :: Rank(a[i].name) < k
    requires forall i | 0 <= i < |b| :: Rank(b[i].name) >= k
    ensures Ordered(a + b)
  {
  }

  lemma FieldsOrdered(s: ServiceRecord, p: Paths)
    ensures Ordered(Fields(s, p))
  {
    var a, b, c, d := RequiredFields(s, p), SynchronousFields(s), JitterFields(s), ProbabilityFields(s);
    OrderedJoin(a, b, 5);
    OrderedJoin(a + b, c, 6);
    OrderedJoin(a + b + c, d, 8);
  }

  /** Shell and option parser on any launch line of safe, ordered options. */
  lemma LineParses(binary: string, fields: seq<Field>)
    requires AllQuotable(binary) && AllSafe(fields) && Ordered(fields)
    ensures var words := Words(Quoted(binary) + " run" + Shown(fields) + " &");
            && words.Complete? && |words.words| >= 2 && words.words[0] == binary && words.words[1] == "run"
            && Store(words.words[2..], RUN_OPTIONS) == Some(ValuesOf(fields))
  {
    ShellWords(binary, fields);
    SafeIsReadable(fields);
    StoreFields(fields);
    assert ([binary, "run"] + WordsOf(fields))[2..] == WordsOf(fields);
  }

  /** The program, given these words, runs as a daemon with this configuration. */
  predicate Accepts(binary: string, words: seq<string>, config: Config) {
    && words != [] && words[0] == binary && ParseArgs(words[1..]) == Ok(config)
    && (config.subcommand == RUN || config.subcommand == LEGACY)
  }

  /** The launch text is one command, and the program reads this configuration from its words. */
  predicate LaunchesAs(s: ServiceRecord, p: Paths, config: Config) {
    var line := Words(LaunchText(s, p));
    line.Complete? && Accepts(p.binary, line.words, config)
  }

  /** The shell may give the first command of the line these words. */
  predicate MayRun(site: Site, line: string, words: seq<string>) {
    match Words(line)
    case Complete(known) => words == known
    case Followed(known) => words == known && site.expands(line, words)
    case Cut(known) => known <= words && site.expands(line, words)
    case Unbalanced => false
  }

  /** The first command of a line may run the program as a daemon with this configuration. */
  ghost predicate Reads(site: Site, line: string, config: Config) {
    exists words: seq<string> :: MayRun(site, line, words) && Accepts(site.binary, words, config)
  }

  /** What the shell may run begins with the words that are known of the first command, and is just
      these words unless the line is cut short by an expansion or the like. */
  lemma KnownWordsRun(site: Site, line: string, words: seq<string>)
    requires MayRun(site, line, words)
    ensures !Words(line).Unbalanced? && Words(line).words <= words
    ensures !Words(line).Cut? ==> words == Words(line).words
    ensures !Words(line).Complete? ==> site.expands(line, words)
  {
    hide Words;
  }

  lemma LaunchIsRead(site: Site, s: ServiceRecord, p: Paths, config: Config)
    requires LaunchesAs(s, p, config) && site.binary == p.binary
    ensures Reads(site, LaunchText(s, p), config)
  {
    hide Words, LaunchText, Accepts;
    assert MayRun(site, LaunchText(s, p), Words(LaunchText(s, p)).words);
  }

  /** Launch round trip: shell, dispatcher and option parser together recover from the launch
      text the configuration that was stored, and no other. */
  lemma LaunchRoundTrip(s: ServiceRecord, p: Paths)
    requires Launchable(s, p)
    ensures LaunchesAs(s, p, Daemon(s, p))
    ensures forall site: Site, config | site.binary == p.binary ::
              Reads(site, LaunchText(s, p), config) <==> config == Daemon(s, p)
  {
    hide Words, Daemon, Fields, DaemonValues;
    FieldsSafe(s, p);
    FieldsOrdered(s, p);
    LineParses(p.binary, Fields(s, p));
    FieldsAsTable(s, p);
    RequiredInTable(s, p);
    TableMeans(s, p);
    RunDispatch(Words(LaunchText(s, p)).words);
    forall site: Site, config | site.binary == p.binary
      ensures Reads(site, LaunchText(s, p), config) <==> config == Daemon(s, p)
    {
      assert MayRun(site, LaunchText(s, p), Words(LaunchText(s, p)).words);
    }
  }

  lemma RunDispatch(words: seq<string>)
    requires |words| >= 2 && words[1] == "run"
    ensures ParseArgs(words[1..]) == RunOutput(words[2..], RUN)
  {
    assert words[1..][1..] == words[2..];
    assert SUBCOMMANDS["run"] == RUN;
  }

  function Stored(s: ServiceRecord): Timing {
    Timing(s.frequencyMs, s.jitterMs, s.jitterDistribution, s.fireProbability)
  }

  /** What the executor of a configuration is told about timing. */
  function TimingOf(c: Config): Timing {
    Timing(c.frequency, c.jitterMs, c.jitterDistribution, c.fireProbability)
  }

  function Launched(s: ServiceRecord, p: Paths): Timing {
    TimingOf(Daemon(s, p))
  }

  /** What a configuration means for the waits and the executions of its daemon. */
  lemma TimingMeans(c: Config, delay: int, k: nat, n: nat)
    requires Int32(c.frequency) && Int32(c.jitterMs) && c.frequency >= 1 && n > 0 && k <= n
    ensures c.jitterMs <= 0 ==> (PossibleDelay(TimingOf(c), delay) <==> delay == c.frequency)
    ensures c.jitterMs > 0 && c.frequency + c.jitterMs <= INT_MAX ==>
              (PossibleDelay(TimingOf(c), delay) <==>
                 Max(1, c.frequency - c.jitterMs) <= delay <= c.frequency + c.jitterMs)
    ensures c.fireProbability == k as real / n as real ==> FireCount(TimingOf(c).probability, n, n) == k
    ensures TimingOf(c).distribution == c.jitterDistribution
  {
    hide PossibleDelay, FireCount, Max;
    if c.jitterMs <= 0 {
      DelayWithoutJitter(TimingOf(c), delay);
    } else {
      PossibleDelays(TimingOf(c));
    }
    FiresInProportion(k, n);
  }

  /** Leaving out a jitter that is not positive, together with its distribution, does not
      change the set of possible delays. */
  lemma DelaysPreserved(s: ServiceRecord, p: Paths, delay: int)
    ensures PossibleDelay(Stored(s), delay) <==> PossibleDelay(Launched(s, p), delay)
  {
    if Jittered(s) {
      assert forall draw :: PossibleDraw(Stored(s), draw) == PossibleDraw(Launched(s, p), draw);
      assert forall draw :: Delay(Stored(s), draw) == Delay(Launched(s, p), draw);
    } else {
      DelayWithoutJitter(Stored(s), delay);
      DelayWithoutJitter(Launched(s, p), delay);
    }
  }

  ghost predicate FiringPreserved(s: ServiceRecord, p: Paths) {
    forall draw | UnitDraw(draw) :: Fires(Stored(s).probability, draw) == Fires(Launched(s, p).probability, draw)
  }

  /** The launched daemon makes the stored record's firing decision for every draw exactly when
      the probability is at least 1, at most 0, or the double of some decimal with at most six
      significant digits. */
  lemma FiringPreservedIff(s: ServiceRecord, p: Paths)
    ensures FiringPreserved(s, p) <==>
              || s.fireProbability >= 1.0 || s.fireProbability <= 0.0
              || exists t: real :: Rounding.Representable(t, Rounding.SIX_DIGITS) &&
                                   Rounding.Rounded(t, Rounding.DOUBLE) == s.fireProbability
  {
    hide Rounding.Rounded, Rounding.Representable;
    var x, y := s.fireProbability, Launched(s, p).probability;
    if Probabilistic(s) {
      assert y == Reread(x);
      Rounding.ReadBackIff(x);
      Rounding.RoundedSign(x, Rounding.SIX_DIGITS);
      Rounding.RoundedSign(Rounding.Rounded(x, Rounding.SIX_DIGITS), Rounding.DOUBLE);
      if x > 0.0 && x != y {
        var draw := if x < y then x else y;
        assert UnitDraw(draw) && Fires(x, draw) != Fires(y, draw);
      }
    }
  }

  /** The program reads this very command from the words of the line's first command. */
  predicate CommandRead(words: seq<string>, command: string) {
    words != [] && ParseArgs(words[1..]).Ok? && ParseArgs(words[1..]).config.command == command
  }

  /** The daemon certainly runs the stored command. */
  predicate Intact(s: ServiceRecord, p: Paths) {
    var line := Words(LaunchText(s, p));
    line.Complete? && CommandRead(line.words, s.command)
  }

  /** The daemon certainly does not run the stored command, however the first command of the line
      goes on: the shell rejects the line, or the program the words, or the command is another. */
  ghost predicate Altered(s: ServiceRecord, p: Paths) {
    match Words(LaunchText(s, p))
    case Complete(words) => !CommandRead(words, s.command)
    case Followed(words) => !CommandRead(words, s.command)
    case Cut(words) => forall more: seq<string> :: !CommandRead(words + more, s.command)
    case Unbalanced => true
  }

  lemma CommandToken(value: string)
    ensures var token := ParseToken("--command=" + value, RUN_OPTIONS);
            if value == "" then token.None? else token == Some(("command", value))
  {
    RequiredNames();
    assert "--command=" + value == "--" + "command" + "=" + value;
    TokenShape("command", value);
  }

  /** Whatever follows, a fourth word that gives another command is not this command. */
  lemma AnotherCommand(words: seq<string>, value: string, command: string)
    requires |words| >= 4 && words[1] == "run" && words[3] == "--command=" + value && value != command && command != ""
    ensures !CommandRead(words, command)
  {
    hide Store, ParseToken;
    RunDispatch(words);
    var tokens := words[2..];
    assert tokens[1] == words[3];
    if RunOutput(tokens, RUN).Ok? {
      AcceptedToken(tokens, RUN_OPTIONS, 1);
      CommandToken(value);
      StoredAsGiven(tokens, RUN_OPTIONS, 1, "command", value);
    }
  }

  /** The text after the opening quote of the command. */
  function AfterCommand(s: ServiceRecord, p: Paths): string {
    "\"" + Shown(Fields(s, p)[2..]) + " &"
  }

  lemma RegroupLine(a: string, b: string, f: string, g: string, rest: string, end: string)
    ensures a + b + (f + (g + rest)) + end == a + (b + (f + (g + (rest + end))))
  {
  }

  lemma RegroupCommand(start: string, quote: string, c: string, rest: string, end: string)
    ensures (start + (quote + c + quote)) + (rest + end) == start + (quote + (c + (quote + rest + end)))
  {
  }

  lemma FirstTwo(fields: seq<Field>)
    requires |fields| >= 2
    ensures Shown(fields) == fields[0].Show() + (fields[1].Show() + Shown(fields[2..]))
  {
  }

  lemma FirstTwoShow(s: ServiceRecord, p: Paths)
    ensures var f := Fields(s, p);
            && |f| >= 5 && f[0].Show() == " --frequency=" + Print(s.frequencyMs)
            && f[1].Show() == " --command=" + ("\"" + s.command + "\"")
  {
    hide Print;
    ShowPlain("frequency", Print(s.frequencyMs), " --frequency=");
  }

  lemma LaunchTextSplit(s: ServiceRecord, p: Paths)
    ensures LaunchText(s, p) == "\"" + p.binary + "\"" + (" run" + (" --frequency=" + Print(s.frequencyMs) +
                                (" --command=" + ("\"" + (s.command + AfterCommand(s, p))))))
  {
    hide Print, Shown, Fields, Field.Show;
    var f := Fields(s, p);
    FirstTwoShow(s, p);
    FirstTwo(f);
    var rest := Shown(f[2..]);
    RegroupLine(Quoted(p.binary), " run", f[0].Show(), f[1].Show(), rest, " &");
    RegroupCommand(" --command=", "\"", s.command, rest, " &");
  }

  lemma WordStarts(r: Reader, w: string)
    ensures r.EndWord().Add(w) == Reader(r.EndWord().words, Some(w))
  {
    assert "" + w == w;
  }

  lemma ScanOpening(rest: string, r: Reader)
    requires r.word.Some?
    ensures Scan("\"" + rest, Bare, r) == Scan(rest, InDouble, r)
  {
    assert ("\"" + rest)[1..] == rest && r.word.value + "" == r.word.value;
  }

  lemma ScanThreeWords(binary: string, frequency: string, rest: string)
    requires AllQuotable(binary) && AllPlain(frequency) && frequency != ""
    ensures
      Scan("\"" + binary + "\"" + (" run" + (" " + frequency + (" --command=" + rest))), Bare, Reader([], None)) ==
      Scan(rest, Bare, Reader([binary, "run", frequency], Some("--command=")))
  {
    hide Scan, Plain, QuotableAt;
    var third := " --command=" + rest;
    var second := " " + frequency + third;
    ScanQuoted(binary, " run" + second, Reader([], None));
    assert "" + binary == binary;
    var r1 := Reader([], Some(binary));
    PlainStarts(0);
    assert " run" + second == " " + "run" + second;
    ScanPlainWord("run", second, r1);
    WordStarts(r1, "run");
    var r2 := Reader([binary], Some("run"));
    assert r1.EndWord().Add("run") == r2;
    ScanPlainWord(frequency, third, r2);
    WordStarts(r2, frequency);
    var r3 := Reader([binary, "run"], Some(frequency));
    assert r2.EndWord().Add(frequency) == r3;
    assert third == " " + "--command=" + rest;
    ScanPlainWord("--command=", rest, r3);
    WordStarts(r3, "--command=");
    assert r3.EndWord().words == [binary, "run", frequency];
  }

  /** The scanner reaches the command with three words read and the fourth begun. */
  lemma ScanToCommand(s: ServiceRecord, p: Paths) returns (r: Reader)
    requires AllQuotable(p.binary)
    ensures Words(LaunchText(s, p)) == Scan(s.command + AfterCommand(s, p), InDouble, r)
    ensures r == Reader([p.binary, "run", "--frequency=" + Print(s.frequencyMs)], Some("--command="))
  {
    hide Scan, Print, AfterCommand, Plain, QuotableAt, LaunchText;
    var frequency, tail := "--frequency=" + Print(s.frequencyMs), s.command + AfterCommand(s, p);
    r := Reader([p.binary, "run", frequency], Some("--command="));
    LaunchTextSplit(s, p);
    PlainStarts(s.frequencyMs);
    assert " --frequency=" + Print(s.frequencyMs) == " " + frequency;
    ScanThreeWords(p.binary, frequency, "\"" + tail);
    ScanOpening(tail, r);
  }

  lemma PlainStarts(n: int)
    ensures AllPlain("--frequency=" + Print(n)) && AllPlain("--command=") && AllPlain("run")
  {
  }

  lemma {:induction false} ShownLiteral(fields: seq<Field>)
    requires AllSafe(fields)
    ensures Literal(Shown(fields))
    decreases |fields|
  {
    if fields != [] {
      ShownLiteral(fields[1..]);
      FieldLiteral(fields[0]);
      LiteralJoin(fields[0].Show(), Shown(fields[1..]));
    }
  }

  lemma LiteralJoin(a: string, b: string)
    requires Literal(a) && Literal(b)
    ensures Literal(a + b)
  {
  }

  lemma PlainOrQuotableLiteral(s: string)
    requires AllPlain(s) || AllQuotable(s)
    ensures Literal(s)
  {
    forall i: nat | i < |s| ensures !Expands(s[i]) {
      assert if AllPlain(s) then Plain(s[i]) else QuotableAt(s, i);
    }
  }

  lemma FieldLiteral(f: Field)
    requires f.Safe()
    ensures Literal(f.Show())
  {
    PlainOrQuotableLiteral(f.name);
    PlainOrQuotableLiteral(f.value);
    LiteralJoin(" --", f.name);
    LiteralJoin(" --" + f.name, "=");
    LiteralJoin("\"", f.value);
    LiteralJoin("\"" + f.value, "\"");
    LiteralJoin(" --" + f.name + "=", if f.quoted then Quoted(f.value) else f.value);
  }

  /** What follows the first two options does not depend on the command. */
  lemma RestSafe(s: ServiceRecord, p: Paths)
    requires Launchable(s.(command := "true"), p)
    ensures |Fields(s, p)| >= 5 && AllSafe(Fields(s, p)[2..])
  {
    hide Launchable, Field.Safe;
    var plain := s.(command := "true");
    FieldsSafe(plain, p);
    assert Fields(plain, p)[2..] == Fields(s, p)[2..];
  }

  lemma RestStarts(fields: seq<Field>)
    requires fields != []
    ensures Shown(fields) != "" && Shown(fields)[0] == ' '
  {
  }

  lemma AfterCommandShape(s: ServiceRecord, p: Paths)
    requires Launchable(s.(command := "true"), p)
    ensures var rest := AfterCommand(s, p)[1..];
            AfterCommand(s, p) == "\"" + rest && rest != "" && rest[0] == ' ' && Literal(AfterCommand(s, p))
  {
    hide Fields, Shown, Launchable, Literal;
    RestSafe(s, p);
    var shown := Shown(Fields(s, p)[2..]);
    RestStarts(Fields(s, p)[2..]);
    ShownLiteral(Fields(s, p)[2..]);
    LiteralEnds();
    LiteralJoin("\"", shown);
    LiteralJoin("\"" + shown, " &");
    assert AfterCommand(s, p)[1..] == shown + " &";
  }

  lemma LiteralEnds()
    ensures Literal("\"") && Literal(" &")
  {
  }

  /** The command of a service is not escaped on the launch line. Among commands without dollar
      signs and backquotes the daemon certainly runs the stored one exactly when the command has
      no double quote and no backslash that would escape its successor (another backslash, a
      newline, or the closing quote), and certainly does not otherwise. */
  lemma CommandIntactIff(s: ServiceRecord, p: Paths)
    requires s.command != "" && Literal(s.command)
    requires Launchable(s.(command := "true"), p)
    ensures Intact(s, p) <==> AllQuotable(s.command)
    ensures Altered(s, p) <==> !AllQuotable(s.command)
  {
    if AllQuotable(s.command) {
      LaunchRoundTrip(s, p);
    } else {
      QuotedCommandAltered(s, p);
    }
  }

  lemma QuotedCommandAltered(s: ServiceRecord, p: Paths)
    requires s.command != "" && Literal(s.command) && !AllQuotable(s.command)
    requires Launchable(s.(command := "true"), p)
    ensures Altered(s, p) && !Intact(s, p)
  {
    hide Scan, LaunchText, Unquote, WordEnd, CommandRead, AfterCommand, Print, Fields;
    var r := ScanToCommand(s, p);
    AfterCommandShape(s, p);
    var rest := AfterCommand(s, p)[1..];
    var text := s.command + AfterCommand(s, p);
    assert text == s.command + "\"" + rest;
    UnquotableNeverSurvives(s.command, rest);
    LiteralJoin(s.command, AfterCommand(s, p));
    assert !AllDigits("--command=") by {
      assert !IsDigit("--command="[0]);
    }
    ScanNextWord(text, InDouble, r);
    var o := Words(LaunchText(s, p));
    if !o.Unbalanced? {
      var value := Unquote(text[..WordEnd(text, InDouble).value], InDouble);
      forall more: seq<string> ensures !CommandRead(o.words + more, s.command) {
        assert r.words + ["--command=" + value] <= o.words;
        AnotherCommand(o.words + more, value, s.command);
      }
      assert o.words + [] == o.words;
    }
  }

  lemma FieldsReadable(s: ServiceRecord, p: Paths)
    requires s.command != "" && Launchable(s.(command := "true"), p)
    ensures AllReadable(Fields(s, p))
  {
    hide Launchable, Field.Readable;
    var plain, f := s.(command := "true"), Fields(s, p);
    FieldsSafe(plain, p);
    RestSame(s, p, "true");
    assert f[1].Readable() by {
      CommandReadable(s.command);
    }
    assert forall k | 2 <= k < |f| :: f[k] == f[2..][k - 2];
    SafeIsReadable(Fields(plain, p));
  }

  lemma SafeIsReadable(fields: seq<Field>)
    requires AllSafe(fields)
    ensures AllReadable(fields)
  {
  }

  lemma CommandReadable(command: string)
    requires command != ""
    ensures Field("command", command, true).Readable()
  {
    RequiredNames();
  }

  /** All but the second option are the same for any command. */
  lemma RestSame(s: ServiceRecord, p: Paths, command: string)
    ensures var f, g := Fields(s, p), Fields(s.(command := command), p);
            |f| == |g| && |f| >= 5 && g[0] == f[0] && g[2..] == f[2..]
  {
    hide Print;
  }

  /** The words of a launch line whose command is escaped: those of a line with the command. */
  lemma EscapedWords(s: ServiceRecord, p: Paths, command: string)
    requires s.command == Escaped(command) && Launchable(s.(command := "true"), p)
    ensures Words(LaunchText(s, p)) == Complete([p.binary, "run"] + WordsOf(Fields(s.(command := command), p)))
  {
    hide Scan, LaunchText, Print, Shown, Escaped, Launchable, Field.Safe, AllSafe, Fields, WordsOf, AddWords;
    assert AllQuotable(p.binary) by {
      BinaryQuotable(s.(command := "true"), p);
    }
    var r := ScanToCommand(s, p);
    var f, g := Fields(s, p), Fields(s.(command := command), p);
    RestSafe(s, p);
    var rest := Shown(f[2..]) + " &";
    assert s.command + AfterCommand(s, p) == Escaped(command) + "\"" + rest;
    ScanEscaped(command, rest, r);
    var after := Reader([p.binary, "run", "--frequency=" + Print(s.frequencyMs)], Some("--command=" + command));
    ScanFields(f[2..], " &", after);
    ScanEnd(AddWords(f[2..], after));
    WordsAdded(f[2..], after);
    RestSame(s, p, command);
    assert g[1..][1..] == g[2..];
    WordsFront(g);
    WordsFront(g[1..]);
    CommandWords(s.(command := command), p);
    assert after.EndWord().words == [p.binary, "run"] + [g[0].Word()] + [g[1].Word()];
  }

  lemma CommandWords(s: ServiceRecord, p: Paths)
    ensures Fields(s, p)[0].Word() == "--frequency=" + Print(s.frequencyMs)
    ensures Fields(s, p)[1].Word() == "--command=" + s.command
  {
    hide Print;
    assert "--" + "frequency" + "=" == "--frequency=" && "--" + "command" + "=" == "--command=";
  }

  /** Every command at all can be made to arrive: if it was escaped when it was installed, the
      daemon runs the command that was escaped, with everything else as installed. */
  lemma EscapedCommandArrives(s: ServiceRecord, p: Paths, command: string)
    requires command != "" && s.command == Escaped(command) && Launchable(s.(command := "true"), p)
    ensures LaunchesAs(s, p, Daemon(s.(command := command), p))
  {
    hide Words, Daemon, Fields, DaemonValues, LaunchText, WordsOf;
    var meant := s.(command := command);
    EscapedWords(s, p, command);
    FieldsReadable(meant, p);
    FieldsOrdered(meant, p);
    StoreFields(Fields(meant, p));
    FieldsAsTable(meant, p);
    RequiredInTable(meant, p);
    assert Int32(s.frequencyMs) && Int32(s.jitterMs);
    TableMeans(meant, p);
    var words := [p.binary, "run"] + WordsOf(Fields(meant, p));
    RunDispatch(words);
    assert words[2..] == WordsOf(Fields(meant, p));
  }

  /** A command that ends its own quotes, goes on with the other options of a service's launch
      line, and hides what follows behind a comment sign. */
  function BreakOut(b: ServiceRecord, p: Paths): string {
    b.command + "\"" + Shown(Fields(b, p)[2..]) + " & #"
  }

  lemma RegroupBreakOut(head: string, c: string, f: string, rest: string, after: string)
    ensures head + " run" + (f + (" --command=" + ("\"" + c + "\"") + rest)) + (" & #" + after) ==
            head + (" run" + (f + (" --command=" + ("\"" + ((c + "\"" + rest + " & #") + after)))))
  {
  }

  lemma ScanComment(after: string, r: Reader)
    requires OneLine(after)
    ensures Scan(" & #" + after, Bare, r) == Complete(r.EndWord().words)
  {
    var s := " & #" + after;
    assert s[1..] == "& #" + after && s[1..][1..] == " #" + after && (" #" + after)[1..] == "#" + after;
    assert Comment("#" + after) && NothingMore(" #" + after);
    assert r.EndWord().EndWord() == r.EndWord();
  }

  predicate OneLine(s: string) {
    '\n' !in s
  }

  lemma {:induction false} ShownOneLine(fields: seq<Field>)
    requires forall k | 0 <= k < |fields| :: OneLine(fields[k].Show())
    ensures OneLine(Shown(fields))
  {
    if fields != [] {
      ShownOneLine(fields[1..]);
    }
  }

  lemma FieldOneLine(field: Field)
    requires OneLine(field.name) && OneLine(field.value)
    ensures OneLine(field.Show())
  {
  }

  lemma OneLineEnds(s: string)
    requires OneLine(s)
    ensures OneLine("\"" + s + " &")
  {
  }

  /** What follows the command of a service with plain settings. */
  lemma RestOneLine(s: ServiceRecord, p: Paths)
    requires s.synchronous && !Jittered(s) && !Probabilistic(s)
    requires OneLine(s.name) && OneLine(p.pidFile) && OneLine(p.dataDir)
    ensures OneLine(AfterCommand(s, p))
  {
    hide Shown, Field.Show, OneLine;
    var a, b, c := Field("pid-file", p.pidFile, true), Field("service-name", s.name, false),
                   Field("data-dir", p.dataDir, true);
    assert Fields(s, p)[2..] == [a, b, c];
    FieldOneLine(a);
    FieldOneLine(b);
    FieldOneLine(c);
    ShownOneLine([a, b, c]);
    OneLineEnds(Shown([a, b, c]));
  }

  /** With such a command, the launch line of any other service with this frequency starts the
      daemon of service b. */
  lemma CommandBreaksOut(a: ServiceRecord, pa: Paths, b: ServiceRecord, pb: Paths)
    requires Launchable(b, pb) && pa.binary == pb.binary && a.frequencyMs == b.frequencyMs
    requires a.command == BreakOut(b, pb) && OneLine(AfterCommand(a, pa))
    ensures LaunchesAs(a, pa, Daemon(b, pb))
  {
    hide Scan, LaunchText, Shown, Fields, Field.Show, Print, Words, Accepts, Daemon, Launchable, BreakOut;
    var f := Fields(b, pb);
    FirstTwoShow(b, pb);
    var rest := Shown(f[2..]);
    LaunchTextSplit(a, pa);
    FirstTwo(f);
    RegroupBreakOut(Quoted(pa.binary), b.command, f[0].Show(), rest, AfterCommand(a, pa));
    BreakOutIs(b, pb);
    FieldsSafe(b, pb);
    BinaryQuotable(b, pb);
    ScanOptions(pa.binary, f, " & #" + AfterCommand(a, pa));
    ScanComment(AfterCommand(a, pa), AfterOptions(pa.binary, f));
    ShellWords(pb.binary, f);
    LaunchTextIs(b, pb);
    LaunchRoundTrip(b, pb);
  }

  lemma BreakOutIs(b: ServiceRecord, p: Paths)
    ensures BreakOut(b, p) == b.command + "\"" + Shown(Fields(b, p)[2..]) + " & #"
  {
  }

  lemma BinaryQuotable(s: ServiceRecord, p: Paths)
    requires Launchable(s, p)
    ensures AllQuotable(p.binary)
  {
  }

  lemma LaunchTextIs(s: ServiceRecord, p: Paths)
    ensures LaunchText(s, p) == Quoted(p.binary) + " run" + Shown(Fields(s, p)) + " &"
  {
  }

  lemma InstallToken(name: string, value: string)
    requires '=' !in name && name in INSTALL_OPTIONS && !INSTALL_OPTIONS[name].Switch?
    requires value != "" && Converts(INSTALL_OPTIONS[name], value)
    ensures ParseToken("--" + name + "=" + value, INSTALL_OPTIONS) == Some((name, value))
  {
    TokenShape(name, value);
  }

  lemma InstallNames()
    ensures "frequency" in INSTALL_OPTIONS && INSTALL_OPTIONS["frequency"] == Int && '=' !in "frequency"
    ensures "command" in INSTALL_OPTIONS && INSTALL_OPTIONS["command"] == Text && '=' !in "command"
  {
  }

  lemma StoreTwo(first: string, second: string, m: string, v: string, n: string, w: string)
    requires ParseToken(first, INSTALL_OPTIONS) == Some((m, v))
        && ParseToken(second, INSTALL_OPTIONS) == Some((n, w)) && m != n
    ensures Store([first, second], INSTALL_OPTIONS) == Some(map[m := v, n := w])
  {
    hide ParseToken;
    assert [first][..0] == [];
    assert Store([first], INSTALL_OPTIONS) == Some(map[m := v]);
    assert [first, second][..1] == [first];
  }

  lemma InstallMeans(name: string, frequency: int, command: string, values: Values)
    requires Int32(frequency) && values == map["frequency" := Print(frequency), "command" := command]
    ensures RunConfig(values - {"pid-file", "service-name"}, INSTALL).(serviceName := name) ==
              InstalledWith(name, frequency, command)
  {
    hide Decimal.Parse, Print;
    ParsePrint(frequency);
    assert values - {"pid-file", "service-name"} == values;
  }

  /** `install` with a frequency and any command at all is accepted. */
  lemma InstallAccepts(name: string, frequency: int, command: string)
    requires !Dashed(name) && Int32(frequency) && command != ""
    ensures ParseArgs(["install", name] + ["--frequency=" + Print(frequency), "--command=" + command]) ==
              Ok(InstalledWith(name, frequency, command))
  {
    hide Print, Store, RunConfig, ParseToken;
    var first, second := "--frequency=" + Print(frequency), "--command=" + command;
    assert "--" + "frequency" + "=" + Print(frequency) == first && "--" + "command" + "=" + command == second;
    InstallNames();
    ParsePrint(frequency);
    PrintNotEmpty(frequency);
    InstallToken("frequency", Print(frequency));
    InstallToken("command", command);
    StoreTwo(first, second, "frequency", Print(frequency), "command", command);
    InstallMeans(name, frequency, command, map["frequency" := Print(frequency), "command" := command]);
    InstallDispatched([first, second], name);
  }

  lemma InstallDispatched(tokens: seq<string>, name: string)
    requires !Dashed(name)
    ensures ParseArgs(["install", name] + tokens) == InstallOutput(tokens, name)
  {
    var args := ["install", name] + tokens;
    assert args[1..] == [name] + tokens && ([name] + tokens)[1..] == tokens;
    assert SUBCOMMANDS["install"] == INSTALL && !Dashed("install");
  }

  lemma PrintNotEmpty(n: int)
    ensures Print(n) != ""
  {
  }

  function InstalledWith(name: string, frequency: int, command: string): Config {
    DEFAULT.(subcommand := INSTALL, serviceName := name, frequency := frequency, command := command)
  }

  lemma {:induction false} StoredConverts(tokens: seq<string>, options: OptionTable, name: string)
    requires Store(tokens, options).Some? && name in Store(tokens, options).value
    requires name in options && (options[name] == Int || options[name] == Text || options[name] == Double)
    ensures var value := Store(tokens, options).value[name]; value != "" && Converts(options[name], value)
  {
    var last := ParseToken(tokens[|tokens| - 1], options).value;
    if last.0 != name {
      StoredConverts(tokens[..|tokens| - 1], options, name);
    }
  }

  /** What the option parser guarantees about every configuration it accepts for `install`. */
  lemma InstalledConfig(tokens: seq<string>, name: string)
    requires InstallOutput(tokens, name).Ok?
    ensures var c := InstallOutput(tokens, name).config;
            && c.serviceName == name && c.command != "" && c.jitterDistribution != ""
            && Int32(c.frequency) && Int32(c.jitterMs)
  {
    var values := Store(tokens, INSTALL_OPTIONS).value;
    StoredConverts(tokens, INSTALL_OPTIONS, "command");
    StoredConverts(tokens, INSTALL_OPTIONS, "frequency");
    if "jitter" in values {
      StoredConverts(tokens, INSTALL_OPTIONS, "jitter");
    }
    if "jitter-distribution" in values {
      StoredConverts(tokens, INSTALL_OPTIONS, "jitter-distribution");
    }
  }

  lemma InstallDispatch(tokens: seq<string>, name: string)
    requires ParseArgs(["install", name] + tokens).Ok?
    ensures ParseArgs(["install", name] + tokens) == InstallOutput(tokens, name)
  {
    var args := ["install", name] + tokens;
    assert args[1..] == [name] + tokens;
    assert SUBCOMMANDS["install"] == INSTALL && !Dashed("install");
    InstallDispatched(tokens, name);
  }

  lemma QuotableJoin(a: string, b: string)
    requires AllQuotable(a) && AllQuotable(b)
    ensures AllQuotable(a + b)
  {
    forall i: nat | i < |a + b| ensures QuotableAt(a + b, i) {
      assert if i < |a| then QuotableAt(a, i) else QuotableAt(b, i - |a|);
    }
  }

  lemma PathQuotable(dir: string, name: string)
    requires AllQuotable(dir) && AllQuotable(name) && name != ""
    ensures AllQuotable(Join(dir, name)) && Join(dir, name) != ""
  {
    hide QuotableAt;
    assert AllQuotable("/") by {
      SlashQuotable();
    }
    QuotableJoin(dir, "/");
    QuotableJoin(dir, name);
    QuotableJoin(dir + "/", name);
  }

  lemma SlashQuotable()
    ensures AllQuotable("/")
  {
  }

  lemma PlainIsQuotable(s: string)
    requires AllPlain(s)
    ensures AllQuotable(s)
  {
  }

  lemma PidTextQuotable(site: Site, name: string)
    requires AllQuotable(site.dataDir) && AllPlain(name)
    ensures AllQuotable(PidText(site, name)) && PidText(site, name) != ""
  {
    PlainIsQuotable(name);
    QuotableJoin(name, ".pid");
    PathQuotable(site.dataDir, "pids");
    PathQuotable(Join(site.dataDir, "pids"), name + ".pid");
  }

  /** From the words of an `install` command to the daemon of a `start` command: whatever
      options were given, if quoted parts have no special characters and unquoted ones are
      plain, the daemon has the installed frequency, command, synchronous flag and jitter, the
      probability as it is read back, and the files of its own service. */
  lemma InstallThenLaunch(site: Site, tokens: seq<string>, name: string, now: string) returns (d: Config)
    requires ParseArgs(["install", name] + tokens).Ok?
    requires AllPlain(name) && name != ""
    requires AllQuotable(ParseArgs(["install", name] + tokens).config.command)
    requires AllPlain(ParseArgs(["install", name] + tokens).config.jitterDistribution)
    requires AllQuotable(site.binary) && AllQuotable(site.dataDir) && site.dataDir != ""
    ensures var c := ParseArgs(["install", name] + tokens).config;
            && c.subcommand == INSTALL && c.serviceName == name && OptionsRead(tokens, c)
            && LaunchesAs(RecordOf(c, now), PathsFor(site, name), d)
            && d.subcommand == RUN
            && d.frequency == c.frequency && d.command == c.command && d.synchronous == c.synchronous
            && (if c.jitterMs > 0 then d.jitterMs == c.jitterMs && d.jitterDistribution == c.jitterDistribution
                else d.jitterMs == 0)
            && d.fireProbability == (if c.fireProbability < 1.0 then Reread(c.fireProbability) else 1.0)
            && d.serviceName == name && d.dataDir == site.dataDir
            && d.hasPidFile && d.pidFilename == PidText(site, name) && Resolve(d.pidFilename) == PidFile(site, name)
            && LogPlace(Join(d.dataDir, "logs"), d.serviceName) == LogOf(site, name)
            && d.logMaxSizeMb == 10 && d.logMaxFiles == 5
  {
    hide Reread, PidText, LaunchesAs, OptionsRead;
    InstallDispatch(tokens, name);
    InstallReads(tokens, name);
    InstalledConfig(tokens, name);
    var record, paths := RecordOf(InstallOutput(tokens, name).config, now), PathsFor(site, name);
    PidTextQuotable(site, name);
    assert Launchable(record, paths);
    LaunchRoundTrip(record, paths);
    d := Daemon(record, paths);
  }

  lemma {:induction false} ShownJoin(a: seq<Field>, b: seq<Field>)
    ensures Shown(a + b) == Shown(a) + Shown(b)
    decreases |a|
  {
    if a == [] {
      assert a + b == b;
      assert "" + Shown(b) == Shown(b);
    } else {
      ShownJoin(a[1..], b);
      assert (a + b)[1..] == a[1..] + b;
      assert a[0].Show() + (Shown(a[1..]) + Shown(b)) == (a[0].Show() + Shown(a[1..])) + Shown(b);
    }
  }

  lemma ShownOne(f: Field)
    ensures Shown([f]) == f.Show()
  {
  }

  lemma ShownMore(fields: seq<Field>, f: Field)
    ensures Shown(fields + [f]) == Shown(fields) + f.Show()
  {
    ShownJoin(fields, [f]);
    ShownOne(f);
  }

  lemma ShowPlain(name: string, value: string, start: string)
    requires start == " --" + name + "="
    ensures Field(name, value, false).Show() == start + value
  {
  }

  lemma ShowQuoted(name: string, value: string, start: string)
    requires start == " --" + name + "=\""
    ensures Field(name, value, true).Show() == start + value + "\""
  {
  }

  /** One insertion into the string stream: the text grows by one option. */
  method Insert(text: string, piece: string, ghost head: string, ghost fields: seq<Field>, ghost field: Field)
    returns (longer: string)
    requires text == head + Shown(fields) && piece == field.Show()
    ensures longer == head + Shown(fields + [field])
  {
    ShownMore(fields, field);
    longer := text + piece;
  }

  method InsertPlain(text: string, start: string, value: string, ghost head: string, ghost fields: seq<Field>,
      ghost name: string)
    returns (longer: string)
    requires text == head + Shown(fields) && start == " --" + name + "="
    ensures longer == head + Shown(fields + [Field(name, value, false)])
  {
    ShowPlain(name, value, start);
    longer := Insert(text, start + value, head, fields, Field(name, value, false));
  }

  method InsertQuoted(text: string, start: string, value: string, ghost head: string, ghost fields: seq<Field>,
      ghost name: string)
    returns (longer: string)
    requires text == head + Shown(fields) && start == " --" + name + "=\""
    ensures longer == head + Shown(fields + [Field(name, value, true)])
  {
    ShowQuoted(name, value, start);
    longer := Insert(text, start + value + "\"", head, fields, Field(name, value, true));
  }

  /** The text `start` builds in its string stream, option by option. */
  method CommandText(s: ServiceRecord, p: Paths) returns (text: string)
    ensures text == LaunchText(s, p)
  {
    text := "\"" + p.binary + "\"" + " run";
    ghost var head := text;
    assert text == head + Shown([]);
    text := RequiredText(s, p, text);
    ghost var f := RequiredFields(s, p);
    text := SynchronousText(s, text, head, f);
    f := f + SynchronousFields(s);
    text := JitterText(s, text, head, f);
    f := f + JitterFields(s);
    text := ProbabilityText(s, text, head, f);
    text := text + " &";
  }

  method SynchronousText(s: ServiceRecord, start: string, ghost head: string, ghost f: seq<Field>)
      returns (text: string)
    requires start == head + Shown(f)
    ensures text == head + Shown(f + SynchronousFields(s))
  {
    text := start;
    assert f + [] == f;
    if !s.synchronous {
      text := InsertPlain(text, " --synchronous=", "false", head, f, "synchronous");
    }
  }

  method JitterText(s: ServiceRecord, start: string, ghost head: string, ghost f: seq<Field>) returns (text: string)
    requires start == head + Shown(f)
    ensures text == head + Shown(f + JitterFields(s))
  {
    text := start;
    if s.jitterMs > 0 {
      text := TwoOptions(text, Print(s.jitterMs), s.jitterDistribution, head, f);
    } else {
      assert f + [] == f;
    }
  }

  method TwoOptions(start: string, jitter: string, distribution: string, ghost head: string, ghost f: seq<Field>)
    returns (text: string)
    requires start == head + Shown(f)
    ensures text == head + Shown(f + [Field("jitter", jitter, false),
        Field("jitter-distribution", distribution, false)])
  {
    ghost var one, two := Field("jitter", jitter, false), Field("jitter-distribution", distribution, false);
    text := InsertPlain(start, " --jitter=", jitter, head, f, "jitter");
    text := InsertPlain(text, " --jitter-distribution=", distribution, head, f + [one], "jitter-distribution");
    assert (f + [one]) + [two] == f + [one, two];
  }

  lemma ProbabilityStart()
    ensures " --" + "fire-probability" + "=" == " --fire-probability="
  {
  }

  method ProbabilityText(s: ServiceRecord, start: string, ghost head: string, ghost f: seq<Field>)
      returns (text: string)
    requires start == head + Shown(f)
    ensures text == head + Shown(f + ProbabilityFields(s))
  {
    text := start;
    ProbabilityStart();
    if Probabilistic(s) {
      text := InsertPlain(text, " --fire-probability=", Numbers.Print(s.fireProbability), head, f, "fire-probability");
    } else {
      assert f + [] == f;
    }
  }

  lemma ShownNothing()
    ensures Shown([]) == ""
  {
  }

  method RequiredText(s: ServiceRecord, p: Paths, head: string) returns (text: string)
    ensures text == head + Shown(RequiredFields(s, p))
  {
    hide Shown;
    ghost var f := RequiredFields(s, p);
    assert Shown(f[..0]) == "" by {
      ShownNothing();
    }
    text := head;
    assert text == head + Shown(f[..0]);
    text := InsertPlain(text, " --frequency=", Print(s.frequencyMs), head, f[..0], "frequency");
    assert f[..0] + [f[0]] == f[..1];
    text := InsertQuoted(text, " --command=\"", s.command, head, f[..1], "command");
    assert f[..1] + [f[1]] == f[..2];
    text := InsertQuoted(text, " --pid-file=\"", p.pidFile, head, f[..2], "pid-file");
    assert f[..2] + [f[2]] == f[..3];
    text := RequiredTextEnd(s, p, text, head);
  }

  method RequiredTextEnd(s: ServiceRecord, p: Paths, start: string, ghost head: string) returns (text: string)
    requires start == head + Shown(RequiredFields(s, p)[..3])
    ensures text == head + Shown(RequiredFields(s, p))
  {
    hide Shown, Print;
    ghost var f := RequiredFields(s, p);
    assert f[..3] + [f[3]] == f[..4] && f[..4] + [f[4]] == f;
    text := InsertPlain(start, " --service-name=", s.name, head, f[..3], "service-name");
    text := InsertQuoted(text, " --data-dir=\"", p.dataDir, head, f[..4], "data-dir");
  }
}
