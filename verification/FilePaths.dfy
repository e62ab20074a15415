/** Paths as the operating system resolves them, when the directories they go through exist and
    none is a symbolic link; and the files the program keeps for a service. */
module FilePaths {
  /** An absolute path without empty, "." and ".." parts. */
  type Path = seq<string>

  predicate SlashFree(s: string) {
    '/' !in s
  }

  /** The parts between slashes; there is always a last one, perhaps empty. */
  function Split(s: string): (parts: seq<string>)
    ensures |parts| >= 1
    ensures SlashFree(parts[|parts| - 1])
  {
    if s == "" then [""]
    else
      var (before, c) := (Split(s[..|s| - 1]), s[|s| - 1]);
      var k := |before| - 1;
      if c == '/' then before + [""] else before[..k] + [before[k] + [c]]
  }

  function Enter(dir: Path, part: string): Path {
    if part == "" || part == "." then dir
    else if part == ".." then (if dir == [] then [] else dir[..|dir| - 1])
    else dir + [part]
  }

  function Walk(parts: seq<string>): Path {
    if parts == [] then [] else Enter(Walk(parts[..|parts| - 1]), parts[|parts| - 1])
  }

  function Resolve(s: string): Path {
    Walk(Split(s))
  }

  /** operator/ of std::filesystem::path: an absolute right-hand side replaces the left one. */
  function Join(dir: string, name: string): string {
    if name != "" && name[0] == '/' then name
    else if dir == "" || dir[|dir| - 1] == '/' then dir + name
    else dir + "/" + name
  }

  /** A directory, and the text of the last part of a path. */
  datatype Place = Place(dir: Path, last: string)

  function PlaceOf(s: string): Place {
    var parts := Split(s);
    Place(Walk(parts[..|parts| - 1]), parts[|parts| - 1])
  }

  lemma SplitSnoc(s: string, c: char)
    requires c != '/'
    ensures var parts, k := Split(s), |Split(s)| - 1; Split(s + [c]) == parts[..k] + [parts[k] + [c]]
  {
  }

  lemma {:induction false} SplitAppend(s: string, t: string)
    requires SlashFree(t)
    ensures var parts, k := Split(s), |Split(s)| - 1;
            Split(s + t) == parts[..k] + [parts[k] + t]
  {
    hide Split;
    var parts, k := Split(s), |Split(s)| - 1;
    if t == "" {
      assert s + t == s && parts[k] + t == parts[k];
    } else {
      var init, c := t[..|t| - 1], t[|t| - 1];
      SplitAppend(s, init);
      SplitSnoc(s + init, c);
      assert s + t == s + init + [c];
      var last := parts[k] + init;
      assert last + [c] == parts[k] + t;
      assert (parts[..k] + [last])[..k] == parts[..k];
    }
  }

  /** A longer suffix without a slash stays in the last part, which is then no "." or "..". */
  lemma ResolveSuffixed(s: string, suffix: string)
    requires SlashFree(suffix) && |suffix| > 2
    ensures Resolve(s + suffix) == PlaceOf(s).dir + [PlaceOf(s).last + suffix]
  {
    hide Split;
    SplitAppend(s, suffix);
    var parts, k := Split(s), |Split(s)| - 1;
    var longer := parts[..k] + [parts[k] + suffix];
    assert longer[..|longer| - 1] == parts[..k];
  }

  lemma JoinSuffixed(dir: string, name: string, suffix: string)
    requires suffix != "" && (suffix[0] != '/' || name != "")
    ensures Join(dir, name + suffix) == Join(dir, name) + suffix
  {
    if name == "" || name[0] != '/' {
      assert dir + (name + suffix) == dir + name + suffix;
      assert dir + "/" + (name + suffix) == dir + "/" + name + suffix;
    }
  }

  /** The text ends in a slash, or is empty: a name can follow. */
  lemma PlaceInside(dir: string, name: string)
    requires SlashFree(name) && (dir == "" || dir[|dir| - 1] == '/')
    ensures PlaceOf(dir + name) == Place(Resolve(dir), name)
  {
    SplitAppend(dir, name);
    var parts, k := Split(dir), |Split(dir)| - 1;
    assert parts[k] == "" && "" + name == name;
    assert (parts[..k] + [name])[..k] == parts[..k];
  }

  lemma ResolveWithSlash(dir: string)
    ensures Resolve(dir + "/") == Resolve(dir)
  {
  }

  /** A name without a slash stays in the directory. */
  lemma PlainPlace(dir: string, name: string)
    requires SlashFree(name)
    ensures PlaceOf(Join(dir, name)) == Place(Resolve(dir), name)
  {
    hide Split, Walk;
    if dir == "" || dir[|dir| - 1] == '/' {
      PlaceInside(dir, name);
    } else {
      PlaceInside(dir + "/", name);
      ResolveWithSlash(dir);
    }
  }

  lemma ResolveLast(s: string)
    ensures Resolve(s) == Enter(PlaceOf(s).dir, PlaceOf(s).last)
  {
  }

  lemma JoinTwice(dir: string, name: string)
    requires SlashFree(name)
    ensures Join(Join(dir, "."), name) == Join(dir, "./" + name)
  {
    var here := Join(dir, ".");
    assert "./" + name == "." + "/" + name && here[|here| - 1] == '.';
    if dir == "" || dir[|dir| - 1] == '/' {
      assert here == dir + ".";
      assert here + "/" + name == dir + ("./" + name);
    } else {
      assert here == dir + "/" + ".";
      assert here + "/" + name == dir + "/" + ("./" + name);
    }
  }

  /** Two different names may denote one place. */
  lemma DotSlashAliases(dir: string, name: string)
    requires SlashFree(name)
    ensures PlaceOf(Join(dir, "./" + name)) == PlaceOf(Join(dir, name)) && "./" + name != name
  {
    hide Resolve, PlaceOf, Join;
    var here := Join(dir, ".");
    PlainPlace(dir, name);
    PlainPlace(dir, ".");
    ResolveLast(here);
    PlainPlace(here, name);
    JoinTwice(dir, name);
    assert |"./" + name| == |name| + 2;
  }

  /** Where an installation lives: the program, the data directory (an absolute path), the one
      that is used when none is given; and which words the shell may make of a line's first
      command where the line alone does not tell. */
  datatype Site = Site(binary: string, dataDir: string, defaultDir: string, expands: (string, seq<string>) -> bool)

  function PidText(site: Site, name: string): string {
    Join(Join(site.dataDir, "pids"), name + ".pid")
  }

  /** The PID file of a service. */
  function PidFile(site: Site, name: string): Path {
    Resolve(PidText(site, name))
  }

  function LogDir(site: Site): string {
    Join(site.dataDir, "logs")
  }

  /** The place whose last part is what the log file names of a service start with. */
  function LogPlace(logDir: string, name: string): Place {
    PlaceOf(Join(logDir, name))
  }

  function LogOf(site: Site, name: string): Place {
    LogPlace(LogDir(site), name)
  }

  lemma PidFileOfPlain(site: Site, name: string)
    requires SlashFree(name)
    ensures PidFile(site, name) == Resolve(Join(site.dataDir, "pids")) + [name + ".pid"]
  {
    var dir := Join(site.dataDir, "pids");
    JoinSuffixed(dir, name, ".pid");
    ResolveSuffixed(Join(dir, name), ".pid");
    PlainPlace(dir, name);
  }

  /** Services without a slash in their names never share a PID file or a log. */
  lemma PlainNamesApart(site: Site, m: string, n: string)
    requires SlashFree(m) && SlashFree(n) && m != n
    ensures PidFile(site, m) != PidFile(site, n) && LogOf(site, m) != LogOf(site, n)
  {
    hide Resolve, PlaceOf;
    PidFileOfPlain(site, m);
    PidFileOfPlain(site, n);
    var d := Resolve(Join(site.dataDir, "pids"));
    assert (d + [m + ".pid"])[|d|] == m + ".pid" && (d + [n + ".pid"])[|d|] == n + ".pid";
    assert (m + ".pid")[..|m|] == m && (n + ".pid")[..|n|] == n;
    PlainPlace(LogDir(site), m);
    PlainPlace(LogDir(site), n);
  }

  /** "./n" and n share both. */
  lemma DotSlashShares(site: Site, name: string)
    requires SlashFree(name)
    ensures "./" + name != name && PidFile(site, "./" + name) == PidFile(site, name)
    ensures LogOf(site, "./" + name) == LogOf(site, name)
  {
    var dir := Join(site.dataDir, "pids");
    DotSlashAliases(dir, name);
    DotSlashAliases(LogDir(site), name);
    JoinSuffixed(dir, name, ".pid");
    JoinSuffixed(dir, "./" + name, ".pid");
    ResolveSuffixed(Join(dir, name), ".pid");
    ResolveSuffixed(Join(dir, "./" + name), ".pid");
  }

  /** One more part of a path: nothing and "." stay, ".." goes up, and a name goes down. */
  lemma ResolveStep(dir: string, part: string)
    requires SlashFree(part)
    ensures part == "" || part == "." ==> Resolve(dir + "/" + part) == Resolve(dir)
    ensures part == ".." && Resolve(dir) != [] ==> Resolve(dir + "/" + part) == Resolve(dir)[..|Resolve(dir)| - 1]
    ensures part == ".." && Resolve(dir) == [] ==> Resolve(dir + "/" + part) == []
    ensures part !in {"", ".", ".."} ==> Resolve(dir + "/" + part) == Resolve(dir) + [part]
  {
    hide Split, Walk;
    PlaceInside(dir + "/", part);
    ResolveWithSlash(dir);
    ResolveLast(dir + "/" + part);
  }

  /** A name without a slash in a directory. */
  lemma ResolveJoin(dir: string, name: string)
    requires SlashFree(name) && name !in {"", ".", ".."}
    ensures Resolve(Join(dir, name)) == Resolve(dir) + [name]
  {
    hide Resolve, PlaceOf;
    PlainPlace(dir, name);
    ResolveLast(Join(dir, name));
  }

  /** Going down and up again: m/../n is another name for n. */
  lemma DotDotShares(site: Site, m: string, n: string)
    requires SlashFree(m) && m !in {"", ".", ".."} && SlashFree(n)
    ensures m + "/../" + n != n && PidFile(site, m + "/../" + n) == PidFile(site, n)
    ensures LogOf(site, m + "/../" + n) == LogOf(site, n)
  {
    hide Resolve, PlaceOf;
    var dir, long := Join(site.dataDir, "pids"), m + "/../" + n;
    assert |long| > |n|;
    DotDotPlace(dir, m, n);
    DotDotPlace(LogDir(site), m, n);
    JoinSuffixed(dir, n, ".pid");
    JoinSuffixed(dir, long, ".pid");
    ResolveSuffixed(Join(dir, n), ".pid");
    ResolveSuffixed(Join(dir, long), ".pid");
  }

  lemma JoinDotDot(dir: string, m: string, n: string)
    requires m != ""
    ensures Join(dir, m + "/../" + n) == Join(dir, m) + "/.." + "/" + n
  {
    JoinSuffixed(dir, m, "/../" + n);
    assert m + ("/../" + n) == m + "/../" + n;
    assert Join(dir, m) + ("/../" + n) == Join(dir, m) + "/.." + "/" + n;
  }

  lemma DotDotPlace(dir: string, m: string, n: string)
    requires SlashFree(m) && m !in {"", ".", ".."} && SlashFree(n)
    ensures PlaceOf(Join(dir, m + "/../" + n)) == PlaceOf(Join(dir, n))
  {
    hide Resolve, PlaceOf, Join;
    var down := Join(dir, m);
    ResolveJoin(dir, m);
    ResolveStep(down, "..");
    PlainPlace(dir, n);
    JoinDotDot(dir, m, n);
    PlaceInside(down + "/.." + "/", n);
    ResolveWithSlash(down + "/..");
    assert down + "/.." == down + "/" + "..";
    assert (Resolve(dir) + [m])[..|Resolve(dir)|] == Resolve(dir);
  }

  /** A name that starts with a slash leaves the data directory: whatever the installation, its
      PID file and log are the same. */
  lemma AbsoluteNamesShare(a: Site, b: Site, name: string)
    requires name != "" && name[0] == '/'
    ensures PidFile(a, name) == PidFile(b, name) == Resolve(name + ".pid")
    ensures LogOf(a, name) == LogOf(b, name) == PlaceOf(name)
  {
    hide Resolve, PlaceOf;
  }
}
