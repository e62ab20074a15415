/** Names of log files. */
module LogNames {
  import opened Decimal
  import opened FilePaths

  /** The live log, or the rotated file with a given number. */
  datatype Slot = Current | Rotated(number: nat)

  function Ending(slot: Slot): string {
    match slot
    case Current => ".log"
    case Rotated(i) => ".log." + Print(i)
  }

  /** The path the log manager opens for a service. */
  function LogPath(logDir: string, service: string, slot: Slot): Path {
    Resolve(Join(logDir, service + Ending(slot)))
  }

  /** The files of the log at a place. */
  function FileName(log: Place, slot: Slot): Path {
    log.dir + [log.last + Ending(slot)]
  }

  /** Generation 0 is the live log, generation j >= 1 the j-th rotated file. */
  function Generation(j: nat): Slot {
    if j == 0 then Current else Rotated(j)
  }

  function Name(log: Place, j: nat): Path {
    FileName(log, Generation(j))
  }

  lemma EndingShape(slot: Slot)
    ensures |Ending(slot)| >= 4 && SlashFree(Ending(slot)) && Ending(slot)[0] == '.'
  {
  }

  /** Every path opened for a service is a file of the log at the service's place. */
  lemma PathIsFileName(logDir: string, service: string, slot: Slot)
    ensures LogPath(logDir, service, slot) == FileName(LogPlace(logDir, service), slot)
  {
    EndingShape(slot);
    JoinSuffixed(logDir, service, Ending(slot));
    ResolveSuffixed(Join(logDir, service), Ending(slot));
  }

  /** A rotated name ends in a dot and digits, a live name does not. */
  lemma NameEnding(service: string, slot: Slot)
    ensures var f := service + Ending(slot);
            match slot
            case Current => |f| >= 4 && f[|f| - 1] == 'g' && f[..|f| - 4] == service
            case Rotated(i) =>
              var k := |f| - |Digits(i)| - 1;
              && 4 <= k < |f| - 1 && f[k] == '.' && (forall m | k < m < |f| :: f[m] != '.' && f[m] != 'g')
              && f[..k - 4] == service && f[k + 1..] == Digits(i)
  {
  }

  lemma EndingInjective(s: string, x: Slot, t: string, y: Slot)
    requires s + Ending(x) == t + Ending(y)
    ensures s == t && x == y
  {
    NameEnding(s, x);
    NameEnding(t, y);
    if x.Rotated? && y.Rotated? {
      DigitsInjective(x.number, y.number);
    }
  }

  /** No two logs at different places, and no two slots of one log, share a file. */
  lemma FileNameInjective(p: Place, x: Slot, q: Place, y: Slot)
    requires FileName(p, x) == FileName(q, y)
    ensures p == q && x == y
  {
    var f, g := FileName(p, x), FileName(q, y);
    assert f[..|f| - 1] == p.dir && g[..|g| - 1] == q.dir;
    assert f[|f| - 1] == p.last + Ending(x) && g[|g| - 1] == q.last + Ending(y);
    EndingInjective(p.last, x, q.last, y);
  }

  lemma NameInjective(p: Place, i: nat, q: Place, j: nat)
    requires Name(p, i) == Name(q, j)
    ensures p == q && i == j
  {
    FileNameInjective(p, Generation(i), q, Generation(j));
  }

  lemma NamesDistinct(p: Place)
    ensures forall i: nat, j: nat :: Name(p, i) == Name(p, j) ==> i == j
  {
    forall i: nat, j: nat | Name(p, i) == Name(p, j) ensures i == j {
      NameInjective(p, i, p, j);
    }
  }

  /** Where the files of a service are, if its name has no slash. */
  lemma FilesOfPlain(site: Site, name: string, i: nat)
    requires SlashFree(name)
    ensures PidFile(site, name) == Resolve(site.dataDir) + ["pids", name + ".pid"]
    ensures LogPath(LogDir(site), name, Current) == Resolve(site.dataDir) + ["logs", name + ".log"]
    ensures LogPath(LogDir(site), name, Rotated(i)) == Resolve(site.dataDir) + ["logs", name + ".log." + Print(i)]
  {
    hide Resolve, PlaceOf, Print;
    PidFileOfPlain(site, name);
    ResolveJoin(site.dataDir, "pids");
    ResolveJoin(site.dataDir, "logs");
    PathIsFileName(LogDir(site), name, Current);
    PathIsFileName(LogDir(site), name, Rotated(i));
    PlainPlace(LogDir(site), name);
    assert name + (".log." + Print(i)) == name + ".log." + Print(i);
  }
}
