/**
 * Where a backup run writes: the destination paths of both modes and the
 * date string that names them.
 */
module Naming {
  import opened Host

  /** `FileUtils.FILE_SEPARATOR`, fixed to the Unix separator. */
  const SEPARATOR: string := "/"

  /** `getDate` on one clock reading: format it with the configured pattern,
      and when that throws, with the fixed pattern instead; None when the
      second formatting throws as well, so that the exception escapes. */
  function FormatDate(env: Environment, pattern: string, now: int): (date: Option<string>)
    ensures date.Some? <==> env.format(pattern, now).Some? || env.format(FALLBACK_PATTERN, now).Some?
    ensures date == env.format(pattern, now) || date == env.format(FALLBACK_PATTERN, now)
    ensures env.format(pattern, now).Some? ==> date == env.format(pattern, now)
  {
    match env.format(pattern, now)
    case Some(formatted) => Some(formatted)
    case None => env.format(FALLBACK_PATTERN, now)
  }

  /** Where the fixed pattern formats, `getDate` never throws: the date is
      the configured pattern's when that one formats, and the fixed
      pattern's exactly when it does not. */
  lemma FormatDateNeverThrows(env: Environment, pattern: string, now: int)
    requires FallbackFormats(env)
    ensures FormatDate(env, pattern, now).Some?
    ensures env.format(pattern, now).None? <==>
              env.format(pattern, now) != FormatDate(env, pattern, now) &&
              FormatDate(env, pattern, now) == env.format(FALLBACK_PATTERN, now)
  {
    assert env.format(FALLBACK_PATTERN, now).Some?;
  }

  /** `getDate` for its `call`-th use in a run, on a server's environment. */
  function GetDate(env: Env, pattern: string, call: nat): (date: string)
    ensures Some(date) == env.format(pattern, env.clock(call)) ||
            (env.format(pattern, env.clock(call)).None? && Some(date) == env.format(FALLBACK_PATTERN, env.clock(call)))
  {
    FormatDateNeverThrows(env, pattern, env.clock(call));
    FormatDate(env, pattern, env.clock(call)).value
  }

  /** The one directory of an aggregated run: `custom/<name>` for a named
      backup, else the date, both under the backup folder. */
  function AggregatedDir(folder: string, backupName: Option<string>, date: string): Path
  {
    match backupName
    case Some(name) => folder + SEPARATOR + "custom" + SEPARATOR + name
    case None => folder + SEPARATOR + date
  }

  /** Where a world is copied inside the aggregated directory. */
  function AggregatedTarget(dir: Path, world: string): Path
  {
    dir + SEPARATOR + world
  }

  /** A world's own destination in per-world mode. The separator is written
      twice: once after the folder and once more before the world. */
  function WorldTarget(folder: string, world: string, date: string): Path
  {
    folder + SEPARATOR + SEPARATOR + world + "-" + date
  }

  /** The plugins directory's destination in per-world mode. */
  function PluginsTarget(folder: string, date: string): Path
  {
    folder + SEPARATOR + SEPARATOR + "plugins" + "-" + date
  }

  /** Strings that agree around a middle part agree on the middle part. */
  lemma CancelAround(a: string, x: string, y: string, b: string)
    requires a + x + b == a + y + b
    ensures x == y
  {
    assert |x| == |y|;
    assert x == (a + x + b)[|a|..|a| + |x|];
    assert y == (a + y + b)[|a|..|a| + |y|];
  }

  /** The aggregated directory has the shape the naming promises:
      `<folder>/custom/<name>` or `<folder>/<date>`. */
  lemma AggregatedDirShape(folder: string, backupName: Option<string>, date: string)
    ensures backupName.Some? ==>
              AggregatedDir(folder, backupName, date) == folder + "/custom/" + backupName.value
    ensures backupName.None? ==> AggregatedDir(folder, backupName, date) == folder + "/" + date
  {
  }

  /** Names are never confused: two named backups share a directory only
      when their names agree, two dated ones only when their dates agree. */
  lemma AggregatedDirInjective(folder: string, n1: Option<string>, d1: string, n2: Option<string>, d2: string)
    requires n1.Some? == n2.Some?
    requires AggregatedDir(folder, n1, d1) == AggregatedDir(folder, n2, d2)
    ensures n1.Some? ==> n1 == n2
    ensures n1.None? ==> d1 == d2
  {
    if n1.Some? {
      CancelAround(folder + SEPARATOR + "custom" + SEPARATOR, n1.value, n2.value, "");
    } else {
      CancelAround(folder + SEPARATOR, d1, d2, "");
    }
  }

  /** Within one aggregated directory, distinct worlds never share a target. */
  lemma AggregatedTargetInjective(dir: Path, w1: string, w2: string)
    requires AggregatedTarget(dir, w1) == AggregatedTarget(dir, w2)
    ensures w1 == w2
  {
    CancelAround(dir + SEPARATOR, w1, w2, "");
  }

  /** In per-world mode, worlds named with the same date never collide, and
      the plugins entry is named as a world called `plugins` would be. */
  lemma WorldTargetInjective(folder: string, w1: string, w2: string, date: string)
    requires WorldTarget(folder, w1, date) == WorldTarget(folder, w2, date)
    ensures w1 == w2
  {
    var a := folder + SEPARATOR + SEPARATOR;
    assert WorldTarget(folder, w1, date) == a + w1 + ("-" + date);
    assert WorldTarget(folder, w2, date) == a + w2 + ("-" + date);
    CancelAround(a, w1, w2, "-" + date);
  }

  lemma PluginsTargetIsWorldTarget(folder: string, date: string)
    ensures PluginsTarget(folder, date) == WorldTarget(folder, "plugins", date)
    ensures PluginsTarget(folder, date) == folder + "//plugins-" + date
  {
  }
}
