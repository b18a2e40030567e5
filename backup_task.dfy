/**
 * The asynchronous backup task: copy the worlds (and optionally the plugins
 * directory) into the backup folder, zip what was copied, prune old backups
 * and schedule the resume step back on the main thread.
 *
 * The run is specified by `RunSteps`, a function of the configuration, the
 * environment and the queue of worlds; the class's methods perform the run
 * on the server's trace and are proved to produce exactly those events.
 */
module Backup {
  import opened Host
  import opened Naming
  import opened JavaString
  import Retention

  /** The properties the backup task reads. */
  datatype Config = Config(
    backupFolder: string,     // the folder all backups live in
    summarizeContent: bool,   // one directory for the whole run (aggregated mode)
    zip: bool,                // zip every copied directory and remove the copy
    backupWorlds: bool,       // per-world mode: back up the worlds at all
    backupPlugins: bool,      // copy the plugins directory too
    maxBackups: int,          // how many backups pruning keeps
    dateFormat: string,       // the pattern for dated names
    activateAutosave: bool)   // turn saving back on when done

  /** The events of part of a run, and whether that part ended without an
      exception escaping `backup()`. */
  datatype Steps = Steps(events: seq<Event>, ok: bool)

  /** Part `a` and then, unless an exception escaped `a`, part `b`. */
  function Then(a: Steps, b: Steps): Steps
  {
    if a.ok then Steps(a.events + b.events, b.ok) else a
  }

  function Pass(events: seq<Event>): Steps
  {
    Steps(events, true)
  }

  /** An operation whose exceptions are not caught in `backup()`. */
  function Attempt(e: Event, r: IoResult): Steps
  {
    Steps([e], r == Done)
  }

  lemma ThenAssociative(a: Steps, b: Steps, c: Steps)
    ensures Then(Then(a, b), c) == Then(a, Then(b, c))
  {
    if a.ok && b.ok {
      assert (a.events + b.events) + c.events == a.events + (b.events + c.events);
    }
  }

  lemma AppendAfter(start: seq<Event>, a: seq<Event>, b: seq<Event>)
    ensures start + a + b == start + (a + b)
  {
  }

  /** A body that completed, then the deletions, then the resume step. */
  lemma FinishAfter(start: seq<Event>, body: Steps, prune: seq<Event>)
    requires body.ok
    ensures start + body.events + prune + [ScheduleResume] == start + Then(body, Pass(prune + [ScheduleResume])).events
  {
  }

  lemma ThenPassEmpty(a: Steps)
    ensures Then(a, Pass([])) == a
  {
    assert a.events + [] == a.events;
  }


  /** Zip a directory into an archive of the same name, then delete it. */
  function ZipAndRemove(env: Env, dir: Path): Steps
  {
    Then(Attempt(ZipDir(dir, dir), env.zipResult(dir, dir)),
         Attempt(DeleteDir(dir), env.deleteDirResult(dir)))
  }

  /** Copy a directory to its own destination, zipping it if configured. */
  function SaveTarget(env: Env, source: Path, target: Path, zip: bool): Steps
  {
    Then(Attempt(CopyDir(source, target), env.copyResult(source, target)),
         if zip then ZipAndRemove(env, target) else Pass([]))
  }

  // ---------------------------------------------------------------------
  // Aggregated mode

  /** The directory of an aggregated run (its date is the run's first clock
      reading, taken only for an unnamed backup). */
  function RunDir(cfg: Config, env: Env, backupName: Option<string>): Path
  {
    AggregatedDir(cfg.backupFolder, backupName, GetDate(env, cfg.dateFormat, 0))
  }

  /** Copy one world into the run's directory. Both copy exceptions are
      caught; any but a missing source also broadcasts the failure. */
  function CopyIntoDir(env: Env, dir: Path, world: string, failed: string): seq<Event>
  {
    var target := AggregatedTarget(dir, world);
    [CopyDir(world, target)] + (if env.copyResult(world, target) == Failed then [Broadcast(failed)] else [])
  }

  /** The queue of worlds copied into the run's directory, first to last. */
  function CopyAllIntoDir(env: Env, dir: Path, worlds: seq<string>, failed: string): seq<Event>
  {
    if worlds == [] then []
    else CopyAllIntoDir(env, dir, worlds[..|worlds| - 1], failed) + CopyIntoDir(env, dir, worlds[|worlds| - 1], failed)
  }

  function AggregatedSteps(cfg: Config, env: Env, msgs: Messages, backupName: Option<string>, worlds: seq<string>): Steps
  {
    var dir := RunDir(cfg, env, backupName);
    var plugins := AggregatedTarget(dir, "plugins");
    Then(Then(Pass([MakeDir(dir)] + CopyAllIntoDir(env, dir, worlds, msgs.backupFailed)),
              if cfg.backupPlugins then Attempt(CopyDir("plugins", plugins), env.copyResult("plugins", plugins))
              else Pass([])),
         if cfg.zip then ZipAndRemove(env, dir) else Pass([]))
  }

  // ---------------------------------------------------------------------
  // Per-world mode

  /** One world saved to its own dated destination, using the `call`-th
      clock reading of the run. */
  function SaveWorld(cfg: Config, env: Env, world: string, call: nat): Steps
  {
    SaveTarget(env, world, WorldTarget(cfg.backupFolder, world, GetDate(env, cfg.dateFormat, call)), cfg.zip)
  }

  /** The results of saving each world of the queue on its own, the first
      one using clock reading `first`. */
  function WorldSaves(cfg: Config, env: Env, worlds: seq<string>, first: nat): (parts: seq<Steps>)
    ensures |parts| == |worlds|
  {
    seq(|worlds|, i requires 0 <= i < |worlds| => SaveWorld(cfg, env, worlds[i], first + i))
  }

  /** Parts run one after another until one of them throws. */
  function SaveAll(parts: seq<Steps>): Steps
    decreases |parts|
  {
    if parts == [] then Pass([]) else Then(SaveAll(parts[..|parts| - 1]), parts[|parts| - 1])
  }

  /** How many parts are started: all of them, or up to and including the
      first one that throws. */
  function TakenAll(parts: seq<Steps>): (n: nat)
    ensures n <= |parts|
    decreases |parts|
  {
    if parts == [] then 0
    else if !SaveAll(parts[..|parts| - 1]).ok then TakenAll(parts[..|parts| - 1])
    else |parts|
  }

  /** The queue saved world by world until a save throws. */
  function SaveWorlds(cfg: Config, env: Env, worlds: seq<string>, first: nat): Steps
  {
    SaveAll(WorldSaves(cfg, env, worlds, first))
  }

  /** How many worlds are taken off the queue. */
  function WorldsTaken(cfg: Config, env: Env, worlds: seq<string>, first: nat): (n: nat)
    ensures n <= |worlds|
  {
    TakenAll(WorldSaves(cfg, env, worlds, first))
  }

  function PerWorldSteps(cfg: Config, env: Env, worlds: seq<string>): Steps
  {
    var pluginsCall := if cfg.backupWorlds then |worlds| else 0;
    Then(if cfg.backupWorlds then SaveWorlds(cfg, env, worlds, 0) else Pass([]),
         if cfg.backupPlugins
         then SaveTarget(env, "plugins", PluginsTarget(cfg.backupFolder, GetDate(env, cfg.dateFormat, pluginsCall)), cfg.zip)
         else Pass([]))
  }

  // ---------------------------------------------------------------------
  // The whole run

  function DeleteEvents(doomed: seq<Entry>): (r: seq<Event>)
    ensures |r| == |doomed|
  {
    seq(|doomed|, i requires 0 <= i < |doomed| => DeleteFile(doomed[i].path))
  }

  /** The deletions of `deleteOldBackups` on the listing of the backup folder. */
  function PruneEvents(cfg: Config, env: Env): seq<Event>
  {
    DeleteEvents(Retention.ToDelete(env.listFiles(cfg.backupFolder), cfg.maxBackups))
  }

  function BodySteps(cfg: Config, env: Env, msgs: Messages, backupName: Option<string>, worlds: seq<string>): Steps
  {
    if cfg.summarizeContent then AggregatedSteps(cfg, env, msgs, backupName, worlds)
    else PerWorldSteps(cfg, env, worlds)
  }

  /** `backup()`: the mode's copies, then pruning, then scheduling the
      resume step; an exception escaping the copies ends the run. */
  function RunSteps(cfg: Config, env: Env, msgs: Messages, backupName: Option<string>, worlds: seq<string>): Steps
  {
    Then(BodySteps(cfg, env, msgs, backupName, worlds), Pass(PruneEvents(cfg, env) + [ScheduleResume]))
  }

  /** What is left of the queue after the run. */
  function QueueAfter(cfg: Config, env: Env, worlds: seq<string>): seq<string>
  {
    if cfg.summarizeContent then []
    else if !cfg.backupWorlds then worlds
    else worlds[WorldsTaken(cfg, env, worlds, 0)..]
  }

  /** The body of the resume step that runs on the main thread: switch
      saving back on if configured, then broadcast the finish message
      unless it is missing or blank. */
  function ResumeEvents(activateAutosave: bool, finished: Option<string>): seq<Event>
  {
    (if activateAutosave then [Command("save-on")] else []) +
    (if finished.Some? && Trim(finished.value) != "" then [Broadcast(finished.value)] else [])
  }

  /** What the resume step does: `save-on` exactly when configured, and then
      first; the finish message exactly when it is there and not blank;
      nothing else. */
  lemma ResumeActions(activateAutosave: bool, finished: Option<string>)
    ensures var r := ResumeEvents(activateAutosave, finished);
            (Command("save-on") in r <==> activateAutosave) &&
            (finished.Some? ==> (Broadcast(finished.value) in r <==> !IsBlank(finished.value))) &&
            (forall e :: e in r ==> e == Command("save-on") || (finished.Some? && e == Broadcast(finished.value))) &&
            (activateAutosave ==> r[0] == Command("save-on"))
  {
    if finished.Some? {
      TrimEmptyIffBlank(finished.value);
    }
  }

  // ---------------------------------------------------------------------
  // Properties of a run

  /** The events the copies, zips and failure notices produce. */
  predicate IsFileOrNotice(e: Event)
  {
    e.MakeDir? || e.CopyDir? || e.ZipDir? || e.DeleteDir? || e.Broadcast?
  }

  predicate AllFileOrNotice(events: seq<Event>)
  {
    forall i :: 0 <= i < |events| ==> IsFileOrNotice(events[i])
  }

  lemma ConcatFileOrNotice(a: seq<Event>, b: seq<Event>)
    requires AllFileOrNotice(a) && AllFileOrNotice(b)
    ensures AllFileOrNotice(a + b)
  {
    forall i | 0 <= i < |a + b|
      ensures IsFileOrNotice((a + b)[i])
    {
      if i < |a| {
        assert (a + b)[i] == a[i];
      } else {
        assert (a + b)[i] == b[i - |a|];
      }
    }
  }

  lemma ThenFileOrNotice(a: Steps, b: Steps)
    requires AllFileOrNotice(a.events) && AllFileOrNotice(b.events)
    ensures AllFileOrNotice(Then(a, b).events)
  {
    if a.ok {
      ConcatFileOrNotice(a.events, b.events);
    }
  }

  lemma SaveTargetFileOrNotice(env: Env, source: Path, target: Path, zip: bool)
    ensures AllFileOrNotice(SaveTarget(env, source, target, zip).events)
  {
    var copy := Attempt(CopyDir(source, target), env.copyResult(source, target));
    var zipPart := if zip then ZipAndRemove(env, target) else Pass([]);
    if zip {
      ThenFileOrNotice(Attempt(ZipDir(target, target), env.zipResult(target, target)),
                       Attempt(DeleteDir(target), env.deleteDirResult(target)));
    }
    ThenFileOrNotice(copy, zipPart);
  }

  lemma {:induction false} CopyAllFileOrNotice(env: Env, dir: Path, worlds: seq<string>, failed: string)
    ensures AllFileOrNotice(CopyAllIntoDir(env, dir, worlds, failed))
    decreases |worlds|
  {
    if worlds != [] {
      var init, last := worlds[..|worlds| - 1], worlds[|worlds| - 1];
      CopyAllFileOrNotice(env, dir, init, failed);
      ConcatFileOrNotice(CopyAllIntoDir(env, dir, init, failed), CopyIntoDir(env, dir, last, failed));
    }
  }

  lemma {:induction false} SaveAllFileOrNotice(parts: seq<Steps>)
    requires forall i :: 0 <= i < |parts| ==> AllFileOrNotice(parts[i].events)
    ensures AllFileOrNotice(SaveAll(parts).events)
    decreases |parts|
  {
    if parts != [] {
      SaveAllFileOrNotice(parts[..|parts| - 1]);
      ThenFileOrNotice(SaveAll(parts[..|parts| - 1]), parts[|parts| - 1]);
    }
  }

  lemma SaveWorldsFileOrNotice(cfg: Config, env: Env, worlds: seq<string>, first: nat)
    ensures AllFileOrNotice(SaveWorlds(cfg, env, worlds, first).events)
  {
    var parts := WorldSaves(cfg, env, worlds, first);
    forall i | 0 <= i < |parts|
      ensures AllFileOrNotice(parts[i].events)
    {
      SaveTargetFileOrNotice(env, worlds[i], WorldTarget(cfg.backupFolder, worlds[i], GetDate(env, cfg.dateFormat, first + i)), cfg.zip);
    }
    SaveAllFileOrNotice(parts);
  }

  lemma BodyFileOrNotice(cfg: Config, env: Env, msgs: Messages, backupName: Option<string>, worlds: seq<string>)
    ensures AllFileOrNotice(BodySteps(cfg, env, msgs, backupName, worlds).events)
  {
    if cfg.summarizeContent {
      var dir := RunDir(cfg, env, backupName);
      var plugins := AggregatedTarget(dir, "plugins");
      var copies := [MakeDir(dir)] + CopyAllIntoDir(env, dir, worlds, msgs.backupFailed);
      var pluginsPart := if cfg.backupPlugins then Attempt(CopyDir("plugins", plugins), env.copyResult("plugins", plugins)) else Pass([]);
      var zipPart := if cfg.zip then ZipAndRemove(env, dir) else Pass([]);
      CopyAllFileOrNotice(env, dir, worlds, msgs.backupFailed);
      ConcatFileOrNotice([MakeDir(dir)], CopyAllIntoDir(env, dir, worlds, msgs.backupFailed));
      if cfg.zip {
        ThenFileOrNotice(Attempt(ZipDir(dir, dir), env.zipResult(dir, dir)), Attempt(DeleteDir(dir), env.deleteDirResult(dir)));
      }
      ThenFileOrNotice(Pass(copies), pluginsPart);
      ThenFileOrNotice(Then(Pass(copies), pluginsPart), zipPart);
      assert BodySteps(cfg, env, msgs, backupName, worlds) == Then(Then(Pass(copies), pluginsPart), zipPart);
    } else {
      var pluginsCall := if cfg.backupWorlds then |worlds| else 0;
      var worldsPart := if cfg.backupWorlds then SaveWorlds(cfg, env, worlds, 0) else Pass([]);
      var pluginsTarget := PluginsTarget(cfg.backupFolder, GetDate(env, cfg.dateFormat, pluginsCall));
      var pluginsPart := if cfg.backupPlugins then SaveTarget(env, "plugins", pluginsTarget, cfg.zip) else Pass([]);
      SaveWorldsFileOrNotice(cfg, env, worlds, 0);
      SaveTargetFileOrNotice(env, "plugins", pluginsTarget, cfg.zip);
      ThenFileOrNotice(worldsPart, pluginsPart);
      assert BodySteps(cfg, env, msgs, backupName, worlds) == Then(worldsPart, pluginsPart);
    }
  }

  lemma MembersFileOrNotice(events: seq<Event>)
    requires AllFileOrNotice(events)
    ensures forall e :: e in events ==> IsFileOrNotice(e)
  {
    forall e | e in events
      ensures IsFileOrNotice(e)
    {
      var i :| 0 <= i < |events| && events[i] == e;
    }
  }

  lemma PruneOnlyDeletes(cfg: Config, env: Env)
    ensures forall e :: e in PruneEvents(cfg, env) ==> e.DeleteFile?
  {
    var prune := PruneEvents(cfg, env);
    forall e | e in prune
      ensures e.DeleteFile?
    {
      var i :| 0 <= i < |prune| && prune[i] == e;
    }
  }

  /** The resume step is scheduled exactly when no exception escaped, and
      then last, after the deletions. A run that threw deletes nothing and
      never schedules it, so saving stays off; no run ever turns saving
      back on itself. */
  lemma ResumeScheduledIffCompleted(cfg: Config, env: Env, msgs: Messages, backupName: Option<string>, worlds: seq<string>)
    ensures var run := RunSteps(cfg, env, msgs, backupName, worlds);
            (ScheduleResume in run.events <==> run.ok) &&
            (run.ok ==> run.events[|run.events| - 1] == ScheduleResume) &&
            (run.ok ==> PruneEvents(cfg, env) + [ScheduleResume] == run.events[|run.events| - |PruneEvents(cfg, env)| - 1..]) &&
            (!run.ok ==> forall e :: e in run.events ==> !e.DeleteFile?) &&
            Command("save-on") !in run.events
  {
    BodyFileOrNotice(cfg, env, msgs, backupName, worlds);
    PruneOnlyDeletes(cfg, env);
    ResumeLast(BodySteps(cfg, env, msgs, backupName, worlds), PruneEvents(cfg, env));
  }

  /** A body of file actions and notices, then deletions and the resume step. */
  lemma ResumeLast(body: Steps, prune: seq<Event>)
    requires AllFileOrNotice(body.events)
    requires forall e :: e in prune ==> e.DeleteFile?
    ensures var run := Then(body, Pass(prune + [ScheduleResume]));
            (ScheduleResume in run.events <==> run.ok) &&
            (run.ok ==> run.events[|run.events| - 1] == ScheduleResume) &&
            (run.ok ==> prune + [ScheduleResume] == run.events[|run.events| - |prune| - 1..]) &&
            (!run.ok ==> forall e :: e in run.events ==> !e.DeleteFile?) &&
            Command("save-on") !in run.events
  {
    var tail := prune + [ScheduleResume];
    MembersFileOrNotice(body.events);
    if body.ok {
      assert Then(body, Pass(tail)).events == body.events + tail;
      SuffixAfter(body.events, tail);
      assert Command("save-on") !in tail;
    }
  }

  lemma SuffixAfter(a: seq<Event>, b: seq<Event>)
    ensures (a + b)[|a|..] == b
  {
  }

  /** The copy operations among some events, in order. */
  function Copies(events: seq<Event>): seq<Event>
  {
    if events == [] then []
    else (if events[0].CopyDir? then [events[0]] else []) + Copies(events[1..])
  }

  lemma {:induction false} CopiesConcat(a: seq<Event>, b: seq<Event>)
    ensures Copies(a + b) == Copies(a) + Copies(b)
    decreases |a|
  {
    if a == [] {
      assert a + b == b;
    } else {
      assert (a + b)[0] == a[0];
      assert (a + b)[1..] == a[1..] + b;
      CopiesConcat(a[1..], b);
    }
  }

  /** Aggregated mode copies every world of the queue, in queue order, into
      its place in the run's directory, whatever each copy does: a failing
      copy does not stop the later ones. */
  lemma {:induction false} AggregatedCopiesEveryWorld(env: Env, dir: Path, worlds: seq<string>, failed: string)
    ensures Copies(CopyAllIntoDir(env, dir, worlds, failed)) ==
              seq(|worlds|, i requires 0 <= i < |worlds| => CopyDir(worlds[i], AggregatedTarget(dir, worlds[i])))
    decreases |worlds|
  {
    if worlds != [] {
      var n := |worlds| - 1;
      var w := worlds[n];
      AggregatedCopiesEveryWorld(env, dir, worlds[..n], failed);
      CopiesConcat(CopyAllIntoDir(env, dir, worlds[..n], failed), CopyIntoDir(env, dir, w, failed));
      var target := AggregatedTarget(dir, w);
      CopiesConcat([CopyDir(w, target)], if env.copyResult(w, target) == Failed then [Broadcast(failed)] else []);
      assert Copies([CopyDir(w, target)]) == [CopyDir(w, target)];
    }
  }

  /** In aggregated mode the directory is made and every world copied before
      anything can throw. */
  lemma AggregatedWorldsAlwaysCopied(cfg: Config, env: Env, msgs: Messages, backupName: Option<string>, worlds: seq<string>)
    ensures var prefix := [MakeDir(RunDir(cfg, env, backupName))] + CopyAllIntoDir(env, RunDir(cfg, env, backupName), worlds, msgs.backupFailed);
            |prefix| <= |AggregatedSteps(cfg, env, msgs, backupName, worlds).events| &&
            AggregatedSteps(cfg, env, msgs, backupName, worlds).events[..|prefix|] == prefix
  {
    var dir := RunDir(cfg, env, backupName);
    var prefix := [MakeDir(dir)] + CopyAllIntoDir(env, dir, worlds, msgs.backupFailed);
    var plugins := AggregatedTarget(dir, "plugins");
    var p := if cfg.backupPlugins then Attempt(CopyDir("plugins", plugins), env.copyResult("plugins", plugins)) else Pass([]);
    var z := if cfg.zip then ZipAndRemove(env, dir) else Pass([]);
    ThenAssociative(Pass(prefix), p, z);
    assert AggregatedSteps(cfg, env, msgs, backupName, worlds).events == prefix + Then(p, z).events;
  }

  lemma SaveTargetCopies(env: Env, source: Path, target: Path, zip: bool)
    ensures Copies(SaveTarget(env, source, target, zip).events) == [CopyDir(source, target)]
  {
    var s := SaveTarget(env, source, target, zip);
    if env.copyResult(source, target) == Done && zip {
      var z := ZipAndRemove(env, target);
      assert s.events == [CopyDir(source, target)] + z.events;
      CopiesConcat([CopyDir(source, target)], z.events);
      assert Copies(z.events) == [] by {
        if z.events == [ZipDir(target, target)] {
          assert Copies(z.events) == [] + Copies([]);
        } else {
          assert z.events == [ZipDir(target, target)] + [DeleteDir(target)];
          CopiesConcat([ZipDir(target, target)], [DeleteDir(target)]);
          assert Copies([DeleteDir(target)]) == [] + Copies([]);
          assert Copies([ZipDir(target, target)]) == [] + Copies([]);
        }
      }
    } else if env.copyResult(source, target) == Done {
      assert s.events == [CopyDir(source, target)] + [];
    } else {
      assert s.events == [CopyDir(source, target)];
    }
  }

  /** The copies a per-world run makes: each world of the queue to its own
      destination, dated by its own clock reading. */
  function WorldCopies(cfg: Config, env: Env, worlds: seq<string>, first: nat): (r: seq<Event>)
    ensures |r| == |worlds|
  {
    seq(|worlds|, i requires 0 <= i < |worlds| =>
      CopyDir(worlds[i], WorldTarget(cfg.backupFolder, worlds[i], GetDate(env, cfg.dateFormat, first + i))))
  }

  lemma WorldCopiesSnoc(cfg: Config, env: Env, worlds: seq<string>, first: nat)
    requires worlds != []
    ensures var n := |worlds| - 1;
            WorldCopies(cfg, env, worlds, first) ==
              WorldCopies(cfg, env, worlds[..n], first) +
              [CopyDir(worlds[n], WorldTarget(cfg.backupFolder, worlds[n], GetDate(env, cfg.dateFormat, first + n)))]
  {
  }

  /** In per-world mode, a run whose world saves all succeed copies each world,
      in queue order, to its own destination dated by its own clock reading. */
  lemma {:induction false} PerWorldCopiesInOrder(cfg: Config, env: Env, worlds: seq<string>, first: nat)
    requires SaveWorlds(cfg, env, worlds, first).ok
    ensures Copies(SaveWorlds(cfg, env, worlds, first).events) == WorldCopies(cfg, env, worlds, first)
    decreases |worlds|
  {
    if worlds != [] {
      var n := |worlds| - 1;
      var init, last := worlds[..n], worlds[n];
      var parts := WorldSaves(cfg, env, worlds, first);
      WorldSavesPrefix(cfg, env, worlds, first, n);
      WorldSavesAt(cfg, env, worlds, first, n);
      var before, current := SaveAll(parts[..n]), parts[n];
      assert SaveAll(parts) == Then(before, current);
      PerWorldCopiesInOrder(cfg, env, init, first);
      CopiesConcat(before.events, current.events);
      SaveTargetCopies(env, last, WorldTarget(cfg.backupFolder, last, GetDate(env, cfg.dateFormat, first + n)), cfg.zip);
      WorldCopiesSnoc(cfg, env, worlds, first);
    }
  }

  // ---------------------------------------------------------------------
  // Lemmas the loops use

  lemma WorldSavesPrefix(cfg: Config, env: Env, worlds: seq<string>, first: nat, k: nat)
    requires k <= |worlds|
    ensures WorldSaves(cfg, env, worlds, first)[..k] == WorldSaves(cfg, env, worlds[..k], first)
  {
  }

  lemma WorldSavesAt(cfg: Config, env: Env, worlds: seq<string>, first: nat, i: nat)
    requires i < |worlds|
    ensures WorldSaves(cfg, env, worlds, first)[i] == SaveWorld(cfg, env, worlds[i], first + i)
  {
  }

  /** A part that completed extends what was appended so far by its events. */
  lemma ThenAfter(start: seq<Event>, a: Steps, b: Steps)
    requires a.ok
    ensures start + Then(a, b).events == (start + a.events) + b.events
  {
  }

  lemma SaveAllSnoc(parts: seq<Steps>, k: nat)
    requires k < |parts|
    ensures SaveAll(parts[..k + 1]) == Then(SaveAll(parts[..k]), parts[k])
  {
    assert parts[..k + 1][..k] == parts[..k];
  }

  /** The first part that throws ends the run: nothing after it happens,
      and it is the last part started. */
  lemma {:induction false} SaveAllStops(parts: seq<Steps>, k: nat)
    requires k < |parts| && SaveAll(parts[..k]).ok && !parts[k].ok
    ensures SaveAll(parts) == SaveAll(parts[..k + 1]) && !SaveAll(parts).ok
    ensures TakenAll(parts) == k + 1
    decreases |parts|
  {
    SaveAllSnoc(parts, k);
    if |parts| == k + 1 {
      assert parts[..k + 1] == parts;
      assert parts[..|parts| - 1] == parts[..k];
    } else {
      var init := parts[..|parts| - 1];
      assert init[..k] == parts[..k] && init[k] == parts[k] && init[..k + 1] == parts[..k + 1];
      SaveAllStops(init, k);
    }
  }

  /** A run that completed started every part, and every part completed. */
  lemma {:induction false} SaveAllCompleted(parts: seq<Steps>)
    requires SaveAll(parts).ok
    ensures TakenAll(parts) == |parts|
    ensures forall i :: 0 <= i < |parts| ==> parts[i].ok
    decreases |parts|
  {
    if parts != [] {
      var init := parts[..|parts| - 1];
      SaveAllCompleted(init);
      assert forall i :: 0 <= i < |init| ==> parts[i] == init[i];
    }
  }

  lemma CopyAllStep(env: Env, dir: Path, worlds: seq<string>, failed: string, i: nat)
    requires i < |worlds|
    ensures CopyAllIntoDir(env, dir, worlds[..i + 1], failed) ==
              CopyAllIntoDir(env, dir, worlds[..i], failed) + CopyIntoDir(env, dir, worlds[i], failed)
  {
    assert worlds[..i + 1][..i] == worlds[..i];
  }

  // ---------------------------------------------------------------------
  // The task

  class BackupTask {
    const server: Server
    const config: Config
    const messages: Messages
    const backupName: Option<string>
    var worldsToBackup: seq<string>

    constructor (config: Config, messages: Messages, worldsToBackup: seq<string>, server: Server, backupName: Option<string>)
      ensures this.config == config && this.messages == messages && this.server == server
      ensures this.worldsToBackup == worldsToBackup && this.backupName == backupName
    {
      this.config := config;
      this.messages := messages;
      this.worldsToBackup := worldsToBackup;
      this.server := server;
      this.backupName := backupName;
    }

    /** `backup()`. `run()` catches whatever it throws: `completed` is false
        exactly when an exception escaped. */
    method Backup() returns (completed: bool)
      modifies this, server
      ensures completed == RunSteps(config, server.env, messages, backupName, old(worldsToBackup)).ok
      ensures server.trace == old(server.trace) + RunSteps(config, server.env, messages, backupName, old(worldsToBackup)).events
      ensures worldsToBackup == QueueAfter(config, server.env, old(worldsToBackup))
    {
      ghost var body := BodySteps(config, server.env, messages, backupName, worldsToBackup);
      ghost var start := server.trace;
      var ok;
      if config.summarizeContent {
        ok := BackupAggregated();
      } else {
        ok := BackupPerWorld();
      }
      assert ok == body.ok && server.trace == start + body.events;
      if !ok {
        return false;
      }
      DeleteOldBackups();
      Finish();
      FinishAfter(start, body, PruneEvents(config, server.env));
      completed := true;
    }

    /** Aggregated mode: one directory for the run, every world copied into it. */
    method BackupAggregated() returns (ok: bool)
      modifies this, server
      ensures ok == AggregatedSteps(config, server.env, messages, backupName, old(worldsToBackup)).ok
      ensures server.trace == old(server.trace) + AggregatedSteps(config, server.env, messages, backupName, old(worldsToBackup)).events
      ensures worldsToBackup == []
    {
      var backupDirName := BackupDirName();
      ghost var env, worlds, start := server.env, worldsToBackup, server.trace;
      ghost var copies := Pass([MakeDir(backupDirName)] + CopyAllIntoDir(env, backupDirName, worlds, messages.backupFailed));
      server.Record(MakeDir(backupDirName));
      CopyWorldsInto(backupDirName);
      AppendAfter(start, [MakeDir(backupDirName)], CopyAllIntoDir(env, backupDirName, worlds, messages.backupFailed));
      ok := CopyPluginsAndZip(backupDirName);
      ghost var plugins := AggregatedTarget(backupDirName, "plugins");
      ghost var pluginsPart := if config.backupPlugins then Attempt(CopyDir("plugins", plugins), env.copyResult("plugins", plugins)) else Pass([]);
      ghost var zipPart := if config.zip then ZipAndRemove(env, backupDirName) else Pass([]);
      ThenAfter(start, copies, Then(pluginsPart, zipPart));
      ThenAssociative(copies, pluginsPart, zipPart);
      assert AggregatedSteps(config, env, messages, backupName, worlds) == Then(Then(copies, pluginsPart), zipPart);
    }

    /** The aggregated run's directory: `custom/<name>` for a named backup,
        else the date of the run's first clock reading. */
    method BackupDirName() returns (backupDirName: Path)
      ensures backupDirName == RunDir(config, server.env, backupName)
    {
      backupDirName := config.backupFolder + SEPARATOR;
      if backupName.Some? {
        backupDirName := backupDirName + "custom" + SEPARATOR + backupName.value;
      } else {
        backupDirName := backupDirName + GetDate(server.env, config.dateFormat, 0);
      }
    }

    /** The rest of an aggregated run: the plugins directory, then the zip.
        Neither has its exceptions caught. */
    method CopyPluginsAndZip(backupDirName: Path) returns (ok: bool)
      modifies server
      ensures var plugins := AggregatedTarget(backupDirName, "plugins");
              var pluginsPart := if config.backupPlugins then Attempt(CopyDir("plugins", plugins), server.env.copyResult("plugins", plugins)) else Pass([]);
              var zipPart := if config.zip then ZipAndRemove(server.env, backupDirName) else Pass([]);
              ok == Then(pluginsPart, zipPart).ok &&
              server.trace == old(server.trace) + Then(pluginsPart, zipPart).events
    {
      ok := true;
      if config.backupPlugins {
        var result := server.CopyDirectory("plugins", backupDirName + SEPARATOR + "plugins");
        if result != Done {
          return false;
        }
      }
      if config.zip {
        ok := ZipAndRemoveDir(backupDirName);
      }
    }

    /** The aggregated world loop: drain the queue, copying each world; a
        copy's exception is caught and the loop goes on. */
    method CopyWorldsInto(backupDirName: Path)
      modifies this, server
      ensures server.trace == old(server.trace) + CopyAllIntoDir(server.env, backupDirName, old(worldsToBackup), messages.backupFailed)
      ensures worldsToBackup == []
    {
      ghost var worlds := worldsToBackup;
      ghost var start := server.trace;
      ghost var taken := 0;
      while worldsToBackup != []
        invariant 0 <= taken <= |worlds| && worldsToBackup == worlds[taken..]
        invariant server.trace == start + CopyAllIntoDir(server.env, backupDirName, worlds[..taken], messages.backupFailed)
      {
        var worldName := worldsToBackup[0];
        worldsToBackup := worldsToBackup[1..];
        ghost var before := server.trace;
        var copied := server.CopyDirectory(worldName, backupDirName + SEPARATOR + worldName);
        if copied == Failed {
          server.Record(Broadcast(messages.backupFailed));
        }
        assert server.trace == before + CopyIntoDir(server.env, backupDirName, worldName, messages.backupFailed);
        CopyAllStep(server.env, backupDirName, worlds, messages.backupFailed, taken);
        AppendAfter(start, CopyAllIntoDir(server.env, backupDirName, worlds[..taken], messages.backupFailed),
                    CopyIntoDir(server.env, backupDirName, worldName, messages.backupFailed));
        taken := taken + 1;
      }
      assert worlds[..taken] == worlds;
    }

    /** Per-world mode: each world, then the plugins directory, to its own
        dated destination. */
    method BackupPerWorld() returns (ok: bool)
      requires !config.summarizeContent
      modifies this, server
      ensures ok == PerWorldSteps(config, server.env, old(worldsToBackup)).ok
      ensures server.trace == old(server.trace) + PerWorldSteps(config, server.env, old(worldsToBackup)).events
      ensures worldsToBackup == QueueAfter(config, server.env, old(worldsToBackup))
    {
      ghost var worlds, start := worldsToBackup, server.trace;
      var dateCalls := 0;
      ghost var worldsPart := Pass([]);
      if config.backupWorlds {
        ok, dateCalls := SaveQueuedWorlds();
        worldsPart := SaveWorlds(config, server.env, worlds, 0);
        if !ok {
          return;
        }
      } else {
        ok := true;
      }
      if config.backupPlugins {
        var destDir := PluginsTarget(config.backupFolder, GetDate(server.env, config.dateFormat, dateCalls));
        ok := CopyAndZip("plugins", destDir);
        ThenAfter(start, worldsPart, SaveTarget(server.env, "plugins", destDir, config.zip));
      } else {
        ThenPassEmpty(worldsPart);
      }
    }

    /** The per-world loop: take worlds off the queue one at a time and save
        each; the first exception ends the loop and the run. */
    method SaveQueuedWorlds() returns (ok: bool, dateCalls: nat)
      modifies this, server
      ensures ok == SaveWorlds(config, server.env, old(worldsToBackup), 0).ok
      ensures server.trace == old(server.trace) + SaveWorlds(config, server.env, old(worldsToBackup), 0).events
      ensures worldsToBackup == old(worldsToBackup)[WorldsTaken(config, server.env, old(worldsToBackup), 0)..]
      ensures ok ==> dateCalls == |old(worldsToBackup)|
    {
      ghost var worlds, start, env := worldsToBackup, server.trace, server.env;
      ghost var parts := WorldSaves(config, env, worlds, 0);
      dateCalls := 0;
      while worldsToBackup != []
        invariant 0 <= dateCalls <= |parts| && worldsToBackup == worlds[dateCalls..]
        invariant SaveAll(parts[..dateCalls]).ok
        invariant server.trace == start + SaveAll(parts[..dateCalls]).events
      {
        var worldName := worldsToBackup[0];
        worldsToBackup := worldsToBackup[1..];
        var saved := SaveWorldTo(worldName, dateCalls);
        WorldSavesAt(config, env, worlds, 0, dateCalls);
        SaveAllSnoc(parts, dateCalls);
        ThenAfter(start, SaveAll(parts[..dateCalls]), parts[dateCalls]);
        if !saved {
          SaveAllStops(parts, dateCalls);
          return false, dateCalls + 1;
        }
        dateCalls := dateCalls + 1;
      }
      assert parts[..dateCalls] == parts;
      SaveAllCompleted(parts);
      ok := true;
    }

    /** One world to its destination dated by the `call`-th clock reading. */
    method SaveWorldTo(worldName: string, call: nat) returns (saved: bool)
      modifies server
      ensures saved == SaveWorld(config, server.env, worldName, call).ok
      ensures server.trace == old(server.trace) + SaveWorld(config, server.env, worldName, call).events
    {
      var destDir := WorldTarget(config.backupFolder, worldName, GetDate(server.env, config.dateFormat, call));
      saved := CopyAndZip(worldName, destDir);
    }

    /** Copy one directory to its destination; zip it and delete the copy
        when configured. */
    method CopyAndZip(source: Path, target: Path) returns (ok: bool)
      modifies server
      ensures ok == SaveTarget(server.env, source, target, config.zip).ok
      ensures server.trace == old(server.trace) + SaveTarget(server.env, source, target, config.zip).events
    {
      var copied := server.CopyDirectory(source, target);
      if copied != Done {
        return false;
      }
      ok := true;
      if config.zip {
        ok := ZipAndRemoveDir(target);
      }
    }

    method ZipAndRemoveDir(dir: Path) returns (ok: bool)
      modifies server
      ensures ok == ZipAndRemove(server.env, dir).ok
      ensures server.trace == old(server.trace) + ZipAndRemove(server.env, dir).events
    {
      var zipped := server.ZipDirectory(dir, dir);
      if zipped != Done {
        return false;
      }
      var deleted := server.DeleteDirectory(dir);
      ok := deleted == Done;
    }

    /** `deleteOldBackups`: delete, in order, the entries the retention rule
        picks from the backup folder's listing. Nothing it does throws out of it. */
    method DeleteOldBackups()
      modifies server
      ensures server.trace == old(server.trace) + PruneEvents(config, server.env)
    {
      var listing := server.ListFiles(config.backupFolder);
      if listing.None? {
        // tempArray.length on a null array throws; the handler deletes nothing
        return;
      }
      var backups := Retention.SelectForDeletion(listing.value, config.maxBackups);
      ghost var start := server.trace;
      var i := 0;
      while i < |backups|
        invariant 0 <= i <= |backups|
        invariant server.trace == start + DeleteEvents(backups[..i])
      {
        assert DeleteEvents(backups[..i + 1]) == DeleteEvents(backups[..i]) + [DeleteFile(backups[i].path)];
        server.Record(DeleteFile(backups[i].path));
        i := i + 1;
      }
      assert backups[..i] == backups;
    }

    /** `finish`: hand the resume step to the main thread's scheduler. */
    method Finish()
      modifies server
      ensures server.trace == old(server.trace) + [ScheduleResume]
    {
      server.Record(ScheduleResume);
    }

    /** The resume step itself, when the scheduler runs it. */
    method Resume()
      modifies server
      ensures server.trace == old(server.trace) + ResumeEvents(config.activateAutosave, messages.backupFinished)
    {
      if config.activateAutosave {
        server.Record(Command("save-on"));
      }
      var completedBackupMessage := messages.backupFinished;
      if completedBackupMessage.Some? && Trim(completedBackupMessage.value) != "" {
        server.Record(Broadcast(completedBackupMessage.value));
      }
    }
  }
}
