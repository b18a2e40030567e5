/**
 * The synchronous preparation task that runs on the main thread: decide
 * whether to back up now, broadcast the start, flush and switch off saving,
 * collect the worlds to back up and hand them to the asynchronous backup
 * task. A pending backup name and the manual flag are consumed once.
 */
module Prepare {
  import opened Host
  import opened JavaString

  /** What `World.getName()` returns: Java null, the interned literal `""`
      (the only string `!= ""` rejects, since it compares references), or any
      other string object, whose characters may still be empty. */
  datatype NameRef = Null | EmptyLiteral | Chars(chars: string)

  /** The properties the preparation task reads. */
  datatype Config = Config(
    backupOnlyWithPlayer: bool,   // skip scheduled backups when nobody is online
    skipWorlds: string)           // `;`-separated names of worlds not to back up

  /** The gate of `run`: back up unless only backing up with players online
      is configured, nobody is online, and the backup is neither manual nor named. */
  function ShouldBackup(onlyWithPlayer: bool, onlinePlayers: nat, isManualBackup: bool, backupName: Option<string>): (go: bool)
    ensures go <==> !onlyWithPlayer || onlinePlayers > 0 || isManualBackup || backupName.Some?
    ensures !go ==> onlyWithPlayer && onlinePlayers == 0
  {
    (onlyWithPlayer && onlinePlayers > 0) || !onlyWithPlayer || isManualBackup || backupName.Some?
  }

  /** `getIgnoredWorldNames`: the skip list split on `;`. An empty skip list
      ignores the empty name and nothing else. */
  function IgnoredWorldNames(skipWorlds: string): (names: seq<string>)
    ensures skipWorlds == "" ==> names == [""]
    ensures ';' !in skipWorlds ==> names == [skipWorlds]
    ensures forall i :: 0 <= i < |names| ==> ';' !in names[i]
  {
    Split(skipWorlds, ';')
  }

  /** A world whose name passes the three tests of the collecting loop. */
  predicate Qualifies(name: NameRef, ignored: seq<string>)
  {
    name.Chars? && name.chars !in ignored
  }

  /** The names that pass, in the server's order. */
  function QualifyingWorlds(names: seq<NameRef>, ignored: seq<string>): seq<string>
  {
    if names == [] then []
    else
      var last := names[|names| - 1];
      QualifyingWorlds(names[..|names| - 1], ignored) + (if Qualifies(last, ignored) then [last.chars] else [])
  }

  /** A world is backed up exactly when it has a real name that is not on
      the skip list; nothing else is added. */
  lemma {:induction false} QualifyingWorldsMembers(names: seq<NameRef>, ignored: seq<string>)
    ensures |QualifyingWorlds(names, ignored)| <= |names|
    ensures forall w :: w in QualifyingWorlds(names, ignored) <==> Chars(w) in names && w !in ignored
    decreases |names|
  {
    if names != [] {
      var init := names[..|names| - 1];
      QualifyingWorldsMembers(init, ignored);
      assert names == init + [names[|names| - 1]];
    }
  }

  /** Filtering splits along the server's list of worlds. */
  lemma {:induction false} QualifyingWorldsConcat(a: seq<NameRef>, b: seq<NameRef>, ignored: seq<string>)
    ensures QualifyingWorlds(a + b, ignored) == QualifyingWorlds(a, ignored) + QualifyingWorlds(b, ignored)
    decreases |b|
  {
    if b == [] {
      assert a + b == a;
    } else {
      var n := |b| - 1;
      assert (a + b)[..|a + b| - 1] == a + b[..n];
      assert (a + b)[|a + b| - 1] == b[n];
      QualifyingWorldsConcat(a, b[..n], ignored);
    }
  }

  // ---------------------------------------------------------------------
  // The collecting loop as written: the list starts as null

  /** A Java `LinkedList` reference. */
  datatype ListRef = NullList | List(items: seq<string>)

  /** A result, or the NullPointerException that replaced it. */
  datatype Thrown<T> = Returned(value: T) | NullPointerException

  /** The collecting loop of `prepareBackup` as written: `worldsToBackup`
      starts as null, so adding the first qualifying world dereferences null. */
  function WorldListAsWritten(names: seq<NameRef>, ignored: seq<string>): Thrown<ListRef>
  {
    CollectFrom(names, ignored, NullList)
  }

  function CollectFrom(names: seq<NameRef>, ignored: seq<string>, list: ListRef): Thrown<ListRef>
    decreases |names|
  {
    if names == [] then Returned(list)
    else if Qualifies(names[0], ignored) then
      if list.NullList? then NullPointerException
      else CollectFrom(names[1..], ignored, List(list.items + [names[0].chars]))
    else CollectFrom(names[1..], ignored, list)
  }

  /** As written, the loop throws as soon as any world qualifies, and
      otherwise hands a null list to the backup task. */
  lemma {:induction false} AsWrittenThrowsOnQualifyingWorld(names: seq<NameRef>, ignored: seq<string>)
    ensures WorldListAsWritten(names, ignored) ==
              if QualifyingWorlds(names, ignored) == [] then Returned(NullList) else NullPointerException
    decreases |names|
  {
    if names != [] {
      AsWrittenThrowsOnQualifyingWorld(names[1..], ignored);
      assert names == [names[0]] + names[1..];
      QualifyingWorldsConcat([names[0]], names[1..], ignored);
      assert QualifyingWorlds([names[0]], ignored) == QualifyingWorlds([], ignored) + (if Qualifies(names[0], ignored) then [names[0].chars] else []);
    }
  }

  /** A server with a world called `world` and an empty skip list. */
  lemma AsWrittenOneWorldThrows()
    ensures WorldListAsWritten([Chars("world")], IgnoredWorldNames("")) == NullPointerException
  {
    assert IgnoredWorldNames("") == [""];
    assert Qualifies(Chars("world"), [""]);
  }

  /** The loop with the list created empty, as the task needs it. */
  method CollectWorlds(names: seq<NameRef>, ignored: seq<string>) returns (worldsToBackup: seq<string>)
    ensures worldsToBackup == QualifyingWorlds(names, ignored)
  {
    worldsToBackup := [];
    var i := 0;
    while i < |names|
      invariant 0 <= i <= |names|
      invariant worldsToBackup == QualifyingWorlds(names[..i], ignored)
    {
      assert names[..i + 1][..i] == names[..i];
      var world := names[i];
      if world != Null && world != EmptyLiteral && world.chars !in ignored {
        worldsToBackup := worldsToBackup + [world.chars];
      }
      i := i + 1;
    }
    assert names[..i] == names;
  }

  // ---------------------------------------------------------------------
  // The actions of `prepareBackup`

  /** The host actions of one preparation, in order: the start notice when
      there is one, flush, switch saving off, save players, then hand the
      worlds and the backup name to the scheduler. */
  function PrepareEvents(started: Option<string>, worlds: seq<string>, backupName: Option<string>): seq<Event>
  {
    (if started.Some? && Trim(started.value) != "" then [Broadcast(started.value)] else []) +
    [Command("save-all"), Command("save-off"), SavePlayers, ScheduleBackup(worlds, backupName)]
  }

  /** The start notice is broadcast first exactly when it is there and not
      blank; saving is flushed and switched off and the players are saved
      before the backup is scheduled, once, as the last action. */
  lemma PrepareActions(started: Option<string>, worlds: seq<string>, backupName: Option<string>)
    ensures var r := PrepareEvents(started, worlds, backupName);
            var notice := started.Some? && !IsBlank(started.value);
            |r| == (if notice then 5 else 4) &&
            (notice ==> r[0] == Broadcast(started.value)) &&
            r[|r| - 4..] == [Command("save-all"), Command("save-off"), SavePlayers, ScheduleBackup(worlds, backupName)] &&
            (forall i :: 0 <= i < |r| - 1 ==> !r[i].ScheduleBackup?)
  {
    if started.Some? {
      TrimEmptyIffBlank(started.value);
    }
  }

  /** Four actions appended one by one after `head`. */
  lemma FourAfter(start: seq<Event>, head: seq<Event>, a: Event, b: Event, c: Event, d: Event)
    ensures start + head + [a] + [b] + [c] + [d] == start + (head + [a, b, c, d])
  {
  }

  // ---------------------------------------------------------------------
  // The task

  class PrepareBackupTask {
    const server: Server
    const config: Config
    const messages: Messages
    var backupName: Option<string>
    var isManualBackup: bool

    /** Fields start as Java's defaults: no name, not manual. */
    constructor (server: Server, config: Config, messages: Messages)
      ensures this.server == server && this.config == config && this.messages == messages
      ensures backupName == None && !isManualBackup
    {
      this.server := server;
      this.config := config;
      this.messages := messages;
      backupName := None;
      isManualBackup := false;
    }

    /** `run`: prepare a backup when the gate allows it; otherwise only a log
        line is written, which the model does not record. */
    method Run(onlinePlayers: nat, worlds: seq<NameRef>)
      modifies this, server
      ensures ShouldBackup(config.backupOnlyWithPlayer, onlinePlayers, old(isManualBackup), old(backupName)) ==>
                server.trace == old(server.trace) +
                  PrepareEvents(messages.backupStarted, QualifyingWorlds(worlds, IgnoredWorldNames(config.skipWorlds)), old(backupName)) &&
                backupName == None && !isManualBackup
      ensures !ShouldBackup(config.backupOnlyWithPlayer, onlinePlayers, old(isManualBackup), old(backupName)) ==>
                server.trace == old(server.trace) && backupName == old(backupName) && isManualBackup == old(isManualBackup)
    {
      var backupOnlyWithPlayer := config.backupOnlyWithPlayer;
      if (backupOnlyWithPlayer && onlinePlayers > 0) || !backupOnlyWithPlayer || isManualBackup || backupName != None {
        PrepareBackup(worlds);
      }
    }

    /** `prepareBackup`, with the world list created empty. The scheduled
        task gets the name as it was before the reset. */
    method PrepareBackup(worlds: seq<NameRef>)
      modifies this, server
      ensures server.trace == old(server.trace) +
                PrepareEvents(messages.backupStarted, QualifyingWorlds(worlds, IgnoredWorldNames(config.skipWorlds)), old(backupName))
      ensures backupName == None && !isManualBackup
    {
      ghost var start := server.trace;
      var startBackupMessage := messages.backupStarted;
      ghost var head: seq<Event> :=
        if startBackupMessage.Some? && Trim(startBackupMessage.value) != "" then [Broadcast(startBackupMessage.value)] else [];
      if startBackupMessage.Some? && Trim(startBackupMessage.value) != "" {
        server.Record(Broadcast(startBackupMessage.value));
      }
      assert server.trace == start + head;
      server.Record(Command("save-all"));
      server.Record(Command("save-off"));
      server.Record(SavePlayers);
      var ignoredWorldNames := IgnoredWorldNames(config.skipWorlds);
      var worldsToBackup := CollectWorlds(worlds, ignoredWorldNames);
      server.Record(ScheduleBackup(worldsToBackup, backupName));
      FourAfter(start, head, Command("save-all"), Command("save-off"), SavePlayers, ScheduleBackup(worldsToBackup, backupName));
      backupName := None;
      isManualBackup := false;
    }

    /** `setBackupName`: only the name changes. */
    method SetBackupName(name: Option<string>)
      modifies this`backupName
      ensures backupName == name && isManualBackup == old(isManualBackup)
    {
      backupName := name;
    }

    /** `setAsManualBackup`: only the flag changes. */
    method SetAsManualBackup()
      modifies this`isManualBackup
      ensures isManualBackup && backupName == old(backupName)
    {
      isManualBackup := true;
    }
  }
}
