/**
 * The host server and the filesystem as the two backup tasks see them.
 *
 * Every call the tasks make into the server (console commands, broadcasts,
 * saving players, the scheduler) and every filesystem operation they start
 * is recorded as one event of an append-only trace. Operations whose code
 * lives outside the tasks (directory copy, zip, recursive delete, listing a
 * directory, reading the clock, formatting a date) are oracles of an `Env`
 * value: the model does not know what they do, only what they return.
 */
module Host {

  datatype Option<T> = None | Some(value: T)

  type Path = string

  /** One entry of a directory listing: a file or directory and its
      modification time (a Java `long`, milliseconds). */
  datatype Entry = Entry(path: Path, lastModified: int)

  /** What an opaque filesystem operation did: completed, threw
      `FileNotFoundException`, or threw another `IOException`. */
  datatype IoResult = Done | NotFound | Failed

  /** One observable action of a backup task. */
  datatype Event =
    | Broadcast(message: string)                              // Server.broadcastMessage
    | Command(name: string)                                   // Server.dispatchCommand from the console
    | SavePlayers                                             // Server.savePlayers
    | ScheduleBackup(worlds: seq<string>, backupName: Option<string>)  // async BackupTask handed to the scheduler
    | ScheduleResume                                          // sync resume step handed to the scheduler
    | MakeDir(path: Path)                                     // File.mkdir
    | CopyDir(source: Path, target: Path)                     // FileUtils.copyDirectory
    | ZipDir(source: Path, target: Path)                      // FileUtils.zipDir
    | DeleteDir(path: Path)                                   // FileUtils.deleteDirectory
    | DeleteFile(path: Path)                                  // File.delete

  /** The behaviour of everything the tasks call but do not define. */
  datatype Environment = Environment(
    copyResult: (Path, Path) -> IoResult,
    zipResult: (Path, Path) -> IoResult,
    deleteDirResult: Path -> IoResult,
    // File.listFiles: None when the path is not a readable directory (Java null)
    listFiles: Path -> Option<seq<Entry>>,
    // the instant seen by the k-th call of getDate within one backup run
    clock: nat -> int,
    // String.format of a pattern with one instant; None when it throws
    format: (string, int) -> Option<string>)

  /** The pattern `getDate` falls back to: day, month, year, then
      hour, minute, second (`ddMMyyyy-HHmmss`). */
  const FALLBACK_PATTERN: string := "%1$td%1$tm%1$tY-%1$tH%1$tM%1$tS"

  /** The fixed pattern is well-formed: formatting any instant with it
      does not throw. */
  ghost predicate FallbackFormats(e: Environment)
  {
    forall t :: e.format(FALLBACK_PATTERN, t).Some?
  }

  /** The environments of a real server, where the fixed pattern formats. */
  type Env = e: Environment | FallbackFormats(e)
    witness Environment((a, b) => Done, (a, b) => Done, a => Done, a => None, k => 0, (p, t) => Some(""))

  /** Localised messages looked up by key; Java `null` is None. */
  datatype Messages = Messages(
    backupStarted: Option<string>,
    backupFinished: Option<string>,
    backupFailed: string)

  /** The server, reduced to its trace of the actions the tasks performed. */
  class Server {
    const env: Env
    var trace: seq<Event>

    constructor (env: Env)
      ensures this.env == env && trace == []
    {
      this.env := env;
      trace := [];
    }

    /** Performs an action whose outcome the tasks do not observe. */
    method Record(e: Event)
      modifies this
      ensures trace == old(trace) + [e]
    {
      trace := trace + [e];
    }

    method CopyDirectory(source: Path, target: Path) returns (r: IoResult)
      modifies this
      ensures r == env.copyResult(source, target)
      ensures trace == old(trace) + [CopyDir(source, target)]
    {
      r := env.copyResult(source, target);
      trace := trace + [CopyDir(source, target)];
    }

    method ZipDirectory(source: Path, target: Path) returns (r: IoResult)
      modifies this
      ensures r == env.zipResult(source, target)
      ensures trace == old(trace) + [ZipDir(source, target)]
    {
      r := env.zipResult(source, target);
      trace := trace + [ZipDir(source, target)];
    }

    method DeleteDirectory(path: Path) returns (r: IoResult)
      modifies this
      ensures r == env.deleteDirResult(path)
      ensures trace == old(trace) + [DeleteDir(path)]
    {
      r := env.deleteDirResult(path);
      trace := trace + [DeleteDir(path)];
    }

    /** Listing a directory changes nothing. */
    method ListFiles(path: Path) returns (listing: Option<seq<Entry>>)
      ensures listing == env.listFiles(path)
    {
      listing := env.listFiles(path);
    }
  }
}
