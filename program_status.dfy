/**
 * `ProgramStatus` (release 3.0): a persisted `running` flag, row id 1 of the
 * program-status database, that keeps a second copy of the program from
 * starting. `main` and the main window's `closeEvent` each open their own
 * `ProgramStatus` over the same database, so the row is a shared object.
 */
module ProgramGuard {
  import opened Wrappers

  /** The program-status database: the `running` column of row 1, None while there is no row. */
  class StatusDb {
    var running: Option<bool>

    constructor (initial: Option<bool>)
      ensures running == initial
    {
      running := initial;
    }
  }

  class ProgramStatus {
    const db: StatusDb

    /** `__init__` and `initializeStatusTable`: insert `running = 0` only when row 1 is missing. */
    constructor (db: StatusDb)
      modifies db
      ensures this.db == db
      ensures db.running == if old(db.running) == None then Some(false) else old(db.running)
    {
      this.db := db;
      if db.running == None {
        db.running := Some(false);
      }
    }

    /** `startProgram`: an UPDATE of row 1, which changes nothing when the row is missing. */
    method Start()
      modifies db
      ensures db.running == if old(db.running) == None then None else Some(true)
    {
      if db.running != None {
        db.running := Some(true);
      }
    }

    /** `stopProgram`: the same UPDATE with `running = 0`. */
    method Stop()
      modifies db
      ensures db.running == if old(db.running) == None then None else Some(false)
    {
      if db.running != None {
        db.running := Some(false);
      }
    }

    /** `isRunning`: the stored flag, or false when row 1 is missing. */
    method IsRunning() returns (b: bool)
      ensures b <==> db.running == Some(true)
      ensures db.running == None ==> !b
    {
      b := match db.running
        case Some(r) => r
        case None => false;
    }
  }

  /**
   * The start-up guard of `main`: open the status, and start only when it
   * does not say the program is running. Afterwards the flag is set in both
   * cases; a flag left set by a copy that crashed keeps every later start
   * out.
   */
  method Launch(db: StatusDb) returns (started: bool)
    modifies db
    ensures started <==> old(db.running) != Some(true)
    ensures db.running == Some(true)
  {
    var status := new ProgramStatus(db);
    var running := status.IsRunning();
    started := !running;
    if started {
      status.Start();
    }
  }

  /** `closeEvent` of the main window: a fresh status object clears the flag. */
  method Close(db: StatusDb)
    modifies db
    ensures db.running == Some(false)
  {
    var status := new ProgramStatus(db);
    status.Stop();
  }

  /** A clean run: launching over a stopped flag starts, and after closing a new launch starts again. */
  method LaunchCloseLaunch(db: StatusDb) returns (first: bool, second: bool)
    requires db.running != Some(true)
    modifies db
    ensures first && second
  {
    first := Launch(db);
    Close(db);
    second := Launch(db);
  }
}
