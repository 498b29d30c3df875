/** What the host outside the appliance answers: one value for each thing an operation asks
    of it.  A contract that speaks of these answers says which outcome each of them leads to. */
module Hosts {
  /** One RCON connection that runs one command: an answer, or an error with its message. */
  datatype Reply = Answered | Error(message: string)

  /** kill(2) */
  datatype KillResult = Delivered | NoSuchProcess | NotPermitted

  datatype Host = Host(
    save: Reply,                 // RCON save-all
    stop: Reply,                 // RCON stop
    stdinWritten: bool,          // the console took the stop command
    killAnswer: KillResult,
    launches: bool,              // Popen
    rsyncInstalled: bool,
    copyCompletes: bool,         // rsync into a new snapshot
    timestamp: string,
    rsyncStillInstalled: bool,
    revertCompletes: bool,       // rsync back into the server's directory
    removalCompletes: bool)      // rmtree
}
