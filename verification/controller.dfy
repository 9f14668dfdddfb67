/** What `RestartApp` observes of, and does to, the Cloud Foundry controller
    and its surroundings. Every remote call is an input: the reply it got.
    Every call it makes, and every line it logs, is an `Effect`, and one run
    is described by the ordered trace of its effects. */
module Controller {
  import opened Wrappers
  import opened Strings
  import opened LogStream

  /** The reply of one blocking round trip (`.Result` or `.Wait()`): its
      answer, or a fault, which the caller sees as an exception. */
  datatype Remote<+T> = Answer(value: T) | Fault

  /** A `System.Guid`. */
  type Guid = bv128

  /** The `State` values of an app. */
  const Stopped: string := "STOPPED"
  const Started: string := "STARTED"

  /** The `PackageState` values the poll loop tells apart. */
  const Failed: string := "FAILED"
  const Pending: string := "PENDING"
  const Staged: string := "STAGED"

  /** The fields of `GetAppSummaryResponse` the task reads. */
  datatype Summary = Summary(state: string, runningInstances: int, packageState: string)

  /** The fields of `GetInfoResponse` the task reads; either may be null. */
  datatype Info = Info(dopplerLoggingEndpoint: Option<string>, loggingEndpoint: Option<string>)

  /** The exceptions that end a run early. */
  datatype Exn =
    | StagingFailed     // InvalidOperationException("App staging failed")
    | RemoteFault       // a remote call faulted
    | NoSpaceGuid       // `.Value` read on a null `Guid?`

  /** The informational lines the task logs. */
  datatype Notice =
    | Restarting        // "Restarting application {name}"
    | AppStaging        // "App is staging ..."
    | AppStagedWaiting  // "App staged, waiting for it to come online ..."

  /** The error lines the task logs. */
  datatype Failure =
    | AppNotFound           // "Application {name} not found"
    | LogsUnavailable       // "Could not retrieve application logs"
    | RestartFailed(e: Exn) // "Restart App failed", with the exception

  datatype Effect =
    | ResolveSpace(org: string, space: string)   // Utils.GetSpaceGuid
    | ResolveApp(name: string, spaceGuid: Guid)  // Utils.GetAppGuid
    | GetInfo                                    // client.Info.GetInfo()
    | Connect(backend: Backend)                  // constructing the stream client
    | Tail(backend: Backend, app: Guid)          // opening the live tail
    | StopLogStream(backend: Backend)
    | Dispose(backend: Backend)                  // end of the `using` block
    | GetSummary(app: Guid)                      // client.Apps.GetAppSummary
    | UpdateApp(app: Guid, state: string)        // client.Apps.UpdateApp: stop or start
    | Sleep(ms: nat)                             // Thread.Sleep
    | Message(notice: Notice)
    | Error(failure: Failure)

  /** How many times `e` occurs in `effects`. */
  function Occurrences(effects: seq<Effect>, e: Effect): nat {
    multiset(effects)[e]
  }

  /** Counting distributes over concatenation. */
  lemma CountAppend(a: seq<Effect>, b: seq<Effect>, e: Effect)
    ensures Occurrences(a + b, e) == Occurrences(a, e) + Occurrences(b, e)
  {
    assert multiset(a + b) == multiset(a) + multiset(b);
  }

  /** How many progress notices the poll loop logged. */
  function StagingNotices(effects: seq<Effect>): nat {
    Occurrences(effects, Message(AppStaging)) + Occurrences(effects, Message(AppStagedWaiting))
  }

  /** The effects that change the app: stop and start commands. */
  predicate IsCommand(e: Effect) {
    e.UpdateApp?
  }
}
