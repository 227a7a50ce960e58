/*
 * The stateful side of invoice processing: the marker files on disk and the
 * logs of loaded spreadsheets and WhatsApp sends, changed in place by
 * `process_invoice`, `check_existing_files` and the watchdog handler's
 * `on_created`. Each method is proved against the functions of `Retry`.
 */
module Watcher {
  import opened Paths
  import opened Batch
  import opened Retry

  /** A file-system event as watchdog reports it. */
  datatype FileEvent = FileEvent(srcPath: string, isDirectory: bool)

  /** The handler reacts to a created file that is not a directory and has a spreadsheet extension. */
  predicate Accepts(event: FileEvent) {
    !event.isDirectory && IsSpreadsheet(event.srcPath)
  }

  /** Writing a marker file raises a creation event that the handler ignores. */
  lemma MarkerEventIgnored(path: string, isDirectory: bool)
    ensures !Accepts(FileEvent(MarkerPath(path), isDirectory))
  {
    MarkerIsNotSpreadsheet(path);
  }

  /**
   * The world `process_invoice` changes: the marker files that exist
   * (path to content), the spreadsheets it has loaded and the messages it
   * has handed to Twilio, in order. `upiId` is the payee from the
   * environment.
   */
  class Processor {
    const upiId: string
    var markers: map<string, string>
    var loaded: seq<string>
    var sends: seq<Send>

    function State(): Store
      reads this
    {
      Store(markers, loaded, sends)
    }

    constructor (upiId: string, markers: map<string, string>)
      ensures this.upiId == upiId
      ensures State() == Store(markers, [], [])
    {
      this.upiId := upiId;
      this.markers := markers;
      loaded := [];
      sends := [];
    }

    /**
     * `process_invoice`: skip a file whose marker exists; otherwise run one
     * attempt, write the marker when every message went out, and retry
     * while the retry count is below `MaxRetries`.
     */
    method ProcessInvoice(file: string, cols: Columns, env: Env, retryCount: nat)
      modifies this
      ensures State() == Process(old(State()), file, upiId, cols, env, retryCount)
      decreases RetriesLeft(retryCount)
    {
      var flag := MarkerPath(file);
      if flag in markers {
        return;
      }
      var sent, outcome := RunAttempt(file, upiId, cols, env, retryCount);
      loaded := loaded + [file];
      sends := sends + sent;
      if outcome == AllSent {
        markers := markers[flag := MarkerContent];
      } else if retryCount < MaxRetries {
        ProcessInvoice(file, cols, env, retryCount + 1);
      }
    }

    /**
     * `check_existing_files`: for each listed name, process the joined path
     * from retry 0 when the name is a spreadsheet whose marker is absent.
     * `names` is the folder listing in the order the directory yields it;
     * `envFor` gives what each path holds when it is read.
     */
    method CheckExistingFiles(folder: string, names: seq<string>, cols: Columns, envFor: string -> Env)
      modifies this
      ensures State() == Sweep(old(State()), upiId, folder, names, cols, envFor)
    {
      var i := 0;
      while i < |names|
        invariant 0 <= i <= |names|
        invariant Sweep(old(State()), upiId, folder, names, cols, envFor)
               == Sweep(State(), upiId, folder, names[i..], cols, envFor)
      {
        var path := Join(folder, names[i]);
        assert names[i..][1..] == names[i + 1..];
        if IsSpreadsheet(names[i]) && MarkerPath(path) !in markers {
          ProcessInvoice(path, cols, envFor(path), 0);
        }
        i := i + 1;
      }
    }
  }

  /** The watchdog event handler, holding the three column names it was built with. */
  class InvoiceHandler {
    const cols: Columns

    constructor (cols: Columns)
      ensures this.cols == cols
    {
      this.cols := cols;
    }

    /** `on_created`: process an accepted file from retry 0; ignore every other event. */
    method OnCreated(proc: Processor, event: FileEvent, env: Env)
      modifies proc
      ensures proc.State() == if Accepts(event)
                              then Process(old(proc.State()), event.srcPath, proc.upiId, cols, env, 0)
                              else old(proc.State())
    {
      if !event.isDirectory && IsSpreadsheet(event.srcPath) {
        proc.ProcessInvoice(event.srcPath, cols, env, 0);
      }
    }
  }
}
