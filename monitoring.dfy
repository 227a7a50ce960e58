/*
 * The monitoring control surface: the `/start` and `/stop` routes, the
 * global configuration they update, and the observer that
 * `start_monitoring` installs and `stop_monitoring` removes.
 */
module Monitoring {
  import opened Wrappers
  import opened Batch
  import opened Retry
  import opened Watcher

  const DefaultColumns := Columns("Customer_Name", "Phone_Number", "Amount")

  const FolderField := "folder_path"
  const CustomerField := "customer_name_col"
  const PhoneField := "phone_number_col"
  const AmountField := "amount_col"

  const FolderRequired := "Folder path is required"
  const StartedPrefix := "Monitoring started for "
  const Stopped := "Monitoring stopped"

  /** The submitted form: field name to value. */
  type Form = map<string, string>

  /** The global `config` dictionary. */
  datatype Config = Config(folderPath: Option<string>, cols: Columns)

  const InitialConfig := Config(None, DefaultColumns)

  /** The JSON body a route returns. */
  datatype Response = Response(status: string, message: string)

  /** What `/start` extracts from an acceptable form. */
  datatype StartParams = StartParams(folder: string, cols: Columns)

  /** A running observer: the folder it watches and the handler scheduled on it. */
  datatype Observer = Observer(folder: string, handler: InvoiceHandler)

  /** The daemon thread `/start` launches to run `start_monitoring`. */
  datatype MonitoringThread = MonitoringThread(folder: string, cols: Columns, daemon: bool)

  /** `form.get(key) or fallback`: a missing or empty field gives the fallback. */
  function FieldOr(form: Form, key: string, fallback: string): (v: string)
    ensures key in form && form[key] != "" ==> v == form[key]
    ensures key !in form || form[key] == "" ==> v == fallback
  {
    if key in form && form[key] != "" then form[key] else fallback
  }

  /** The parameters `/start` reads, or the error it reports when the folder is missing or empty. */
  function ParseStart(form: Form): (r: Result<StartParams, string>)
    ensures r.Err? <==> FolderField !in form || form[FolderField] == ""
    ensures r.Err? ==> r.error == FolderRequired
    ensures r.Ok? ==> r.value.folder == form[FolderField]
    ensures r.Ok? ==> r.value.cols == Columns(FieldOr(form, CustomerField, DefaultColumns.customerName),
                                              FieldOr(form, PhoneField, DefaultColumns.phoneNumber),
                                              FieldOr(form, AmountField, DefaultColumns.amount))
  {
    var cols := Columns(FieldOr(form, CustomerField, DefaultColumns.customerName),
                        FieldOr(form, PhoneField, DefaultColumns.phoneNumber),
                        FieldOr(form, AmountField, DefaultColumns.amount));
    if FolderField !in form || form[FolderField] == "" then Err(FolderRequired)
    else Ok(StartParams(form[FolderField], cols))
  }

  /** Accepted start parameters never name an empty folder or an empty column. */
  lemma StartParamsNonEmpty(form: Form)
    requires ParseStart(form).Ok?
    ensures var p := ParseStart(form).value;
            p.folder != "" && p.cols.customerName != "" && p.cols.phoneNumber != "" && p.cols.amount != ""
  {
    var p := ParseStart(form).value;
    assert DefaultColumns.customerName[0] == 'C';
    assert DefaultColumns.phoneNumber[0] == 'P';
    assert DefaultColumns.amount[0] == 'A';
  }

  /** A form giving only the folder starts monitoring with the default columns. */
  lemma FolderOnlyUsesDefaults(folder: string)
    requires folder != ""
    ensures ParseStart(map[FolderField := folder]) == Ok(StartParams(folder, DefaultColumns))
  {
    var form := map[FolderField := folder];
    assert CustomerField !in form && PhoneField !in form && AmountField !in form;
  }

  /** The module-level state of the web application. */
  class Monitor {
    var config: Config
    var observer: Option<Observer>
    var monitoringThread: Option<MonitoringThread>

    constructor ()
      ensures config == InitialConfig && observer == None && monitoringThread == None
    {
      config := InitialConfig;
      observer := None;
      monitoringThread := None;
    }

    /** `stop_monitoring`: drop the running observer, if any; nothing else changes. */
    method StopMonitoring()
      modifies this
      ensures observer == None
      ensures config == old(config) && monitoringThread == old(monitoringThread)
    {
      if observer.Some? {
        observer := None;
      }
    }

    /**
     * The body of the monitoring thread, `start_monitoring`: process the
     * spreadsheets already in the folder, then install an observer whose
     * handler carries the given columns.
     */
    method StartMonitoring(proc: Processor, folder: string, names: seq<string>, cols: Columns, envFor: string -> Env)
      modifies this, proc
      ensures proc.State() == Sweep(old(proc.State()), proc.upiId, folder, names, cols, envFor)
      ensures observer.Some? && observer.value.folder == folder && observer.value.handler.cols == cols
      ensures fresh(observer.value.handler)
      ensures config == old(config) && monitoringThread == old(monitoringThread)
    {
      proc.CheckExistingFiles(folder, names, cols, envFor);
      var handler := new InvoiceHandler(cols);
      observer := Some(Observer(folder, handler));
    }

    /**
     * The `/start` route: reject a form without a folder and change nothing;
     * otherwise record the configuration, stop the current observer and
     * launch a daemon thread for the new folder.
     */
    method Start(form: Form) returns (resp: Response)
      modifies this
      ensures ParseStart(form).Err? ==>
                resp == Response("error", FolderRequired)
                && config == old(config) && observer == old(observer) && monitoringThread == old(monitoringThread)
      ensures ParseStart(form).Ok? ==>
                var p := ParseStart(form).value;
                && resp == Response("success", StartedPrefix + p.folder)
                && config == Config(Some(p.folder), p.cols)
                && observer == None
                && monitoringThread == Some(MonitoringThread(p.folder, p.cols, true))
    {
      var parsed := ParseStart(form);
      match parsed {
        case Err(message) =>
          resp := Response("error", message);
        case Ok(p) =>
          config := Config(Some(p.folder), p.cols);
          StopMonitoring();
          monitoringThread := Some(MonitoringThread(p.folder, p.cols, true));
          resp := Response("success", StartedPrefix + p.folder);
      }
    }

    /** The `/stop` route: stop the observer and report success, whether or not one was running. */
    method Stop() returns (resp: Response)
      modifies this
      ensures resp == Response("success", Stopped)
      ensures observer == None
      ensures config == old(config) && monitoringThread == old(monitoringThread)
    {
      StopMonitoring();
      resp := Response("success", Stopped);
    }
  }
}
