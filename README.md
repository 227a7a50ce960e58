# invoice-processor, modelled in Dafny

This project models the core of the invoice processor, a small Flask application (`app.py`). The application watches a folder for spreadsheets of customer billing rows. For each row it builds a UPI payment link and sends the customer a WhatsApp message through Twilio. When every message of a file goes out, it writes a marker file `<path>.processed` with content `Processed`. Otherwise it retries the whole file, up to `MAX_RETRIES` (3) more times.

The modules follow the program's structure:

- `Paths`: the extension filter, the marker path, and `os.path.join` as POSIX defines it.
- `Phone`: normalising a phone number to international form, with default country code `+91`.
- `Payment`: the parameter list of `generate_payment_link`, and the link as the `upi://pay?` scheme plus the encoded query.
- `Batch`: one attempt of `process_invoice`. It reads the spreadsheet, builds one message per row, sends it, and tracks whether all sends succeeded. An exception (an unreadable file, a missing column, an amount that is not a number) ends the attempt. The attempt is specified as a function (`AttemptAt`) and run by a loop (`SendRows`) proved equal to it.
- `Retry`: `process_invoice` as a function of the marker store and the logs of loaded files and sends (`Process`), and the startup sweep of `check_existing_files` (`Sweep`), with the lemmas about them.
- `Watcher`: the stateful side. `Processor` holds the marker files and the logs and is changed in place by `ProcessInvoice` and `CheckExistingFiles`. `InvoiceHandler.OnCreated` is the watchdog callback.
- `Monitoring`: the `/start` and `/stop` routes, the global `config`, the observer and the monitoring thread handle.

Everything outside the program is an oracle parameter, `Env`:

- `sheetAt(k)` is what the file holds when attempt `k` reads it. Attempt `k` is the call with `retry_count == k`.
- `Unreadable` stands for `read_excel` or the Twilio client constructor raising.
- `delivered(k, i)` is whether the send for row `i` in attempt `k` succeeded.

`app.py:71-72` writes `Processed` into the marker file, and the model records that content.

## Model

| member | source | states |
|---|---|---|
| Paths.IsSpreadsheet | app.py:42 | no ensures: the `.xlsx`/`.xls` suffix test; `MarkerIsNotSpreadsheet` and `JoinKeepsExtension` state its properties |
| Paths.MarkerPath | app.py:47 | the marker path is the file path followed by `.processed`, and is longer than it |
| Paths.MarkerPathInjective | app.py:47-48 | two files share a marker path exactly when they are the same file, so one file's marker never hides another |
| Paths.MarkerIsNotSpreadsheet | app.py:42 | a marker path never passes the `.xlsx`/`.xls` filter, so writing a marker does not trigger processing |
| Paths.Join | app.py:122 | the joined path ends with the file name, and is either the name itself or has a `/` just before the name |
| Paths.JoinKeepsExtension | app.py:121-123 | joining a folder and a name passes the spreadsheet filter exactly when the name does |
| Phone.Normalize | app.py:59-63 | the result starts with `+`; it equals the input exactly when the input already starts with `+`; otherwise it is `+91` followed by the input; it always ends with the input |
| Phone.NormalizeIdempotent | app.py:62-63 | normalising a normalised number changes nothing |
| Payment.Lookup | app.py:92-98 | a lookup finds a parameter with that key when one exists, and reports none only when no parameter has that key |
| Payment.LookupFindsFirst | app.py:92-98 | a lookup returns the value of the first parameter with that key |
| Payment.LinkFor | app.py:91-98 | no ensures: the parameter list of the link; `LinkForParams` states its keys, order and values |
| Payment.LinkForParams | app.py:91-98 | the link carries exactly the keys `pa`, `pn`, `am`, `cu`, `tn` in that order: the payee UPI id, the customer name, the amount, `INR`, and `Invoice Payment for ` followed by the customer name |
| Payment.ParamNamesDistinct | app.py:92-98 | the five query keys are pairwise distinct |
| Payment.Render | app.py:99-100 | the link text starts with `upi://pay?` and continues with the encoding of exactly the parameter list |
| Batch.ErrorOf | app.py:58-60 | for a row that cannot be read, the error satisfies `FirstFailure`: a header missing from the row with every header read before it present (name, then phone number, then amount), or, with all three present, the amount not a number |
| Batch.FirstFailureUnique | app.py:58-60 | at most one error fits that description, so the error a malformed row raises is determined by the row |
| Batch.RowMessage | app.py:57-60 | a row yields a message exactly when all three configured columns are present and the amount converts to a float; the message is for the file being processed |
| Batch.RowMessageContent | app.py:57-66 | the message carries the row's customer and amount and the payee UPI id; its recipient is `whatsapp:` and a `+`-prefixed number ending with the row's phone text; its link's `pa`/`pn`/`am` are the UPI id, customer and amount; a row that cannot be read yields an error satisfying `FirstFailure` |
| Batch.AddressShape | app.py:112 | a message's address is `whatsapp:` followed by a `+`-prefixed number that ends with the phone text read from the row |
| Batch.SendFrom | app.py:55-68 | no ensures: the sends and outcome of the row loop from row `i` on; `SendFromCharacterized` states them against `FirstMalformed` and `AllDelivered`, and `SendRows` is proved equal to it |
| Batch.SendFromCharacterized | app.py:55-68 | from a given row, the attempt sends one message per row up to the first malformed row, each recording its delivery; it ends all-sent exactly when no row is malformed and every send succeeded, and raised exactly when a malformed row is reached |
| Batch.AttemptAt | app.py:52-68 | no ensures: one attempt, an unreadable file raising before any row; `AttemptCharacterized`, `WellFormedAttempt`, `AttemptSendsForFile`, `AttemptSendsAtMostRows` and `SendsIndependentOfDelivery` state its properties, and `RunAttempt` is proved equal to it |
| Batch.AttemptCharacterized | app.py:52-68 | one attempt on a readable sheet sends exactly the messages of the rows before the first malformed row, in order; it succeeds exactly when every row is well formed and every send succeeded; it raises exactly when some row is malformed |
| Batch.WellFormedAttempt | app.py:55-68 | an attempt on a sheet whose rows are all readable sends exactly once per row and never raises; it ends all-sent exactly when every send succeeded |
| Batch.AttemptSendsForFile | app.py:65-66 | every message an attempt sends belongs to the file being processed |
| Batch.AttemptSendsAtMostRows | app.py:57 | an attempt sends at most one message per row, and none when the file cannot be read |
| Batch.SendsIndependentOfDelivery | app.py:66-68 | a failed send does not stop the loop: which messages an attempt sends does not depend on which deliveries succeed |
| Batch.SendRows | app.py:55-68 | the row loop computes exactly the sends and outcome of the attempt specification |
| Batch.RunAttempt | app.py:52-68 | one attempt, including the read that may raise, computes exactly the sends and outcome of `AttemptAt` |
| Retry.Process | app.py:46-89 | no ensures: `process_invoice` on the marker store and logs; `ProcessSkipsMarkedFile`, `ProcessUnfolded`, `MarkerWrittenIffSomeAttemptSucceeds`, `ProcessBounded`, `ProcessFootprint` and `ProcessedFileIsNotReprocessed` state its properties, and `Processor.ProcessInvoice` is proved equal to it |
| Retry.Attempts | app.py:75-89 | a call starting at retry `r` makes at least one attempt and at most `Budget(r)` (`MAX_RETRIES - r + 1` while `r <= MAX_RETRIES`, else 1); `AttemptsStopAtFirstSuccess` states where it stops |
| Retry.AttemptsStopAtFirstSuccess | app.py:70-89 | a call stops at the first attempt that sends everything: every attempt before its last failed, and the last one succeeded or was the last the retry budget allows |
| Retry.ProcessSkipsMarkedFile | app.py:47-50 | a file whose marker exists is skipped with no effect |
| Retry.ProcessUnfolded | app.py:46-89 | the whole recursive call loads the file once per attempt and appends the sends of those consecutive attempts, in order |
| Retry.MarkerWrittenIffSomeAttemptSucceeds | app.py:70-89 | the marker, with content `Processed`, is written exactly when some attempt within the retry budget sent every row successfully; otherwise the markers are unchanged |
| Retry.ProcessBounded | app.py:75-89 | a call from retry `r` loads the file at most `Budget(r)` (`MAX_RETRIES - r + 1` while `r <= MAX_RETRIES`, else 1) times and sends at most that many times the row bound |
| Retry.FirstCallAtMostFourRounds | app.py:22 | a first call loads the file at most 4 times and sends at most `4 * rowBound` messages in total, where `rowBound` bounds the row count of every read (the rows may differ between reads) |
| Retry.ExhaustedRetriesResendEveryRow | app.py:74-89 | when the sheet holds the same well-formed rows on every read but each attempt has a failed send, no marker is written and the file is loaded once for each of the `Budget(r)` (`MAX_RETRIES - r + 1` while `r <= MAX_RETRIES`, else 1) attempts; the send log grows by exactly the sends of those attempts, and their messages are every row's message in row order, repeated once per attempt: rows already delivered are sent again |
| Retry.UniformSendsOf | app.py:57-68 | consecutive attempts on the same readable rows send, attempt after attempt, every row's message in row order |
| Retry.FirstAttemptSucceeds | app.py:52-73 | when every row is well formed and every send succeeds, the marker is written, the file is loaded once, and exactly one message per row is sent, in row order |
| Retry.ProcessFootprint | app.py:46-89 | a call only appends to the logs, only for its own file; it keeps every existing marker and adds at most the file's own marker; an unmarked file is loaded first |
| Retry.ProcessedFileIsNotReprocessed | app.py:46-72 | once a call has written the marker, any later call for that file changes nothing, whatever the file then holds |
| Retry.Sweep | app.py:120-125 | no ensures: the startup sweep over the folder listing; `SweepTouchesOnlyUnmarkedSpreadsheets` and `SweepLoadsEveryUnmarkedSpreadsheet` state its properties, and `Processor.CheckExistingFiles` is proved equal to it |
| Retry.SweepTouchesOnlyUnmarkedSpreadsheets | app.py:120-125 | the startup sweep loads, messages for and marks only listed spreadsheets whose marker was absent when it began; it keeps every existing marker and only appends to the logs |
| Retry.SweepLoadsEveryUnmarkedSpreadsheet | app.py:120-125 | the startup sweep loads every listed spreadsheet whose marker was absent when it began |
| Watcher.Accepts | app.py:42 | no ensures: the `on_created` filter, a non-directory with a spreadsheet extension; `MarkerEventIgnored` states that marker files fail it |
| Watcher.MarkerEventIgnored | app.py:41-44 | the creation event of a marker file is not handled |
| Watcher.Processor.ProcessInvoice | app.py:46-89 | the method changes the markers and logs exactly as `Process` describes, so every property of `Process` above holds for it |
| Watcher.Processor.CheckExistingFiles | app.py:120-125 | the loop over the folder listing changes the state exactly as `Sweep` describes |
| Watcher.InvoiceHandler.constructor | app.py:36-39 | the handler keeps the three column names it is built with |
| Watcher.InvoiceHandler.OnCreated | app.py:41-44 | a created non-directory spreadsheet is processed from retry 0; every other event leaves the state unchanged |
| Monitoring.FieldOr | app.py:155-157 | a missing or empty form field yields the default, any other value is taken as given |
| Monitoring.ParseStart | app.py:154-160 | the request is rejected with `Folder path is required` exactly when the folder field is missing or empty; otherwise it carries the folder and the three column names, each defaulted when missing or empty |
| Monitoring.StartParamsNonEmpty | app.py:155-160 | accepted parameters never name an empty folder or an empty column |
| Monitoring.FolderOnlyUsesDefaults | app.py:155-157 | a form with only a folder uses `Customer_Name`, `Phone_Number` and `Amount` |
| Monitoring.Monitor.constructor | app.py:26-33 | at start-up there is no folder, the default columns, no observer and no monitoring thread |
| Monitoring.Monitor.StopMonitoring | app.py:139-145 | afterwards no observer is running, whether or not one was; configuration and thread handle are unchanged |
| Monitoring.Monitor.StartMonitoring | app.py:127-137 | existing files are swept exactly as `Sweep` describes, then an observer for the folder is installed, with a fresh handler holding the given columns |
| Monitoring.Monitor.Start | app.py:151-177 | a rejected form returns the error response and changes nothing; an accepted one records the configuration, stops the observer, launches a daemon thread for the folder and returns `Monitoring started for <folder>` |
| Monitoring.Monitor.Stop | app.py:179-182 | the observer is stopped and the response is success with `Monitoring stopped`, whether or not one was running |

## Left out

- Spreadsheet parsing by pandas is not modelled. A sheet is a sequence of rows mapping column names to cells. A cell holds its `str()` text and the `str()` of its float conversion, or none when `float()` raises.
- The Twilio client, the WhatsApp network call and the exception it may raise are not modelled. All of them are the `delivered` oracle.
- The message body text is left out, because its amount is formatted as a floating-point `:.2f`. The model keeps the recipient, customer, amount text and payment link of each message.
- URL encoding (`urllib.parse.urlencode`) is a parameter of `Render`, not a definition. The amount's float-to-text conversion is likewise taken as given.
- The five-second `time.sleep` between retries and all console output are left out, since they change no state.
- A marker write that fails (`open` or `write` raising) is not modelled. The same exception handler would catch it and retry.
- Other processes writing or deleting marker files while a call runs are not modelled.
- The `UPI_ID` and Twilio credentials come from the environment. `UPI_ID` is a constructor argument of `Processor`; the case where it is unset (`None`) is not modelled.
- `os.makedirs` for a missing folder and `os.listdir` are not modelled. The folder listing, in the order the directory yields it, is a parameter of the sweep.
- Path joining on Windows (`ntpath.join`, with `\` separators and drive letters) is not modelled. `Join` is the POSIX `os.path.join`, and `JoinKeepsExtension` relies on its `/` separator.
- Threads and watchdog scheduling are not modelled. `Start` records the daemon thread it launches; `StartMonitoring` is that thread's body, run separately. Races between concurrent `/start` requests, and a retry still running after `/stop`, are not modelled.
- `observer.stop()` and `observer.join()` are not modelled. `StopMonitoring` only drops the observer handle.
- The `GET /` index page only renders a template and is not modelled.
