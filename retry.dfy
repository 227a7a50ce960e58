/**
 * The bounded retry of `process_invoice` as a function of the marker store,
 * and the start-up sweep over a folder's files. Attempt number `r` is the
 * attempt made with retry count `r`; the first call runs with retry count 0.
 */
module Retry {
  import opened Paths
  import opened Batch

  const MaxRetries: nat := 3

  /** What the marker file is written with. */
  const MarkerContent: string := "Processed"

  /**
   * The state the processing touches: the marker files present (path to
   * content), the spreadsheets loaded for reading, in order, and every call
   * of the messaging client, in order.
   */
  datatype Store = Store(markers: map<string, string>, loaded: seq<string>, sends: seq<Send>)

  /** Decreases with each retry and is zero once no retry is left. */
  function RetriesLeft(retry: nat): nat {
    if retry < MaxRetries then MaxRetries - retry else 0
  }

  /**
   * `process_invoice(file, ..., retry)`: skip a file whose marker exists;
   * otherwise open it and run one attempt; write the marker if every send
   * succeeded; on a failed send or a raise, retry while the retry count is
   * below `MaxRetries`, and give up after that.
   */
  function Process(s: Store, file: string, upiId: string, cols: Columns, env: Env, retry: nat): Store
    decreases RetriesLeft(retry)
  {
    if MarkerPath(file) in s.markers then s
    else
      var s' := AfterAttempt(s, file, upiId, cols, env, retry);
      if AttemptAt(file, upiId, cols, env, retry).outcome == AllSent
      then s'.(markers := s.markers[MarkerPath(file) := MarkerContent])
      else if retry < MaxRetries then Process(s', file, upiId, cols, env, retry + 1)
      else s'
  }

  /** The store after one attempt: the file was loaded and the attempt's sends were made. */
  function AfterAttempt(s: Store, file: string, upiId: string, cols: Columns, env: Env, attempt: nat): Store {
    Store(s.markers, s.loaded + [file], s.sends + AttemptAt(file, upiId, cols, env, attempt).sends)
  }

  /** The most attempts a call with this retry count can make. */
  function Budget(retry: nat): nat {
    RetriesLeft(retry) + 1
  }

  predicate Succeeds(file: string, upiId: string, cols: Columns, env: Env, attempt: nat) {
    AttemptAt(file, upiId, cols, env, attempt).outcome == AllSent
  }

  /** The number of attempts a call on an unmarked file makes: it stops at the first success or when retries run out. */
  function Attempts(file: string, upiId: string, cols: Columns, env: Env, retry: nat): (n: nat)
    ensures 1 <= n <= Budget(retry)
    decreases RetriesLeft(retry)
  {
    if Succeeds(file, upiId, cols, env, retry) || retry >= MaxRetries then 1
    else 1 + Attempts(file, upiId, cols, env, retry + 1)
  }

  /**
   * A call stops at the first attempt that sends everything: every attempt
   * before its last one failed, and its last one either succeeded or was the
   * last the retry budget allows.
   */
  lemma AttemptsStopAtFirstSuccess(file: string, upiId: string, cols: Columns, env: Env, retry: nat)
    ensures var n := Attempts(file, upiId, cols, env, retry);
            && (forall a :: retry <= a < retry + n - 1 ==> !Succeeds(file, upiId, cols, env, a))
            && (Succeeds(file, upiId, cols, env, retry + n - 1) || retry + n - 1 == LastAttempt(retry))
  {
    EarlierAttemptsFail(file, upiId, cols, env, retry);
    LastAttemptSucceedsOrExhausts(file, upiId, cols, env, retry);
  }

  lemma {:induction false} EarlierAttemptsFail(file: string, upiId: string, cols: Columns, env: Env, retry: nat)
    ensures forall a :: retry <= a < retry + Attempts(file, upiId, cols, env, retry) - 1 ==> !Succeeds(file, upiId, cols, env, a)
    decreases RetriesLeft(retry)
  {
    if !Succeeds(file, upiId, cols, env, retry) && retry < MaxRetries {
      EarlierAttemptsFail(file, upiId, cols, env, retry + 1);
    }
  }

  lemma {:induction false} LastAttemptSucceedsOrExhausts(file: string, upiId: string, cols: Columns, env: Env, retry: nat)
    ensures var last := retry + Attempts(file, upiId, cols, env, retry) - 1;
            Succeeds(file, upiId, cols, env, last) || last == LastAttempt(retry)
    decreases RetriesLeft(retry)
  {
    if !Succeeds(file, upiId, cols, env, retry) && retry < MaxRetries {
      LastAttemptSucceedsOrExhausts(file, upiId, cols, env, retry + 1);
    }
  }

  /** The sends of `n` consecutive attempts starting with attempt `from`. */
  function SendsOf(file: string, upiId: string, cols: Columns, env: Env, from: nat, n: nat): seq<Send>
    decreases n
  {
    if n == 0 then [] else AttemptAt(file, upiId, cols, env, from).sends + SendsOf(file, upiId, cols, env, from + 1, n - 1)
  }

  function Repeat(file: string, n: nat): (r: seq<string>)
    ensures |r| == n && forall i :: 0 <= i < n ==> r[i] == file
  {
    if n == 0 then [] else [file] + Repeat(file, n - 1)
  }

  /** The last attempt number a call with this retry count may reach. */
  function LastAttempt(retry: nat): nat {
    if retry < MaxRetries then MaxRetries else retry
  }

  /** Some attempt the call may reach sends every message. */
  predicate SomeAttemptSucceeds(file: string, upiId: string, cols: Columns, env: Env, retry: nat) {
    exists a :: retry <= a <= LastAttempt(retry) && Succeeds(file, upiId, cols, env, a)
  }

  /** A file whose marker exists is left alone: nothing is opened, nothing is sent, no marker changes. */
  lemma ProcessSkipsMarkedFile(s: Store, file: string, upiId: string, cols: Columns, env: Env, retry: nat)
    requires MarkerPath(file) in s.markers
    ensures Process(s, file, upiId, cols, env, retry) == s
  {
  }

  /** One unfolding of a failed attempt that leaves a retry. */
  lemma ProcessRetryStep(s: Store, file: string, upiId: string, cols: Columns, env: Env, retry: nat)
    requires MarkerPath(file) !in s.markers
    requires !Succeeds(file, upiId, cols, env, retry) && retry < MaxRetries
    ensures Process(s, file, upiId, cols, env, retry)
         == Process(AfterAttempt(s, file, upiId, cols, env, retry), file, upiId, cols, env, retry + 1)
    ensures Attempts(file, upiId, cols, env, retry) == 1 + Attempts(file, upiId, cols, env, retry + 1)
  {
  }

  /** One unfolding of the last attempt a call makes. */
  lemma ProcessLastStep(s: Store, file: string, upiId: string, cols: Columns, env: Env, retry: nat)
    requires MarkerPath(file) !in s.markers
    requires Succeeds(file, upiId, cols, env, retry) || retry >= MaxRetries
    ensures var t := Process(s, file, upiId, cols, env, retry);
            var u := AfterAttempt(s, file, upiId, cols, env, retry);
            t.loaded == u.loaded && t.sends == u.sends
    ensures Attempts(file, upiId, cols, env, retry) == 1
  {
  }

  lemma AppendRepeat(xs: seq<string>, file: string, m: nat)
    ensures (xs + [file]) + Repeat(file, m) == xs + Repeat(file, m + 1)
  {
    assert Repeat(file, m + 1) == [file] + Repeat(file, m);
  }

  lemma AppendSends(xs: seq<Send>, file: string, upiId: string, cols: Columns, env: Env, from: nat, m: nat)
    ensures (xs + AttemptAt(file, upiId, cols, env, from).sends) + SendsOf(file, upiId, cols, env, from + 1, m)
         == xs + SendsOf(file, upiId, cols, env, from, m + 1)
  {
  }

  /**
   * A call on an unmarked file opens the file once per attempt and makes the
   * sends of those attempts, in order, appending to what was there.
   */
  lemma {:induction false} ProcessUnfolded(s: Store, file: string, upiId: string, cols: Columns, env: Env, retry: nat)
    requires MarkerPath(file) !in s.markers
    ensures var t := Process(s, file, upiId, cols, env, retry);
            var n := Attempts(file, upiId, cols, env, retry);
            && t.loaded == s.loaded + Repeat(file, n)
            && t.sends == s.sends + SendsOf(file, upiId, cols, env, retry, n)
    decreases RetriesLeft(retry)
  {
    var s' := AfterAttempt(s, file, upiId, cols, env, retry);
    if !Succeeds(file, upiId, cols, env, retry) && retry < MaxRetries {
      ProcessRetryStep(s, file, upiId, cols, env, retry);
      ProcessUnfolded(s', file, upiId, cols, env, retry + 1);
      var m := Attempts(file, upiId, cols, env, retry + 1);
      AppendRepeat(s.loaded, file, m);
      AppendSends(s.sends, file, upiId, cols, env, retry, m);
    } else {
      ProcessLastStep(s, file, upiId, cols, env, retry);
      AppendRepeat(s.loaded, file, 0);
      AppendSends(s.sends, file, upiId, cols, env, retry, 0);
    }
  }

  /**
   * The marker is written, with content "Processed", exactly when some
   * attempt sent every message; otherwise no marker changes. No other marker
   * is touched either way.
   */
  lemma {:induction false} MarkerWrittenIffSomeAttemptSucceeds(s: Store, file: string, upiId: string, cols: Columns, env: Env, retry: nat)
    requires MarkerPath(file) !in s.markers
    ensures Process(s, file, upiId, cols, env, retry).markers
         == if SomeAttemptSucceeds(file, upiId, cols, env, retry)
            then s.markers[MarkerPath(file) := MarkerContent]
            else s.markers
    decreases RetriesLeft(retry)
  {
    var a := AttemptAt(file, upiId, cols, env, retry);
    var s' := Store(s.markers, s.loaded + [file], s.sends + a.sends);
    if a.outcome == AllSent {
      assert Succeeds(file, upiId, cols, env, retry);
    } else if retry < MaxRetries {
      MarkerWrittenIffSomeAttemptSucceeds(s', file, upiId, cols, env, retry + 1);
      if SomeAttemptSucceeds(file, upiId, cols, env, retry) {
        var b :| retry <= b <= LastAttempt(retry) && Succeeds(file, upiId, cols, env, b);
        assert b != retry;
        assert SomeAttemptSucceeds(file, upiId, cols, env, retry + 1);
      }
      if SomeAttemptSucceeds(file, upiId, cols, env, retry + 1) {
        var b :| retry + 1 <= b <= LastAttempt(retry + 1) && Succeeds(file, upiId, cols, env, b);
        assert retry <= b <= LastAttempt(retry);
      }
    }
  }

  /**
   * Termination within the budget: a first call opens the file at most
   * `MaxRetries + 1` times and, when no read yields more than `rowBound`
   * rows, sends at most `(MaxRetries + 1) * rowBound` messages.
   */
  lemma {:induction false} ProcessBounded(s: Store, file: string, upiId: string, cols: Columns, env: Env, retry: nat, rowBound: nat)
    requires forall a :: RowCount(env.sheetAt(a)) <= rowBound
    ensures var t := Process(s, file, upiId, cols, env, retry);
            && |t.loaded| <= |s.loaded| + Budget(retry)
            && |t.sends| <= |s.sends| + Budget(retry) * rowBound
    decreases RetriesLeft(retry)
  {
    if MarkerPath(file) !in s.markers {
      var a := AttemptAt(file, upiId, cols, env, retry);
      var s' := Store(s.markers, s.loaded + [file], s.sends + a.sends);
      AttemptSendsAtMostRows(file, upiId, cols, env, retry);
      if a.outcome != AllSent && retry < MaxRetries {
        ProcessBounded(s', file, upiId, cols, env, retry + 1, rowBound);
        assert Budget(retry) * rowBound == Budget(retry + 1) * rowBound + rowBound;
      }
    }
  }

  /** A first call opens the file at most 4 times and sends at most 4 * rowBound messages. */
  lemma FirstCallAtMostFourRounds(s: Store, file: string, upiId: string, cols: Columns, env: Env, rowBound: nat)
    requires forall a :: RowCount(env.sheetAt(a)) <= rowBound
    ensures var t := Process(s, file, upiId, cols, env, 0);
            && |t.loaded| <= |s.loaded| + 4
            && |t.sends| <= |s.sends| + 4 * rowBound
  {
    ProcessBounded(s, file, upiId, cols, env, 0, rowBound);
  }

  predicate SomeSendFails(env: Env, attempt: nat, n: nat) {
    exists j :: 0 <= j < n && !env.delivered(attempt, j)
  }

  lemma MulSucc(b: nat, n: nat)
    ensures (b + 1) * n == b * n + n
  {
  }

  /** `ms` repeated `n` times. */
  function Cycle(ms: seq<Message>, n: nat): seq<Message>
    decreases n
  {
    if n == 0 then [] else ms + Cycle(ms, n - 1)
  }

  /** Consecutive attempts on the same readable rows send, attempt after attempt, every row's message in row order. */
  lemma {:induction false} UniformSendsOf(file: string, upiId: string, cols: Columns, env: Env, rows: seq<Row>, from: nat, n: nat)
    requires forall a :: env.sheetAt(a) == Table(rows)
    requires AllWellFormed(rows, cols)
    ensures Messages(SendsOf(file, upiId, cols, env, from, n)) == Cycle(RowMessages(file, upiId, rows, cols), n)
    decreases n
  {
    if n > 0 {
      var a := AttemptAt(file, upiId, cols, env, from);
      var rest := SendsOf(file, upiId, cols, env, from + 1, n - 1);
      WellFormedAttempt(file, upiId, cols, env, from, rows);
      UniformSendsOf(file, upiId, cols, env, rows, from + 1, n - 1);
      MessagesAppend(a.sends, rest);
    } else {
      assert Messages([]) == [];
    }
  }

  /** `Cycle(ms, n)` holds `n` copies of `ms`. */
  lemma {:induction false} CycleLength(ms: seq<Message>, n: nat)
    ensures |Cycle(ms, n)| == n * |ms|
    decreases n
  {
    if n > 0 {
      CycleLength(ms, n - 1);
      MulSucc(n - 1, |ms|);
    }
  }

  /**
   * The worst case: the same readable rows on every attempt and some send
   * failing on each. Every attempt re-sends to all rows, so the call makes
   * `Budget(retry) * |rows|` sends (`4 * |rows|` from a first call) and
   * leaves the file unmarked.
   */
  lemma ExhaustedRetriesResendEveryRow(s: Store, file: string, upiId: string, cols: Columns, env: Env, retry: nat, rows: seq<Row>)
    requires MarkerPath(file) !in s.markers
    requires forall a :: env.sheetAt(a) == Table(rows)
    requires AllWellFormed(rows, cols)
    requires forall a :: SomeSendFails(env, a, |rows|)
    ensures var t := Process(s, file, upiId, cols, env, retry);
            && t.markers == s.markers
            && |t.loaded| == |s.loaded| + Budget(retry)
            && |t.sends| == |s.sends| + Budget(retry) * |rows|
            && t.sends == s.sends + SendsOf(file, upiId, cols, env, retry, Budget(retry))
            && Messages(t.sends[|s.sends|..]) == Cycle(RowMessages(file, upiId, rows, cols), Budget(retry))
  {
    ExhaustedRetries(s, file, upiId, cols, env, retry, rows);
    var sends := SendsOf(file, upiId, cols, env, retry, Budget(retry));
    SuffixAfterPrefix(s.sends, sends);
    UniformSendsOf(file, upiId, cols, env, rows, retry, Budget(retry));
    CycleLength(RowMessages(file, upiId, rows, cols), Budget(retry));
  }

  /** When every attempt fails, the call runs its whole budget: no marker, one load and one attempt's sends per attempt. */
  lemma {:induction false} ExhaustedRetries(s: Store, file: string, upiId: string, cols: Columns, env: Env, retry: nat, rows: seq<Row>)
    requires MarkerPath(file) !in s.markers
    requires forall a :: env.sheetAt(a) == Table(rows)
    requires AllWellFormed(rows, cols)
    requires forall a :: SomeSendFails(env, a, |rows|)
    ensures var t := Process(s, file, upiId, cols, env, retry);
            && t.markers == s.markers
            && |t.loaded| == |s.loaded| + Budget(retry)
            && t.sends == s.sends + SendsOf(file, upiId, cols, env, retry, Budget(retry))
    decreases RetriesLeft(retry)
  {
    FailingAttempt(file, upiId, cols, env, retry, rows);
    var s' := AfterAttempt(s, file, upiId, cols, env, retry);
    if retry < MaxRetries {
      ProcessRetryStep(s, file, upiId, cols, env, retry);
      ExhaustedRetries(s', file, upiId, cols, env, retry + 1, rows);
      assert Budget(retry) == Budget(retry + 1) + 1;
      AppendSends(s.sends, file, upiId, cols, env, retry, Budget(retry + 1));
    } else {
      assert Process(s, file, upiId, cols, env, retry) == s';
      assert SendsOf(file, upiId, cols, env, retry, 1) == AttemptAt(file, upiId, cols, env, retry).sends + [];
    }
  }

  /** An attempt on the well-formed rows with a failing send does not succeed. */
  lemma FailingAttempt(file: string, upiId: string, cols: Columns, env: Env, attempt: nat, rows: seq<Row>)
    requires env.sheetAt(attempt) == Table(rows)
    requires AllWellFormed(rows, cols)
    requires SomeSendFails(env, attempt, |rows|)
    ensures !Succeeds(file, upiId, cols, env, attempt)
  {
    WellFormedAttempt(file, upiId, cols, env, attempt, rows);
  }

  lemma SuffixAfterPrefix(xs: seq<Send>, ys: seq<Send>)
    ensures (xs + ys)[|xs|..] == ys
  {
  }

  /**
   * The good case: the first attempt reads rows that are all readable and
   * every send succeeds. The file is opened once, each row gets exactly one
   * message, and the marker is written.
   */
  lemma FirstAttemptSucceeds(s: Store, file: string, upiId: string, cols: Columns, env: Env, retry: nat, rows: seq<Row>)
    requires MarkerPath(file) !in s.markers
    requires env.sheetAt(retry) == Table(rows)
    requires AllWellFormed(rows, cols)
    requires AllDelivered(env, retry, 0, |rows|)
    ensures var t := Process(s, file, upiId, cols, env, retry);
            && t.markers == s.markers[MarkerPath(file) := MarkerContent]
            && t.loaded == s.loaded + [file]
            && |t.sends| == |s.sends| + |rows|
            && forall j :: 0 <= j < |rows| ==> t.sends[|s.sends| + j].message == RowMessage(file, upiId, rows[j], cols).value
  {
    var a := AttemptAt(file, upiId, cols, env, retry);
    AttemptCharacterized(file, upiId, cols, env, retry, rows);
    assert FirstMalformed(rows, cols, 0) == |rows|;
    assert a.outcome == AllSent;
    var t := Process(s, file, upiId, cols, env, retry);
    assert t == Store(s.markers[MarkerPath(file) := MarkerContent], s.loaded + [file], s.sends + a.sends);
    forall j | 0 <= j < |rows|
      ensures t.sends[|s.sends| + j].message == RowMessage(file, upiId, rows[j], cols).value
    {
      assert t.sends[|s.sends| + j] == a.sends[j];
    }
  }

  /**
   * The start-up sweep (`check_existing_files`): for each listed name, in
   * order, a spreadsheet whose marker does not exist yet is processed from
   * retry count 0.
   */
  function Sweep(s: Store, upiId: string, folder: string, names: seq<string>, cols: Columns, envFor: string -> Env): Store
    decreases |names|
  {
    if names == [] then s
    else
      var path := Join(folder, names[0]);
      var s' := if IsSpreadsheet(names[0]) && MarkerPath(path) !in s.markers
                then Process(s, path, upiId, cols, envFor(path), 0)
                else s;
      Sweep(s', upiId, folder, names[1..], cols, envFor)
  }

  /** Every send of consecutive attempts on a file carries that file. */
  lemma {:induction false} SendsOfForFile(file: string, upiId: string, cols: Columns, env: Env, from: nat, n: nat)
    ensures forall x :: x in SendsOf(file, upiId, cols, env, from, n) ==> x.message.file == file
    decreases n
  {
    if n > 0 {
      AttemptSendsForFile(file, upiId, cols, env, from);
      SendsOfForFile(file, upiId, cols, env, from + 1, n - 1);
    }
  }

  /**
   * What one call may change: it only appends to the load and send logs,
   * and only for its own file; it keeps every existing marker as it was and
   * adds at most the file's own marker, with content "Processed". An
   * unmarked file is loaded at least once.
   */
  lemma ProcessFootprint(s: Store, file: string, upiId: string, cols: Columns, env: Env, retry: nat)
    ensures var t := Process(s, file, upiId, cols, env, retry);
      && |s.loaded| <= |t.loaded| && t.loaded[..|s.loaded|] == s.loaded
      && (forall k :: |s.loaded| <= k < |t.loaded| ==> t.loaded[k] == file)
      && |s.sends| <= |t.sends| && t.sends[..|s.sends|] == s.sends
      && (forall k :: |s.sends| <= k < |t.sends| ==> t.sends[k].message.file == file)
      && (forall key :: key in s.markers ==> key in t.markers && t.markers[key] == s.markers[key])
      && (forall key :: key in t.markers && key !in s.markers ==> key == MarkerPath(file) && t.markers[key] == MarkerContent)
      && (MarkerPath(file) !in s.markers ==> |t.loaded| > |s.loaded| && t.loaded[|s.loaded|] == file)
  {
    if MarkerPath(file) !in s.markers {
      var t := Process(s, file, upiId, cols, env, retry);
      ProcessUnfolded(s, file, upiId, cols, env, retry);
      MarkerWrittenIffSomeAttemptSucceeds(s, file, upiId, cols, env, retry);
      var n := Attempts(file, upiId, cols, env, retry);
      var more := SendsOf(file, upiId, cols, env, retry, n);
      SendsOfForFile(file, upiId, cols, env, retry, n);
      forall k | |s.sends| <= k < |t.sends|
        ensures t.sends[k].message.file == file
      {
        assert t.sends[k] == more[k - |s.sends|];
      }
    }
  }

  /** `p` is the joined path of a listed spreadsheet whose marker is absent from `markers`. */
  predicate Eligible(markers: map<string, string>, folder: string, names: seq<string>, p: string) {
    exists n :: n in names && IsSpreadsheet(n) && MarkerPath(Join(folder, n)) !in markers && p == Join(folder, n)
  }

  /** `key` is the marker of a listed spreadsheet. */
  predicate ListedMarker(folder: string, names: seq<string>, key: string) {
    exists n :: n in names && IsSpreadsheet(n) && key == MarkerPath(Join(folder, n))
  }

  /** New loads are of eligible paths; existing loads are kept. */
  predicate LoadsEffect(s: Store, t: Store, folder: string, names: seq<string>) {
    && |s.loaded| <= |t.loaded| && t.loaded[..|s.loaded|] == s.loaded
    && (forall k :: |s.loaded| <= k < |t.loaded| ==> Eligible(s.markers, folder, names, t.loaded[k]))
  }

  /** New sends are for eligible paths; existing sends are kept. */
  predicate SendsEffect(s: Store, t: Store, folder: string, names: seq<string>) {
    && |s.sends| <= |t.sends| && t.sends[..|s.sends|] == s.sends
    && (forall k :: |s.sends| <= k < |t.sends| ==> Eligible(s.markers, folder, names, t.sends[k].message.file))
  }

  /** Existing markers are kept unchanged; new ones belong to listed spreadsheets and read "Processed". */
  predicate MarkersEffect(s: Store, t: Store, folder: string, names: seq<string>) {
    && (forall key :: key in s.markers ==> key in t.markers && t.markers[key] == s.markers[key])
    && (forall key :: key in t.markers && key !in s.markers ==>
          ListedMarker(folder, names, key) && t.markers[key] == MarkerContent)
  }

  /** What the sweep may do to the store, relative to the store it started from. */
  predicate SweepEffect(s: Store, t: Store, folder: string, names: seq<string>) {
    LoadsEffect(s, t, folder, names) && SendsEffect(s, t, folder, names) && MarkersEffect(s, t, folder, names)
  }

  /** Eligibility survives a smaller marker set and a longer name list. */
  lemma EligibleWeaken(m0: map<string, string>, m1: map<string, string>, folder: string, names: seq<string>, tail: seq<string>, p: string)
    requires m0.Keys <= m1.Keys && (forall n :: n in tail ==> n in names)
    requires Eligible(m1, folder, tail, p)
    ensures Eligible(m0, folder, names, p)
  {
    var n :| n in tail && IsSpreadsheet(n) && MarkerPath(Join(folder, n)) !in m1 && p == Join(folder, n);
    assert n in names;
  }

  lemma LoadsEffectCompose(s: Store, s1: Store, t: Store, folder: string, names: seq<string>)
    requires names != [] && s.markers.Keys <= s1.markers.Keys
    requires LoadsEffect(s, s1, folder, names[..1])
    requires LoadsEffect(s1, t, folder, names[1..])
    ensures LoadsEffect(s, t, folder, names)
  {
    forall n | n in names[1..] ensures n in names { }
    forall n | n in names[..1] ensures n in names { }
    forall k | |s.loaded| <= k < |t.loaded|
      ensures Eligible(s.markers, folder, names, t.loaded[k])
    {
      if k < |s1.loaded| {
        assert t.loaded[k] == s1.loaded[k];
        EligibleWeaken(s.markers, s.markers, folder, names, names[..1], t.loaded[k]);
      } else {
        EligibleWeaken(s.markers, s1.markers, folder, names, names[1..], t.loaded[k]);
      }
    }
    assert t.loaded[..|s.loaded|] == t.loaded[..|s1.loaded|][..|s.loaded|];
  }

  lemma SendsEffectCompose(s: Store, s1: Store, t: Store, folder: string, names: seq<string>)
    requires names != [] && s.markers.Keys <= s1.markers.Keys
    requires SendsEffect(s, s1, folder, names[..1])
    requires SendsEffect(s1, t, folder, names[1..])
    ensures SendsEffect(s, t, folder, names)
  {
    forall n | n in names[1..] ensures n in names { }
    forall n | n in names[..1] ensures n in names { }
    forall k | |s.sends| <= k < |t.sends|
      ensures Eligible(s.markers, folder, names, t.sends[k].message.file)
    {
      if k < |s1.sends| {
        assert t.sends[k] == s1.sends[k];
        EligibleWeaken(s.markers, s.markers, folder, names, names[..1], t.sends[k].message.file);
      } else {
        EligibleWeaken(s.markers, s1.markers, folder, names, names[1..], t.sends[k].message.file);
      }
    }
    assert t.sends[..|s.sends|] == t.sends[..|s1.sends|][..|s.sends|];
  }

  lemma MarkersEffectCompose(s: Store, s1: Store, t: Store, folder: string, names: seq<string>)
    requires names != []
    requires MarkersEffect(s, s1, folder, names[..1])
    requires MarkersEffect(s1, t, folder, names[1..])
    ensures MarkersEffect(s, t, folder, names)
  {
    forall key | key in t.markers && key !in s.markers
      ensures ListedMarker(folder, names, key) && t.markers[key] == MarkerContent
    {
      if key in s1.markers {
        var n :| n in names[..1] && IsSpreadsheet(n) && key == MarkerPath(Join(folder, n));
        assert n in names;
      } else {
        var n :| n in names[1..] && IsSpreadsheet(n) && key == MarkerPath(Join(folder, n));
        assert n in names;
      }
    }
  }

  /** Composing the effect of the first name's step with that of the rest of the sweep. */
  lemma SweepEffectCompose(s: Store, s1: Store, t: Store, folder: string, names: seq<string>)
    requires names != []
    requires SweepEffect(s, s1, folder, names[..1])
    requires SweepEffect(s1, t, folder, names[1..])
    ensures SweepEffect(s, t, folder, names)
  {
    assert s.markers.Keys <= s1.markers.Keys;
    LoadsEffectCompose(s, s1, t, folder, names);
    SendsEffectCompose(s, s1, t, folder, names);
    MarkersEffectCompose(s, s1, t, folder, names);
  }

  /** The effect of the sweep's step for the first name. */
  lemma SweepStepEffect(s: Store, upiId: string, folder: string, names: seq<string>, cols: Columns, envFor: string -> Env)
    requires names != []
    ensures var path := Join(folder, names[0]);
            var s1 := if IsSpreadsheet(names[0]) && MarkerPath(path) !in s.markers
                      then Process(s, path, upiId, cols, envFor(path), 0)
                      else s;
            SweepEffect(s, s1, folder, names[..1])
  {
    var path := Join(folder, names[0]);
    assert names[0] in names[..1];
    if IsSpreadsheet(names[0]) && MarkerPath(path) !in s.markers {
      var s1 := Process(s, path, upiId, cols, envFor(path), 0);
      ProcessFootprint(s, path, upiId, cols, envFor(path), 0);
      assert Eligible(s.markers, folder, names[..1], path);
      assert ListedMarker(folder, names[..1], MarkerPath(path));
    } else {
      assert s.loaded[..|s.loaded|] == s.loaded && s.sends[..|s.sends|] == s.sends;
    }
  }

  /**
   * The sweep only loads, messages for and marks listed spreadsheets whose
   * marker did not exist when it began; it keeps every existing marker, and
   * it only appends to the logs.
   */
  lemma {:induction false} SweepTouchesOnlyUnmarkedSpreadsheets(s: Store, upiId: string, folder: string, names: seq<string>, cols: Columns, envFor: string -> Env)
    ensures SweepEffect(s, Sweep(s, upiId, folder, names, cols, envFor), folder, names)
    decreases |names|
  {
    if names == [] {
      assert s.loaded[..|s.loaded|] == s.loaded && s.sends[..|s.sends|] == s.sends;
    } else {
      var path := Join(folder, names[0]);
      var s1 := if IsSpreadsheet(names[0]) && MarkerPath(path) !in s.markers
                then Process(s, path, upiId, cols, envFor(path), 0)
                else s;
      SweepStepEffect(s, upiId, folder, names, cols, envFor);
      SweepTouchesOnlyUnmarkedSpreadsheets(s1, upiId, folder, names[1..], cols, envFor);
      SweepEffectCompose(s, s1, Sweep(s1, upiId, folder, names[1..], cols, envFor), folder, names);
    }
  }

  /** The sweep only appends to the load log. */
  lemma SweepKeepsLoads(s: Store, upiId: string, folder: string, names: seq<string>, cols: Columns, envFor: string -> Env)
    ensures var t := Sweep(s, upiId, folder, names, cols, envFor);
            |s.loaded| <= |t.loaded| && t.loaded[..|s.loaded|] == s.loaded
  {
    SweepTouchesOnlyUnmarkedSpreadsheets(s, upiId, folder, names, cols, envFor);
  }

  /** Processing an unmarked file loads it first, and writes no marker but its own. */
  lemma ProcessLoadsFirst(s: Store, file: string, upiId: string, cols: Columns, env: Env, other: string)
    requires MarkerPath(file) !in s.markers
    ensures var t := Process(s, file, upiId, cols, env, 0);
            |s.loaded| < |t.loaded| && t.loaded[|s.loaded|] == file
            && (MarkerPath(other) in t.markers && MarkerPath(other) !in s.markers ==> other == file)
  {
    ProcessFootprint(s, file, upiId, cols, env, 0);
    var t := Process(s, file, upiId, cols, env, 0);
    if MarkerPath(other) in t.markers && MarkerPath(other) !in s.markers {
      MarkerPathInjective(other, file);
    }
  }

  /**
   * The sweep loads every listed spreadsheet whose marker did not exist when
   * it began: nothing that was pending when monitoring started is skipped.
   */
  lemma {:induction false} SweepLoadsEveryUnmarkedSpreadsheet(s: Store, upiId: string, folder: string, names: seq<string>, cols: Columns, envFor: string -> Env, n: string)
    requires n in names && IsSpreadsheet(n) && MarkerPath(Join(folder, n)) !in s.markers
    ensures var t := Sweep(s, upiId, folder, names, cols, envFor);
            |s.loaded| <= |t.loaded| && Join(folder, n) in t.loaded[|s.loaded|..]
    decreases |names|
  {
    var path := Join(folder, names[0]);
    var step := IsSpreadsheet(names[0]) && MarkerPath(path) !in s.markers;
    var s1 := if step then Process(s, path, upiId, cols, envFor(path), 0) else s;
    var t := Sweep(s1, upiId, folder, names[1..], cols, envFor);
    assert t == Sweep(s, upiId, folder, names, cols, envFor);
    SweepKeepsLoads(s1, upiId, folder, names[1..], cols, envFor);
    if step {
      ProcessLoadsFirst(s, path, upiId, cols, envFor(path), Join(folder, n));
    }
    if step && (n == names[0] || MarkerPath(Join(folder, n)) in s1.markers) {
      // This step processed the path: s1 loads it, and t keeps s1's loads.
      assert s1.loaded[|s.loaded|] == Join(folder, n);
      assert t.loaded[|s.loaded|] == t.loaded[..|s1.loaded|][|s.loaded|];
      assert t.loaded[|s.loaded|..][0] == Join(folder, n);
    } else {
      assert n in names[1..];
      SweepLoadsEveryUnmarkedSpreadsheet(s1, upiId, folder, names[1..], cols, envFor, n);
      var j :| |s1.loaded| <= j < |t.loaded| && t.loaded[j] == Join(folder, n);
      assert t.loaded[|s.loaded|..][j - |s.loaded|] == Join(folder, n);
    }
  }

  /**
   * Once a call has written the file's marker, any later call for the same
   * file, from any retry count and whatever the spreadsheet then holds,
   * changes nothing: a fully sent invoice is not sent again.
   */
  lemma ProcessedFileIsNotReprocessed(s: Store, file: string, upiId: string, cols: Columns, env: Env, retry: nat,
                                      cols2: Columns, env2: Env, retry2: nat)
    requires MarkerPath(file) in s.markers || SomeAttemptSucceeds(file, upiId, cols, env, retry)
    ensures var t := Process(s, file, upiId, cols, env, retry);
            Process(t, file, upiId, cols2, env2, retry2) == t
  {
    var t := Process(s, file, upiId, cols, env, retry);
    if MarkerPath(file) !in s.markers {
      MarkerWrittenIffSomeAttemptSucceeds(s, file, upiId, cols, env, retry);
    }
    assert MarkerPath(file) in t.markers;
  }
}
