/**
 * One processing attempt of an invoice spreadsheet: every row is turned into
 * a message (name, normalised phone number, amount, payment link) and sent;
 * a row whose columns cannot be read aborts the attempt with an exception,
 * while a failed send only clears the all-sent flag.
 *
 * The spreadsheet reader and the messaging client are oracles: `Env.sheetAt`
 * gives what reading the file yields on a given attempt (or that reading, or
 * setting up the client, raised), and `Env.delivered` gives the outcome of
 * the send for a given attempt and row.
 */
module Batch {
  import opened Wrappers
  import Phone
  import Payment

  /** A cell: `str(value)`, and `str(float(value))` when `float(value)` does not raise. */
  datatype Cell = Cell(text: string, asFloat: Option<string>)

  /** A spreadsheet row, keyed by column header. */
  datatype Row = Row(cells: map<string, Cell>)

  datatype Sheet = Unreadable | Table(rows: seq<Row>)

  /** The three configured column headers. */
  datatype Columns = Columns(customerName: string, phoneNumber: string, amount: string)

  /** Why a row aborts the attempt: a missing header (`KeyError`) or a non-numeric amount (`ValueError`). */
  datatype RowError = MissingColumn(column: string) | NotANumber(column: string)

  /**
   * What one outgoing message is made from: `file` records which spreadsheet
   * it was sent for, `phone` is the row's phone cell as read, and the
   * destination address and the payment link in the body derive from the
   * fields.
   */
  datatype Message = Message(file: string, phone: string, customer: string, amount: string, payee: string) {
    /** `whatsapp:` followed by the normalised number. */
    function To(): string {
      AddressPrefix + Phone.Normalize(phone)
    }

    function Link(): Payment.PaymentLink {
      Payment.LinkFor(payee, customer, amount)
    }
  }

  /** One call of the messaging client and whether it reported success. */
  datatype Send = Send(message: Message, delivered: bool)

  datatype Outcome = AllSent | SomeFailed | Raised

  datatype Attempt = Attempt(sends: seq<Send>, outcome: Outcome)

  datatype Env = Env(sheetAt: nat -> Sheet, delivered: (nat, nat) -> bool)

  const AddressPrefix: string := "whatsapp:"

  predicate WellFormed(row: Row, cols: Columns) {
    && cols.customerName in row.cells
    && cols.phoneNumber in row.cells
    && cols.amount in row.cells
    && row.cells[cols.amount].asFloat.Some?
  }

  /**
   * `e` is the error that reading `row` raises: a header missing from the row
   * with every header read before it present (name, then phone number, then
   * amount), or, with all three present, an amount that is not a number.
   */
  predicate FirstFailure(row: Row, cols: Columns, e: RowError) {
    match e
    case MissingColumn(c) =>
      && c !in row.cells
      && (|| c == cols.customerName
          || (cols.customerName in row.cells && c == cols.phoneNumber)
          || (cols.customerName in row.cells && cols.phoneNumber in row.cells && c == cols.amount))
    case NotANumber(c) =>
      && c == cols.amount
      && cols.customerName in row.cells && cols.phoneNumber in row.cells && cols.amount in row.cells
      && row.cells[c].asFloat.None?
  }

  /** The error reading a row raises: the first missing header, in the order name, phone number, amount, else a non-numeric amount. */
  function ErrorOf(row: Row, cols: Columns): (e: RowError)
    requires !WellFormed(row, cols)
    ensures FirstFailure(row, cols, e)
  {
    if cols.customerName !in row.cells then MissingColumn(cols.customerName)
    else if cols.phoneNumber !in row.cells then MissingColumn(cols.phoneNumber)
    else if cols.amount !in row.cells then MissingColumn(cols.amount)
    else NotANumber(cols.amount)
  }

  /** A row that cannot be read raises one error only. */
  lemma FirstFailureUnique(row: Row, cols: Columns, e1: RowError, e2: RowError)
    requires FirstFailure(row, cols, e1) && FirstFailure(row, cols, e2)
    ensures e1 == e2
  {
  }

  /** The message sent for a readable row. */
  function MessageFor(file: string, upiId: string, row: Row, cols: Columns): (m: Message)
    requires WellFormed(row, cols)
    ensures m.file == file
  {
    Message(file, row.cells[cols.phoneNumber].text, row.cells[cols.customerName].text,
            row.cells[cols.amount].asFloat.value, upiId)
  }

  /** The message for one row, or the error that reading the row raises. */
  function RowMessage(file: string, upiId: string, row: Row, cols: Columns): (r: Result<Message, RowError>)
    ensures r.Ok? <==> WellFormed(row, cols)
    ensures r.Ok? ==> r.value.file == file
  {
    if WellFormed(row, cols) then Ok(MessageFor(file, upiId, row, cols)) else Err(ErrorOf(row, cols))
  }

  /** A message's address is `whatsapp:` and a `+`-prefixed number ending in the phone text. */
  lemma AddressShape(m: Message)
    ensures var to := m.To();
            && |to| > |AddressPrefix| && to[..|AddressPrefix|] == AddressPrefix
            && Phone.HasPlus(to[|AddressPrefix|..])
            && to[|to| - |m.phone|..] == m.phone
  {
    assert m.To()[|AddressPrefix|..] == Phone.Normalize(m.phone);
  }

  /**
   * What a row's message holds: the customer's name and the amount read from
   * the row, an address `whatsapp:` followed by a number that starts with `+`
   * and ends in the phone cell's text, and a payment link to the payee whose
   * name and amount are the row's. A row that cannot be read raises for the
   * first header missing, in the order name, phone number, amount, and
   * otherwise for the amount not being a number.
   */
  lemma RowMessageContent(file: string, upiId: string, row: Row, cols: Columns)
    ensures var r := RowMessage(file, upiId, row, cols);
      && (r.Ok? ==>
            var m := r.value;
            var to := m.To();
            var phone := row.cells[cols.phoneNumber].text;
            && m.customer == row.cells[cols.customerName].text
            && Some(m.amount) == row.cells[cols.amount].asFloat
            && |to| > |AddressPrefix| && to[..|AddressPrefix|] == AddressPrefix
            && Phone.HasPlus(to[|AddressPrefix|..])
            && to[|to| - |phone|..] == phone
            && Payment.Lookup(m.Link().params, Payment.Pa) == Some(upiId)
            && Payment.Lookup(m.Link().params, Payment.Pn) == Some(m.customer)
            && Payment.Lookup(m.Link().params, Payment.Am) == Some(m.amount))
      && (r.Err? ==> FirstFailure(row, cols, r.error))
  {
    var r := RowMessage(file, upiId, row, cols);
    if r.Ok? {
      var m := r.value;
      assert m == MessageFor(file, upiId, row, cols);
      assert m.phone == row.cells[cols.phoneNumber].text;
      AddressShape(m);
      Payment.LinkForParams(upiId, m.customer, m.amount);
    } else {
      assert r.error == ErrorOf(row, cols);
    }
  }

  /** The outcome of an attempt, given whether the sends so far all succeeded and how the rest went. */
  function Then(allSoFar: bool, rest: Outcome): Outcome {
    if rest == Raised then Raised else if allSoFar then rest else SomeFailed
  }

  /** The sends made for `rows[i..]` and how the attempt ends. */
  function SendFrom(file: string, upiId: string, cols: Columns, env: Env, attempt: nat, rows: seq<Row>, i: nat): Attempt
    requires i <= |rows|
    decreases |rows| - i
  {
    if i == |rows| then Attempt([], AllSent)
    else if !WellFormed(rows[i], cols) then Attempt([], Raised)
    else
      var m := RowMessage(file, upiId, rows[i], cols).value;
      var ok := env.delivered(attempt, i);
      var rest := SendFrom(file, upiId, cols, env, attempt, rows, i + 1);
      Attempt([Send(m, ok)] + rest.sends, Then(ok, rest.outcome))
  }

  /** Unfolding one well-formed row of an attempt. */
  lemma SendFromStep(file: string, upiId: string, cols: Columns, env: Env, attempt: nat, rows: seq<Row>, i: nat)
    requires i < |rows| && WellFormed(rows[i], cols)
    ensures var rest := SendFrom(file, upiId, cols, env, attempt, rows, i + 1);
            var ok := env.delivered(attempt, i);
            SendFrom(file, upiId, cols, env, attempt, rows, i)
              == Attempt([Send(RowMessage(file, upiId, rows[i], cols).value, ok)] + rest.sends, Then(ok, rest.outcome))
  {
  }

  /** Attempt number `attempt` (the retry count it runs under) on `file`. */
  function AttemptAt(file: string, upiId: string, cols: Columns, env: Env, attempt: nat): Attempt {
    match env.sheetAt(attempt)
    case Unreadable => Attempt([], Raised)
    case Table(rows) => SendFrom(file, upiId, cols, env, attempt, rows, 0)
  }

  /** Index of the first row at or after `i` that aborts the attempt, or `|rows|` if none does. */
  function FirstMalformed(rows: seq<Row>, cols: Columns, i: nat): (k: nat)
    requires i <= |rows|
    ensures i <= k <= |rows|
    ensures forall j :: i <= j < k ==> WellFormed(rows[j], cols)
    ensures k < |rows| ==> !WellFormed(rows[k], cols)
    decreases |rows| - i
  {
    if i == |rows| || !WellFormed(rows[i], cols) then i else FirstMalformed(rows, cols, i + 1)
  }

  predicate AllDelivered(env: Env, attempt: nat, from: nat, to: nat) {
    forall j :: from <= j < to ==> env.delivered(attempt, j)
  }

  /**
   * Reference description of an attempt from row `i` on: one send per row up
   * to the first malformed row, each carrying that row's message and its
   * delivery outcome; the attempt raised if a malformed row was reached, and
   * otherwise ended all-sent exactly when every send succeeded.
   */
  lemma {:induction false} SendFromCharacterized(file: string, upiId: string, cols: Columns, env: Env, attempt: nat, rows: seq<Row>, i: nat)
    requires i <= |rows|
    ensures var a := SendFrom(file, upiId, cols, env, attempt, rows, i);
            var k := FirstMalformed(rows, cols, i);
            && |a.sends| == k - i
            && (forall j :: i <= j < k ==>
                  a.sends[j - i] == Send(RowMessage(file, upiId, rows[j], cols).value, env.delivered(attempt, j)))
            && a.outcome == if k < |rows| then Raised
                            else if AllDelivered(env, attempt, i, |rows|) then AllSent
                            else SomeFailed
    decreases |rows| - i
  {
    if i < |rows| && WellFormed(rows[i], cols) {
      SendFromCharacterized(file, upiId, cols, env, attempt, rows, i + 1);
      SendFromStep(file, upiId, cols, env, attempt, rows, i);
      assert AllDelivered(env, attempt, i, |rows|)
         <==> env.delivered(attempt, i) && AllDelivered(env, attempt, i + 1, |rows|);
      var a := SendFrom(file, upiId, cols, env, attempt, rows, i);
      var rest := SendFrom(file, upiId, cols, env, attempt, rows, i + 1);
      var k := FirstMalformed(rows, cols, i);
      forall j | i <= j < k
        ensures a.sends[j - i] == Send(RowMessage(file, upiId, rows[j], cols).value, env.delivered(attempt, j))
      {
        if j > i {
          assert a.sends[j - i] == rest.sends[j - (i + 1)];
        }
      }
    }
  }

  /**
   * Within one attempt on a readable sheet, each row before the first
   * malformed one gets exactly one send, in order, whatever the outcome of
   * the earlier sends; the attempt ends all-sent exactly when no row raised
   * and every send succeeded.
   */
  lemma AttemptCharacterized(file: string, upiId: string, cols: Columns, env: Env, attempt: nat, rows: seq<Row>)
    requires env.sheetAt(attempt) == Table(rows)
    ensures var a := AttemptAt(file, upiId, cols, env, attempt);
            var k := FirstMalformed(rows, cols, 0);
            && |a.sends| == k
            && (forall j :: 0 <= j < k ==>
                  a.sends[j] == Send(RowMessage(file, upiId, rows[j], cols).value, env.delivered(attempt, j)))
            && (a.outcome == AllSent <==> k == |rows| && AllDelivered(env, attempt, 0, |rows|))
            && (a.outcome == Raised <==> k < |rows|)
  {
    var a := SendFrom(file, upiId, cols, env, attempt, rows, 0);
    var k := FirstMalformed(rows, cols, 0);
    SendFromCharacterized(file, upiId, cols, env, attempt, rows, 0);
    forall j | 0 <= j < k
      ensures a.sends[j] == Send(RowMessage(file, upiId, rows[j], cols).value, env.delivered(attempt, j))
    {
      assert a.sends[j - 0] == a.sends[j];
    }
    assert AttemptAt(file, upiId, cols, env, attempt) == a;
  }

  predicate AllWellFormed(rows: seq<Row>, cols: Columns) {
    forall j :: 0 <= j < |rows| ==> WellFormed(rows[j], cols)
  }

  /** The message of every row, in row order, for a sheet whose rows are all readable. */
  function RowMessages(file: string, upiId: string, rows: seq<Row>, cols: Columns): (ms: seq<Message>)
    requires AllWellFormed(rows, cols)
    ensures |ms| == |rows|
    ensures forall j :: 0 <= j < |rows| ==> ms[j] == RowMessage(file, upiId, rows[j], cols).value
  {
    seq(|rows|, j requires 0 <= j < |rows| => RowMessage(file, upiId, rows[j], cols).value)
  }

  /**
   * An attempt on a sheet whose rows are all readable sends once to every
   * row and never raises; it ends all-sent exactly when every send succeeded.
   */
  lemma WellFormedAttempt(file: string, upiId: string, cols: Columns, env: Env, attempt: nat, rows: seq<Row>)
    requires env.sheetAt(attempt) == Table(rows)
    requires AllWellFormed(rows, cols)
    ensures var a := AttemptAt(file, upiId, cols, env, attempt);
            && |a.sends| == |rows|
            && a.outcome != Raised
            && (a.outcome == AllSent <==> AllDelivered(env, attempt, 0, |rows|))
            && Messages(a.sends) == RowMessages(file, upiId, rows, cols)
  {
    AttemptCharacterized(file, upiId, cols, env, attempt, rows);
    assert FirstMalformed(rows, cols, 0) == |rows|;
  }

  /** Every message of an attempt is addressed for the attempt's own file. */
  lemma AttemptSendsForFile(file: string, upiId: string, cols: Columns, env: Env, attempt: nat)
    ensures forall s :: s in AttemptAt(file, upiId, cols, env, attempt).sends ==> s.message.file == file
  {
    if env.sheetAt(attempt).Table? {
      AttemptCharacterized(file, upiId, cols, env, attempt, env.sheetAt(attempt).rows);
    }
  }

  /** The number of rows a read yields (none when the read raises). */
  function RowCount(sheet: Sheet): nat {
    match sheet
    case Unreadable => 0
    case Table(rows) => |rows|
  }

  /** An attempt never sends more messages than the sheet has rows. */
  lemma AttemptSendsAtMostRows(file: string, upiId: string, cols: Columns, env: Env, attempt: nat)
    ensures |AttemptAt(file, upiId, cols, env, attempt).sends| <= RowCount(env.sheetAt(attempt))
  {
    if env.sheetAt(attempt).Table? {
      AttemptCharacterized(file, upiId, cols, env, attempt, env.sheetAt(attempt).rows);
    }
  }

  function Messages(sends: seq<Send>): (ms: seq<Message>)
    ensures |ms| == |sends|
    ensures forall i :: 0 <= i < |sends| ==> ms[i] == sends[i].message
  {
    seq(|sends|, i requires 0 <= i < |sends| => sends[i].message)
  }

  lemma MessagesAppend(xs: seq<Send>, ys: seq<Send>)
    ensures Messages(xs + ys) == Messages(xs) + Messages(ys)
  {
    assert forall i :: 0 <= i < |xs + ys| ==> Messages(xs + ys)[i] == (Messages(xs) + Messages(ys))[i];
  }

  /**
   * A failed send never stops the loop: what an attempt sends, and to whom,
   * does not depend on the delivery outcomes.
   */
  lemma SendsIndependentOfDelivery(file: string, upiId: string, cols: Columns, env1: Env, env2: Env, attempt: nat)
    requires env1.sheetAt(attempt) == env2.sheetAt(attempt)
    ensures Messages(AttemptAt(file, upiId, cols, env1, attempt).sends)
         == Messages(AttemptAt(file, upiId, cols, env2, attempt).sends)
  {
    if env1.sheetAt(attempt).Table? {
      AttemptCharacterized(file, upiId, cols, env1, attempt, env1.sheetAt(attempt).rows);
      AttemptCharacterized(file, upiId, cols, env2, attempt, env1.sheetAt(attempt).rows);
    }
  }

  /**
   * The row loop of one attempt, as the source runs it: one send per row,
   * a failed send clears the all-sent flag and the loop goes on, and a row
   * that cannot be read raises and ends the attempt.
   */
  method SendRows(file: string, upiId: string, cols: Columns, env: Env, attempt: nat, rows: seq<Row>)
    returns (sends: seq<Send>, outcome: Outcome)
    ensures Attempt(sends, outcome) == SendFrom(file, upiId, cols, env, attempt, rows, 0)
  {
    var allSent := true;
    sends := [];
    var i := 0;
    while i < |rows| && WellFormed(rows[i], cols)
      invariant 0 <= i <= |rows|
      invariant sends + SendFrom(file, upiId, cols, env, attempt, rows, i).sends
             == SendFrom(file, upiId, cols, env, attempt, rows, 0).sends
      invariant SendFrom(file, upiId, cols, env, attempt, rows, 0).outcome
             == Then(allSent, SendFrom(file, upiId, cols, env, attempt, rows, i).outcome)
    {
      var message := RowMessage(file, upiId, rows[i], cols).value;
      var ok := env.delivered(attempt, i);
      SendFromStep(file, upiId, cols, env, attempt, rows, i);
      assert sends + [Send(message, ok)] + SendFrom(file, upiId, cols, env, attempt, rows, i + 1).sends
          == sends + SendFrom(file, upiId, cols, env, attempt, rows, i).sends;
      sends := sends + [Send(message, ok)];
      if !ok {
        allSent := false;
      }
      i := i + 1;
    }
    if i < |rows| {
      // reading row i raised: the attempt ends here
      assert SendFrom(file, upiId, cols, env, attempt, rows, i) == Attempt([], Raised);
      outcome := Raised;
    } else {
      outcome := if allSent then AllSent else SomeFailed;
    }
  }

  /**
   * One attempt: reading the file (or setting up the client) may raise
   * before any row is sent; otherwise the row loop runs.
   */
  method RunAttempt(file: string, upiId: string, cols: Columns, env: Env, attempt: nat)
    returns (sends: seq<Send>, outcome: Outcome)
    ensures Attempt(sends, outcome) == AttemptAt(file, upiId, cols, env, attempt)
  {
    match env.sheetAt(attempt)
    case Unreadable =>
      return [], Raised;
    case Table(rows) =>
      sends, outcome := SendRows(file, upiId, cols, env, attempt, rows);
  }
}
