/**
 * The UPI payment link sent with each invoice message: a fixed, ordered list
 * of query parameters behind the `upi://pay?` scheme. The amount arrives here
 * already rendered as text, and the percent-encoding of the query is the
 * encoder's business (both are outside the model).
 */
module Payment {
  import opened Wrappers

  const Scheme: string := "upi://pay?"
  const Currency: string := "INR"
  const NotePrefix: string := "Invoice Payment for "

  /** The parameter names the link uses. */
  datatype ParamKey = Pa | Pn | Am | Cu | Tn {
    function Name(): string {
      match this
      case Pa => "pa"
      case Pn => "pn"
      case Am => "am"
      case Cu => "cu"
      case Tn => "tn"
    }
  }

  /** The parameter names, in the order the link lists them. */
  const ParamKeys: seq<ParamKey> := [Pa, Pn, Am, Cu, Tn]

  datatype QueryParam = QueryParam(key: ParamKey, value: string)

  datatype PaymentLink = UpiPay(params: seq<QueryParam>)

  function Keys(ps: seq<QueryParam>): (ks: seq<ParamKey>) {
    seq(|ps|, i requires 0 <= i < |ps| => ps[i].key)
  }

  /** The value of the first parameter called `key`, as a query reader sees it. */
  function Lookup(ps: seq<QueryParam>, key: ParamKey): (r: Option<string>)
    ensures r.Some? ==> QueryParam(key, r.value) in ps
    ensures r.None? ==> key !in Keys(ps)
  {
    if ps == [] then None
    else if ps[0].key == key then Some(ps[0].value)
    else
      var r := Lookup(ps[1..], key);
      assert Keys(ps) == [ps[0].key] + Keys(ps[1..]);
      r
  }

  /** Lookup answers with the value of the first parameter carrying the key. */
  lemma {:induction false} LookupFindsFirst(ps: seq<QueryParam>, key: ParamKey, i: nat)
    requires i < |ps| && ps[i].key == key
    requires forall j :: 0 <= j < i ==> ps[j].key != key
    ensures Lookup(ps, key) == Some(ps[i].value)
  {
    if i > 0 {
      LookupFindsFirst(ps[1..], key, i - 1);
    }
  }

  /**
   * The link for one customer: payee address `pa`, payee name `pn`, amount
   * `am`, currency `cu` fixed to INR, and transaction note `tn`, in that order.
   */
  function LinkFor(upiId: string, customer: string, amount: string): PaymentLink {
    UpiPay([
      QueryParam(Pa, upiId),
      QueryParam(Pn, customer),
      QueryParam(Am, amount),
      QueryParam(Cu, Currency),
      QueryParam(Tn, NotePrefix + customer)])
  }

  lemma LinkForKeys(upiId: string, customer: string, amount: string)
    ensures Keys(LinkFor(upiId, customer, amount).params) == ParamKeys
  {
    var ps := LinkFor(upiId, customer, amount).params;
    assert forall i | 0 <= i < 5 :: Keys(ps)[i] == ParamKeys[i];
  }

  /** Each parameter of the link is the one a reader finds under its key. */
  lemma LinkForLookupAt(upiId: string, customer: string, amount: string, i: nat)
    requires i < 5
    ensures var ps := LinkFor(upiId, customer, amount).params;
            Lookup(ps, ParamKeys[i]) == Some(ps[i].value)
  {
    var ps := LinkFor(upiId, customer, amount).params;
    assert ps[i].key == ParamKeys[i];
    LookupFindsFirst(ps, ParamKeys[i], i);
  }

  /**
   * A reader of the link finds the parameters in the fixed order, the payee
   * address, the customer's name and the amount it was built from, the
   * currency INR, and a note naming the customer.
   */
  lemma LinkForParams(upiId: string, customer: string, amount: string)
    ensures var ps := LinkFor(upiId, customer, amount).params;
      && Keys(ps) == ParamKeys
      && Lookup(ps, Pa) == Some(upiId)
      && Lookup(ps, Pn) == Some(customer)
      && Lookup(ps, Am) == Some(amount)
      && Lookup(ps, Cu) == Some(Currency)
      && Lookup(ps, Tn) == Some(NotePrefix + customer)
  {
    LinkForKeys(upiId, customer, amount);
    LinkForLookupAt(upiId, customer, amount, 0);
    LinkForLookupAt(upiId, customer, amount, 1);
    LinkForLookupAt(upiId, customer, amount, 2);
    LinkForLookupAt(upiId, customer, amount, 3);
    LinkForLookupAt(upiId, customer, amount, 4);
  }

  /** No parameter name occurs twice, as in the dictionary the link is built from. */
  lemma ParamNamesDistinct()
    ensures forall i, j :: 0 <= i < j < |ParamKeys| ==> ParamKeys[i].Name() != ParamKeys[j].Name()
  {
  }

  /** The link text: the scheme followed by whatever the query encoder makes of the parameters. */
  function Render(link: PaymentLink, encode: seq<QueryParam> -> string): (text: string)
    ensures |text| >= |Scheme| && text[..|Scheme|] == Scheme
    ensures text[|Scheme|..] == encode(link.params)
  {
    Scheme + encode(link.params)
  }
}
