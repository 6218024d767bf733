/** The transactions endpoint (`backend/transactions/index.py`): listing
    transactions with their payment detail, creating a transaction in
    `pending` with a payment detail chosen for it, and changing a
    transaction's status. The rouble rate 11.40 is the exact rational 57/5
    and `round(x, 2)` is exact round-half-to-even to cents; the clock is
    the parameter `now`. */
module TransactionsApi {
  import opened Wrappers
  import PyText
  import Listing
  import PaymentDetailsApi

  /** Roubles per yuan. */
  const Rate: real := 57.0 / 5.0

  datatype Transaction = Transaction(id: int, amount: real, currency: string, amountCny: real,
                                     status: string, createdAt: int, paymentDetailId: Option<int>)

  /** The `payment_details` entry of a response object: absent (the key is
      not set), JSON `null`, or the recipient and account of the detail. */
  datatype Attached = NotAttached | Null | Recipient(recipientName: string, accountNumber: string)

  datatype TxView = TxView(id: int, amount: real, currency: string, amountCny: real,
                           status: string, createdAt: int, paymentDetails: Attached)

  /** Fields of the JSON body; `None` for a missing key. */
  datatype Body = Body(id: Option<int>, amount: Option<real>, currency: Option<string>, status: Option<string>)

  datatype Request = Request(httpMethod: Option<string>, body: Body)

  datatype Payload =
    | NoContent
    | TxList(items: seq<TxView>)
    | Created(view: TxView)
    | Updated(id: int, amount: real, currency: string, status: string, createdAt: int)
    | ErrorMessage(message: string)

  /** An HTTP response, or `Crashed` where the handler raises (`float(None)`
      for a missing amount, `WHERE id = None` for a missing id). */
  datatype Response = Response(status: int, payload: Payload) | Crashed

  function MethodOf(r: Request): string {
    r.httpMethod.GetOr("GET")
  }

  /** Python's `round(x, 2)` on an exact value: to the nearest cent, ties to
      the even cent. */
  function RoundCents(x: real): (r: real)
    ensures (r * 100.0).Floor as real == r * 100.0
    ensures -1.0 / 200.0 <= r - x <= 1.0 / 200.0
  {
    var c := x * 100.0;
    var f := c.Floor;
    var frac := c - f as real;
    var n := if frac < 0.5 then f else if frac > 0.5 then f + 1 else if f % 2 == 0 then f else f + 1;
    n as real / 100.0
  }

  /** A whole number of cents is its own rounding. */
  lemma {:induction false} RoundCentsExact(cents: int)
    ensures RoundCents(cents as real / 100.0) == cents as real / 100.0
  {
    var c := (cents as real / 100.0) * 100.0;
    assert c == cents as real;
    assert c.Floor == cents;
  }

  /** Yuan for an amount: unchanged for `CNY`, otherwise converted at the rate. */
  function AmountCny(amount: real, currency: string): (r: real)
    ensures currency == "CNY" ==> r == amount
    ensures currency != "CNY" ==> -1.0 / 200.0 <= r - amount / Rate <= 1.0 / 200.0
  {
    if currency == "CNY" then amount else RoundCents(amount / Rate)
  }

  lemma {:induction false} AmountCnyRoubles()
    ensures AmountCny(11400.0, "RUB") == 1000.0
    ensures AmountCny(100.0, "RUB") == 8.77
  {
    assert 11400.0 / Rate == 100000.0 / 100.0;
    RoundCentsExact(100000);
    assert (100.0 / Rate) * 100.0 == 50000.0 / 57.0;
    assert (50000.0 / 57.0).Floor == 877 by {
      assert 877.0 <= 50000.0 / 57.0 < 878.0;
    }
  }

  predicate ActiveIn(d: PaymentDetailsApi.Detail, currency: string) {
    d.isActive && d.currency == currency
  }

  predicate Active(d: PaymentDetailsApi.Detail) {
    d.isActive
  }

  /** The payment detail a new transaction is linked to: an active detail in
      its currency if there is one, else any active detail, else none. Of
      several candidates the database may return any; this takes the
      lowest id. */
  function ChooseDetail(details: map<int, PaymentDetailsApi.Detail>, n: int, currency: string): (r: Option<int>)
    requires forall k :: k in details ==> 1 <= k < n
    ensures r.Some? ==> r.value in details && details[r.value].isActive
    ensures (exists k :: k in details && ActiveIn(details[k], currency)) ==>
              r.Some? && details[r.value].currency == currency
    ensures r.None? <==> forall k :: k in details ==> !details[k].isActive
  {
    var ids := Listing.Ids(details, n);
    var inCurrency := d => ActiveIn(d, currency);
    var same := Listing.FirstWhere(details, ids, inCurrency);
    if same.Some? then same
    else
      var any := Listing.FirstWhere(details, ids, Active);
      assert forall k :: k in details ==> !inCurrency(details[k]) by {
        Listing.FirstWhereNone(details, n, inCurrency);
      }
      assert any.None? ==> forall k :: k in details ==> !Active(details[k]) by {
        if any.None? {
          Listing.FirstWhereNone(details, n, Active);
        }
      }
      any
  }

  /** The LEFT JOIN of a transaction with its payment detail: `null` when no
      detail row joins or its recipient name is empty. */
  function Joined(t: Transaction, details: map<int, PaymentDetailsApi.Detail>): (a: Attached)
    ensures a != NotAttached
    ensures a.Recipient? <==> t.paymentDetailId.Some? && t.paymentDetailId.value in details
                              && details[t.paymentDetailId.value].recipientName != ""
    ensures a.Recipient? ==> a == Recipient(details[t.paymentDetailId.value].recipientName,
                                            details[t.paymentDetailId.value].accountNumber)
  {
    match t.paymentDetailId
    case None => Null
    case Some(k) =>
      if k in details && details[k].recipientName != "" then
        Recipient(details[k].recipientName, details[k].accountNumber)
      else Null
  }

  function ListItem(t: Transaction, details: map<int, PaymentDetailsApi.Detail>): TxView {
    TxView(t.id, t.amount, t.currency, t.amountCny, t.status, t.createdAt, Joined(t, details))
  }

  /** The row a POST inserts: `pending`, converted to yuan, linked to the
      chosen detail. */
  function NewTransaction(id: int, amount: real, currency: string,
                          details: map<int, PaymentDetailsApi.Detail>, n: int, now: int): Transaction
    requires forall k :: k in details ==> 1 <= k < n
  {
    Transaction(id, amount, currency, AmountCny(amount, currency), "pending", now, ChooseDetail(details, n, currency))
  }

  /** The POST response object: the row, with `payment_details` set only
      when a detail was chosen. */
  function CreatedView(t: Transaction, details: map<int, PaymentDetailsApi.Detail>): (v: TxView)
    requires t.paymentDetailId.Some? ==> t.paymentDetailId.value in details
    ensures v.id == t.id && v.status == t.status && v.amount == t.amount && v.amountCny == t.amountCny
    ensures v.paymentDetails.NotAttached? <==> t.paymentDetailId.None?
    ensures t.paymentDetailId.Some? ==>
              v.paymentDetails == Recipient(details[t.paymentDetailId.value].recipientName,
                                            details[t.paymentDetailId.value].accountNumber)
  {
    var base := TxView(t.id, t.amount, t.currency, t.amountCny, t.status, t.createdAt, NotAttached);
    match t.paymentDetailId
    case None => base
    case Some(k) => base.(paymentDetails := Recipient(details[k].recipientName, details[k].accountNumber))
  }

  /** The currency as spliced into the SQL reads back unchanged, and equals
      `CNY` exactly when the original does. */
  lemma {:induction false} EscapedCurrency(currency: string)
    ensures PyText.SqlLiteralValue(PyText.EscapeQuotes(currency)) == currency
    ensures PyText.EscapeQuotes(currency) == "CNY" <==> currency == "CNY"
  {
    PyText.ReadEscaped(currency);
    PyText.EscapeInjective(currency, "CNY");
  }

  /** Each row shaped for the list response, in order. */
  function Items(ts: seq<Transaction>, details: map<int, PaymentDetailsApi.Detail>): (r: seq<TxView>)
    ensures |r| == |ts|
    ensures forall i :: 0 <= i < |ts| ==> r[i] == ListItem(ts[i], details)
  {
    if ts == [] then [] else [ListItem(ts[0], details)] + Items(ts[1..], details)
  }

  lemma {:induction false} ItemsOfListing(ordered: seq<Transaction>, rows: map<int, Transaction>, n: int,
                       details: map<int, PaymentDetailsApi.Detail>)
    requires forall k :: k in rows ==> 1 <= k < n && rows[k].id == k
    requires Listing.SortedDesc(ordered, ByCreated)
    requires forall k :: k in rows && 1 <= k < n ==> rows[k] in ordered
    requires forall x :: x in ordered ==> exists k :: k in rows && 1 <= k < n && rows[k] == x
    ensures var r := Items(ordered, details);
            && (forall i, j :: 0 <= i < j < |r| ==> r[i].createdAt >= r[j].createdAt)
            && (forall i :: 0 <= i < |r| ==> r[i].id in rows && r[i] == ListItem(rows[r[i].id], details))
            && (forall k :: k in rows ==> ListItem(rows[k], details) in r)
  {
    var r := Items(ordered, details);
    forall i, j | 0 <= i < j < |r| ensures r[i].createdAt >= r[j].createdAt {
      assert ByCreated(ordered[i]) >= ByCreated(ordered[j]);
    }
    forall i | 0 <= i < |r| ensures r[i].id in rows && r[i] == ListItem(rows[r[i].id], details) {
      assert ordered[i] in ordered;
    }
    forall k | k in rows ensures ListItem(rows[k], details) in r {
      var i :| 0 <= i < |ordered| && ordered[i] == rows[k];
      assert r[i] == ListItem(rows[k], details);
    }
  }

  const ByCreated: Transaction -> int := (t: Transaction) => t.createdAt

  /** The row the POST inserts: the currency goes through the quote-doubling
      escape and reads back unchanged; the detail is the one the SELECT finds. */
  method InsertedRow(id: int, amount: real, original: string, details: PaymentDetailsApi.Table, now: int)
    returns (t: Transaction)
    requires details.Valid()
    ensures t == NewTransaction(id, amount, original, details.rows, details.nextId, now)
  {
    var currency := PyText.EscapeQuotes(original);
    assert PyText.SqlLiteralValue(currency) == original && (currency == "CNY" <==> original == "CNY") by {
      EscapedCurrency(original);
    }
    var amountCny := if currency == "CNY" then amount else RoundCents(amount / Rate);
    var chosen := ChooseDetail(details.rows, details.nextId, PyText.SqlLiteralValue(currency));
    t := Transaction(id, amount, PyText.SqlLiteralValue(currency), amountCny, "pending", now, chosen);
  }

  /** The object the POST answers with: `payment_details` is filled in only
      when a detail was attached. */
  method InsertedView(t: Transaction, details: PaymentDetailsApi.Table) returns (view: TxView)
    requires t.paymentDetailId.Some? ==> t.paymentDetailId.value in details.rows
    ensures view == CreatedView(t, details.rows)
  {
    view := TxView(t.id, t.amount, t.currency, t.amountCny, t.status, t.createdAt, NotAttached);
    if t.paymentDetailId.Some? {
      var d := details.rows[t.paymentDetailId.value];
      view := view.(paymentDetails := Recipient(d.recipientName, d.accountNumber));
    }
  }

  class Table {
    var rows: map<int, Transaction>
    var nextId: int

    ghost predicate Valid()
      reads this
    {
      nextId >= 1 && forall k :: k in rows ==> 1 <= k < nextId && rows[k].id == k
    }

    constructor ()
      ensures Valid() && rows == map[] && nextId == 1
    {
      rows, nextId := map[], 1;
    }

    /** GET: every transaction once, newest first, each joined with its
        payment detail. */
    function Listed(details: map<int, PaymentDetailsApi.Detail>): (r: seq<TxView>)
      reads this
      requires Valid()
      ensures |r| == |rows|
      ensures forall i, j :: 0 <= i < j < |r| ==> r[i].createdAt >= r[j].createdAt
      ensures forall i :: 0 <= i < |r| ==> r[i].id in rows && r[i] == ListItem(rows[r[i].id], details)
      ensures forall k :: k in rows ==> ListItem(rows[k], details) in r
    {
      var ordered := Listing.OrderedDesc(rows, nextId, ByCreated);
      Listing.IdsCoverAll(rows, nextId);
      ItemsOfListing(ordered, rows, nextId, details);
      Items(ordered, details)
    }

    /** POST: a new `pending` transaction under a fresh id, linked to the
        detail `ChooseDetail` picks. */
    method Create(body: Body, details: PaymentDetailsApi.Table, now: int) returns (resp: Response)
      requires Valid() && details.Valid()
      modifies this
      ensures Valid()
      ensures body.amount.None? ==> resp == Crashed && rows == old(rows) && nextId == old(nextId)
      ensures body.amount.Some? ==>
                var t := NewTransaction(old(nextId), body.amount.value, body.currency.GetOr("CNY"), details.rows, details.nextId, now);
                && old(nextId) !in old(rows)
                && rows == old(rows)[old(nextId) := t]
                && nextId == old(nextId) + 1
                && resp == Response(201, Created(CreatedView(t, details.rows)))
    {
      if body.amount.None? {
        return Crashed;
      }
      var t := InsertedRow(nextId, body.amount.value, body.currency.GetOr("CNY"), details, now);
      rows := rows[nextId := t];
      nextId := nextId + 1;
      var view := InsertedView(t, details);
      resp := Response(201, Created(view));
    }

    /** Sets the status of row `id` when it exists; nothing else changes. */
    method SetStatus(id: int, status: string) returns (found: bool)
      requires Valid()
      modifies this
      ensures Valid() && nextId == old(nextId)
      ensures found <==> id in old(rows)
      ensures found ==> rows == old(rows)[id := old(rows)[id].(status := status)]
      ensures !found ==> rows == old(rows)
    {
      found := id in rows;
      if found {
        rows := rows[id := rows[id].(status := status)];
      }
    }

    /** PUT: sets the status of the given id (a missing status is empty) and
        answers 200, or 404 when there is no such row. */
    method Update(body: Body) returns (resp: Response)
      requires Valid()
      modifies this
      ensures Valid() && nextId == old(nextId)
      ensures body.id.None? ==> resp == Crashed && rows == old(rows)
      ensures body.id.Some? && body.id.value !in old(rows) ==>
                resp == Response(404, ErrorMessage("Transaction not found")) && rows == old(rows)
      ensures body.id.Some? && body.id.value in old(rows) ==>
                var t := old(rows)[body.id.value];
                rows == old(rows)[body.id.value := t.(status := body.status.GetOr(""))]
                && resp == Response(200, Updated(t.id, t.amount, t.currency, body.status.GetOr(""), t.createdAt))
    {
      var status := PyText.EscapeQuotes(body.status.GetOr(""));
      PyText.ReadEscaped(body.status.GetOr(""));
      if body.id.None? {
        return Crashed;
      }
      var found := SetStatus(body.id.value, PyText.SqlLiteralValue(status));
      if found {
        var t := rows[body.id.value];
        return Response(200, Updated(t.id, t.amount, t.currency, t.status, t.createdAt));
      }
      resp := Response(404, ErrorMessage("Transaction not found"));
    }

    /** `handler`: dispatch on the method, `GET` when none is given. */
    method Handle(req: Request, details: PaymentDetailsApi.Table, now: int) returns (resp: Response)
      requires Valid() && details.Valid()
      modifies this
      ensures Valid()
      ensures MethodOf(req) == "OPTIONS" ==> resp == Response(200, NoContent) && rows == old(rows) && nextId == old(nextId)
      ensures MethodOf(req) == "GET" ==> resp == Response(200, TxList(old(Listed(details.rows)))) && rows == old(rows) && nextId == old(nextId)
      ensures MethodOf(req) == "POST" && req.body.amount.None? ==>
                resp == Crashed && rows == old(rows) && nextId == old(nextId)
      ensures MethodOf(req) == "POST" && req.body.amount.Some? ==>
                var t := NewTransaction(old(nextId), req.body.amount.value, req.body.currency.GetOr("CNY"),
                                        details.rows, details.nextId, now);
                && rows == old(rows)[old(nextId) := t]
                && nextId == old(nextId) + 1
                && resp == Response(201, Created(CreatedView(t, details.rows)))
      ensures MethodOf(req) == "PUT" ==> nextId == old(nextId)
      ensures MethodOf(req) == "PUT" && req.body.id.None? ==> resp == Crashed && rows == old(rows)
      ensures MethodOf(req) == "PUT" && req.body.id.Some? && req.body.id.value !in old(rows) ==>
                resp == Response(404, ErrorMessage("Transaction not found")) && rows == old(rows)
      ensures MethodOf(req) == "PUT" && req.body.id.Some? && req.body.id.value in old(rows) ==>
                var t := old(rows)[req.body.id.value];
                rows == old(rows)[req.body.id.value := t.(status := req.body.status.GetOr(""))]
                && resp == Response(200, Updated(t.id, t.amount, t.currency, req.body.status.GetOr(""), t.createdAt))
      ensures MethodOf(req) !in {"OPTIONS", "GET", "POST", "PUT"} ==>
                resp == Response(405, ErrorMessage("Method not allowed")) && rows == old(rows) && nextId == old(nextId)
    {
      var m := MethodOf(req);
      if m == "OPTIONS" {
        return Response(200, NoContent);
      }
      if m == "GET" {
        return Response(200, TxList(Listed(details.rows)));
      }
      if m == "POST" {
        resp := Create(req.body, details, now);
        return;
      }
      if m == "PUT" {
        resp := Update(req.body);
        return;
      }
      resp := Response(405, ErrorMessage("Method not allowed"));
    }
  }
}
