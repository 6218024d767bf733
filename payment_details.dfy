/** The payment-details endpoint (`backend/payment-details/index.py`): CRUD
    over the `payment_details` table. The table is a map from id to row
    with a counter for the next id the database hands out; the wall-clock
    time `NOW()` of an insert is a parameter. Text values are spliced into
    the SQL after quote doubling, and the stored value is what PostgreSQL
    reads back from that literal. */
module PaymentDetailsApi {
  import opened Wrappers
  import PyText
  import Listing

  datatype Detail = Detail(id: int, recipientName: string, accountNumber: string,
                           currency: string, isActive: bool, createdAt: int)

  /** The fields of the JSON body the handler reads; `None` for a missing key. */
  datatype Body = Body(id: Option<int>, recipientName: Option<string>, accountNumber: Option<string>,
                       currency: Option<string>, isActive: Option<bool>)

  /** `httpMethod`, the `id` query parameter (`None` when absent or empty)
      and the decoded body. */
  datatype Request = Request(httpMethod: Option<string>, queryId: Option<int>, body: Body)

  datatype Payload = NoContent | OneDetail(detail: Detail) | DetailList(details: seq<Detail>) | ErrorMessage(message: string)

  /** An HTTP response, or `Crashed` where the handler raises (the SQL text
      `WHERE id = None` is rejected by the database). */
  datatype Response = Response(status: int, payload: Payload) | Crashed

  function MethodOf(r: Request): string {
    r.httpMethod.GetOr("GET")
  }

  const ByCreated: Detail -> int := (d: Detail) => d.createdAt

  /** The value stored for a text field: the text as escaped for the SQL and
      read back by the database. */
  function Stored(text: string): (v: string)
    ensures v == text
  {
    PyText.ReadEscaped(text);
    PyText.SqlLiteralValue(PyText.EscapeQuotes(text))
  }

  /** The row a POST inserts under `id`: always active, missing texts empty,
      a missing currency `CNY`. */
  function NewDetail(id: int, body: Body, now: int): Detail {
    Detail(id, body.recipientName.GetOr(""), body.accountNumber.GetOr(""), body.currency.GetOr("CNY"), true, now)
  }

  /** Row `d` after a PUT: the four editable fields overwritten, a missing
      currency empty and a missing `is_active` true. */
  function UpdatedDetail(d: Detail, body: Body): Detail {
    d.(recipientName := body.recipientName.GetOr(""), accountNumber := body.accountNumber.GetOr(""),
       currency := body.currency.GetOr(""), isActive := body.isActive.GetOr(true))
  }

  class Table {
    var rows: map<int, Detail>
    var nextId: int

    /** Ids are below the counter, at least 1, and every row carries its id. */
    ghost predicate Valid()
      reads this
    {
      nextId >= 1 && forall k :: k in rows ==> 1 <= k < nextId && rows[k].id == k
    }

    constructor ()
      ensures Valid() && rows == map[] && nextId == 1
    {
      rows, nextId := map[], 1;
    }

    /** `SELECT ... FROM payment_details ORDER BY created_at DESC`: every
        row exactly once, newest first. */
    function Ordered(): (r: seq<Detail>)
      reads this
      requires Valid()
      ensures Listing.SortedDesc(r, ByCreated)
      ensures |r| == |rows|
      ensures forall k :: k in rows ==> rows[k] in r
      ensures forall d :: d in r ==> d.id in rows && rows[d.id] == d
    {
      var r := Listing.OrderedDesc(rows, nextId, ByCreated);
      Listing.IdsCoverAll(rows, nextId);
      r
    }

    /** GET: the row with the queried id when there is one; otherwise (no
        id, or an unknown one) the whole listing. */
    function GetResponse(queryId: Option<int>): (resp: Response)
      reads this
      requires Valid()
      ensures resp.Response? && resp.status == 200
      ensures queryId.Some? && queryId.value in rows ==> resp.payload == OneDetail(rows[queryId.value])
      ensures !(queryId.Some? && queryId.value in rows) ==> resp.payload == DetailList(Ordered())
    {
      if queryId.Some? && queryId.value in rows then Response(200, OneDetail(rows[queryId.value]))
      else Response(200, DetailList(Ordered()))
    }

    /** POST: inserts a row under a fresh id, always active, with missing
        texts empty and a missing currency `CNY`; answers 201 with the row. */
    method Create(body: Body, now: int) returns (resp: Response)
      requires Valid()
      modifies this
      ensures Valid()
      ensures var d := NewDetail(old(nextId), body, now);
              && old(nextId) !in old(rows)
              && rows == old(rows)[old(nextId) := d]
              && resp == Response(201, OneDetail(d))
              && GetResponse(Some(old(nextId))) == resp.(status := 200)
      ensures |rows| == |old(rows)| + 1 && nextId == old(nextId) + 1
    {
      var name := PyText.EscapeQuotes(body.recipientName.GetOr(""));
      var account := PyText.EscapeQuotes(body.accountNumber.GetOr(""));
      var currency := PyText.EscapeQuotes(body.currency.GetOr("CNY"));
      PyText.ReadEscaped(body.recipientName.GetOr(""));
      PyText.ReadEscaped(body.accountNumber.GetOr(""));
      PyText.ReadEscaped(body.currency.GetOr("CNY"));
      var d := Detail(nextId, PyText.SqlLiteralValue(name), PyText.SqlLiteralValue(account),
                      PyText.SqlLiteralValue(currency), true, now);
      rows := rows[nextId := d];
      nextId := nextId + 1;
      resp := Response(201, OneDetail(d));
    }

    /** PUT: overwrites the four editable fields of an existing row (a
        missing currency becomes empty, a missing `is_active` true) and
        answers 200 with it; an unknown id answers 404 and changes nothing;
        a missing id makes the SQL invalid. */
    method Update(body: Body) returns (resp: Response)
      requires Valid()
      modifies this
      ensures Valid() && nextId == old(nextId)
      ensures body.id.None? ==> resp == Crashed && rows == old(rows)
      ensures body.id.Some? && body.id.value !in old(rows) ==>
                resp == Response(404, ErrorMessage("Payment detail not found")) && rows == old(rows)
      ensures body.id.Some? && body.id.value in old(rows) ==>
                var d := UpdatedDetail(old(rows)[body.id.value], body);
                rows == old(rows)[body.id.value := d] && resp == Response(200, OneDetail(d))
    {
      var name := Stored(body.recipientName.GetOr(""));
      var account := Stored(body.accountNumber.GetOr(""));
      var currency := Stored(body.currency.GetOr(""));
      var active := body.isActive.GetOr(true);
      if body.id.None? {
        return Crashed;
      }
      var id := body.id.value;
      if id in rows {
        var d := rows[id].(recipientName := name, accountNumber := account, currency := currency, isActive := active);
        rows := rows[id := d];
        return Response(200, OneDetail(d));
      }
      resp := Response(404, ErrorMessage("Payment detail not found"));
    }

    /** DELETE: removes the queried id if it is there and answers 204 either way. */
    method Remove(queryId: Option<int>) returns (resp: Response)
      requires Valid()
      modifies this
      ensures Valid() && nextId == old(nextId)
      ensures queryId.None? ==> resp == Crashed && rows == old(rows)
      ensures queryId.Some? ==> rows == old(rows) - {queryId.value} && resp == Response(204, NoContent)
      ensures queryId.Some? ==> GetResponse(queryId) == Response(200, DetailList(Ordered()))
    {
      if queryId.None? {
        return Crashed;
      }
      rows := rows - {queryId.value};
      resp := Response(204, NoContent);
    }

    /** `handler`: dispatch on the method, `GET` when none is given. */
    method Handle(req: Request, now: int) returns (resp: Response)
      requires Valid()
      modifies this
      ensures Valid()
      ensures MethodOf(req) == "OPTIONS" ==> resp == Response(200, NoContent) && rows == old(rows) && nextId == old(nextId)
      ensures MethodOf(req) == "GET" ==> resp == old(GetResponse(req.queryId)) && rows == old(rows) && nextId == old(nextId)
      ensures MethodOf(req) == "POST" ==>
                var d := NewDetail(old(nextId), req.body, now);
                rows == old(rows)[old(nextId) := d] && nextId == old(nextId) + 1 && resp == Response(201, OneDetail(d))
      ensures MethodOf(req) in {"PUT", "DELETE"} ==> nextId == old(nextId)
      ensures MethodOf(req) == "PUT" && req.body.id.None? ==> resp == Crashed && rows == old(rows)
      ensures MethodOf(req) == "PUT" && req.body.id.Some? && req.body.id.value !in old(rows) ==>
                resp == Response(404, ErrorMessage("Payment detail not found")) && rows == old(rows)
      ensures MethodOf(req) == "PUT" && req.body.id.Some? && req.body.id.value in old(rows) ==>
                var d := UpdatedDetail(old(rows)[req.body.id.value], req.body);
                rows == old(rows)[req.body.id.value := d] && resp == Response(200, OneDetail(d))
      ensures MethodOf(req) == "DELETE" && req.queryId.None? ==> resp == Crashed && rows == old(rows)
      ensures MethodOf(req) == "DELETE" && req.queryId.Some? ==>
                rows == old(rows) - {req.queryId.value} && resp == Response(204, NoContent)
      ensures MethodOf(req) !in {"OPTIONS", "GET", "POST", "PUT", "DELETE"} ==>
                resp == Response(405, ErrorMessage("Method not allowed")) && rows == old(rows) && nextId == old(nextId)
    {
      var m := MethodOf(req);
      if m == "OPTIONS" {
        return Response(200, NoContent);
      }
      if m == "GET" {
        return GetResponse(req.queryId);
      }
      if m == "POST" {
        resp := Create(req.body, now);
        return;
      }
      if m == "PUT" {
        resp := Update(req.body);
        return;
      }
      if m == "DELETE" {
        resp := Remove(req.queryId);
        return;
      }
      resp := Response(405, ErrorMessage("Method not allowed"));
    }
  }
}
