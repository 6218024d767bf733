/** The webhook endpoint (`backend/telegram-webhook/index.py`): a press on
    an approve/reject button of a notify message arrives as a callback
    query whose data is `<action>_<transaction id>`; the handler sets the
    transaction's status and answers through the bot. The bot calls are
    collected in a log; their replies are not modelled. */
module TelegramWebhook {
  import opened Wrappers
  import Digits
  import PyText
  import TransactionsApi
  import TelegramNotify

  /** The four keys the handler reads from a callback query (`id`, `data`,
      `message.chat.id`, `message.message_id`); `None` for a missing key. */
  datatype CallbackQuery = CallbackQuery(id: Option<string>, data: Option<string>,
                                         chatId: Option<int>, messageId: Option<int>)

  /** The handler's direct indexing finds every key it reads; otherwise it
      raises `KeyError` before it touches the table. */
  predicate HasKeys(q: CallbackQuery) {
    q.id.Some? && q.data.Some? && q.chatId.Some? && q.messageId.Some?
  }

  /** `callbackQuery` is `None` when the update carries no `callback_query`. */
  datatype Request = Request(httpMethod: Option<string>, callbackQuery: Option<CallbackQuery>)

  datatype BotCall =
    | AnswerCallback(callbackId: string, text: string)
    | ClearKeyboard(chatId: int, messageId: int)
    | SendMessage(chatId: int, text: string)

  datatype Payload = NoContent | ErrorMessage(message: string) | Ok

  /** An HTTP response, or `Crashed` where the handler raises (a missing
      key, a callback data without exactly one `_`, or an id `int()` rejects). */
  datatype Response = Response(status: int, payload: Payload) | Crashed

  function MethodOf(r: Request): string {
    r.httpMethod.GetOr("GET")
  }

  /** `action, transaction_id = data.split('_')`: defined exactly when the
      data holds one `_`, and then the two sides of it. */
  function ParseCallback(data: string): (r: Option<(string, string)>)
    ensures r.Some? <==> PyText.Count(data, '_') == 1
    ensures r.Some? ==> data == r.value.0 + "_" + r.value.1
    ensures r.Some? ==> '_' !in r.value.0 && '_' !in r.value.1
  {
    var parts := PyText.Split(data, '_');
    if |parts| == 2 then
      PyText.JoinSplit(data, '_');
      assert parts[1..] == [parts[1]];
      Some((parts[0], parts[1]))
    else None
  }

  /** The status an action sets: only `approve` completes. */
  function NewStatus(action: string): (s: string)
    ensures s == "completed" <==> action == "approve"
    ensures s == "completed" || s == "failed"
  {
    if action == "approve" then "completed" else "failed"
  }

  /** The text the bot answers with: the label of the pressed button. */
  function StatusText(action: string): (t: string)
    ensures t == (if action == "approve" then TelegramNotify.ApproveText else TelegramNotify.RejectText)
  {
    if action == "approve" then "✅ Оплата получена" else "❌ Платёж отказан"
  }

  /** Parsing `<action>_<t>` gives back the action and `t` exactly when
      neither contains `_`. */
  lemma {:induction false} ParseFormatted(action: string, t: string)
    requires '_' !in action
    ensures ParseCallback(action + "_" + t) == Some((action, t)) <==> '_' !in t
  {
    if '_' !in t {
      assert PyText.Join([action, t], '_') == action + "_" + t;
      PyText.SplitJoin([action, t], '_');
    }
  }

  /** The buttons notify attaches for transaction `n` parse back to their
      action and to `n`. */
  lemma {:induction false} ButtonsRoundTrip(n: nat)
    ensures var k := TelegramNotify.KeyboardFor("payment_proof", Digits.NatText(n));
            && k.Some?
            && ParseCallback(k.value.approve.callbackData) == Some(("approve", Digits.NatText(n)))
            && ParseCallback(k.value.reject.callbackData) == Some(("reject", Digits.NatText(n)))
            && PyText.PyInt(Digits.NatText(n)) == Some(n)
            && NewStatus("approve") == "completed" && NewStatus("reject") == "failed"
  {
    var t := Digits.NatText(n);
    assert t != "N/A" by {
      assert Digits.IsDigit(t[0]);
    }
    assert '_' !in t by {
      forall i | 0 <= i < |t| ensures t[i] != '_' {
        assert Digits.IsDigit(t[i]);
      }
    }
    ParseFormatted("approve", t);
    ParseFormatted("reject", t);
    assert "approve_" + t == "approve" + "_" + t;
    assert "reject_" + t == "reject" + "_" + t;
    PyText.PyIntNatText(n);
  }

  /** A button press whose query has every key: well-formed data sets the
      status of exactly the named transaction (if it exists) and makes three
      bot calls; malformed data or an id `int()` rejects raises first. */
  method Press(q: CallbackQuery, table: TransactionsApi.Table) returns (resp: Response, calls: seq<BotCall>)
    requires table.Valid() && HasKeys(q)
    modifies table
    ensures table.Valid() && table.nextId == old(table.nextId)
    ensures var parsed := ParseCallback(q.data.value);
            if parsed.None? || PyText.PyInt(parsed.value.1).None? then
              resp == Crashed && calls == [] && table.rows == old(table.rows)
            else
              var id := PyText.PyInt(parsed.value.1).value;
              var text := StatusText(parsed.value.0);
              && resp == Response(200, Ok)
              && table.rows == (if id in old(table.rows)
                                then old(table.rows)[id := old(table.rows)[id].(status := NewStatus(parsed.value.0))]
                                else old(table.rows))
              && calls == [AnswerCallback(q.id.value, text), ClearKeyboard(q.chatId.value, q.messageId.value),
                           SendMessage(q.chatId.value, text + "\n\nTransaction ID: " + parsed.value.1)]
  {
    var parsed := ParseCallback(q.data.value);
    if parsed.None? {
      return Crashed, [];
    }
    var action := parsed.value.0;
    var transactionId := parsed.value.1;
    var id := PyText.PyInt(transactionId);
    if id.None? {
      return Crashed, [];
    }
    var newStatus := NewStatus(action);
    var text := StatusText(action);
    var _ := table.SetStatus(id.value, newStatus);
    calls := [AnswerCallback(q.id.value, text), ClearKeyboard(q.chatId.value, q.messageId.value),
              SendMessage(q.chatId.value, text + "\n\nTransaction ID: " + transactionId)];
    resp := Response(200, Ok);
  }

  /** `handler`. Only a POST carrying a callback query with every key reaches
      `Press`; everything else leaves the table alone. */
  method Handle(req: Request, table: TransactionsApi.Table) returns (resp: Response, calls: seq<BotCall>)
    requires table.Valid()
    modifies table
    ensures table.Valid() && table.nextId == old(table.nextId)
    ensures MethodOf(req) == "OPTIONS" ==> resp == Response(200, NoContent) && calls == [] && table.rows == old(table.rows)
    ensures MethodOf(req) !in {"OPTIONS", "POST"} ==>
              resp == Response(405, ErrorMessage("Method not allowed")) && calls == [] && table.rows == old(table.rows)
    ensures MethodOf(req) == "POST" && req.callbackQuery.None? ==>
              resp == Response(200, Ok) && calls == [] && table.rows == old(table.rows)
    ensures MethodOf(req) == "POST" && req.callbackQuery.Some? && !HasKeys(req.callbackQuery.value) ==>
              resp == Crashed && calls == [] && table.rows == old(table.rows)
    ensures MethodOf(req) == "POST" && req.callbackQuery.Some? && HasKeys(req.callbackQuery.value) ==>
              var q := req.callbackQuery.value;
              var parsed := ParseCallback(q.data.value);
              if parsed.None? || PyText.PyInt(parsed.value.1).None? then
                resp == Crashed && calls == [] && table.rows == old(table.rows)
              else
                var id := PyText.PyInt(parsed.value.1).value;
                var text := StatusText(parsed.value.0);
                && resp == Response(200, Ok)
                && table.rows == (if id in old(table.rows)
                                  then old(table.rows)[id := old(table.rows)[id].(status := NewStatus(parsed.value.0))]
                                  else old(table.rows))
                && calls == [AnswerCallback(q.id.value, text), ClearKeyboard(q.chatId.value, q.messageId.value),
                             SendMessage(q.chatId.value, text + "\n\nTransaction ID: " + parsed.value.1)]
  {
    var m := MethodOf(req);
    if m == "OPTIONS" {
      return Response(200, NoContent), [];
    }
    if m != "POST" {
      return Response(405, ErrorMessage("Method not allowed")), [];
    }
    if req.callbackQuery.None? {
      return Response(200, Ok), [];
    }
    var q := req.callbackQuery.value;
    if !HasKeys(q) {
      return Crashed, [];
    }
    resp, calls := Press(q, table);
  }
}
