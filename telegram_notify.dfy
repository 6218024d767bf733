/** The notify endpoint (`backend/telegram-notify/index.py`): checks the
    request, strips a data-URL prefix from the image, builds the caption
    and sends the photo to the bot chat, with approve/reject buttons for a
    payment proof. The base64 decode, the bot token lookup, the request id
    and Telegram's reply are parameters. */
module TelegramNotify {
  import opened Wrappers
  import PyText

  /** Fields of the JSON body; `None` for a missing key. */
  datatype Body = Body(image: Option<string>, chatId: Option<string>, amount: Option<string>,
                       currency: Option<string>, imageType: Option<string>, transactionId: Option<string>)

  /** `body` is `None` when the text is not valid JSON. */
  datatype Request = Request(httpMethod: Option<string>, body: Option<Body>)

  datatype Button = Button(text: string, callbackData: string)
  datatype Keyboard = Keyboard(approve: Button, reject: Button)

  /** One `sendPhoto` call: the chat, the caption, the text handed to the
      base64 decoder and the inline keyboard if any. */
  datatype Photo = Photo(chatId: string, caption: string, imageText: string, keyboard: Option<Keyboard>)

  /** What `requests.post` to Telegram gave: a reply, or an exception. */
  datatype SendResult = Replied(status: int, text: string) | SendRaised

  datatype Payload = NoContent | ErrorMessage(message: string) | ExceptionText | SendFailed(details: string) | Sent

  /** The response and the photo sent on the way, if one was. */
  datatype Outcome = Outcome(status: int, payload: Payload, photo: Option<Photo>)

  const DefaultChat := "-1003174200950"
  const ApproveText := "✅ Оплата получена"
  const RejectText := "❌ Платёж отказан"
  const ProofTitle := "✅ Скриншот оплаты"
  const QrTitle := "💰 Новая заявка на пополнение (QR-код)"

  function MethodOf(r: Request): string {
    r.httpMethod.GetOr("GET")
  }

  predicate Truthy(s: Option<string>) {
    s.Some? && s.value != ""
  }

  /** `image.split(',')[1]` when the image holds a comma, else the image. */
  function StripDataUrl(image: string): (r: string)
    ensures ',' !in r
    ensures ',' !in image ==> r == image
  {
    if ',' in image then
      PyText.CountZeroIff(image, ',');
      PyText.Split(image, ',')[1]
    else
      PyText.CountZeroIff(image, ',');
      image
  }

  /** A single-comma data URL loses exactly its prefix. */
  lemma {:induction false} StripPrefix(prefix: string, payload: string)
    requires ',' !in prefix && ',' !in payload
    ensures StripDataUrl(prefix + "," + payload) == payload
  {
    var parts := [prefix, payload];
    assert PyText.Join(parts, ',') == prefix + "," + payload;
    PyText.SplitJoin(parts, ',');
  }

  /** The text after the first `c` in `s`, if `s` holds one. */
  function AfterFirst(s: string, c: char): (r: Option<string>)
    ensures r.None? <==> c !in s
    ensures r.Some? ==> |r.value| < |s| && r.value == s[|s| - |r.value|..] && s[|s| - |r.value| - 1] == c
  {
    if s == [] then None
    else if s[0] == c then Some(s[1..])
    else AfterFirst(s[1..], c)
  }

  /** What dropping a data-URL prefix means: everything after the first
      comma, or the image itself when it has none. */
  function DropDataUrlPrefix(image: string): string {
    match AfterFirst(image, ',')
    case None => image
    case Some(rest) => rest
  }

  /** A comma-free prefix and its comma are dropped, and the rest is kept
      whole, commas included. */
  lemma {:induction false} DropsExactlyPrefix(prefix: string, rest: string)
    requires ',' !in prefix
    ensures DropDataUrlPrefix(prefix + "," + rest) == rest
  {
    AfterCommaFreePrefix(prefix, rest);
  }

  lemma {:induction false} AfterCommaFreePrefix(prefix: string, rest: string)
    requires ',' !in prefix
    ensures AfterFirst(prefix + "," + rest, ',') == Some(rest)
  {
    if prefix != [] {
      assert (prefix + "," + rest)[1..] == prefix[1..] + "," + rest;
      AfterCommaFreePrefix(prefix[1..], rest);
    } else {
      assert prefix + "," + rest == [','] + rest;
    }
  }

  /** With at most one comma, `split(',')[1]` drops exactly the prefix. */
  lemma {:induction false} StripAgreesOnOneComma(image: string)
    requires PyText.Count(image, ',') <= 1
    ensures StripDataUrl(image) == DropDataUrlPrefix(image)
  {
    PyText.CountZeroIff(image, ',');
    if ',' in image {
      var parts := PyText.Split(image, ',');
      PyText.JoinSplit(image, ',');
      assert parts[1..] == [parts[1]];
      assert image == parts[0] + "," + parts[1];
      AfterCommaFreePrefix(parts[0], parts[1]);
    }
  }

  /** With a second comma the two differ: `split(',')[1]` keeps only the
      text between the first two commas. */
  lemma StripKeepsSecondPieceOnly()
    ensures StripDataUrl("p,a,b") == "a"
    ensures DropDataUrlPrefix("p,a,b") == "a,b"
  {
    var parts := ["p", "a", "b"];
    assert PyText.Join(parts[2..], ',') == "b";
    assert PyText.Join(parts[1..], ',') == "a,b";
    assert PyText.Join(parts, ',') == "p,a,b";
    PyText.SplitJoin(parts, ',');
    AfterCommaFreePrefix("p", "a,b");
  }

  /** The lines of the caption: a title by kind, a blank line, then the
      amount, transaction id and request id. */
  function CaptionLines(imageType: string, amount: string, currency: string,
                        transactionId: string, requestId: string): (lines: seq<string>)
    ensures |lines| == 5 && lines[1] == ""
    ensures lines[0] == if imageType == "payment_proof" then ProofTitle else QrTitle
    ensures lines[2] == "Сумма: " + amount + " " + currency
    ensures lines[3] == "Transaction ID: " + transactionId
    ensures lines[4] == "Request ID: " + requestId
  {
    [if imageType == "payment_proof" then ProofTitle else QrTitle, "",
     "Сумма: " + amount + " " + currency, "Transaction ID: " + transactionId, "Request ID: " + requestId]
  }

  function Caption(imageType: string, amount: string, currency: string,
                   transactionId: string, requestId: string): string
  {
    PyText.Join(CaptionLines(imageType, amount, currency, transactionId, requestId), '\n')
  }

  /** The caption, appended to piece by piece. */
  method BuildCaption(imageType: string, amount: string, currency: string,
                      transactionId: string, requestId: string) returns (caption: string)
    ensures caption == Caption(imageType, amount, currency, transactionId, requestId)
  {
    var title := if imageType == "payment_proof" then ProofTitle else QrTitle;
    var amountLine := "Сумма: " + amount + " " + currency;
    var idLine := "Transaction ID: " + transactionId;
    var requestLine := "Request ID: " + requestId;
    caption := title + "\n\n";
    caption := caption + amountLine + "\n";
    caption := caption + idLine + "\n";
    caption := caption + requestLine;
    PyText.JoinFive(title, "", amountLine, idLine, requestLine, '\n');
    assert title + "\n\n" == title + ['\n'] + "" + ['\n'];
  }

  /** Neither caption title holds a line break. */
  lemma TitlesOneLine()
    ensures '\n' !in ProofTitle && '\n' !in QrTitle
  {
  }

  /** No caption label holds a line break. */
  lemma LabelsOneLine()
    ensures '\n' !in "Сумма: " && '\n' !in " " && '\n' !in "Transaction ID: " && '\n' !in "Request ID: "
  {
  }

  /** When no field holds a line break, splitting the caption on line
      breaks gives back its lines. */
  lemma {:induction false} CaptionSplits(imageType: string, amount: string, currency: string,
                      transactionId: string, requestId: string)
    requires '\n' !in amount && '\n' !in currency && '\n' !in transactionId && '\n' !in requestId
    ensures PyText.Split(Caption(imageType, amount, currency, transactionId, requestId), '\n')
            == CaptionLines(imageType, amount, currency, transactionId, requestId)
  {
    var lines := CaptionLines(imageType, amount, currency, transactionId, requestId);
    assert '\n' !in lines[0] by { TitlesOneLine(); }
    assert '\n' !in lines[2] && '\n' !in lines[3] && '\n' !in lines[4] by { LabelsOneLine(); }
    assert forall i :: 0 <= i < 5 ==> '\n' !in lines[i];
    PyText.SplitJoin(lines, '\n');
  }

  /** The approve/reject keyboard: only for a payment proof that names a
      transaction. */
  function KeyboardFor(imageType: string, transactionId: string): (k: Option<Keyboard>)
    ensures k.Some? <==> imageType == "payment_proof" && transactionId != "N/A"
    ensures k.Some? ==> (k.value.approve == Button(ApproveText, "approve_" + transactionId)
                         && k.value.reject == Button(RejectText, "reject_" + transactionId))
  {
    if imageType == "payment_proof" && transactionId != "N/A" then
      Some(Keyboard(Button(ApproveText, "approve_" + transactionId), Button(RejectText, "reject_" + transactionId)))
    else None
  }

  /** The photo a valid request sends. */
  function PhotoFor(b: Body, requestId: string): Photo
    requires Truthy(b.image)
  {
    var imageType := b.imageType.GetOr("qr_code");
    var transactionId := b.transactionId.GetOr("N/A");
    Photo(b.chatId.GetOr(DefaultChat),
          Caption(imageType, b.amount.GetOr(""), b.currency.GetOr("CNY"), transactionId, requestId),
          StripDataUrl(b.image.value), KeyboardFor(imageType, transactionId))
  }

  /** `handler`. The checks run in a fixed order: OPTIONS, the method, the
      body, the image, the bot token, the decode; the photo is sent only
      when all pass, and only Telegram's 200 gives 200. */
  method Handle(req: Request, botToken: Option<string>, requestId: string, decodeOk: bool, reply: SendResult)
    returns (out: Outcome)
    ensures MethodOf(req) == "OPTIONS" ==> out == Outcome(200, NoContent, None)
    ensures MethodOf(req) !in {"OPTIONS", "POST"} ==> out == Outcome(405, ErrorMessage("Method not allowed"), None)
    ensures MethodOf(req) == "POST" && req.body.None? ==> out == Outcome(500, ExceptionText, None)
    ensures MethodOf(req) == "POST" && req.body.Some? && !Truthy(req.body.value.image) ==>
              out == Outcome(400, ErrorMessage("Image is required"), None)
    ensures MethodOf(req) == "POST" && req.body.Some? && Truthy(req.body.value.image) && !Truthy(botToken) ==>
              out == Outcome(500, ErrorMessage("Bot token not configured"), None)
    ensures MethodOf(req) == "POST" && req.body.Some? && Truthy(req.body.value.image) && Truthy(botToken) && !decodeOk ==>
              out == Outcome(500, ExceptionText, None)
    ensures out.photo.Some? <==>
              MethodOf(req) == "POST" && req.body.Some? && Truthy(req.body.value.image) && Truthy(botToken) && decodeOk
    ensures out.photo.Some? ==> out.photo.value == PhotoFor(req.body.value, requestId)
    ensures out.photo.Some? ==> (out.status == 200 <==> reply.Replied? && reply.status == 200)
    ensures out.photo.Some? && reply.Replied? && reply.status != 200 ==> out == Outcome(500, SendFailed(reply.text), out.photo)
    ensures out.photo.Some? && reply.SendRaised? ==> out.payload == ExceptionText
    ensures out.status == 200 ==> out.payload == NoContent || out.payload == Sent
  {
    var m := MethodOf(req);
    if m == "OPTIONS" {
      return Outcome(200, NoContent, None);
    }
    if m != "POST" {
      return Outcome(405, ErrorMessage("Method not allowed"), None);
    }
    if req.body.None? {
      return Outcome(500, ExceptionText, None);
    }
    var b := req.body.value;
    if !Truthy(b.image) {
      return Outcome(400, ErrorMessage("Image is required"), None);
    }
    if !Truthy(botToken) {
      return Outcome(500, ErrorMessage("Bot token not configured"), None);
    }
    var image := b.image.value;
    if ',' in image {
      image := StripDataUrl(image);
    }
    if !decodeOk {
      return Outcome(500, ExceptionText, None);
    }
    var imageType := b.imageType.GetOr("qr_code");
    var transactionId := b.transactionId.GetOr("N/A");
    var caption := BuildCaption(imageType, b.amount.GetOr(""), b.currency.GetOr("CNY"), transactionId, requestId);
    var photo := Photo(b.chatId.GetOr(DefaultChat), caption, image, KeyboardFor(imageType, transactionId));
    match reply
    case Replied(status, text) =>
      if status == 200 {
        out := Outcome(200, Sent, Some(photo));
      } else {
        out := Outcome(500, SendFailed(text), Some(photo));
      }
    case SendRaised =>
      out := Outcome(500, ExceptionText, Some(photo));
  }
}
