# Alipay top-up bot — a verified model

This project models the logic of a wallet top-up service. It has two parts:

- A React front end: the customer's top-up wizard, the operator's administration panel and the history screen.
- Four Python serverless handlers:
  - the payment-details table API;
  - the transactions table API;
  - a notifier that posts the customer's QR code or payment screenshot to a Telegram chat;
  - a webhook that receives the operator's approve/reject button press from that chat.

Each core source file has one Dafny module:

| module | file | form |
|---|---|---|
| `TopupWizard` | `topup_wizard.dfy` | a pure state machine (`Apply`, `Enabled`, `Inv`) with lemmas, and the class `TopupPage` whose handler methods update its fields |
| `AdminPanel` | `admin_panel.dfy` | the class `Panel`. Its handlers update the form, the edit session and the sub-view, and append every HTTP call to a request log |
| `PaymentDetailsApi` | `payment_details.dfy` | the class `Table`: a map from id to row and the next id. Its methods `Handle`, `Create`, `Update` and `Remove` are the handler branches |
| `TransactionsApi` | `transactions.dfy` | the class `Table`, like the one above. The detail choice, the yuan conversion and the list shaping are functions |
| `TelegramNotify` | `telegram_notify.dfy` | the checks in a fixed order, a caption built by appends, and the approve/reject keyboard |
| `TelegramWebhook` | `telegram_webhook.dfy` | the parse of the callback data, the mapping from action to status, and the status update on the transactions table |
| `HistoryView` | `history_view.dfy` | total functions from a status to a label or icon, the amount line, and the list |

Shared modules model the library behaviour the handlers rely on:

- `Wrappers`: `Option`, and JavaScript truthiness of an id.
- `Digits`: decimal digit strings.
- `PyText`:
  - Python's `str.split` and `str.join`;
  - the quote-doubling escape and PostgreSQL's reading of the quoted literal it goes into;
  - `int()` on text.
- `JsNumber`: JavaScript's `parseFloat`, computed exactly into `real`, with `NaN` and `Infinity`.
- `Listing`: `ORDER BY created_at DESC` over a table, and `... WHERE p LIMIT 1`.

The main results:

- Along every click sequence in which each QR upload's 500 ms timer fires before the next click, the wizard reaches the payment details only for a positive amount, and only after a QR upload (`TopupWizard.InvAlongSession`, `TopupWizard.DetailsOnlyAfterAcceptedAmount`). The amount input is a number input, so it only ever holds the empty text or a valid floating-point number.
- The administration panel sends no request on a validation failure or a declined delete.
- The quote escape round-trips (`PyText.ReadEscaped`, `PyText.EscapeRead`).
- A new transaction is linked to a detail in the fixed fallback order (`TransactionsApi.ChooseDetail`).
- The `approve_<id>` / `reject_<id>` data the notifier puts on its buttons parses back, in the webhook, to the same action and id, and `int()` of the id gives the number (`TelegramWebhook.ButtonsRoundTrip`).

## Where the code and its description disagree

- The wizard's amount check is `!amount || parseFloat(amount) <= 0` (src/pages/Index.tsx:31). The description of the system says the check lets only a positive amount through. The check alone does not: a text with no digits, such as `abc`, parses to `NaN`, and `NaN <= 0` is false (`TopupWizard.NonNumericAmountPasses`). On the page this cannot happen. The amount comes from an `<Input type="number">` (src/pages/Index.tsx:120-126), whose value the browser sanitises to the empty text or a valid floating-point number. No such value parses to `NaN` (`TopupWizard.ValidFloatParses`), and a text without digits is not one (`TopupWizard.NoDigitNotEnterable`). So on the page only positive amounts get past the check.
- The QR upload sets the flag at once and opens the details step 500 ms later (src/pages/Index.tsx:42-51). Suppose the user clicks "Назад" and then the top-up button within those 500 ms. The button resets the amount to the empty text and the flag to false (src/pages/Index.tsx:62-68), and then the timer still opens the details step. The details screen then shows an empty amount with no QR code. The model takes the timer as firing before the next click, so its session results hold only under that timing.
- The notifier strips a data-URL prefix with `image.split(',')[1]` (backend/telegram-notify/index.py:73). This keeps the text between the first and the second comma, not everything after the first one. `TelegramNotify.DropDataUrlPrefix` states the intended meaning. The two agree for an image with at most one comma (`TelegramNotify.StripAgreesOnOneComma`), and they differ on `p,a,b` (`TelegramNotify.StripKeepsSecondPieceOnly`). A base64 payload holds no comma, so the two agree on real data URLs. `TelegramNotify.Handle` follows the code.
- The back end converts at 11.40 roubles per yuan (backend/transactions/index.py:13). The top-up screen shows an estimate at 11.45 (src/components/TopupView.tsx:104). The model uses the back end's rate as the exact rational 57/5. The 11.45 screen is not part of this model.

## Model

| member | source | states |
|---|---|---|
| TopupWizard.RenderedViews | src/pages/Index.tsx:340-343 | exactly one of the four screens is drawn, the one for the current view |
| TopupWizard.RenderedSteps | src/pages/Index.tsx:108-180 | exactly one of the three panels of the top-up card is drawn, the one for the current step |
| TopupWizard.InvInitial | src/pages/Index.tsx:20-23 | the initial page state satisfies the wizard invariant |
| TopupWizard.InvPreserved | src/pages/Index.tsx:30-68 | every event whose control is on screen keeps the invariant: the amount is a value the number input can hold; past the amount step it is non-empty and `parseFloat` of it is positive; the QR code is uploaded exactly on the details step |
| TopupWizard.InvAlongSession | src/pages/Index.tsx:30-51 | any click sequence through on-screen controls keeps the invariant, when each upload's timer fires before the next click |
| TopupWizard.DetailsOnlyAfterAcceptedAmount | src/pages/Index.tsx:30-51 | from the initial state, under the same timing, reaching the details step implies that a QR code was uploaded and that the amount is positive |
| TopupWizard.ValidFloatParses | src/pages/Index.tsx:120-126 | `parseFloat` of any value the number input can hold other than the empty text is a number, never NaN |
| TopupWizard.NoDigitNotEnterable | src/pages/Index.tsx:120-126 | a text without a digit is not a value the number input can hold |
| TopupWizard.IntegersEnterable | src/pages/Index.tsx:120-126 | every integer, negative ones included, can be typed into the number input |
| TopupWizard.ToastsOnlyGrow | src/pages/Index.tsx:30-51 | no event removes a notification already raised |
| TopupWizard.StartTopupResets | src/pages/Index.tsx:62-68 | starting a top-up yields the same state whatever came before: the top-up view, the amount step, an empty amount and no QR code |
| TopupWizard.IntegerAmounts | src/pages/Index.tsx:31 | the empty amount, `0` and every negative integer are rejected; every positive integer is accepted |
| TopupWizard.NonNumericAmountPasses | src/pages/Index.tsx:31 | the check alone lets a non-empty text without digits through (NaN is not <= 0), and submitting it would open the QR step |
| TopupWizard.TopupPage.constructor | src/pages/Index.tsx:20-23 | the page starts on the main view, the amount step, an empty amount and no QR code |
| TopupWizard.TopupPage.StartTopup | src/pages/Index.tsx:62-68 | sets the top-up view, the amount step, an empty amount and no QR code, whatever the prior state |
| TopupWizard.TopupPage.OpenHistory | src/pages/Index.tsx:76 | switches to the history view and changes nothing else |
| TopupWizard.TopupPage.OpenHelp | src/pages/Index.tsx:84 | switches to the help view and changes nothing else |
| TopupWizard.TopupPage.Back | src/pages/Index.tsx:98-99 | returns to the main view; the step, the amount and the QR flag are kept |
| TopupWizard.TopupPage.AmountChanged | src/pages/Index.tsx:120-126 | for a value the number input can hold, replaces the amount text and changes nothing else |
| TopupWizard.TopupPage.SubmitAmount | src/pages/Index.tsx:30-40 | a rejected amount adds an error notification and leaves the step; an accepted one moves to the QR step and changes nothing else |
| TopupWizard.TopupPage.UploadQr | src/pages/Index.tsx:42-51 | marks the QR code uploaded and moves to the details step with a confirmation notification |
| TopupWizard.TopupPage.Done | src/pages/Index.tsx:217-218 | returns to the main view and changes nothing else |
| TopupWizard.Apply | src/pages/Index.tsx:30-218 | definition of the page state after each handler; its contract is stated by the `TopupPage` methods (each leaves `State() == Apply(old(State()), e)`), `InvPreserved`, `ToastsOnlyGrow` and `StartTopupResets` |
| TopupWizard.Enabled | src/pages/Index.tsx:62-218 | definition of which control is on screen for each event; its contract is stated by `InvPreserved` and `RenderedSteps` |
| TopupWizard.Run | src/pages/Index.tsx:30-218 | definition of a session as a sequence of events; its contract is stated by `InvAlongSession` and `DetailsOnlyAfterAcceptedAmount` |
| TopupWizard.Clickable | src/pages/Index.tsx:62-218 | definition of a session whose every event is on screen when it happens; its contract is stated by `InvAlongSession` |
| TopupWizard.Inv | src/pages/Index.tsx:20-68 | definition of the wizard invariant; its contract is stated by `InvInitial`, `InvPreserved` and `InvAlongSession` |
| TopupWizard.AmountRejected | src/pages/Index.tsx:31 | definition of the amount check; its contract is stated by `IntegerAmounts`, `NonNumericAmountPasses` and `TopupPage.SubmitAmount` |
| TopupWizard.ValidFloatingPoint | src/pages/Index.tsx:120-126 | definition of the texts a number input accepts; its contract is stated by `ValidFloatParses`, `NoDigitNotEnterable` and `IntegersEnterable` |
| TopupWizard.ValidUnsignedFloat | src/pages/Index.tsx:120-126 | definition of the unsigned part of `ValidFloatingPoint`; its contract is stated by `ValidFloatParses` |
| TopupWizard.ValidExponent | src/pages/Index.tsx:120-126 | definition of the exponent part of `ValidFloatingPoint`; its contract is stated by `ValidFloatParses` |
| TopupWizard.NumberInputValue | src/pages/Index.tsx:120-126 | definition of the values the amount field can hold; its contract is stated by `InvPreserved`, `ValidFloatParses` and `TopupPage.AmountChanged` |
| JsNumber.ParseNatText | src/pages/Index.tsx:31 | `parseFloat` of a decimal integer is that integer |
| JsNumber.ParseNegatedNatText | src/pages/Index.tsx:31 | `parseFloat` of `-` followed by a decimal integer is its negation |
| JsNumber.ParseSkipsWhitespace | src/pages/Index.tsx:31 | leading JavaScript white space does not change the result of `parseFloat` |
| JsNumber.ParseNaNIff | src/pages/Index.tsx:31 | `parseFloat` gives NaN exactly when no numeral starts the trimmed, unsigned text |
| JsNumber.ParseUnsignedDigits | src/pages/Index.tsx:31 | a run of decimal digits with nothing after it parses to the number it spells |
| JsNumber.ParseUnsignedNaNIff | src/pages/Index.tsx:31 | after the sign, the result is NaN exactly when neither `Infinity` nor a digit or a dot followed by a digit comes first |
| JsNumber.ParseNoDigitIsNaN | src/pages/Index.tsx:31 | a text with no digit and no `I` parses to NaN |
| JsNumber.ParseFloat | src/pages/Index.tsx:31 | definition of JavaScript's `parseFloat`, built from `TrimStart`, `ParseTrimmed`, `ParseUnsigned`, `ParseDecimal` and `ParseFraction`; its contract is stated by `ParseNaNIff`, `ParseNatText`, `ParseNegatedNatText`, `ParseSkipsWhitespace` and `ParseNoDigitIsNaN` |
| AdminPanel.SaveRequest | src/components/AdminPanel.tsx:92-112 | a PUT carrying the form and the id exactly when `editingId` is truthy (not null, not 0); otherwise a POST carrying the form |
| AdminPanel.ListRequest | src/components/AdminPanel.tsx:51-57 | each sub-view fetches its own list and only that one |
| AdminPanel.FormOf | src/components/AdminPanel.tsx:127-133 | the form takes exactly the four editable fields of the detail |
| AdminPanel.EditThenSave | src/components/AdminPanel.tsx:92-135 | editing a detail and saving it unchanged sends its own fields back as an update, except that a detail with id 0 is created anew |
| AdminPanel.Panel.constructor | src/components/AdminPanel.tsx:39-57 | empty lists, the payment-details sub-view, no edit session, the default form, and one fetch of the payment-details list |
| AdminPanel.Panel.SelectView | src/components/AdminPanel.tsx:51-57 | changing the sub-view logs the fetch of the new sub-view's list; clicking the current sub-view fetches nothing; the form and the session are kept |
| AdminPanel.Panel.PaymentDetailsLoaded | src/components/AdminPanel.tsx:59-67 | a finished payment-details fetch replaces that list only |
| AdminPanel.Panel.TransactionsLoaded | src/components/AdminPanel.tsx:69-77 | a finished transactions fetch replaces that list only |
| AdminPanel.Panel.EditField | src/components/AdminPanel.tsx:205-243 | an input changes the one form field it is bound to |
| AdminPanel.Panel.Submit | src/components/AdminPanel.tsx:79-125 | an incomplete form sends nothing and keeps form and session; a resolved save sends the save call and a list fetch, resets the form to the defaults and ends the session; a failed save sends the call and keeps form and session |
| AdminPanel.Panel.Edit | src/components/AdminPanel.tsx:127-135 | the form takes the record's four editable fields and the session targets its id |
| AdminPanel.Panel.Delete | src/components/AdminPanel.tsx:137-157 | a declined confirmation sends nothing; otherwise the DELETE is sent and, when it resolves, the list is fetched again |
| AdminPanel.Panel.Cancel | src/components/AdminPanel.tsx:259-267 | ends the edit session and resets the form to the defaults |
| AdminPanel.ApplyEdit | src/components/AdminPanel.tsx:205-244 | definition of the form after one input change; its contract is stated by `Panel.EditField` |
| AdminPanel.FormComplete | src/components/AdminPanel.tsx:82 | definition of the check that the recipient and the account are filled; its contract is stated by `Panel.Submit` |
| Wrappers.IdTruthy | src/components/AdminPanel.tsx:92 | definition of the truthiness of `editingId`; its contract is stated by `AdminPanel.SaveRequest` and `AdminPanel.Panel.Submit` |
| PyText.Split | backend/telegram-webhook/index.py:50 | `split` yields one more piece than there are separators, and no piece contains the separator |
| PyText.JoinSplit | backend/telegram-webhook/index.py:50 | joining the pieces of a split with the separator restores the text |
| PyText.SplitJoin | backend/telegram-webhook/index.py:50 | splitting the join of separator-free pieces gives back those pieces |
| PyText.EscapeQuotes | backend/payment-details/index.py:85-87 | doubling quotes lengthens the text by its number of quotes |
| PyText.EscapedIsPaired | backend/payment-details/index.py:85-87 | every quote in an escaped text is doubled |
| PyText.ReadEscaped | backend/payment-details/index.py:85-87 | the database reads an escaped literal back as the original text |
| PyText.EscapeRead | backend/payment-details/index.py:85-87 | escaping the database's reading of a text whose quotes are doubled gives that text back |
| PyText.EscapeInjective | backend/transactions/index.py:71-73 | two texts escape alike exactly when they are equal |
| PyText.PyIntDigits | backend/telegram-webhook/index.py:67 | `int()` of a non-empty run of decimal digits is the number they spell |
| PyText.PyIntNatText | backend/telegram-webhook/index.py:67 | `int()` of a decimal integer is that integer |
| PyText.PyInt | backend/telegram-webhook/index.py:67 | definition of Python's `int()` on a text; its contract is stated by `PyIntDigits`, `PyIntNatText` and `TelegramWebhook.Press` |
| PyText.SqlLiteralValue | backend/payment-details/index.py:85-91 | definition of the text the database reads from a quoted literal; its contract is stated by `ReadEscaped`, `EscapeRead` and `PaymentDetailsApi.Stored` |
| PyText.Join | backend/telegram-notify/index.py:82-91 | definition of joining pieces with a separator; its contract is stated by `JoinSplit`, `SplitJoin` and `TelegramNotify.CaptionSplits` |
| Listing.OrderedDesc | backend/payment-details/index.py:60-73 | the listing is ordered by creation time, newest first, and holds each row of the table exactly once |
| Listing.SortDesc | backend/payment-details/index.py:60-73 | the sorted rows are ordered by key, largest first, and are a permutation of the input |
| Listing.FirstWhere | backend/transactions/index.py:76-80 | `LIMIT 1` returns a matching row if there is one, and nothing only when no row matches |
| PaymentDetailsApi.Stored | backend/payment-details/index.py:85-91 | a text stored after escaping reads back as the text sent |
| PaymentDetailsApi.Table.Ordered | backend/payment-details/index.py:60-73 | GET without an id lists every row once, newest first |
| PaymentDetailsApi.Table.GetResponse | backend/payment-details/index.py:32-81 | GET with an existing id answers 200 with that one row; with no id or an unknown id, 200 with the full listing |
| PaymentDetailsApi.Table.Create | backend/payment-details/index.py:83-111 | POST answers 201 with the new row under a fresh id. The table gains exactly that row: active whatever the body says, missing texts empty, a missing currency `CNY`. A GET for the new id returns it |
| PaymentDetailsApi.Table.Update | backend/payment-details/index.py:113-151 | PUT overwrites the four editable fields of an existing id (`is_active` defaults to true, a missing currency becomes empty) and answers 200; an absent id answers 404 and changes nothing; a missing id raises |
| PaymentDetailsApi.Table.Remove | backend/payment-details/index.py:153-167 | DELETE removes the id if present and answers 204 either way |
| PaymentDetailsApi.Table.Handle | backend/payment-details/index.py:14-175 | OPTIONS answers 200 without touching the table; GET changes nothing; POST adds exactly the new row under a fresh id and answers 201 with it; PUT overwrites an existing row, answers 404 for an absent id and raises without one; DELETE removes the id and answers 204, or raises without one; any other method answers 405 and changes nothing |
| PaymentDetailsApi.MethodOf | backend/payment-details/index.py:14 | definition of the request method, `GET` when absent; its contract is stated by `Table.Handle` |
| PaymentDetailsApi.NewDetail | backend/payment-details/index.py:85-91 | definition of the row a POST inserts; its contract is stated by `Stored` and `Table.Create` |
| PaymentDetailsApi.UpdatedDetail | backend/payment-details/index.py:116-123 | definition of a row after a PUT; its contract is stated by `Table.Update` |
| PaymentDetailsApi.Table.Valid | backend/payment-details/index.py:91 | definition of the table invariant: every id lies below the next id; every method of `Table` keeps it |
| PaymentDetailsApi.Table.constructor | backend/payment-details/index.py:91 | an empty table whose first insert is given id 1 |
| TransactionsApi.RoundCents | backend/transactions/index.py:73 | `round(x, 2)` is a whole number of cents within half a cent of `x` |
| TransactionsApi.RoundCentsExact | backend/transactions/index.py:73 | rounding leaves a whole number of cents unchanged |
| TransactionsApi.AmountCny | backend/transactions/index.py:73 | for `CNY` the yuan amount is the amount; otherwise it is the amount divided by 11.40, within half a cent |
| TransactionsApi.AmountCnyRoubles | backend/transactions/index.py:73 | 11400 roubles are 1000 yuan, and 100 roubles are 8.77 yuan |
| TransactionsApi.ChooseDetail | backend/transactions/index.py:76-87 | an active detail of the same currency if one exists, else any active detail; no detail exactly when none is active |
| TransactionsApi.Joined | backend/transactions/index.py:41-57 | a listed transaction's `payment_details` is its detail's recipient and account, or null when no detail joins or the recipient name is empty |
| TransactionsApi.CreatedView | backend/transactions/index.py:101-118 | the POST response carries `payment_details` exactly when a detail was chosen, and then that detail's recipient and account |
| TransactionsApi.EscapedCurrency | backend/transactions/index.py:71-77 | the escaped currency reads back unchanged and equals `CNY` exactly when the original does |
| TransactionsApi.Items | backend/transactions/index.py:47-58 | the list response has one object per row, in order |
| TransactionsApi.ItemsOfListing | backend/transactions/index.py:42-58 | the shaped list is ordered newest first and holds each transaction, joined, exactly once |
| TransactionsApi.Table.Listed | backend/transactions/index.py:34-58 | GET lists every transaction once, newest first, each with its joined payment detail |
| TransactionsApi.Table.Create | backend/transactions/index.py:68-126 | POST with an amount adds one `pending` row under a fresh id, converted to yuan and linked to the chosen detail, and answers 201 with it; a missing amount raises and changes nothing |
| TransactionsApi.Table.SetStatus | backend/transactions/index.py:133-138 | only the status of the given id changes, and only if that row exists |
| TransactionsApi.Table.Update | backend/transactions/index.py:128-162 | PUT changes only the status of the given id and answers 200; an absent id answers 404 and changes nothing; a missing id raises |
| TransactionsApi.Table.Handle | backend/transactions/index.py:15-170 | OPTIONS answers 200 without touching the table; GET answers the listing; POST with an amount inserts exactly the new `pending` row under a fresh id and answers 201 with it, and without one raises and changes nothing; PUT changes only the status of an existing id, answers 404 for an absent id and raises without one; any other method answers 405 |
| TransactionsApi.MethodOf | backend/transactions/index.py:16 | definition of the request method, `GET` when absent; its contract is stated by `Table.Handle` |
| TransactionsApi.ActiveIn | backend/transactions/index.py:77 | definition of the first query's condition; its contract is stated by `ChooseDetail` |
| TransactionsApi.Active | backend/transactions/index.py:84 | definition of the fallback query's condition; its contract is stated by `ChooseDetail` |
| TransactionsApi.ListItem | backend/transactions/index.py:47-58 | definition of one object of the list response; its contract is stated by `Items`, `ItemsOfListing` and `Table.Listed` |
| TransactionsApi.NewTransaction | backend/transactions/index.py:70-96 | definition of the row a POST inserts; its contract is stated by `Table.Create` and `Table.Handle` |
| TransactionsApi.InsertedRow | backend/transactions/index.py:70-96 | the table gains exactly the row `NewTransaction` describes, under the next id; its caller is `Table.Create` |
| TransactionsApi.InsertedView | backend/transactions/index.py:101-118 | the response object is `CreatedView` of the inserted row; its caller is `Table.Create` |
| TransactionsApi.Table.Valid | backend/transactions/index.py:91 | definition of the table invariant: every id lies below the next id; every method of `Table` keeps it |
| TransactionsApi.Table.constructor | backend/transactions/index.py:91 | an empty table whose first insert is given id 1 |
| TelegramNotify.StripDataUrl | backend/telegram-notify/index.py:72-73 | the text handed to the decoder has no comma, and an image without a comma is unchanged |
| TelegramNotify.StripPrefix | backend/telegram-notify/index.py:72-73 | an image `prefix,payload` with one comma loses exactly the prefix |
| TelegramNotify.AfterFirst | backend/telegram-notify/index.py:72-73 | the text after the first occurrence of a character: nothing exactly when it does not occur, else a suffix that follows an occurrence |
| TelegramNotify.DropsExactlyPrefix | backend/telegram-notify/index.py:72-73 | the intended prefix removal drops a comma-free prefix and its comma and keeps the rest whole, commas included |
| TelegramNotify.StripAgreesOnOneComma | backend/telegram-notify/index.py:72-73 | with at most one comma, `split(',')[1]` equals the intended prefix removal |
| TelegramNotify.StripKeepsSecondPieceOnly | backend/telegram-notify/index.py:72-73 | on `p,a,b`, `split(',')[1]` gives `a` while the intended removal gives `a,b` |
| TelegramNotify.CaptionLines | backend/telegram-notify/index.py:82-91 | the caption's title depends only on whether the type is `payment_proof`; the other lines carry the amount and currency, the transaction id and the request id |
| TelegramNotify.BuildCaption | backend/telegram-notify/index.py:82-91 | the caption built by appends is those lines joined by line breaks |
| TelegramNotify.CaptionSplits | backend/telegram-notify/index.py:82-91 | when no field holds a line break, splitting the caption on line breaks gives back its lines |
| TelegramNotify.KeyboardFor | backend/telegram-notify/index.py:105-118 | buttons are attached exactly when the type is `payment_proof` and the id is not `N/A`; their data are `approve_<id>` and `reject_<id>` |
| TelegramNotify.Handle | backend/telegram-notify/index.py:13-156 | OPTIONS answers 200; any other method but POST answers 405; then, in order, an unreadable body answers 500, a missing image 400, a missing bot token 500, and a failed decode 500. A photo is sent exactly when all of these pass, with the defaults applied, and only Telegram's 200 gives 200 |
| TelegramNotify.MethodOf | backend/telegram-notify/index.py:14 | definition of the request method, `GET` when absent; its contract is stated by `Handle` |
| TelegramNotify.Truthy | backend/telegram-notify/index.py:48 | definition of the truthiness of an optional text (also used at line 60); its contract is stated by `Handle` |
| TelegramNotify.DropDataUrlPrefix | backend/telegram-notify/index.py:72-73 | definition of the intended prefix removal; its contract is stated by `DropsExactlyPrefix`, `StripAgreesOnOneComma` and `StripKeepsSecondPieceOnly` |
| TelegramNotify.AfterCommaFreePrefix | backend/telegram-notify/index.py:72-73 | the text after the first comma of `p,r`, with `p` comma-free, is `r` |
| TelegramNotify.Caption | backend/telegram-notify/index.py:82-91 | definition of the photo caption; its contract is stated by `CaptionLines`, `BuildCaption` and `CaptionSplits` |
| TelegramNotify.TitlesOneLine | backend/telegram-notify/index.py:82-91 | neither caption title holds a line break |
| TelegramNotify.LabelsOneLine | backend/telegram-notify/index.py:82-91 | no fixed label of the caption holds a line break |
| TelegramNotify.PhotoFor | backend/telegram-notify/index.py:39-118 | definition of the photo sent for a body, with the defaults applied; its contract is stated by `Handle` and `KeyboardFor` |
| TelegramWebhook.ParseCallback | backend/telegram-webhook/index.py:50 | the data parse succeeds exactly when the data holds one `_`, and then yields the two sides of it |
| TelegramWebhook.NewStatus | backend/telegram-webhook/index.py:58-63 | `approve` gives `completed`; every other action gives `failed` |
| TelegramWebhook.StatusText | backend/telegram-webhook/index.py:58-63 | the bot answers with the label of the button that was pressed |
| TelegramWebhook.ParseFormatted | backend/telegram-webhook/index.py:50 | parsing `<action>_<t>`, for an action without `_`, gives back the action and `t` exactly when `t` has no `_` |
| TelegramWebhook.ButtonsRoundTrip | backend/telegram-webhook/index.py:50-67 | the buttons the notifier attaches for transaction `n` parse back to `approve` or `reject` and to the text of `n`; `int()` of that text is `n`; the actions map to `completed` and `failed` |
| TelegramWebhook.Press | backend/telegram-webhook/index.py:43-116 | for a callback query with every key: malformed data or an id `int()` rejects raises with the table untouched; otherwise only the named transaction gets the status of the action, and the answer, the keyboard removal and the result message are sent, in that order |
| TelegramWebhook.Handle | backend/telegram-webhook/index.py:13-122 | OPTIONS answers 200 and any method other than POST answers 405. Without a callback query it answers 200 and changes nothing. A missing key of the callback query, malformed data or an id `int()` rejects raises with the table untouched. Otherwise only the named transaction's status changes, and the answer, the keyboard removal and the result message are sent |
| TelegramWebhook.MethodOf | backend/telegram-webhook/index.py:14 | definition of the request method, `GET` when absent; its contract is stated by `Handle` |
| TelegramWebhook.HasKeys | backend/telegram-webhook/index.py:43-47 | definition of the keys the handler reads from a callback query; its contract is stated by `Press` and `Handle` |
| HistoryView.StatusIcon | src/components/HistoryView.tsx:24-35 | each of the three statuses has its own icon, and exactly the other statuses get the plain circle |
| HistoryView.StatusText | src/components/HistoryView.tsx:37-48 | the three statuses get their Russian labels; any other status is shown as it is |
| HistoryView.StatusTextLabels | src/components/HistoryView.tsx:37-48 | the three labels differ, and labelling a label changes nothing |
| HistoryView.AmountLine | src/components/HistoryView.tsx:89-91 | the line starts with the yuan sign exactly for `CNY` and with the rouble sign otherwise |
| HistoryView.AmountLineReadsBack | src/components/HistoryView.tsx:89-91 | a `CNY` line holds only the yuan amount; any other line holds the amount and then the yuan amount in brackets |
| HistoryView.Render | src/components/HistoryView.tsx:73-104 | an empty list shows the placeholder and no rows; otherwise each transaction gives one row, in order |
| HistoryView.KnownStatus | src/components/HistoryView.tsx:24-48 | definition of the three statuses with their own icon and label; its contract is stated by `StatusIcon` and `StatusText` |
| HistoryView.RowOf | src/components/HistoryView.tsx:80-104 | definition of one row of the list; its contract is stated by `Render`, `AmountLine` and `AmountLineReadsBack` |

## Left out

- HTTP, the database connection, SQL text, `os.environ` and Telegram are not modelled as I/O. Tables are maps in classes. The bot token, the request id, the base64 decode result and Telegram's reply are parameters of the handlers. The webhook's bot calls are a returned log. The panel's HTTP calls are a request log, with the outcome (resolved or rejected) as a parameter. A `fetch` rejects only on a network error, so an HTTP error status counts as resolved, as in the source.
- JSON decoding and encoding are not modelled. Bodies arrive decoded, with missing keys as `None`; where the source indexes a key directly (the webhook's callback query), a missing key raises. JSON `null` values and wrongly typed values (which make the handlers raise) are not modelled.
- For query parameters, an absent id and an empty id are both `None`: a GET treats either as "no id", and a DELETE puts either into invalid SQL. A non-numeric id in a query or a body is not modelled.
- `NOW()` and `created_at` are the parameter `now`. Rows with equal timestamps come back in one fixed order; the database may use any.
- `LIMIT 1` may return any matching row. `TransactionsApi.ChooseDetail` takes the lowest id.
- Float arithmetic is not modelled: amounts are exact reals, the rate is exactly 57/5, and `round(x, 2)` is exact round-half-to-even. `float()` of the amount is not modelled beyond a missing amount raising.
- `parseFloat` is exact: it has no rounding to the nearest double and no overflow to `Infinity` for long numerals.
- Python's `int()` is modelled for ASCII digits only. Underscores between digits and non-ASCII digits are not modelled.
- TopupWizard.Apply: the 500 ms timer before the details step is taken as firing at once. So the model does not capture the interleaving in which "Назад" and the top-up button are clicked while the timer is pending, which breaks the invariant. Toasts are a log, not timed pop-ups.
- TopupWizard.ValidFloatingPoint: the browser's value sanitisation is modelled by HTML's "valid floating-point number" only; locale-specific input forms are not modelled.
- AdminPanel.Panel.Submit: each handler runs to completion, with its `await fetch` as one atomic step. Edits or an Edit click made while a save is pending, which the reset after the save then wipes, are not modelled. The same holds for `AdminPanel.Panel.Delete`.
- The history screen receives amounts as already-rendered text: JavaScript's number-to-string conversion and `toLocaleString` dates are not modelled.
- The hard-coded history list and payment requisites inside `Index.tsx` are not modelled. Neither are icons, CSS, `mailto` links or the markup-only screens `TopupView.tsx`, `HelpView.tsx` and `MainView.tsx`.
- The cancel button appears only during an edit session. `AdminPanel.Panel.Cancel` may be called at any time; outside a session it changes nothing visible.
- The webhook's bot calls can raise after the status update is committed. That raise is not modelled: the log always holds all three calls.
