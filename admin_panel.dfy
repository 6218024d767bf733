/** The administration panel (`src/components/AdminPanel.tsx`): a form for
    payment details with an edit session, a sub-view selector, and the two
    lists it fetches. Every HTTP call the panel makes is appended to a
    request log; whether a call failed is a parameter of the handler that
    awaits it, and the data a list fetch returns arrives through the
    `...Loaded` methods. */
module AdminPanel {
  import opened Wrappers

  datatype Form = Form(recipientName: string, accountNumber: string, currency: string, isActive: bool)

  /** The form's initial and reset value. */
  const DefaultForm := Form("", "", "CNY", true)

  datatype PaymentDetail = PaymentDetail(id: int, recipientName: string, accountNumber: string,
                                         currency: string, isActive: bool, createdAt: string)

  datatype Transaction = Transaction(id: int, amount: real, currency: string, amountCny: real, date: string,
                                     status: string, qrCodeUrl: Option<string>, paymentProofUrl: Option<string>)

  datatype SubView = PaymentDetailsView | TransactionsView

  /** The calls the panel makes to the two endpoints. */
  datatype Request =
    | ListPaymentDetails
    | ListTransactions
    | CreateDetail(form: Form)           // POST with the form as body
    | UpdateDetail(form: Form, id: int)  // PUT with the form and the id
    | DeleteDetail(id: int)              // DELETE ?id=

  datatype Toast = FillAllFields | DetailUpdated | DetailAdded | SaveFailed | DetailDeleted | DeleteFailed

  /** One keystroke or click in the form. */
  datatype FieldEdit =
    | SetRecipientName(name: string)
    | SetAccountNumber(number: string)
    | SetCurrency(currency: string)
    | SetActive(active: bool)

  /** `setFormData({ ...formData, <field>: value })`. */
  function ApplyEdit(f: Form, e: FieldEdit): Form
  {
    match e
    case SetRecipientName(n) => f.(recipientName := n)
    case SetAccountNumber(n) => f.(accountNumber := n)
    case SetCurrency(c) => f.(currency := c)
    case SetActive(a) => f.(isActive := a)
  }

  /** `!formData.recipient_name || !formData.account_number` fails. */
  predicate FormComplete(f: Form) {
    f.recipientName != "" && f.accountNumber != ""
  }

  /** The save call for the form: a PUT carrying the edited id when
      `editingId` is truthy (not null and not 0), otherwise a POST. */
  function SaveRequest(f: Form, editingId: Option<int>): (r: Request)
    ensures r.UpdateDetail? <==> IdTruthy(editingId)
    ensures r.UpdateDetail? ==> r.form == f && r.id == editingId.value && r.id != 0
    ensures r.CreateDetail? <==> !IdTruthy(editingId)
    ensures r.CreateDetail? ==> r.form == f
  {
    if IdTruthy(editingId) then UpdateDetail(f, editingId.value) else CreateDetail(f)
  }

  /** The list a sub-view shows, and so the one its effect fetches. */
  function ListRequest(v: SubView): (r: Request)
    ensures r.ListPaymentDetails? <==> v.PaymentDetailsView?
    ensures r.ListTransactions? <==> v.TransactionsView?
  {
    if v == PaymentDetailsView then ListPaymentDetails else ListTransactions
  }

  /** The editable part of a stored detail: everything except id and creation time. */
  function FormOf(d: PaymentDetail): (f: Form)
    ensures f.recipientName == d.recipientName && f.accountNumber == d.accountNumber
    ensures f.currency == d.currency && f.isActive == d.isActive
  {
    Form(d.recipientName, d.accountNumber, d.currency, d.isActive)
  }

  /** Editing a detail and saving it without changes sends that detail's
      fields back; a detail whose id is 0 is created anew instead of updated. */
  lemma {:induction false} EditThenSave(d: PaymentDetail)
    ensures d.id != 0 ==> SaveRequest(FormOf(d), Some(d.id)) == UpdateDetail(FormOf(d), d.id)
    ensures d.id == 0 ==> SaveRequest(FormOf(d), Some(d.id)) == CreateDetail(FormOf(d))
    ensures SaveRequest(FormOf(d), Some(d.id)).form == Form(d.recipientName, d.accountNumber, d.currency, d.isActive)
  {
  }

  class Panel {
    var paymentDetails: seq<PaymentDetail>
    var transactions: seq<Transaction>
    var view: SubView
    var editingId: Option<int>
    var formData: Form
    var requests: seq<Request>
    var toasts: seq<Toast>

    /** Mounting the panel: empty lists, the payment-details sub-view, no
        edit session, the default form; the mount effect fetches the
        payment-details list. */
    constructor ()
      ensures paymentDetails == [] && transactions == []
      ensures view == PaymentDetailsView && editingId == None && formData == DefaultForm
      ensures requests == [ListPaymentDetails] && toasts == []
    {
      paymentDetails, transactions := [], [];
      view, editingId, formData := PaymentDetailsView, None, DefaultForm;
      requests, toasts := [ListRequest(PaymentDetailsView)], [];
    }

    /** The sub-view buttons. The effect depends on `view` only, so it
        fetches the list of the new sub-view when the sub-view changes, and
        nothing is fetched when the current one is clicked again. */
    method SelectView(v: SubView)
      modifies this
      ensures view == v
      ensures requests == if v != old(view) then old(requests) + [ListRequest(v)] else old(requests)
      ensures editingId == old(editingId) && formData == old(formData) && toasts == old(toasts)
      ensures paymentDetails == old(paymentDetails) && transactions == old(transactions)
    {
      if v != view {
        view := v;
        requests := requests + [ListRequest(v)];
      }
    }

    /** The response of a payment-details fetch arrives. */
    method PaymentDetailsLoaded(data: seq<PaymentDetail>)
      modifies this`paymentDetails
      ensures paymentDetails == data
    {
      paymentDetails := data;
    }

    /** The response of a transactions fetch arrives. */
    method TransactionsLoaded(data: seq<Transaction>)
      modifies this`transactions
      ensures transactions == data
    {
      transactions := data;
    }

    /** The form inputs' `onChange` handlers. */
    method EditField(e: FieldEdit)
      modifies this`formData
      ensures formData == ApplyEdit(old(formData), e)
    {
      formData := ApplyEdit(formData, e);
    }

    /** `handleSubmit`. An incomplete form raises an error toast and sends
        nothing. Otherwise the save call is sent; `saveOk` says whether it
        resolved. On success the form is reset, the edit session ends and
        the list is fetched again; on failure form and session are kept. */
    method Submit(saveOk: bool)
      modifies this`formData, this`editingId, this`requests, this`toasts
      ensures !FormComplete(old(formData)) ==>
                requests == old(requests) && toasts == old(toasts) + [FillAllFields]
                && formData == old(formData) && editingId == old(editingId)
      ensures FormComplete(old(formData)) && saveOk ==>
                requests == old(requests) + [SaveRequest(old(formData), old(editingId)), ListPaymentDetails]
                && toasts == old(toasts) + [if IdTruthy(old(editingId)) then DetailUpdated else DetailAdded]
                && formData == DefaultForm && editingId == None
      ensures FormComplete(old(formData)) && !saveOk ==>
                requests == old(requests) + [SaveRequest(old(formData), old(editingId))]
                && toasts == old(toasts) + [SaveFailed]
                && formData == old(formData) && editingId == old(editingId)
    {
      if !FormComplete(formData) {
        toasts := toasts + [FillAllFields];
        return;
      }
      if IdTruthy(editingId) {
        requests := requests + [UpdateDetail(formData, editingId.value)];
        if !saveOk {
          toasts := toasts + [SaveFailed];
          return;
        }
        toasts := toasts + [DetailUpdated];
      } else {
        requests := requests + [CreateDetail(formData)];
        if !saveOk {
          toasts := toasts + [SaveFailed];
          return;
        }
        toasts := toasts + [DetailAdded];
      }
      formData := DefaultForm;
      editingId := None;
      requests := requests + [ListPaymentDetails];
    }

    /** `handleEdit`: the form takes the detail's four editable fields and
        the edit session targets its id. */
    method Edit(d: PaymentDetail)
      modifies this`formData, this`editingId
      ensures formData == FormOf(d) && editingId == Some(d.id)
    {
      formData := FormOf(d);
      editingId := Some(d.id);
    }

    /** `handleDelete`. A declined confirmation sends nothing. Otherwise
        the DELETE is sent; when it resolves the list is fetched again. */
    method Delete(id: int, confirmed: bool, deleteOk: bool)
      modifies this`requests, this`toasts
      ensures !confirmed ==> requests == old(requests) && toasts == old(toasts)
      ensures confirmed && deleteOk ==>
                requests == old(requests) + [DeleteDetail(id), ListPaymentDetails]
                && toasts == old(toasts) + [DetailDeleted]
      ensures confirmed && !deleteOk ==>
                requests == old(requests) + [DeleteDetail(id)] && toasts == old(toasts) + [DeleteFailed]
    {
      if !confirmed {
        return;
      }
      requests := requests + [DeleteDetail(id)];
      if deleteOk {
        toasts := toasts + [DetailDeleted];
        requests := requests + [ListPaymentDetails];
      } else {
        toasts := toasts + [DeleteFailed];
      }
    }

    /** The cancel button of an edit session. */
    method Cancel()
      modifies this`formData, this`editingId
      ensures formData == DefaultForm && editingId == None
    {
      editingId := None;
      formData := DefaultForm;
    }
  }
}
