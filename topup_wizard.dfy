/** The top-up screen of the wallet page (`src/pages/Index.tsx`): which view
    is shown, which step of the top-up wizard is open, the amount typed so
    far and whether a QR code was uploaded. Toast notifications are kept as
    an appended log. */
module TopupWizard {
  import JsNumber
  import Digits

  datatype View = Main | Topup | History | Help
  datatype TopupStep = AmountStep | QrStep | DetailsStep
  datatype Toast = InvalidAmount | QrAccepted

  datatype WizardState = WizardState(view: View, step: TopupStep, amount: string, qrUploaded: bool, toasts: seq<Toast>)

  /** What the user can do: each case is one button or input of the page. */
  datatype Event =
    | StartTopup                  // "Пополнить Алипей" on the main view
    | OpenHistory
    | OpenHelp
    | Back                        // "Назад" on the top-up, history or help view
    | AmountChanged(text: string) // typing in the amount input
    | SubmitAmount                // "Продолжить"
    | UploadQr                    // choosing the QR image file
    | Done                        // "Готово" on the details step

  const Initial := WizardState(Main, AmountStep, "", false, [])

  /** An HTML "valid floating-point number": an optional `-`, then digits,
      or digits and a point and digits, or a point and digits, then an
      optional exponent (`e` or `E`, an optional sign, digits). */
  predicate ValidFloatingPoint(s: string) {
    ValidUnsignedFloat(if |s| > 0 && s[0] == '-' then s[1..] else s)
  }

  predicate ValidUnsignedFloat(u: string) {
    var ip := Digits.LeadingDigits(u);
    if ip < |u| && u[ip] == '.' then
      var t := u[ip + 1..];
      var fp := Digits.LeadingDigits(t);
      fp > 0 && ValidExponent(t[fp..])
    else ip > 0 && ValidExponent(u[ip..])
  }

  predicate ValidExponent(e: string) {
    e == []
    || (|e| >= 2 && (e[0] == 'e' || e[0] == 'E')
        && var d := if e[1] == '-' || e[1] == '+' then e[2..] else e[1..];
           |d| >= 1 && Digits.AllDigits(d))
  }

  /** What the `type="number"` input can hand to `onChange`: the browser
      sanitises its value to the empty text or a valid floating-point number. */
  predicate NumberInputValue(text: string) {
    text == "" || ValidFloatingPoint(text)
  }

  /** `parseFloat` reads a valid floating-point number as a number, never NaN. */
  lemma {:induction false} ValidFloatParses(s: string)
    requires ValidFloatingPoint(s)
    ensures !JsNumber.ParseFloat(s).NaN?
  {
    var u := if |s| > 0 && s[0] == '-' then s[1..] else s;
    var ip := Digits.LeadingDigits(u);
    assert |u| >= 1 && (Digits.IsDigit(u[0]) || u[0] == '.');
    if ip == 0 {
      var t := u[1..];
      assert Digits.LeadingDigits(t) > 0;
      assert Digits.IsDigit(u[1]);
    }
    assert JsNumber.HasNumeral(u);
    assert JsNumber.TrimStart(s) == s by { JsNumber.NoTrimBefore(s); }
    assert JsNumber.Unsigned(s) == u;
    JsNumber.ParseNaNIff(s);
  }

  /** A non-empty text without a digit is not a valid floating-point number,
      so the number input never holds one. */
  lemma {:induction false} NoDigitNotEnterable(s: string)
    requires forall i :: 0 <= i < |s| ==> !Digits.IsDigit(s[i])
    ensures !ValidFloatingPoint(s)
  {
    var u := if |s| > 0 && s[0] == '-' then s[1..] else s;
    assert forall i :: 0 <= i < |u| ==> !Digits.IsDigit(u[i]);
    var ip := Digits.LeadingDigits(u);
    if ip < |u| && u[ip] == '.' {
      var t := u[ip + 1..];
      assert |t| == 0 || !Digits.IsDigit(t[0]);
    }
  }

  /** Integers, negative ones included, can be typed into the number input. */
  lemma {:induction false} IntegersEnterable(n: nat)
    ensures NumberInputValue(Digits.NatText(n))
    ensures NumberInputValue("-" + Digits.NatText(n))
  {
    var u := Digits.NatText(n);
    Digits.LeadingDigitsAll(u);
    assert u[|u|..] == [];
    assert ("-" + u)[1..] == u;
  }

  /** `!amount || parseFloat(amount) <= 0`. A text that is not a number at
      all parses to NaN, and NaN <= 0 is false, so it is not rejected. */
  predicate AmountRejected(amount: string) {
    amount == "" || JsNumber.ParseFloat(amount).AtMostZero()
  }

  /** The state after one event, as the page's handlers compute it. The
      500 ms timer of the QR upload is taken as already expired. */
  function Apply(s: WizardState, e: Event): WizardState {
    match e
    case StartTopup => s.(view := Topup, step := AmountStep, amount := "", qrUploaded := false)
    case OpenHistory => s.(view := History)
    case OpenHelp => s.(view := Help)
    case Back => s.(view := Main)
    case AmountChanged(text) => s.(amount := text)
    case SubmitAmount =>
      if AmountRejected(s.amount) then s.(toasts := s.toasts + [InvalidAmount]) else s.(step := QrStep)
    case UploadQr => s.(qrUploaded := true, step := DetailsStep, toasts := s.toasts + [QrAccepted])
    case Done => s.(view := Main)
  }

  /** The control that fires `e` is on screen in state `s`. */
  predicate Enabled(s: WizardState, e: Event) {
    match e
    case StartTopup => s.view == Main
    case OpenHistory => s.view == Main
    case OpenHelp => s.view == Main
    case Back => s.view != Main
    case AmountChanged(text) => s.view == Topup && s.step == AmountStep && NumberInputValue(text)
    case SubmitAmount => s.view == Topup && s.step == AmountStep
    case UploadQr => s.view == Topup && s.step == QrStep
    case Done => s.view == Topup && s.step == DetailsStep
  }

  /** Which of the four view renderers draw something: exactly the one for `v`. */
  function RenderedViews(v: View): (r: seq<View>)
    ensures r == [v]
  {
    (if v == Main then [Main] else []) + (if v == Topup then [Topup] else [])
    + (if v == History then [History] else []) + (if v == Help then [Help] else [])
  }

  /** Which of the three step panels of the top-up card draw something:
      exactly the one for `step`. */
  function RenderedSteps(step: TopupStep): (r: seq<TopupStep>)
    ensures r == [step]
  {
    (if step == AmountStep then [AmountStep] else []) + (if step == QrStep then [QrStep] else [])
    + (if step == DetailsStep then [DetailsStep] else [])
  }

  /** The amount is what the number input can hold; past the amount step it
      is a positive number; a QR code is uploaded exactly on the details step. */
  predicate Inv(s: WizardState) {
    && NumberInputValue(s.amount)
    && (s.step != AmountStep ==> s.amount != "" && JsNumber.ParseFloat(s.amount).Positive())
    && (s.qrUploaded <==> s.step == DetailsStep)
  }

  lemma {:induction false} InvInitial()
    ensures Inv(Initial)
  {
  }

  /** Every event whose control is on screen keeps the invariant. */
  lemma {:induction false} InvPreserved(s: WizardState, e: Event)
    requires Inv(s) && Enabled(s, e)
    ensures Inv(Apply(s, e))
  {
    if e == SubmitAmount && !AmountRejected(s.amount) {
      ValidFloatParses(s.amount);
    }
  }

  /** A session: events fired one after another from a state. */
  function Run(s: WizardState, events: seq<Event>): WizardState
    decreases |events|
  {
    if events == [] then s else Run(Apply(s, events[0]), events[1..])
  }

  /** Every event of the session was fired from a control on screen. */
  predicate Clickable(s: WizardState, events: seq<Event>)
    decreases |events|
  {
    events == [] || (Enabled(s, events[0]) && Clickable(Apply(s, events[0]), events[1..]))
  }

  /** Any session through the page's controls keeps the invariant, when each
      QR upload's 500 ms timer fires before the next click: the payment
      details are then only shown for a positive amount and after a QR
      upload. (A click on "Назад" and then on the top-up button while the
      timer is pending resets the amount, and the timer still opens the
      details step; `Apply` does not model that interleaving.) */
  lemma {:induction false} InvAlongSession(s: WizardState, events: seq<Event>)
    requires Inv(s) && Clickable(s, events)
    ensures Inv(Run(s, events))
    decreases |events|
  {
    if events != [] {
      InvPreserved(s, events[0]);
      InvAlongSession(Apply(s, events[0]), events[1..]);
    }
  }

  /** From the initial page, under the same timing as `InvAlongSession`. */
  lemma {:induction false} DetailsOnlyAfterAcceptedAmount(events: seq<Event>)
    requires Clickable(Initial, events)
    ensures Run(Initial, events).step == DetailsStep ==>
              Run(Initial, events).qrUploaded && JsNumber.ParseFloat(Run(Initial, events).amount).Positive()
  {
    InvAlongSession(Initial, events);
  }

  /** The toast log only grows. */
  lemma {:induction false} ToastsOnlyGrow(s: WizardState, events: seq<Event>)
    ensures s.toasts <= Run(s, events).toasts
    decreases |events|
  {
    if events != [] {
      ToastsOnlyGrow(Apply(s, events[0]), events[1..]);
    }
  }

  /** Starting a top-up gives the same state whatever came before, apart
      from the toast log. */
  lemma {:induction false} StartTopupResets(s: WizardState, t: WizardState)
    requires s.toasts == t.toasts
    ensures Apply(s, StartTopup) == Apply(t, StartTopup)
    ensures Apply(s, StartTopup).view == Topup && Apply(s, StartTopup).step == AmountStep
    ensures Apply(s, StartTopup).amount == "" && !Apply(s, StartTopup).qrUploaded
  {
  }

  /** Zero and the negative integers fail the check. */
  lemma {:induction false} NonPositiveRejected(n: nat)
    ensures AmountRejected(Digits.NatText(0))
    ensures AmountRejected("-" + Digits.NatText(n))
  {
    JsNumber.ParseNatText(0);
    JsNumber.ParseNegatedNatText(n);
  }

  /** Positive integers pass the check. */
  lemma {:induction false} PositiveAccepted(n: nat)
    requires n > 0
    ensures !AmountRejected(Digits.NatText(n))
  {
    JsNumber.ParseNatText(n);
    assert JsNumber.Finite(n as real).Positive();
  }

  /** The empty amount, zero and negative integers are rejected; positive
      integers are accepted. */
  lemma {:induction false} IntegerAmounts(n: nat)
    ensures AmountRejected("")
    ensures AmountRejected(Digits.NatText(0))
    ensures AmountRejected("-" + Digits.NatText(n))
    ensures n > 0 ==> !AmountRejected(Digits.NatText(n))
  {
    NonPositiveRejected(n);
    if n > 0 {
      PositiveAccepted(n);
    }
  }

  /** The check alone does not reject a non-empty text with no digit (and
      no `Infinity`): it parses to NaN and NaN <= 0 is false, so the handler
      would move on. The page never gets there with such a text, because
      the number input cannot hold it (`NoDigitNotEnterable`). */
  lemma {:induction false} NonNumericAmountPasses(s: string)
    requires s != []
    requires forall i :: 0 <= i < |s| ==> !Digits.IsDigit(s[i]) && s[i] != 'I'
    ensures !AmountRejected(s)
    ensures Apply(WizardState(Topup, AmountStep, s, false, []), SubmitAmount).step == QrStep
  {
    JsNumber.ParseNoDigitIsNaN(s);
  }

  /** The page's state, updated in place by its event handlers. */
  class TopupPage {
    var view: View
    var step: TopupStep
    var amount: string
    var qrUploaded: bool
    var toasts: seq<Toast>

    function State(): WizardState
      reads this
    {
      WizardState(view, step, amount, qrUploaded, toasts)
    }

    /** `useState('main')`, `useState('amount')`, `useState('')`, `useState(false)`. */
    constructor ()
      ensures State() == Initial
    {
      view, step, amount, qrUploaded, toasts := Main, AmountStep, "", false, [];
    }

    /** The "top up" button: every field of the wizard is reset. */
    method StartTopup()
      modifies this
      ensures view == Topup && step == AmountStep && amount == "" && !qrUploaded
      ensures toasts == old(toasts)
      ensures State() == Apply(old(State()), Event.StartTopup)
    {
      view := Topup;
      step := AmountStep;
      amount := "";
      qrUploaded := false;
    }

    method OpenHistory()
      modifies this
      ensures view == History
      ensures step == old(step) && amount == old(amount) && qrUploaded == old(qrUploaded) && toasts == old(toasts)
      ensures State() == Apply(old(State()), Event.OpenHistory)
    {
      view := History;
    }

    method OpenHelp()
      modifies this
      ensures view == Help
      ensures step == old(step) && amount == old(amount) && qrUploaded == old(qrUploaded) && toasts == old(toasts)
      ensures State() == Apply(old(State()), Event.OpenHelp)
    {
      view := Help;
    }

    /** "Назад": back to the main view; the step and the amount are kept. */
    method Back()
      modifies this
      ensures view == Main
      ensures step == old(step) && amount == old(amount) && qrUploaded == old(qrUploaded) && toasts == old(toasts)
      ensures State() == Apply(old(State()), Event.Back)
    {
      view := Main;
    }

    /** The amount input's `onChange`, with the value the browser sanitised. */
    method AmountChanged(text: string)
      requires NumberInputValue(text)
      modifies this
      ensures amount == text
      ensures view == old(view) && step == old(step) && qrUploaded == old(qrUploaded) && toasts == old(toasts)
      ensures State() == Apply(old(State()), Event.AmountChanged(text))
    {
      amount := text;
    }

    /** `handleAmountSubmit`: a rejected amount raises an error toast and
        leaves the step alone; an accepted one opens the QR step. */
    method SubmitAmount()
      modifies this
      ensures AmountRejected(old(amount)) ==> step == old(step) && toasts == old(toasts) + [InvalidAmount]
      ensures !AmountRejected(old(amount)) ==> step == QrStep && toasts == old(toasts)
      ensures view == old(view) && amount == old(amount) && qrUploaded == old(qrUploaded)
      ensures State() == Apply(old(State()), Event.SubmitAmount)
    {
      if AmountRejected(amount) {
        toasts := toasts + [InvalidAmount];
        return;
      }
      step := QrStep;
    }

    /** `handleQrUpload`: marks the QR code uploaded, then opens the details
        step with a confirmation toast. */
    method UploadQr()
      modifies this
      ensures qrUploaded && step == DetailsStep && toasts == old(toasts) + [QrAccepted]
      ensures view == old(view) && amount == old(amount)
      ensures State() == Apply(old(State()), Event.UploadQr)
    {
      qrUploaded := true;
      step := DetailsStep;
      toasts := toasts + [QrAccepted];
    }

    /** "Готово" on the details step. */
    method Done()
      modifies this
      ensures view == Main
      ensures step == old(step) && amount == old(amount) && qrUploaded == old(qrUploaded) && toasts == old(toasts)
      ensures State() == Apply(old(State()), Event.Done)
    {
      view := Main;
    }
  }
}
