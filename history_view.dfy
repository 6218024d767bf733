/** The history screen (`src/components/HistoryView.tsx`): a status label
    and icon per transaction, the amount shown by currency, and a
    placeholder for an empty list. Numbers reach this model as the text
    JavaScript renders for them. */
module HistoryView {
  datatype Icon = CheckCircle | Clock | XCircle | Circle

  /** A transaction as the screen receives it. */
  datatype Item = Item(status: string, currency: string, amountText: string, amountCnyText: string)

  datatype Row = Row(icon: Icon, amountLine: string, statusLine: string)

  datatype Screen = Placeholder | Rows(rows: seq<Row>)

  const CompletedLabel := "Завершено"
  const PendingLabel := "В обработке"
  const FailedLabel := "Отклонено"

  predicate KnownStatus(status: string) {
    status == "completed" || status == "pending" || status == "failed"
  }

  /** `getStatusIcon`: one icon per known status, the plain circle for the rest. */
  function StatusIcon(status: string): (i: Icon)
    ensures i == CheckCircle <==> status == "completed"
    ensures i == Clock <==> status == "pending"
    ensures i == XCircle <==> status == "failed"
    ensures i == Circle <==> !KnownStatus(status)
  {
    if status == "completed" then CheckCircle
    else if status == "pending" then Clock
    else if status == "failed" then XCircle
    else Circle
  }

  /** `getStatusText`: the Russian label of a known status, any other
      status as it is. */
  function StatusText(status: string): (t: string)
    ensures status == "completed" ==> t == CompletedLabel
    ensures status == "pending" ==> t == PendingLabel
    ensures status == "failed" ==> t == FailedLabel
    ensures !KnownStatus(status) ==> t == status
  {
    if status == "completed" then CompletedLabel
    else if status == "pending" then PendingLabel
    else if status == "failed" then FailedLabel
    else status
  }

  /** The three known statuses get three different labels, none of which
      is itself a status, so labelling twice changes nothing. */
  lemma {:induction false} StatusTextLabels(a: string, b: string)
    ensures KnownStatus(a) && KnownStatus(b) && a != b ==> StatusText(a) != StatusText(b)
    ensures StatusText(StatusText(a)) == StatusText(a)
  {
    assert CompletedLabel[0] != 'c' && PendingLabel[0] != 'p' && FailedLabel[0] != 'f';
    assert CompletedLabel != PendingLabel && PendingLabel != FailedLabel && CompletedLabel != FailedLabel by {
      assert CompletedLabel[0] != PendingLabel[0] && CompletedLabel[0] != FailedLabel[0];
      assert PendingLabel[0] != FailedLabel[0];
    }
  }

  /** The amount line: yuan only for `CNY`, otherwise roubles and then yuan. */
  function AmountLine(currency: string, amountText: string, amountCnyText: string): (line: string)
    ensures |line| >= 2 && line[1] == ' '
    ensures line[0] == '¥' <==> currency == "CNY"
    ensures line[0] == '₽' <==> currency != "CNY"
  {
    if currency == "CNY" then "¥ " + amountCnyText
    else "₽ " + amountText + " (¥ " + amountCnyText + ")"
  }

  /** The amount line holds the numbers it was built from, in order. */
  lemma {:induction false} AmountLineReadsBack(currency: string, amountText: string, amountCnyText: string)
    ensures var line := AmountLine(currency, amountText, amountCnyText);
            if currency == "CNY" then line[2..] == amountCnyText
            else line[2..2 + |amountText|] == amountText
                 && line[2 + |amountText|..|line| - 1] == " (¥ " + amountCnyText
                 && line[|line| - 1] == ')'
  {
    var line := AmountLine(currency, amountText, amountCnyText);
    if currency != "CNY" {
      assert line == "₽ " + amountText + (" (¥ " + amountCnyText) + ")";
    }
  }

  function RowOf(t: Item): Row {
    Row(StatusIcon(t.status), AmountLine(t.currency, t.amountText, t.amountCnyText), StatusText(t.status))
  }

  /** The list: the placeholder and no rows when empty, else one row per
      transaction in order. */
  function Render(items: seq<Item>): (s: Screen)
    ensures s.Placeholder? <==> items == []
    ensures s.Rows? ==> |s.rows| == |items| && forall i :: 0 <= i < |items| ==> s.rows[i] == RowOf(items[i])
  {
    if items == [] then Placeholder
    else Rows(seq(|items|, i requires 0 <= i < |items| => RowOf(items[i])))
  }
}
