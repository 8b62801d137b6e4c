/** The calls that come down to recording one paper, seen as that. */
module CallShapes {
  import opened Results
  import opened Books
  import Posting
  import opened Services

  predicate RecordsPaper(call: Call) {
    call.CallRecordPaymentOut? || call.CallRecordManualEntry? || call.CallRecordTransfer? || call.CallRecordOpening?
  }

  /** A paper moves an amount above zero, between two different sides if it is a transfer. */
  predicate PaperSound(p: Paper) {
    && p.amount > 0
    && (p.kind.AccountTransfer? ==> p.kind.fromAccount != p.kind.toAccount)
    && (p.kind.TillTransfer? ==> p.kind.fromTill != p.kind.toTill)
  }

  /** What such a call checked before it recorded: an opening's side has none, and nothing before it. */
  predicate OpeningChecked(b: Books, p: Paper) {
    match p.kind
    case AccountOpening(a, _) =>
      !AnyLiveOpening(b.papers, AccountSide(a)) && !AnythingBefore(b.movements, AccountSide(a), p.date)
    case TillOpening(t, _) =>
      !AnyLiveOpening(b.papers, TillSide(t)) && !AnythingBefore(b.movements, TillSide(t), p.date)
    case _ => true
  }

  ghost predicate IsRecord(b: Books, outcome: Posting.Outcome, counted: Books, p: Paper) {
    && outcome == Record(counted, p)
    && counted == b.(lastPayment := counted.lastPayment)
    && !p.cancelled && PaperSound(p) && !p.kind.Collection?
    && OpeningChecked(b, p)
  }

  lemma TransferRecords(b: Books, call: Call) returns (counted: Books, p: Paper)
    requires call.CallRecordTransfer? && Perform(b, call).Ok?
    ensures IsRecord(b, Perform(b, call), counted, p) && (p.kind.AccountTransfer? || p.kind.TillTransfer?)
  {
    var CallRecordTransfer(kind, amount, date, fa, ta, ft, tt) := call;
    counted := b;
    if kind == BetweenAccounts {
      p := Paper(AccountTransfer(fa.value, ta.value), Cents(amount), b.accounts[fa.value].currency, date, 0, false);
    } else {
      p := Paper(TillTransfer(ft.value, tt.value), Cents(amount), b.tills[ft.value].currency, date, 0, false);
    }
  }

  lemma OpeningRecords(b: Books, call: Call) returns (counted: Books, p: Paper)
    requires call.CallRecordOpening? && Perform(b, call).Ok?
    ensures IsRecord(b, Perform(b, call), counted, p) && (p.kind.AccountOpening? || p.kind.TillOpening?)
  {
    var CallRecordOpening(d, amount, date, a, t) := call;
    counted := b;
    if a.Some? {
      p := Paper(AccountOpening(a.value, d), Cents(amount), b.accounts[a.value].currency, date, 0, false);
    } else {
      p := Paper(TillOpening(t.value, d), Cents(amount), b.tills[t.value].currency, date, 0, false);
    }
  }

  lemma PaperCall(b: Books, call: Call) returns (counted: Books, p: Paper)
    requires RecordsPaper(call) && Perform(b, call).Ok?
    ensures IsRecord(b, Perform(b, call), counted, p)
    ensures (p.kind.PaymentOut? <==> call.CallRecordPaymentOut?) && (p.kind.ManualEntry? <==> call.CallRecordManualEntry?)
  {
    match call
    case CallRecordPaymentOut(a, t, amount, date) =>
      counted := b.(lastPayment := b.lastPayment + 1);
      p := Paper(PaymentOut(a, t), Cents(amount), b.accounts[a].currency, date, b.lastPayment + 1, false);
    case CallRecordManualEntry(a, d, amount, date, _) =>
      counted := b;
      p := Paper(ManualEntry(a, d), Cents(amount), b.accounts[a].currency, date, 0, false);
    case CallRecordTransfer(_, _, _, _, _, _, _) => counted, p := TransferRecords(b, call);
    case CallRecordOpening(_, _, _, _, _) => counted, p := OpeningRecords(b, call);
  }

  /** Marking an invoice paid is recording a collection of what it owes, on its customer's account. */
  lemma MarkPaidCollects(b: Books, i: Id, paidOn: Day, till: Option<Id>)
    returns (start: Books, account: Id, into: Id, owed: Decimal)
    requires MarkPaid(b, i, paidOn, till).Ok?
    ensures i < |b.invoices|
    ensures start == AccountForCustomer(b, b.invoices[i].customer, b.invoices[i].currency)
    ensures account == FindAccount(start.accounts, Customer, b.invoices[i].customer, b.invoices[i].currency)
    ensures account < |start.accounts| && owed == OfCents(Remaining(b, i)) && Remaining(b, i) > 0
    ensures till.Some? ==> into == till.value
    ensures till.None? ==> into == DEFAULT_TILL && b.tills[into].active
    ensures MarkPaid(b, i, paidOn, till) == RecordCollection(start, account, into, owed, paidOn, [Applied(i, owed)])
  {
    var inv := b.invoices[i];
    start := AccountForCustomer(b, inv.customer, inv.currency);
    account := FindAccount(b.accounts, Customer, inv.customer, inv.currency);
    into := if till.Some? then till.value else DEFAULT_TILL;
    owed := OfCents(Remaining(b, i));
  }
}
