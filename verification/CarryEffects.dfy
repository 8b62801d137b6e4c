/** When a draft is carried over, and what that does to every balance (apps/ledger/migration_helpers.py). */
module CarryEffects {
  import opened Acceptance
  import opened Books
  import opened CallEffects
  import opened CarryOver
  import opened Collecting
  import opened Posting
  import opened Results
  import opened Services

  /** No later than today. */
  function Capped(b: Books, day: Day): (capped: Day)
    ensures capped <= b.today && capped <= day && (capped == b.today || capped == day)
  {
    NotAfterToday(b, day)
  }

  /** What a draft marked paid still owes, its posting changes nothing of. */
  predicate Owes(b: Books, i: Id)
    requires i < |b.invoices|
  {
    b.invoices[i].status == Paid && Collected(b.papers, b.applications, i) < b.invoices[i].total
  }

  function PaidOrDated(inv: Invoice): Day
    requires inv.date.Some?
  {
    if inv.paidOn.Some? then inv.paidOn.value else inv.date.value
  }

  /** The currency's own till, or the one about to be opened for it. */
  function TillFor(f: Firm, currency: Currency): Id {
    if currency in f.carried then f.carried[currency] else |f.books.tills|
  }

  lemma CollectsOnce(b: Books, i: Id, date: Day, till: Id, s: Side)
    requires CollectionsKnown(b) && i < |b.invoices| && CollectInvoice(b, i, date, Some(till)).Ok?
    ensures var c := CollectInvoice(b, i, date, Some(till)).value;
            && var inv, owed := b.invoices[i], b.invoices[i].total - Collected(b.papers, b.applications, i);
               var a := FindAccount(c.accounts, Customer, inv.customer, inv.currency);
               && owed > 0 && b.movements <= c.movements && |c.movements| == |b.movements| + 1
               && c.movements[|b.movements|].date == date && b.accounts <= c.accounts && a < |c.accounts|
               && Balance(c.movements, s) == Balance(b.movements, s) +
                    (if s == AccountSide(a) then -owed
                     else if s == TillSide(till) || s == Pool(inv.currency) then owed else 0)
  {
    hide RecordCollection, Balance, Collected, FindAccount, PerInvoice;
    var inv := b.invoices[i];
    var start := AccountForCustomer(b, inv.customer, inv.currency);
    var account := FindAccount(b.accounts, Customer, inv.customer, inv.currency);
    var owed := OfCents(Remaining(b, i));
    AccountAdded(b, inv.customer, inv.currency);
    FoundAgain(b, inv.customer, inv.currency);
    CollectionMoves(start, account, till, owed, date, [Applied(i, owed)], s, i);
    CollectionRows(start, account, till, owed, date, [Applied(i, owed)]);
    AccountFound(start.accounts, inv.customer, inv.currency);
  }

  lemma FoundInLonger(accounts: seq<Account>, more: seq<Account>, customer: Id, currency: Currency)
    requires accounts <= more && FindAccount(accounts, Customer, customer, currency) < |accounts|
    ensures FindAccount(more, Customer, customer, currency) == FindAccount(accounts, Customer, customer, currency)
  {
    hide FindAccount;
    var a, again := FindAccount(accounts, Customer, customer, currency), FindAccount(more, Customer, customer, currency);
    assert more[a] == accounts[a];
  }

  /** A draft of the firm's books that is not posted yet and asks something. */
  predicate ToPost(b: Books, i: Id)
    requires i < |b.invoices|
  {
    b.invoices[i].total != 0 && !Posted(b, i)
  }

  /** Carried over, a draft not yet posted is debited its total on its customer's account, on its own date; and one marked
      paid is credited what it owed, on the day it was paid, into its currency's own till: neither later than today. */
  lemma CarryMoves(f: Firm, i: Id, s: Side)
    requires Sound(f.books) && i < |f.books.invoices| && Payable(f.books.invoices[i].status) && CarryDraft(f, i).Ok?
    ensures var b, g := f.books, CarryDraft(f, i).value;
            var inv, posts, pays := b.invoices[i], ToPost(b, i), Owes(b, i);
            var owed := inv.total - Collected(b.papers, b.applications, i);
            var account := AccountSide(FindAccount(g.books.accounts, Customer, inv.customer, inv.currency));
            && inv.date.Some? && b.movements <= g.books.movements
            && |g.books.movements| == |b.movements| + (if posts then 1 else 0) + (if pays then 1 else 0)
            && (posts ==> g.books.movements[|b.movements|].date == Capped(b, inv.date.value))
            && (pays ==> g.books.movements[|g.books.movements| - 1].date == Capped(b, PaidOrDated(inv)))
            && Balance(g.books.movements, s) == Balance(b.movements, s) +
                 (if s == account then (if posts then inv.total else 0) - (if pays then owed else 0)
                  else if pays && (s == TillSide(TillFor(f, inv.currency)) || s == Pool(inv.currency)) then owed else 0)
  {
    hide Balance, Sound, Collected, FindAccount, PostInvoice, CollectInvoice, SyncIn, Posted, CarryTill, TillFor;
    var b, inv := f.books, f.books.invoices[i];
    PostsDated(b, i, s);
    var posted := CarriedPosting(b, i).value;
    if Owes(b, i) {
      CarryPays(f, posted, i, s);
    } else {
      SyncOnly(posted, i);
    }
  }

  lemma PostsDated(b: Books, i: Id, s: Side)
    requires i < |b.invoices| && CarriedPosting(b, i).Ok?
    ensures var c, inv := CarriedPosting(b, i).value, b.invoices[i];
            var a := FindAccount(c.accounts, Customer, inv.customer, inv.currency);
            && c == b.(accounts := c.accounts, movements := c.movements) && b.movements <= c.movements
            && inv.date.Some? && |c.movements| == |b.movements| + (if ToPost(b, i) then 1 else 0)
            && (ToPost(b, i) ==>
                  a < |c.accounts| && c.movements[|b.movements|].date == NotAfterToday(b, inv.date.value))
            && Balance(c.movements, s) == Balance(b.movements, s) +
                 (if s == AccountSide(a) && ToPost(b, i) then inv.total else 0)
  {
    hide Balance, FindAccount, PostInvoice, KeyTaken;
    PostsInvoice(b, i, if b.invoices[i].date.Some? then Some(NotAfterToday(b, b.invoices[i].date.value)) else None);
    PostingMoves(b, i, Some(NotAfterToday(b, b.invoices[i].date.value)), s);
  }

  /** What an owing draft's carry does once it is posted. */
  lemma CarryPays(f: Firm, posted: Books, i: Id, s: Side)
    requires Sound(f.books) && i < |f.books.invoices| && Owes(f.books, i) && f.books.invoices[i].date.Some?
    requires posted == f.books.(accounts := posted.accounts, movements := posted.movements)
    requires CarriedCollection(CarryTill(Firm(posted, f.carried), f.books.invoices[i].currency), i).Ok?
    ensures var b, inv := f.books, f.books.invoices[i];
            var c := CarriedCollection(CarryTill(Firm(posted, f.carried), inv.currency), i).value;
            var owed := inv.total - Collected(b.papers, b.applications, i);
            && SyncIn(c, {i}).movements == c.movements && SyncIn(c, {i}).accounts == c.accounts
            && posted.movements <= c.movements
            && (var a := FindAccount(posted.accounts, Customer, inv.customer, inv.currency);
                a < |posted.accounts| ==> FindAccount(c.accounts, Customer, inv.customer, inv.currency) == a)
            && |c.movements| == |posted.movements| + 1
            && c.movements[|posted.movements|].date == NotAfterToday(b, PaidOrDated(inv))
            && Balance(c.movements, s) == Balance(posted.movements, s) +
                 (if s == AccountSide(FindAccount(c.accounts, Customer, inv.customer, inv.currency)) then -owed
                  else if s == TillSide(TillFor(f, inv.currency)) || s == Pool(inv.currency) then owed else 0)
  {
    hide Balance, Sound, Collected, FindAccount, CollectInvoice, SyncIn;
    var b, inv := f.books, f.books.invoices[i];
    SoundKnown(b, posted);
    var tilled := CarryTill(Firm(posted, f.carried), inv.currency);
    CollectsOnce(tilled.books, i, NotAfterToday(b, PaidOrDated(inv)), TillFor(f, inv.currency), s);
    var collected := CarriedCollection(tilled, i).value;
    SyncOnly(collected, i);
    if FindAccount(posted.accounts, Customer, inv.customer, inv.currency) < |posted.accounts| {
      FoundInLonger(posted.accounts, collected.accounts, inv.customer, inv.currency);
    }
  }

  lemma SoundKnown(b: Books, c: Books)
    requires Sound(b) && c == b.(accounts := c.accounts, movements := c.movements)
    ensures CollectionsKnown(c)
    ensures forall currency :: CollectionsKnown(c.(tills := c.tills + [TillAccount(currency, true)]))
  {
  }

  lemma SyncOnly(b: Books, i: Id)
    ensures SyncIn(b, {i}).movements == b.movements && SyncIn(b, {i}).accounts == b.accounts
  {
  }

  /** What a draft owes is collected into this till exactly when the till holds its currency and the day is open and not
      before an opening of the till or of the customer's account. */
  lemma CollectsExactly(b: Books, i: Id, date: Day, till: Id)
    requires CollectionsKnown(b) && i < |b.invoices| && Owes(b, i)
    ensures CollectInvoice(b, i, date, Some(till)).Ok? <==>
              && TillOf(b, till, b.invoices[i].currency) && DayOpen(b, date)
              && NotBeforeOpening(b, TillSide(till), date)
              && NotBeforeOpening(b, AccountSide(FindAccount(b.accounts, Customer, b.invoices[i].customer,
                                                             b.invoices[i].currency)), date)
  {
    hide NotBeforeOpening, RecordCollection, Collected, MayApply;
    var inv := b.invoices[i];
    var start := AccountForCustomer(b, inv.customer, inv.currency);
    var account := FindAccount(b.accounts, Customer, inv.customer, inv.currency);
    var owed := OfCents(Remaining(b, i));
    CollectionAccepted(start, account, till, owed, date, [Applied(i, owed)]);
    AccountsOnly(b, start, AccountSide(account), date);
    AccountsOnly(b, start, TillSide(till), date);
    MayPayItAll(start, account, i, owed);
  }

  /** A draft is carried exactly when it has a date and can be posted on it, if that is still to do, and what it still owes
      can be collected on the day it was paid; one that is not live is left alone. */
  lemma CarryAccepted(f: Firm, i: Id)
    requires Sound(f.books)
    ensures CarryDraft(f, i).Ok? <==>
              var b := f.books;
              && i < |b.invoices|
              && (Payable(b.invoices[i].status) ==>
                    var inv, till := b.invoices[i], TillFor(f, b.invoices[i].currency);
                    var account := AccountSide(FindAccount(b.accounts, Customer, inv.customer, inv.currency));
                    && inv.date.Some?
                    && (ToPost(b, i) ==>
                          var day := Capped(b, inv.date.value);
                          inv.total > 0 && DayOpen(b, day) && NotBeforeOpening(b, account, day))
                    && (Owes(b, i) ==>
                          var day := Capped(b, PaidOrDated(inv));
                          && (inv.currency in f.carried ==> TillOf(b, till, inv.currency)) && DayOpen(b, day)
                          && NotBeforeOpening(b, account, day) && NotBeforeOpening(b, TillSide(till), day)))
  {
    hide Sound, Collected, FindAccount, PostInvoice, CollectInvoice, SyncIn, KeyTaken, NotBeforeOpening;
    var b := f.books;
    if i < |b.invoices| && Payable(b.invoices[i].status) {
      var inv := b.invoices[i];
      PostsInvoice(b, i, if inv.date.Some? then Some(NotAfterToday(b, inv.date.value)) else None);
      if CarriedPosting(b, i).Ok? {
        var posted := CarriedPosting(b, i).value;
        PostedAccounts(b, i);
        if Owes(b, i) {
          SoundKnown(b, posted);
          var tilled := CarryTill(Firm(posted, f.carried), inv.currency);
          var day := NotAfterToday(b, PaidOrDated(inv));
          CollectsExactly(tilled.books, i, day, TillFor(f, inv.currency));
          OpeningsApart(b, tilled.books, TillSide(TillFor(f, inv.currency)), day);
          OpeningsApart(b, tilled.books, AccountSide(FindAccount(b.accounts, Customer, inv.customer, inv.currency)), day);
        }
      }
    }
  }

  lemma PostedAccounts(b: Books, i: Id)
    requires i < |b.invoices| && CarriedPosting(b, i).Ok?
    ensures var c, inv := CarriedPosting(b, i).value, b.invoices[i];
            && c == b.(accounts := c.accounts, movements := c.movements)
            && FindAccount(c.accounts, Customer, inv.customer, inv.currency) ==
               FindAccount(b.accounts, Customer, inv.customer, inv.currency)
  {
    hide FindAccount, BeforeAnOpening, KeyTaken, CheckDate;
    FoundAgain(b, b.invoices[i].customer, b.invoices[i].currency);
  }
}
