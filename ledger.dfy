/** The storefront's transaction ledger (script.js): the list of payment
    attempts kept in the browser under `enm_transactions`, the strings the
    checkout builds (transaction id, PayPal.me link, access key), and the
    views over the list (pending notice, verification reopen, history).
    The clock (`Date.now()`) and `Math.random()` are parameters: `now` is a
    millisecond count, `random` the characters taken from the random
    number's base-36 text. */
module Ledger {
  import opened Common
  import opened Text

  datatype Status = Pending | Completed | Cancelled

  /** The product picked in the checkout modal (`currentPurchase`); `kind`
      is the `data-type` of the card's buy button, which decides the key
      prefix here and the account key's expiry. Every card the store page
      builds says `timed`; only `lifetime` and the durations `24h`, `7d`,
      `30d` mean something downstream. */
  datatype Item = Item(id: string, name: string, price: string, kind: string)

  /** One stored transaction; `key` and `verifiedAt` are absent until
      `updateTransactionStatus` sets them. */
  datatype Transaction = Transaction(
    id: string,
    itemId: string,
    itemName: string,
    price: string,
    kind: string,
    timestamp: nat,
    status: Status,
    paymentLink: string,
    key: Option<string>,
    verifiedAt: Option<nat>)

  const PayPalMe := "https://www.paypal.me/slimeryt/"

  // ---------------------------------------------------------------------
  // Transaction id and the pending record (the `proceedToPayPal` handler)
  // ---------------------------------------------------------------------

  /** `'ENM-' + Date.now() + '-' + random.toUpperCase()` */
  function TransactionId(now: nat, random: string): (r: string)
    ensures StartsWith(r, "ENM-")
    ensures |r| == 5 + |Digits(now, 10)| + |random|
    ensures r[4..4 + |Digits(now, 10)|] == Digits(now, 10) && r[4 + |Digits(now, 10)|] == '-'
  {
    "ENM-" + Digits(now, 10) + "-" + Upper(random)
  }

  /** The id is three dash-separated fields: the literal `ENM`, the decimal
      creation time and the upper-cased random part. */
  lemma TransactionIdFields(now: nat, random: string)
    requires IsBase36(random)
    ensures Split(TransactionId(now, random), '-') == ["ENM", Digits(now, 10), Upper(random)]
  {
    var d, u := Digits(now, 10), Upper(random);
    Base36LacksDash(random);
    assert Join(["ENM", d, u], '-') == TransactionId(now, random) by {
      assert Join([d, u], '-') == d + ['-'] + u;
    }
    SplitJoin(["ENM", d, u], '-');
  }

  /** Two ids are equal only when they were made at the same millisecond
      from the same random characters: within those bounds ids are unique. */
  lemma TransactionIdInjective(n1: nat, r1: string, n2: nat, r2: string)
    requires IsBase36(r1) && IsBase36(r2)
    requires TransactionId(n1, r1) == TransactionId(n2, r2)
    ensures n1 == n2 && Upper(r1) == Upper(r2)
  {
    TransactionIdFields(n1, r1);
    TransactionIdFields(n2, r2);
    ValueOfDigits(n1, 10);
    ValueOfDigits(n2, 10);
  }

  /** `https://www.paypal.me/slimeryt/${price}EUR` */
  function PaymentLink(price: string): (r: string)
    ensures StartsWith(r, PayPalMe)
    ensures |r| == |PayPalMe| + |price| + 3 && r[|PayPalMe|..|r| - 3] == price
  {
    PayPalMe + price + "EUR"
  }

  /** The record the checkout stores before sending the buyer to PayPal. */
  function NewPendingTransaction(item: Item, now: nat, random: string): (t: Transaction)
    ensures t.status == Pending && t.key.None? && t.verifiedAt.None?
    ensures StartsWith(t.id, "ENM-")
    ensures t.paymentLink == PayPalMe + item.price + "EUR"
    ensures t.itemId == item.id && t.itemName == item.name
    ensures t.price == item.price && t.kind == item.kind && t.timestamp == now
  {
    Transaction(TransactionId(now, random), item.id, item.name, item.price, item.kind,
                now, Pending, PaymentLink(item.price), None, None)
  }

  // ---------------------------------------------------------------------
  // Access keys (`generateKey`)
  // ---------------------------------------------------------------------

  /** `ENM-LT-` for a lifetime key, `ENM-T-` for every other type. */
  function KeyPrefix(kind: string): string
  {
    if kind == "lifetime" then "ENM-LT-" else "ENM-T-"
  }

  /** prefix + upper-cased base-36 time + `-` + upper-cased random part */
  function GenerateKey(kind: string, now: nat, random: string): (k: string)
    ensures StartsWith(k, "ENM-LT-") <==> kind == "lifetime"
    ensures kind != "lifetime" <==> StartsWith(k, "ENM-T-")
  {
    var k := KeyPrefix(kind) + Upper(Digits(now, 36)) + "-" + Upper(random);
    assert k[4] == (if kind == "lifetime" then 'L' else 'T');
    k
  }

  /** What a key string says about itself. */
  datatype KeyParts = KeyParts(lifetime: bool, timestamp: nat, random: string)

  /** Reads a key back: the prefix, then the base-36 time before the first
      `-` after it, then the rest. */
  function ParseKey(k: string): (r: Option<KeyParts>)
    ensures r.Some? ==> StartsWith(k, "ENM-")
    ensures r.Some? ==> (r.value.lifetime <==> StartsWith(k, "ENM-LT-"))
  {
    if StartsWith(k, "ENM-LT-") then ParseKeyBody(true, k[7..])
    else if StartsWith(k, "ENM-T-") then ParseKeyBody(false, k[6..])
    else None
  }

  function ParseKeyBody(lifetime: bool, rest: string): Option<KeyParts>
  {
    var parts := Split(rest, '-');
    if |parts| == 2 && |parts[0]| > 0 && IsBase36(parts[0])
    then Some(KeyParts(lifetime, Value(parts[0], 36), parts[1]))
    else None
  }

  /** A generated key reads back as its type, its creation time and its
      random part: the key carries exactly these three facts. */
  lemma KeyRoundTrip(kind: string, now: nat, random: string)
    requires IsBase36(random)
    ensures ParseKey(GenerateKey(kind, now, random))
         == Some(KeyParts(kind == "lifetime", now, Upper(random)))
  {
    var d := Digits(now, 36);
    var ts, u := Upper(d), Upper(random);
    UpperKeepsDigitValues(d);
    assert IsBase36(ts);
    Base36LacksDash(random);
    Base36LacksDash(ts);
    var k := GenerateKey(kind, now, random);
    var p := KeyPrefix(kind);
    assert k == p + (ts + "-" + u);
    assert k[|p|..] == ts + "-" + u;
    assert ts + "-" + u == Join([ts, u], '-');
    SplitJoin([ts, u], '-');
    ValueOfUpper(d, 36);
    ValueOfDigits(now, 36);
  }

  // ---------------------------------------------------------------------
  // The stored list and the operations that read or rewrite it
  // ---------------------------------------------------------------------

  /** `transactions.find(t => t.id === id)`, as the index of the match. */
  function FirstIndex(s: seq<Transaction>, id: string): (r: Option<nat>)
    ensures r.None? <==> forall i :: 0 <= i < |s| ==> s[i].id != id
    ensures r.Some? ==> r.value < |s| && s[r.value].id == id
    ensures r.Some? ==> forall j :: 0 <= j < r.value ==> s[j].id != id
    decreases |s|
  {
    if s == [] then None
    else if s[0].id == id then Some(0)
    else match FirstIndex(s[1..], id)
      case None => None
      case Some(i) => Some(i + 1)
  }

  /** The field writes `updateTransactionStatus` makes on the found record:
      the status, the key when a non-empty one is given, the time. */
  function Touched(t: Transaction, status: Status, key: Option<string>, now: nat): Transaction
  {
    t.(status := status,
       key := if key.Some? && key.value != "" then key else t.key,
       verifiedAt := Some(now))
  }

  /** The list `updateTransactionStatus` writes back. */
  function WithStatus(s: seq<Transaction>, id: string, status: Status, key: Option<string>, now: nat): (r: seq<Transaction>)
    ensures |r| == |s|
    ensures forall i :: 0 <= i < |s| ==> r[i].id == s[i].id && r[i].timestamp == s[i].timestamp
    ensures forall i :: 0 <= i < |s| && r[i] != s[i] ==> r[i].status == status && r[i].id == id
  {
    match FirstIndex(s, id)
    case None => s
    case Some(i) => s[i := Touched(s[i], status, key, now)]
  }

  /** An id that is not in the ledger changes nothing. */
  lemma UpdateUnknownIdUnchanged(s: seq<Transaction>, id: string, status: Status, key: Option<string>, now: nat)
    requires forall i :: 0 <= i < |s| ==> s[i].id != id
    ensures WithStatus(s, id, status, key, now) == s
  {
  }

  /** With a present id only the first record carrying it changes: its
      status is the one given, whatever it was before (there is no check
      that the record is still pending), `verifiedAt` is set, the key is
      replaced only by a non-empty one, and every other field and every
      other record is as before. */
  lemma UpdateChangesFirstMatchOnly(s: seq<Transaction>, id: string, status: Status, key: Option<string>, now: nat, i: nat)
    requires i < |s| && s[i].id == id
    requires forall j :: 0 <= j < i ==> s[j].id != id
    ensures |WithStatus(s, id, status, key, now)| == |s|
    ensures WithStatus(s, id, status, key, now)[i].status == status
    ensures WithStatus(s, id, status, key, now)[i].verifiedAt == Some(now)
    ensures WithStatus(s, id, status, key, now)[i].key
         == (if key.Some? && key.value != "" then key else s[i].key)
    ensures WithStatus(s, id, status, key, now)[i]
         == s[i].(status := status, key := WithStatus(s, id, status, key, now)[i].key, verifiedAt := Some(now))
    ensures forall j :: 0 <= j < |s| && j != i ==> WithStatus(s, id, status, key, now)[j] == s[j]
  {
  }

  /** A completed transaction is cancelled, and a second completion
      replaces its key and its `verifiedAt`: the status is not terminal. */
  lemma CompletedIsNotTerminal(t: Transaction, now: nat, k2: string, later: nat)
    requires t.status == Completed && k2 != ""
    ensures WithStatus([t], t.id, Cancelled, None, now)[0].status == Cancelled
    ensures WithStatus([t], t.id, Completed, Some(k2), later)[0].key == Some(k2)
    ensures WithStatus([t], t.id, Completed, Some(k2), later)[0].verifiedAt == Some(later)
  {
    UpdateChangesFirstMatchOnly([t], t.id, Cancelled, None, now, 0);
    UpdateChangesFirstMatchOnly([t], t.id, Completed, Some(k2), later, 0);
  }

  predicate IsPending(t: Transaction)
  {
    t.status == Pending
  }

  predicate NotCompleted(t: Transaction)
  {
    t.status != Completed
  }

  /** `transactions.filter(t => t.status === 'pending').length` */
  function PendingCount(s: seq<Transaction>): (r: nat)
    ensures r <= |s|
    ensures r == 0 <==> forall i :: 0 <= i < |s| ==> s[i].status != Pending
  {
    PendingCountZero(s);
    |Filter(s, IsPending)|
  }

  lemma PendingCountZero(s: seq<Transaction>)
    ensures Filter(s, IsPending) == [] <==> forall i :: 0 <= i < |s| ==> s[i].status != Pending
  {
    if forall i :: 0 <= i < |s| ==> s[i].status != Pending {
      FilterNone(s, IsPending);
    } else {
      var i :| 0 <= i < |s| && s[i].status == Pending;
      FilterMembers(s, IsPending, s[i]);
    }
  }

  /** The text of the pending notification, absent when nothing is pending. */
  function PendingNotice(n: nat): (r: Option<string>)
    ensures r.None? <==> n == 0
    ensures r.Some? ==> StartsWith(r.value, "You have ")
    ensures r.Some? ==> (r.value[|r.value| - 1] == 's' <==> n > 1)
  {
    if n > 0
    then Some("You have " + Digits(n, 10) + " pending transaction" + (if n > 1 then "s" else ""))
    else None
  }

  /** `checkPendingTransactions`: the notification on the page after the
      check, given the one already there. A notification already shown is
      kept exactly as it is: its count is not rewritten, and it stays when
      nothing is pending any more. A new one appears only when none is
      shown and something is pending. (The close button and the 10-second
      timer remove it; they are outside this model.) */
  function CheckPending(shown: Option<string>, s: seq<Transaction>): (r: Option<string>)
    ensures shown.Some? ==> r == shown
    ensures shown.None? ==> r == PendingNotice(PendingCount(s))
    ensures r.None? <==> shown.None? && PendingCount(s) == 0
  {
    if PendingCount(s) > 0 && shown.None? then PendingNotice(PendingCount(s)) else shown
  }

  /** The notification text for a single pending transaction. */
  lemma OnePendingNotice()
    ensures PendingNotice(1) == Some("You have 1 pending transaction")
  {
    assert DigitChar(1) == '1';
    assert Digits(1, 10) == "1";
    var text := "You have " + "1" + " pending transaction" + "";
    assert text == "You have 1 pending transaction";
  }

  /** After the buyer's only pending payment is confirmed, the notification
      shown for it still says one transaction is pending, although the
      ledger has none. */
  lemma StaleNoticeSurvives(t: Transaction, key: string, now: nat)
    requires t.status == Pending && key != ""
    ensures CheckPending(None, [t]) == Some("You have 1 pending transaction")
    ensures PendingCount(WithStatus([t], t.id, Completed, Some(key), now)) == 0
    ensures CheckPending(CheckPending(None, [t]), WithStatus([t], t.id, Completed, Some(key), now))
         == Some("You have 1 pending transaction")
  {
    assert Filter([t], IsPending) == [t];
    OnePendingNotice();
    UpdateChangesFirstMatchOnly([t], t.id, Completed, Some(key), now, 0);
  }

  /** The notification as it would be if every check refreshed it: the
      current count's text, and nothing when nothing is pending. */
  function RefreshedNotice(shown: Option<string>, s: seq<Transaction>): (r: Option<string>)
    ensures r.None? <==> PendingCount(s) == 0
    ensures r.Some? ==> StartsWith(r.value, "You have " + Digits(PendingCount(s), 10) + " pending transaction")
  {
    PendingNotice(PendingCount(s))
  }

  /** A refreshed notification never outlives the pending records: once
      the last pending one is confirmed it is gone, whatever was shown. */
  lemma RefreshedNoticeClearsOnConfirm(shown: Option<string>, t: Transaction, key: string, now: nat)
    requires t.status == Pending && key != ""
    ensures RefreshedNotice(shown, [t]) == Some("You have 1 pending transaction")
    ensures RefreshedNotice(shown, WithStatus([t], t.id, Completed, Some(key), now)).None?
  {
    assert Filter([t], IsPending) == [t];
    OnePendingNotice();
    UpdateChangesFirstMatchOnly([t], t.id, Completed, Some(key), now, 0);
  }

  /** Storing a record adds one to the pending count exactly when the
      record is pending. */
  lemma PendingCountAfterSave(s: seq<Transaction>, t: Transaction)
    ensures PendingCount(s + [t]) == PendingCount(s) + (if t.status == Pending then 1 else 0)
  {
    FilterAppend(s, [t], IsPending);
  }

  /** Clearing completed records keeps exactly the others, as a multiset
      and in their original order. */
  lemma ClearCompletedKeepsOthers(s: seq<Transaction>)
    ensures forall t :: t in Filter(s, NotCompleted) <==> t in s && t.status != Completed
    ensures forall t: Transaction :: t.status != Completed ==> multiset(Filter(s, NotCompleted))[t] == multiset(s)[t]
    ensures forall t: Transaction :: t.status == Completed ==> multiset(Filter(s, NotCompleted))[t] == 0
    ensures forall a, b :: s == a + b ==>
      Filter(s, NotCompleted) == Filter(a, NotCompleted) + Filter(b, NotCompleted)
  {
    forall t
      ensures t in Filter(s, NotCompleted) <==> t in s && t.status != Completed
      ensures multiset(Filter(s, NotCompleted))[t] == if t.status != Completed then multiset(s)[t] else 0
    {
      FilterMembers(s, NotCompleted, t);
      FilterMultiset(s, NotCompleted, t);
    }
    forall a, b | s == a + b
      ensures Filter(s, NotCompleted) == Filter(a, NotCompleted) + Filter(b, NotCompleted)
    {
      FilterAppend(a, b, NotCompleted);
    }
  }

  /** Clearing completed records leaves the pending ones, and so the
      pending count, as they were. */
  lemma {:induction false} ClearCompletedKeepsPending(s: seq<Transaction>)
    ensures Filter(Filter(s, NotCompleted), IsPending) == Filter(s, IsPending)
    decreases |s|
  {
    if s != [] {
      ClearCompletedKeepsPending(s[1..]);
      var head := if NotCompleted(s[0]) then [s[0]] else [];
      FilterAppend(head, Filter(s[1..], NotCompleted), IsPending);
    }
  }

  /** `checkUrlForVerification`: the record whose verification modal is
      reopened for a `?transaction=` parameter, if any. */
  function ReopenTarget(s: seq<Transaction>, param: Option<string>): (r: Option<Transaction>)
    ensures r.Some? ==> param.Some? && r.value in s && r.value.id == param.value && r.value.status == Pending
    ensures r.Some? <==>
      param.Some? && param.value != "" &&
      exists i :: 0 <= i < |s| && s[i].id == param.value && s[i].status == Pending &&
                  forall j :: 0 <= j < i ==> s[j].id != param.value
  {
    match param
    case None => None
    case Some(id) =>
      if id == "" then None
      else match FirstIndex(s, id)
        case None => None
        case Some(i) => if s[i].status == Pending then Some(s[i]) else None
  }

  /** Newest first: the order of the history panel. */
  predicate NewestFirst(s: seq<Transaction>)
  {
    forall i, j :: 0 <= i < j < |s| ==> s[i].timestamp >= s[j].timestamp
  }

  function InsertByTime(t: Transaction, s: seq<Transaction>): (r: seq<Transaction>)
    requires NewestFirst(s)
    ensures NewestFirst(r)
    ensures multiset(r) == multiset(s) + multiset{t}
    ensures |r| == |s| + 1
    ensures r[0] == t || (|s| > 0 && r[0] == s[0])
    decreases |s|
  {
    if s == [] then [t]
    else if s[0].timestamp <= t.timestamp then [t] + s
    else
      var rest := InsertByTime(t, s[1..]);
      assert s == [s[0]] + s[1..];
      [s[0]] + rest
  }

  /** `transactions.sort((a, b) => b.timestamp - a.timestamp)`: the same
      records, newest first. */
  function HistoryOrder(s: seq<Transaction>): (r: seq<Transaction>)
    ensures NewestFirst(r)
    ensures multiset(r) == multiset(s)
    decreases |s|
  {
    if s == [] then []
    else
      assert s == [s[0]] + s[1..];
      InsertByTime(s[0], HistoryOrder(s[1..]))
  }

  /** The browser's `enm_transactions` entry and the handlers that rewrite it. */
  class TransactionStore {
    var transactions: seq<Transaction>

    constructor(stored: seq<Transaction>)
      ensures transactions == stored
    {
      transactions := stored;
    }

    /** `saveTransaction`: read the list, push, write it back. */
    method SaveTransaction(t: Transaction)
      modifies this
      ensures transactions == old(transactions) + [t]
    {
      transactions := transactions + [t];
    }

    /** `updateTransactionStatus(id, status, key)`; `key` is `None` for a
        cancellation. */
    method UpdateTransactionStatus(id: string, status: Status, key: Option<string>, now: nat)
      modifies this
      ensures transactions == WithStatus(old(transactions), id, status, key, now)
      ensures |transactions| == |old(transactions)|
    {
      var found := FirstIndex(transactions, id);
      if found.Some? {
        var i := found.value;
        var t := transactions[i];
        t := t.(status := status);
        if key.Some? && key.value != "" {
          t := t.(key := key);
        }
        t := t.(verifiedAt := Some(now));
        transactions := transactions[i := t];
      }
    }

    /** The `proceedToPayPal` click: nothing without a selected item,
        otherwise a new pending record is appended and returned (it is what
        the verification modal shows) and the pending notification is
        checked; `shown` is the notification on the page before. */
    method ProceedToPayPal(current: Option<Item>, now: nat, random: string, shown: Option<string>)
      returns (t: Option<Transaction>, notice: Option<string>)
      modifies this
      ensures current.None? ==> t.None? && transactions == old(transactions) && notice == shown
      ensures current.Some? ==> t == Some(NewPendingTransaction(current.value, now, random))
      ensures current.Some? ==> transactions == old(transactions) + [t.value]
      ensures current.Some? ==> notice == CheckPending(shown, transactions)
      ensures PendingCount(transactions) == PendingCount(old(transactions)) + (if current.Some? then 1 else 0)
      ensures current.Some? ==> notice.Some?
    {
      if current.None? {
        return None, shown;
      }
      var pending := NewPendingTransaction(current.value, now, random);
      PendingCountAfterSave(transactions, pending);
      SaveTransaction(pending);
      t := Some(pending);
      notice := CheckPending(shown, transactions);
    }

    /** `clearCompletedTransactions`, after the confirmation dialog; the
        pending notification is checked again after clearing. */
    method ClearCompletedTransactions(confirmed: bool, shown: Option<string>) returns (notice: Option<string>)
      modifies this
      ensures transactions == if confirmed then Filter(old(transactions), NotCompleted) else old(transactions)
      ensures PendingCount(transactions) == PendingCount(old(transactions))
      ensures notice == if confirmed then CheckPending(shown, transactions) else shown
    {
      ClearCompletedKeepsPending(transactions);
      notice := shown;
      if confirmed {
        transactions := Filter(transactions, NotCompleted);
        notice := CheckPending(shown, transactions);
      }
    }
  }
}
