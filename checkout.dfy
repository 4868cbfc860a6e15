/** The payment confirmation step of the store page (script.js,
    `verifyPayment`): the key is issued, the transaction is completed in
    the ledger and, for a signed-in buyer, the purchase is recorded in the
    buyer's account lists. */
module Checkout {
  import opened Common
  import opened Text
  import opened Ledger
  import opened DiscordAuth

  /** The item a timed-key card selects, as the page builds its button:
      id, name and price from the card, and the type `timed` for every
      card, whatever its duration. */
  function CardItem(id: string, name: string, price: string): (r: Item)
    ensures r.id == id && r.name == name && r.price == price
    ensures !IsTimed(r.kind) && r.kind != "lifetime"
  {
    Item(id, name, price, "timed")
  }

  /** The item a timed-key card would select if its button carried its
      duration as its type: the card id, which is the duration. */
  function DurationCardItem(id: string, name: string, price: string): (r: Item)
    requires IsTimed(id)
    ensures r.id == id && r.name == name && r.price == price
    ensures IsTimed(r.kind) && r.kind == r.id
  {
    Item(id, name, price, id)
  }

  /** The object `verifyPayment` hands to `recordPurchase`. */
  function PurchaseOf(t: Transaction, key: string): PurchaseData
  {
    PurchaseData(Some(t.id), t.itemName, t.price, t.kind, Some(key))
  }

  /** A key issued by the ledger has four `-`-separated fields: `ENM`, the
      type marker, the time and the random part. */
  lemma IssuedKeyFields(kind: string, now: nat, random: string)
    requires IsBase36(random)
    ensures Split(GenerateKey(kind, now, random), '-')
         == ["ENM", if kind == "lifetime" then "LT" else "T", Upper(Digits(now, 36)), Upper(random)]
  {
    var d := Digits(now, 36);
    var ts, u := Upper(d), Upper(random);
    var m := if kind == "lifetime" then "LT" else "T";
    UpperKeepsDigitValues(d);
    Base36LacksDash(random);
    Base36LacksDash(ts);
    var parts := ["ENM", m, ts, u];
    JoinFour("ENM", m, ts, u, '-');
    assert KeyPrefix(kind) == "ENM" + "-" + m + "-";
    assert GenerateKey(kind, now, random) == Join(parts, '-');
    SplitJoin(parts, '-');
  }

  /** The code saved in the account's key list is never the key the buyer
      was shown and the ledger stores: the account list gets a fresh
      `ENM-` code with five fields, the issued key has four. */
  lemma AccountCodeIsNotIssuedKey(kind: string, now: nat, random: string, groups: seq<string>)
    requires IsBase36(random)
    requires |groups| == 4
    requires forall i :: 0 <= i < 4 ==> IsBase36(groups[i])
    ensures GenerateKeyCode(groups) != GenerateKey(kind, now, random)
  {
    IssuedKeyFields(kind, now, random);
    KeyCodeGroups(groups);
    assert |Split(GenerateKeyCode(groups), '-')| == 5;
  }

  /** `verifyPayment(transaction)`: issues the key, completes the record
      with that id, records the purchase for a signed-in buyer, and
      returns the key and the pending notification after the check that
      follows (`shown` is the one on the page before). */
  method VerifyPayment(store: TransactionStore, session: Session, t: Transaction,
                       nowMs: nat, today: Moment, random: string, groups: seq<string>,
                       shown: Option<string>)
    returns (key: string, notice: Option<string>)
    requires |groups| == 4
    modifies store, session
    ensures key == GenerateKey(t.kind, nowMs, random)
    ensures store.transactions == WithStatus(old(store.transactions), t.id, Completed, Some(key), nowMs)
    ensures notice == CheckPending(shown, store.transactions)
    ensures session.accessToken == old(session.accessToken) && session.user == old(session.user)
    ensures session.storedToken == old(session.storedToken) && session.returnUrl == old(session.returnUrl)
    ensures old(session.user).None? ==>
      session.purchases == old(session.purchases) && session.keys == old(session.keys)
    ensures old(session.user).Some? ==>
      var id := old(session.user).value.id;
      && session.purchases == Appended(old(session.purchases), PurchasesKey(id), NewPurchase(PurchaseOf(t, key), today, id))
      && session.keys == Appended(old(session.keys), KeysKey(id), NewKey(PurchaseOf(t, key), today, groups))
  {
    key := GenerateKey(t.kind, nowMs, random);
    store.UpdateTransactionStatus(t.id, Completed, Some(key), nowMs);
    if session.user.Some? {
      var _ := session.RecordPurchase(PurchaseOf(t, key), today, groups);
    }
    notice := CheckPending(shown, store.transactions);
  }

  /** After confirmation the record is completed with the issued key,
      whatever its earlier status. */
  lemma ConfirmedRecordCarriesKey(s: seq<Transaction>, t: Transaction, nowMs: nat, random: string, i: nat)
    requires i < |s| && s[i].id == t.id
    requires forall j :: 0 <= j < i ==> s[j].id != t.id
    ensures WithStatus(s, t.id, Completed, Some(GenerateKey(t.kind, nowMs, random)), nowMs)[i].status == Completed
    ensures WithStatus(s, t.id, Completed, Some(GenerateKey(t.kind, nowMs, random)), nowMs)[i].key
         == Some(GenerateKey(t.kind, nowMs, random))
  {
    var k := GenerateKey(t.kind, nowMs, random);
    assert StartsWith(k, "ENM-LT-") || StartsWith(k, "ENM-T-");
    UpdateChangesFirstMatchOnly(s, t.id, Completed, Some(k), nowMs, i);
  }

  /** A key bought from any timed-key card is saved in the buyer's account
      with no expiry and listed as "Lifetime", and the ledger issues it an
      `ENM-T-` key: the card's duration is lost at the click. */
  lemma TimedCardKeyShowsLifetime(id: string, name: string, price: string, nowMs: nat, random: string,
                                  today: Moment, groups: seq<string>, localDate: Moment -> string)
    requires |groups| == 4
    ensures var t := NewPendingTransaction(CardItem(id, name, price), nowMs, random);
            var k := NewKey(PurchaseOf(t, GenerateKey(t.kind, nowMs, random)), today, groups);
            && StartsWith(GenerateKey(t.kind, nowMs, random), "ENM-T-")
            && k.expiry.None?
            && ExpiryLabel(k, localDate) == "Lifetime"
  {
  }

  /** With the duration as the button's type, the account key of a 24-hour,
      7-day or 30-day card expires one, seven or thirty days after the
      purchase, and is listed with that date. */
  lemma DurationCardKeyExpires(id: string, name: string, price: string, nowMs: nat, random: string,
                               today: Moment, groups: seq<string>, localDate: Moment -> string)
    requires IsTimed(id) && |groups| == 4
    ensures var t := NewPendingTransaction(DurationCardItem(id, name, price), nowMs, random);
            var k := NewKey(PurchaseOf(t, GenerateKey(t.kind, nowMs, random)), today, groups);
            && k.expiry.Some? && Before(today, k.expiry.value)
            && k.expiry.value.day - today.day == (if id == "24h" then 1 else if id == "7d" then 7 else 30)
            && StartsWith(ExpiryLabel(k, localDate), "Expires: ")
  {
  }
}
