/** Gift cards (src/routes/giftCards.js): issuing a card and redeeming part or all
    of its balance onto a customer's account. */
module GiftCards {
  import opened Common
  import opened Models

  /** The schema's `min` on a card's face amount. */
  const MinimumAmount: real := 10.0

  /** The number a string of decimal digits denotes, most significant digit first. */
  function DigitsValue(s: string): int {
    if s == [] then 0 else DigitsValue(s[..|s| - 1]) * 10 + (s[|s| - 1] as int - '0' as int)
  }

  /** The decimal digits of a natural number, as a template literal prints it:
      digits only, a leading zero only for zero itself, and denoting `n`. */
  function Decimal(n: nat): (s: string)
    ensures |s| >= 1 && forall i :: 0 <= i < |s| ==> IsDigit(s[i])
    ensures s[0] == '0' ==> n == 0
    ensures DigitsValue(s) == n
  {
    var d := ['0' + (n % 10) as char];
    if n < 10 then d
    else
      var r := Decimal(n / 10) + d;
      assert r[..|r| - 1] == Decimal(n / 10);
      r
  }

  /** A card code: "HO-", the issuing time in milliseconds, "-", and the random part. */
  function IssueCode(now: nat, randomPart: string): (code: string)
    ensures |code| > 3 && code[..3] == "HO-"
    ensures code[3..] == Decimal(now) + "-" + randomPart
  {
    "HO-" + Decimal(now) + "-" + randomPart
  }

  /** POST /. A missing amount or one below the schema minimum makes the save fail
      (400); otherwise the new card's balance is its amount and it is active. The
      random part of the code is an input. */
  method CreateGiftCard(amount: Option<real>, now: nat, randomPart: string,
                        recipientEmail: Option<string>, recipientName: Option<string>,
                        senderName: Option<string>, senderEmail: Option<string>,
                        message: Option<string>) returns (card: GiftCard?)
    ensures card == null <==> amount.None? || amount.value < MinimumAmount
    ensures card != null ==> fresh(card) && card.amount == amount.value && card.balance == amount.value &&
                             card.status == Active && card.redeemedAt == None &&
                             card.code == IssueCode(now, randomPart)
  {
    if amount.None? || amount.value < MinimumAmount {
      return null;
    }
    card := new GiftCard(IssueCode(now, randomPart), amount.value, recipientEmail, recipientName,
                         senderName, senderEmail, message);
  }

  /** The part of a card that redemption changes. */
  datatype CardState = CardState(balance: real, status: GiftCardStatus, redeemedAt: Option<int>)

  function StateOf(card: GiftCard): CardState
    reads card
  {
    CardState(card.balance, card.status, card.redeemedAt)
  }

  datatype RedeemError = CardNotFound | NotActive | InsufficientBalance | InvalidAmount

  /** The route's debit as written: any amount not above the balance is taken off,
      including a negative one. */
  function DebitAsWritten(c: CardState, amount: real, now: int): Result<CardState, RedeemError> {
    if c.status != Active then Err(NotActive)
    else if c.balance < amount then Err(InsufficientBalance)
    else
      var balance := c.balance - amount;
      if balance == 0.0 then Ok(CardState(balance, Redeemed, Some(now))) else Ok(c.(balance := balance))
  }

  /** As written, redeeming a negative amount from an active card raises its balance
      above what it held, and so above the face amount of a card never used. */
  lemma NegativeRedeemRaisesBalance(c: CardState, amount: real, now: int)
    requires c.status == Active && c.balance >= 0.0 && amount < 0.0
    ensures DebitAsWritten(c, amount, now).Ok?
    ensures DebitAsWritten(c, amount, now).value.balance > c.balance
  {
  }

  /** A concrete case: a fresh 50.00 card redeemed for -20.00 holds 70.00. */
  lemma NegativeRedeemExample()
    ensures DebitAsWritten(CardState(50.0, Active, None), -20.0, 0) == Ok(CardState(70.0, Active, None))
  {
  }

  /** The debit with the evidently intended guard: a negative amount is refused.
      A non-active card and an amount above the balance are refused as before; a
      debit that reaches exactly zero redeems the card and records the time. */
  function Debit(c: CardState, amount: real, now: int): (r: Result<CardState, RedeemError>)
    ensures r.Err? <==> c.status != Active || amount < 0.0 || c.balance < amount
    ensures c.status != Active ==> r == Err(NotActive)
    ensures c.status == Active && amount < 0.0 ==> r == Err(InvalidAmount)
    ensures c.status == Active && 0.0 <= amount && c.balance < amount ==> r == Err(InsufficientBalance)
    ensures r.Ok? ==> r.value.balance == c.balance - amount
    ensures r.Ok? ==> (r.value.status == Redeemed <==> r.value.balance == 0.0)
    ensures r.Ok? ==> r.value.status != Expired
    ensures r.Ok? ==> r.value.redeemedAt == (if r.value.balance == 0.0 then Some(now) else c.redeemedAt)
  {
    if c.status != Active then Err(NotActive)
    else if amount < 0.0 then Err(InvalidAmount)
    else DebitAsWritten(c, amount, now)
  }

  /** A stored card keeps its balance between zero and its face amount, and is
      active exactly while something is left on it. */
  predicate CardInvariant(c: CardState, face: real) {
    0.0 <= c.balance <= face &&
    (c.status == Active ==> c.balance > 0.0) &&
    (c.status == Redeemed ==> c.balance == 0.0)
  }

  lemma DebitKeepsInvariant(c: CardState, face: real, amount: real, now: int)
    requires CardInvariant(c, face)
    ensures Debit(c, amount, now).Ok? ==> CardInvariant(Debit(c, amount, now).value, face)
  {
  }

  /** Redeeming the whole balance empties and redeems the card; redeeming any part
      of it leaves the card active. */
  lemma DebitWholeOrPart(c: CardState, amount: real, now: int)
    requires c.status == Active && 0.0 <= amount <= c.balance
    ensures amount == c.balance ==> Debit(c, amount, now) == Ok(CardState(0.0, Redeemed, Some(now)))
    ensures amount < c.balance ==> Debit(c, amount, now) == Ok(c.(balance := c.balance - amount))
  {
  }

  /** POST /:code/redeem. The card is debited (or the request refused with no
      change); the customer, when found, is credited the same amount. */
  method Redeem(card: GiftCard?, customer: Customer?, amount: real, now: int)
    returns (r: Result<real, RedeemError>)
    modifies card, customer
    ensures card == null ==> r == Err(CardNotFound)
    ensures card != null ==> (r.Err? <==> Debit(old(StateOf(card)), amount, now).Err?)
    ensures card != null && r.Err? ==> r.error == Debit(old(StateOf(card)), amount, now).error
    ensures r.Err? ==> (card != null ==> unchanged(card)) && (customer != null ==> unchanged(customer))
    ensures r.Ok? ==> card != null && StateOf(card) == Debit(old(StateOf(card)), amount, now).value &&
                      r.value == card.balance
    ensures r.Ok? && customer != null ==>
              customer.Snapshot() == old(customer.Snapshot()).(giftCardBalance := old(customer.giftCardBalance) + amount)
  {
    if card == null {
      return Err(CardNotFound);
    }
    var debit := Debit(StateOf(card), amount, now);
    if debit.Err? {
      return Err(debit.error);
    }
    card.balance := card.balance - amount;
    if card.balance == 0.0 {
      card.status := Redeemed;
      card.redeemedAt := Some(now);
    }
    if customer != null {
      customer.giftCardBalance := customer.giftCardBalance + amount;
    }
    r := Ok(card.balance);
  }
}
