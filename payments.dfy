/** The three payment methods and their processPayment check. A thrown
    exception becomes a Fail outcome; returning normally is Pass. */
module Payments {

  /** CreditCardPayment, DigitalWalletPayment and HandCashPayment. */
  datatype PaymentMethod =
    | CreditCard(cardNumber: string, expiry: string)
    | DigitalWallet(walletId: string)
    | HandCash

  datatype PaymentError =
    | InvalidAmount(amount: real)  // the PaymentException every method throws
    | CardNumberTooShort           // the card's last-four substring fails on a number under four UTF-16 units

  /** Normal return or the exception that ends the call. */
  datatype Outcome = Pass | Fail(error: PaymentError)

  /** The length of a string as Java counts it: in UTF-16 code units, where
      a character above U+FFFF takes two (a surrogate pair). */
  function Utf16Length(s: string): (n: nat)
    ensures |s| <= n <= 2 * |s|
  {
    if s == [] then 0
    else (if s[0] as int > 0xFFFF then 2 else 1) + Utf16Length(s[1..])
  }

  /** A card number of three characters, one of them outside the Basic
      Multilingual Plane, is four UTF-16 units long, so its receipt substring
      succeeds and the payment goes through. */
  lemma SupplementaryCharacterCardPasses()
    ensures |"12\U{1F600}"| == 3 && Utf16Length("12\U{1F600}") == 4
    ensures ProcessPayment(CreditCard("12\U{1F600}", "12/25"), 1.0) == Pass
  {
    assert "12\U{1F600}"[1..] == "2\U{1F600}";
    assert "2\U{1F600}"[1..] == "\U{1F600}";
    assert "\U{1F600}"[1..] == "";
  }

  /** processPayment: every method rejects an amount that is not positive;
      a credit card additionally cuts its last four digits for the receipt,
      which throws when the number is shorter than four UTF-16 code units. */
  function ProcessPayment(m: PaymentMethod, amount: real): (o: Outcome)
    ensures o.Fail? && o.error.InvalidAmount? <==> amount <= 0.0
    ensures o.Fail? && o.error.InvalidAmount? ==> o.error.amount == amount
    ensures o == Fail(CardNumberTooShort) <==> amount > 0.0 && m.CreditCard? && Utf16Length(m.cardNumber) < 4
    ensures o.Pass? <==> amount > 0.0 && !(m.CreditCard? && Utf16Length(m.cardNumber) < 4)
  {
    if amount <= 0.0 then Fail(InvalidAmount(amount))
    else if m.CreditCard? && Utf16Length(m.cardNumber) < 4 then Fail(CardNumberTooShort)
    else Pass
  }

  /** The three methods agree on which amounts they reject as invalid. */
  lemma AmountCheckIndependentOfMethod(m1: PaymentMethod, m2: PaymentMethod, amount: real)
    ensures ProcessPayment(m1, amount).Fail? && ProcessPayment(m1, amount).error.InvalidAmount?
        <==> ProcessPayment(m2, amount).Fail? && ProcessPayment(m2, amount).error.InvalidAmount?
  {
  }

  /** The payment method a new rider gets from the menu choice: 1 a card,
      2 a wallet, 3 or anything else hand cash. */
  function PaymentFor(choice: int, cardNumber: string, expiry: string, walletId: string): (m: PaymentMethod)
    ensures m.CreditCard? <==> choice == 1
    ensures m.DigitalWallet? <==> choice == 2
    ensures m.HandCash? <==> choice != 1 && choice != 2
    ensures m.CreditCard? ==> m.cardNumber == cardNumber && m.expiry == expiry
    ensures m.DigitalWallet? ==> m.walletId == walletId
  {
    if choice == 1 then CreditCard(cardNumber, expiry)
    else if choice == 2 then DigitalWallet(walletId)
    else HandCash
  }
}
