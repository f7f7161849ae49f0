/** The coin label (`CoinUI`): every frame it reads the balance from the shared
    store and redraws its text only when the balance differs from the one it
    last showed. The text is the prefix followed by the balance in decimal,
    as C#'s `int.ToString()` writes it with an invariant "-" sign. */
module CoinDisplay {
  import opened Prefs

  predicate IsDigit(c: char) {
    '0' <= c <= '9'
  }

  function DigitChar(d: nat): (c: char)
    requires d < 10
    ensures IsDigit(c) && c as int - '0' as int == d
  {
    ('0' as int + d) as char
  }

  /** The decimal digits of `n`, most significant first, with no leading
      zero except for 0 itself. */
  function NatDigits(n: nat): (s: string)
    ensures |s| >= 1
    ensures forall i :: 0 <= i < |s| ==> IsDigit(s[i])
    ensures |s| > 1 ==> s[0] != '0'
    ensures s[0] == '0' ==> n == 0
    decreases n
  {
    if n < 10 then [DigitChar(n)]
    else NatDigits(n / 10) + [DigitChar(n % 10)]
  }

  /** `n.ToString()`. */
  function Decimal(n: int): string {
    if n < 0 then "-" + NatDigits(-n) else NatDigits(n)
  }

  /** Reads a string of decimal digits back as a number. */
  function ParseNat(s: string): nat
    requires forall i :: 0 <= i < |s| ==> IsDigit(s[i])
  {
    if s == [] then 0
    else
      assert IsDigit(s[|s| - 1]);
      ParseNat(s[..|s| - 1]) * 10 + (s[|s| - 1] as int - '0' as int)
  }

  /** Reads an optionally negative decimal numeral. */
  function ParseDecimal(s: string): int
    requires |s| >= 1
    requires s[0] == '-' ==> |s| >= 2
    requires forall i :: (if s[0] == '-' then 1 else 0) <= i < |s| ==> IsDigit(s[i])
  {
    if s[0] == '-' then -(ParseNat(s[1..]) as int) else ParseNat(s)
  }

  lemma {:induction false} NatDigitsRoundTrip(n: nat)
    ensures ParseNat(NatDigits(n)) == n
    decreases n
  {
    if n >= 10 {
      NatDigitsRoundTrip(n / 10);
      var s := NatDigits(n);
      assert s[..|s| - 1] == NatDigits(n / 10);
    }
  }

  /** The text shown for a balance determines the balance: reading it back
      gives the number, so two balances never share a label. */
  lemma DecimalRoundTrip(n: int)
    ensures |Decimal(n)| >= 1 && (Decimal(n)[0] == '-' ==> |Decimal(n)| >= 2)
    ensures forall i :: (if Decimal(n)[0] == '-' then 1 else 0) <= i < |Decimal(n)| ==> IsDigit(Decimal(n)[i])
    ensures ParseDecimal(Decimal(n)) == n
  {
    if n < 0 {
      NatDigitsRoundTrip(-n);
      assert Decimal(n)[1..] == NatDigits(-n);
    } else {
      NatDigitsRoundTrip(n);
    }
  }

  /** A TextMeshPro label; only its text is modelled. */
  class Label {
    var text: string

    constructor (text: string)
      ensures this.text == text
    {
      this.text := text;
    }
  }

  class CoinUI {
    /** The label to write to, or `null` when none is assigned. */
    const coinTextLabel: Label?
    const coinPlayerPrefKey: string
    const prefix: string

    /** The balance last shown; -1 before the first frame. */
    var displayedCoinCount: Int32

    constructor (coinTextLabel: Label?, coinPlayerPrefKey: string, prefix: string)
      ensures this.coinTextLabel == coinTextLabel
      ensures this.coinPlayerPrefKey == coinPlayerPrefKey && this.prefix == prefix
      ensures displayedCoinCount == -1
    {
      this.coinTextLabel := coinTextLabel;
      this.coinPlayerPrefKey := coinPlayerPrefKey;
      this.prefix := prefix;
      displayedCoinCount := -1;
    }

    /** Writes the label's text, if there is a label. */
    method UpdateText()
      modifies coinTextLabel
      ensures coinTextLabel != null ==> coinTextLabel.text == prefix + Decimal(displayedCoinCount)
    {
      if coinTextLabel != null {
        coinTextLabel.text := prefix + Decimal(displayedCoinCount);
      }
    }

    /** One frame: the cached count catches up with the stored balance (0 when
        there is none), and the label is redrawn exactly when they differed.
        The store is only read, and a frame over a balance already shown
        changes nothing. */
    method Update(prefs: PlayerPrefs)
      modifies this, coinTextLabel
      ensures displayedCoinCount == prefs.GetInt(coinPlayerPrefKey, 0)
      ensures old(displayedCoinCount) != prefs.GetInt(coinPlayerPrefKey, 0) && coinTextLabel != null ==>
        coinTextLabel.text == prefix + Decimal(displayedCoinCount)
      ensures old(displayedCoinCount) == prefs.GetInt(coinPlayerPrefKey, 0) ==>
        unchanged(this) && (coinTextLabel != null ==> unchanged(coinTextLabel))
    {
      var currentCoins := prefs.GetInt(coinPlayerPrefKey, 0);
      if currentCoins != displayedCoinCount {
        displayedCoinCount := currentCoins;
        UpdateText();
      }
    }
  }
}
