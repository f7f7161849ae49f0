/** The coin granter (`CoinGranter`): a reward, or a button, adds coins to the
    balance in the shared store by reading it, adding in C# `int` arithmetic
    and writing it back. */
module Granter {
  import opened Prefs

  /** The store after `amount` coins are added to the balance under `key`;
      a missing balance counts as 0. */
  function Credit(entries: map<string, Int32>, key: string, amount: Int32): map<string, Int32> {
    entries[key := Wrap32(Lookup(entries, key, 0) + amount)]
  }

  /** A credit changes the one entry under `key` and no other. */
  lemma CreditFrame(entries: map<string, Int32>, key: string, amount: Int32)
    ensures key in Credit(entries, key, amount)
    ensures Credit(entries, key, amount).Keys == entries.Keys + {key}
    ensures forall k :: k in entries && k != key ==> Credit(entries, key, amount)[k] == entries[k]
  {
  }

  /** As long as the sum fits in an `int`, the new balance is the old one
      plus the amount exactly; a missing balance starts from 0. */
  lemma CreditExact(entries: map<string, Int32>, key: string, amount: Int32)
    requires InInt32Range(Lookup(entries, key, 0) + amount)
    ensures key !in entries ==> Credit(entries, key, amount)[key] == amount
    ensures key in entries ==> Credit(entries, key, amount)[key] == entries[key] + amount
  {
  }

  /** Crediting `a` and then `b` leaves the store as crediting their (C#)
      sum once does. */
  lemma CreditTwice(entries: map<string, Int32>, key: string, a: Int32, b: Int32)
    ensures Credit(Credit(entries, key, a), key, b) == Credit(entries, key, Wrap32(a + b))
  {
    WrapAddRegroup(Lookup(entries, key, 0), a, b);
  }

  class CoinGranter {
    const coinPlayerPrefKey: string
    const amountToGrant: Int32

    constructor (coinPlayerPrefKey: string, amountToGrant: Int32)
      ensures this.coinPlayerPrefKey == coinPlayerPrefKey && this.amountToGrant == amountToGrant
    {
      this.coinPlayerPrefKey := coinPlayerPrefKey;
      this.amountToGrant := amountToGrant;
    }

    /** Adds `amount` to the stored balance (0 when there is none yet); every
        other entry of the store is left alone. */
    method AddCoins(prefs: PlayerPrefs, amount: Int32)
      modifies prefs
      ensures prefs.entries == Credit(old(prefs.entries), coinPlayerPrefKey, amount)
      ensures prefs.GetInt(coinPlayerPrefKey, 0) == Wrap32(old(prefs.GetInt(coinPlayerPrefKey, 0)) + amount)
    {
      var currentCoins := prefs.GetInt(coinPlayerPrefKey, 0);
      currentCoins := Wrap32(currentCoins + amount);
      prefs.SetInt(coinPlayerPrefKey, currentCoins);
    }

    /** The button handler: grants `amountToGrant`. */
    method GrantCoins(prefs: PlayerPrefs)
      modifies prefs
      ensures prefs.entries == Credit(old(prefs.entries), coinPlayerPrefKey, amountToGrant)
    {
      AddCoins(prefs, amountToGrant);
    }

    /** The inspector's test entry: the same as `GrantCoins`. */
    method TestGrant(prefs: PlayerPrefs)
      modifies prefs
      ensures prefs.entries == Credit(old(prefs.entries), coinPlayerPrefKey, amountToGrant)
    {
      GrantCoins(prefs);
    }
  }
}
