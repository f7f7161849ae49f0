/** The persistent key-value store (Unity's `PlayerPrefs`) that the crop
    manager, the coin granter and the coin label share through the key
    "PlayerCoins", together with C#'s 32-bit `int`, whose arithmetic in these
    scripts is unchecked and wraps around. */
module Prefs {

  const TWO_POW_31: int := 0x8000_0000
  const TWO_POW_32: int := 0x1_0000_0000

  /** A C# `int`. */
  type Int32 = x: int | -0x8000_0000 <= x < 0x8000_0000

  predicate InInt32Range(x: int) {
    -TWO_POW_31 <= x < TWO_POW_31
  }

  /** The value unchecked C# `int` arithmetic produces for the mathematical
      result `x`: the one `int` congruent to `x` modulo 2^32. */
  function Wrap32(x: int): (r: Int32)
    ensures (r - x) % TWO_POW_32 == 0
    ensures InInt32Range(x) ==> r == x
  {
    (x + TWO_POW_31) % TWO_POW_32 - TWO_POW_31
  }

  /** Wrapping depends only on the residue modulo 2^32. */
  lemma WrapCongruent(u: int, v: int)
    requires (u - v) % TWO_POW_32 == 0
    ensures Wrap32(u) == Wrap32(v)
  {
    var k := (u - v) / TWO_POW_32;
    assert u + TWO_POW_31 == (v + TWO_POW_31) + k * TWO_POW_32;
    ModShift(v + TWO_POW_31, k);
  }

  lemma {:induction false} ModShift(y: int, k: int)
    ensures (y + k * TWO_POW_32) % TWO_POW_32 == y % TWO_POW_32
    decreases if k < 0 then -k else k
  {
    if k > 0 {
      ModShift(y, k - 1);
      assert y + k * TWO_POW_32 == (y + (k - 1) * TWO_POW_32) + TWO_POW_32;
    } else if k < 0 {
      ModShift(y, k + 1);
      assert y + k * TWO_POW_32 == (y + (k + 1) * TWO_POW_32) - TWO_POW_32;
    }
  }

  /** Two wrapped additions give what one wrapped addition of the wrapped sum
      gives: the order in which amounts reach a balance does not matter. */
  lemma WrapAddRegroup(x: int, a: int, b: int)
    ensures Wrap32(Wrap32(x + a) + b) == Wrap32(x + Wrap32(a + b))
  {
    var left, right := Wrap32(x + a) + b, x + Wrap32(a + b);
    assert (Wrap32(x + a) - (x + a)) % TWO_POW_32 == 0;
    assert (Wrap32(a + b) - (a + b)) % TWO_POW_32 == 0;
    assert left - right == (Wrap32(x + a) - (x + a)) - (Wrap32(a + b) - (a + b));
    DifferenceOfMultiples(Wrap32(x + a) - (x + a), Wrap32(a + b) - (a + b));
    WrapCongruent(left, right);
  }

  lemma DifferenceOfMultiples(p: int, q: int)
    requires p % TWO_POW_32 == 0 && q % TWO_POW_32 == 0
    ensures (p - q) % TWO_POW_32 == 0
  {
    var i, j := p / TWO_POW_32, q / TWO_POW_32;
    assert p - q == (i - j) * TWO_POW_32;
    ModShift(0, i - j);
  }

  /** `PlayerPrefs.GetInt(key, default)` on a snapshot of the store. */
  function Lookup(entries: map<string, Int32>, key: string, default: Int32): Int32 {
    if key in entries then entries[key] else default
  }

  /** The store. Only its integer entries are modelled; `PlayerPrefs.Save`,
      which flushes it to disk, changes nothing the scripts can observe. */
  class PlayerPrefs {
    var entries: map<string, Int32>

    constructor (initial: map<string, Int32>)
      ensures entries == initial
    {
      entries := initial;
    }

    /** `PlayerPrefs.GetInt(key, default)`; the one-argument overload is
        `GetInt(key, 0)`. */
    function GetInt(key: string, default: Int32): (v: Int32)
      reads this
      ensures key in entries ==> v == entries[key]
      ensures key !in entries ==> v == default
    {
      Lookup(entries, key, default)
    }

    predicate HasKey(key: string)
      reads this
    {
      key in entries
    }

    method SetInt(key: string, value: Int32)
      modifies this
      ensures entries == old(entries)[key := value]
    {
      entries := entries[key := value];
    }
  }
}
