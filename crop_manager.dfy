/** The crop shop (`CropManager`): buying a crop costs `costPerCrop` coins from
    the shared store and plants the next crop in a row-major grid on a plane.
    The grid's dimensions, which Unity measures from renderer bounds, are
    inputs; instantiating a crop is recorded as its position. */
module Crops {
  import opened Geometry
  import opened Prefs

  function Abs(x: int): nat {
    if x < 0 then -x else x
  }

  /** C#'s integer `/`: the quotient truncated towards zero. */
  function TruncDiv(a: int, b: int): int
    requires b != 0
  {
    var q := Abs(a) / Abs(b);
    if (a < 0) != (b < 0) then -q else q
  }

  /** C#'s integer `%`: the remainder takes the sign of the dividend. */
  function TruncRem(a: int, b: int): int
    requires b != 0
  {
    var r := Abs(a) % Abs(b);
    if a < 0 then -r else r
  }

  /** For a non-negative dividend and a positive divisor C#'s `/` and `%`
      agree with Euclidean division. */
  lemma TruncMatchesEuclidean(a: nat, b: int)
    requires b > 0
    ensures TruncDiv(a, b) == a / b && TruncRem(a, b) == a % b
  {
  }

  datatype Slot = Slot(row: int, col: int)

  /** The grid cell of the crop planted when `count` crops already stand:
      `row = count / perRow`, `col = count % perRow` in C# arithmetic. The
      cell gives the count back, so distinct counts get distinct cells, and
      the column stays inside a row. */
  function SlotOf(count: nat, perRow: int): (s: Slot)
    requires perRow != 0
    ensures s.row * perRow + s.col == count
    ensures 0 <= s.col < Abs(perRow)
    ensures perRow > 0 ==> s.row >= 0 && s.col < perRow
  {
    var q, r := Abs(count) / Abs(perRow), Abs(count) % Abs(perRow);
    assert q * Abs(perRow) + r == count;
    Slot(TruncDiv(count, perRow), TruncRem(count, perRow))
  }

  lemma SlotsDistinct(m: nat, n: nat, perRow: int)
    requires perRow != 0 && m != n
    ensures SlotOf(m, perRow) != SlotOf(n, perRow)
  {
  }

  /** What `CalculateGridDimensions` leaves behind, and the plane's height. */
  datatype GridLayout = GridLayout(startPosition: Vec3, cropWidth: real, cropLength: real,
                                   maxCropsPerRow: int, planeY: real)

  /** Where a crop in `slot` is placed: offset from the grid's start by
      `col` crop widths along x and `row` crop lengths along z, at the
      plane's height. */
  function CropPosition(grid: GridLayout, slot: Slot): Vec3 {
    var offset := Add(grid.startPosition, Vec3(slot.col as real * grid.cropWidth, 0.0,
                                               slot.row as real * grid.cropLength));
    offset.(y := grid.planeY)
  }

  /** Crops planted at different counts never share a position, as long as
      the crops have a non-zero width and length. */
  lemma PositionsDistinct(grid: GridLayout, m: nat, n: nat)
    requires grid.maxCropsPerRow != 0 && grid.cropWidth != 0.0 && grid.cropLength != 0.0
    requires m != n
    ensures CropPosition(grid, SlotOf(m, grid.maxCropsPerRow)) !=
            CropPosition(grid, SlotOf(n, grid.maxCropsPerRow))
  {
    SlotsDistinct(m, n, grid.maxCropsPerRow);
    CellsApart(grid, SlotOf(m, grid.maxCropsPerRow), SlotOf(n, grid.maxCropsPerRow));
  }

  lemma CellsApart(grid: GridLayout, s: Slot, t: Slot)
    requires grid.cropWidth != 0.0 && grid.cropLength != 0.0 && s != t
    ensures CropPosition(grid, s) != CropPosition(grid, t)
  {
    if s.col != t.col {
      ScaleInjective(s.col, t.col, grid.cropWidth);
      assert CropPosition(grid, s).x != CropPosition(grid, t).x;
    } else {
      ScaleInjective(s.row, t.row, grid.cropLength);
      assert CropPosition(grid, s).z != CropPosition(grid, t).z;
    }
  }

  lemma ScaleInjective(i: int, j: int, w: real)
    requires i != j && w != 0.0
    ensures i as real * w != j as real * w
  {
    assert i as real * w - j as real * w == (i - j) as real * w;
  }

  /** The balance after paying `cost` out of `balance`, in C# `int`
      arithmetic. */
  function Charge(balance: Int32, cost: Int32): Int32 {
    Wrap32(balance - cost)
  }

  /** With a non-negative price, an affordable purchase takes exactly the
      price and leaves a non-negative balance no larger than before. */
  lemma ChargeAffordable(balance: Int32, cost: Int32)
    requires 0 <= cost <= balance
    ensures Charge(balance, cost) == balance - cost
    ensures 0 <= Charge(balance, cost) <= balance
  {
  }

  /** What one press of the buy button ends in: a crop was planted, the
      balance was too low, or the coins were taken and then `SpawnCrop` threw
      `DivideByZeroException` because the grid has no room in a row. */
  datatype Purchase = Planted | NotEnoughCoins | SpawnThrew

  class CropManager {
    const coinPlayerPrefKey: string
    const startingCoins: Int32
    const costPerCrop: Int32

    var currentCoins: Int32
    var cropsSpawnedCount: nat
    var grid: GridLayout
    /** Positions of the crops instantiated so far, oldest first. */
    var planted: seq<Vec3>

    constructor (coinPlayerPrefKey: string, startingCoins: Int32, costPerCrop: Int32)
      ensures this.coinPlayerPrefKey == coinPlayerPrefKey
      ensures this.startingCoins == startingCoins && this.costPerCrop == costPerCrop
      ensures currentCoins == 0 && cropsSpawnedCount == 0 && planted == []
      ensures grid == GridLayout(ZERO, 0.0, 0.0, 0, 0.0)
    {
      this.coinPlayerPrefKey := coinPlayerPrefKey;
      this.startingCoins := startingCoins;
      this.costPerCrop := costPerCrop;
      currentCoins, cropsSpawnedCount, planted := 0, 0, [];
      grid := GridLayout(ZERO, 0.0, 0.0, 0, 0.0);
    }

    /** Seeds the store with `startingCoins` only when it holds no balance
        yet (an existing balance, even a negative one, is kept), then reads
        the balance and records the grid measured from the scene. */
    method Start(prefs: PlayerPrefs, layout: GridLayout)
      modifies this, prefs
      ensures coinPlayerPrefKey in old(prefs.entries) ==> prefs.entries == old(prefs.entries)
      ensures coinPlayerPrefKey !in old(prefs.entries) ==>
        prefs.entries == old(prefs.entries)[coinPlayerPrefKey := startingCoins]
      ensures currentCoins == old(prefs.GetInt(coinPlayerPrefKey, startingCoins))
      ensures currentCoins == prefs.GetInt(coinPlayerPrefKey, 0)
      ensures grid == layout
      ensures cropsSpawnedCount == old(cropsSpawnedCount) && planted == old(planted)
    {
      if !prefs.HasKey(coinPlayerPrefKey) {
        prefs.SetInt(coinPlayerPrefKey, startingCoins);
      }
      currentCoins := prefs.GetInt(coinPlayerPrefKey, 0);
      grid := layout;
    }

    /** Plants the next crop in its grid cell and counts it. With
        `maxCropsPerRow == 0` the division throws before anything changes. */
    method SpawnCrop() returns (threw: bool)
      modifies this`cropsSpawnedCount, this`planted
      ensures threw <==> grid.maxCropsPerRow == 0
      ensures threw ==> cropsSpawnedCount == old(cropsSpawnedCount) && planted == old(planted)
      ensures !threw ==>
        cropsSpawnedCount == old(cropsSpawnedCount) + 1 &&
        planted == old(planted) + [CropPosition(grid, SlotOf(old(cropsSpawnedCount), grid.maxCropsPerRow))]
    {
      if grid.maxCropsPerRow == 0 {
        return true;
      }
      var row := TruncDiv(cropsSpawnedCount, grid.maxCropsPerRow);
      var col := TruncRem(cropsSpawnedCount, grid.maxCropsPerRow);
      var spawnPos := Add(grid.startPosition, Vec3(col as real * grid.cropWidth, 0.0,
                                                   row as real * grid.cropLength));
      spawnPos := spawnPos.(y := grid.planeY);
      assert SlotOf(cropsSpawnedCount, grid.maxCropsPerRow) == Slot(row, col);
      assert spawnPos == CropPosition(grid, Slot(row, col));
      planted := planted + [spawnPos];
      cropsSpawnedCount := cropsSpawnedCount + 1;
      return false;
    }

    /** Buys a crop when the stored balance covers `costPerCrop`: the balance
        drops by the price, is written back, and the crop is planted. When it
        does not, nothing but the cached `currentCoins` changes. */
    method TryBuyAndSpawnCrop(prefs: PlayerPrefs) returns (outcome: Purchase)
      modifies this, prefs
      ensures var balance := old(prefs.GetInt(coinPlayerPrefKey, 0));
        (outcome != NotEnoughCoins <==> balance >= costPerCrop) &&
        (outcome == NotEnoughCoins ==>
          prefs.entries == old(prefs.entries) && currentCoins == balance) &&
        (outcome != NotEnoughCoins ==>
          currentCoins == Charge(balance, costPerCrop) &&
          prefs.entries == old(prefs.entries)[coinPlayerPrefKey := currentCoins])
      ensures outcome == SpawnThrew <==>
        old(prefs.GetInt(coinPlayerPrefKey, 0)) >= costPerCrop && grid.maxCropsPerRow == 0
      ensures outcome == Planted ==>
        cropsSpawnedCount == old(cropsSpawnedCount) + 1 &&
        planted == old(planted) + [CropPosition(grid, SlotOf(old(cropsSpawnedCount), grid.maxCropsPerRow))]
      ensures outcome != Planted ==>
        cropsSpawnedCount == old(cropsSpawnedCount) && planted == old(planted)
      ensures grid == old(grid)
    {
      currentCoins := prefs.GetInt(coinPlayerPrefKey, 0);
      if currentCoins >= costPerCrop {
        currentCoins := Charge(currentCoins, costPerCrop);
        prefs.SetInt(coinPlayerPrefKey, currentCoins);
        var threw := SpawnCrop();
        outcome := if threw then SpawnThrew else Planted;
      } else {
        outcome := NotEnoughCoins;
      }
    }

    /** Puts the stored and the cached balance back to `startingCoins`;
        planted crops stay. */
    method ResetCoins(prefs: PlayerPrefs)
      modifies this`currentCoins, prefs
      ensures prefs.entries == old(prefs.entries)[coinPlayerPrefKey := startingCoins]
      ensures currentCoins == startingCoins
      ensures cropsSpawnedCount == old(cropsSpawnedCount) && planted == old(planted)
    {
      prefs.SetInt(coinPlayerPrefKey, startingCoins);
      currentCoins := startingCoins;
    }
  }
}
