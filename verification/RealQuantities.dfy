/**
 * The tolerance and the rounding of the planner over real quantities. Each take rounds the shipped line and the
 * remaining quantity to three decimals; this module bounds what that can add or lose, and shows that on the
 * thousandths grid of the database columns tolerance and rounding change nothing, so that the integer planner
 * of Planner.dfy computes the same quantities.
 */
module RealQuantities {
  import opened Planner

  const QUANTITY_EPSILON: real := 0.0001

  /** Three decimals, halves rounded up. */
  function Round3(v: real): real {
    (v * 1000.0 + 0.5).Floor as real / 1000.0
  }

  /** The quantity of the shipped line (0 when the material is skipped) and what is still needed. */
  datatype Taken = Taken(line: real, left: real)

  function TakeRounded(needed: real, free: real): Taken {
    if needed <= QUANTITY_EPSILON then Taken(0.0, needed)
    else
      var take := if needed < free then needed else free;
      if take <= QUANTITY_EPSILON then Taken(0.0, needed)
      else Taken(Round3(take), Round3(needed - take))
  }

  /** Everything shipped of one material, and what is left, after the warehouses with these stocks in turn. */
  function Served(request: real, stocks: seq<real>): Taken {
    if stocks == [] then Taken(0.0, request)
    else
      var before := Served(request, stocks[..|stocks|-1]);
      var t := TakeRounded(before.left, stocks[|stocks|-1]);
      Taken(before.line + t.line, t.left)
  }

  method TakeInTurn(request: real, stocks: seq<real>) returns (shipped: real, left: real)
    ensures Taken(shipped, left) == Served(request, stocks)
    ensures -0.001 < shipped + left - request <= 0.001 * |stocks| as real
  {
    shipped, left := 0.0, request;
    for i := 0 to |stocks|
      invariant Taken(shipped, left) == Served(request, stocks[..i])
    {
      assert stocks[..i+1][..i] == stocks[..i];
      var needed := left;
      if needed > QUANTITY_EPSILON {
        var free := stocks[i];
        var take := if needed < free then needed else free;
        if take > QUANTITY_EPSILON {
          shipped := shipped + Round3(take);
          left := Round3(needed - take);
        }
      }
    }
    assert stocks[..|stocks|] == stocks;
    DriftBound(request, stocks);
  }

  // ---------------------------------------------------------------- the grid

  /** k thousandths. */
  function Grid(k: int): real {
    k as real / 1000.0
  }

  ghost predicate OnGrid(v: real) {
    exists k :: v == Grid(k)
  }

  lemma Round3IsOnGrid(v: real)
    ensures OnGrid(Round3(v)) && v - 0.0005 < Round3(v) <= v + 0.0005
  {
    assert Round3(v) == Grid((v * 1000.0 + 0.5).Floor);
  }

  lemma Round3OfGrid(k: int)
    ensures Round3(Grid(k)) == Grid(k)
  {
    assert Grid(k) * 1000.0 + 0.5 == k as real + 0.5;
    assert (k as real + 0.5).Floor == k;
  }

  // ---------------------------------------------------------------- what one take can add or lose

  /** The quantity lies exactly half-way between two thousandths. */
  predicate HalfWay(v: real) {
    (v * 1000.0 + 0.5).Floor as real == v * 1000.0 + 0.5
  }

  /** Both roundings of a take go up together exactly when the take lies half-way. */
  lemma RoundedPair(needed: int, take: real)
    ensures Round3(take) + Round3(Grid(needed) - take) == Grid(needed) + if HalfWay(take) then 0.001 else 0.0
  {
    var t := take * 1000.0;
    var u, w := (t + 0.5).Floor, (needed as real - t + 0.5).Floor;
    assert (Grid(needed) - take) * 1000.0 + 0.5 == needed as real - t + 0.5;
    assert if u as real == t + 0.5 then u + w == needed + 1 else u + w == needed;
  }

  /** The quantity actually moved by a take, or 0 when the material is skipped. */
  function Moved(needed: real, free: real): real {
    if needed <= QUANTITY_EPSILON then 0.0
    else
      var take := if needed < free then needed else free;
      if take <= QUANTITY_EPSILON then 0.0 else take
  }

  /** From a need on the grid a take is exact unless it moves a half-way quantity, which ships 0.001 too much. */
  lemma TakeFromGrid(needed: int, free: real)
    ensures var t, m := TakeRounded(Grid(needed), free), Moved(Grid(needed), free);
      && OnGrid(t.left)
      && t.line + t.left == Grid(needed) + if m > 0.0 && HalfWay(m) then 0.001 else 0.0
  {
    var m := Moved(Grid(needed), free);
    if m > 0.0 {
      RoundedPair(needed, m);
      Round3IsOnGrid(Grid(needed) - m);
    }
  }

  lemma TakeFromAnywhere(needed: real, free: real)
    ensures var t := TakeRounded(needed, free);
      && -0.001 < t.line + t.left - needed <= 0.001
      && (t == Taken(0.0, needed) || OnGrid(t.left))
      && t.line <= (if free > 0.0 then free else 0.0) + 0.0005
  {
    var m := Moved(needed, free);
    if m > 0.0 {
      Round3IsOnGrid(m);
      Round3IsOnGrid(needed - m);
    }
  }

  // ---------------------------------------------------------------- any number of takes

  ghost predicate Untouched(request: real, stocks: seq<real>) {
    Served(request, stocks) == Taken(0.0, request)
  }

  lemma {:induction false} DriftStep(request: real, stocks: seq<real>)
    ensures var s := Served(request, stocks);
      && (Untouched(request, stocks) || OnGrid(s.left))
      && -0.001 < s.line + s.left - request <= 0.001 * |stocks| as real
  {
    if stocks != [] {
      var init, free := stocks[..|stocks|-1], stocks[|stocks|-1];
      DriftStep(request, init);
      var before := Served(request, init);
      TakeFromAnywhere(before.left, free);
      if !Untouched(request, init) {
        var k :| before.left == Grid(k);
        TakeFromGrid(k, free);
      }
    }
  }

  /**
   * However many warehouses a material is taken from, the shipped lines and the remainder never fall 0.001 short
   * of the request, and exceed it by at most 0.001 a warehouse.
   */
  lemma DriftBound(request: real, stocks: seq<real>)
    ensures var s := Served(request, stocks);
      -0.001 < s.line + s.left - request <= 0.001 * |stocks| as real
  {
    DriftStep(request, stocks);
  }

  // ---------------------------------------------------------------- the drift in terms of the stocks

  /** The thousandths a stock strikes off a need that exceeds it: the nearest, halves rounded down. */
  function StruckOff(stock: real): (k: int)
    ensures k >= 0
  {
    if stock <= QUANTITY_EPSILON then 0 else -(0.5 - stock * 1000.0).Floor
  }

  function StruckOffBy(stocks: seq<real>): (k: int)
    ensures k >= 0
  {
    if stocks == [] then 0 else StruckOffBy(stocks[..|stocks|-1]) + StruckOff(stocks[|stocks|-1])
  }

  /** Half-way between two thousandths, and less than what is needed: such a stock is rounded up twice. */
  predicate RoundedUpTwice(needed: int, stock: real) {
    QUANTITY_EPSILON < stock < Grid(needed) && HalfWay(stock)
  }

  /** How many of the stocks are rounded up twice when they are taken in turn. */
  function HalfWayStocks(request: int, stocks: seq<real>): nat {
    if stocks == [] then 0
    else
      var earlier, stock := stocks[..|stocks|-1], stocks[|stocks|-1];
      var n := HalfWayStocks(request, earlier);
      if RoundedUpTwice(request - StruckOffBy(earlier), stock) then n + 1 else n
  }

  /** The stock at position i, after what the earlier ones leave of the request. */
  predicate RoundedUpAt(request: int, stocks: seq<real>, i: int)
    requires 0 <= i < |stocks|
  {
    RoundedUpTwice(request - StruckOffBy(stocks[..i]), stocks[i])
  }

  lemma LeftByStock(needed: int, free: real)
    ensures TakeRounded(Grid(needed), free).left == Grid(Left(needed, StruckOff(free)))
  {
    ToleranceOnGrid(needed, 0);
    if needed > 0 && free > QUANTITY_EPSILON {
      if Grid(needed) < free {
        Round3OfGrid(0);
        StruckOffAtLeast(needed, free);
      } else {
        var t := free * 1000.0;
        assert (Grid(needed) - free) * 1000.0 + 0.5 == needed as real + (0.5 - t);
        assert (needed as real + (0.5 - t)).Floor == needed + (0.5 - t).Floor;
        assert t <= needed as real;
      }
    }
  }

  lemma StruckOffAtLeast(needed: int, free: real)
    requires free > QUANTITY_EPSILON && Grid(needed) <= free
    ensures StruckOff(free) >= needed
  {
    assert 0.5 - free * 1000.0 <= 0.5 - needed as real;
  }

  /** A take that is rounded up twice is one of a half-way stock below the need. */
  lemma HalfWayIsTheStock(needed: int, free: real)
    ensures var m := Moved(Grid(needed), free); m > 0.0 && HalfWay(m) <==> RoundedUpTwice(needed, free)
  {
    assert !HalfWay(Grid(needed)) by {
      assert Grid(needed) * 1000.0 + 0.5 == needed as real + 0.5;
      assert (needed as real + 0.5).Floor == needed;
    }
    ToleranceOnGrid(needed, 0);
  }

  lemma LeftTwice(request: int, total: int, more: int)
    requires total >= 0 && more >= 0
    ensures Left(Left(request, total), more) == Left(request, total + more)
  {}

  lemma RoundedUpTwiceOfLeft(request: int, total: int, stock: real)
    requires total >= 0
    ensures RoundedUpTwice(Left(request, total), stock) <==> RoundedUpTwice(request - total, stock)
  {
    ToleranceOnGrid(request - total, 0);
    ToleranceOnGrid(Left(request, total), 0);
  }

  /** What is left of a request on the grid is the request less what the stocks strike off. */
  lemma {:induction false} LeftIsStruckOff(request: int, stocks: seq<real>)
    ensures Served(Grid(request), stocks).left == Grid(Left(request, StruckOffBy(stocks)))
  {
    if stocks != [] {
      var earlier, stock := stocks[..|stocks|-1], stocks[|stocks|-1];
      LeftIsStruckOff(request, earlier);
      LeftByStock(Left(request, StruckOffBy(earlier)), stock);
      LeftTwice(request, StruckOffBy(earlier), StruckOff(stock));
    }
  }

  /**
   * For a request on the grid the excess is exactly 0.001 for each stock that is half-way, above the tolerance and
   * below what the earlier stocks leave of the request; so the fill is exact if and only if there is none.
   */
  lemma {:induction false} DriftIsHalfWayStocks(request: int, stocks: seq<real>)
    ensures var s := Served(Grid(request), stocks);
      && s.line + s.left == Grid(request) + 0.001 * HalfWayStocks(request, stocks) as real
      && (s.line + s.left == Grid(request) <==>
            forall i :: 0 <= i < |stocks| ==> !RoundedUpAt(request, stocks, i))
  {
    if stocks != [] {
      var earlier, stock := stocks[..|stocks|-1], stocks[|stocks|-1];
      var needed := Left(request, StruckOffBy(earlier));
      DriftIsHalfWayStocks(request, earlier);
      LeftIsStruckOff(request, earlier);
      TakeFromGrid(needed, stock);
      HalfWayIsTheStock(needed, stock);
      RoundedUpTwiceOfLeft(request, StruckOffBy(earlier), stock);
    }
    NoneHalfWay(request, stocks);
  }

  lemma {:induction false} NoneHalfWay(request: int, stocks: seq<real>)
    ensures HalfWayStocks(request, stocks) == 0 <==> forall i :: 0 <= i < |stocks| ==> !RoundedUpAt(request, stocks, i)
  {
    if stocks != [] {
      var earlier := stocks[..|stocks|-1];
      NoneHalfWay(request, earlier);
      forall i | 0 <= i < |earlier| ensures RoundedUpAt(request, stocks, i) == RoundedUpAt(request, earlier, i) {
        assert earlier[..i] == stocks[..i];
      }
      LastHalfWay(request, stocks);
    }
  }

  lemma LastHalfWay(request: int, stocks: seq<real>)
    requires stocks != []
    ensures var last := |stocks| - 1;
      HalfWayStocks(request, stocks)
        == HalfWayStocks(request, stocks[..last]) + if RoundedUpAt(request, stocks, last) then 1 else 0
  {}

  // ---------------------------------------------------------------- on the grid the integer planner is exact

  /** The tolerance tests are plain comparisons on the grid. */
  lemma ToleranceOnGrid(quantity: int, total: int)
    ensures Grid(quantity) <= QUANTITY_EPSILON <==> quantity <= 0
    ensures Grid(total) >= Grid(quantity) - QUANTITY_EPSILON <==> total >= quantity
  {
    if total < quantity { assert total + 1 <= quantity; }
    if quantity > 0 { assert quantity >= 1; }
  }

  /** One take on the grid is the integer take. */
  lemma TakeOnGrid(needed: int, free: int)
    ensures TakeRounded(Grid(needed), Grid(free)) == Taken(Grid(Take(needed, free)), Grid(needed - Take(needed, free)))
  {
    ToleranceOnGrid(needed, 0);
    ToleranceOnGrid(free, 0);
    var take := if needed < free then needed else free;
    assert Grid(needed) - Grid(take) == Grid(needed - take);
    Round3OfGrid(take);
    Round3OfGrid(needed - take);
  }

  function SumOf(stocks: seq<int>): int {
    if stocks == [] then 0 else SumOf(stocks[..|stocks|-1]) + stocks[|stocks|-1]
  }

  function Grids(stocks: seq<int>): (r: seq<real>)
    ensures |r| == |stocks| && forall i :: 0 <= i < |stocks| ==> r[i] == Grid(stocks[i])
  {
    seq(|stocks|, i requires 0 <= i < |stocks| => Grid(stocks[i]))
  }

  /** On the grid, with non-negative stocks, rounding loses nothing: the rounded fill is the planner's closed form. */
  lemma {:induction false} ServedOnGrid(request: int, stocks: seq<int>)
    requires forall i :: 0 <= i < |stocks| ==> stocks[i] >= 0
    ensures SumOf(stocks) >= 0
    ensures Served(Grid(request), Grids(stocks)).left == Grid(Left(request, SumOf(stocks)))
    ensures Served(Grid(request), Grids(stocks)).line == Grid(request - Left(request, SumOf(stocks)))
  {
    if stocks != [] {
      var init, free := stocks[..|stocks|-1], stocks[|stocks|-1];
      ServedOnGrid(request, init);
      assert Grids(stocks)[..|stocks|-1] == Grids(init);
      TakeOnGrid(Left(request, SumOf(init)), free);
      TakeIsShipped(request, SumOf(init), free);
    }
  }

  // ---------------------------------------------------------------- off the grid

  /** Two half-way takes of 0.0015 towards 0.003 ship 0.004 and still leave 0.001 to ship. */
  lemma HalfWayShipsTooMuch()
    ensures Served(Grid(3), [0.0015, 0.0015]).line == Grid(4)
    ensures Served(Grid(3), [0.0015, 0.0015]).left == Grid(1)
  {
    var one := Served(Grid(3), [0.0015]);
    assert [0.0015, 0.0015][..1] == [0.0015] && [0.0015][..0] == [];
    assert Served(Grid(3), []) == Taken(0.0, Grid(3));
    assert Round3(0.0015) == Grid(2);
    assert one == Taken(Grid(2), Grid(2));
    assert TakeRounded(Grid(2), 0.0015) == Taken(Grid(2), Grid(1));
  }
}
