/** The scale-free description of a book (book_shape in redaction.py). */
module BookShape {
  import opened RealMath
  import opened JsonValues

  datatype Shape = Shape(
    positionCount: nat,
    valuedCount: nat,
    longCount: nat,
    shortCount: nat,
    concentration: Figure,
    netToGross: Figure)

  /** A position's notional: the signed one, or else the plain one. */
  function Notional(position: Json, parse: Parser): Figure {
    if !position.Dict? then Missing
    else
      var signed := Num(Get(position.fields, "signed_notional_usd"), parse);
      if signed.Figure? then signed else Num(Get(position.fields, "notional_usd"), parse)
  }

  function Notionals(positions: seq<Json>, parse: Parser): seq<real> {
    if positions == [] then []
    else
      var figure := Notional(positions[|positions| - 1], parse);
      Notionals(positions[..|positions| - 1], parse) + if figure.Figure? then [figure.value] else []
  }

  function Gross(values: seq<real>): real {
    if values == [] then 0.0 else Gross(values[..|values| - 1]) + Abs(values[|values| - 1])
  }

  function Share(value: real, gross: real): real { if gross == 0.0 then 0.0 else Abs(value) / gross }

  function Square(x: real): real { x * x }

  /** The Herfindahl index over gross shares. */
  function Concentration(values: seq<real>, gross: real): real {
    if values == [] then 0.0
    else Concentration(values[..|values| - 1], gross) + Square(Share(values[|values| - 1], gross))
  }

  function Longs(values: seq<real>): nat {
    if values == [] then 0 else Longs(values[..|values| - 1]) + if values[|values| - 1] > 0.0 then 1 else 0
  }

  function Shorts(values: seq<real>): nat {
    if values == [] then 0 else Shorts(values[..|values| - 1]) + if values[|values| - 1] < 0.0 then 1 else 0
  }

  function Ratio(net: real, gross: real): real { if gross == 0.0 then 0.0 else net / gross }

  function ShapeOf(positionCount: nat, values: seq<real>): Shape {
    var gross := Gross(values);
    Shape(
      positionCount, |values|, Longs(values), Shorts(values),
      if gross > 0.0 then Figure(Concentration(values, gross)) else Missing,
      if gross == 0.0 then Missing else Figure(Ratio(Sum(values), gross)))
  }

  method SumSquares(signed: seq<real>, gross: real) returns (hhi: real)
    requires gross > 0.0
    ensures hhi == Concentration(signed, gross)
  {
    hhi := 0.0;
    for index := 0 to |signed|
      invariant hhi == Concentration(signed[..index], gross)
    {
      assert signed[..index + 1][..index] == signed[..index];
      var share := Abs(signed[index]) / gross;
      hhi := hhi + share * share;
    }
    assert signed[..|signed|] == signed;
  }

  /** book_shape. */
  method DescribeBook(positions: seq<Json>, parse: Parser) returns (shape: Shape)
    ensures shape == ShapeOf(|positions|, Notionals(positions, parse))
  {
    var signed: seq<real> := [];
    for index := 0 to |positions|
      invariant signed == Notionals(positions[..index], parse)
    {
      assert positions[..index + 1][..index] == positions[..index];
      if positions[index].Dict? {
        var figure := Num(Get(positions[index].fields, "signed_notional_usd"), parse);
        if figure == Missing {
          figure := Num(Get(positions[index].fields, "notional_usd"), parse);
        }
        if figure.Figure? {
          signed := signed + [figure.value];
        }
      }
    }
    assert positions[..|positions|] == positions;
    var gross, net, longs, shorts := 0.0, 0.0, 0, 0;
    for index := 0 to |signed|
      invariant gross == Gross(signed[..index]) && net == Sum(signed[..index])
      invariant longs == Longs(signed[..index]) && shorts == Shorts(signed[..index])
    {
      assert signed[..index + 1][..index] == signed[..index];
      gross, net := gross + Abs(signed[index]), net + signed[index];
      if signed[index] > 0.0 {
        longs := longs + 1;
      }
      if signed[index] < 0.0 {
        shorts := shorts + 1;
      }
    }
    assert signed[..|signed|] == signed;
    var concentration, netToGross := Missing, Missing;
    if gross > 0.0 {
      var hhi := SumSquares(signed, gross);
      concentration := Figure(hhi);
    }
    if gross != 0.0 {
      netToGross := Figure(net / gross);
    }
    shape := Shape(|positions|, |signed|, longs, shorts, concentration, netToGross);
  }

  // ------------------------------------------------------------------------ scale-free

  function Scaled(k: real, values: seq<real>): (scaled: seq<real>)
    ensures |scaled| == |values| && forall i :: 0 <= i < |values| ==> scaled[i] == Scale(k, values[i])
  {
    seq(|values|, i requires 0 <= i < |values| => Scale(k, values[i]))
  }

  lemma ScaledSplits(k: real, values: seq<real>)
    requires values != []
    ensures Scaled(k, values)[..|values| - 1] == Scaled(k, values[..|values| - 1])
  {
    hide Scale;
  }

  lemma ScaleFacts(k: real, x: real, y: real)
    requires k > 0.0
    ensures Abs(Scale(k, x)) == Scale(k, Abs(x))
    ensures Scale(k, x) > 0.0 <==> x > 0.0
    ensures Scale(k, x) < 0.0 <==> x < 0.0
    ensures Scale(k, x) + Scale(k, y) == Scale(k, x + y)
  {
  }

  lemma QuotientCancels(k: real, x: real, gross: real)
    requires k > 0.0 && gross > 0.0
    ensures Scale(k, x) / Scale(k, gross) == x / gross
  {
    var q := x / gross;
    assert q * gross == x;
    assert q * (k * gross) == k * x;
  }

  lemma {:induction false} SumsScale(k: real, values: seq<real>)
    requires k > 0.0
    ensures Gross(Scaled(k, values)) == Scale(k, Gross(values))
    ensures Sum(Scaled(k, values)) == Scale(k, Sum(values))
    ensures Longs(Scaled(k, values)) == Longs(values) && Shorts(Scaled(k, values)) == Shorts(values)
  {
    if values != [] {
      var init, last := values[..|values| - 1], values[|values| - 1];
      SumsScale(k, init);
      ScaledSplits(k, values);
      ScaleFacts(k, last, last);
      ScaleFacts(k, Gross(init), Abs(last));
      ScaleFacts(k, Sum(init), last);
      hide Scale, Abs;
    }
  }

  lemma {:induction false} ConcentrationScales(k: real, values: seq<real>, gross: real)
    requires k > 0.0 && gross > 0.0
    ensures Concentration(Scaled(k, values), Scale(k, gross)) == Concentration(values, gross)
  {
    if values != [] {
      var init, last := values[..|values| - 1], values[|values| - 1];
      ConcentrationScales(k, init, gross);
      ScaledSplits(k, values);
      ScaleFacts(k, gross, gross);
      ScaleFacts(k, last, last);
      QuotientCancels(k, Abs(last), gross);
      hide Scale, Abs, Square;
    }
  }

  lemma {:induction false} GrossFacts(values: seq<real>)
    ensures Gross(values) >= 0.0
    ensures -Gross(values) <= Sum(values) <= Gross(values)
    ensures Sum(values) == Gross(values) <==> Shorts(values) == 0
    ensures Sum(values) == -Gross(values) <==> Longs(values) == 0
    ensures Gross(values) == 0.0 <==> Longs(values) == 0 && Shorts(values) == 0
  {
    if values != [] {
      GrossFacts(values[..|values| - 1]);
    }
  }

  /** Multiplying every notional by any positive factor leaves the whole shape as it is. */
  lemma ShapeIsScaleFree(k: real, positionCount: nat, values: seq<real>)
    requires k > 0.0
    ensures ShapeOf(positionCount, Scaled(k, values)) == ShapeOf(positionCount, values)
  {
    var gross := Gross(values);
    SumsScale(k, values);
    GrossFacts(values);
    ScaleFacts(k, gross, gross);
    if gross > 0.0 {
      ConcentrationScales(k, values, gross);
      QuotientCancels(k, Sum(values), gross);
    }
    hide Scale, Abs, Concentration, Sum, Gross;
  }

  // ---------------------------------------------------------------------------- bounds

  /** The gross shares of a book with non-zero gross. */
  function Shares(values: seq<real>, gross: real): (shares: seq<real>)
    ensures |shares| == |values| && forall i :: 0 <= i < |values| ==> shares[i] == Share(values[i], gross)
  {
    seq(|values|, i requires 0 <= i < |values| => Share(values[i], gross))
  }

  function Squares(ws: seq<real>): real {
    if ws == [] then 0.0 else Squares(ws[..|ws| - 1]) + Square(ws[|ws| - 1])
  }

  /** Sum of squared distances from a value. */
  function Spread(ws: seq<real>, c: real): real {
    if ws == [] then 0.0 else Spread(ws[..|ws| - 1], c) + Square(ws[|ws| - 1] - c)
  }

  lemma ShareOfSum(a: real, b: real, gross: real)
    requires gross > 0.0
    ensures (a + b) / gross == a / gross + b / gross
  {
  }

  lemma {:induction false} SharesAddUp(values: seq<real>, gross: real)
    requires gross > 0.0
    ensures Sum(Shares(values, gross)) == Gross(values) / gross
    ensures Squares(Shares(values, gross)) == Concentration(values, gross)
  {
    hide Square, Abs;
    if values != [] {
      var init, last := values[..|values| - 1], values[|values| - 1];
      SharesAddUp(init, gross);
      assert Shares(values, gross)[..|values| - 1] == Shares(init, gross);
      ShareOfSum(Gross(init), Abs(last), gross);
    }
  }

  lemma SquareOfDifference(w: real, c: real)
    ensures Square(w - c) == Square(w) - 2.0 * Scale(c, w) + Square(c)
  {
  }

  lemma OneMore(n: nat, x: real)
    ensures Scale((n + 1) as real, x) == Scale(n as real, x) + x
  {
  }

  /** Spread around c is squares - 2c sum + n c^2. */
  lemma {:induction false} SpreadExpands(ws: seq<real>, c: real)
    ensures Spread(ws, c) == Squares(ws) - 2.0 * Scale(c, Sum(ws)) + Scale(|ws| as real, Square(c))
  {
    if ws != [] {
      var init, last := ws[..|ws| - 1], ws[|ws| - 1];
      SpreadExpands(init, c);
      SquareOfDifference(last, c);
      OneMore(|init|, Square(c));
      assert Scale(c, Sum(init)) + Scale(c, last) == Scale(c, Sum(ws));
      hide Scale, Square;
    }
  }

  lemma SignOfProduct(x: real, y: real)
    requires y >= 0.0
    ensures y > 0.0 ==> (x * y >= 0.0 <==> x >= 0.0) && (x * y == 0.0 <==> x == 0.0)
  {
    if x > 0.0 && y > 0.0 {
      assert x * y > 0.0;
    } else if x < 0.0 && y > 0.0 {
      assert (-x) * y > 0.0;
    }
  }

  lemma SquareIsNonNegative(x: real)
    ensures Square(x) >= 0.0
    ensures Square(x) == 0.0 <==> x == 0.0
  {
    if x > 0.0 {
      SignOfProduct(x, x);
    } else if x < 0.0 {
      SignOfProduct(-x, -x);
      assert (-x) * (-x) == x * x;
    }
  }

  lemma {:induction false} SpreadIsZeroIff(ws: seq<real>, c: real)
    ensures Spread(ws, c) >= 0.0
    ensures Spread(ws, c) == 0.0 <==> forall i :: 0 <= i < |ws| ==> ws[i] == c
  {
    if ws != [] {
      SpreadIsZeroIff(ws[..|ws| - 1], c);
      SquareIsNonNegative(ws[|ws| - 1] - c);
      hide Square;
    }
  }

  lemma ShareIsFraction(value: real, gross: real)
    requires gross > 0.0
    ensures Share(value, gross) >= 0.0
    ensures Share(value, gross) == 0.0 <==> value == 0.0
    ensures Share(value, gross) <= 1.0 <==> Abs(value) <= gross
  {
    var q := Share(value, gross);
    assert q * gross == Abs(value);
    assert (1.0 - q) * gross == gross - Abs(value);
    SignOfProduct(q, gross);
    SignOfProduct(1.0 - q, gross);
  }

  lemma SquareOfFraction(w: real)
    requires 0.0 <= w <= 1.0
    ensures Square(w) <= w
    ensures Square(w) == w <==> w == 0.0 || w == 1.0
  {
    SignOfProduct(1.0 - w, w);
    assert w - w * w == (1.0 - w) * w;
  }

  lemma {:induction false} SquaresWithinSum(ws: seq<real>)
    requires forall i :: 0 <= i < |ws| ==> 0.0 <= ws[i] <= 1.0
    ensures Squares(ws) <= Sum(ws)
    ensures Squares(ws) == Sum(ws) <==> forall i :: 0 <= i < |ws| ==> ws[i] == 0.0 || ws[i] == 1.0
  {
    if ws != [] {
      var init, last := ws[..|ws| - 1], ws[|ws| - 1];
      SquaresWithinSum(init);
      SquareOfFraction(last);
      hide Square;
    }
  }

  /** Positions with a non-zero notional. */
  function Held(values: seq<real>): nat { Longs(values) + Shorts(values) }

  lemma {:induction false} WholeSharesCount(values: seq<real>, gross: real)
    requires gross > 0.0
    requires forall i :: 0 <= i < |values| ==> Share(values[i], gross) == 0.0 || Share(values[i], gross) == 1.0
    ensures Sum(Shares(values, gross)) == Held(values) as real
  {
    if values != [] {
      var init, last := values[..|values| - 1], values[|values| - 1];
      assert Shares(values, gross)[..|values| - 1] == Shares(init, gross);
      WholeSharesCount(init, gross);
      ShareIsFraction(last, gross);
      hide Share;
    }
  }

  lemma {:induction false} LonePosition(values: seq<real>, gross: real)
    requires gross > 0.0 && Held(values) <= 1
    ensures Concentration(values, gross) == Square(Gross(values) / gross)
  {
    if values != [] {
      var init, last := values[..|values| - 1], values[|values| - 1];
      LonePosition(init, gross);
      GrossFacts(init);
    }
  }

  lemma {:induction false} EachWithinGross(values: seq<real>, i: nat)
    requires i < |values|
    ensures Abs(values[i]) <= Gross(values)
  {
    GrossFacts(values[..|values| - 1]);
    if i < |values| - 1 {
      EachWithinGross(values[..|values| - 1], i);
    }
  }

  lemma EvenShare(n: nat)
    requires n > 0
    ensures var c := 1.0 / n as real;
            - 2.0 * Scale(c, 1.0) + Scale(n as real, Square(c)) == -c
  {
    var c := 1.0 / n as real;
    assert n as real * c == 1.0;
    assert n as real * (c * c) == (n as real * c) * c;
  }

  lemma GrossOverItself(gross: real)
    requires gross > 0.0
    ensures gross / gross == 1.0
  {
  }

  /** For a non-zero book the Herfindahl index lies between 1/n and 1 for its n valued positions: it
      is 1 exactly when a single position is held, and 1/n exactly when all have the same size. */
  lemma ConcentrationBounds(values: seq<real>)
    requires Gross(values) > 0.0
    ensures |values| > 0
    ensures var hhi := Concentration(values, Gross(values));
            && 1.0 / |values| as real <= hhi <= 1.0
            && (hhi == 1.0 <==> Held(values) == 1)
            && (hhi == 1.0 / |values| as real <==>
                forall i :: 0 <= i < |values| ==> Share(values[i], Gross(values)) == 1.0 / |values| as real)
  {
    hide Square, Scale, Spread, Squares, Concentration, Share;
    var gross, n := Gross(values), |values|;
    var shares, c := Shares(values, gross), 1.0 / n as real;
    SharesAddUp(values, gross);
    GrossOverItself(gross);
    SpreadExpands(shares, c);
    EvenShare(n);
    SpreadIsZeroIff(shares, c);
    forall i | 0 <= i < n
      ensures 0.0 <= Share(values[i], gross) <= 1.0
    {
      EachWithinGross(values, i);
      ShareIsFraction(values[i], gross);
    }
    SquaresWithinSum(shares);
    if Concentration(values, gross) == 1.0 {
      forall i | 0 <= i < n
        ensures Share(values[i], gross) == 0.0 || Share(values[i], gross) == 1.0
      {
        assert shares[i] == 0.0 || shares[i] == 1.0;
      }
      WholeSharesCount(values, gross);
    }
    if Held(values) == 1 {
      LonePosition(values, gross);
      SquareOfFraction(1.0);
    }
  }

  lemma RatioFacts(net: real, gross: real)
    requires gross > 0.0 && -gross <= net <= gross
    ensures -1.0 <= Ratio(net, gross) <= 1.0
    ensures Ratio(net, gross) == 1.0 <==> net == gross
    ensures Ratio(net, gross) == -1.0 <==> net == -gross
  {
    var q := net / gross;
    assert q * gross == net;
    assert (1.0 - q) * gross == gross - net;
    assert (q + 1.0) * gross == net + gross;
    SignOfProduct(1.0 - q, gross);
    SignOfProduct(q + 1.0, gross);
  }

  /** The shape's figures: both are there exactly when something is held; net to gross lies between
      -1 and 1, reaching 1 exactly without shorts and -1 exactly without longs. */
  lemma ShapeIsBounded(positionCount: nat, values: seq<real>)
    ensures var shape := ShapeOf(positionCount, values);
            && (shape.concentration.Figure? <==> Held(values) > 0)
            && (shape.netToGross.Figure? <==> Held(values) > 0)
            && (Held(values) > 0 ==>
                  && 1.0 / |values| as real <= shape.concentration.value <= 1.0
                  && -1.0 <= shape.netToGross.value <= 1.0
                  && (shape.netToGross.value == 1.0 <==> shape.shortCount == 0)
                  && (shape.netToGross.value == -1.0 <==> shape.longCount == 0))
  {
    GrossFacts(values);
    hide Sum, Gross, Concentration, Longs, Shorts, Ratio;
    if Held(values) > 0 {
      ConcentrationBounds(values);
      RatioFacts(Sum(values), Gross(values));
    }
  }
}
