/** Sums and selections over quotation and order lines (the `lines.all()` aggregates). */
module Lines {
  import opened Basics
  import opened Model

  /** `parent.lines.all()`: the lines of one quotation or order, in table order. */
  function LinesOf(lines: seq<Line>, parent: nat): (r: seq<Line>)
    ensures |r| <= |lines|
    ensures forall l :: l in r <==> l in lines && l.parent == parent
  {
    if |lines| == 0 then []
    else
      var init := lines[..|lines| - 1];
      var last := lines[|lines| - 1];
      assert lines == init + [last];
      LinesOf(init, parent) + (if last.parent == parent then [last] else [])
  }

  /** `sum(line.get_total() for line in lines)`. */
  function LinesTotal(lines: seq<Line>): Money {
    if |lines| == 0 then 0.0
    else LinesTotal(lines[..|lines| - 1]) + LineTotal(lines[|lines| - 1])
  }

  /** `sum(line.quantity for line in lines)`. */
  function QuantityTotal(lines: seq<Line>): int {
    if |lines| == 0 then 0
    else QuantityTotal(lines[..|lines| - 1]) + lines[|lines| - 1].quantity
  }

  /** How many units of one product the lines account for. */
  function QuantityOfProduct(lines: seq<Line>, pid: ProductId): int {
    if |lines| == 0 then 0
    else
      QuantityOfProduct(lines[..|lines| - 1], pid)
      + (if lines[|lines| - 1].product == pid then lines[|lines| - 1].quantity else 0)
  }

  lemma {:induction false} LinesOfConcat(a: seq<Line>, b: seq<Line>, parent: nat)
    ensures LinesOf(a + b, parent) == LinesOf(a, parent) + LinesOf(b, parent)
    decreases |b|
  {
    if |b| == 0 {
      assert a + b == a;
    } else {
      var b' := b[..|b| - 1];
      assert (a + b)[..|a + b| - 1] == a + b';
      LinesOfConcat(a, b', parent);
    }
  }

  lemma {:induction false} LinesTotalConcat(a: seq<Line>, b: seq<Line>)
    ensures LinesTotal(a + b) == LinesTotal(a) + LinesTotal(b)
    decreases |b|
  {
    if |b| == 0 {
      assert a + b == a;
    } else {
      var b' := b[..|b| - 1];
      assert (a + b)[..|a + b| - 1] == a + b';
      LinesTotalConcat(a, b');
    }
  }

  lemma {:induction false} QuantityTotalConcat(a: seq<Line>, b: seq<Line>)
    ensures QuantityTotal(a + b) == QuantityTotal(a) + QuantityTotal(b)
    decreases |b|
  {
    if |b| == 0 {
      assert a + b == a;
    } else {
      var b' := b[..|b| - 1];
      assert (a + b)[..|a + b| - 1] == a + b';
      QuantityTotalConcat(a, b');
    }
  }

  lemma {:induction false} QuantityOfProductConcat(a: seq<Line>, b: seq<Line>, pid: ProductId)
    ensures QuantityOfProduct(a + b, pid) == QuantityOfProduct(a, pid) + QuantityOfProduct(b, pid)
    decreases |b|
  {
    if |b| == 0 {
      assert a + b == a;
    } else {
      var b' := b[..|b| - 1];
      assert (a + b)[..|a + b| - 1] == a + b';
      QuantityOfProductConcat(a, b', pid);
    }
  }

  /** A parent none of whose lines are in the table has no lines. */
  lemma LinesOfAbsent(lines: seq<Line>, parent: nat)
    requires forall l :: l in lines ==> l.parent != parent
    ensures LinesOf(lines, parent) == []
  {
    if LinesOf(lines, parent) != [] {
      assert LinesOf(lines, parent)[0] in LinesOf(lines, parent);
    }
  }

  /** Lines that all belong to the parent are selected whole. */
  lemma {:induction false} LinesOfAll(lines: seq<Line>, parent: nat)
    requires forall l :: l in lines ==> l.parent == parent
    ensures LinesOf(lines, parent) == lines
    decreases |lines|
  {
    if |lines| > 0 {
      var init := lines[..|lines| - 1];
      assert lines == init + [lines[|lines| - 1]];
      LinesOfAll(init, parent);
    }
  }

  /** Two line lists that hold the same products, quantities and prices, position by position. */
  predicate SameGoods(a: seq<Line>, b: seq<Line>) {
    |a| == |b|
    && forall k :: 0 <= k < |a| ==>
         a[k].product == b[k].product && a[k].quantity == b[k].quantity && a[k].unitPrice == b[k].unitPrice
  }

  /** Copies of the same goods add up to the same stock, count and money. */
  lemma {:induction false} SameGoodsSums(a: seq<Line>, b: seq<Line>, pid: ProductId)
    requires SameGoods(a, b)
    ensures QuantityOfProduct(a, pid) == QuantityOfProduct(b, pid)
    ensures QuantityTotal(a) == QuantityTotal(b)
    ensures LinesTotal(a) == LinesTotal(b)
    decreases |a|
  {
    if |a| > 0 {
      SameGoodsSums(a[..|a| - 1], b[..|b| - 1], pid);
    }
  }
}
