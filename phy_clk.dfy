// The HDMI PHY's pixel clock (sunh5_hdmi_phy_clk.c): a divider of 1 to 16
// after a choice of one or two parent PLLs.
module PhyClk {
  import opened Regs
  import opened Wrappers
  import opened Errno
  import opened HdmiPhyRegs

  /** The number of dividers both searches try. */
  const MAX_DIV: nat := 16

  /** Unsigned division, as the C computes it. */
  function Quot(x: nat, m: nat): nat
    requires 1 <= m
  {
    x / m
  }

  function AbsDiff(a: int, b: int): nat
  {
    if a < b then b - a else a - b
  }

  // ---- determine_rate ----

  /** The search state: the parent rate chosen, its divider and its parent. */
  datatype Choice = Choice(bestRate: nat, bestDiv: nat, parent: Option<nat>)

  /** The rate a choice gives. */
  function Rate(c: Choice): nat
    requires c.bestDiv >= 1
  {
    Quot(c.bestRate, c.bestDiv)
  }

  /** A parent's answers to `clk_hw_round_rate` for rate·1 … rate·16. */
  type Roundings = seq<nat>

  /** A choice the search can hold: the initial one, or a parent that
      exists and one of its answers with the divider that asked for it. */
  predicate Valid(parents: seq<Option<Roundings>>, c: Choice)
  {
    && 1 <= c.bestDiv <= MAX_DIV
    && (c.parent.None? ==> c.bestRate == 0 && c.bestDiv == 1)
    && (c.parent.Some? ==>
          && c.parent.value < |parents| && parents[c.parent.value].Some?
          && |parents[c.parent.value].value| == MAX_DIV
          && c.bestRate == parents[c.parent.value].value[c.bestDiv - 1])
  }

  predicate WellShaped(parents: seq<Option<Roundings>>)
  {
    forall p :: 0 <= p < |parents| && parents[p].Some? ==> |parents[p].value| == MAX_DIV
  }

  /** The body of the divider loop once the exact test has failed: keep the
      new answer when nothing is held yet or it lands closer. */
  function Improve(rate: nat, c: Choice, p: nat, rounded: nat, i: nat): Choice
    requires i >= 1 && c.bestDiv >= 1
  {
    if c.bestRate == 0 || AbsDiff(rate, Quot(rounded, i)) < AbsDiff(rate, Rate(c)) then Choice(rounded, i, Some(p))
    else c
  }

  /** The divider loop for parent `p` from divider `i` on; an exact answer
      ends it. */
  function ScanDividers(rate: nat, parents: seq<Option<Roundings>>, p: nat, i: nat, c: Choice): (r: Choice)
    requires WellShaped(parents) && p < |parents| && parents[p].Some? && 1 <= i
    requires Valid(parents, c)
    ensures Valid(parents, r)
    decreases MAX_DIV + 1 - i
  {
    if i > MAX_DIV then c
    else
      var rounded := parents[p].value[i - 1];
      if rounded == rate * i then Choice(rounded, i, Some(p))
      else ScanDividers(rate, parents, p, i + 1, Improve(rate, c, p, rounded, i))
  }

  /** The parent loop from parent `p` on; a missing parent is skipped, and
      a parent that yields the rate exactly ends the search. */
  function ScanParents(rate: nat, parents: seq<Option<Roundings>>, p: nat, c: Choice): (r: Choice)
    requires WellShaped(parents) && p <= |parents| && Valid(parents, c)
    ensures Valid(parents, r)
    decreases |parents| - p
  {
    if p == |parents| then c
    else if parents[p].None? then ScanParents(rate, parents, p + 1, c)
    else
      var c1 := ScanDividers(rate, parents, p, 1, c);
      if Rate(c1) == rate then c1 else ScanParents(rate, parents, p + 1, c1)
  }

  /** `sunh5_phy_clk_determine_rate`'s answer: the rate, the parent rate
      and the parent. */
  function Determined(rate: nat, parents: seq<Option<Roundings>>): (r: Choice)
    requires WellShaped(parents)
    ensures Valid(parents, r)
  {
    ScanParents(rate, parents, 0, Choice(0, 1, None))
  }

  /** An exact answer `rate·i` from any parent ends the search with the
      requested rate. */
  lemma {:induction false} ExactDividerFound(rate: nat, parents: seq<Option<Roundings>>, p: nat, i: nat, c: Choice, j: nat)
    requires WellShaped(parents) && p < |parents| && parents[p].Some? && 1 <= i <= j <= MAX_DIV
    requires Valid(parents, c)
    requires parents[p].value[j - 1] == rate * j
    ensures Rate(ScanDividers(rate, parents, p, i, c)) == rate
    decreases MAX_DIV + 1 - i
  {
    var rounded := parents[p].value[i - 1];
    if rounded == rate * i {
      MulDiv(rate, i);
    } else {
      assert i != j;
      ExactDividerFound(rate, parents, p, i + 1, Improve(rate, c, p, rounded, i), j);
    }
  }

  lemma {:induction false} ExactParentFound(rate: nat, parents: seq<Option<Roundings>>, p: nat, c: Choice, q: nat, j: nat)
    requires WellShaped(parents) && p <= q < |parents| && parents[q].Some? && 1 <= j <= MAX_DIV
    requires Valid(parents, c)
    requires parents[q].value[j - 1] == rate * j
    ensures Rate(ScanParents(rate, parents, p, c)) == rate
    decreases |parents| - p
  {
    if parents[p].None? {
      ExactParentFound(rate, parents, p + 1, c, q, j);
    } else {
      var c1 := ScanDividers(rate, parents, p, 1, c);
      if Rate(c1) != rate {
        if p == q {
          ExactDividerFound(rate, parents, p, 1, c, j);
        }
        ExactParentFound(rate, parents, p + 1, c1, q, j);
      }
    }
  }

  lemma MulDiv(a: nat, i: nat)
    requires 1 <= i
    ensures a * i / i == a
  {
    var q, r := a * i / i, a * i % i;
    assert q * i + r == a * i;
    if q < a {
      var d := a - q;
      assert d * i == a * i - q * i;
      MulAtLeast(d, i);
    }
  }

  lemma MulAtLeast(d: int, i: int)
    requires 1 <= d && 0 <= i
    ensures d * i >= i
  {
    assert d * i == i + (d - 1) * i;
  }

  /** When some parent can produce rate·i exactly, the reported rate is
      the requested one. */
  lemma ExactRateFound(rate: nat, parents: seq<Option<Roundings>>, q: nat, j: nat)
    requires WellShaped(parents) && q < |parents| && parents[q].Some? && 1 <= j <= MAX_DIV
    requires parents[q].value[j - 1] == rate * j
    ensures Rate(Determined(rate, parents)) == rate
  {
    ExactParentFound(rate, parents, 0, Choice(0, 1, None), q, j);
  }

  /** With no usable parent the search reports rate 0 and no parent. */
  lemma {:induction false} NoParentNoRate(rate: nat, parents: seq<Option<Roundings>>, p: nat)
    requires WellShaped(parents) && p <= |parents|
    requires forall q :: 0 <= q < |parents| ==> parents[q].None?
    ensures ScanParents(rate, parents, p, Choice(0, 1, None)) == Choice(0, 1, None)
    decreases |parents| - p
  {
    if p < |parents| {
      NoParentNoRate(rate, parents, p + 1);
    }
  }

  /** `sunh5_phy_clk_determine_rate`: the two nested loops with their
      early exits. */
  method DetermineRate(rate: nat, parents: seq<Option<Roundings>>) returns (reqRate: nat, bestParentRate: nat, bestParent: Option<nat>)
    requires WellShaped(parents)
    ensures Determined(rate, parents) == Choice(bestParentRate, Determined(rate, parents).bestDiv, bestParent)
    ensures reqRate == Rate(Determined(rate, parents))
  {
    var c := Choice(0, 1, None);
    var p := 0;
    while p < |parents|
      invariant p <= |parents| && Valid(parents, c)
      invariant ScanParents(rate, parents, p, c) == Determined(rate, parents)
    {
      if parents[p].None? {
        p := p + 1;
        continue;
      }
      c := TryDividers(rate, parents, p, c);
      if Quot(c.bestRate, c.bestDiv) == rate {
        break;
      }
      p := p + 1;
    }
    reqRate, bestParentRate, bestParent := Quot(c.bestRate, c.bestDiv), c.bestRate, c.parent;
  }

  /** The inner loop of `determine_rate` over the dividers of parent `p`. */
  method TryDividers(rate: nat, parents: seq<Option<Roundings>>, p: nat, start: Choice) returns (c: Choice)
    requires WellShaped(parents) && p < |parents| && parents[p].Some? && Valid(parents, start)
    ensures c == ScanDividers(rate, parents, p, 1, start)
  {
    c := start;
    var i := 1;
    while i <= MAX_DIV
      invariant 1 <= i <= MAX_DIV + 1 && Valid(parents, c)
      invariant ScanDividers(rate, parents, p, i, c) == ScanDividers(rate, parents, p, 1, start)
      decreases MAX_DIV + 1 - i
    {
      var ideal := rate * i;
      var rounded := parents[p].value[i - 1];
      if rounded == ideal {
        c := Choice(rounded, i, Some(p));
        return;
      }
      c := Improve(rate, c, p, rounded, i);
      i := i + 1;
    }
  }

  // ---- recalc_rate / set_rate ----

  /** `sunh5_phy_clk_recalc_rate`: the parent rate over PREDIV + 1. */
  function RecalcRate(m: RegFile, parentRate: nat): (r: nat)
    ensures parentRate / MAX_DIV <= r <= parentRate
  {
    var div := ((Get(m, PLL_CFG2) & PREDIV_MSK) as int) + 1;
    assert 1 <= div <= MAX_DIV;
    parentRate / div
  }

  /** `SUNH5_HDMI_PHY_PLL_CFG2_PREDIV(m)`: m − 1 in C `int`, whose low four
      bits land in the field; m = 0 gives all ones. */
  function Prediv(m: nat): (r: bv32)
    requires m <= MAX_DIV
    ensures 1 <= m ==> r as int == m - 1
    ensures m == 0 ==> r & PREDIV_MSK == 0xf
  {
    if m == 0 then 0xffff_ffff else ((m - 1) as bv8) as bv32
  }

  /** Whether divider m gives a rate not above the target. */
  predicate Fits(parentRate: nat, rate: nat, m: nat)
    requires 1 <= m
  {
    Quot(parentRate, m) <= rate
  }

  /** The divider loop of `sunh5_phy_clk_set_rate` from divider m on, with
      the best rate and divider so far (0 while none fits). */
  function PickDivider(parentRate: nat, rate: nat, m: nat, bestRate: nat, bestM: nat): (r: nat)
    requires 1 <= m && bestM <= MAX_DIV
    ensures r <= MAX_DIV
    decreases MAX_DIV + 1 - m
  {
    if m > MAX_DIV then bestM
    else
      var tmp := Quot(parentRate, m);
      if tmp > rate then PickDivider(parentRate, rate, m + 1, bestRate, bestM)
      else if bestRate == 0 || rate - tmp < rate - bestRate then PickDivider(parentRate, rate, m + 1, tmp, m)
      else PickDivider(parentRate, rate, m + 1, bestRate, bestM)
  }

  /** The divider `set_rate` picks, 0 when none fits. */
  function BestDivider(parentRate: nat, rate: nat): (r: nat)
    ensures r <= MAX_DIV
  {
    PickDivider(parentRate, rate, 1, 0, 0)
  }

  /** The pick over dividers m.. with what is held so far: 0 only when
      nothing fits anywhere; otherwise a fitting divider whose rate is the
      closest from below. Because the comparison is strict, the first
      fitting divider wins a tie; a held rate of 0 counts as none held, so
      once the rates reach 0 every later divider replaces the pick. */
  lemma {:induction false} PickDividerProps(parentRate: nat, rate: nat, m: nat, bestRate: nat, bestM: nat)
    requires 1 <= m <= MAX_DIV + 1 && bestM < m
    requires bestM == 0 ==> bestRate == 0 && forall k :: 1 <= k < m ==> !Fits(parentRate, rate, k)
    requires bestM != 0 ==> bestRate == Quot(parentRate, bestM) && Fits(parentRate, rate, bestM)
    requires bestM != 0 ==> forall k :: 1 <= k < m && Fits(parentRate, rate, k) ==> Quot(parentRate, k) <= bestRate
    requires bestM != 0 && bestRate != 0 ==> forall k :: 1 <= k < bestM ==> !Fits(parentRate, rate, k)
    requires bestM != 0 && bestRate == 0 ==> bestM == m - 1
    ensures var r := PickDivider(parentRate, rate, m, bestRate, bestM);
      && r <= MAX_DIV
      && (r == 0 <==> bestM == 0 && forall k :: m <= k <= MAX_DIV ==> !Fits(parentRate, rate, k))
      && (r != 0 ==> Fits(parentRate, rate, r))
      && (r != 0 ==> forall k :: 1 <= k <= MAX_DIV && Fits(parentRate, rate, k) ==> Quot(parentRate, k) <= Quot(parentRate, r))
      && (r != 0 && Quot(parentRate, r) != 0 ==> forall k :: 1 <= k < r ==> !Fits(parentRate, rate, k))
      && (r != 0 && Quot(parentRate, r) == 0 && m <= MAX_DIV ==> r == MAX_DIV)
    decreases MAX_DIV + 1 - m
  {
    if m <= MAX_DIV {
      var tmp := Quot(parentRate, m);
      if bestM != 0 {
        QuotAntitone(parentRate, bestM, m);
      }
      if tmp > rate {
        PickDividerProps(parentRate, rate, m + 1, bestRate, bestM);
      } else if bestRate == 0 || rate - tmp < rate - bestRate {
        PickDividerProps(parentRate, rate, m + 1, tmp, m);
      } else {
        PickDividerProps(parentRate, rate, m + 1, bestRate, bestM);
      }
    }
  }

  /** Dividing by more never gives more. */
  lemma QuotAntitone(x: nat, a: nat, b: nat)
    requires 1 <= a <= b
    ensures Quot(x, b) <= Quot(x, a)
  {
    var q := x / b;
    assert q * b <= x by {
      assert x == q * b + x % b;
    }
    MulMono(q, a, b);
    BelowQuotient(x, a, q);
  }

  lemma MulMono(q: nat, a: nat, b: nat)
    requires a <= b
    ensures q * a <= q * b
  {
    var d: nat := b - a;
    assert q * b == q * a + q * d;
  }

  /** A multiple of a that fits in x is at most x / a of them. */
  lemma BelowQuotient(x: nat, a: nat, q: nat)
    requires 1 <= a && q * a <= x
    ensures q <= x / a
  {
    var p := x / a;
    assert x == p * a + x % a;
    assert (q - p) * a == q * a - p * a;
    MulAtLeastWhen(q - p, a);
  }

  lemma MulAtLeastWhen(d: int, i: nat)
    ensures 1 <= d ==> d * i >= i
  {
    if 1 <= d {
      MulAtLeast(d, i);
    }
  }

  /** `set_rate` picks 0 only when no divider fits; otherwise a divider
      that fits and comes closest to the target from below: the first
      such divider, unless the closest rate is 0, when it is the last. */
  lemma BestDividerCloses(parentRate: nat, rate: nat)
    ensures BestDivider(parentRate, rate) <= MAX_DIV
    ensures BestDivider(parentRate, rate) == 0 <==> forall k :: 1 <= k <= MAX_DIV ==> !Fits(parentRate, rate, k)
    ensures BestDivider(parentRate, rate) != 0 ==> Fits(parentRate, rate, BestDivider(parentRate, rate))
    ensures BestDivider(parentRate, rate) != 0 ==>
      forall k :: 1 <= k <= MAX_DIV && Fits(parentRate, rate, k) ==> Quot(parentRate, k) <= Quot(parentRate, BestDivider(parentRate, rate))
    ensures var d := BestDivider(parentRate, rate);
      d != 0 && Quot(parentRate, d) != 0 ==> forall k :: 1 <= k < d ==> !Fits(parentRate, rate, k)
    ensures var d := BestDivider(parentRate, rate);
      d != 0 && Quot(parentRate, d) == 0 ==> d == MAX_DIV
  {
    PickDividerProps(parentRate, rate, 1, 0, 0);
  }

  /** With a parent of 5 Hz and a target of 0, the dividers from 6 on all
      give 0: the loop keeps replacing its pick and ends on 16, not 6. */
  lemma ZeroRateTakesLastDivider()
    ensures BestDivider(5, 0) == MAX_DIV
  {
    BestDividerCloses(5, 0);
    assert Fits(5, 0, 6);
  }

  /** When nothing fits, the pre-divider field is written all ones and the
      clock then divides by 16. */
  lemma NoFitDividesBy16(m: RegFile, parentRate: nat, rate: nat)
    requires forall k :: 1 <= k <= MAX_DIV ==> !Fits(parentRate, rate, k)
    ensures RecalcRate(BitsUpdated(m, PLL_CFG2, PREDIV_MSK, Prediv(BestDivider(parentRate, rate))), parentRate)
            == parentRate / MAX_DIV
  {
    BestDividerCloses(parentRate, rate);
  }

  /** After `set_rate` picks divider d ≥ 1, `recalc_rate` reads back
      parent / d. */
  lemma SetRateReadsBack(m: RegFile, parentRate: nat, d: nat)
    requires 1 <= d <= MAX_DIV
    ensures RecalcRate(BitsUpdated(m, PLL_CFG2, PREDIV_MSK, Prediv(d)), parentRate) == parentRate / d
  {
    var w := Get(BitsUpdated(m, PLL_CFG2, PREDIV_MSK, Prediv(d)), PLL_CFG2);
    assert w & PREDIV_MSK == Prediv(d) & PREDIV_MSK;
    PredivField(d);
  }

  lemma PredivField(d: nat)
    requires 1 <= d <= MAX_DIV
    ensures ((Prediv(d) & PREDIV_MSK) as int) + 1 == d
  {
    var x := (d - 1) as bv32;
    assert x < 16;
    assert x & 0xf == x;
  }

  /** `sunh5_phy_clk_set_rate`. */
  method SetRate(rm: RegMap, rate: nat, parentRate: nat) returns (r: int)
    modifies rm
    ensures r == 0
    ensures rm.regs == BitsUpdated(old(rm.regs), PLL_CFG2, PREDIV_MSK, Prediv(BestDivider(parentRate, rate)))
  {
    var bestRate: nat := 0;
    var bestM: nat := 0;
    var m := 1;
    while m <= MAX_DIV
      invariant 1 <= m <= MAX_DIV + 1 && bestM < m && bestM <= MAX_DIV
      invariant PickDivider(parentRate, rate, m, bestRate, bestM) == BestDivider(parentRate, rate)
    {
      var tmp := Quot(parentRate, m);
      if tmp <= rate && (bestRate == 0 || rate - tmp < rate - bestRate) {
        bestRate := tmp;
        bestM := m;
      }
      m := m + 1;
    }
    rm.UpdateBits(PLL_CFG2, PREDIV_MSK, Prediv(bestM));
    r := 0;
  }

  // ---- get_parent / set_parent ----

  /** `sunh5_phy_clk_get_parent` as written: the clock input select is read
      and discarded, and parent 0 is reported. */
  function GetParentAsWritten(m: RegFile): (r: nat)
    ensures r == 0
  {
    var sel := (Get(m, PLL_CFG1) & CKIN_SEL_MSK) >> CKIN_SEL_SHIFT;
    0
  }

  /** The parent the clock input select holds, as `get_parent` evidently
      means to report it. */
  function GetParent(m: RegFile): (r: nat)
    ensures r <= 1
    ensures r == 1 <==> Get(m, PLL_CFG1) & CKIN_SEL_MSK != 0
  {
    var sel := (Get(m, PLL_CFG1) & CKIN_SEL_MSK) >> CKIN_SEL_SHIFT;
    SelBit(Get(m, PLL_CFG1));
    sel as int
  }

  lemma SelBit(w: bv32)
    ensures (w & CKIN_SEL_MSK) >> CKIN_SEL_SHIFT <= 1
    ensures (w & CKIN_SEL_MSK) >> CKIN_SEL_SHIFT == 1 <==> w & CKIN_SEL_MSK != 0
  {
  }

  /** What `sunh5_phy_clk_set_parent` does to the registers. */
  function ParentSet(m: RegFile, index: bv8): (r: Result<RegFile>)
  {
    if index > 1 then Err(-EINVAL)
    else Ok(BitsUpdated(m, PLL_CFG1, CKIN_SEL_MSK, (index as bv32) << CKIN_SEL_SHIFT))
  }

  /** set_parent rejects indices above 1; otherwise the corrected get_parent
      reads the index back and nothing but bit 26 changes. */
  lemma SetParentRoundTrip(m: RegFile, index: bv8)
    ensures index > 1 <==> ParentSet(m, index) == Err(-EINVAL)
    ensures index <= 1 ==> GetParent(ParentSet(m, index).value) == index as int
    ensures index <= 1 ==> Get(ParentSet(m, index).value, PLL_CFG1) & !CKIN_SEL_MSK == Get(m, PLL_CFG1) & !CKIN_SEL_MSK
  {
    if index <= 1 {
      var w := Get(ParentSet(m, index).value, PLL_CFG1);
      assert w & CKIN_SEL_MSK == ((index as bv32) << CKIN_SEL_SHIFT) & CKIN_SEL_MSK;
      SelValue(index);
    }
  }

  lemma SelValue(index: bv8)
    requires index <= 1
    ensures (((index as bv32) << CKIN_SEL_SHIFT) & CKIN_SEL_MSK != 0) <==> index == 1
  {
  }

  /** As written, get_parent reports parent 0 after set_parent has selected
      parent 1. */
  lemma AsWrittenLosesParent(m: RegFile)
    ensures GetParent(ParentSet(m, 1).value) == 1
    ensures GetParentAsWritten(ParentSet(m, 1).value) == 0
  {
    SetParentRoundTrip(m, 1);
  }

  /** `sunh5_phy_clk_set_parent`. */
  method SetParent(rm: RegMap, index: bv8) returns (r: int)
    modifies rm
    ensures ParentSet(old(rm.regs), index).Err? ==> r == ParentSet(old(rm.regs), index).code && rm.regs == old(rm.regs)
    ensures ParentSet(old(rm.regs), index).Ok? ==> r == 0 && rm.regs == ParentSet(old(rm.regs), index).value
  {
    if index > 1 {
      return -EINVAL;
    }
    rm.UpdateBits(PLL_CFG1, CKIN_SEL_MSK, (index as bv32) << CKIN_SEL_SHIFT);
    r := 0;
  }

  // ---- create ----

  /** `sunh5_phy_clk_create`: the number of parents registered, or the
      error. `registerRet` is what clock registration returns. */
  function Create(pll0Named: bool, allocOk: bool, registerRet: int, secondParent: bool): (r: Result<nat>)
    ensures !pll0Named ==> r == Err(-ENODEV)
    ensures pll0Named && !allocOk ==> r == Err(-ENOMEM)
    ensures pll0Named && allocOk && registerRet < 0 ==> r == Err(registerRet)
    ensures r.Ok? <==> pll0Named && allocOk && registerRet >= 0
    ensures r.Ok? ==> (r.value == 2 <==> secondParent) && 1 <= r.value <= 2
  {
    if !pll0Named then Err(-ENODEV)
    else if !allocOk then Err(-ENOMEM)
    else if registerRet < 0 then Err(registerRet)
    else Ok(if secondParent then 2 else 1)
  }
}
