/** The worth of an adjustment, against the exact signed sum of its lines, and what is approved without asking. */
module AdjustmentLaws {
  import opened Basics
  import opened StockTypes
  import opened Documents
  import opened DocumentLives
  import StockEffects

  function LineWorth(line: AdjustmentLine): real {
    line.delta.amount * line.snapshotUnitCost as real
  }

  /** The exact worth, deltas counted with their sign. */
  function Worth(lines: seq<AdjustmentLine>): real {
    if lines == [] then 0.0 else LineWorth(lines[0]) + Worth(lines[1..])
  }

  lemma {:induction false} WorthSnoc(lines: seq<AdjustmentLine>, line: AdjustmentLine)
    ensures Worth(lines + [line]) == Worth(lines) + LineWorth(line)
  {
    if lines == [] {
      assert [line][1..] == [] && lines + [line] == [line];
    } else {
      assert (lines + [line])[1..] == lines[1..] + [line];
      WorthSnoc(lines[1..], line);
    }
  }

  /** The nearest whole number, halves rounded up. */
  lemma RoundIsNearest(x: real, n: int)
    ensures Round(x) == n <==> n as real - 0.5 <= x < n as real + 0.5
  {
  }

  lemma TotalSnoc(lines: seq<AdjustmentLine>)
    requires lines != []
    ensures var init, last := lines[..|lines| - 1], lines[|lines| - 1];
            && TotalCents(lines) == TotalCents(init) + Round(LineWorth(last))
            && Worth(lines) == Worth(init) + LineWorth(last)
  {
    var init, last := lines[..|lines| - 1], lines[|lines| - 1];
    assert lines == init + [last];
    WorthSnoc(init, last);
  }

  /** The total in cents is within half a cent per line of the exact worth. */
  lemma {:induction false} TotalNearWorth(lines: seq<AdjustmentLine>)
    ensures AbsReal(TotalCents(lines) as real - Worth(lines)) <= |lines| as real * 0.5
  {
    hide TotalCents, Worth, LineWorth;
    if lines == [] {
      NoLines();
    } else {
      TotalSnoc(lines);
      TotalNearWorth(lines[..|lines| - 1]);
      RoundIsNearest(LineWorth(lines[|lines| - 1]), Round(LineWorth(lines[|lines| - 1])));
    }
  }

  lemma NoLines()
    ensures TotalCents([]) == 0 && Worth([]) == 0.0
  {
  }

  predicate WholeDeltas(lines: seq<AdjustmentLine>) {
    forall line :: line in lines ==> StockEffects.Whole(line.delta.amount)
  }

  /** And equal to it when all deltas are whole. */
  lemma {:induction false} TotalIsWorth(lines: seq<AdjustmentLine>)
    requires WholeDeltas(lines)
    ensures TotalCents(lines) as real == Worth(lines)
  {
    hide TotalCents, Worth;
    if lines == [] {
      NoLines();
    } else {
      var last := lines[|lines| - 1];
      assert last in lines && forall line :: line in lines[..|lines| - 1] ==> line in lines;
      TotalSnoc(lines);
      TotalIsWorth(lines[..|lines| - 1]);
      StockEffects.WholeTerm(last.delta.amount, last.snapshotUnitCost, LineWorth(last));
    }
  }

  // ---------------------------------------------------------------- an adjustment and its reversal

  function Reversed(line: AdjustmentLine): AdjustmentLine {
    line.(delta := SignedQuantity(-line.delta.amount, line.delta.unit))
  }

  function Reversal(lines: seq<AdjustmentLine>): seq<AdjustmentLine> {
    seq(|lines|, i requires 0 <= i < |lines| => Reversed(lines[i]))
  }

  /** Lines worth some cents and exactly a half. */
  function Halves(lines: seq<AdjustmentLine>): nat {
    if lines == [] then 0
    else
      var last := LineWorth(lines[|lines| - 1]);
      Halves(lines[..|lines| - 1]) + if last - last.Floor as real == 0.5 then 1 else 0
  }

  lemma RoundReversed(x: real)
    ensures Round(x) + Round(-x) == if x - x.Floor as real == 0.5 then 1 else 0
  {
    var n := x.Floor;
    if x - n as real < 0.5 {
      RoundIsNearest(x, n);
      RoundIsNearest(-x, -n);
    } else {
      RoundIsNearest(x, n + 1);
      RoundIsNearest(-x, if x - n as real == 0.5 then -n else -n - 1);
    }
  }

  lemma NegatedProduct(a: real, b: real)
    ensures (-a) * b == -(a * b)
  {
  }

  lemma {:induction false} TotalAppend(xs: seq<AdjustmentLine>, ys: seq<AdjustmentLine>)
    ensures TotalCents(xs + ys) == TotalCents(xs) + TotalCents(ys)
    decreases |ys|
  {
    if ys == [] {
      assert xs + ys == xs;
    } else {
      var all := xs + ys;
      assert all[..|all| - 1] == xs + ys[..|ys| - 1];
      TotalAppend(xs, ys[..|ys| - 1]);
    }
  }

  lemma {:induction false} ReversalTotal(lines: seq<AdjustmentLine>)
    ensures TotalCents(lines) + TotalCents(Reversal(lines)) == Halves(lines)
  {
    hide TotalCents, Round, LineWorth, Worth, Halves;
    if lines == [] {
      NoLines();
      NoHalves();
    } else {
      var init, last := lines[..|lines| - 1], lines[|lines| - 1];
      var back := Reversal(lines);
      assert back[..|back| - 1] == Reversal(init) && back[|back| - 1] == Reversed(last);
      ReversalTotal(init);
      TotalSnoc(lines);
      TotalSnoc(back);
      HalvesSnoc(lines);
      ReversedWorth(last);
      RoundReversed(LineWorth(last));
    }
  }

  lemma NoHalves()
    ensures Halves([]) == 0
  {
  }

  lemma HalvesSnoc(lines: seq<AdjustmentLine>)
    requires lines != []
    ensures var last := LineWorth(lines[|lines| - 1]);
            Halves(lines) == Halves(lines[..|lines| - 1]) + if last - last.Floor as real == 0.5 then 1 else 0
  {
    hide LineWorth;
  }

  lemma ReversedWorth(line: AdjustmentLine)
    ensures LineWorth(Reversed(line)) == -LineWorth(line)
  {
    NegatedProduct(line.delta.amount, line.snapshotUnitCost as real);
  }

  // ---------------------------------------------------------------- approval

  /**
   An adjustment of whole deltas is approved on creation exactly when the exact worth of its lines is under the
   threshold, either way; and whatever is then done to it, its approval is the one of its creator.
   */
  lemma ApprovedOnWorth(id: string, branchId: string, reason: string, lines: seq<AdjustmentLine>,
                        createdBy: string, createdAt: int, threshold: nat, ops: seq<AdjustmentOp>)
    requires WholeDeltas(lines)
    ensures var made := NewAdjustment(id, branchId, reason, lines, createdBy, createdAt, threshold);
            var last := RunAdjustment(made, ops);
            && made.totalAmountCents as real == Worth(lines)
            && (made.status == AdjustmentIsApproved <==> -(threshold as real) < Worth(lines) < threshold as real)
            && (made.status == AdjustmentIsApproved ==>
                  && last == made && made.approvedBy == Some(createdBy) && made.approvedAt == Some(createdAt)
                  && |made.approvals| == 1 && made.approvals[0].approvedBy == createdBy
                  && made.approvals[0].approvedAt == createdAt)
  {
    TotalIsWorth(lines);
    hide TotalCents, Worth;
    var made := NewAdjustment(id, branchId, reason, lines, createdBy, createdAt, threshold);
    if made.status != AdjustmentPending {
      DecidedForGood(made, ops);
    }
  }

  /**
   An adjustment of some lines and of their reversals is worth nothing, but its total is the number of lines worth a
   half: it is approved on creation exactly when the threshold is above that number.
   */
  lemma ReversalApproved(id: string, branchId: string, reason: string, lines: seq<AdjustmentLine>,
                         createdBy: string, createdAt: int, threshold: nat)
    ensures var made := NewAdjustment(id, branchId, reason, lines + Reversal(lines), createdBy, createdAt, threshold);
            && made.totalAmountCents == Halves(lines)
            && (made.status == AdjustmentIsApproved <==> Halves(lines) < threshold)
            && (WholeDeltas(lines) ==> Halves(lines) == 0)
  {
    TotalAppend(lines, Reversal(lines));
    ReversalTotal(lines);
    if WholeDeltas(lines) {
      WholeHasNoHalves(lines);
    }
    hide TotalCents, Halves;
  }

  lemma {:induction false} WholeHasNoHalves(lines: seq<AdjustmentLine>)
    requires WholeDeltas(lines)
    ensures Halves(lines) == 0
  {
    if lines != [] {
      var last := lines[|lines| - 1];
      assert last in lines && forall line :: line in lines[..|lines| - 1] ==> line in lines;
      WholeHasNoHalves(lines[..|lines| - 1]);
      StockEffects.WholeTerm(last.delta.amount, last.snapshotUnitCost, LineWorth(last));
    }
  }

  /** Whoever decides, the state of the adjustment names the decision, and the approval carries the lines' deltas. */
  lemma DecisionStands(id: string, branchId: string, reason: string, lines: seq<AdjustmentLine>,
                       createdBy: string, createdAt: int, threshold: nat, ops: seq<AdjustmentOp>)
    ensures var last := RunAdjustment(NewAdjustment(id, branchId, reason, lines, createdBy, createdAt, threshold), ops);
            && (last.status == AdjustmentIsApproved <==> last.approvals != [])
            && (last.status == AdjustmentIsRejected ==> ops != [] && ops[0].RejectAdjustment?)
            && (last.status == AdjustmentPending ==> ops == [])
            && |last.approvals| <= 1
            && forall e :: e in last.approvals ==>
                 && last.approvedBy == Some(e.approvedBy) && last.approvedAt == Some(e.approvedAt)
                 && |e.lines| == |lines|
                 && forall i :: 0 <= i < |lines| ==>
                    e.lines[i].sku == lines[i].sku && e.lines[i].delta == lines[i].delta
  {
    hide TotalCents;
    var s := NewAdjustment(id, branchId, reason, lines, createdBy, createdAt, threshold);
    if s.status != AdjustmentPending {
      DecidedForGood(s, ops);
    } else if ops != [] {
      DecidedForGood(ActOnAdjustment(s, ops[0]), ops[1..]);
    }
  }
}
