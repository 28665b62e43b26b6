/** Transfers move stock between branches and neither create nor lose any of it. */
module TransferLaws {
  import opened BatchSelection
  import opened StockSpec
  import opened StockEffects
  import opened Documents
  import opened Inventory
  import opened Maps
  import Basics
  import Deliveries
  import Sagas
  import StockTypes

  // ---------------------------------------------------------------- sums over all branches

  /** The weight of a SKU's stock, zero for any other SKU. */
  function OfSku(sku: string, w: Weight): (StockKey, StockState) -> real {
    (k: StockKey, s: StockState) => if k.sku == sku then Weighed(s, w) else 0.0
  }

  /** All the stock of a SKU over all branches, weighed. */
  ghost function SystemWeight(sys: System, sku: string, w: Weight): real {
    SumOver(sys.rows, OfSku(sku, w))
  }

  lemma LoadedWeight(sys: System, k: StockKey, unit: StockTypes.Unit, sku: string, w: Weight)
    ensures OfSku(sku, w)(k, Load(sys, k, unit)) == At(sys.rows, k, OfSku(sku, w))
  {
  }

  // ---------------------------------------------------------------- one line

  /**
   What a line does to the weight of a SKU over all branches: between two branches nothing; from a
   branch to itself the second save would overwrite the first, and the quantity would be created.
   */
  lemma MoveLineWeight(sys: System, strategy: Strategy, e: TransferPosted, line: TransferLine, sku: string, w: Weight)
    requires SystemOk(sys) && MoveLine(sys, strategy, e, line).error.None?
    ensures var source := Load(sys, StockKey(line.sku, e.fromBranchId), line.quantity.unit);
            var created := if e.fromBranchId == e.toBranchId && line.sku == sku
                           then DetailWeight(Outgoing(source, line.quantity.amount, strategy, e.postedAt), w) else 0.0;
            SystemWeight(MoveLine(sys, strategy, e, line).sys, sku, w) == SystemWeight(sys, sku, w) + created
  {
    var unit := line.quantity.unit;
    var from, to := StockKey(line.sku, e.fromBranchId), StockKey(line.sku, e.toBranchId);
    var source, target := Load(sys, from, unit), Load(sys, to, unit);
    var details := Outgoing(source, line.quantity.amount, strategy, e.postedAt);
    var source' := Withdrawn(source, line.quantity.amount, strategy, e.postedAt);
    var target' := TransferredIn(target, sys.nextId, details, e.postedAt);
    var f := OfSku(sku, w);
    MoveLineCases(sys, strategy, e, line, source, target);
    LoadOk(sys, from, unit);
    LoadedWeight(sys, from, unit, sku, w);
    LoadedWeight(sys, to, unit, sku, w);
    WithdrawnWeight(source, line.quantity.amount, strategy, e.postedAt, w);
    hide MoveLine, Load, Withdrawn, Outgoing, TransferredIn, WithdrawError, AllInUnit, Weighed, StateOk, SumOver,
         SystemOk;
    assert AllInUnit(details, target.baseUnit) && WithdrawError(source, line.quantity).None?;
    TransferredInWeight(target, sys.nextId, details, e.postedAt, w);
    SumUpdate(sys.rows, from, source', f);
    SumUpdate(sys.rows[from := source'], to, target', f);
  }

  /**
   A handled line takes the lesser of its quantity and the unexpired stock out of the source branch,
   puts exactly that into the target branch, and touches no other stock.
   */
  lemma MoveLineMoves(sys: System, strategy: Strategy, e: TransferPosted, line: TransferLine)
    requires SystemOk(sys) && MoveLine(sys, strategy, e, line).error.None?
    requires e.fromBranchId != e.toBranchId && line.quantity.amount >= 0.0
    ensures var from, to := StockKey(line.sku, e.fromBranchId), StockKey(line.sku, e.toBranchId);
            var after := MoveLine(sys, strategy, e, line).sys;
            var moved :=
                Basics.MinReal(line.quantity.amount, Unexpired(Load(sys, from, line.quantity.unit), e.postedAt));
            && Deliveries.RowTotal(after, from) == Deliveries.RowTotal(sys, from) - moved
            && Deliveries.RowTotal(after, to) == Deliveries.RowTotal(sys, to) + moved
            && after.rows - {from, to} == sys.rows - {from, to}
  {
    var unit, amount := line.quantity.unit, line.quantity.amount;
    var from, to := StockKey(line.sku, e.fromBranchId), StockKey(line.sku, e.toBranchId);
    var source, target := Load(sys, from, unit), Load(sys, to, unit);
    var details := Outgoing(source, amount, strategy, e.postedAt);
    MoveLineCases(sys, strategy, e, line, source, target);
    LoadOk(sys, from, unit);
    LoadedTotal(sys, from, unit);
    LoadedTotal(sys, to, unit);
    hide MoveLine, Load, Withdrawn, Outgoing, TransferredIn, WithdrawError, AllInUnit, StateOk, Total, Unexpired,
         SystemOk;
    assert AllInUnit(details, target.baseUnit) && WithdrawError(source, line.quantity).None?;
    MovedTotals(source, target, amount, strategy, e.postedAt, sys.nextId);
  }

  lemma LoadedTotal(sys: System, k: StockKey, unit: StockTypes.Unit)
    ensures Total(Load(sys, k, unit)) == Deliveries.RowTotal(sys, k)
  {
    Deliveries.EmptyTotal(k, unit);
  }

  lemma MovedTotals(source: StockState, target: StockState, amount: real, strategy: Strategy, at: int, id: nat)
    requires StateOk(source) && amount >= 0.0 && AllInUnit(Outgoing(source, amount, strategy, at), target.baseUnit)
    ensures var moved := Basics.MinReal(amount, Unexpired(source, at));
            && Total(Withdrawn(source, amount, strategy, at)) == Total(source) - moved
            && Total(TransferredIn(target, id, Outgoing(source, amount, strategy, at), at)) == Total(target) + moved
  {
    hide Outgoing, Withdrawn, TransferredIn, Weighed, Unexpired, Total, StateOk, AllInUnit;
    var details := Outgoing(source, amount, strategy, at);
    WithdrawnTotal(source, amount, strategy, at);
    WithdrawnWeight(source, amount, strategy, at, One());
    TransferredInWeight(target, id, details, at, One());
    WeighedByOne(source);
    WeighedByOne(target);
    WeighedByOne(Withdrawn(source, amount, strategy, at));
    WeighedByOne(TransferredIn(target, id, details, at));
  }

  /** Stopped between the two saves of a line, the source is stored lowered and the target is not stored. */
  function HalfSaved(sys: System, strategy: Strategy, e: TransferPosted, line: TransferLine): System {
    var from := StockKey(line.sku, e.fromBranchId);
    var source := Load(sys, from, line.quantity.unit);
    System(sys.rows[from := Withdrawn(source, line.quantity.amount, strategy, e.postedAt)], sys.done,
           sys.nextId + |Outgoing(source, line.quantity.amount, strategy, e.postedAt)|)
  }

  /** Then what the line was to move is lost: every weight falls by it, the quantity by min(quantity, unexpired). */
  lemma HalfSavedLoses(sys: System, strategy: Strategy, e: TransferPosted, line: TransferLine, w: Weight)
    requires SystemOk(sys) && MoveLine(sys, strategy, e, line).error.None? && line.quantity.amount >= 0.0
    ensures var source := Load(sys, StockKey(line.sku, e.fromBranchId), line.quantity.unit);
            var half := HalfSaved(sys, strategy, e, line);
            && SystemWeight(half, line.sku, w)
               == SystemWeight(sys, line.sku, w)
                  - DetailWeight(Outgoing(source, line.quantity.amount, strategy, e.postedAt), w)
            && SystemWeight(half, line.sku, One())
               == SystemWeight(sys, line.sku, One())
                  - Basics.MinReal(line.quantity.amount, Unexpired(source, e.postedAt))
  {
    var unit, amount, from := line.quantity.unit, line.quantity.amount, StockKey(line.sku, e.fromBranchId);
    var source := Load(sys, from, unit);
    var source' := Withdrawn(source, amount, strategy, e.postedAt);
    LoadOk(sys, from, unit);
    hide MoveLine, Withdrawn, Outgoing, Weighed, StateOk, SumOver, SystemOk, Total, Unexpired;
    LoadedWeight(sys, from, unit, line.sku, w);
    LoadedWeight(sys, from, unit, line.sku, One());
    WithdrawnWeight(source, amount, strategy, e.postedAt, w);
    WithdrawnTotal(source, amount, strategy, e.postedAt);
    WeighedByOne(source);
    WeighedByOne(source');
    SumUpdate(sys.rows, from, source', OfSku(line.sku, w));
    SumUpdate(sys.rows, from, source', OfSku(line.sku, One()));
  }

  lemma MoveLineConserves(sys: System, strategy: Strategy, e: TransferPosted, line: TransferLine, sku: string,
                          w: Weight)
    requires SystemOk(sys) && e.fromBranchId != e.toBranchId
    ensures SystemWeight(MoveLine(sys, strategy, e, line).sys, sku, w) == SystemWeight(sys, sku, w)
  {
    if MoveLine(sys, strategy, e, line).error.None? {
      MoveLineWeight(sys, strategy, e, line, sku, w);
    } else {
      RefusedLine(sys, strategy, e, line);
    }
  }

  lemma RefusedLine(sys: System, strategy: Strategy, e: TransferPosted, line: TransferLine)
    ensures MoveLine(sys, strategy, e, line).error.Some? ==> MoveLine(sys, strategy, e, line).sys.rows == sys.rows
  {
    hide Withdrawn, Outgoing, TransferredIn, Load, WithdrawError, AllInUnit;
  }

  lemma {:induction false} MoveLinesConserve(
    sys: System, strategy: Strategy, e: TransferPosted, lines: seq<TransferLine>, sku: string, w: Weight)
    requires SystemOk(sys) && e.fromBranchId != e.toBranchId
    ensures SystemWeight(MoveLines(sys, strategy, e, lines).sys, sku, w) == SystemWeight(sys, sku, w)
    decreases |lines|
  {
    hide MoveLine, SystemOk, SystemWeight;
    if lines != [] {
      Sagas.MoveLineOk(sys, strategy, e, lines[0]);
      MoveLineConserves(sys, strategy, e, lines[0], sku, w);
      var h := MoveLine(sys, strategy, e, lines[0]);
      if h.error.None? {
        MoveLinesConserve(h.sys, strategy, e, lines[1..], sku, w);
      }
    }
  }

  // ---------------------------------------------------------------- runs of deliveries

  /** One delivery of a transfer, stopped after `stop` lines, before the mark when that is all of them. */
  datatype TransferDelivery = TransferDelivery(event: TransferPosted, stop: nat)

  function RunTransfers(sys: System, strategy: Strategy, ds: seq<TransferDelivery>): System
    decreases |ds|
  {
    if ds == [] then sys
    else RunTransfers(HandleTransfer(sys, strategy, ds[0].event, ds[0].stop).sys, strategy, ds[1..])
  }

  lemma HandleConserves(sys: System, strategy: Strategy, e: TransferPosted, stop: nat, sku: string, w: Weight)
    requires SystemOk(sys) && e.fromBranchId != e.toBranchId
    ensures SystemOk(HandleTransfer(sys, strategy, e, stop).sys)
    ensures SystemWeight(HandleTransfer(sys, strategy, e, stop).sys, sku, w) == SystemWeight(sys, sku, w)
  {
    hide MoveLines, RowOk;
    var lines := if stop <= |e.lines| then e.lines[..stop] else e.lines;
    MoveLinesConserve(sys, strategy, e, lines, sku, w);
    Sagas.MoveLinesOk(sys, strategy, e, lines);
  }

  /**
   Over any run of deliveries of transfers between different branches, repeated, stopped between
   lines, refused or allocated short, every weight of every SKU over all branches is unchanged.
   */
  lemma {:induction false} TransfersConserve(
    sys: System, strategy: Strategy, ds: seq<TransferDelivery>, sku: string, w: Weight)
    requires SystemOk(sys) && forall d :: d in ds ==> d.event.fromBranchId != d.event.toBranchId
    ensures SystemWeight(RunTransfers(sys, strategy, ds), sku, w) == SystemWeight(sys, sku, w)
    decreases |ds|
  {
    hide HandleTransfer, SystemOk, SystemWeight;
    if ds != [] {
      assert ds[0] in ds && forall d :: d in ds[1..] ==> d in ds;
      HandleConserves(sys, strategy, ds[0].event, ds[0].stop, sku, w);
      TransfersConserve(HandleTransfer(sys, strategy, ds[0].event, ds[0].stop).sys, strategy, ds[1..], sku, w);
    }
  }

  /** In particular the quantity, the quantity of each cost and expiry, and the exact value. */
  lemma TransfersConserveQuantityAndValue(
    sys: System, strategy: Strategy, ds: seq<TransferDelivery>, sku: string, cost: nat, expiry: Basics.Option<int>)
    requires SystemOk(sys) && forall d :: d in ds ==> d.event.fromBranchId != d.event.toBranchId
    ensures var after := RunTransfers(sys, strategy, ds);
            && SystemWeight(after, sku, One()) == SystemWeight(sys, sku, One())
            && SystemWeight(after, sku, OfClass(cost, expiry)) == SystemWeight(sys, sku, OfClass(cost, expiry))
            && SystemWeight(after, sku, ByCost()) == SystemWeight(sys, sku, ByCost())
  {
    hide SystemWeight, RunTransfers, SystemOk;
    TransfersConserve(sys, strategy, ds, sku, One());
    TransfersConserve(sys, strategy, ds, sku, OfClass(cost, expiry));
    TransfersConserve(sys, strategy, ds, sku, ByCost());
  }

  // ---------------------------------------------------------------- redelivery

  /** Once handled to the end a transfer is never handled again. */
  lemma HandledTransferIsFinal(sys: System, strategy: Strategy, e: TransferPosted, stop: nat, again: nat)
    requires HandleTransfer(sys, strategy, e, stop).error.None? && stop > |e.lines|
    ensures var done := HandleTransfer(sys, strategy, e, stop).sys;
            HandleTransfer(done, strategy, e, again) == Handled(done, Basics.None)
  {
    hide MoveLines;
  }
}
