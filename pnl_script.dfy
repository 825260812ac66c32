/** The label-based P&L of the early scripts (calculate_pnl in lib/script.py
    and in scripts/pnl.py, the same code): every interval is worth one price
    unit, scaled by an efficiency, whatever volume was traded. Also the
    daily operation of scripts/pnl.py, which hands that function a
    DataFrame. */
module ScriptPnL {
  import opened Wrappers
  import opened LegacyBattery
  import opened LegacyScheduler

  const ChargeLabel: string := "charge"

  /** The contribution of one label at one price. */
  function LabelPnl(action: string, price: real, chargeEfficiency: real, dischargeEfficiency: real): real {
    if action == ChargeLabel then -(price * chargeEfficiency) else price * dischargeEfficiency
  }

  function ScriptPnlUpTo(actions: seq<string>, prices: seq<real>, chargeEfficiency: real,
                         dischargeEfficiency: real, k: nat): real
    requires k <= |actions| && k <= |prices|
  {
    if k == 0 then 0.0
    else ScriptPnlUpTo(actions, prices, chargeEfficiency, dischargeEfficiency, k - 1)
         + LabelPnl(actions[k - 1], prices[k - 1], chargeEfficiency, dischargeEfficiency)
  }

  function MinLength(a: nat, b: nat): nat { if a <= b then a else b }

  /** calculate_pnl: pairs are taken as zip does, up to the shorter list. */
  function ScriptPnl(actions: seq<string>, prices: seq<real>, chargeEfficiency: real, dischargeEfficiency: real): (r: real)
    ensures |actions| == 0 || |prices| == 0 ==> r == 0.0
  {
    ScriptPnlUpTo(actions, prices, chargeEfficiency, dischargeEfficiency, MinLength(|actions|, |prices|))
  }

  /** The loop over zip(schedule, actual_prices). */
  method CalculatePnl(schedule: seq<string>, actualPrices: seq<real>, chargeEfficiency: real, dischargeEfficiency: real)
    returns (pnl: real)
    ensures pnl == ScriptPnl(schedule, actualPrices, chargeEfficiency, dischargeEfficiency)
  {
    pnl := 0.0;
    var i := 0;
    while i < |schedule| && i < |actualPrices|
      invariant i <= |schedule| && i <= |actualPrices|
      invariant pnl == ScriptPnlUpTo(schedule, actualPrices, chargeEfficiency, dischargeEfficiency, i)
    {
      var action, price := schedule[i], actualPrices[i];
      if action == ChargeLabel {
        pnl := pnl - price * chargeEfficiency;
      } else {
        pnl := pnl + price * dischargeEfficiency;
      }
      i := i + 1;
    }
  }

  /** How many of the first k labels are "charge". */
  function ChargeCount(actions: seq<string>, k: nat): (c: nat)
    requires k <= |actions|
    ensures c <= k
  {
    if k == 0 then 0 else ChargeCount(actions, k - 1) + (if actions[k - 1] == ChargeLabel then 1 else 0)
  }

  /** At a constant price, only the number of "charge" labels matters. */
  lemma {:induction false} ConstantPricePnl(actions: seq<string>, prices: seq<real>, price: real,
                                            chargeEfficiency: real, dischargeEfficiency: real, k: nat)
    requires k <= |actions| && k <= |prices|
    requires forall i :: 0 <= i < |prices| ==> prices[i] == price
    ensures ScriptPnlUpTo(actions, prices, chargeEfficiency, dischargeEfficiency, k)
            == price * (dischargeEfficiency * ((k - ChargeCount(actions, k)) as real)
                        - chargeEfficiency * (ChargeCount(actions, k) as real))
  {
    if k > 0 {
      ConstantPricePnl(actions, prices, price, chargeEfficiency, dischargeEfficiency, k - 1);
      assert prices[k - 1] == price;
    }
  }

  /** The first n labels "charge", the next n "discharge". */
  function HalfAndHalf(n: nat): (actions: seq<string>)
    ensures |actions| == 2 * n
  {
    seq(2 * n, i => if i < n then ChargeLabel else "discharge")
  }

  lemma {:induction false} HalfAndHalfChargeCount(n: nat, k: nat)
    requires k <= 2 * n
    ensures ChargeCount(HalfAndHalf(n), k) == if k <= n then k else n
  {
    if k > 0 {
      HalfAndHalfChargeCount(n, k - 1);
    }
  }

  /** Equal efficiencies, a constant price and as many charges as discharges
      break even (24 and 24 at price 20 in the unit test). */
  lemma HalfAndHalfBreaksEven(n: nat, prices: seq<real>, price: real, efficiency: real)
    requires |prices| == 2 * n && forall i :: 0 <= i < |prices| ==> prices[i] == price
    ensures ScriptPnl(HalfAndHalf(n), prices, efficiency, efficiency) == 0.0
  {
    var actions := HalfAndHalf(n);
    HalfAndHalfChargeCount(n, 2 * n);
    ConstantPricePnl(actions, prices, price, efficiency, efficiency, 2 * n);
    assert MinLength(|actions|, |prices|) == 2 * n;
    assert ((2 * n - ChargeCount(actions, 2 * n)) as real) == ChargeCount(actions, 2 * n) as real;
  }

  /** Labels past the end of the prices are never read. */
  lemma {:induction false} ExtraLabelsIgnored(actions: seq<string>, more: seq<string>, prices: seq<real>,
                                              chargeEfficiency: real, dischargeEfficiency: real, k: nat)
    requires k <= |actions| && k <= |prices|
    ensures ScriptPnlUpTo(actions + more, prices, chargeEfficiency, dischargeEfficiency, k)
            == ScriptPnlUpTo(actions, prices, chargeEfficiency, dischargeEfficiency, k)
  {
    if k > 0 {
      ExtraLabelsIgnored(actions, more, prices, chargeEfficiency, dischargeEfficiency, k - 1);
      assert (actions + more)[k - 1] == actions[k - 1];
    }
  }

  /** Relabelling one interval as "charge" lowers the P&L by the price times
      both efficiencies, independent of any volume. */
  lemma {:induction false} RelabelAsCharge(actions: seq<string>, prices: seq<real>, chargeEfficiency: real,
                                           dischargeEfficiency: real, i: nat, k: nat)
    requires i < k <= |actions| && k <= |prices| && actions[i] != ChargeLabel
    ensures ScriptPnlUpTo(actions[i := ChargeLabel], prices, chargeEfficiency, dischargeEfficiency, k)
            == ScriptPnlUpTo(actions, prices, chargeEfficiency, dischargeEfficiency, k)
               - prices[i] * (chargeEfficiency + dischargeEfficiency)
  {
    if k - 1 > i {
      RelabelAsCharge(actions, prices, chargeEfficiency, dischargeEfficiency, i, k - 1);
    } else {
      SamePrefixSamePnl(actions[i := ChargeLabel], actions, prices, chargeEfficiency, dischargeEfficiency, i);
    }
  }

  lemma {:induction false} SamePrefixSamePnl(a: seq<string>, b: seq<string>, prices: seq<real>,
                                             chargeEfficiency: real, dischargeEfficiency: real, k: nat)
    requires k <= |a| && k <= |b| && k <= |prices| && a[..k] == b[..k]
    ensures ScriptPnlUpTo(a, prices, chargeEfficiency, dischargeEfficiency, k)
            == ScriptPnlUpTo(b, prices, chargeEfficiency, dischargeEfficiency, k)
  {
    if k > 0 {
      assert a[..k - 1] == a[..k][..k - 1] && b[..k - 1] == b[..k][..k - 1];
      assert a[k - 1] == a[..k][k - 1] && b[k - 1] == b[..k][k - 1];
      SamePrefixSamePnl(a, b, prices, chargeEfficiency, dischargeEfficiency, k - 1);
    }
  }

  /** With non-negative prices and efficiencies, a schedule of "charge" labels
      never makes money. */
  lemma {:induction false} AllChargeNeverEarns(actions: seq<string>, prices: seq<real>, chargeEfficiency: real,
                                               dischargeEfficiency: real, k: nat)
    requires k <= |actions| && k <= |prices| && chargeEfficiency >= 0.0
    requires forall i :: 0 <= i < |actions| ==> actions[i] == ChargeLabel
    requires forall i :: 0 <= i < |prices| ==> prices[i] >= 0.0
    ensures ScriptPnlUpTo(actions, prices, chargeEfficiency, dischargeEfficiency, k) <= 0.0
  {
    if k > 0 {
      AllChargeNeverEarns(actions, prices, chargeEfficiency, dischargeEfficiency, k - 1);
      assert actions[k - 1] == ChargeLabel && prices[k - 1] >= 0.0;
      assert prices[k - 1] * chargeEfficiency >= 0.0;
    }
  }

  // ---------------------------------------------------------------------
  // scripts/pnl.py: run_daily_operation
  // ---------------------------------------------------------------------

  /** What zip sees when it iterates a DataFrame: its column labels. A frame
      built from no rows has no columns. */
  function ColumnLabels(rows: seq<ActionRow>): (labels: seq<string>)
    ensures |labels| == if rows == [] then 0 else 3
    ensures forall i :: 0 <= i < |labels| ==> labels[i] != ChargeLabel
  {
    if rows == [] then [] else ["Interval", "Action", "Value"]
  }

  function Actions(rows: seq<ActionRow>): (actions: seq<string>)
    ensures |actions| == |rows| && forall i :: 0 <= i < |rows| ==> actions[i] == rows[i].action
  {
    seq(|rows|, i requires 0 <= i < |rows| => rows[i].action)
  }

  /** run_daily_operation as written: a fresh 1 MWh battery with the default
      efficiencies (0.9) and soc (0.5) is scheduled, and calculate_pnl zips
      the schedule's column labels with the realised prices. */
  method RunDailyOperation(prices: seq<real>, actualPrices: seq<real>, solve: LegacySolver)
    returns (schedule: seq<ActionRow>, pnl: real)
    ensures schedule == CreateLegacySchedule(prices, LegacyParams(1.0, 1.0, 1.0, 1.0, 25.0),
                                             LegacyState(0.5, 1.0, 0.9, 0.9, 0.0, 0.0, 0.5), solve)
    ensures |schedule| == |prices|
    ensures pnl == ScriptPnl(ColumnLabels(schedule), actualPrices, 0.9, 0.9)
  {
    var battery := new LegacyBattery(1.0);
    schedule := CreateLegacySchedule(prices, battery.Params(), battery.State(), solve);
    pnl := CalculatePnl(ColumnLabels(schedule), actualPrices, battery.chargeEfficiency, battery.dischargeEfficiency);
  }

  /** The day's P&L is 0.9 times the first three realised prices (fewer if
      there are fewer prices), whatever the schedule: none of the labels it
      reads is "charge". */
  lemma ColumnLabelPnlIgnoresSchedule(rows: seq<ActionRow>, actualPrices: seq<real>)
    requires rows != [] && |actualPrices| >= 3
    ensures ScriptPnl(ColumnLabels(rows), actualPrices, 0.9, 0.9)
            == 0.9 * actualPrices[0] + 0.9 * actualPrices[1] + 0.9 * actualPrices[2]
  {
    var labels := ColumnLabels(rows);
    assert labels[0] != ChargeLabel && labels[1] != ChargeLabel && labels[2] != ChargeLabel;
    assert ScriptPnlUpTo(labels, actualPrices, 0.9, 0.9, 1) == 0.9 * actualPrices[0];
    assert ScriptPnlUpTo(labels, actualPrices, 0.9, 0.9, 2) == 0.9 * actualPrices[0] + 0.9 * actualPrices[1];
    assert MinLength(|labels|, |actualPrices|) == 3;
  }

  /** run_daily_operation valuing the Action column, which is what the
      labels in calculate_pnl refer to. */
  method RunDailyOperationByAction(prices: seq<real>, actualPrices: seq<real>, solve: LegacySolver)
    returns (schedule: seq<ActionRow>, pnl: real)
    ensures schedule == CreateLegacySchedule(prices, LegacyParams(1.0, 1.0, 1.0, 1.0, 25.0),
                                             LegacyState(0.5, 1.0, 0.9, 0.9, 0.0, 0.0, 0.5), solve)
    ensures |schedule| == |prices|
    ensures pnl == ScriptPnl(Actions(schedule), actualPrices, 0.9, 0.9)
  {
    var battery := new LegacyBattery(1.0);
    schedule := CreateLegacySchedule(prices, battery.Params(), battery.State(), solve);
    pnl := CalculatePnl(Actions(schedule), actualPrices, battery.chargeEfficiency, battery.dischargeEfficiency);
  }

  /** Valued by action, a day that only charges at positive prices loses
      money, where the column labels would report a gain. */
  lemma ActionPnlFollowsSchedule(rows: seq<ActionRow>, actualPrices: seq<real>)
    requires |rows| >= 3 && |actualPrices| >= 3
    requires forall i :: 0 <= i < |rows| ==> rows[i].action == ChargeLabel
    requires forall i :: 0 <= i < |actualPrices| ==> actualPrices[i] > 0.0
    ensures ScriptPnl(Actions(rows), actualPrices, 0.9, 0.9) < 0.0
    ensures ScriptPnl(ColumnLabels(rows), actualPrices, 0.9, 0.9) > 0.0
  {
    var actions := Actions(rows);
    var n := MinLength(|actions|, |actualPrices|);
    AllChargeNeverEarns(actions, actualPrices, 0.9, 0.9, n);
    assert ScriptPnlUpTo(actions, actualPrices, 0.9, 0.9, n)
           == ScriptPnlUpTo(actions, actualPrices, 0.9, 0.9, n - 1) - actualPrices[n - 1] * 0.9;
    AllChargeNeverEarns(actions, actualPrices, 0.9, 0.9, n - 1);
    ColumnLabelPnlIgnoresSchedule(rows, actualPrices);
  }
}
