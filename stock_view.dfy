/** The stock screen, without its widgets: the detailed table of units, the
    per-group summary of units in stock, and how the two renderers shade
    rows and counts. */
module StockView {
  import opened JavaTypes
  import opened BloodUnits

  /** The eight groups the summary lists, in its row order. */
  const ALL_GROUPS: seq<string> := ["A+", "A-", "B+", "B-", "AB+", "AB-", "O+", "O-"]

  /** One row of the detailed table, in column order. */
  datatype DetailRow = DetailRow(
    unitId: Int32,
    bloodGroup: string,
    donorId: Int32,
    donationDate: int,
    expiryDate: int,
    status: BloodStatus)

  /** One row of the summary table. */
  datatype SummaryRow = SummaryRow(group: string, inStock: int)

  /** The detailed table's columns: id, group, donor, donation date, expiry
      date and status of the unit. */
  function RowOf(u: BloodUnit): (r: DetailRow)
    reads u
    ensures r.unitId == u.unitId && r.bloodGroup == u.bloodGroup && r.donorId == u.donorId
    ensures r.donationDate == u.donationDate && r.expiryDate == u.expiryDate
    ensures r.status == u.status
  {
    DetailRow(u.unitId, u.bloodGroup, u.donorId, u.donationDate, u.expiryDate, u.status)
  }

  /** The detailed table for a list of units: one row per unit, in order. */
  function RowsOf(units: seq<BloodUnit>): (rows: seq<DetailRow>)
    reads units
    ensures |rows| == |units|
    ensures forall i :: 0 <= i < |units| ==> rows[i] == RowOf(units[i])
  {
    if units == [] then []
    else
      RowsOf(units[..|units| - 1]) + [RowOf(units[|units| - 1])]
  }

  // ---------------------------------------------------------------------
  // Counting units in stock per canonical group
  // ---------------------------------------------------------------------

  /** The summary map before any unit is seen: every group at 0. */
  function InitialCounts(): (m: map<string, int>)
    ensures m.Keys == set g | g in ALL_GROUPS
    ensures forall g :: g in m ==> m[g] == 0
  {
    map g | g in ALL_GROUPS :: 0
  }

  /** One unit's effect on the summary map: its group goes up by one if the
      unit is in stock and the group is, as written, one of the keys. */
  function CountUnit(m: map<string, int>, row: DetailRow): (r: map<string, int>)
    ensures r.Keys == m.Keys
    ensures forall g :: g in m && g != row.bloodGroup ==> r[g] == m[g]
    ensures row.bloodGroup in m ==>
      r[row.bloodGroup] == m[row.bloodGroup] + (if row.status == InStock then 1 else 0)
  {
    if row.status == InStock && row.bloodGroup in m
    then m[row.bloodGroup := m[row.bloodGroup] + 1]
    else m
  }

  /** The summary map after the given rows, in order. */
  function StockCounts(rows: seq<DetailRow>): (m: map<string, int>)
    ensures m.Keys == set g | g in ALL_GROUPS
    ensures forall g :: g in m ==> 0 <= m[g] <= |rows|
  {
    if rows == [] then InitialCounts()
    else CountUnit(StockCounts(rows[..|rows| - 1]), rows[|rows| - 1])
  }

  /** The number of rows in stock whose group is exactly `g`. */
  function InStockCount(rows: seq<DetailRow>, g: string): (n: nat)
    ensures n <= |rows|
  {
    if rows == [] then 0
    else
      var r := rows[|rows| - 1];
      InStockCount(rows[..|rows| - 1], g) + (if r.status == InStock && r.bloodGroup == g then 1 else 0)
  }

  /** The number of rows in stock whose group is one of the eight. */
  function CanonicalInStock(rows: seq<DetailRow>): (n: nat)
    ensures n <= |rows|
  {
    if rows == [] then 0
    else
      var r := rows[|rows| - 1];
      CanonicalInStock(rows[..|rows| - 1]) + (if r.status == InStock && r.bloodGroup in ALL_GROUPS then 1 else 0)
  }

  /** The sum of the counts of the listed groups. */
  function SumOver(groups: seq<string>, m: map<string, int>): int {
    if groups == [] then 0
    else SumOver(groups[..|groups| - 1], m) + GetOrDefault(m, groups[|groups| - 1], 0)
  }

  /** The summary map always has exactly the eight groups as keys, and the
      count of each is the number of units in stock with exactly that group:
      a unit whose group differs in case or spacing is not counted. */
  lemma {:induction false} StockCountsExact(rows: seq<DetailRow>, g: string)
    ensures StockCounts(rows).Keys == set h | h in ALL_GROUPS
    ensures g in ALL_GROUPS ==> StockCounts(rows)[g] == InStockCount(rows, g)
  {
    if rows != [] {
      StockCountsExact(rows[..|rows| - 1], g);
    }
  }

  lemma AllGroupsDistinct()
    ensures forall i, j :: 0 <= i < j < |ALL_GROUPS| ==> ALL_GROUPS[i] != ALL_GROUPS[j]
  {
  }

  lemma {:induction false} SumOverZero(groups: seq<string>, m: map<string, int>)
    requires forall i :: 0 <= i < |groups| ==> GetOrDefault(m, groups[i], 0) == 0
    ensures SumOver(groups, m) == 0
  {
    if groups != [] {
      SumOverZero(groups[..|groups| - 1], m);
    }
  }

  /** Adding one to a group listed once raises the sum by one; adding to a
      group not listed leaves it. */
  lemma {:induction false} SumOverIncrement(groups: seq<string>, m: map<string, int>, g: string)
    requires g in m
    requires forall i, j :: 0 <= i < j < |groups| ==> groups[i] != groups[j]
    ensures SumOver(groups, m[g := m[g] + 1]) == SumOver(groups, m) + (if g in groups then 1 else 0)
  {
    if groups != [] {
      var init := groups[..|groups| - 1];
      SumOverIncrement(init, m, g);
      assert groups == init + [groups[|groups| - 1]];
      assert groups[|groups| - 1] == g ==> g !in init;
    }
  }

  lemma StockCountsStep(rows: seq<DetailRow>, i: nat)
    requires i < |rows|
    ensures StockCounts(rows[..i + 1]) == CountUnit(StockCounts(rows[..i]), rows[i])
  {
    assert rows[..i + 1][..i] == rows[..i];
  }

  /** Counting one more unit raises the summary total by one exactly when
      the unit is in stock under one of the eight groups. */
  lemma SumOverCountUnit(m: map<string, int>, r: DetailRow)
    requires m.Keys == set g | g in ALL_GROUPS
    ensures SumOver(ALL_GROUPS, CountUnit(m, r))
      == SumOver(ALL_GROUPS, m) + (if r.status == InStock && r.bloodGroup in ALL_GROUPS then 1 else 0)
  {
    if r.status == InStock && r.bloodGroup in m {
      AllGroupsDistinct();
      SumOverIncrement(ALL_GROUPS, m, r.bloodGroup);
    }
  }

  /** The summary counts add up to the number of units in stock with a
      canonical group, so never more than the number of units. */
  lemma {:induction false} StockCountsTotal(rows: seq<DetailRow>)
    ensures SumOver(ALL_GROUPS, StockCounts(rows)) == CanonicalInStock(rows) <= |rows|
  {
    if rows == [] {
      SumOverZero(ALL_GROUPS, InitialCounts());
    } else {
      var init := rows[..|rows| - 1];
      var r := rows[|rows| - 1];
      StockCountsTotal(init);
      StockCountsExact(init, r.bloodGroup);
      SumOverCountUnit(StockCounts(init), r);
    }
  }

  // ---------------------------------------------------------------------
  // Shading of the detailed table
  // ---------------------------------------------------------------------

  datatype RowShade = SelectedRow | ExpiredRow | UsedRow | ExpiringRow | NormalRow

  /** The detailed renderer's own "expiring soon" test: in stock, and expiry
      strictly before the day a week from `today`. */
  predicate RendererExpiringSoon(row: DetailRow, today: int) {
    row.expiryDate < today + EXPIRY_WARNING_DAYS && row.status == InStock
  }

  /** The shade of every cell of a row. */
  function RowShadeOf(row: DetailRow, selected: bool, today: int): (s: RowShade)
    ensures selected <==> s == SelectedRow
    ensures !selected ==> (s == ExpiredRow <==> row.status == Expired)
    ensures !selected ==> (s == UsedRow <==> row.status == Issued)
    ensures s == ExpiringRow <==> !selected && row.status == InStock && row.expiryDate <= today + EXPIRY_WARNING_DAYS - 1
    ensures s == NormalRow <==> !selected && row.status == InStock && row.expiryDate >= today + EXPIRY_WARNING_DAYS
  {
    if selected then SelectedRow
    else
      match row.status
      case Expired => ExpiredRow
      case Issued => UsedRow
      case InStock => if RendererExpiringSoon(row, today) then ExpiringRow else NormalRow
  }

  /** The renderer and `BloodUnit.IsExpiringSoon` disagree exactly on units in
      stock that expire on the warning date itself (the unit says expiring,
      the table shows normal) or whose expiry has already passed (the unit
      says not expiring, the table shows expiring). */
  lemma RendererVersusUnit(u: BloodUnit, today: int)
    ensures RowShadeOf(RowOf(u), false, today) == ExpiringRow ==> u.status == InStock
    ensures (RowShadeOf(RowOf(u), false, today) == ExpiringRow) != u.IsExpiringSoon(today)
        <==> u.status == InStock && (u.expiryDate == today + EXPIRY_WARNING_DAYS || u.expiryDate < today)
  {
  }

  /** The boundary case on its own: expiring in exactly seven days. */
  lemma WarningDateShownNormal(u: BloodUnit, today: int)
    requires u.status == InStock && u.expiryDate == today + EXPIRY_WARNING_DAYS
    ensures u.IsExpiringSoon(today)
    ensures RowShadeOf(RowOf(u), false, today) == NormalRow
  {
  }

  // ---------------------------------------------------------------------
  // Shading of the summary table
  // ---------------------------------------------------------------------

  datatype StockBand = HighStock | MediumStock | LowStock | ZeroStock

  /** The band of a count: 20 and up high, 5 to 19 medium, 1 to 4 low,
      anything else zero. Every count has exactly one band. */
  function BandOf(count: int): (b: StockBand)
    ensures b == HighStock <==> 20 <= count
    ensures b == MediumStock <==> 5 <= count < 20
    ensures b == LowStock <==> 1 <= count < 5
    ensures b == ZeroStock <==> count < 1
  {
    if count >= 20 then HighStock
    else if count >= 5 then MediumStock
    else if count > 0 then LowStock
    else ZeroStock
  }

  datatype SummaryShade = SummarySelected | Band(band: StockBand) | GroupLabel

  /** The summary renderer: the count column (1) is shaded by band unless
      selected; the group column is always plain. */
  function SummaryShadeOf(column: int, count: int, selected: bool): (s: SummaryShade)
    ensures column != 1 <==> s == GroupLabel
    ensures column == 1 && selected <==> s == SummarySelected
    ensures column == 1 && !selected ==> s == Band(BandOf(count))
  {
    if column == 1 then
      if selected then SummarySelected else Band(BandOf(count))
    else GroupLabel
  }

  // ---------------------------------------------------------------------
  // The view
  // ---------------------------------------------------------------------

  /** Step 2 of `displayStock`: one detail row per unit, in order, and the
      summary map counted along the way. */
  method CountUnits(units: seq<BloodUnit>) returns (rows: seq<DetailRow>, stockCounts: map<string, int>)
    ensures rows == RowsOf(units)
    ensures stockCounts == StockCounts(rows)
  {
    ghost var all := RowsOf(units);
    rows := [];
    stockCounts := map g | g in ALL_GROUPS :: 0;
    for i := 0 to |units|
      invariant rows == all[..i]
      invariant stockCounts == StockCounts(rows)
    {
      var row := RowOf(units[i]);
      assert all[..i + 1] == rows + [row];
      StockCountsStep(all, i);
      rows := rows + [row];
      if row.status == InStock && row.bloodGroup in stockCounts {
        stockCounts := stockCounts[row.bloodGroup := stockCounts[row.bloodGroup] + 1];
      }
    }
    assert all[..|units|] == all;
  }

  class BloodStockView {
    var detailedRows: seq<DetailRow>
    var summaryRows: seq<SummaryRow>

    /** The summary lists the eight groups in order. */
    ghost predicate Valid()
      reads this
    {
      |summaryRows| == |ALL_GROUPS| &&
      forall i :: 0 <= i < |summaryRows| ==> summaryRows[i].group == ALL_GROUPS[i]
    }

    /** An empty detailed table and the eight groups at zero. */
    constructor ()
      ensures Valid() && detailedRows == []
      ensures forall i :: 0 <= i < |summaryRows| ==> summaryRows[i].inStock == 0
    {
      detailedRows := [];
      var rows: seq<SummaryRow> := [];
      for i := 0 to |ALL_GROUPS|
        invariant |rows| == i
        invariant forall j :: 0 <= j < i ==> rows[j] == SummaryRow(ALL_GROUPS[j], 0)
      {
        rows := rows + [SummaryRow(ALL_GROUPS[i], 0)];
      }
      summaryRows := rows;
    }

    /** Replaces the detailed table with one row per unit, in order, and sets
        each group's summary count to its number of units in stock. */
    method DisplayStock(units: seq<BloodUnit>)
      requires Valid()
      modifies this
      ensures Valid()
      ensures detailedRows == old(RowsOf(units))
      ensures forall i :: 0 <= i < |summaryRows| ==>
        summaryRows[i].inStock == InStockCount(old(RowsOf(units)), ALL_GROUPS[i])
    {
      var table, stockCounts := CountUnits(units);
      detailedRows := table;

      for i := 0 to |summaryRows|
        invariant Valid() && detailedRows == table
        invariant forall j :: 0 <= j < i ==> summaryRows[j].inStock == InStockCount(table, ALL_GROUPS[j])
      {
        var group := summaryRows[i].group;
        StockCountsExact(table, group);
        summaryRows := summaryRows[i := SummaryRow(group, GetOrDefault(stockCounts, group, 0))];
      }
    }
  }
}
