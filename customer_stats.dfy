/**
 * The customer-statistics bar chart: month labels, the per-month rows, the
 * upper bound of the y axis, and the two bar series.
 */
module CustomerStats {
  import opened Replies

  /** One input entry: a month code and two counts. */
  datatype CustomerData = CustomerData(month: string, active: int, newSignups: int)

  /** One row of `chartData`. */
  datatype ChartRow = ChartRow(month: string, active: int, newSignups: int, total: int)

  const MonthCodes: seq<string> := ["01", "02", "03", "04", "05", "06", "07", "08", "09", "10", "11", "12"]
  const MonthNames: seq<string> := ["Jan", "Feb", "Mar", "Apr", "May", "Jun", "Jul", "Aug", "Sep", "Oct", "Nov", "Dec"]

  /** The position of `code` among the month codes, if it is one. */
  function MonthIndex(code: string): (r: Option<nat>)
    ensures r.Some? ==> r.value < 12 && MonthCodes[r.value] == code
    ensures r.None? ==> code !in MonthCodes
  {
    if code == "01" then Some(0) else if code == "02" then Some(1)
    else if code == "03" then Some(2) else if code == "04" then Some(3)
    else if code == "05" then Some(4) else if code == "06" then Some(5)
    else if code == "07" then Some(6) else if code == "08" then Some(7)
    else if code == "09" then Some(8) else if code == "10" then Some(9)
    else if code == "11" then Some(10) else if code == "12" then Some(11)
    else None
  }

  /** `monthNames[code] || code` */
  function MonthLabel(code: string): (r: string)
    ensures forall i :: 0 <= i < 12 && code == MonthCodes[i] ==> r == MonthNames[i]
    ensures code !in MonthCodes ==> r == code
  {
    match MonthIndex(code)
    case Some(i) => MonthNames[i]
    case None => code
  }

  /** The twelve codes get twelve different names. */
  lemma MonthLabelsDistinct(a: string, b: string)
    requires a in MonthCodes && b in MonthCodes && a != b
    ensures MonthLabel(a) != MonthLabel(b)
  {
  }

  /** `chartData`: one row per entry, in order, with the month relabelled and
    * the total of the two counts. */
  function ChartData(data: seq<CustomerData>): (r: seq<ChartRow>)
    ensures |r| == |data|
    ensures forall i :: 0 <= i < |data| ==>
      r[i].month == MonthLabel(data[i].month) && r[i].active == data[i].active
      && r[i].newSignups == data[i].newSignups && r[i].total == r[i].active + r[i].newSignups
    decreases |data|
  {
    if data == [] then []
    else
      var d := data[0];
      [ChartRow(MonthLabel(d.month), d.active, d.newSignups, d.active + d.newSignups)] + ChartData(data[1..])
  }

  function Max(a: int, b: int): int {
    if a >= b then a else b
  }

  /** `Math.max(...rows.map(row => Math.max(row.active, row.newSignups)))`;
    * `None` stands for the `-Infinity` of an empty chart. */
  function MaxValue(rows: seq<ChartRow>): (r: Option<int>)
    ensures r.None? <==> rows == []
    ensures r.Some? ==> forall i :: 0 <= i < |rows| ==> rows[i].active <= r.value && rows[i].newSignups <= r.value
    ensures r.Some? ==> exists i :: 0 <= i < |rows| && r.value == Max(rows[i].active, rows[i].newSignups)
    decreases |rows|
  {
    if rows == [] then None
    else
      var here := Max(rows[0].active, rows[0].newSignups);
      match MaxValue(rows[1..])
      case None => Some(here)
      case Some(m) =>
        assert forall i :: 1 <= i < |rows| ==> rows[i] == rows[1..][i - 1];
        Some(Max(here, m))
  }

  /** `Math.max(10, Math.ceil(maxValue * 1.2))`, with 1.2 taken as the exact
    * ratio 6/5. */
  function YAxisMax(rows: seq<ChartRow>): (r: int)
    ensures r >= 10
    ensures forall i :: 0 <= i < |rows| ==> rows[i].active <= r && rows[i].newSignups <= r
    ensures rows == [] ==> r == 10
  {
    match MaxValue(rows)
    case None => 10
    case Some(m) =>
      var scaled := (6 * m + 4) / 5;
      assert m >= 0 ==> scaled >= m;
      Max(10, scaled)
  }

  /** The y axis leaves headroom: for a non-negative maximum it is at least
    * the maximum plus a fifth of it. */
  lemma {:induction false} YAxisLeavesHeadroom(rows: seq<ChartRow>)
    requires MaxValue(rows).Some? && MaxValue(rows).value >= 0
    ensures 5 * YAxisMax(rows) >= 6 * MaxValue(rows).value
  {
    var m := MaxValue(rows).value;
    var scaled := (6 * m + 4) / 5;
    assert 5 * scaled >= 6 * m by {
      assert 6 * m + 4 == 5 * scaled + (6 * m + 4) % 5;
    }
  }

  /** One bar series. */
  datatype Series = Series(name: string, values: seq<int>)

  function Actives(data: seq<CustomerData>): (r: seq<int>)
    ensures |r| == |data| && forall i :: 0 <= i < |data| ==> r[i] == data[i].active
    decreases |data|
  {
    if data == [] then [] else [data[0].active] + Actives(data[1..])
  }

  function Signups(data: seq<CustomerData>): (r: seq<int>)
    ensures |r| == |data| && forall i :: 0 <= i < |data| ==> r[i] == data[i].newSignups
    decreases |data|
  {
    if data == [] then [] else [data[0].newSignups] + Signups(data[1..])
  }

  /** The two series, active users first. */
  function ChartSeries(data: seq<CustomerData>): (r: seq<Series>)
    ensures |r| == 2 && r[0].name == "Active" && r[1].name == "New Sign-ups"
    ensures |r[0].values| == |data| && |r[1].values| == |data|
  {
    [Series("Active", Actives(data)), Series("New Sign-ups", Signups(data))]
  }

  /** The x-axis categories: the raw month codes, not the relabelled ones. */
  function Categories(data: seq<CustomerData>): (r: seq<string>)
    ensures |r| == |data| && forall i :: 0 <= i < |data| ==> r[i] == data[i].month
    decreases |data|
  {
    if data == [] then [] else [data[0].month] + Categories(data[1..])
  }

  /** Every bar lines up with its category and its chart row: position `i` of
    * both series, of the categories and of `chartData` come from entry `i`,
    * and for a month code the axis shows the code while the row carries the
    * name. */
  lemma SeriesAlignWithCategories(data: seq<CustomerData>, i: int)
    requires 0 <= i < |data|
    ensures ChartSeries(data)[0].values[i] == ChartData(data)[i].active
    ensures ChartSeries(data)[1].values[i] == ChartData(data)[i].newSignups
    ensures ChartSeries(data)[0].values[i] + ChartSeries(data)[1].values[i] == ChartData(data)[i].total
    ensures data[i].month in MonthCodes ==> Categories(data)[i] != ChartData(data)[i].month
  {
    if data[i].month in MonthCodes {
      MonthLabelDiffersFromCode(data[i].month);
    }
  }

  /** A month code and its name never coincide: names have three letters,
    * codes two digits. */
  lemma MonthLabelDiffersFromCode(code: string)
    requires code in MonthCodes
    ensures MonthLabel(code) != code
  {
    var k := MonthIndex(code).value;
    assert |MonthNames[k]| == 3;
    assert |MonthCodes[k]| == 2;
  }
}
