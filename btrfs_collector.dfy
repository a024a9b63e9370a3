/**
 * The btrfs collector: flattens each filesystem record into a list of
 * metric records and binds each one to the base labels ["label", "uuid"].
 */
module BtrfsCollector {
  import opened BtrfsStats

  // ---------------------------------------------------------------------
  // Metric records
  // ---------------------------------------------------------------------

  /**
   * The value of a metric, tagged by what it was taken from. The collector
   * converts every value to float64; that conversion is not modelled.
   */
  datatype Value = Count(n: nat) | Bytes(b: U64) | Ratio(f: Float64)

  /** One flat metric before it is bound to the filesystem's base labels. */
  datatype BtrfsMetric = BtrfsMetric(
    name: string,
    desc: string,
    value: Value,
    extraLabel: seq<string>,
    extraLabelValue: seq<string>)

  /** A metric whose extra label names and values line up. */
  predicate WellFormed(m: BtrfsMetric) {
    |m.extraLabel| == |m.extraLabelValue|
  }

  // The help text of each metric.
  const DeviceCountHelp: string := "Number of devices that are part of the filesystem."
  const GlobalRsvSizeHelp: string := "Size of global reserve."
  const DeviceSizeHelp: string := "Size of a device that is part of the filesystem."
  const ReservedBytesHelp: string := "Amount of space reserved for a data type"
  const UsedBytesHelp: string := "Amount of used space by a layout/data type"
  const TotalBytesHelp: string := "Amount of space allocated for a layout/data type"
  const RatioHelp: string := "Data allocation ratio for a layout/data type"

  /** The names the metrics of an allocation category carry. */
  const CategoryMetricNames: set<string> := {"reserved_bytes", "used_bytes", "total_bytes", "ratio"}

  // ---------------------------------------------------------------------
  // Layouts
  // ---------------------------------------------------------------------

  /** The fixed order in which the layouts of a category are emitted. */
  const Layouts: seq<Layout> := [Single, Dup, Raid0, Raid1, Raid5, Raid6, Raid10]

  /** The value of the "mode" label for a layout. */
  function LayoutName(l: Layout): string {
    match l
    case Single => "single"
    case Dup => "dup"
    case Raid0 => "raid0"
    case Raid1 => "raid1"
    case Raid5 => "raid5"
    case Raid6 => "raid6"
    case Raid10 => "raid10"
  }

  /** Reads a "mode" label value back as a layout. */
  function ParseLayout(name: string): (r: Option<Layout>)
    ensures r.Some? ==> LayoutName(r.value) == name
  {
    if name == "single" then Some(Single)
    else if name == "dup" then Some(Dup)
    else if name == "raid0" then Some(Raid0)
    else if name == "raid1" then Some(Raid1)
    else if name == "raid5" then Some(Raid5)
    else if name == "raid6" then Some(Raid6)
    else if name == "raid10" then Some(Raid10)
    else None
  }

  /** Every mode label value names exactly one layout. */
  lemma LayoutNameRoundTrip(l: Layout)
    ensures ParseLayout(LayoutName(l)) == Some(l)
  {
  }

  /** The position of a layout in the emission order. */
  function Rank(l: Layout): (r: nat)
    ensures r < |Layouts| && Layouts[r] == l
  {
    match l
    case Single => 0
    case Dup => 1
    case Raid0 => 2
    case Raid1 => 3
    case Raid5 => 4
    case Raid6 => 5
    case Raid10 => 6
  }

  /** The rank of the layout a metric's "mode" label names; |Layouts| when it names none. */
  function LayoutRank(m: BtrfsMetric): nat {
    if |m.extraLabelValue| == 2 && ParseLayout(m.extraLabelValue[1]).Some? then
      Rank(ParseLayout(m.extraLabelValue[1]).value)
    else
      |Layouts|
  }

  /** m is one of the metrics emitted for layout l of category a. */
  ghost predicate FromLayout(m: BtrfsMetric, a: string, l: Layout) {
    m.extraLabel == ["type", "mode"] && m.extraLabelValue == [a, LayoutName(l)]
  }

  // ---------------------------------------------------------------------
  // getLayoutStats
  // ---------------------------------------------------------------------

  /**
   * getLayoutStats: nothing when the layout record is absent; otherwise its
   * used bytes, total bytes and ratio, in that order, each labelled with
   * type = a and mode = l.
   */
  function GetLayoutStats(a: string, l: string, s: Option<LayoutUsage>): (r: seq<BtrfsMetric>)
    ensures r == [] <==> s.None?
    ensures s.Some? ==>
      && |r| == 3
      && r[0].name == "used_bytes" && r[0].value == Bytes(s.value.usedBytes)
      && r[1].name == "total_bytes" && r[1].value == Bytes(s.value.totalBytes)
      && r[2].name == "ratio" && r[2].value == Ratio(s.value.ratio)
      && r[0].extraLabel == r[1].extraLabel == r[2].extraLabel == ["type", "mode"]
      && r[0].extraLabelValue == r[1].extraLabelValue == r[2].extraLabelValue == [a, l]
  {
    if s.None? then
      []
    else
      [ BtrfsMetric("used_bytes", UsedBytesHelp,
                    Bytes(s.value.usedBytes), ["type", "mode"], [a, l]),
        BtrfsMetric("total_bytes", TotalBytesHelp,
                    Bytes(s.value.totalBytes), ["type", "mode"], [a, l]),
        BtrfsMetric("ratio", RatioHelp,
                    Ratio(s.value.ratio), ["type", "mode"], [a, l]) ]
  }

  // ---------------------------------------------------------------------
  // getAllocationStats
  // ---------------------------------------------------------------------

  /** The reserved-bytes metric every category starts with. */
  function ReservedMetric(a: string, s: AllocationStats): BtrfsMetric {
    BtrfsMetric("reserved_bytes", ReservedBytesHelp,
                Bytes(s.reservedBytes), ["type"], [a])
  }

  /** How many of the first n layouts of the emission order are present in s. */
  function Present(s: AllocationStats, n: nat): nat
    requires n <= |Layouts|
  {
    if n == 0 then 0
    else Present(s, n - 1) + (if s.Usage(Layouts[n - 1]).Some? then 1 else 0)
  }

  /**
   * The metrics of category a up to the n-th layout of the emission order:
   * the reserved-bytes metric, then three metrics for each present layout
   * among the first n. With n = |Layouts| this is what getAllocationStats
   * returns.
   */
  function AllocationMetrics(a: string, s: AllocationStats, n: nat): (r: seq<BtrfsMetric>)
    requires n <= |Layouts|
    ensures |r| == 1 + 3 * Present(s, n)
    ensures r[0] == ReservedMetric(a, s)
  {
    if n == 0 then
      [ReservedMetric(a, s)]
    else
      var l := Layouts[n - 1];
      AllocationMetrics(a, s, n - 1) + GetLayoutStats(a, LayoutName(l), s.Usage(l))
  }

  /** All metrics of category a. */
  function CategoryMetrics(a: string, s: AllocationStats): seq<BtrfsMetric> {
    AllocationMetrics(a, s, |Layouts|)
  }

  /** The number of metrics one category contributes. */
  function CategoryCount(s: AllocationStats): nat {
    1 + 3 * Present(s, |Layouts|)
  }

  /** One more layout of the emission order appends that layout's metrics. */
  lemma AllocationMetricsNext(a: string, s: AllocationStats, n: nat)
    requires n < |Layouts|
    ensures AllocationMetrics(a, s, n + 1)
            == AllocationMetrics(a, s, n) + GetLayoutStats(a, LayoutName(Layouts[n]), s.Usage(Layouts[n]))
  {
  }

  /** The category's metrics, written out layout by layout in the fixed order. */
  lemma AllocationMetricsUnrolled(a: string, s: AllocationStats)
    ensures AllocationMetrics(a, s, |Layouts|)
            == [ReservedMetric(a, s)]
               + GetLayoutStats(a, "single", s.single)
               + GetLayoutStats(a, "dup", s.dup)
               + GetLayoutStats(a, "raid0", s.raid0)
               + GetLayoutStats(a, "raid1", s.raid1)
               + GetLayoutStats(a, "raid5", s.raid5)
               + GetLayoutStats(a, "raid6", s.raid6)
               + GetLayoutStats(a, "raid10", s.raid10)
  {
    AllocationMetricsNext(a, s, 0);
    AllocationMetricsNext(a, s, 1);
    AllocationMetricsNext(a, s, 2);
    AllocationMetricsNext(a, s, 3);
    AllocationMetricsNext(a, s, 4);
    AllocationMetricsNext(a, s, 5);
    AllocationMetricsNext(a, s, 6);
  }

  /**
   * getAllocationStats: the reserved-bytes metric of category a, then the
   * metrics of each layout in the fixed order single, dup, raid0, raid1,
   * raid5, raid6, raid10.
   */
  method GetAllocationStats(a: string, s: AllocationStats) returns (metrics: seq<BtrfsMetric>)
    ensures metrics == CategoryMetrics(a, s)
    ensures |metrics| == CategoryCount(s)
  {
    metrics := [ReservedMetric(a, s)];
    metrics := metrics + GetLayoutStats(a, "single", s.single);
    metrics := metrics + GetLayoutStats(a, "dup", s.dup);
    metrics := metrics + GetLayoutStats(a, "raid0", s.raid0);
    metrics := metrics + GetLayoutStats(a, "raid1", s.raid1);
    metrics := metrics + GetLayoutStats(a, "raid5", s.raid5);
    metrics := metrics + GetLayoutStats(a, "raid6", s.raid6);
    metrics := metrics + GetLayoutStats(a, "raid10", s.raid10);
    AllocationMetricsUnrolled(a, s);
  }

  /** m is a metric of category a: well formed, one of the category names, labelled type = a. */
  ghost predicate CategoryMetric(m: BtrfsMetric, a: string) {
    && WellFormed(m)
    && m.name in CategoryMetricNames
    && |m.extraLabel| >= 1 && m.extraLabel[0] == "type" && m.extraLabelValue[0] == a
  }

  /** m belongs to a layout present in s among the first n of the emission order. */
  ghost predicate LayoutMetric(m: BtrfsMetric, a: string, s: AllocationStats, n: nat) {
    && |m.extraLabelValue| == 2
    && ParseLayout(m.extraLabelValue[1]).Some?
    && var l := ParseLayout(m.extraLabelValue[1]).value;
       Rank(l) < n && s.Usage(l).Some? && FromLayout(m, a, l)
  }

  /** Every metric of r belongs to category a; every one after the first to a present layout among the first n. */
  ghost predicate CategoryLabelled(r: seq<BtrfsMetric>, a: string, s: AllocationStats, n: nat) {
    forall i :: 0 <= i < |r| ==> CategoryMetric(r[i], a) && (i >= 1 ==> LayoutMetric(r[i], a, s, n))
  }

  /** The layout metrics of r, after the first metric, follow the fixed layout order. */
  ghost predicate LayoutsInOrder(r: seq<BtrfsMetric>) {
    forall i, j :: 1 <= i < j < |r| ==> LayoutRank(r[i]) <= LayoutRank(r[j])
  }

  /** The three metrics of a present layout belong to category a and to that layout. */
  lemma LayoutStatsLabels(a: string, s: AllocationStats, l: Layout, n: nat, j: nat)
    requires Rank(l) < n && s.Usage(l).Some?
    requires j < 3
    ensures CategoryMetric(GetLayoutStats(a, LayoutName(l), s.Usage(l))[j], a)
    ensures LayoutMetric(GetLayoutStats(a, LayoutName(l), s.Usage(l))[j], a, s, n)
    ensures LayoutRank(GetLayoutStats(a, LayoutName(l), s.Usage(l))[j]) == Rank(l)
  {
    LayoutNameRoundTrip(l);
  }

  /** Appending metrics of a layout present among the first n keeps a category list labelled. */
  lemma LabelledAppend(prev: seq<BtrfsMetric>, block: seq<BtrfsMetric>, a: string, s: AllocationStats, n: nat)
    requires n >= 1 && |prev| >= 1
    requires CategoryLabelled(prev, a, s, n - 1)
    requires forall j :: 0 <= j < |block| ==> CategoryMetric(block[j], a) && LayoutMetric(block[j], a, s, n)
    ensures CategoryLabelled(prev + block, a, s, n)
  {
    var r := prev + block;
    forall i | 0 <= i < |r|
      ensures CategoryMetric(r[i], a) && (i >= 1 ==> LayoutMetric(r[i], a, s, n))
    {
      if i < |prev| {
        assert r[i] == prev[i];
        assert CategoryMetric(prev[i], a);
        if i >= 1 {
          assert LayoutMetric(prev[i], a, s, n - 1);
        }
      } else {
        assert r[i] == block[i - |prev|];
      }
    }
  }

  /**
   * Every metric of a category is well formed, carries one of the category
   * metric names and is labelled type = a; every one after the
   * reserved-bytes metric belongs to a present layout among the first n.
   */
  lemma {:induction false} AllocationMetricsLabels(a: string, s: AllocationStats, n: nat)
    requires n <= |Layouts|
    ensures CategoryLabelled(AllocationMetrics(a, s, n), a, s, n)
  {
    var r := AllocationMetrics(a, s, n);
    if n == 0 {
      assert CategoryMetric(r[0], a);
    } else {
      var prev := AllocationMetrics(a, s, n - 1);
      var l := Layouts[n - 1];
      var block := GetLayoutStats(a, LayoutName(l), s.Usage(l));
      assert r == prev + block;
      AllocationMetricsLabels(a, s, n - 1);
      forall j | 0 <= j < |block|
        ensures CategoryMetric(block[j], a) && LayoutMetric(block[j], a, s, n)
      {
        LayoutStatsLabels(a, s, l, n, j);
      }
      LabelledAppend(prev, block, a, s, n);
    }
  }

  /** Appending metrics of one layout ranked above every earlier one keeps the layout order. */
  lemma OrderedAppend(prev: seq<BtrfsMetric>, block: seq<BtrfsMetric>, k: nat)
    requires LayoutsInOrder(prev)
    requires forall i :: 1 <= i < |prev| ==> LayoutRank(prev[i]) < k
    requires forall i :: 0 <= i < |block| ==> LayoutRank(block[i]) == k
    ensures LayoutsInOrder(prev + block)
  {
    var r := prev + block;
    forall i, j | 1 <= i < j < |r|
      ensures LayoutRank(r[i]) <= LayoutRank(r[j])
    {
      if j < |prev| {
        assert r[i] == prev[i] && r[j] == prev[j];
      } else if i < |prev| {
        assert r[i] == prev[i] && r[j] == block[j - |prev|];
      } else {
        assert r[i] == block[i - |prev|] && r[j] == block[j - |prev|];
      }
    }
  }

  /** Every layout metric among the first n layouts has a rank below n. */
  lemma AllocationMetricsRanks(a: string, s: AllocationStats, n: nat)
    requires n <= |Layouts|
    ensures forall i :: 1 <= i < |AllocationMetrics(a, s, n)| ==> LayoutRank(AllocationMetrics(a, s, n)[i]) < n
  {
    var r := AllocationMetrics(a, s, n);
    AllocationMetricsLabels(a, s, n);
    forall i | 1 <= i < |r|
      ensures LayoutRank(r[i]) < n
    {
      assert LayoutMetric(r[i], a, s, n);
    }
  }

  /** Within a category the layout metrics follow the fixed layout order. */
  lemma {:induction false} AllocationMetricsOrdered(a: string, s: AllocationStats, n: nat)
    requires n <= |Layouts|
    ensures LayoutsInOrder(AllocationMetrics(a, s, n))
  {
    if n > 0 {
      var prev := AllocationMetrics(a, s, n - 1);
      var l := Layouts[n - 1];
      var block := GetLayoutStats(a, LayoutName(l), s.Usage(l));
      assert AllocationMetrics(a, s, n) == prev + block;
      AllocationMetricsOrdered(a, s, n - 1);
      AllocationMetricsRanks(a, s, n - 1);
      forall i | 0 <= i < |block|
        ensures LayoutRank(block[i]) == n - 1
      {
        LayoutStatsLabels(a, s, l, n, i);
      }
      OrderedAppend(prev, block, n - 1);
    }
  }

  /** Where the metrics of layout l start: after the reserved-bytes metric and the present layouts before l. */
  function LayoutOffset(s: AllocationStats, l: Layout): nat {
    1 + 3 * Present(s, Rank(l))
  }

  /** A present layout among the first n has its three metrics at its offset. */
  lemma {:induction false} AllocationMetricsAt(a: string, s: AllocationStats, n: nat, l: Layout, j: nat)
    requires n <= |Layouts|
    requires Rank(l) < n && s.Usage(l).Some? && j < 3
    ensures LayoutOffset(s, l) + j < |AllocationMetrics(a, s, n)|
    ensures AllocationMetrics(a, s, n)[LayoutOffset(s, l) + j] == GetLayoutStats(a, LayoutName(l), s.Usage(l))[j]
  {
    var prev := AllocationMetrics(a, s, n - 1);
    var last := Layouts[n - 1];
    var block := GetLayoutStats(a, LayoutName(last), s.Usage(last));
    var r := AllocationMetrics(a, s, n);
    assert r == prev + block;
    var off := LayoutOffset(s, l);
    if Rank(l) == n - 1 {
      assert last == l;
      assert off == |prev|;
      assert r[off + j] == block[j];
    } else {
      AllocationMetricsAt(a, s, n - 1, l, j);
      assert r[off + j] == prev[off + j];
    }
  }

  /**
   * A present layout yields its three metrics, contiguously, in its
   * category's list, after the reserved-bytes metric and the metrics of the
   * present layouts before it.
   */
  lemma PresentLayoutEmitted(a: string, s: AllocationStats, l: Layout)
    requires s.Usage(l).Some?
    ensures LayoutOffset(s, l) + 3 <= |CategoryMetrics(a, s)|
    ensures CategoryMetrics(a, s)[LayoutOffset(s, l)..LayoutOffset(s, l) + 3]
            == GetLayoutStats(a, LayoutName(l), s.Usage(l))
  {
    var r, off := CategoryMetrics(a, s), LayoutOffset(s, l);
    var block := GetLayoutStats(a, LayoutName(l), s.Usage(l));
    AllocationMetricsAt(a, s, |Layouts|, l, 2);
    forall j | 0 <= j < 3
      ensures r[off..off + 3][j] == block[j]
    {
      AllocationMetricsAt(a, s, |Layouts|, l, j);
    }
  }

  /** An absent layout yields nothing: no metric of the category carries its mode. */
  lemma AbsentLayoutSilent(a: string, s: AllocationStats, l: Layout)
    requires s.Usage(l).None?
    ensures forall m <- CategoryMetrics(a, s) ::
      !(|m.extraLabelValue| == 2 && m.extraLabelValue[1] == LayoutName(l))
  {
    var r := CategoryMetrics(a, s);
    AllocationMetricsLabels(a, s, |Layouts|);
    LayoutNameRoundTrip(l);
    forall i | 0 <= i < |r|
      ensures !(|r[i].extraLabelValue| == 2 && r[i].extraLabelValue[1] == LayoutName(l))
    {
      if i > 0 {
        assert LayoutMetric(r[i], a, s, |Layouts|);
      } else {
        assert CategoryMetric(r[0], a);
      }
    }
  }

  // ---------------------------------------------------------------------
  // The metric list of one filesystem (updateBtrfsStats, list building)
  // ---------------------------------------------------------------------

  /** device_count and global_rsv_size_bytes, which carry no extra labels. */
  function HeaderMetrics(s: Stats): seq<BtrfsMetric> {
    [ BtrfsMetric("device_count", DeviceCountHelp,
                  Count(|s.devices|), [], []),
      BtrfsMetric("global_rsv_size_bytes", GlobalRsvSizeHelp,
                  Bytes(s.allocation.globalRsvSize), [], []) ]
  }

  /** The device_size metric of the device named n. */
  function DeviceMetric(n: string, dev: Device): BtrfsMetric {
    BtrfsMetric("device_size", DeviceSizeHelp,
                Bytes(dev.size), ["device"], [n])
  }

  /** One device_size metric per name of order, in that order. */
  function DeviceBlock(devices: map<string, Device>, order: seq<string>): (r: seq<BtrfsMetric>)
    requires forall n <- order :: n in devices
    ensures |r| == |order|
  {
    if order == [] then []
    else DeviceBlock(devices, order[..|order| - 1])
         + [DeviceMetric(order[|order| - 1], devices[order[|order| - 1]])]
  }

  /** The i-th device_size metric is that of the i-th name of order. */
  lemma {:induction false} DeviceBlockAt(devices: map<string, Device>, order: seq<string>)
    requires forall n <- order :: n in devices
    ensures forall i :: 0 <= i < |order| ==>
      DeviceBlock(devices, order)[i] == DeviceMetric(order[i], devices[order[i]])
  {
    if order != [] {
      var init := order[..|order| - 1];
      DeviceBlockAt(devices, init);
      forall i | 0 <= i < |order|
        ensures DeviceBlock(devices, order)[i] == DeviceMetric(order[i], devices[order[i]])
      {
        if i < |init| {
          assert order[i] == init[i];
        }
      }
    }
  }

  /** Visiting one more device appends its device_size metric. */
  lemma DeviceBlockSnoc(devices: map<string, Device>, order: seq<string>, n: string)
    requires forall m <- order :: m in devices
    requires n in devices
    ensures DeviceBlock(devices, order + [n]) == DeviceBlock(devices, order) + [DeviceMetric(n, devices[n])]
  {
    assert (order + [n])[..|order|] == order;
  }

  /** The three categories in the fixed order data, metadata, system. */
  function AllCategories(al: Allocation): seq<BtrfsMetric> {
    CategoryMetrics("data", al.data)
    + CategoryMetrics("metadata", al.metadata)
    + CategoryMetrics("system", al.system)
  }

  /** The metric list of s when the device map is visited in the order given. */
  function MetricList(s: Stats, order: seq<string>): seq<BtrfsMetric>
    requires forall n <- order :: n in s.devices
  {
    HeaderMetrics(s) + DeviceBlock(s.devices, order) + AllCategories(s.allocation)
  }

  /** The number of metrics one filesystem contributes. */
  function MetricCount(s: Stats): nat {
    2 + |s.devices|
    + CategoryCount(s.allocation.data)
    + CategoryCount(s.allocation.metadata)
    + CategoryCount(s.allocation.system)
  }

  ghost predicate Distinct(order: seq<string>) {
    forall i, j :: 0 <= i < j < |order| ==> order[i] != order[j]
  }

  /** order visits every device name exactly once, as ranging over a Go map does. */
  ghost predicate IsEnumeration(order: seq<string>, devices: map<string, Device>) {
    && Distinct(order)
    && (forall n :: n in order <==> n in devices)
  }

  /** The rank of the category a metric's first extra label value names; 3 when it names none. */
  function CategoryRank(m: BtrfsMetric): nat {
    if |m.extraLabelValue| == 0 then 3
    else if m.extraLabelValue[0] == "data" then 0
    else if m.extraLabelValue[0] == "metadata" then 1
    else if m.extraLabelValue[0] == "system" then 2
    else 3
  }

  /** m is a metric of one of the three categories. */
  ghost predicate CategoryPart(m: BtrfsMetric) {
    && |m.extraLabelValue| >= 1
    && CategoryMetric(m, m.extraLabelValue[0])
    && CategoryRank(m) < 3
  }

  /** The category rank of the k-th metric of the categories part, by position. */
  function CategoryRankAt(al: Allocation, k: nat): nat {
    if k < CategoryCount(al.data) then 0
    else if k < CategoryCount(al.data) + CategoryCount(al.metadata) then 1
    else 2
  }

  lemma {:induction false} DistinctSetSize(order: seq<string>)
    requires Distinct(order)
    ensures |set n | n in order| == |order|
  {
    if order != [] {
      var last := order[|order| - 1];
      var init := order[..|order| - 1];
      assert Distinct(init);
      DistinctSetSize(init);
      assert order == init + [last];
      assert (set n | n in order) == (set n | n in init) + {last};
      assert last !in (set n | n in init);
    }
  }

  /** An enumeration of the device map has one entry per device. */
  lemma EnumerationSize(order: seq<string>, devices: map<string, Device>)
    requires IsEnumeration(order, devices)
    ensures |order| == |devices|
  {
    DistinctSetSize(order);
    assert (set n | n in order) == devices.Keys;
  }

  /** The metric at position i of the list, piece by piece. */
  lemma MetricListAt(s: Stats, order: seq<string>, i: nat)
    requires forall n <- order :: n in s.devices
    requires i < |MetricList(s, order)|
    ensures i < 2 ==> MetricList(s, order)[i] == HeaderMetrics(s)[i]
    ensures 2 <= i < 2 + |order| ==>
      MetricList(s, order)[i] == DeviceMetric(order[i - 2], s.devices[order[i - 2]])
    ensures 2 + |order| <= i ==>
      MetricList(s, order)[i] == AllCategories(s.allocation)[i - 2 - |order|]
  {
    DeviceBlockAt(s.devices, order);
    if 2 <= i < 2 + |order| {
      assert MetricList(s, order)[i] == DeviceBlock(s.devices, order)[i - 2];
    }
  }

  /** Each metric of the categories part belongs to the category its position says. */
  lemma AllCategoriesAt(al: Allocation, k: nat)
    requires k < |AllCategories(al)|
    ensures CategoryPart(AllCategories(al)[k])
    ensures CategoryRank(AllCategories(al)[k]) == CategoryRankAt(al, k)
    ensures k == 0 ==> AllCategories(al)[k] == ReservedMetric("data", al.data)
  {
    var d := CategoryMetrics("data", al.data);
    var md := CategoryMetrics("metadata", al.metadata);
    var sy := CategoryMetrics("system", al.system);
    var ac := AllCategories(al);
    assert ac == d + md + sy;
    if k < |d| {
      assert ac[k] == d[k];
      AllocationMetricsLabels("data", al.data, |Layouts|);
      assert CategoryMetric(d[k], "data");
    } else if k < |d| + |md| {
      assert ac[k] == md[k - |d|];
      AllocationMetricsLabels("metadata", al.metadata, |Layouts|);
      assert CategoryMetric(md[k - |d|], "metadata");
    } else {
      assert ac[k] == sy[k - |d| - |md|];
      AllocationMetricsLabels("system", al.system, |Layouts|);
      assert CategoryMetric(sy[k - |d| - |md|], "system");
    }
  }

  /**
   * The list starts with device_count (the number of devices) and
   * global_rsv_size_bytes, neither with extra labels, and holds
   * 2 + |devices| + the three category counts metrics in all.
   */
  lemma MetricListShape(s: Stats, order: seq<string>)
    requires IsEnumeration(order, s.devices)
    ensures |MetricList(s, order)| == MetricCount(s)
    ensures MetricList(s, order)[0].name == "device_count"
    ensures MetricList(s, order)[0].value == Count(|s.devices|)
    ensures MetricList(s, order)[1].name == "global_rsv_size_bytes"
    ensures MetricList(s, order)[1].value == Bytes(s.allocation.globalRsvSize)
    ensures MetricList(s, order)[0].extraLabel == MetricList(s, order)[0].extraLabelValue == []
    ensures MetricList(s, order)[1].extraLabel == MetricList(s, order)[1].extraLabelValue == []
  {
    EnumerationSize(order, s.devices);
    MetricListAt(s, order, 0);
    MetricListAt(s, order, 1);
  }

  /** Every metric's extra label names and values line up. */
  lemma MetricListWellFormed(s: Stats, order: seq<string>)
    requires forall n <- order :: n in s.devices
    ensures forall m <- MetricList(s, order) :: WellFormed(m)
  {
    var ml := MetricList(s, order);
    forall i | 0 <= i < |ml|
      ensures WellFormed(ml[i])
    {
      MetricListAt(s, order, i);
      if 2 + |order| <= i {
        AllCategoriesAt(s.allocation, i - 2 - |order|);
      }
    }
  }

  /**
   * Exactly the positions 2 .. 2 + |devices| hold device_size metrics, and
   * each is the device_size metric of a device of the filesystem.
   */
  lemma MetricListDeviceSlots(s: Stats, order: seq<string>)
    requires IsEnumeration(order, s.devices)
    ensures 2 + |s.devices| <= |MetricList(s, order)|
    ensures forall i :: 0 <= i < |MetricList(s, order)| ==>
      (MetricList(s, order)[i].name == "device_size" <==> 2 <= i < 2 + |s.devices|)
    ensures forall i :: 2 <= i < 2 + |s.devices| ==>
      && |MetricList(s, order)[i].extraLabelValue| == 1
      && MetricList(s, order)[i].extraLabelValue[0] in s.devices
      && MetricList(s, order)[i] == DeviceMetric(MetricList(s, order)[i].extraLabelValue[0],
                                                 s.devices[MetricList(s, order)[i].extraLabelValue[0]])
  {
    var ml := MetricList(s, order);
    EnumerationSize(order, s.devices);
    forall i | 0 <= i < |ml|
      ensures ml[i].name == "device_size" <==> 2 <= i < 2 + |order|
      ensures 2 <= i < 2 + |order| ==> ml[i] == DeviceMetric(order[i - 2], s.devices[order[i - 2]])
    {
      MetricListSlot(s, order, i);
    }
  }

  /** Position i holds a device_size metric exactly when it lies in the device block. */
  lemma MetricListSlot(s: Stats, order: seq<string>, i: nat)
    requires forall n <- order :: n in s.devices
    requires i < |MetricList(s, order)|
    ensures MetricList(s, order)[i].name == "device_size" <==> 2 <= i < 2 + |order|
    ensures 2 <= i < 2 + |order| ==>
      MetricList(s, order)[i] == DeviceMetric(order[i - 2], s.devices[order[i - 2]])
  {
    MetricListAt(s, order, i);
    if 2 + |order| <= i {
      AllCategoriesAt(s.allocation, i - 2 - |order|);
    }
  }

  /** Every device of the filesystem has its device_size metric in the list. */
  lemma MetricListEveryDevice(s: Stats, order: seq<string>)
    requires IsEnumeration(order, s.devices)
    ensures 2 + |s.devices| <= |MetricList(s, order)|
    ensures forall n :: n in s.devices ==>
      exists i :: 2 <= i < 2 + |s.devices| && MetricList(s, order)[i] == DeviceMetric(n, s.devices[n])
  {
    var ml := MetricList(s, order);
    EnumerationSize(order, s.devices);
    forall n | n in s.devices
      ensures exists i :: 2 <= i < 2 + |s.devices| && ml[i] == DeviceMetric(n, s.devices[n])
    {
      var p :| 0 <= p < |order| && order[p] == n;
      MetricListAt(s, order, p + 2);
    }
  }

  /** No two device_size metrics name the same device. */
  lemma MetricListDevicesDistinct(s: Stats, order: seq<string>)
    requires IsEnumeration(order, s.devices)
    ensures 2 + |s.devices| <= |MetricList(s, order)|
    ensures forall i, j :: 2 <= i < j < 2 + |s.devices| ==>
      MetricList(s, order)[i].extraLabelValue != MetricList(s, order)[j].extraLabelValue
  {
    var ml := MetricList(s, order);
    EnumerationSize(order, s.devices);
    forall i, j | 2 <= i < j < 2 + |s.devices|
      ensures ml[i].extraLabelValue != ml[j].extraLabelValue
    {
      MetricListAt(s, order, i);
      MetricListAt(s, order, j);
      assert ml[i].extraLabelValue[0] == order[i - 2];
      assert ml[j].extraLabelValue[0] == order[j - 2];
    }
  }

  /**
   * After the device block come the categories: the first metric there is
   * data's reserved_bytes, every one is labelled type = its category, and
   * the categories follow the order data, metadata, system.
   */
  lemma MetricListCategories(s: Stats, order: seq<string>)
    requires IsEnumeration(order, s.devices)
    ensures 2 + |s.devices| < |MetricList(s, order)|
    ensures MetricList(s, order)[2 + |s.devices|] == ReservedMetric("data", s.allocation.data)
    ensures forall i :: 2 + |s.devices| <= i < |MetricList(s, order)| ==> CategoryPart(MetricList(s, order)[i])
    ensures forall i, j :: 2 + |s.devices| <= i < j < |MetricList(s, order)| ==>
      CategoryRank(MetricList(s, order)[i]) <= CategoryRank(MetricList(s, order)[j])
  {
    var ml := MetricList(s, order);
    var base := 2 + |s.devices|;
    EnumerationSize(order, s.devices);
    forall i | base <= i < |ml|
      ensures CategoryPart(ml[i]) && CategoryRank(ml[i]) == CategoryRankAt(s.allocation, i - base)
      ensures i == base ==> ml[i] == ReservedMetric("data", s.allocation.data)
    {
      MetricListAt(s, order, i);
      AllCategoriesAt(s.allocation, i - base);
    }
  }

  /** Appending to a list one piece at a time builds the same list as appending the pieces joined. */
  lemma AppendAssoc(a: seq<BtrfsMetric>, b: seq<BtrfsMetric>, c: seq<BtrfsMetric>)
    ensures a + b + c == a + (b + c)
  {
  }

  /** The list-building half of updateBtrfsStats; the device map is visited in an unspecified order. */
  method CollectMetrics(s: Stats) returns (metrics: seq<BtrfsMetric>, ghost order: seq<string>)
    ensures IsEnumeration(order, s.devices)
    ensures metrics == MetricList(s, order)
  {
    metrics := HeaderMetrics(s);
    order := [];
    var remaining := s.devices.Keys;
    while remaining != {}
      invariant remaining <= s.devices.Keys
      invariant Distinct(order)
      invariant forall n :: n in order <==> n in s.devices && n !in remaining
      invariant metrics == HeaderMetrics(s) + DeviceBlock(s.devices, order)
      decreases remaining
    {
      var n :| n in remaining;
      DeviceBlockSnoc(s.devices, order, n);
      AppendAssoc(HeaderMetrics(s), DeviceBlock(s.devices, order), [DeviceMetric(n, s.devices[n])]);
      metrics := metrics + [DeviceMetric(n, s.devices[n])];
      order := order + [n];
      remaining := remaining - {n};
    }
    var data := GetAllocationStats("data", s.allocation.data);
    var metadata := GetAllocationStats("metadata", s.allocation.metadata);
    var system := GetAllocationStats("system", s.allocation.system);
    AppendAssoc(metrics, data, metadata);
    AppendAssoc(metrics, data + metadata, system);
    metrics := metrics + data;
    metrics := metrics + metadata;
    metrics := metrics + system;
  }

  // ---------------------------------------------------------------------
  // Device order: a Go map is visited in an unspecified order
  // ---------------------------------------------------------------------

  lemma {:induction false} DeviceBlockAppend(devices: map<string, Device>, o1: seq<string>, o2: seq<string>)
    requires forall n <- o1 :: n in devices
    requires forall n <- o2 :: n in devices
    ensures DeviceBlock(devices, o1 + o2) == DeviceBlock(devices, o1) + DeviceBlock(devices, o2)
  {
    var both := o1 + o2;
    DeviceBlockAt(devices, o1);
    DeviceBlockAt(devices, o2);
    DeviceBlockAt(devices, both);
    forall i | 0 <= i < |both|
      ensures DeviceBlock(devices, both)[i] == (DeviceBlock(devices, o1) + DeviceBlock(devices, o2))[i]
    {
      if i >= |o1| {
        assert both[i] == o2[i - |o1|];
      }
    }
  }

  lemma {:induction false} DistinctOccurrences(order: seq<string>, n: string)
    requires Distinct(order)
    ensures multiset(order)[n] == if n in order then 1 else 0
  {
    if order != [] {
      var init := order[..|order| - 1];
      var last := order[|order| - 1];
      assert order == init + [last];
      assert Distinct(init);
      DistinctOccurrences(init, n);
      assert last !in init;
      assert n in order <==> n in init || n == last;
    }
  }

  /** Two enumerations of the same device map list the same names. */
  lemma EnumerationsSameMultiset(o1: seq<string>, o2: seq<string>, devices: map<string, Device>)
    requires IsEnumeration(o1, devices) && IsEnumeration(o2, devices)
    ensures multiset(o1) == multiset(o2)
  {
    forall n
      ensures multiset(o1)[n] == multiset(o2)[n]
    {
      DistinctOccurrences(o1, n);
      DistinctOccurrences(o2, n);
    }
  }

  /** Removing one occurrence of x from a list that has it at position k. */
  lemma RemoveAt(o: seq<string>, k: nat)
    requires k < |o|
    ensures o == o[..k] + [o[k]] + o[k + 1..]
    ensures multiset(o) == multiset(o[..k] + o[k + 1..]) + multiset{o[k]}
  {
    assert o == o[..k] + [o[k]] + o[k + 1..];
  }

  lemma MultisetCancel(a: multiset<string>, b: multiset<string>, x: string)
    requires a + multiset{x} == b + multiset{x}
    ensures a == b
  {
    forall y
      ensures a[y] == b[y]
    {
      assert (a + multiset{x})[y] == (b + multiset{x})[y];
    }
  }

  /** Taking the k-th name out of an order takes its device_size metric out of the block. */
  lemma DeviceBlockRemoveAt(devices: map<string, Device>, o: seq<string>, k: nat)
    requires forall n <- o :: n in devices
    requires k < |o|
    ensures multiset(DeviceBlock(devices, o))
            == multiset(DeviceBlock(devices, o[..k] + o[k + 1..])) + multiset{DeviceMetric(o[k], devices[o[k]])}
  {
    var left, right := o[..k], o[k + 1..];
    RemoveAt(o, k);
    DeviceBlockSnoc(devices, left, o[k]);
    DeviceBlockAppend(devices, left + [o[k]], right);
    DeviceBlockAppend(devices, left, right);
  }

  /** Orders listing the same names name the same devices. */
  lemma SameNamesInDevices(devices: map<string, Device>, o1: seq<string>, o2: seq<string>)
    requires forall n <- o1 :: n in devices
    requires multiset(o1) == multiset(o2)
    ensures forall n <- o2 :: n in devices
  {
    forall n <- o2
      ensures n in devices
    {
      assert n in multiset(o2);
    }
  }

  /** Taking the last name of o1 out of both orders leaves two orders that still list the same names. */
  lemma RemoveLastMatching(o1: seq<string>, o2: seq<string>) returns (k: nat)
    requires o1 != [] && multiset(o1) == multiset(o2)
    ensures k < |o2| && o2[k] == o1[|o1| - 1]
    ensures multiset(o1[..|o1| - 1]) == multiset(o2[..k] + o2[k + 1..])
  {
    var last := o1[|o1| - 1];
    RemoveAt(o1, |o1| - 1);
    assert o1[..|o1| - 1] + o1[|o1|..] == o1[..|o1| - 1];
    assert last in multiset(o2);
    k :| 0 <= k < |o2| && o2[k] == last;
    RemoveAt(o2, k);
    MultisetCancel(multiset(o1[..|o1| - 1]), multiset(o2[..k] + o2[k + 1..]), last);
  }

  /** Device blocks built from orders listing the same names are permutations of each other. */
  lemma {:induction false} DeviceBlockPermutes(devices: map<string, Device>, o1: seq<string>, o2: seq<string>)
    requires forall n <- o1 :: n in devices
    requires multiset(o1) == multiset(o2)
    ensures forall n <- o2 :: n in devices
    ensures multiset(DeviceBlock(devices, o1)) == multiset(DeviceBlock(devices, o2))
    decreases |o1|
  {
    SameNamesInDevices(devices, o1, o2);
    if o1 != [] {
      var k := RemoveLastMatching(o1, o2);
      var init := o1[..|o1| - 1];
      assert init == o1[..|o1| - 1] + o1[|o1|..];
      DeviceBlockPermutes(devices, init, o2[..k] + o2[k + 1..]);
      DeviceBlockRemoveAt(devices, o1, |o1| - 1);
      DeviceBlockRemoveAt(devices, o2, k);
    }
  }

  /** A list joined from three pieces, cut back into them. */
  lemma ConcatParts(h: seq<BtrfsMetric>, d: seq<BtrfsMetric>, c: seq<BtrfsMetric>)
    ensures (h + d + c)[..|h|] == h
    ensures (h + d + c)[|h| + |d|..] == c
    ensures multiset(h + d + c) == multiset(h) + multiset(d) + multiset(c)
  {
    assert (h + d + c)[..|h|] == h;
    assert (h + d + c)[|h| + |d|..] == c;
  }

  /** The list cut at the device block, and its multiset, piece by piece. */
  lemma MetricListParts(s: Stats, order: seq<string>)
    requires forall n <- order :: n in s.devices
    ensures MetricList(s, order)[..2] == HeaderMetrics(s)
    ensures MetricList(s, order)[2 + |order|..] == AllCategories(s.allocation)
    ensures multiset(MetricList(s, order))
            == multiset(HeaderMetrics(s)) + multiset(DeviceBlock(s.devices, order)) + multiset(AllCategories(s.allocation))
  {
    var h, d, c := HeaderMetrics(s), DeviceBlock(s.devices, order), AllCategories(s.allocation);
    assert MetricList(s, order) == h + d + c;
    assert |h| == 2 && |d| == |order|;
    ConcatParts(h, d, c);
  }

  /**
   * Flattening the same filesystem twice may order the device_size metrics
   * differently, and nothing else: the two lists agree outside the device
   * block and are permutations of each other.
   */
  lemma DeviceOrderPermutes(s: Stats, o1: seq<string>, o2: seq<string>)
    requires IsEnumeration(o1, s.devices) && IsEnumeration(o2, s.devices)
    ensures |MetricList(s, o1)| == |MetricList(s, o2)| == MetricCount(s)
    ensures MetricList(s, o1)[..2] == MetricList(s, o2)[..2]
    ensures MetricList(s, o1)[2 + |s.devices|..] == MetricList(s, o2)[2 + |s.devices|..]
    ensures multiset(MetricList(s, o1)) == multiset(MetricList(s, o2))
  {
    MetricListShape(s, o1);
    MetricListShape(s, o2);
    EnumerationSize(o1, s.devices);
    EnumerationSize(o2, s.devices);
    EnumerationsSameMultiset(o1, o2, s.devices);
    DeviceBlockPermutes(s.devices, o1, o2);
    MetricListParts(s, o1);
    MetricListParts(s, o2);
  }

  // ---------------------------------------------------------------------
  // Emission (updateBtrfsStats, second loop) and Update
  // ---------------------------------------------------------------------

  /** The kinds of a Prometheus metric value. */
  datatype ValueType = CounterValue | GaugeValue | UntypedValue

  /**
   * One metric sent on the channel: its description (subsystem, name, help
   * text, label names), its kind, its label values and its value.
   */
  datatype Emission = Emission(
    subsystem: string,
    name: string,
    help: string,
    labelNames: seq<string>,
    kind: ValueType,
    labelValues: seq<string>,
    value: Value)

  const Subsystem: string := "btrfs"
  const DevLabels: seq<string> := ["label", "uuid"]

  /** The emission of metric m of filesystem s. */
  function Bind(s: Stats, m: BtrfsMetric): Emission {
    Emission(Subsystem, m.name, m.desc, DevLabels + m.extraLabel, GaugeValue,
             [s.fsLabel, s.uuid] + m.extraLabelValue, m.value)
  }

  /** The emissions of the metrics ms of filesystem s, in order. */
  function Emissions(s: Stats, ms: seq<BtrfsMetric>): (r: seq<Emission>)
    ensures |r| == |ms|
  {
    if ms == [] then [] else Emissions(s, ms[..|ms| - 1]) + [Bind(s, ms[|ms| - 1])]
  }

  /** e is a btrfs gauge whose label names, ["label", "uuid"] first, line up with its values, s's label and UUID first. */
  ghost predicate BoundTo(e: Emission, s: Stats) {
    && e.subsystem == Subsystem && e.kind == GaugeValue
    && |e.labelNames| == |e.labelValues| >= 2
    && e.labelNames[..2] == DevLabels
    && e.labelValues[..2] == [s.fsLabel, s.uuid]
  }

  /** The i-th emission is the i-th metric bound to the filesystem. */
  lemma {:induction false} EmissionsAt(s: Stats, ms: seq<BtrfsMetric>)
    ensures forall i :: 0 <= i < |ms| ==> Emissions(s, ms)[i] == Bind(s, ms[i])
  {
    if ms != [] {
      var init := ms[..|ms| - 1];
      EmissionsAt(s, init);
      forall i | 0 <= i < |ms|
        ensures Emissions(s, ms)[i] == Bind(s, ms[i])
      {
        if i < |init| {
          assert ms[i] == init[i];
        }
      }
    }
  }

  /** Binding a well-formed metric gives an emission whose labels line up. */
  lemma BindWellFormed(s: Stats, m: BtrfsMetric)
    requires WellFormed(m)
    ensures BoundTo(Bind(s, m), s)
  {
    assert (DevLabels + m.extraLabel)[..2] == DevLabels;
    assert ([s.fsLabel, s.uuid] + m.extraLabelValue)[..2] == [s.fsLabel, s.uuid];
  }

  /**
   * Every emission of a filesystem is a gauge of the btrfs subsystem whose
   * label names ["label", "uuid"] + extra line up with its label values,
   * the first two of which are the filesystem's label and UUID.
   */
  lemma EmissionsLabelled(s: Stats, order: seq<string>)
    requires forall n <- order :: n in s.devices
    ensures forall e <- Emissions(s, MetricList(s, order)) :: BoundTo(e, s)
  {
    var ml := MetricList(s, order);
    MetricListWellFormed(s, order);
    EmissionsAt(s, ml);
    forall i | 0 <= i < |ml|
      ensures BoundTo(Emissions(s, ml)[i], s)
    {
      BindWellFormed(s, ml[i]);
    }
  }

  /** Sending one more metric appends its emission. */
  lemma EmissionsSnoc(s: Stats, ms: seq<BtrfsMetric>, m: BtrfsMetric)
    ensures Emissions(s, ms + [m]) == Emissions(s, ms) + [Bind(s, m)]
  {
    assert (ms + [m])[..|ms|] == ms;
  }

  /**
   * The sending loop of updateBtrfsStats: each metric of ms, in order, bound
   * to the base labels ["label", "uuid"] and the filesystem's label and UUID.
   */
  method EmitMetrics(s: Stats, ms: seq<BtrfsMetric>) returns (sent: seq<Emission>)
    requires forall m <- ms :: WellFormed(m)
    ensures sent == Emissions(s, ms)
  {
    sent := [];
    for i := 0 to |ms|
      invariant sent == Emissions(s, ms[..i])
    {
      var m := ms[i];
      var labels := DevLabels + m.extraLabel;
      var labelValues := [s.fsLabel, s.uuid];
      if |m.extraLabelValue| > 0 {
        labelValues := labelValues + m.extraLabelValue;
      }
      assert labelValues == [s.fsLabel, s.uuid] + m.extraLabelValue;
      // The metric constructor panics when the label counts differ; they never do.
      assert m in ms;
      assert |labels| == |labelValues|;
      EmissionsSnoc(s, ms[..i], m);
      assert ms[..i + 1] == ms[..i] + [m];
      sent := sent + [Emission(Subsystem, m.name, m.desc, labels, GaugeValue, labelValues, m.value)];
    }
    assert ms[..|ms|] == ms;
  }

  /**
   * updateBtrfsStats: builds the metric list of s and sends each metric,
   * bound to the base labels, in list order.
   */
  method UpdateBtrfsStats(s: Stats) returns (sent: seq<Emission>, ghost order: seq<string>)
    ensures IsEnumeration(order, s.devices)
    ensures sent == Emissions(s, MetricList(s, order))
    ensures |sent| == MetricCount(s)
    ensures forall e <- sent :: BoundTo(e, s)
  {
    var metrics;
    metrics, order := CollectMetrics(s);
    MetricListWellFormed(s, order);
    sent := EmitMetrics(s, metrics);
    MetricListShape(s, order);
    EmissionsLabelled(s, order);
  }

  /** The device orders orders[i] enumerate the device maps of stats[i]. */
  ghost predicate Enumerates(stats: seq<Stats>, orders: seq<seq<string>>) {
    && |orders| == |stats|
    && forall i :: 0 <= i < |stats| ==> IsEnumeration(orders[i], stats[i].devices)
  }

  /** The emissions of all filesystems, one after another in slice order. */
  function AllEmissions(stats: seq<Stats>, orders: seq<seq<string>>): seq<Emission>
    requires Enumerates(stats, orders)
  {
    if stats == [] then []
    else
      var k := |stats| - 1;
      assert Enumerates(stats[..k], orders[..k]);
      AllEmissions(stats[..k], orders[..k]) + Emissions(stats[k], MetricList(stats[k], orders[k]))
  }

  /** The number of metrics all filesystems contribute. */
  function TotalCount(stats: seq<Stats>): nat {
    if stats == [] then 0 else TotalCount(stats[..|stats| - 1]) + MetricCount(stats[|stats| - 1])
  }

  /** Flattening the i-th filesystem appends its emissions to those of the ones before it. */
  lemma AllEmissionsNext(stats: seq<Stats>, orders: seq<seq<string>>, i: nat, order: seq<string>)
    requires i < |stats|
    requires Enumerates(stats[..i], orders) && IsEnumeration(order, stats[i].devices)
    ensures Enumerates(stats[..i + 1], orders + [order])
    ensures AllEmissions(stats[..i + 1], orders + [order])
            == AllEmissions(stats[..i], orders) + Emissions(stats[i], MetricList(stats[i], order))
  {
    assert stats[..i + 1][..i] == stats[..i];
    assert (orders + [order])[..i] == orders;
  }

  /** One scrape emits the sum over the filesystems of their metric counts. */
  lemma {:induction false} AllEmissionsLength(stats: seq<Stats>, orders: seq<seq<string>>)
    requires Enumerates(stats, orders)
    ensures |AllEmissions(stats, orders)| == TotalCount(stats)
  {
    if stats != [] {
      var k := |stats| - 1;
      assert Enumerates(stats[..k], orders[..k]);
      AllEmissionsLength(stats[..k], orders[..k]);
      MetricListShape(stats[k], orders[k]);
    }
  }

  /**
   * Every emission of a scrape is bound to one of the filesystems: its
   * label names and values line up, and its first two values are that
   * filesystem's label and UUID.
   */
  lemma {:induction false} AllEmissionsLabelled(stats: seq<Stats>, orders: seq<seq<string>>)
    requires Enumerates(stats, orders)
    ensures forall e <- AllEmissions(stats, orders) :: exists s <- stats :: BoundTo(e, s)
  {
    if stats != [] {
      var k := |stats| - 1;
      assert Enumerates(stats[..k], orders[..k]);
      AllEmissionsLabelled(stats[..k], orders[..k]);
      EmissionsLabelled(stats[k], orders[k]);
      var prev := AllEmissions(stats[..k], orders[..k]);
      var last := Emissions(stats[k], MetricList(stats[k], orders[k]));
      assert AllEmissions(stats, orders) == prev + last;
      forall e <- prev + last
        ensures exists s <- stats :: BoundTo(e, s)
      {
        if e in prev {
          var s :| s in stats[..k] && BoundTo(e, s);
          assert s in stats;
        } else {
          assert e in last;
          assert stats[k] in stats;
        }
      }
    }
  }

  /** The outcome of one scrape: an error, or everything sent on the channel. */
  datatype UpdateResult = Failed(msg: string) | Sent(emitted: seq<Emission>)

  /**
   * Update: a stats read error is returned wrapped and nothing is sent;
   * otherwise every filesystem is flattened and sent, in slice order.
   */
  method Update(res: StatsResult) returns (r: UpdateResult, ghost orders: seq<seq<string>>)
    ensures res.StatsError? ==> r == Failed("failed to retrieve Btrfs stats: " + res.err)
    ensures res.StatsOk? ==>
      && Enumerates(res.stats, orders)
      && r == Sent(AllEmissions(res.stats, orders))
      && |r.emitted| == TotalCount(res.stats)
  {
    orders := [];
    if res.StatsError? {
      return Failed("failed to retrieve Btrfs stats: " + res.err), orders;
    }
    var stats := res.stats;
    var emitted := [];
    for i := 0 to |stats|
      invariant Enumerates(stats[..i], orders)
      invariant emitted == AllEmissions(stats[..i], orders)
    {
      var sent;
      ghost var order;
      sent, order := UpdateBtrfsStats(stats[i]);
      AllEmissionsNext(stats, orders, i, order);
      orders := orders + [order];
      emitted := emitted + sent;
    }
    assert stats[..|stats|] == stats;
    AllEmissionsLength(stats, orders);
    r := Sent(emitted);
  }

  // ---------------------------------------------------------------------
  // A worked example
  // ---------------------------------------------------------------------

  /** A category that has allocated in no layout. */
  function EmptyCategory(reserved: U64): AllocationStats {
    AllocationStats(reserved, None, None, None, None, None, None, None)
  }

  /** One device sda, data allocated only in the single layout, metadata and system in none. */
  function ExampleStats(): Stats {
    Stats("0e3a", "home",
          Allocation(4096,
                     EmptyCategory(0).(single := Some(LayoutUsage(256, 1024, Float64(0x3FD0_0000_0000_0000)))),
                     EmptyCategory(0),
                     EmptyCategory(0)),
          map["sda" := Device(0x4000_0000)])
  }

  /** The example's data category contributes four metrics, an empty category one. */
  lemma ExampleCategoryCounts()
    ensures CategoryCount(ExampleStats().allocation.data) == 4
    ensures CategoryCount(EmptyCategory(0)) == 1
  {
    var data, none := ExampleStats().allocation.data, EmptyCategory(0);
    assert Present(data, 1) == 1 && Present(none, 1) == 0;
    assert Present(data, 2) == 1 && Present(none, 2) == 0;
    assert Present(data, 3) == 1 && Present(none, 3) == 0;
    assert Present(data, 4) == 1 && Present(none, 4) == 0;
    assert Present(data, 5) == 1 && Present(none, 5) == 0;
    assert Present(data, 6) == 1 && Present(none, 6) == 0;
  }

  /**
   * The example filesystem yields nine metrics: device_count,
   * global_rsv_size_bytes, sda's device_size, data's reserved_bytes and
   * its three single-layout metrics, then the reserved_bytes of metadata
   * and of system.
   */
  lemma ExampleNineMetrics(order: seq<string>)
    requires IsEnumeration(order, ExampleStats().devices)
    ensures order == ["sda"]
    ensures MetricCount(ExampleStats()) == 9
    ensures MetricList(ExampleStats(), order)[0].value == Count(1)
    ensures MetricList(ExampleStats(), order)[2] == DeviceMetric("sda", Device(0x4000_0000))
    ensures MetricList(ExampleStats(), order)[3] == ReservedMetric("data", ExampleStats().allocation.data)
    ensures MetricList(ExampleStats(), order)[4].name == "used_bytes"
    ensures MetricList(ExampleStats(), order)[4].extraLabelValue == ["data", "single"]
  {
    var s := ExampleStats();
    var data := s.allocation.data;
    EnumerationSize(order, s.devices);
    assert order[0] in s.devices;
    ExampleCategoryCounts();
    MetricListShape(s, order);
    MetricListSlot(s, order, 2);
    MetricListCategories(s, order);
    MetricListAt(s, order, 4);
    PresentLayoutEmitted("data", data, Single);
  }
}
