# btrfs collector: statistics flattening

A Dafny model of the btrfs collector of the Prometheus node exporter
(`collector/btrfs_linux.go`). For each mounted btrfs filesystem, the collector
takes the statistics snapshot the procfs btrfs package reports and flattens it
into a list of metric records. It then sends each record as a gauge labelled
with the filesystem's label and UUID.

The model has two modules:

- `BtrfsStats` (`btrfs_stats.dfy`) holds the input records: a filesystem's UUID, its
  label, its allocation (global reserve size plus the data, metadata and system
  categories, each with a reserved-bytes count and seven optional layout
  records), and its device map. A Go `uint64` is the subset type `U64`. A
  `float64` is kept as its bit pattern, because the collector only passes it on.
- `BtrfsCollector` (`btrfs_collector.dfy`) covers the following:
  - the `btrfsMetric` record;
  - `getLayoutStats` (a function);
  - `getAllocationStats` (a method, proved against the function `CategoryMetrics`);
  - both loops of `updateBtrfsStats`: `CollectMetrics` builds the list and
    `EmitMetrics` sends it, and `UpdateBtrfsStats` runs the two in sequence;
  - `Update`, with its loop over the snapshots.

The device loop ranges over a Go map, so Go fixes no visit order. `CollectMetrics`
picks the next device with a such-that choice and reports the order it took as a
ghost result. The specification function `MetricList(s, order)` describes the list
for any such order, and every property of the list is proved for every enumeration
of the device map. `DeviceOrderPermutes` shows that two different orders give lists
that:

- agree outside the device block;
- are permutations of each other.

Sending on the channel is modelled as returning the sequence of sent
`Emission` records. Each record holds the subsystem, the name, the help text, the
label names, the value kind, the label values and the value.

## Model

| member | source | states |
|---|---|---|
| BtrfsCollector.LayoutName | collector/btrfs_linux.go:140-146 | Builds the mode label value of each layout: "single", "dup", "raid0", "raid1", "raid5", "raid6", "raid10". |
| BtrfsCollector.GetLayoutStats | collector/btrfs_linux.go:151-179 | The result is empty exactly when the layout record is nil. Otherwise it holds three metrics in the order used_bytes, total_bytes, ratio. Their values are the record's UsedBytes, TotalBytes and Ratio. Each has extra labels ["type","mode"] with values [a, l]. |
| BtrfsCollector.ParseLayout | collector/btrfs_linux.go:140-146 | A mode label value that parses names the layout whose mode string it is. |
| BtrfsCollector.LayoutNameRoundTrip | collector/btrfs_linux.go:140-146 | The seven mode strings are distinct: parsing a layout's mode string gives back that layout. |
| BtrfsCollector.ReservedMetric | collector/btrfs_linux.go:130-138 | Builds the reserved_bytes metric of category a: its value is ReservedBytes, with extra label type = a. |
| BtrfsCollector.AllocationMetrics | collector/btrfs_linux.go:129-149 | The category list has length 1 + 3 × (number of present layouts). It starts with the reserved_bytes metric labelled type = a, whose value is ReservedBytes. |
| BtrfsCollector.CategoryMetrics | collector/btrfs_linux.go:129-149 | Builds the whole list of category a: AllocationMetrics over all seven layouts. |
| BtrfsCollector.AllocationMetricsUnrolled | collector/btrfs_linux.go:129-149 | The category list is the reserved_bytes metric followed by the layout blocks of single, dup, raid0, raid1, raid5, raid6, raid10, in that order. |
| BtrfsCollector.GetAllocationStats | collector/btrfs_linux.go:129-149 | The method's seven appends build exactly the category list, with length 1 + 3 × present layouts. |
| BtrfsCollector.AllocationMetricsLabels | collector/btrfs_linux.go:129-179 | Every metric of a category is well formed, is named reserved_bytes, used_bytes, total_bytes or ratio, and is labelled type = a. Every metric after the first carries the mode of a layout present in the record. |
| BtrfsCollector.AllocationMetricsOrdered | collector/btrfs_linux.go:140-146 | Within a category, the layout metrics appear in the order single, dup, raid0, raid1, raid5, raid6, raid10: their layout ranks never decrease along the list. This holds for every prefix of the layout order, and with n = 7 for the whole category. |
| BtrfsCollector.AllocationMetricsAt | collector/btrfs_linux.go:140-146 | Metric j of a present layout sits at position 1 + 3 × (present layouts before it) + j. |
| BtrfsCollector.PresentLayoutEmitted | collector/btrfs_linux.go:140-146 | A present layout's three metrics appear contiguously at that offset, exactly as getLayoutStats returns them. |
| BtrfsCollector.AbsentLayoutSilent | collector/btrfs_linux.go:152-154 | No metric of a category carries the mode of an absent layout. |
| BtrfsCollector.HeaderMetrics | collector/btrfs_linux.go:76-87 | Builds device_count, whose value is the number of devices, and global_rsv_size_bytes, whose value is GlobalRsvSize. Neither has extra labels. |
| BtrfsCollector.DeviceMetric | collector/btrfs_linux.go:90-98 | Builds the device_size metric of device n: its value is the device's Size, with extra label device = n. |
| BtrfsCollector.DeviceBlock | collector/btrfs_linux.go:89-99 | The device block has one metric per visited device name. |
| BtrfsCollector.DeviceBlockAt | collector/btrfs_linux.go:89-99 | The i-th device_size metric is that of the i-th visited device: its value is the device's Size and its device label is the device's name. |
| BtrfsCollector.AllCategories | collector/btrfs_linux.go:101-103 | Builds the category lists of data, metadata and system, joined in that order. |
| BtrfsCollector.MetricList | collector/btrfs_linux.go:76-103 | Builds the list of one snapshot for a given device visit order: the header metrics, then the device block, then all the categories. |
| BtrfsCollector.CollectMetrics | collector/btrfs_linux.go:70-103 | The loop visits every device exactly once. The list it builds is the header metrics, the device block in visit order, then data, metadata and system. |
| BtrfsCollector.EnumerationSize | collector/btrfs_linux.go:89 | Ranging over the device map visits exactly as many names as the map has keys. |
| BtrfsCollector.MetricListAt | collector/btrfs_linux.go:76-103 | Each position of the list holds a header metric, a device metric or a category metric, according to where it falls. |
| BtrfsCollector.MetricListShape | collector/btrfs_linux.go:76-103 | The list has 2 + \|Devices\| + Σ over the three categories of (1 + 3 × present layouts) metrics. It starts with device_count (value = number of devices) and then global_rsv_size_bytes (value = GlobalRsvSize), neither with extra labels. |
| BtrfsCollector.MetricListSlot | collector/btrfs_linux.go:89-103 | Position i holds a device_size metric exactly when it lies in the device block, and that metric is the visited device's metric. |
| BtrfsCollector.MetricListDeviceSlots | collector/btrfs_linux.go:89-103 | Exactly positions 2 .. 2+\|Devices\| are named device_size. Each of them has one extra label value, which is a device of the map, and the metric is that device's size metric. |
| BtrfsCollector.MetricListEveryDevice | collector/btrfs_linux.go:89-99 | Every device of the map has its device_size metric in the device block. |
| BtrfsCollector.MetricListDevicesDistinct | collector/btrfs_linux.go:89-99 | No two device_size metrics name the same device. |
| BtrfsCollector.AllCategoriesAt | collector/btrfs_linux.go:101-103 | Each metric after the device block belongs to the category its position says: data, then metadata, then system. |
| BtrfsCollector.MetricListCategories | collector/btrfs_linux.go:101-103 | After the device block comes data's reserved_bytes metric. Every later metric is a category metric labelled with its type, and the types run data, metadata, system without going back. |
| BtrfsCollector.MetricListWellFormed | collector/btrfs_linux.go:76-103 | Every metric of the list has as many extra label values as extra label names. |
| BtrfsCollector.DeviceBlockPermutes | collector/btrfs_linux.go:89-99 | Two enumerations of the same device map give device blocks that are permutations of each other. |
| BtrfsCollector.MetricListParts | collector/btrfs_linux.go:76-103 | The list splits into the header, the device block and the categories, both as slices and as multisets. |
| BtrfsCollector.DeviceOrderPermutes | collector/btrfs_linux.go:89-103 | Flattening the same snapshot under two map visit orders gives lists that have the same length, agree outside the device block and are permutations of each other. |
| BtrfsCollector.Bind | collector/btrfs_linux.go:106-125 | Builds the emission of one metric of snapshot s. It is a btrfs gauge named after the metric, carrying the metric's help text and value. Its label names are ["label","uuid"] + extraLabel and its label values are [Label, UUID] + extraLabelValue. |
| BtrfsCollector.Emissions | collector/btrfs_linux.go:105-126 | The loop sends one emission per metric. |
| BtrfsCollector.EmissionsAt | collector/btrfs_linux.go:105-126 | The i-th emission is the i-th metric bound to the label names ["label","uuid"] + extraLabel and the values [Label, UUID] + extraLabelValue. |
| BtrfsCollector.BindWellFormed | collector/btrfs_linux.go:106-118 | For a metric whose extra labels line up, the emission's label names and values line up. The first two names are label and uuid, and the first two values are the snapshot's Label and UUID. |
| BtrfsCollector.EmissionsLabelled | collector/btrfs_linux.go:105-126 | Every emission of a snapshot is a btrfs gauge whose label names and values line up. The first two values are the snapshot's Label and UUID. |
| BtrfsCollector.EmitMetrics | collector/btrfs_linux.go:105-126 | The sending loop, with its conditional append of the extra label values, sends exactly the bound metrics in order. The label-count check in MustNewConstMetric never fails. |
| BtrfsCollector.UpdateBtrfsStats | collector/btrfs_linux.go:70-127 | One snapshot sends MetricCount(s) emissions, which are its metric list bound to its labels, in list order. Every emission is bound to the snapshot. |
| BtrfsCollector.AllEmissions | collector/btrfs_linux.go:53-55 | Builds what one successful scrape sends: each snapshot's emissions, in slice order, under the given device visit orders. |
| BtrfsCollector.AllEmissionsLength | collector/btrfs_linux.go:53-55 | A successful scrape sends the sum over the snapshots of their metric counts. |
| BtrfsCollector.AllEmissionsLabelled | collector/btrfs_linux.go:53-55 | Every emission of a scrape is bound to one of the snapshots. |
| BtrfsCollector.Update | collector/btrfs_linux.go:47-58 | A stats error is returned as "failed to retrieve Btrfs stats: " + the error, and nothing is sent. Otherwise the snapshots are flattened and sent in slice order, and the total count is as above. |
| BtrfsCollector.ExampleNineMetrics | collector/btrfs_linux.go:70-179 | A snapshot with one device and only data's single layout allocated gives nine metrics. Position 2 holds the device's size and position 3 data's reserved bytes, followed by used_bytes labelled type = data, mode = single. |

## Left out

- The constructor `NewBtrfsCollector` and the sysfs path it opens are left out, because they are I/O through the procfs library.
- `init` and the collector registration are left out: they are a global side effect at load time.
- The procfs `Stats` call is left out. Its result is the input `StatsResult`: an error, or the snapshots.
- `prometheus.NewDesc`, `BuildFQName` and `MustNewConstMetric` are left out as foreign library calls. An emission is a record of their arguments. The fully qualified name is the subsystem "btrfs" plus the metric name, and the exporter's namespace is not part of this model.
- The channel is left out, because it is a concurrency primitive. Sending is modelled as appending to a returned sequence.
- The `float64(...)` conversions are left out. Values are tagged by the field they come from (`Count`, `Bytes`, `Ratio`), so the precision lost when a `uint64` becomes a `float64` is not modelled.
- The order in which Go ranges over the device map is left out on purpose. The model proves the list's properties for every order, not for a particular one.
- Nil `Allocation`, category or device pointers are not modelled: they would make the Go code panic, and the model's records are always present. Only nil layout records, which the code handles, are modelled as `None`.
- EmitMetrics: requires every metric to have as many extra label values as names. In Go, `MustNewConstMetric` would panic otherwise. MetricListWellFormed proves that every list the collector builds meets this requirement.
- A deterministic device order, and with it a byte-for-byte identical list from one scrape to the next, is not modelled. The code ranges over a Go map, so the device block comes out in whatever order the map is ranged. DeviceOrderPermutes states what does hold across scrapes.
