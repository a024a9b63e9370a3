/**
 * The statistics the btrfs collector consumes: one record per mounted btrfs
 * filesystem, as the procfs btrfs package reports it from sysfs. Only the
 * fields the collector reads are kept.
 */
module BtrfsStats {

  /** Go's uint64, the type of every byte count the package reports. */
  type U64 = x: nat | x < 0x1_0000_0000_0000_0000

  /** A Go float64, kept as its IEEE 754 bit pattern: the collector only passes it on. */
  datatype Float64 = Float64(bits: bv64)

  /** A Go pointer that may be nil. */
  datatype Option<+T> = None | Some(value: T)

  /** The space one redundancy layout uses within an allocation category. */
  datatype LayoutUsage = LayoutUsage(usedBytes: U64, totalBytes: U64, ratio: Float64)

  /** The seven redundancy layouts the package reports. */
  datatype Layout = Single | Dup | Raid0 | Raid1 | Raid5 | Raid6 | Raid10

  /**
   * One allocation category (data, metadata or system). A layout the
   * filesystem never allocated in is None.
   */
  datatype AllocationStats = AllocationStats(
    reservedBytes: U64,
    single: Option<LayoutUsage>,
    dup: Option<LayoutUsage>,
    raid0: Option<LayoutUsage>,
    raid1: Option<LayoutUsage>,
    raid5: Option<LayoutUsage>,
    raid6: Option<LayoutUsage>,
    raid10: Option<LayoutUsage>)
  {
    /** The usage record of layout l, by the layout's tag instead of its field. */
    function Usage(l: Layout): Option<LayoutUsage> {
      match l
      case Single => single
      case Dup => dup
      case Raid0 => raid0
      case Raid1 => raid1
      case Raid5 => raid5
      case Raid6 => raid6
      case Raid10 => raid10
    }
  }

  datatype Allocation = Allocation(
    globalRsvSize: U64,
    data: AllocationStats,
    metadata: AllocationStats,
    system: AllocationStats)

  datatype Device = Device(size: U64)

  /** One filesystem; devices is keyed by device name, as the package's Go map is. */
  datatype Stats = Stats(
    uuid: string,
    fsLabel: string,
    allocation: Allocation,
    devices: map<string, Device>)

  /** What the package's Stats call returns: a read error, or one record per filesystem. */
  datatype StatsResult = StatsError(err: string) | StatsOk(stats: seq<Stats>)
}
