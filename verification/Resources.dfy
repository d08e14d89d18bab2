/** Validation and defaulting of a container's resource settings, at creation and again at every start. */
module Resources {
  import opened Values

  datatype Settings = Settings(
    memory: int, memorySwap: int, memorySwappiness: Option<int>, memoryReservation: int, kernelMemory: int,
    oomKillDisable: Option<bool>, pidsLimit: int,
    cpuShares: int, cpuPeriod: int, cpuQuota: int, cpuPercent: int, cpusetCpus: string, cpusetMems: string,
    blkioWeight: int, ioMaximumBandwidth: int, ioMaximumIOps: int, weightDevices: seq<string>,
    readBps: seq<string>, writeBps: seq<string>, readIOps: seq<string>, writeIOps: seq<string>)

  /** What the kernel supports. A CPU or memory-node list may be malformed (None) or unavailable (Some(false)). */
  datatype SysInfo = SysInfo(
    memoryLimit: bool, swapLimit: bool, memorySwappiness: bool, memoryReservation: bool, kernelMemory: bool,
    kernelAtLeast4: bool, oomKillDisable: bool, pidsLimit: bool,
    cpuShares: bool, cpuCfsPeriod: bool, cpuCfsQuota: bool, cpuset: bool,
    cpusAvailable: string -> Option<bool>, memsAvailable: string -> Option<bool>,
    blkioWeight: bool, weightDevice: bool,
    readBpsDevice: bool, writeBpsDevice: bool, readIOpsDevice: bool, writeIOpsDevice: bool)

  datatype Warning =
    | NoMemoryLimit | NoSwapLimit | NoSwappiness | NoReservation | NoKernelMemory | OldKernelMemory | NoOomKillDisable
    | NoPidsLimit | NoCPUShares | NoCfsPeriod | NoCfsQuota | NoCPUPercent | OperatingSystem | NoCpuset | NoBlkioWeight
    | NoWeightDevice | NoReadBps | NoWriteBps | NoReadIOps | NoWriteIOps

  const MIN_MEMORY := 4194304
  const MIN_CPU_SHARES := 2
  const MAX_CPU_SHARES := 262144
  const DEFAULT_SHM_SIZE := 67108864

  // ---------------------------------------------------------------------------
  // The outcome, setting by setting

  function Memory(r: Settings, sys: SysInfo): int {
    if sys.memoryLimit then r.memory else 0
  }

  function MemorySwap(r: Settings, sys: SysInfo): int {
    if r.memory > 0 && (!sys.memoryLimit || !sys.swapLimit) then -1 else r.memorySwap
  }

  function Swappiness(r: Settings, sys: SysInfo): Option<int> {
    if r.memorySwappiness.Some? && r.memorySwappiness.value != -1 && !sys.memorySwappiness then None
    else r.memorySwappiness
  }

  /** A limit that the kernel may not support; only positive values count as set. */
  function Limit(value: int, supported: bool): int {
    if value > 0 && !supported then 0 else value
  }

  function Devices(devices: seq<string>, supported: bool): seq<string> {
    if supported then devices else []
  }

  function Note(warnings: seq<Warning>, condition: bool, warning: Warning): seq<Warning> {
    if condition then warnings + [warning] else warnings
  }

  // Memory and processes

  function NormalLimits(r: Settings, sys: SysInfo): Settings {
    r.(memory := Memory(r, sys), memorySwap := MemorySwap(r, sys))
  }

  predicate AcceptsLimits(r: Settings, sys: SysInfo, update: bool) {
    var n := NormalLimits(r, sys);
    && (r.memory == 0 || r.memory >= MIN_MEMORY)
    && (n.memory > 0 && n.memorySwap > 0 ==> n.memorySwap >= n.memory)
    && (n.memory == 0 && n.memorySwap > 0 ==> update)
  }

  function NormalExtras(r: Settings, sys: SysInfo): Settings {
    r.(memorySwappiness := Swappiness(r, sys), memoryReservation := Limit(r.memoryReservation, sys.memoryReservation),
       kernelMemory := Limit(r.kernelMemory, sys.kernelMemory))
  }

  predicate GoodSwappiness(n: Settings) {
    n.memorySwappiness.Some? ==> -1 <= n.memorySwappiness.value <= 100
  }

  predicate GoodReservation(n: Settings) {
    n.memoryReservation > 0 ==> n.memoryReservation >= MIN_MEMORY && (n.memory > 0 ==> n.memory >= n.memoryReservation)
  }

  predicate AcceptsExtras(r: Settings, sys: SysInfo) {
    var n := NormalExtras(r, sys);
    GoodSwappiness(n) && GoodReservation(n) && (n.kernelMemory > 0 ==> n.kernelMemory >= MIN_MEMORY)
  }

  /** What the checks leave behind, also when they end early. */
  function LeftLimits(r: Settings, sys: SysInfo): Settings {
    if r.memory != 0 && r.memory < MIN_MEMORY then r else NormalLimits(r, sys)
  }

  function LeftExtras(r: Settings, sys: SysInfo): Settings {
    var a := r.(memorySwappiness := Swappiness(r, sys));
    var b := a.(memoryReservation := Limit(r.memoryReservation, sys.memoryReservation));
    if !GoodSwappiness(a) then a
    else if !GoodReservation(b) then b
    else b.(kernelMemory := Limit(r.kernelMemory, sys.kernelMemory))
  }

  function NormalProcesses(r: Settings, sys: SysInfo): Settings {
    r.(oomKillDisable := if sys.oomKillDisable then r.oomKillDisable else None,
       pidsLimit := if sys.pidsLimit then r.pidsLimit else 0)
  }

  function WarnLimits(w: seq<Warning>, r: Settings, sys: SysInfo): seq<Warning> {
    var w := Note(w, r.memory > 0 && !sys.memoryLimit, NoMemoryLimit);
    var w := Note(w, r.memory > 0 && sys.memoryLimit && r.memorySwap != -1 && !sys.swapLimit, NoSwapLimit);
    w
  }

  function WarnExtras(w: seq<Warning>, r: Settings, sys: SysInfo): seq<Warning> {
    var w := Note(w, Swappiness(r, sys) != r.memorySwappiness, NoSwappiness);
    var w := Note(w, r.memoryReservation > 0 && !sys.memoryReservation, NoReservation);
    WarnKernelMemory(w, r, sys)
  }

  function WarnKernelMemory(w: seq<Warning>, r: Settings, sys: SysInfo): seq<Warning> {
    var w := Note(w, r.kernelMemory > 0 && !sys.kernelMemory, NoKernelMemory);
    Note(w, r.kernelMemory > 0 && sys.kernelMemory && !sys.kernelAtLeast4, OldKernelMemory)
  }

  function WarnProcesses(w: seq<Warning>, r: Settings, sys: SysInfo): seq<Warning> {
    var w := Note(w, r.oomKillDisable.Some? && r.oomKillDisable.value && !sys.oomKillDisable, NoOomKillDisable);
    Note(w, r.pidsLimit != 0 && !sys.pidsLimit, NoPidsLimit)
  }

  // Processors

  function NormalCPU(r: Settings, sys: SysInfo): Settings {
    r.(cpuShares := Limit(r.cpuShares, sys.cpuShares), cpuPeriod := Limit(r.cpuPeriod, sys.cpuCfsPeriod),
       cpuQuota := Limit(r.cpuQuota, sys.cpuCfsQuota), cpuPercent := if r.cpuPercent > 0 then 0 else r.cpuPercent)
  }

  function NormalCpuset(r: Settings, sys: SysInfo): Settings {
    r.(cpusetCpus := if sys.cpuset then r.cpusetCpus else "", cpusetMems := if sys.cpuset then r.cpusetMems else "")
  }

  predicate GoodPeriod(n: Settings) {
    n.cpuPeriod == 0 || 1000 <= n.cpuPeriod <= 1000000
  }

  predicate GoodQuota(n: Settings) {
    n.cpuQuota > 0 ==> n.cpuQuota >= 1000
  }

  predicate AcceptsCPU(r: Settings, sys: SysInfo) {
    var n := NormalCPU(r, sys);
    GoodPeriod(n) && GoodQuota(n)
  }

  function LeftCPU(r: Settings, sys: SysInfo): Settings {
    var a := r.(cpuShares := Limit(r.cpuShares, sys.cpuShares), cpuPeriod := Limit(r.cpuPeriod, sys.cpuCfsPeriod));
    var b := a.(cpuQuota := Limit(r.cpuQuota, sys.cpuCfsQuota));
    if !GoodPeriod(a) then a else if !GoodQuota(b) then b else NormalCPU(r, sys)
  }

  predicate AcceptsCpuset(r: Settings, sys: SysInfo) {
    var n := NormalCpuset(r, sys);
    sys.cpusAvailable(n.cpusetCpus) == Some(true) && sys.memsAvailable(n.cpusetMems) == Some(true)
  }

  function WarnCPU(w: seq<Warning>, r: Settings, sys: SysInfo): seq<Warning> {
    var w := Note(w, r.cpuShares > 0 && !sys.cpuShares, NoCPUShares);
    var w := Note(w, r.cpuPeriod > 0 && !sys.cpuCfsPeriod, NoCfsPeriod);
    var w := Note(w, r.cpuQuota > 0 && !sys.cpuCfsQuota, NoCfsQuota);
    var w := Note(w, r.cpuPercent > 0, NoCPUPercent);
    var w := Note(w, r.cpuPercent > 0, OperatingSystem);
    w
  }

  function WarnCpuset(w: seq<Warning>, r: Settings, sys: SysInfo): seq<Warning> {
    Note(w, (r.cpusetCpus != "" || r.cpusetMems != "") && !sys.cpuset, NoCpuset)
  }

  // Block devices

  predicate AcceptsWeight(r: Settings, sys: SysInfo) {
    var n := NormalWeight(r, sys);
    (n.blkioWeight > 0 ==> 10 <= n.blkioWeight <= 1000) && r.ioMaximumBandwidth == 0 && r.ioMaximumIOps == 0
  }

  function NormalWeight(r: Settings, sys: SysInfo): Settings {
    r.(blkioWeight := Limit(r.blkioWeight, sys.blkioWeight))
  }

  function NormalDevices(r: Settings, sys: SysInfo): Settings {
    r.(weightDevices := Devices(r.weightDevices, sys.weightDevice),
       readBps := Devices(r.readBps, sys.readBpsDevice), writeBps := Devices(r.writeBps, sys.writeBpsDevice),
       readIOps := Devices(r.readIOps, sys.readIOpsDevice), writeIOps := Devices(r.writeIOps, sys.writeIOpsDevice))
  }

  function WarnDevices(w: seq<Warning>, r: Settings, sys: SysInfo): seq<Warning> {
    var w := Note(w, r.weightDevices != [] && !sys.weightDevice, NoWeightDevice);
    var w := Note(w, r.readBps != [] && !sys.readBpsDevice, NoReadBps);
    var w := Note(w, r.writeBps != [] && !sys.writeBpsDevice, NoWriteBps);
    var w := Note(w, r.readIOps != [] && !sys.readIOpsDevice, NoReadIOps);
    Note(w, r.writeIOps != [] && !sys.writeIOpsDevice, NoWriteIOps)
  }

  // All of it: each group of checks works on what the groups before it left

  function AfterMemory(r: Settings, sys: SysInfo): Settings {
    NormalProcesses(NormalExtras(NormalLimits(r, sys), sys), sys)
  }

  function AfterCPU(r: Settings, sys: SysInfo): Settings {
    NormalCpuset(NormalCPU(r, sys), sys)
  }

  function Normal(r: Settings, sys: SysInfo): Settings {
    NormalDevices(NormalWeight(AfterCPU(AfterMemory(r, sys), sys), sys), sys)
  }

  predicate Accepts(r: Settings, sys: SysInfo, update: bool) {
    var memory := AfterMemory(r, sys);
    && AcceptsLimits(r, sys, update) && AcceptsExtras(NormalLimits(r, sys), sys)
    && AcceptsCPU(memory, sys) && AcceptsCpuset(NormalCPU(memory, sys), sys)
    && AcceptsWeight(AfterCPU(memory, sys), sys)
  }

  /** What validation leaves behind, also when it refuses. */
  function Left(r: Settings, sys: SysInfo, update: bool): Settings {
    var limits, memory := NormalLimits(r, sys), AfterMemory(r, sys);
    if !AcceptsLimits(r, sys, update) then LeftLimits(r, sys)
    else if !AcceptsExtras(limits, sys) then LeftExtras(limits, sys)
    else if !AcceptsCPU(memory, sys) then LeftCPU(memory, sys)
    else if !AcceptsCpuset(NormalCPU(memory, sys), sys) then AfterCPU(memory, sys)
    else if !AcceptsWeight(AfterCPU(memory, sys), sys) then NormalWeight(AfterCPU(memory, sys), sys)
    else Normal(r, sys)
  }

  function WarnMemory(r: Settings, sys: SysInfo): seq<Warning> {
    var limits := NormalLimits(r, sys);
    WarnProcesses(WarnExtras(WarnLimits([], r, sys), limits, sys), NormalExtras(limits, sys), sys)
  }

  function Warnings(r: Settings, sys: SysInfo): seq<Warning> {
    var memory := AfterMemory(r, sys);
    var cpu := AfterCPU(memory, sys);
    var w := WarnCpuset(WarnCPU(WarnMemory(r, sys), memory, sys), NormalCPU(memory, sys), sys);
    WarnDevices(Note(w, cpu.blkioWeight > 0 && !sys.blkioWeight, NoBlkioWeight), NormalWeight(cpu, sys), sys)
  }

  // ---------------------------------------------------------------------------
  // What validation means for the caller

  /** A setting is dropped only if the kernel lacks it, and once validation has accepted, exactly then. */
  ghost predicate Drops<T>(before: T, after: T, none: T, lacking: bool, final: bool) {
    if after == before then final ==> !lacking else lacking && after == none
  }

  ghost predicate MemoryFates(r: Settings, n: Settings, sys: SysInfo, final: bool) {
    && Drops(r.memory, n.memory, 0, r.memory > 0 && !sys.memoryLimit, final)
    && Drops(r.memorySwap, n.memorySwap, -1,
             r.memory > 0 && r.memorySwap != -1 && (!sys.memoryLimit || !sys.swapLimit), final)
    && Drops(r.memorySwappiness, n.memorySwappiness, None,
             r.memorySwappiness.Some? && r.memorySwappiness.value != -1 && !sys.memorySwappiness, final)
    && Drops(r.memoryReservation, n.memoryReservation, 0, r.memoryReservation > 0 && !sys.memoryReservation, final)
    && Drops(r.kernelMemory, n.kernelMemory, 0, r.kernelMemory > 0 && !sys.kernelMemory, final)
    && Drops(r.oomKillDisable, n.oomKillDisable, None, r.oomKillDisable.Some? && !sys.oomKillDisable, final)
    && Drops(r.pidsLimit, n.pidsLimit, 0, r.pidsLimit != 0 && !sys.pidsLimit, final)
  }

  ghost predicate CPUFates(r: Settings, n: Settings, sys: SysInfo, final: bool) {
    && Drops(r.cpuShares, n.cpuShares, 0, r.cpuShares > 0 && !sys.cpuShares, final)
    && Drops(r.cpuPeriod, n.cpuPeriod, 0, r.cpuPeriod > 0 && !sys.cpuCfsPeriod, final)
    && Drops(r.cpuQuota, n.cpuQuota, 0, r.cpuQuota > 0 && !sys.cpuCfsQuota, final)
    && Drops(r.cpuPercent, n.cpuPercent, 0, r.cpuPercent > 0, final)
    && Drops(r.cpusetCpus, n.cpusetCpus, "", r.cpusetCpus != "" && !sys.cpuset, final)
    && Drops(r.cpusetMems, n.cpusetMems, "", r.cpusetMems != "" && !sys.cpuset, final)
  }

  ghost predicate DeviceFates(r: Settings, n: Settings, sys: SysInfo, final: bool) {
    && Drops(r.blkioWeight, n.blkioWeight, 0, r.blkioWeight > 0 && !sys.blkioWeight, final)
    && n.ioMaximumBandwidth == r.ioMaximumBandwidth && n.ioMaximumIOps == r.ioMaximumIOps
    && Drops(r.weightDevices, n.weightDevices, [], r.weightDevices != [] && !sys.weightDevice, final)
    && Drops(r.readBps, n.readBps, [], r.readBps != [] && !sys.readBpsDevice, final)
    && Drops(r.writeBps, n.writeBps, [], r.writeBps != [] && !sys.writeBpsDevice, final)
    && Drops(r.readIOps, n.readIOps, [], r.readIOps != [] && !sys.readIOpsDevice, final)
    && Drops(r.writeIOps, n.writeIOps, [], r.writeIOps != [] && !sys.writeIOpsDevice, final)
  }

  /** Every setting keeps its value unless the kernel lacks it. No CPU percentage is supported at all, and dropping the
      memory limit or the swap limit drops swap. */
  ghost predicate Fates(r: Settings, n: Settings, sys: SysInfo, final: bool) {
    MemoryFates(r, n, sys, final) && CPUFates(r, n, sys, final) && DeviceFates(r, n, sys, final)
  }

  /** When a warning is due. */
  ghost predicate Due(w: Warning, r: Settings, sys: SysInfo) {
    match w
    case NoMemoryLimit => r.memory > 0 && !sys.memoryLimit
    case NoSwapLimit => r.memory > 0 && r.memorySwap != -1 && sys.memoryLimit && !sys.swapLimit
    case NoSwappiness => r.memorySwappiness.Some? && r.memorySwappiness.value != -1 && !sys.memorySwappiness
    case NoReservation => r.memoryReservation > 0 && !sys.memoryReservation
    case NoKernelMemory => r.kernelMemory > 0 && !sys.kernelMemory
    case OldKernelMemory => r.kernelMemory > 0 && sys.kernelMemory && !sys.kernelAtLeast4
    case NoOomKillDisable => r.oomKillDisable.Some? && r.oomKillDisable.value && !sys.oomKillDisable
    case NoPidsLimit => r.pidsLimit != 0 && !sys.pidsLimit
    case NoCPUShares => r.cpuShares > 0 && !sys.cpuShares
    case NoCfsPeriod => r.cpuPeriod > 0 && !sys.cpuCfsPeriod
    case NoCfsQuota => r.cpuQuota > 0 && !sys.cpuCfsQuota
    case NoCPUPercent => r.cpuPercent > 0
    case OperatingSystem => r.cpuPercent > 0
    case NoCpuset => (r.cpusetCpus != "" || r.cpusetMems != "") && !sys.cpuset
    case NoBlkioWeight => r.blkioWeight > 0 && !sys.blkioWeight
    case NoWeightDevice => r.weightDevices != [] && !sys.weightDevice
    case NoReadBps => r.readBps != [] && !sys.readBpsDevice
    case NoWriteBps => r.writeBps != [] && !sys.writeBpsDevice
    case NoReadIOps => r.readIOps != [] && !sys.readIOpsDevice
    case NoWriteIOps => r.writeIOps != [] && !sys.writeIOpsDevice
  }

  /** The order of the checks. */
  function Rank(w: Warning): nat {
    match w
    case NoMemoryLimit => 0
    case NoSwapLimit => 1
    case NoSwappiness => 2
    case NoReservation => 3
    case NoKernelMemory => 4
    case OldKernelMemory => 5
    case NoOomKillDisable => 6
    case NoPidsLimit => 7
    case NoCPUShares => 8
    case NoCfsPeriod => 9
    case NoCfsQuota => 10
    case NoCPUPercent => 11
    case OperatingSystem => 12
    case NoCpuset => 13
    case NoBlkioWeight => 14
    case NoWeightDevice => 15
    case NoReadBps => 16
    case NoWriteBps => 17
    case NoReadIOps => 18
    case NoWriteIOps => 19
  }

  /** The warnings of the first `n` checks that are due, each once and in the order of the checks. */
  ghost predicate DueBelow(warnings: seq<Warning>, r: Settings, sys: SysInfo, n: nat) {
    && (forall w :: w in warnings <==> Rank(w) < n && Due(w, r, sys))
    && (forall i, j :: 0 <= i < j < |warnings| ==> Rank(warnings[i]) < Rank(warnings[j]))
  }

  /** What an accepted configuration satisfies. */
  ghost predicate InRange(n: Settings, sys: SysInfo, update: bool) {
    && (n.memory == 0 || n.memory >= 4194304)
    && (n.memorySwap > 0 ==> if n.memory == 0 then update else n.memorySwap >= n.memory)
    && (n.memorySwappiness.Some? ==> -1 <= n.memorySwappiness.value <= 100)
    && (n.memoryReservation > 0 ==> n.memoryReservation >= 4194304)
    && (n.memoryReservation > 0 && n.memory != 0 ==> n.memoryReservation <= n.memory)
    && (n.kernelMemory > 0 ==> n.kernelMemory >= 4194304)
    && (n.cpuPeriod == 0 || 1000 <= n.cpuPeriod <= 1000000)
    && (n.cpuQuota > 0 ==> n.cpuQuota >= 1000)
    && sys.cpusAvailable(n.cpusetCpus) == Some(true) && sys.memsAvailable(n.cpusetMems) == Some(true)
    && (n.blkioWeight > 0 ==> 10 <= n.blkioWeight <= 1000)
    && n.ioMaximumBandwidth == 0 && n.ioMaximumIOps == 0
  }

  ghost predicate SameCPU(r: Settings, n: Settings) {
    && n.cpuShares == r.cpuShares && n.cpuPeriod == r.cpuPeriod && n.cpuQuota == r.cpuQuota
    && n.cpuPercent == r.cpuPercent && n.cpusetCpus == r.cpusetCpus && n.cpusetMems == r.cpusetMems
  }

  ghost predicate SameDevices(r: Settings, n: Settings) {
    && n.blkioWeight == r.blkioWeight && n.ioMaximumBandwidth == r.ioMaximumBandwidth
    && n.ioMaximumIOps == r.ioMaximumIOps && n.weightDevices == r.weightDevices
    && n.readBps == r.readBps && n.writeBps == r.writeBps && n.readIOps == r.readIOps && n.writeIOps == r.writeIOps
  }

  lemma UntouchedFates(r: Settings, n: Settings, sys: SysInfo)
    ensures SameCPU(r, n) ==> CPUFates(r, n, sys, false)
    ensures SameDevices(r, n) ==> DeviceFates(r, n, sys, false)
  {
  }

  lemma LimitsFates(r: Settings, n: Settings, sys: SysInfo)
    requires n == LeftLimits(r, sys)
    ensures MemoryFates(r, n, sys, false) && SameCPU(r, n) && SameDevices(r, n)
  {
  }

  lemma ExtrasFates(r: Settings, n: Settings, sys: SysInfo)
    requires (r.memory == 0 || r.memory >= MIN_MEMORY) && n == LeftExtras(NormalLimits(r, sys), sys)
    ensures MemoryFates(r, n, sys, false) && SameCPU(r, n) && SameDevices(r, n)
  {
  }

  lemma MemoryGroupFates(r: Settings, n: Settings, sys: SysInfo)
    requires (r.memory == 0 || r.memory >= MIN_MEMORY) && n == AfterMemory(r, sys)
    ensures MemoryFates(r, n, sys, true) && SameCPU(r, n) && SameDevices(r, n)
  {
  }

  ghost predicate SameMemory(r: Settings, n: Settings) {
    && n.memory == r.memory && n.memorySwap == r.memorySwap && n.memorySwappiness == r.memorySwappiness
    && n.memoryReservation == r.memoryReservation && n.kernelMemory == r.kernelMemory
    && n.oomKillDisable == r.oomKillDisable && n.pidsLimit == r.pidsLimit
  }

  lemma CPUGroupFates(r: Settings, m: Settings, sys: SysInfo)
    requires SameCPU(r, m)
    ensures CPUFates(r, AfterCPU(m, sys), sys, true)
    ensures SameMemory(m, AfterCPU(m, sys)) && SameDevices(m, AfterCPU(m, sys))
  {
  }

  lemma LeftCPUFates(r: Settings, m: Settings, n: Settings, sys: SysInfo)
    requires SameCPU(r, m) && n == LeftCPU(m, sys)
    ensures CPUFates(r, n, sys, false) && SameMemory(m, n) && SameDevices(m, n)
  {
  }

  lemma DeviceGroupFates(r: Settings, m: Settings, n: Settings, sys: SysInfo)
    requires SameDevices(r, m) && n == NormalDevices(NormalWeight(m, sys), sys)
    ensures DeviceFates(r, n, sys, true) && SameMemory(m, n) && SameCPU(m, n)
  {
  }

  lemma WeightFates(r: Settings, m: Settings, n: Settings, sys: SysInfo)
    requires SameDevices(r, m) && n == NormalWeight(m, sys)
    ensures DeviceFates(r, n, sys, false) && SameMemory(m, n) && SameCPU(m, n)
  {
  }

  /** The fates of a group depend on its settings only. */
  lemma SameFates(r: Settings, m: Settings, n: Settings, sys: SysInfo, final: bool)
    ensures SameMemory(m, n) ==> (MemoryFates(r, m, sys, final) <==> MemoryFates(r, n, sys, final))
    ensures SameCPU(m, n) ==> (CPUFates(r, m, sys, final) <==> CPUFates(r, n, sys, final))
  {
  }

  lemma FinalFates(r: Settings, n: Settings, sys: SysInfo)
    ensures MemoryFates(r, n, sys, true) ==> MemoryFates(r, n, sys, false)
    ensures CPUFates(r, n, sys, true) ==> CPUFates(r, n, sys, false)
  {
  }

  /** What the checks that come after the memory group leave. */
  lemma LaterFates(r: Settings, n: Settings, sys: SysInfo, update: bool)
    requires AcceptsLimits(r, sys, update) && AcceptsExtras(NormalLimits(r, sys), sys)
    requires !Accepts(r, sys, update) && n == Left(r, sys, update)
    ensures Fates(r, n, sys, false)
  {
    var m := AfterMemory(r, sys);
    var c := AfterCPU(m, sys);
    MemoryGroupFates(r, m, sys);
    FinalFates(r, m, sys);
    SameFates(r, m, n, sys, false);
    if !AcceptsCPU(m, sys) {
      LeftCPUFates(r, m, n, sys);
      UntouchedFates(r, n, sys);
    } else {
      CPUGroupFates(r, m, sys);
      FinalFates(r, c, sys);
      SameFates(r, c, n, sys, false);
      if !AcceptsCpuset(NormalCPU(m, sys), sys) {
        UntouchedFates(r, n, sys);
      } else {
        WeightFates(r, c, n, sys);
      }
    }
  }

  /** Also a refusal drops only what the kernel lacks. */
  lemma LeftFates(r: Settings, n: Settings, sys: SysInfo, update: bool)
    requires n == Left(r, sys, update)
    ensures Fates(r, n, sys, Accepts(r, sys, update))
  {
    if Accepts(r, sys, update) {
      NormalFates(r, n, sys);
    } else if !AcceptsLimits(r, sys, update) {
      LimitsFates(r, n, sys);
      UntouchedFates(r, n, sys);
    } else if !AcceptsExtras(NormalLimits(r, sys), sys) {
      ExtrasFates(r, n, sys);
      UntouchedFates(r, n, sys);
    } else {
      LaterFates(r, n, sys, update);
    }
  }

  lemma NormalFates(r: Settings, n: Settings, sys: SysInfo)
    requires (r.memory == 0 || r.memory >= MIN_MEMORY) && n == Normal(r, sys)
    ensures Fates(r, n, sys, true)
  {
    var m := AfterMemory(r, sys);
    var c := AfterCPU(m, sys);
    MemoryGroupFates(r, m, sys);
    CPUGroupFates(r, m, sys);
    DeviceGroupFates(r, c, n, sys);
    SameFates(r, m, n, sys, true);
    SameFates(r, c, n, sys, true);
  }

  /** Only one result has these fates. */
  lemma FatesUnique(r: Settings, n: Settings, m: Settings, sys: SysInfo)
    requires Fates(r, n, sys, true) && Fates(r, m, sys, true)
    ensures n == m
  {
  }

  lemma NormalInRangeIff(r: Settings, n: Settings, sys: SysInfo, update: bool)
    requires n == Normal(r, sys)
    ensures Accepts(r, sys, update) <==> (r.memory == 0 || r.memory >= 4194304) && InRange(n, sys, update)
  {
  }

  /** A configuration is accepted exactly when what is left after dropping is in range, and the memory limit was so
      before: it is looked at first. */
  lemma AcceptsIff(r: Settings, n: Settings, sys: SysInfo, update: bool)
    requires Fates(r, n, sys, true)
    ensures Accepts(r, sys, update) <==> (r.memory == 0 || r.memory >= 4194304) && InRange(n, sys, update)
  {
    if r.memory == 0 || r.memory >= MIN_MEMORY {
      NormalFates(r, Normal(r, sys), sys);
      FatesUnique(r, n, Normal(r, sys), sys);
      NormalInRangeIff(r, n, sys, update);
    }
  }

  lemma NoteDue(warnings: seq<Warning>, r: Settings, sys: SysInfo, w: Warning)
    requires DueBelow(warnings, r, sys, Rank(w))
    ensures DueBelow(Note(warnings, Due(w, r, sys), w), r, sys, Rank(w) + 1)
  {
    var noted := Note(warnings, Due(w, r, sys), w);
    assert forall x :: x in noted <==> x in warnings || (x == w && Due(w, r, sys));
    assert forall i :: 0 <= i < |warnings| ==> warnings[i] in warnings;
    assert forall x: Warning :: Rank(x) == Rank(w) ==> x == w;
  }

  lemma LimitsDue(r: Settings, sys: SysInfo)
    ensures DueBelow(WarnLimits([], r, sys), r, sys, 2)
  {
    NoteDue([], r, sys, NoMemoryLimit);
    NoteDue(Note([], Due(NoMemoryLimit, r, sys), NoMemoryLimit), r, sys, NoSwapLimit);
  }

  lemma ExtrasDue(w: seq<Warning>, r: Settings, m: Settings, sys: SysInfo)
    requires DueBelow(w, r, sys, 2) && m.memorySwappiness == r.memorySwappiness
    requires m.memoryReservation == r.memoryReservation && m.kernelMemory == r.kernelMemory
    ensures DueBelow(WarnExtras(w, m, sys), r, sys, 6)
  {
    NoteDue(w, r, sys, NoSwappiness);
    var x := Note(w, Due(NoSwappiness, r, sys), NoSwappiness);
    NoteDue(x, r, sys, NoReservation);
    KernelMemoryDue(Note(x, Due(NoReservation, r, sys), NoReservation), r, m, sys);
  }

  lemma KernelMemoryDue(w: seq<Warning>, r: Settings, m: Settings, sys: SysInfo)
    requires DueBelow(w, r, sys, 4) && m.kernelMemory == r.kernelMemory
    ensures DueBelow(WarnKernelMemory(w, m, sys), r, sys, 6)
  {
    NoteDue(w, r, sys, NoKernelMemory);
    NoteDue(Note(w, Due(NoKernelMemory, r, sys), NoKernelMemory), r, sys, OldKernelMemory);
  }

  lemma ProcessesDue(w: seq<Warning>, r: Settings, m: Settings, sys: SysInfo)
    requires DueBelow(w, r, sys, 6) && m.oomKillDisable == r.oomKillDisable && m.pidsLimit == r.pidsLimit
    ensures DueBelow(WarnProcesses(w, m, sys), r, sys, 8)
  {
    NoteDue(w, r, sys, NoOomKillDisable);
    NoteDue(Note(w, Due(NoOomKillDisable, r, sys), NoOomKillDisable), r, sys, NoPidsLimit);
  }

  lemma CPUDue(w: seq<Warning>, r: Settings, m: Settings, sys: SysInfo)
    requires DueBelow(w, r, sys, 8) && m.cpuShares == r.cpuShares && m.cpuPeriod == r.cpuPeriod
    requires m.cpuQuota == r.cpuQuota && m.cpuPercent == r.cpuPercent
    ensures DueBelow(WarnCPU(w, m, sys), r, sys, 13)
  {
    PeriodDue(w, r, sys);
    var x := Note(Note(w, Due(NoCPUShares, r, sys), NoCPUShares), Due(NoCfsPeriod, r, sys), NoCfsPeriod);
    QuotaDue(x, r, sys);
    WarnCPUAs(w, r, m, sys);
  }

  /** The warnings on processors, through the conditions under which they are due. */
  lemma WarnCPUAs(w: seq<Warning>, r: Settings, m: Settings, sys: SysInfo)
    requires m.cpuShares == r.cpuShares && m.cpuPeriod == r.cpuPeriod
    requires m.cpuQuota == r.cpuQuota && m.cpuPercent == r.cpuPercent
    ensures var x := Note(Note(w, Due(NoCPUShares, r, sys), NoCPUShares), Due(NoCfsPeriod, r, sys), NoCfsPeriod);
            var y := Note(Note(x, Due(NoCfsQuota, r, sys), NoCfsQuota), Due(NoCPUPercent, r, sys), NoCPUPercent);
            WarnCPU(w, m, sys) == Note(y, Due(OperatingSystem, r, sys), OperatingSystem)
  {
  }

  lemma PeriodDue(w: seq<Warning>, r: Settings, sys: SysInfo)
    requires DueBelow(w, r, sys, 8)
    ensures var x := Note(w, Due(NoCPUShares, r, sys), NoCPUShares);
            DueBelow(Note(x, Due(NoCfsPeriod, r, sys), NoCfsPeriod), r, sys, 10)
  {
    NoteDue(w, r, sys, NoCPUShares);
    NoteDue(Note(w, Due(NoCPUShares, r, sys), NoCPUShares), r, sys, NoCfsPeriod);
  }

  lemma QuotaDue(w: seq<Warning>, r: Settings, sys: SysInfo)
    requires DueBelow(w, r, sys, 10)
    ensures var x := Note(w, Due(NoCfsQuota, r, sys), NoCfsQuota);
            var y := Note(x, Due(NoCPUPercent, r, sys), NoCPUPercent);
            DueBelow(Note(y, Due(OperatingSystem, r, sys), OperatingSystem), r, sys, 13)
  {
    NoteDue(w, r, sys, NoCfsQuota);
    var x := Note(w, Due(NoCfsQuota, r, sys), NoCfsQuota);
    NoteDue(x, r, sys, NoCPUPercent);
    NoteDue(Note(x, Due(NoCPUPercent, r, sys), NoCPUPercent), r, sys, OperatingSystem);
  }

  lemma DevicesDue(w: seq<Warning>, r: Settings, m: Settings, sys: SysInfo)
    requires DueBelow(w, r, sys, 15)
    requires m.weightDevices == r.weightDevices && m.readBps == r.readBps && m.writeBps == r.writeBps
    requires m.readIOps == r.readIOps && m.writeIOps == r.writeIOps
    ensures DueBelow(WarnDevices(w, m, sys), r, sys, 20)
  {
    ReadsDue(w, r, sys);
    var x := Note(Note(w, Due(NoWeightDevice, r, sys), NoWeightDevice), Due(NoReadBps, r, sys), NoReadBps);
    WritesDue(x, r, sys);
    WarnDevicesAs(w, r, m, sys);
  }

  /** The warnings on devices, through the conditions under which they are due. */
  lemma WarnDevicesAs(w: seq<Warning>, r: Settings, m: Settings, sys: SysInfo)
    requires m.weightDevices == r.weightDevices && m.readBps == r.readBps && m.writeBps == r.writeBps
    requires m.readIOps == r.readIOps && m.writeIOps == r.writeIOps
    ensures var x := Note(Note(w, Due(NoWeightDevice, r, sys), NoWeightDevice), Due(NoReadBps, r, sys), NoReadBps);
            var y := Note(Note(x, Due(NoWriteBps, r, sys), NoWriteBps), Due(NoReadIOps, r, sys), NoReadIOps);
            WarnDevices(w, m, sys) == Note(y, Due(NoWriteIOps, r, sys), NoWriteIOps)
  {
  }

  lemma ReadsDue(w: seq<Warning>, r: Settings, sys: SysInfo)
    requires DueBelow(w, r, sys, 15)
    ensures var x := Note(w, Due(NoWeightDevice, r, sys), NoWeightDevice);
            DueBelow(Note(x, Due(NoReadBps, r, sys), NoReadBps), r, sys, 17)
  {
    NoteDue(w, r, sys, NoWeightDevice);
    NoteDue(Note(w, Due(NoWeightDevice, r, sys), NoWeightDevice), r, sys, NoReadBps);
  }

  lemma WritesDue(w: seq<Warning>, r: Settings, sys: SysInfo)
    requires DueBelow(w, r, sys, 17)
    ensures var x := Note(w, Due(NoWriteBps, r, sys), NoWriteBps);
            var y := Note(x, Due(NoReadIOps, r, sys), NoReadIOps);
            DueBelow(Note(y, Due(NoWriteIOps, r, sys), NoWriteIOps), r, sys, 20)
  {
    NoteDue(w, r, sys, NoWriteBps);
    var x := Note(w, Due(NoWriteBps, r, sys), NoWriteBps);
    NoteDue(x, r, sys, NoReadIOps);
    NoteDue(Note(x, Due(NoReadIOps, r, sys), NoReadIOps), r, sys, NoWriteIOps);
  }

  /** The warnings are exactly those that are due. */
  lemma WarningsDue(r: Settings, sys: SysInfo)
    requires r.memory == 0 || r.memory >= MIN_MEMORY
    ensures DueBelow(Warnings(r, sys), r, sys, 20)
  {
    var limits, memory := NormalLimits(r, sys), AfterMemory(r, sys);
    var extras := NormalExtras(limits, sys);
    LimitsDue(r, sys);
    ExtrasDue(WarnLimits([], r, sys), r, limits, sys);
    ProcessesDue(WarnExtras(WarnLimits([], r, sys), limits, sys), r, extras, sys);
    CPUDue(WarnMemory(r, sys), r, memory, sys);
    var w := WarnCPU(WarnMemory(r, sys), memory, sys);
    NoteDue(w, r, sys, NoCpuset);
    var x := Note(w, Due(NoCpuset, r, sys), NoCpuset);
    NoteDue(x, r, sys, NoBlkioWeight);
    DevicesDue(Note(x, Due(NoBlkioWeight, r, sys), NoBlkioWeight), r, NormalWeight(AfterCPU(memory, sys), sys), sys);
  }

  lemma Validated(r: Settings, n: Settings, sys: SysInfo, update: bool)
    requires n == Left(r, sys, update)
    ensures Fates(r, n, sys, Accepts(r, sys, update))
    ensures Accepts(r, sys, update) ==> InRange(n, sys, update) && DueBelow(Warnings(r, sys), r, sys, 20)
  {
    LeftFates(r, n, sys, update);
    if Accepts(r, sys, update) {
      NormalInRangeIff(r, n, sys, update);
      WarningsDue(r, sys);
    }
  }

  /** A setting changes exactly when its warning is there. Two change silently: swap, when the memory limit goes, and
      the out-of-memory setting, when it asked for nothing. */
  lemma MemoryChangesWarned(r: Settings, n: Settings, sys: SysInfo, warnings: seq<Warning>)
    requires MemoryFates(r, n, sys, true) && DueBelow(warnings, r, sys, 20)
    ensures n.memory != r.memory <==> NoMemoryLimit in warnings
    ensures n.memorySwap != r.memorySwap <==>
            NoSwapLimit in warnings || (NoMemoryLimit in warnings && r.memorySwap != -1)
    ensures n.memorySwappiness != r.memorySwappiness <==> NoSwappiness in warnings
    ensures n.memoryReservation != r.memoryReservation <==> NoReservation in warnings
    ensures n.kernelMemory != r.kernelMemory <==> NoKernelMemory in warnings
    ensures n.oomKillDisable != r.oomKillDisable <==>
            NoOomKillDisable in warnings || (r.oomKillDisable.Some? && !r.oomKillDisable.value && !sys.oomKillDisable)
    ensures n.pidsLimit != r.pidsLimit <==> NoPidsLimit in warnings
  {
  }

  lemma CPUChangesWarned(r: Settings, n: Settings, sys: SysInfo, warnings: seq<Warning>)
    requires CPUFates(r, n, sys, true) && DueBelow(warnings, r, sys, 20)
    ensures n.cpuShares != r.cpuShares <==> NoCPUShares in warnings
    ensures n.cpuPeriod != r.cpuPeriod <==> NoCfsPeriod in warnings
    ensures n.cpuQuota != r.cpuQuota <==> NoCfsQuota in warnings
    ensures n.cpuPercent != r.cpuPercent <==> NoCPUPercent in warnings
    ensures n.cpusetCpus != r.cpusetCpus || n.cpusetMems != r.cpusetMems <==> NoCpuset in warnings
  {
  }

  lemma DeviceChangesWarned(r: Settings, n: Settings, sys: SysInfo, warnings: seq<Warning>)
    requires DeviceFates(r, n, sys, true) && DueBelow(warnings, r, sys, 20)
    ensures n.blkioWeight != r.blkioWeight <==> NoBlkioWeight in warnings
    ensures n.weightDevices != r.weightDevices <==> NoWeightDevice in warnings
    ensures n.readBps != r.readBps <==> NoReadBps in warnings
    ensures n.writeBps != r.writeBps <==> NoWriteBps in warnings
    ensures n.readIOps != r.readIOps <==> NoReadIOps in warnings
    ensures n.writeIOps != r.writeIOps <==> NoWriteIOps in warnings
  {
  }

  // ---------------------------------------------------------------------------
  // Defaults

  /** Signed 64-bit wrap-around. */
  function Wrap64(x: int): int {
    (x + 0x8000_0000_0000_0000) % 0x1_0000_0000_0000_0000 - 0x8000_0000_0000_0000
  }

  predicate Int64(x: int) {
    -0x8000_0000_0000_0000 <= x < 0x8000_0000_0000_0000
  }

  datatype Host = Host(settings: Settings, shmSize: int)

  function ClampShares(shares: int): int {
    if shares <= 0 then shares
    else if shares < MIN_CPU_SHARES then MIN_CPU_SHARES
    else if shares > MAX_CPU_SHARES then MAX_CPU_SHARES
    else shares
  }

  function Adapted(h: Host, adjustCPUShares: bool): Host {
    var r := h.settings;
    Host(r.(cpuShares := if adjustCPUShares then ClampShares(r.cpuShares) else r.cpuShares,
            memorySwap := if r.memory > 0 && r.memorySwap == 0 then Wrap64(2 * r.memory) else r.memorySwap,
            memorySwappiness := if r.memorySwappiness.None? then Some(-1) else r.memorySwappiness,
            oomKillDisable := if r.oomKillDisable.None? then Some(false) else r.oomKillDisable),
         if h.shmSize == 0 then DEFAULT_SHM_SIZE else h.shmSize)
  }

  /** Defaults take the place of what is not set, and of nothing else; CPU shares are brought into range on request. */
  ghost predicate Defaulted(h: Host, d: Host, adjustCPUShares: bool) {
    var r, n := h.settings, d.settings;
    && n == r.(cpuShares := n.cpuShares, memorySwap := n.memorySwap, memorySwappiness := n.memorySwappiness,
               oomKillDisable := n.oomKillDisable)
    && (n.cpuShares != r.cpuShares ==> adjustCPUShares && n.cpuShares == if r.cpuShares == 1 then 2 else 262144)
    && (n.cpuShares != r.cpuShares <==> adjustCPUShares && (r.cpuShares == 1 || r.cpuShares > 262144))
    && (r.memory <= 0 || r.memorySwap != 0 ==> n.memorySwap == r.memorySwap)
    && (r.memorySwap == 0 && 0 < r.memory < 0x4000_0000_0000_0000 ==> n.memorySwap == 2 * r.memory)
    && n.memorySwappiness == Some(if r.memorySwappiness.Some? then r.memorySwappiness.value else -1)
    && n.oomKillDisable.Some?
    && n.oomKillDisable.value == (r.oomKillDisable.Some? && r.oomKillDisable.value)
    && (if h.shmSize == 0 then d.shmSize == 67108864 else d.shmSize == h.shmSize)
  }

  lemma AdaptedDefaulted(h: Host, adjust: bool)
    ensures Defaulted(h, Adapted(h, adjust), adjust)
  {
    if 0 < h.settings.memory < 0x4000_0000_0000_0000 {
      DefaultSwapIff(h.settings.memory);
    }
  }

  /** Validation followed by defaulting. */
  function Prepared(h: Host, sys: SysInfo, adjustCPUShares: bool): Host {
    Adapted(h.(settings := Normal(h.settings, sys)), adjustCPUShares)
  }

  predicate Admits(h: Host, sys: SysInfo) {
    Accepts(h.settings, sys, false) && h.shmSize >= 0
  }

  /** The default swap limit is twice the memory limit exactly when doubling does not overflow. */
  lemma DefaultSwapIff(memory: int)
    requires Int64(memory) && memory > 0
    ensures Int64(Wrap64(2 * memory)) && Wrap64(2 * memory) != 0 && Wrap64(2 * memory) != -1
    ensures Wrap64(2 * memory) == 2 * memory <==> memory < 0x4000_0000_0000_0000
    ensures Wrap64(2 * memory) > 0 <==> memory < 0x4000_0000_0000_0000
    ensures Wrap64(2 * memory) > 0 ==> Wrap64(2 * memory) >= memory
  {
    if memory >= 0x4000_0000_0000_0000 {
      assert Wrap64(2 * memory) == 2 * memory - 0x1_0000_0000_0000_0000;
    }
  }

  /** A prepared configuration passes every memory check unchanged. */
  lemma MemoryStable(h: Host, sys: SysInfo, adjust: bool)
    requires Int64(h.settings.memory) && Admits(h, sys)
    ensures var p := Prepared(h, sys, adjust).settings;
            && AcceptsLimits(p, sys, false) && NormalLimits(p, sys) == p
            && (forall w :: WarnLimits(w, p, sys) == w)
  {
    var n := Normal(h.settings, sys);
    if n.memory > 0 {
      DefaultSwapIff(n.memory);
    }
  }

  lemma ExtrasStable(h: Host, sys: SysInfo, adjust: bool)
    requires Admits(h, sys)
    ensures var p := Prepared(h, sys, adjust).settings;
            && AcceptsExtras(p, sys) && NormalExtras(p, sys) == p
            && (forall w :: WarnExtras(w, p, sys) ==
                            Note(w, p.kernelMemory > 0 && !sys.kernelAtLeast4, OldKernelMemory))
            && (!sys.oomKillDisable ==> p.oomKillDisable == Some(false))
            && NormalProcesses(p, sys) == p.(oomKillDisable := if sys.oomKillDisable then p.oomKillDisable else None)
            && (forall w :: WarnProcesses(w, p, sys) == w)
  {
  }

  lemma CPUStable(h: Host, sys: SysInfo, adjust: bool)
    requires Admits(h, sys)
    ensures var p := Prepared(h, sys, adjust).settings;
            && AcceptsCPU(p, sys) && AcceptsCpuset(p, sys)
            && NormalCPU(p, sys) == p && NormalCpuset(p, sys) == p
            && (forall w :: WarnCPU(w, p, sys) == w) && (forall w :: WarnCpuset(w, p, sys) == w)
  {
  }

  lemma WeightStable(h: Host, sys: SysInfo, adjust: bool)
    requires Admits(h, sys)
    ensures var p := Prepared(h, sys, adjust).settings;
            AcceptsWeight(p, sys) && NormalWeight(p, sys) == p && !(p.blkioWeight > 0 && !sys.blkioWeight)
  {
  }

  lemma DevicesStable(h: Host, sys: SysInfo, adjust: bool)
    ensures var p := Prepared(h, sys, adjust).settings;
            NormalDevices(p, sys) == p && forall w :: WarnDevices(w, p, sys) == w
  {
    var p := Prepared(h, sys, adjust).settings;
    var n := NormalWeight(AfterCPU(AfterMemory(h.settings, sys), sys), sys);
    assert p.weightDevices == Devices(n.weightDevices, sys.weightDevice);
    assert p.readBps == Devices(n.readBps, sys.readBpsDevice) && p.writeBps == Devices(n.writeBps, sys.writeBpsDevice);
    assert p.readIOps == Devices(n.readIOps, sys.readIOpsDevice);
    assert p.writeIOps == Devices(n.writeIOps, sys.writeIOpsDevice);
    DevicesSettled(p, sys);
  }

  lemma DevicesSettled(p: Settings, sys: SysInfo)
    requires (!sys.weightDevice ==> p.weightDevices == []) && (!sys.readBpsDevice ==> p.readBps == [])
    requires !sys.writeBpsDevice ==> p.writeBps == []
    requires (!sys.readIOpsDevice ==> p.readIOps == []) && (!sys.writeIOpsDevice ==> p.writeIOps == [])
    ensures NormalDevices(p, sys) == p && forall w :: WarnDevices(w, p, sys) == w
  {
  }

  /** The checks after the memory group do not look at the out-of-memory setting. */
  lemma OomIndependent(p: Settings, sys: SysInfo, oom: Option<bool>)
    requires NormalCPU(p, sys) == p && NormalCpuset(p, sys) == p
    requires NormalWeight(p, sys) == p && NormalDevices(p, sys) == p
    requires AcceptsCPU(p, sys) && AcceptsCpuset(p, sys) && AcceptsWeight(p, sys)
    requires forall w :: WarnCPU(w, p, sys) == w && WarnCpuset(w, p, sys) == w && WarnDevices(w, p, sys) == w
    ensures var q := p.(oomKillDisable := oom);
            && NormalCPU(q, sys) == q && NormalCpuset(q, sys) == q
            && NormalWeight(q, sys) == q && NormalDevices(q, sys) == q
            && AcceptsCPU(q, sys) && AcceptsCpuset(q, sys) && AcceptsWeight(q, sys)
            && (forall w :: WarnCPU(w, q, sys) == w && WarnCpuset(w, q, sys) == w && WarnDevices(w, q, sys) == w)
  {
    var q := p.(oomKillDisable := oom);
    forall w
      ensures WarnCPU(w, q, sys) == w && WarnCpuset(w, q, sys) == w && WarnDevices(w, q, sys) == w
    {
      assert WarnCPU(w, p, sys) == w && WarnCpuset(w, p, sys) == w && WarnDevices(w, p, sys) == w;
    }
  }

  /** What creation admits, a start admits again, changes nothing of, and warns about only for kernel memory on an
      old kernel. */
  lemma StartRepeatsCreate(h: Host, sys: SysInfo, adjust: bool)
    requires Int64(h.settings.memory) && Admits(h, sys)
    ensures var p := Prepared(h, sys, adjust);
            && Admits(p, sys) && Prepared(p, sys, false) == p
            && Warnings(p.settings, sys) ==
               Note([], p.settings.kernelMemory > 0 && !sys.kernelAtLeast4, OldKernelMemory)
  {
    MemoryStable(h, sys, adjust);
    ExtrasStable(h, sys, adjust);
    CPUStable(h, sys, adjust);
    WeightStable(h, sys, adjust);
    DevicesStable(h, sys, adjust);
    var p := Prepared(h, sys, adjust).settings;
    OomIndependent(p, sys, if sys.oomKillDisable then p.oomKillDisable else None);
  }

  /** Validation alone is not stable: where the kernel lacks the setting it drops the default that the previous
      defaulting put in, exactly then. */
  lemma ValidationAloneStableIff(h: Host, sys: SysInfo, adjust: bool)
    requires Int64(h.settings.memory) && Admits(h, sys)
    ensures var p := Prepared(h, sys, adjust);
            Normal(p.settings, sys) == p.settings <==> sys.oomKillDisable
  {
    MemoryStable(h, sys, adjust);
    ExtrasStable(h, sys, adjust);
    CPUStable(h, sys, adjust);
    WeightStable(h, sys, adjust);
    DevicesStable(h, sys, adjust);
    var p := Prepared(h, sys, adjust).settings;
    OomIndependent(p, sys, if sys.oomKillDisable then p.oomKillDisable else None);
  }

  /** A memory limit of 2^62 bytes gets a negative swap limit, and a start accepts it. */
  lemma SwapOverflows(h: Host, sys: SysInfo)
    requires h.settings.memory == 0x4000_0000_0000_0000 && h.settings.memorySwap == 0 && Admits(h, sys)
    requires sys.memoryLimit && sys.swapLimit
    ensures var p := Prepared(h, sys, false);
            p.settings.memorySwap == -0x8000_0000_0000_0000 && Admits(p, sys)
  {
    StartRepeatsCreate(h, sys, false);
  }

  // ---------------------------------------------------------------------------
  // Refusals

  lemma RefusedLimits(r: Settings, sys: SysInfo, update: bool)
    requires !AcceptsLimits(r, sys, update)
    ensures !AcceptsLimits(LeftLimits(r, sys), sys, update)
  {
  }

  lemma RefusedExtras(r: Settings, sys: SysInfo)
    requires !AcceptsExtras(NormalLimits(r, sys), sys)
    ensures var x := LeftExtras(NormalLimits(r, sys), sys); NormalLimits(x, sys) == x && !AcceptsExtras(x, sys)
  {
  }

  /** The memory group changes nothing of what it has left. */
  lemma MemoryIdempotent(r: Settings, sys: SysInfo, x: Settings)
    requires var m := AfterMemory(r, sys);
             && x.memory == m.memory && x.memorySwap == m.memorySwap && x.memorySwappiness == m.memorySwappiness
             && x.memoryReservation == m.memoryReservation && x.kernelMemory == m.kernelMemory
             && x.oomKillDisable == m.oomKillDisable && x.pidsLimit == m.pidsLimit
    ensures AfterMemory(x, sys) == x
  {
  }

  lemma RefusedCPU(m: Settings, sys: SysInfo)
    requires !AcceptsCPU(m, sys)
    ensures !AcceptsCPU(LeftCPU(m, sys), sys)
  {
  }

  lemma RefusedCpuset(m: Settings, sys: SysInfo)
    requires !AcceptsCpuset(NormalCPU(m, sys), sys)
    ensures var x := AfterCPU(m, sys); NormalCPU(x, sys) == x && !AcceptsCpuset(x, sys)
  {
  }

  lemma RefusedWeight(m: Settings, sys: SysInfo)
    requires !AcceptsWeight(AfterCPU(m, sys), sys)
    ensures var x := NormalWeight(AfterCPU(m, sys), sys); AfterCPU(x, sys) == x && !AcceptsWeight(x, sys)
  {
  }

  /** A refused configuration stays refused on the same kernel: what the refusal has changed in place lets nothing
      through when it is validated again. */
  lemma RefusedAgain(r: Settings, sys: SysInfo, update: bool)
    requires !Accepts(r, sys, update)
    ensures !Accepts(Left(r, sys, update), sys, update)
  {
    var limits, m, x := NormalLimits(r, sys), AfterMemory(r, sys), Left(r, sys, update);
    if !AcceptsLimits(r, sys, update) {
      RefusedLimits(r, sys, update);
    } else if !AcceptsExtras(limits, sys) {
      RefusedExtras(r, sys);
    } else {
      MemoryIdempotent(r, sys, x);
      if !AcceptsCPU(m, sys) {
        RefusedCPU(m, sys);
      } else if !AcceptsCpuset(NormalCPU(m, sys), sys) {
        RefusedCpuset(m, sys);
      } else {
        RefusedWeight(m, sys);
      }
    }
  }

  // ---------------------------------------------------------------------------
  // The configuration object, updated in place

  /** A list of per-device limits that the kernel may not support. */
  method Keep(devices: seq<string>, supported: bool, warning: Warning, w: seq<Warning>)
    returns (kept: seq<string>, warnings: seq<Warning>)
    ensures kept == Devices(devices, supported) && warnings == Note(w, devices != [] && !supported, warning)
  {
    kept, warnings := devices, w;
    if |devices| > 0 && !supported {
      warnings := warnings + [warning];
      kept := [];
    }
  }

  class HostConfig {
    var settings: Settings
    var shmSize: int

    constructor (settings: Settings, shmSize: int)
      ensures this.settings == settings && this.shmSize == shmSize
    {
      this.settings, this.shmSize := settings, shmSize;
    }

    method VerifyMemoryLimits(sys: SysInfo, update: bool, w: seq<Warning>) returns (warnings: seq<Warning>, ok: bool)
      modifies this`settings
      ensures ok <==> AcceptsLimits(old(settings), sys, update)
      ensures settings == LeftLimits(old(settings), sys)
      ensures ok ==> settings == NormalLimits(old(settings), sys) && warnings == WarnLimits(w, old(settings), sys)
    {
      warnings := w;
      if settings.memory != 0 && settings.memory < MIN_MEMORY {
        return warnings, false;
      }
      if settings.memory > 0 && !sys.memoryLimit {
        warnings := warnings + [NoMemoryLimit];
        settings := settings.(memory := 0, memorySwap := -1);
      }
      if settings.memory > 0 && settings.memorySwap != -1 && !sys.swapLimit {
        warnings := warnings + [NoSwapLimit];
        settings := settings.(memorySwap := -1);
      }
      if settings.memory > 0 && settings.memorySwap > 0 && settings.memorySwap < settings.memory {
        return warnings, false;
      }
      if settings.memory == 0 && settings.memorySwap > 0 && !update {
        return warnings, false;
      }
      ok := true;
    }

    method VerifyMemoryExtras(sys: SysInfo, w: seq<Warning>) returns (warnings: seq<Warning>, ok: bool)
      modifies this`settings
      ensures ok <==> AcceptsExtras(old(settings), sys)
      ensures settings == LeftExtras(old(settings), sys)
      ensures ok ==> settings == NormalExtras(old(settings), sys) && warnings == WarnExtras(w, old(settings), sys)
    {
      warnings, ok := VerifySwappiness(sys, w);
      if !ok {
        return;
      }
      warnings, ok := VerifyReservation(sys, warnings);
      if !ok {
        return;
      }
      warnings, ok := VerifyKernelMemory(sys, warnings);
    }

    method VerifySwappiness(sys: SysInfo, w: seq<Warning>) returns (warnings: seq<Warning>, ok: bool)
      modifies this`settings
      ensures settings == old(settings).(memorySwappiness := Swappiness(old(settings), sys))
      ensures ok <==> GoodSwappiness(settings)
      ensures warnings == Note(w, Swappiness(old(settings), sys) != old(settings).memorySwappiness, NoSwappiness)
    {
      warnings, ok := w, true;
      if settings.memorySwappiness.Some? && settings.memorySwappiness.value != -1 && !sys.memorySwappiness {
        warnings := warnings + [NoSwappiness];
        settings := settings.(memorySwappiness := None);
      }
      if settings.memorySwappiness.Some? {
        var swappiness := settings.memorySwappiness.value;
        ok := !(swappiness < -1 || swappiness > 100);
      }
    }

    method VerifyReservation(sys: SysInfo, w: seq<Warning>) returns (warnings: seq<Warning>, ok: bool)
      modifies this`settings
      ensures settings ==
              old(settings).(memoryReservation := Limit(old(settings).memoryReservation, sys.memoryReservation))
      ensures ok <==> GoodReservation(settings)
      ensures warnings == Note(w, old(settings).memoryReservation > 0 && !sys.memoryReservation, NoReservation)
    {
      warnings, ok := w, false;
      if settings.memoryReservation > 0 && !sys.memoryReservation {
        warnings := warnings + [NoReservation];
        settings := settings.(memoryReservation := 0);
      }
      if settings.memoryReservation > 0 && settings.memoryReservation < MIN_MEMORY {
        return;
      }
      if settings.memory > 0 && settings.memoryReservation > 0 && settings.memory < settings.memoryReservation {
        return;
      }
      ok := true;
    }

    method VerifyKernelMemory(sys: SysInfo, w: seq<Warning>) returns (warnings: seq<Warning>, ok: bool)
      modifies this`settings
      ensures settings == old(settings).(kernelMemory := Limit(old(settings).kernelMemory, sys.kernelMemory))
      ensures ok <==> (settings.kernelMemory > 0 ==> settings.kernelMemory >= MIN_MEMORY)
      ensures ok ==> warnings == WarnKernelMemory(w, old(settings), sys)
    {
      warnings, ok := w, false;
      if settings.kernelMemory > 0 && !sys.kernelMemory {
        warnings := warnings + [NoKernelMemory];
        settings := settings.(kernelMemory := 0);
      }
      if settings.kernelMemory > 0 && settings.kernelMemory < MIN_MEMORY {
        return;
      }
      if settings.kernelMemory > 0 && !sys.kernelAtLeast4 {
        warnings := warnings + [OldKernelMemory];
      }
      ok := true;
    }

    method VerifyCPU(sys: SysInfo, w: seq<Warning>) returns (warnings: seq<Warning>, ok: bool)
      modifies this`settings
      ensures ok <==> AcceptsCPU(old(settings), sys)
      ensures settings == LeftCPU(old(settings), sys)
      ensures ok ==> settings == NormalCPU(old(settings), sys) && warnings == WarnCPU(w, old(settings), sys)
    {
      warnings, ok := w, false;
      if settings.cpuShares > 0 && !sys.cpuShares {
        warnings := warnings + [NoCPUShares];
        settings := settings.(cpuShares := 0);
      }
      if settings.cpuPeriod > 0 && !sys.cpuCfsPeriod {
        warnings := warnings + [NoCfsPeriod];
        settings := settings.(cpuPeriod := 0);
      }
      if settings.cpuPeriod != 0 && (settings.cpuPeriod < 1000 || settings.cpuPeriod > 1000000) {
        return;
      }
      if settings.cpuQuota > 0 && !sys.cpuCfsQuota {
        warnings := warnings + [NoCfsQuota];
        settings := settings.(cpuQuota := 0);
      }
      if settings.cpuQuota > 0 && settings.cpuQuota < 1000 {
        return;
      }
      if settings.cpuPercent > 0 {
        warnings := warnings + [NoCPUPercent] + [OperatingSystem];
        settings := settings.(cpuPercent := 0);
      }
      ok := true;
    }

    method VerifyCpuset(sys: SysInfo, w: seq<Warning>) returns (warnings: seq<Warning>, ok: bool)
      modifies this`settings
      ensures ok <==> AcceptsCpuset(old(settings), sys)
      ensures settings == NormalCpuset(old(settings), sys) && warnings == WarnCpuset(w, old(settings), sys)
    {
      warnings := w;
      if (settings.cpusetCpus != "" || settings.cpusetMems != "") && !sys.cpuset {
        warnings := warnings + [NoCpuset];
        settings := settings.(cpusetCpus := "", cpusetMems := "");
      }
      ok := sys.cpusAvailable(settings.cpusetCpus) == Some(true);
      ok := ok && sys.memsAvailable(settings.cpusetMems) == Some(true);
    }

    method VerifyProcesses(sys: SysInfo, w: seq<Warning>) returns (warnings: seq<Warning>)
      modifies this`settings
      ensures settings == NormalProcesses(old(settings), sys) && warnings == WarnProcesses(w, old(settings), sys)
    {
      warnings := w;
      if settings.oomKillDisable.Some? && !sys.oomKillDisable {
        if settings.oomKillDisable.value {
          warnings := warnings + [NoOomKillDisable];
        }
        settings := settings.(oomKillDisable := None);
      }
      if settings.pidsLimit != 0 && !sys.pidsLimit {
        warnings := warnings + [NoPidsLimit];
        settings := settings.(pidsLimit := 0);
      }
    }

    method VerifyWeight(sys: SysInfo, w: seq<Warning>) returns (warnings: seq<Warning>, ok: bool)
      modifies this`settings
      ensures ok <==> AcceptsWeight(old(settings), sys)
      ensures settings == NormalWeight(old(settings), sys)
      ensures ok ==> warnings == Note(w, old(settings).blkioWeight > 0 && !sys.blkioWeight, NoBlkioWeight)
    {
      warnings, ok := w, false;
      if settings.blkioWeight > 0 && !sys.blkioWeight {
        warnings := warnings + [NoBlkioWeight];
        settings := settings.(blkioWeight := 0);
      }
      if settings.blkioWeight > 0 && (settings.blkioWeight < 10 || settings.blkioWeight > 1000) {
        return;
      }
      ok := settings.ioMaximumBandwidth == 0 && settings.ioMaximumIOps == 0;
    }

    method VerifyDevices(sys: SysInfo, w: seq<Warning>) returns (warnings: seq<Warning>)
      modifies this`settings
      ensures settings == NormalDevices(old(settings), sys) && warnings == WarnDevices(w, old(settings), sys)
    {
      var weight, readBps, writeBps, readIOps, writeIOps;
      weight, warnings := Keep(settings.weightDevices, sys.weightDevice, NoWeightDevice, w);
      readBps, warnings := Keep(settings.readBps, sys.readBpsDevice, NoReadBps, warnings);
      writeBps, warnings := Keep(settings.writeBps, sys.writeBpsDevice, NoWriteBps, warnings);
      readIOps, warnings := Keep(settings.readIOps, sys.readIOpsDevice, NoReadIOps, warnings);
      writeIOps, warnings := Keep(settings.writeIOps, sys.writeIOpsDevice, NoWriteIOps, warnings);
      settings := settings.(weightDevices := weight, readBps := readBps, writeBps := writeBps,
                            readIOps := readIOps, writeIOps := writeIOps);
    }

    /** Validates the settings, dropping what the kernel does not support. */
    method VerifyContainerResources(sys: SysInfo, update: bool) returns (warnings: seq<Warning>, ok: bool)
      modifies this`settings
      ensures ok <==> Accepts(old(settings), sys, update)
      ensures settings == Left(old(settings), sys, update)
      ensures ok ==> settings == Normal(old(settings), sys) && warnings == Warnings(old(settings), sys)
      ensures Fates(old(settings), settings, sys, ok)
      ensures ok ==> DueBelow(warnings, old(settings), sys, 20) && InRange(settings, sys, update)
    {
      warnings, ok := VerifyAll(sys, update);
      Validated(old(settings), settings, sys, update);
    }

    /** The groups of checks in turn. */
    method VerifyAll(sys: SysInfo, update: bool) returns (warnings: seq<Warning>, ok: bool)
      modifies this`settings
      ensures ok <==> Accepts(old(settings), sys, update)
      ensures settings == Left(old(settings), sys, update)
      ensures ok ==> settings == Normal(old(settings), sys) && warnings == Warnings(old(settings), sys)
    {
      warnings, ok := VerifyMemoryLimits(sys, update, []);
      if !ok {
        return;
      }
      warnings, ok := VerifyMemoryExtras(sys, warnings);
      if !ok {
        return;
      }
      warnings := VerifyProcesses(sys, warnings);
      warnings, ok := VerifyCPU(sys, warnings);
      if !ok {
        return;
      }
      warnings, ok := VerifyCpuset(sys, warnings);
      if !ok {
        return;
      }
      warnings, ok := VerifyWeight(sys, warnings);
      if ok {
        warnings := VerifyDevices(sys, warnings);
      }
    }

    /** Fills in defaults. */
    method AdaptContainerSettings(adjustCPUShares: bool)
      modifies this
      ensures Host(settings, shmSize) == Adapted(old(Host(settings, shmSize)), adjustCPUShares)
      ensures Defaulted(old(Host(settings, shmSize)), Host(settings, shmSize), adjustCPUShares)
    {
      AdaptedDefaulted(Host(settings, shmSize), adjustCPUShares);
      if adjustCPUShares && settings.cpuShares > 0 {
        if settings.cpuShares < MIN_CPU_SHARES {
          settings := settings.(cpuShares := MIN_CPU_SHARES);
        } else if settings.cpuShares > MAX_CPU_SHARES {
          settings := settings.(cpuShares := MAX_CPU_SHARES);
        }
      }
      if settings.memory > 0 && settings.memorySwap == 0 {
        settings := settings.(memorySwap := Wrap64(settings.memory * 2));
      }
      if shmSize == 0 {
        shmSize := DEFAULT_SHM_SIZE;
      }
      if settings.memorySwappiness.None? {
        settings := settings.(memorySwappiness := Some(-1));
      }
      if settings.oomKillDisable.None? {
        settings := settings.(oomKillDisable := Some(false));
      }
    }
  }
}
