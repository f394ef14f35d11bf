/**
 * The derivation and selection layer of glowline.py between the operating
 * system's readings and the renderer: what the script computes once when it
 * is loaded, `load_avg`, `system`, `memory` and `network`. Every reading the
 * script asks psutil, netifaces, cpuinfo, platform, socket or os for is a
 * parameter here.
 */
module Metrics {
  import opened Wrappers
  import opened Decimal
  import opened Units

  /** One key/value entry of a panel; a Python dict's `items()` in order. */
  type Row = (string, string)

  function Keys(rows: seq<Row>): (keys: seq<string>)
    ensures |keys| == |rows|
    ensures forall i :: 0 <= i < |rows| ==> keys[i] == rows[i].0
  {
    seq(|rows|, i requires 0 <= i < |rows| => rows[i].0)
  }

  /** Python's float handling, which the model does not reproduce:
      rounding to two decimals, and the decimal text Python prints for a float. */
  datatype FloatFormat = FloatFormat(round2: real -> real, show: real -> string)

  // ---------------------------------------------------------------------
  // Figures sampled once, when the script is loaded

  /** The fields of `psutil.virtual_memory()` and `psutil.disk_usage()` that
      the script reads, in bytes. */
  datatype VirtualMemory = VirtualMemory(total: nat, available: nat, used: nat)
  datatype DiskUsage = DiskUsage(total: nat, used: nat, free: nat)

  /** The script's module-level globals: memory and disk figures in GiB and
      the CPU brand. They are never read again afterwards. */
  datatype Startup = Startup(memory: Usage, storage: Usage, cpuBrand: string)

  /** The CPU brand from cpuinfo's "brand_raw" entry, "Unknown" without one. */
  function CpuBrand(cpuInfo: map<string, string>): (brand: string)
    ensures "brand_raw" in cpuInfo ==> brand == cpuInfo["brand_raw"]
    ensures "brand_raw" !in cpuInfo ==> brand == "Unknown"
  {
    if "brand_raw" in cpuInfo then cpuInfo["brand_raw"] else "Unknown"
  }

  /** The load-time sampling: memory from the memory reading (free is the
      available figure), disk figures from the drive `DiskPath` picks. */
  function Sample(vmem: VirtualMemory, osName: string, systemDrive: Option<string>,
                  diskUsage: string -> DiskUsage, cpuInfo: map<string, string>): (s: Startup)
    ensures s.memory == DeriveUsage(vmem.total, vmem.available, vmem.used)
    ensures s.storage == DeriveUsage(diskUsage(DiskPath(osName, systemDrive)).total,
                                     diskUsage(DiskPath(osName, systemDrive)).free,
                                     diskUsage(DiskPath(osName, systemDrive)).used)
    ensures s.cpuBrand == CpuBrand(cpuInfo)
  {
    var disk := diskUsage(DiskPath(osName, systemDrive));
    Startup(DeriveUsage(vmem.total, vmem.available, vmem.used),
            DeriveUsage(disk.total, disk.free, disk.used),
            CpuBrand(cpuInfo))
  }

  /** Readings where used does not exceed total give percents in [0, 100],
      and a total under one GiB gives percent 0 (no division by zero). */
  lemma SamplePercentsBounded(vmem: VirtualMemory, osName: string, systemDrive: Option<string>,
                              diskUsage: string -> DiskUsage, cpuInfo: map<string, string>)
    requires vmem.used <= vmem.total
    requires diskUsage(DiskPath(osName, systemDrive)).used <= diskUsage(DiskPath(osName, systemDrive)).total
    ensures Sample(vmem, osName, systemDrive, diskUsage, cpuInfo).memory.percent <= 100
    ensures Sample(vmem, osName, systemDrive, diskUsage, cpuInfo).storage.percent <= 100
    ensures vmem.total < GiB ==> Sample(vmem, osName, systemDrive, diskUsage, cpuInfo).memory.percent == 0
  {
    var disk := diskUsage(DiskPath(osName, systemDrive));
    UsagePercentBounded(vmem.total, vmem.available, vmem.used);
    UsagePercentBounded(disk.total, disk.free, disk.used);
  }

  // ---------------------------------------------------------------------
  // load_avg

  /** `os.getloadavg()`: the 1, 5 and 15 minute figures. */
  datatype LoadTriple = LoadTriple(one: real, five: real, fifteen: real)

  /** An entry of `load_avg()`: a rounded figure or the string "N/A". */
  datatype LoadEntry = Figure(value: real) | NotAvailable

  /** `getloadavg` is None where the platform's `os` has no such function. */
  function LoadAvg(getloadavg: Option<LoadTriple>, round2: real -> real): (load: seq<LoadEntry>)
    ensures |load| == 3
    ensures getloadavg.None? ==> load == [NotAvailable, NotAvailable, NotAvailable]
    ensures getloadavg.Some? ==>
      load == [Figure(round2(getloadavg.value.one)), Figure(round2(getloadavg.value.five)),
               Figure(round2(getloadavg.value.fifteen))]
  {
    match getloadavg
    case Some(la) => [Figure(round2(la.one)), Figure(round2(la.five)), Figure(round2(la.fifteen))]
    case None => [NotAvailable, NotAvailable, NotAvailable]
  }

  /** Either all three entries are figures or all three are "N/A". */
  lemma LoadAvgUniform(getloadavg: Option<LoadTriple>, round2: real -> real)
    ensures forall i :: 0 <= i < 3 ==> (LoadAvg(getloadavg, round2)[i].Figure? <==> getloadavg.Some?)
  {
  }

  /** An entry as the load panel prints it. */
  function LoadText(e: LoadEntry, fmt: FloatFormat): (text: string)
    ensures e.NotAvailable? ==> text == "N/A"
    ensures e.Figure? ==> text == fmt.show(e.value)
  {
    match e
    case Figure(x) => fmt.show(x)
    case NotAvailable => "N/A"
  }

  // ---------------------------------------------------------------------
  // system

  /** What `system()` asks socket, platform and os for, on every call. */
  datatype Host = Host(hostname: string, system: string, machine: string, release: string,
                       compiler: string, cores: Option<nat>)

  const SystemKeys: seq<string> := ["Hostname", "System", "Kernel", "Compiler", "CPU", "Memory", "Disk"]

  /** The core count as printed; Python prints a missing count as "None". */
  function CoresText(cores: Option<nat>): (text: string)
    ensures cores.None? ==> text == "None"
    ensures cores.Some? ==> text == NatToString(cores.value)
    ensures cores.Some? ==> AllDigits(text) && DigitsValue(text) == cores.value
  {
    match cores
    case Some(n) => NatToStringValue(n); NatToString(n)
    case None => "None"
  }

  /** A whole number of GiB as printed: the number, then " GiB". */
  function GiBText(n: nat): (text: string)
    ensures |text| > 4 && text[|text| - 4..] == " GiB"
    ensures text[..|text| - 4] == NatToString(n)
    ensures AllDigits(text[..|text| - 4]) && DigitsValue(text[..|text| - 4]) == n
  {
    var digits := NatToString(n);
    NatToStringValue(n);
    assert (digits + " GiB")[..|digits|] == digits;
    digits + " GiB"
  }

  function SystemInfo(h: Host, s: Startup): (rows: seq<Row>)
    ensures Keys(rows) == SystemKeys
    ensures rows[0].1 == h.hostname && rows[2].1 == h.release && rows[3].1 == h.compiler
    ensures rows[1].1 == h.system + " " + h.machine
    ensures rows[4].1 == s.cpuBrand + " (" + CoresText(h.cores) + " cores)"
    ensures rows[5].1 == GiBText(s.memory.total) && rows[6].1 == GiBText(s.storage.total)
  {
    [("Hostname", h.hostname),
     ("System", h.system + " " + h.machine),
     ("Kernel", h.release),
     ("Compiler", h.compiler),
     ("CPU", s.cpuBrand + " (" + CoresText(h.cores) + " cores)"),
     ("Memory", GiBText(s.memory.total)),
     ("Disk", GiBText(s.storage.total))]
  }

  // ---------------------------------------------------------------------
  // memory

  /** A "RAM Used" or "Disk Used" value: used GiB, total GiB, percent. */
  function UsageLine(used: nat, total: nat, percent: nat): (line: string)
    ensures |line| == |NatToString(used)| + |NatToString(total)| + |NatToString(percent)| + 15
  {
    NatToString(used) + " GiB / " + NatToString(total) + " GiB (" + NatToString(percent) + "%)"
  }

  /** Reads a line of the `UsageLine` form back into its three numbers. */
  function ParseUsageLine(line: string): Option<(nat, nat, nat)>
  {
    var used :- ParseNat(line);
    var r1 :- Skip(" GiB / ", used.1);
    var total :- ParseNat(r1);
    var r2 :- Skip(" GiB (", total.1);
    var percent :- ParseNat(r2);
    var r3 :- Skip("%)", percent.1);
    if r3 == [] then Some((used.0, total.0, percent.0)) else None
  }

  /** A number followed by a literal that does not start with a digit:
      both are read back. */
  lemma ParseNatThenSkip(n: nat, lit: string, rest: string)
    requires lit != [] && !IsDigit(lit[0])
    ensures ParseNat(NatToString(n) + (lit + rest)) == Some((n, lit + rest))
    ensures Skip(lit, lit + rest) == Some(rest)
  {
    ParseNatRendered(n, lit + rest);
    assert (lit + rest)[..|lit|] == lit;
    assert (lit + rest)[|lit|..] == rest;
  }

  lemma UsageLineRoundTrip(used: nat, total: nat, percent: nat)
    ensures ParseUsageLine(UsageLine(used, total, percent)) == Some((used, total, percent))
  {
    var a, b, c := NatToString(used), NatToString(total), NatToString(percent);
    var r2 := c + ("%)" + []);
    var r1 := b + (" GiB (" + r2);
    var line := a + (" GiB / " + r1);
    assert UsageLine(used, total, percent) == line;
    ParseNatThenSkip(used, " GiB / ", r1);
    ParseNatThenSkip(total, " GiB (", r2);
    ParseNatThenSkip(percent, "%)", []);
    assert ParseNat(line) == Some((used, " GiB / " + r1));
    assert ParseNat(r1) == Some((total, " GiB (" + r2));
    assert ParseNat(r2) == Some((percent, "%)" + []));
  }

  function MemoryInfo(s: Startup): (rows: seq<Row>)
    ensures Keys(rows) == ["RAM Used", "Disk Used"]
    ensures rows[0].1 == UsageLine(s.memory.used, s.memory.total, s.memory.percent)
    ensures rows[1].1 == UsageLine(s.storage.used, s.storage.total, s.storage.percent)
  {
    [("RAM Used", UsageLine(s.memory.used, s.memory.total, s.memory.percent)),
     ("Disk Used", UsageLine(s.storage.used, s.storage.total, s.storage.percent))]
  }

  /** Each value of `memory()` reads back as the used, total and percent
      figures it was made from. */
  lemma MemoryInfoReadsBack(s: Startup)
    ensures ParseUsageLine(MemoryInfo(s)[0].1) == Some((s.memory.used, s.memory.total, s.memory.percent))
    ensures ParseUsageLine(MemoryInfo(s)[1].1) == Some((s.storage.used, s.storage.total, s.storage.percent))
  {
    UsageLineRoundTrip(s.memory.used, s.memory.total, s.memory.percent);
    UsageLineRoundTrip(s.storage.used, s.storage.total, s.storage.percent);
  }

  lemma UsageExample(total: nat, used: nat, free: nat, percent: nat)
    requires (total, used, percent) in {(16, 4, 25), (500, 100, 20)}
    ensures DeriveUsage(total * GiB, free, used * GiB) == Usage(total, ToGiB(free), used, percent)
  {
    assert ToGiB(total * GiB) == total;
    assert ToGiB(used * GiB) == used;
  }

  lemma NatToStringExamples()
    ensures NatToString(4) == "4" && NatToString(16) == "16" && NatToString(25) == "25"
    ensures NatToString(100) == "100" && NatToString(500) == "500" && NatToString(20) == "20"
  {
    assert NatToString(16) == NatToString(1) + "6";
    assert NatToString(25) == NatToString(2) + "5";
    assert NatToString(20) == NatToString(2) + "0";
    assert NatToString(10) == NatToString(1) + "0";
    assert NatToString(100) == NatToString(10) + "0";
    assert NatToString(50) == NatToString(5) + "0";
    assert NatToString(500) == NatToString(50) + "0";
  }

  lemma MemoryLineLiteral()
    ensures UsageLine(4, 16, 25) == "4 GiB / 16 GiB (25%)"
  {
    NatToStringExamples();
    assert UsageLine(4, 16, 25) == "4" + " GiB / " + "16" + " GiB (" + "25" + "%)";
    assert "4" + " GiB / " + "16" + " GiB (" + "25" + "%)" == "4 GiB / 16 GiB (25%)";
  }

  lemma DiskLineLiteral()
    ensures UsageLine(100, 500, 20) == "100 GiB / 500 GiB (20%)"
  {
    NatToStringExamples();
    assert UsageLine(100, 500, 20) == "100" + " GiB / " + "500" + " GiB (" + "20" + "%)";
    assert "100" + " GiB / " + "500" + " GiB (" + "20" + "%)" == "100 GiB / 500 GiB (20%)";
  }

  /** 4 GiB used of 16 GiB of memory and 100 GiB used of 500 GiB of disk,
      as the "RAM Used" and "Disk Used" values print them. */
  lemma UsageLineExample(free: nat, diskFree: nat)
    ensures var m := DeriveUsage(16 * GiB, free, 4 * GiB);
      UsageLine(m.used, m.total, m.percent) == "4 GiB / 16 GiB (25%)"
    ensures var d := DeriveUsage(500 * GiB, diskFree, 100 * GiB);
      UsageLine(d.used, d.total, d.percent) == "100 GiB / 500 GiB (20%)"
  {
    UsageExample(16, 4, free, 25);
    UsageExample(500, 100, diskFree, 20);
    MemoryLineLiteral();
    DiskLineLiteral();
  }

  // ---------------------------------------------------------------------
  // network

  /** `netifaces.AF_INET`. */
  const AF_INET: int := 2

  /** A `(gateway address, interface)` pair of the default-route table. */
  datatype Route = Route(gateway: string, iface: string)

  /** The `'default'` entry of `netifaces.gateways()`, by address family;
      the per-family route lists of that dict are never read. */
  type Gateways = map<string, map<int, Route>>

  predicate HasDefaultRoute(gateways: Gateways) {
    "default" in gateways && AF_INET in gateways["default"]
  }

  function ActiveInterface(gateways: Gateways): (name: string)
    ensures HasDefaultRoute(gateways) ==> name == gateways["default"][AF_INET].iface
    ensures !HasDefaultRoute(gateways) ==> name == "Unknown"
  {
    if HasDefaultRoute(gateways) then gateways["default"][AF_INET].iface else "Unknown"
  }

  /** The fields of `psutil.net_io_counters()` the script reads. */
  datatype NetCounters = NetCounters(bytesSent: nat, bytesRecv: nat)

  /** The interface's own counters if `pernic=True` lists it, otherwise the
      all-interface `aggregate`. */
  function SelectCounters(active: string, perNic: map<string, NetCounters>, aggregate: NetCounters): (c: NetCounters)
    ensures active in perNic ==> c == perNic[active]
    ensures active !in perNic ==> c == aggregate
  {
    if active in perNic then perNic[active] else aggregate
  }

  /** Without a default IPv4 route the interface reads "Unknown", and the
      counters are the aggregate unless a NIC is literally named so. */
  lemma NoDefaultRouteCounters(gateways: Gateways, perNic: map<string, NetCounters>, aggregate: NetCounters)
    requires !HasDefaultRoute(gateways)
    ensures ActiveInterface(gateways) == "Unknown"
    ensures "Unknown" !in perNic ==> SelectCounters(ActiveInterface(gateways), perNic, aggregate) == aggregate
    ensures "Unknown" in perNic ==> SelectCounters(ActiveInterface(gateways), perNic, aggregate) == perNic["Unknown"]
  {
  }

  /** A byte counter shown in KiB, rounded to two decimals. */
  function KiBText(bytes: nat, fmt: FloatFormat): (text: string)
    ensures |text| >= 4 && text[|text| - 4..] == " KiB"
    ensures text[..|text| - 4] == fmt.show(fmt.round2(bytes as real / KiB as real))
  {
    var figure := fmt.show(fmt.round2(bytes as real / KiB as real));
    assert (figure + " KiB")[..|figure|] == figure;
    figure + " KiB"
  }

  function NetworkInfo(gateways: Gateways, perNic: map<string, NetCounters>, aggregate: NetCounters,
                       fmt: FloatFormat): (rows: seq<Row>)
    ensures Keys(rows) == ["Active Interface", "Bytes Sent", "Bytes Received"]
    ensures rows[0].1 == ActiveInterface(gateways)
    ensures rows[1].1 == KiBText(SelectCounters(ActiveInterface(gateways), perNic, aggregate).bytesSent, fmt)
    ensures rows[2].1 == KiBText(SelectCounters(ActiveInterface(gateways), perNic, aggregate).bytesRecv, fmt)
  {
    var active := ActiveInterface(gateways);
    var stats := SelectCounters(active, perNic, aggregate);
    [("Active Interface", active),
     ("Bytes Sent", KiBText(stats.bytesSent, fmt)),
     ("Bytes Received", KiBText(stats.bytesRecv, fmt))]
  }
}
