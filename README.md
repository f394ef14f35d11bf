# GlowLine dashboard core, in Dafny

GlowLine (`glowline.py`) is a terminal dashboard. It samples memory and disk
usage once, when the script is loaded, and then redraws six panels every
second: System Info, CPU Usage, Memory & Disk, Network, Load Average and
Processes. This project models the layer between the operating-system
queries and the renderer:

- converting byte counts to whole GiB, deriving the used percent with its
  zero-total guard, and choosing the disk to measure (`units.dfy`);
- the CPU brand fallback, the load-average fallback triple, the `system()`
  and `memory()` entries, and the active network interface with its
  counters (`metrics.dfy`);
- one tick of the dashboard. Six tables are filled row by row, wrapped in
  panels, and added to a two-row grid. These are classes updated in place.
  `Render` is proved equal to `Layout`, the grid as a value (`dashboard.dfy`);
- the decimal text Python prints for an integer, with a parser that reads it
  back (`decimal.dfy`), and an Option type (`wrappers.dfy`).

Every OS reading (psutil, netifaces, cpuinfo, platform, socket, os) is a
parameter. The load-time globals are a `Startup` value. The per-tick
readings are a `Tick` value. Python's float rounding and float printing are
two function parameters bundled in `FloatFormat`.

`glowline.py` has a fixed two-row grid, a hard-coded one-second sleep and an
unclamped percent; the model follows it. The percent is guaranteed to stay
within [0, 100] when used ≤ total.

## Model

| member | source | states |
|---|---|---|
| Units.ToGiB | glowline.py:10-19 | the result g is the whole number of GiB in the byte count: g·2^30 ≤ bytes < (g+1)·2^30 |
| Units.ToGiBMonotone | glowline.py:17-19 | fewer bytes never give more GiB |
| Units.Percent | glowline.py:20 | 0 when the total is 0; otherwise the percent rounded down: p·total ≤ 100·used < (p+1)·total |
| Units.PercentAtMostHundred | glowline.py:31 | used ≤ total gives a percent of at most 100 |
| Units.DeriveUsage | glowline.py:16-20 | total, free and used are the GiB truncations of the reading's byte counts, and the percent is the guarded Percent of the truncated used and total |
| Units.SmallTotalGivesZeroPercent | glowline.py:17-20 | a total under one GiB truncates to 0 GiB, and the percent is then 0 whatever is used: no division by zero |
| Units.UsagePercentBounded | glowline.py:27-31 | a reading with used ≤ total bytes still has used ≤ total after truncation to GiB, and a percent in [0, 100] |
| Units.DiskPath | glowline.py:22-26 | "/" off Windows; on Windows the value the environment gives for SystemDrive (looked up by the OS, whatever the spelling of the name), or "C:" when it is unset, followed by a backslash |
| Metrics.CpuBrand | glowline.py:33 | the "brand_raw" entry when present, otherwise "Unknown" |
| Metrics.Sample | glowline.py:15-33 | the load-time figures: memory from the memory reading, with free taken from available; disk figures from the drive DiskPath picks; the CPU brand |
| Metrics.SamplePercentsBounded | glowline.py:16-31 | memory and disk percents are at most 100 when the readings have used ≤ total, and the memory percent is 0 when total memory is under one GiB |
| Metrics.LoadAvg | glowline.py:40-45 | always three entries; without a load-average facility all three are "N/A", otherwise the rounded 1, 5 and 15 minute figures in that order |
| Metrics.LoadAvgUniform | glowline.py:40-45 | each entry is a figure exactly when the facility exists, so the entries are never mixed |
| Metrics.LoadText | glowline.py:121-123 | an unavailable entry prints as "N/A"; a figure prints as Python's text of that rounded float |
| Metrics.SystemInfo | glowline.py:47-58 | exactly the seven keys Hostname, System, Kernel, Compiler, CPU, Memory, Disk in that order; hostname, kernel and compiler values are the host's; System is the OS name, a space and the machine; CPU is the load-time brand followed by " (<cores> cores)"; Memory and Disk show the load-time totals in GiB |
| Metrics.CoresText | glowline.py:48-55 | a missing core count prints as "None"; otherwise the text is the canonical decimal of the count (no leading zero, non-empty), which denotes the count |
| Metrics.GiBText | glowline.py:56-57 | the text ends in " GiB" and what precedes it is the canonical decimal of the GiB figure, which denotes it |
| Metrics.MemoryInfo | glowline.py:65-69 | exactly the keys "RAM Used" and "Disk Used", each valued "{used} GiB / {total} GiB ({pct}%)" from the load-time figures |
| Metrics.UsageLine | glowline.py:67-68 | the line is the three printed numbers plus 15 fixed characters; that it carries all three numbers is UsageLineRoundTrip |
| Metrics.MemoryInfoReadsBack | glowline.py:65-69 | each memory() value reads back as the used, total and percent it was printed from |
| Metrics.UsageLineRoundTrip | glowline.py:67-68 | the "{used} GiB / {total} GiB ({pct}%)" format loses nothing: parsing it gives back the three numbers |
| Metrics.UsageLineExample | glowline.py:67-68 | 4 GiB used of 16 GiB prints "4 GiB / 16 GiB (25%)"; 100 GiB used of 500 GiB prints "100 GiB / 500 GiB (20%)" |
| Metrics.ActiveInterface | glowline.py:73-78 | the interface of the default AF_INET gateway when a "default" entry holds AF_INET, and "Unknown" otherwise |
| Metrics.SelectCounters | glowline.py:79-83 | the active interface's own counters when the per-NIC map has that name, otherwise the all-interface aggregate |
| Metrics.NoDefaultRouteCounters | glowline.py:73-83 | without a default IPv4 route the interface is "Unknown", and the counters are the aggregate unless a NIC is literally named "Unknown" |
| Metrics.KiBText | glowline.py:84-89 | the text ends in " KiB", preceded by Python's text of the byte count divided by 1024 and rounded to two decimals |
| Metrics.NetworkInfo | glowline.py:72-90 | exactly the keys Active Interface, Bytes Sent, Bytes Received; the counters shown are those SelectCounters picks for ActiveInterface |
| Decimal.NatToString | glowline.py:56 | an integer's text is a non-empty string of digits with no leading zero (except "0" itself) |
| Decimal.NatToStringValue | glowline.py:56 | the digits printed for n denote n |
| Decimal.NatToStringInjective | glowline.py:67 | different numbers print differently |
| Decimal.ParseNatRendered | glowline.py:67 | a printed number followed by a non-digit reads back as the same number and the same rest |
| Dashboard.CpuRows | glowline.py:109-110 | exactly one row, keyed "CPU Usage", valued the sampled percent's text followed by " %" |
| Dashboard.LoadRows | glowline.py:120-123 | the load table's value: keys "1 min", "5 min", "15 min" in order, each valued the text of load[0], load[1], load[2] |
| Dashboard.ProcessRows | glowline.py:35-37 | exactly one row, keyed "Running Processes", whose value is digits denoting the number of process ids |
| Dashboard.TopPanels | glowline.py:130-134 | three panels: System Info with the system() rows, CPU Usage with the CPU row, Memory & Disk with the memory() rows |
| Dashboard.BottomPanels | glowline.py:135-139 | three panels: Network with the network() rows, Load Average with the three load rows, Processes with the process count |
| Dashboard.Layout | glowline.py:129-139 | the grid has exactly two rows: TopPanels, then BottomPanels |
| Dashboard.Table.AddRow | glowline.py:107 | add_row appends one (key, value) row at the end of the table and changes nothing else |
| Dashboard.Grid.AddRow | glowline.py:130-139 | the grid's add_row appends one row of panels at the end |
| Dashboard.Table.Panel | glowline.py:131 | a panel shows its table's title and rows with the given border style |
| Dashboard.AddItems | glowline.py:106-107 | filling a table from a dict's items appends exactly those items, in order |
| Dashboard.FilledTable | glowline.py:112-114 | a fresh table with the given title holding exactly the dict's items |
| Dashboard.LoadTable | glowline.py:120-123 | the "Load Average" table holds the rows "1 min", "5 min", "15 min" from load[0], load[1], load[2] |
| Dashboard.TopRow | glowline.py:105-115 | the first grid row is the System Info, CPU Usage and Memory & Disk panels as Layout gives them |
| Dashboard.BottomRow | glowline.py:116-127 | the second grid row is the Network, Load Average and Processes panels as Layout gives them |
| Dashboard.Render | glowline.py:98-139 | one tick builds exactly the grid Layout describes for the load-time figures and this tick's readings |
| Dashboard.LayoutShape | glowline.py:129-139 | every grid has two rows: System Info, CPU Usage, Memory & Disk, then Network, Load Average, Processes |
| Dashboard.SystemPanelKeys | glowline.py:105-107 | the System Info panel lists the seven system keys in the fixed order |
| Dashboard.LoadPanelRows | glowline.py:120-123 | the Load Average panel's keys are "1 min", "5 min", "15 min", its values are load[0..2] in order, and all are "N/A" without a load-average facility |
| Dashboard.StartupFiguresFixed | glowline.py:16-31 | two ticks show the same Memory & Disk panel and the same Memory and Disk system entries, because these figures are sampled once at load |
| Dashboard.CpuPanelRows | glowline.py:109-110 | on every tick the CPU Usage panel is the single row ("CPU Usage", the percent's text + " %") |
| Dashboard.ProcessPanelRows | glowline.py:125-126 | on every tick the Processes panel is the single row ("Running Processes", the decimal count of process ids), and that text denotes the count |
| Dashboard.NetworkPanelCounters | glowline.py:116-118 | with a default IPv4 route whose interface psutil lists, the Network panel names that interface and shows its own sent and received counters |

## Left out

- Units.Percent: computed exactly on integers as used·100 div total. The script computes int(used/total*100) in binary floating point, which can be one lower (29 of 100 gives 28). Only the zero guard and the [0, 100] bound carry over to the script.
- Units.ToGiB: exact for byte counts below 2^53. Above that, the conversion of the integer to a float can round a count just below a GiB boundary up to it. Such counts are not modelled.
- OS queries: psutil, netifaces, cpuinfo, platform, socket, os.cpu_count and os.getloadavg are foreign calls. Their results are parameters (`VirtualMemory`, `DiskUsage`, the cpuinfo map, `Host`, `Gateways`, the per-NIC map, the aggregate counters, the load triple, the pid list).
- Units.DiskPath: the SystemDrive lookup itself is an environment reading, passed as an `Option` (`None` when unset). Windows matches the variable's name without regard to case; that matching belongs to the reading and is not modelled.
- Metrics.LoadAvg: an OSError raised by os.getloadavg is not handled by the script and is not modelled.
- CPU sample: psutil.cpu_percent blocks for half a second and returns a float. It is an opaque real in `Tick`.
- Float handling: round(x, 2) and the text Python prints for a float are the `FloatFormat` parameters. Their results are not modelled. This covers the load figures, the KiB counters and the CPU percent.
- Gateways: only the "default" entry of the netifaces gateway dict is modelled. The per-family route lists are never read by the script.
- Dashboard.Table.Panel: a rich Panel keeps a reference to its table. The model takes the table's title and rows as a value. No table changes after it is wrapped, so the grid shows the same thing.
- Rendering: Console, Live, Align, show_header and the border colours' appearance are UI. The border style names are kept as strings.
- The run loop: the endless `while True` with a one-second sleep, and live.update, are scheduling and I/O. One pass is `Render`; repetition is covered by `StartupFiguresFixed` over any two ticks.
- The unused `mb` constant and the free-memory and free-disk figures are computed but never shown. The latter two are kept in `Usage`.
