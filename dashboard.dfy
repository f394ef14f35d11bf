/**
 * One tick of `dashboard()` in glowline.py: six titled tables filled row by
 * row with `add_row`, wrapped in bordered panels and laid out by two
 * `add_row` calls on a grid. `Render` builds them in place and is proved
 * against `Layout`, the grid as a value; the lemmas state what the grid holds.
 */
module Dashboard {
  import opened Wrappers
  import opened Decimal
  import opened Metrics

  /** A table as a panel shows it: title, rows and border style. */
  datatype PanelView = PanelView(title: string, rows: seq<Row>, border: string)

  /** A two-column table without a header, filled one row at a time. */
  class Table {
    const title: string
    var rows: seq<Row>

    constructor (title: string)
      ensures this.title == title && rows == []
    {
      this.title := title;
      rows := [];
    }

    method AddRow(key: string, value: string)
      modifies this
      ensures rows == old(rows) + [(key, value)]
    {
      rows := rows + [(key, value)];
    }

    /** The table wrapped in a panel with the given border style. */
    function Panel(border: string): (p: PanelView)
      reads this
      ensures p.title == title && p.rows == rows && p.border == border
    {
      PanelView(title, rows, border)
    }
  }

  /** The layout grid, filled one row of panels at a time. */
  class Grid {
    var rows: seq<seq<PanelView>>

    constructor ()
      ensures rows == []
    {
      rows := [];
    }

    method AddRow(panels: seq<PanelView>)
      modifies this
      ensures rows == old(rows) + [panels]
    {
      rows := rows + [panels];
    }
  }

  /** Adds the items of a dict to a table, one row each, in order. */
  method AddItems(table: Table, items: seq<Row>)
    modifies table
    ensures table.rows == old(table.rows) + items
  {
    for i := 0 to |items|
      invariant table.rows == old(table.rows) + items[..i]
    {
      table.AddRow(items[i].0, items[i].1);
    }
  }

  /** Everything one tick asks the operating system for; `system()` and the
      other queries are called afresh on every tick. */
  datatype Tick = Tick(host: Host, cpuPercent: real, gateways: Gateways,
                       perNic: map<string, NetCounters>, aggregate: NetCounters,
                       getloadavg: Option<LoadTriple>, pids: seq<int>)

  /** The CPU panel: the sampled percent as Python prints it, then " %". */
  function CpuRows(cpuPercent: real, fmt: FloatFormat): (rows: seq<Row>)
    ensures Keys(rows) == ["CPU Usage"]
    ensures rows[0].1 == fmt.show(cpuPercent) + " %"
  {
    [("CPU Usage", fmt.show(cpuPercent) + " %")]
  }

  /** The load average panel: one row per window, each the text of its entry. */
  function LoadRows(load: seq<LoadEntry>, fmt: FloatFormat): (rows: seq<Row>)
    requires |load| == 3
    ensures Keys(rows) == ["1 min", "5 min", "15 min"]
    ensures forall i :: 0 <= i < 3 ==> rows[i].1 == LoadText(load[i], fmt)
  {
    [("1 min", LoadText(load[0], fmt)), ("5 min", LoadText(load[1], fmt)), ("15 min", LoadText(load[2], fmt))]
  }

  /** The processes panel: the number of process ids, in decimal. */
  function ProcessRows(pids: seq<int>): (rows: seq<Row>)
    ensures Keys(rows) == ["Running Processes"]
    ensures AllDigits(rows[0].1) && DigitsValue(rows[0].1) == |pids|
  {
    NatToStringValue(|pids|);
    [("Running Processes", NatToString(|pids|))]
  }

  /** The first grid row: system, CPU, memory and disk. */
  function TopPanels(s: Startup, t: Tick, fmt: FloatFormat): (panels: seq<PanelView>)
    ensures |panels| == 3
    ensures panels[0].title == "System Info" && panels[0].rows == SystemInfo(t.host, s)
    ensures panels[1].title == "CPU Usage" && panels[1].rows == CpuRows(t.cpuPercent, fmt)
    ensures panels[2].title == "Memory & Disk" && panels[2].rows == MemoryInfo(s)
  {
    [PanelView("System Info", SystemInfo(t.host, s), "cyan"),
     PanelView("CPU Usage", CpuRows(t.cpuPercent, fmt), "magenta"),
     PanelView("Memory & Disk", MemoryInfo(s), "green")]
  }

  /** The second grid row: network, load average, processes. */
  function BottomPanels(t: Tick, fmt: FloatFormat): (panels: seq<PanelView>)
    ensures |panels| == 3
    ensures panels[0].title == "Network" && panels[0].rows == NetworkInfo(t.gateways, t.perNic, t.aggregate, fmt)
    ensures panels[1].title == "Load Average" && panels[1].rows == LoadRows(LoadAvg(t.getloadavg, fmt.round2), fmt)
    ensures panels[2].title == "Processes" && panels[2].rows == ProcessRows(t.pids)
  {
    [PanelView("Network", NetworkInfo(t.gateways, t.perNic, t.aggregate, fmt), "yellow"),
     PanelView("Load Average", LoadRows(LoadAvg(t.getloadavg, fmt.round2), fmt), "blue"),
     PanelView("Processes", ProcessRows(t.pids), "red")]
  }

  /** The grid one tick draws, as a value. */
  function Layout(s: Startup, t: Tick, fmt: FloatFormat): (grid: seq<seq<PanelView>>)
    ensures |grid| == 2 && grid[0] == TopPanels(s, t, fmt) && grid[1] == BottomPanels(t, fmt)
  {
    [TopPanels(s, t, fmt), BottomPanels(t, fmt)]
  }

  /** A new table filled from a dict's items. */
  method FilledTable(title: string, items: seq<Row>) returns (table: Table)
    ensures fresh(table) && table.title == title && table.rows == items
  {
    table := new Table(title);
    AddItems(table, items);
  }

  /** The "Load Average" table: one `add_row` per entry of `load_avg()`. */
  method LoadTable(load: seq<LoadEntry>, fmt: FloatFormat) returns (table: Table)
    requires |load| == 3
    ensures fresh(table) && table.title == "Load Average" && table.rows == LoadRows(load, fmt)
  {
    table := new Table("Load Average");
    table.AddRow("1 min", LoadText(load[0], fmt));
    table.AddRow("5 min", LoadText(load[1], fmt));
    table.AddRow("15 min", LoadText(load[2], fmt));
  }

  /** The system, CPU and memory tables, wrapped in their panels. */
  method TopRow(s: Startup, t: Tick, fmt: FloatFormat) returns (panels: seq<PanelView>)
    ensures panels == TopPanels(s, t, fmt)
  {
    var sysinfo, cpuRows, meminfo := SystemInfo(t.host, s), CpuRows(t.cpuPercent, fmt), MemoryInfo(s);
    var sysTable := FilledTable("System Info", sysinfo);
    var cpuTable := new Table("CPU Usage");
    cpuTable.AddRow(cpuRows[0].0, cpuRows[0].1);
    var memTable := FilledTable("Memory & Disk", meminfo);
    panels := [sysTable.Panel("cyan"), cpuTable.Panel("magenta"), memTable.Panel("green")];
    assert panels[0] == TopPanels(s, t, fmt)[0];
    assert panels[1] == TopPanels(s, t, fmt)[1];
    assert panels[2] == TopPanels(s, t, fmt)[2];
  }

  /** The network, load and process tables, wrapped in their panels. */
  method BottomRow(t: Tick, fmt: FloatFormat) returns (panels: seq<PanelView>)
    ensures panels == BottomPanels(t, fmt)
  {
    var netinfo, load := NetworkInfo(t.gateways, t.perNic, t.aggregate, fmt), LoadAvg(t.getloadavg, fmt.round2);
    var netTable := FilledTable("Network", netinfo);
    var loadTable := LoadTable(load, fmt);
    var procsTable := new Table("Processes");
    procsTable.AddRow("Running Processes", NatToString(|t.pids|));
    panels := [netTable.Panel("yellow"), loadTable.Panel("blue"), procsTable.Panel("red")];
    assert panels[0] == BottomPanels(t, fmt)[0];
    assert panels[1] == BottomPanels(t, fmt)[1];
    assert panels[2] == BottomPanels(t, fmt)[2];
  }

  /** The body of the `while True` loop up to `live.update`: the tables,
      then the grid, one `add_row` per row of panels. */
  method Render(s: Startup, t: Tick, fmt: FloatFormat) returns (view: seq<seq<PanelView>>)
    ensures view == Layout(s, t, fmt)
  {
    var top := TopRow(s, t, fmt);
    var bottom := BottomRow(t, fmt);
    var grid := new Grid();
    grid.AddRow(top);
    grid.AddRow(bottom);
    view := grid.rows;
  }

  function Titles(panels: seq<PanelView>): (titles: seq<string>)
    ensures |titles| == |panels|
    ensures forall i :: 0 <= i < |panels| ==> titles[i] == panels[i].title
  {
    seq(|panels|, i requires 0 <= i < |panels| => panels[i].title)
  }

  /** Two rows of three panels each, in category order, on every tick. */
  lemma LayoutShape(s: Startup, t: Tick, fmt: FloatFormat)
    ensures |Layout(s, t, fmt)| == 2
    ensures Titles(Layout(s, t, fmt)[0]) == ["System Info", "CPU Usage", "Memory & Disk"]
    ensures Titles(Layout(s, t, fmt)[1]) == ["Network", "Load Average", "Processes"]
  {
    var grid := Layout(s, t, fmt);
    assert Titles(grid[0]) == ["System Info", "CPU Usage", "Memory & Disk"];
    assert Titles(grid[1]) == ["Network", "Load Average", "Processes"];
  }

  /** The system panel's keys, in order. */
  lemma SystemPanelKeys(s: Startup, t: Tick, fmt: FloatFormat)
    ensures Keys(Layout(s, t, fmt)[0][0].rows) == SystemKeys
  {
  }

  /** The load panel reads "1 min", "5 min", "15 min" from `load[0..2]`, and
      "N/A" in each where the platform has no load averages. */
  lemma LoadPanelRows(s: Startup, t: Tick, fmt: FloatFormat)
    ensures var rows := Layout(s, t, fmt)[1][1].rows;
      && Keys(rows) == ["1 min", "5 min", "15 min"]
      && (forall i :: 0 <= i < 3 ==> rows[i].1 == LoadText(LoadAvg(t.getloadavg, fmt.round2)[i], fmt))
      && (t.getloadavg.None? ==> forall i :: 0 <= i < 3 ==> rows[i].1 == "N/A")
  {
    var rows := Layout(s, t, fmt)[1][1].rows;
    var load := LoadAvg(t.getloadavg, fmt.round2);
    assert rows == LoadRows(load, fmt);
    assert Keys(rows) == ["1 min", "5 min", "15 min"];
  }

  /** The memory and disk figures were sampled once, when the script was
      loaded: two ticks show the same "Memory & Disk" panel and the same
      "Memory" and "Disk" entries of the system panel, whatever else changed
      between them. */
  lemma StartupFiguresFixed(s: Startup, t1: Tick, t2: Tick, fmt: FloatFormat)
    ensures Layout(s, t1, fmt)[0][2] == Layout(s, t2, fmt)[0][2]
    ensures Layout(s, t1, fmt)[0][0].rows[5..] == Layout(s, t2, fmt)[0][0].rows[5..]
  {
  }

  /** The network panel names the default route's interface and shows that
      interface's own counters when psutil lists it. */
  lemma NetworkPanelCounters(s: Startup, t: Tick, fmt: FloatFormat)
    requires HasDefaultRoute(t.gateways)
    requires t.gateways["default"][AF_INET].iface in t.perNic
    ensures var rows := Layout(s, t, fmt)[1][0].rows;
      var nic := t.gateways["default"][AF_INET].iface;
      && rows[0] == ("Active Interface", nic)
      && rows[1] == ("Bytes Sent", KiBText(t.perNic[nic].bytesSent, fmt))
      && rows[2] == ("Bytes Received", KiBText(t.perNic[nic].bytesRecv, fmt))
  {
  }

  /** The CPU Usage panel holds one row: the tick's CPU percent, then " %". */
  lemma CpuPanelRows(s: Startup, t: Tick, fmt: FloatFormat)
    ensures Layout(s, t, fmt)[0][1].rows == [("CPU Usage", fmt.show(t.cpuPercent) + " %")]
  {
  }

  /** The Processes panel holds one row whose value is the number of process
      ids, printed in decimal. */
  lemma ProcessPanelRows(s: Startup, t: Tick, fmt: FloatFormat)
    ensures Layout(s, t, fmt)[1][2].rows == [("Running Processes", NatToString(|t.pids|))]
    ensures DigitsValue(Layout(s, t, fmt)[1][2].rows[0].1) == |t.pids|
  {
    NatToStringValue(|t.pids|);
  }
}
