/**
 * The dashboard controller (internal/ui/dashboard.go): the load-to-colour
 * banding, the refresh step that updates the CPU gauge, the memory gauge and
 * the process list, the event loop, and construction.
 *
 * The terminal library is reached only through `UIProvider`, which records
 * what is asked of it. Metric sampling and process enumeration are inputs:
 * each tick of the event trace carries the outcomes of the CPU, memory and
 * process queries made during that refresh. Percentages are the integers the
 * source obtains after truncating the sampled values.
 */
module Ui {
  import opened Wrappers
  import opened Processes

  /** The bar colours the banding chooses from. */
  datatype Color = Green | Magenta | Yellow | Red

  /** How alarming a colour is: green lowest, red highest. */
  function Severity(c: Color): nat
  {
    match c
    case Green => 0
    case Magenta => 1
    case Yellow => 2
    case Red => 3
  }

  /** `getColorByPercent`: the band of a load, each band closed at its lower bound. */
  function ColorByPercent(percent: int): (c: Color)
    ensures c == Red <==> percent >= 90
    ensures c == Yellow <==> 70 <= percent < 90
    ensures c == Magenta <==> 50 <= percent < 70
    ensures c == Green <==> percent < 50
  {
    if percent >= 90 then Red
    else if percent >= 70 then Yellow
    else if percent >= 50 then Magenta
    else Green
  }

  /** A higher load never gets a less alarming colour. */
  lemma BandingMonotone(p: int, q: int)
    requires p <= q
    ensures Severity(ColorByPercent(p)) <= Severity(ColorByPercent(q))
  {
  }

  /** One line of the process list. It stands for the text line the source
      formats from a process's pid, name, CPU and memory percentages and
      status; the text template itself is not modelled, only the values it shows. */
  datatype Row = Row(pid: Int32, name: string, cpu: real, memory: real, status: string)

  function RowOf(p: ProcessInfo): Row
  {
    Row(p.pid, p.name, p.cpu, p.memory, p.status)
  }

  datatype Gauge = Gauge(title: string, percent: int, barColor: Color)

  datatype ListWidget = ListWidget(title: string, rows: seq<Row>)

  /** The three widgets the dashboard renders, in the order it passes them. */
  datatype Widgets = Widgets(cpuChart: Gauge, memChart: Gauge, processList: ListWidget)

  const InitialWidgets: Widgets := Widgets(
    Gauge("CPU Usage", 0, Green),
    Gauge("Memory Usage", 0, Green),
    ListWidget("Processes", []))

  const CpuErrorPrefix: string := "failed to get CPU percent: "
  const MemErrorPrefix: string := "failed to get memory info: "
  const InitErrorPrefix: string := "failed to initialize termui: "

  /** Every gauge's colour is the band of its percentage. */
  predicate Banded(w: Widgets)
  {
    && w.cpuChart.barColor == ColorByPercent(w.cpuChart.percent)
    && w.memChart.barColor == ColorByPercent(w.memChart.percent)
  }

  /** The widgets after one refresh and the error it returns. */
  datatype Step = Step(widgets: Widgets, err: Option<string>)

  /** The refresh step. `cpu` holds the per-call CPU percentages, `mem` the
      memory percentage and `procs` the process enumeration. A CPU failure
      aborts before anything changes; a memory failure aborts after the CPU
      gauge was set; a process enumeration failure is not an error and keeps
      the old rows; an empty CPU list leaves the CPU gauge alone. */
  function Refresh(w: Widgets, cpu: Result<seq<int>, string>, mem: Result<int, string>,
                   procs: Result<seq<RawProcess>, string>): (r: Step)
    ensures r.err.Some? <==> cpu.Failure? || mem.Failure?
    ensures cpu.Failure? ==> r == Step(w, Some(CpuErrorPrefix + cpu.error))
    ensures cpu.Success? && |cpu.value| == 0 ==> r.widgets.cpuChart == w.cpuChart
    ensures cpu.Success? && |cpu.value| > 0 ==>
      && r.widgets.cpuChart.title == w.cpuChart.title
      && r.widgets.cpuChart.percent == cpu.value[0]
      && r.widgets.cpuChart.barColor == ColorByPercent(cpu.value[0])
    ensures cpu.Success? && mem.Failure? ==>
      && r.err == Some(MemErrorPrefix + mem.error)
      && r.widgets.memChart == w.memChart
      && r.widgets.processList == w.processList
    ensures mem.Success? && cpu.Success? ==>
      && r.widgets.memChart.title == w.memChart.title
      && r.widgets.memChart.percent == mem.value
      && r.widgets.memChart.barColor == ColorByPercent(mem.value)
    ensures r.err.None? && procs.Failure? ==> r.widgets.processList == w.processList
    ensures r.err.None? && procs.Success? ==>
      && r.widgets.processList.title == w.processList.title
      && |r.widgets.processList.rows| == |Collect(procs.value)|
      && forall j :: 0 <= j < |Collect(procs.value)| ==>
           r.widgets.processList.rows[j] == RowOf(Collect(procs.value)[j])
  {
    if cpu.Failure? then Step(w, Some(CpuErrorPrefix + cpu.error))
    else
      var cpuChart := if |cpu.value| > 0
        then w.cpuChart.(percent := cpu.value[0], barColor := ColorByPercent(cpu.value[0]))
        else w.cpuChart;
      if mem.Failure? then Step(w.(cpuChart := cpuChart), Some(MemErrorPrefix + mem.error))
      else
        var memChart := w.memChart.(percent := mem.value, barColor := ColorByPercent(mem.value));
        var processList := if procs.Failure? then w.processList
          else w.processList.(rows := seq(|Collect(procs.value)|, j requires 0 <= j < |Collect(procs.value)| => RowOf(Collect(procs.value)[j])));
        Step(Widgets(cpuChart, memChart, processList), None)
  }

  /** A refresh keeps every gauge coloured by its band. */
  lemma RefreshKeepsBanded(w: Widgets, cpu: Result<seq<int>, string>, mem: Result<int, string>,
                           procs: Result<seq<RawProcess>, string>)
    requires Banded(w)
    ensures Banded(Refresh(w, cpu, mem, procs).widgets)
  {
  }

  /** The kinds of terminal event. */
  datatype EventType = KeyboardEvent | MouseEvent | ResizeEvent

  /** One event of the merged trace: a terminal event, or a timer tick
      carrying the outcomes of the queries the refresh makes. */
  datatype Input =
    | UIEvent(kind: EventType, id: string)
    | Tick(cpu: Result<seq<int>, string>, mem: Result<int, string>, procs: Result<seq<RawProcess>, string>)

  /** `Running` while the loop has not returned; `Returned(err)` once it has. */
  datatype RunOutcome = Running | Returned(err: Option<string>)

  /** The widgets after a run, the frames rendered during it, and how it ended. */
  datatype Trace = Trace(widgets: Widgets, rendered: seq<Widgets>, outcome: RunOutcome)

  /** The number of timer ticks in a trace. */
  function CountTicks(events: seq<Input>): nat
    decreases |events|
  {
    if events == [] then 0 else (if events[0].Tick? then 1 else 0) + CountTicks(events[1..])
  }

  predicate IsQuit(e: Input)
  {
    e.UIEvent? && e.kind == KeyboardEvent && (e.id == "q" || e.id == "<C-c>")
  }

  /** The event loop as a fold over the trace: a quit key returns success, a
      failing refresh returns its error, every other terminal event is ignored
      and every successful refresh renders once. */
  function RunSpec(w: Widgets, events: seq<Input>): (t: Trace)
    ensures t.outcome.Running? ==> forall i :: 0 <= i < |events| ==> !IsQuit(events[i])
    ensures t.outcome == Returned(None) ==> exists i :: 0 <= i < |events| && IsQuit(events[i])
    ensures |t.rendered| <= |events|
    decreases |events|
  {
    if events == [] then Trace(w, [], Running)
    else
      var rest := events[1..];
      assert forall i :: 0 <= i < |rest| ==> rest[i] == events[i + 1];
      match events[0]
      case UIEvent(_, _) =>
        if IsQuit(events[0]) then Trace(w, [], Returned(None)) else RunSpec(w, rest)
      case Tick(cpu, mem, procs) =>
        var s := Refresh(w, cpu, mem, procs);
        if s.err.Some? then Trace(s.widgets, [], Returned(s.err))
        else
          var t := RunSpec(s.widgets, rest);
          Trace(t.widgets, [s.widgets] + t.rendered, t.outcome)
  }

  /** Every successful refresh renders exactly one frame, the refreshed
      widgets, and nothing else renders: a run still going has rendered once
      per tick, and a run that returned at most once per tick. */
  lemma {:induction false} RunRendersOncePerTick(w: Widgets, events: seq<Input>)
    ensures RunSpec(w, events).outcome.Running? ==> |RunSpec(w, events).rendered| == CountTicks(events)
    ensures |RunSpec(w, events).rendered| <= CountTicks(events)
    ensures |events| > 0 && events[0].Tick? && Refresh(w, events[0].cpu, events[0].mem, events[0].procs).err.None? ==>
      RunSpec(w, events).rendered[0] == Refresh(w, events[0].cpu, events[0].mem, events[0].procs).widgets
    decreases |events|
  {
    if events != [] {
      match events[0]
      case UIEvent(_, _) =>
        RunRendersOncePerTick(w, events[1..]);
      case Tick(cpu, mem, procs) =>
        RunRendersOncePerTick(Refresh(w, cpu, mem, procs).widgets, events[1..]);
    }
  }

  /** Running `a` then `b` is running `a` and, if it has not returned, `b` from
      where it left off; nothing after the return is processed. */
  lemma {:induction false} RunAppend(w: Widgets, a: seq<Input>, b: seq<Input>)
    ensures var ra := RunSpec(w, a);
      RunSpec(w, a + b) ==
        if ra.outcome.Running? then
          var rb := RunSpec(ra.widgets, b);
          Trace(rb.widgets, ra.rendered + rb.rendered, rb.outcome)
        else ra
    decreases |a|
  {
    if a == [] {
      assert a + b == b;
    } else {
      assert (a + b)[0] == a[0] && (a + b)[1..] == a[1..] + b;
      match a[0]
      case UIEvent(_, _) =>
        RunAppend(w, a[1..], b);
      case Tick(cpu, mem, procs) =>
        var s := Refresh(w, cpu, mem, procs);
        RunAppend(s.widgets, a[1..], b);
    }
  }

  /** The first quit key reached while running makes the loop return success,
      keeping what was rendered before it. */
  lemma QuitReturnsSuccess(w: Widgets, before: seq<Input>, quit: Input, after: seq<Input>)
    requires RunSpec(w, before).outcome.Running?
    requires IsQuit(quit)
    ensures RunSpec(w, before + [quit] + after) == RunSpec(w, before).(outcome := Returned(None))
  {
    RunAppend(w, before, [quit] + after);
    assert before + [quit] + after == before + ([quit] + after);
  }

  /** The first failing refresh reached while running makes the loop return its error. */
  lemma FailingTickReturnsError(w: Widgets, before: seq<Input>, tick: Input, after: seq<Input>)
    requires tick.Tick?
    requires RunSpec(w, before).outcome.Running?
    requires Refresh(RunSpec(w, before).widgets, tick.cpu, tick.mem, tick.procs).err.Some?
    ensures var s := Refresh(RunSpec(w, before).widgets, tick.cpu, tick.mem, tick.procs);
      RunSpec(w, before + [tick] + after) == Trace(s.widgets, RunSpec(w, before).rendered, Returned(s.err))
  {
    RunAppend(w, before, [tick] + after);
    assert before + [tick] + after == before + ([tick] + after);
  }

  /** The trace without its terminal events other than quit keys. */
  function Relevant(events: seq<Input>): (r: seq<Input>)
    ensures |r| <= |events|
    decreases |events|
  {
    if events == [] then []
    else if events[0].UIEvent? && !IsQuit(events[0]) then Relevant(events[1..])
    else [events[0]] + Relevant(events[1..])
  }

  /** Terminal events other than quit keys have no effect on the loop. */
  lemma {:induction false} RunIgnoresOtherEvents(w: Widgets, events: seq<Input>)
    ensures RunSpec(w, events) == RunSpec(w, Relevant(events))
    decreases |events|
  {
    if events != [] {
      var r := Relevant(events);
      match events[0]
      case UIEvent(_, _) =>
        RunIgnoresOtherEvents(w, events[1..]);
        if IsQuit(events[0]) {
          assert r[0] == events[0];
        }
      case Tick(cpu, mem, procs) =>
        assert r[0] == events[0] && r[1..] == Relevant(events[1..]);
        RunIgnoresOtherEvents(Refresh(w, cpu, mem, procs).widgets, events[1..]);
    }
  }

  /** Starting from banded widgets, every rendered frame and the final widgets are banded. */
  lemma {:induction false} RunKeepsBanded(w: Widgets, events: seq<Input>)
    requires Banded(w)
    ensures Banded(RunSpec(w, events).widgets)
    ensures forall k :: 0 <= k < |RunSpec(w, events).rendered| ==> Banded(RunSpec(w, events).rendered[k])
    decreases |events|
  {
    if events != [] {
      match events[0]
      case UIEvent(_, _) =>
        RunKeepsBanded(w, events[1..]);
      case Tick(cpu, mem, procs) =>
        RefreshKeepsBanded(w, cpu, mem, procs);
        RunKeepsBanded(Refresh(w, cpu, mem, procs).widgets, events[1..]);
    }
  }

  /** The terminal, as far as the dashboard uses it: whether `Init` was
      called, how often it was closed, and every frame rendered.
      `initFailure` is what initialising it reports. */
  class UIProvider {
    const initFailure: Option<string>
    var initCalled: bool
    var closeCount: nat
    var rendered: seq<Widgets>

    constructor (initFailure: Option<string>)
      ensures this.initFailure == initFailure
      ensures !initCalled && closeCount == 0 && rendered == []
    {
      this.initFailure := initFailure;
      initCalled := false;
      closeCount := 0;
      rendered := [];
    }

    method Init() returns (err: Option<string>)
      modifies this
      ensures err == initFailure && initCalled
      ensures closeCount == old(closeCount) && rendered == old(rendered)
    {
      initCalled := true;
      err := initFailure;
    }

    method Close()
      modifies this
      ensures closeCount == old(closeCount) + 1
      ensures initCalled == old(initCalled) && rendered == old(rendered)
    {
      closeCount := closeCount + 1;
    }

    method Render(w: Widgets)
      modifies this
      ensures rendered == old(rendered) + [w]
      ensures initCalled == old(initCalled) && closeCount == old(closeCount)
    {
      rendered := rendered + [w];
    }
  }

  class Dashboard {
    const ui: UIProvider
    var cpuChart: Gauge
    var memChart: Gauge
    var processList: ListWidget

    /** The three widgets as they stand. */
    function Snapshot(): Widgets
      reads this
    {
      Widgets(cpuChart, memChart, processList)
    }

    constructor (provider: UIProvider)
      ensures ui == provider && Snapshot() == InitialWidgets
    {
      ui := provider;
      cpuChart := Gauge("CPU Usage", 0, Green);
      memChart := Gauge("Memory Usage", 0, Green);
      processList := ListWidget("Processes", []);
    }

    /** `update`: refreshes the widgets from the query outcomes and renders
      them when it succeeds. */
    method Update(cpu: Result<seq<int>, string>, mem: Result<int, string>,
                  procs: Result<seq<RawProcess>, string>) returns (err: Option<string>)
      modifies this, ui
      ensures Snapshot() == Refresh(old(Snapshot()), cpu, mem, procs).widgets
      ensures err == Refresh(old(Snapshot()), cpu, mem, procs).err
      ensures ui.rendered == old(ui.rendered) + if err.None? then [Snapshot()] else []
      ensures ui.closeCount == old(ui.closeCount) && ui.initCalled == old(ui.initCalled)
    {
      if cpu.Failure? {
        return Some(CpuErrorPrefix + cpu.error);
      }
      if |cpu.value| > 0 {
        var percent := cpu.value[0];
        cpuChart := cpuChart.(percent := percent, barColor := ColorByPercent(percent));
      }

      if mem.Failure? {
        return Some(MemErrorPrefix + mem.error);
      }
      var percent := mem.value;
      memChart := memChart.(percent := percent, barColor := ColorByPercent(percent));

      var processes := GetProcessList(procs);
      if processes.Success? {
        var processTexts := FormatRows(processes.value);
        processList := processList.(rows := processTexts);
      }

      ui.Render(Snapshot());
      return None;
    }

    /** `Run`: services the events in order until a quit key or a failing
      refresh, then closes the terminal, once. If the trace ends first, the
      loop is still running and the terminal stays open. */
    method Run(events: seq<Input>) returns (outcome: RunOutcome)
      modifies this, ui
      ensures Snapshot() == RunSpec(old(Snapshot()), events).widgets
      ensures outcome == RunSpec(old(Snapshot()), events).outcome
      ensures ui.rendered == old(ui.rendered) + RunSpec(old(Snapshot()), events).rendered
      ensures ui.closeCount == old(ui.closeCount) + if outcome.Returned? then 1 else 0
      ensures ui.initCalled == old(ui.initCalled)
    {
      ghost var whole := RunSpec(Snapshot(), events);
      ghost var emitted: seq<Widgets> := [];
      outcome := Running;
      var i := 0;
      while i < |events|
        invariant 0 <= i <= |events|
        invariant ui.rendered == old(ui.rendered) + emitted
        invariant ui.closeCount == old(ui.closeCount) && ui.initCalled == old(ui.initCalled)
        invariant whole == RunSpec(old(Snapshot()), events)
        invariant RunSpec(Snapshot(), events[i..]).widgets == whole.widgets
        invariant RunSpec(Snapshot(), events[i..]).outcome == whole.outcome
        invariant emitted + RunSpec(Snapshot(), events[i..]).rendered == whole.rendered
        invariant outcome.Running?
      {
        assert events[i..][0] == events[i] && events[i..][1..] == events[i + 1..];
        match events[i] {
          case UIEvent(kind, id) =>
            if kind == KeyboardEvent && (id == "q" || id == "<C-c>") {
              outcome := Returned(None);
              break;
            }
          case Tick(cpu, mem, procs) =>
            var err := Update(cpu, mem, procs);
            if err.Some? {
              outcome := Returned(err);
              break;
            }
            emitted := emitted + [Snapshot()];
        }
        i := i + 1;
      }
      if outcome.Returned? {
        ui.Close();
      }
    }
  }

  /** The row list built by `update`: one row per process, in the same order. */
  method FormatRows(processes: seq<ProcessInfo>) returns (rows: seq<Row>)
    ensures |rows| == |processes|
    ensures forall j :: 0 <= j < |processes| ==> rows[j] == RowOf(processes[j])
  {
    rows := [];
    for i := 0 to |processes|
      invariant |rows| == i
      invariant forall j :: 0 <= j < i ==> rows[j] == RowOf(processes[j])
    {
      rows := rows + [RowOf(processes[i])];
    }
  }

  /** `NewDashboardWithUI`: fails with the initialisation error when the
      terminal cannot be initialised; otherwise a new dashboard on `provider`
      with the fixed titles, zero percentages, green bars and no rows. */
  method NewDashboardWithUI(provider: UIProvider) returns (r: Result<Dashboard, string>)
    modifies provider
    ensures provider.initCalled
    ensures provider.closeCount == old(provider.closeCount) && provider.rendered == old(provider.rendered)
    ensures provider.initFailure.Some? ==> r == Failure(InitErrorPrefix + provider.initFailure.value)
    ensures provider.initFailure.None? ==>
      r.Success? && fresh(r.value) && r.value.ui == provider && r.value.Snapshot() == InitialWidgets
  {
    var err := provider.Init();
    if err.Some? {
      return Failure(InitErrorPrefix + err.value);
    }
    var d := new Dashboard(provider);
    return Success(d);
  }
}
