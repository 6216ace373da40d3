# thop dashboard core, modelled in Dafny

thop is a terminal process monitor. This project models its decision-making
core and proves properties of it:

- the dashboard controller (`internal/ui/dashboard.go`, module `Ui`):
  - the colour band of a load percentage;
  - the refresh step, which updates the CPU gauge, the memory gauge and the process list;
  - the event loop, which refreshes on every timer tick and stops on a quit key or a failing refresh;
  - construction of a dashboard on a terminal provider;
- the process list (`internal/system/process.go`, module `Processes`);
- the signal catalog and signal delivery (`internal/system/signal.go`, module `Signals`).

Operating system and terminal calls are inputs. Each process as enumerated
is a `RawProcess` that holds the outcome of its name, CPU, memory and status
queries. Each timer tick in the event trace holds the outcomes of the CPU,
memory and process queries of that refresh. The terminal is a `UIProvider`
object. It records whether `Init` was called, how many times it was
closed, and every frame rendered. What its initialisation reports is given
when the object is created. Errors are their message text, and a wrapped
error `fmt.Errorf("prefix: %v", e)` is the prefix followed by `e`.

State that the source changes in place is kept in classes: the dashboard's
three widgets and the terminal provider. Each of these methods is proved
against a pure specification function. `Update` is proved against `Refresh`
and `Run` against `RunSpec`, a fold over the event trace. The lemmas about
those functions carry the properties. `GetProcessList` and `FormatRows` keep
the source's loops and are proved against `Collect` and `RowOf`.

The code and the tests that come with it disagree in places, and the model
follows the code:
- the tests expect per-core CPU gauges (`cpuCharts`), a `selectedRow`
  cursor and the list title "Processes (↑/↓ to navigate)";
- `Dashboard` has one CPU gauge, no cursor, and the title "Processes".
The navigation test clamps a cursor itself; `dashboard.go` has no cursor,
so no navigation is modelled.

## Model

| member | source | states |
|---|---|---|
| `Ui.ColorByPercent` | internal/ui/dashboard.go:93-104 | red exactly when percent >= 90, yellow exactly when 70 <= percent < 90, magenta exactly when 50 <= percent < 70, green exactly when percent < 50 |
| `Ui.BandingMonotone` | internal/ui/dashboard.go:94-103 | a larger percent never gets a less severe colour |
| `Ui.Refresh` | internal/ui/dashboard.go:134-171 | the step fails exactly when the CPU or memory query fails; a CPU failure returns its wrapped error with every widget unchanged; a memory failure returns its wrapped error after the CPU gauge was set, with memory gauge and rows unchanged; a non-empty CPU list sets the CPU gauge to its first value and that value's band, an empty one leaves the gauge alone; the memory gauge gets the memory percent and its band; a process query failure keeps the old rows; otherwise the rows are one per listed process, in order; titles never change |
| `Ui.RefreshKeepsBanded` | internal/ui/dashboard.go:140-153 | after a refresh every gauge colour is still the band of its percentage |
| `Ui.RunSpec` | internal/ui/dashboard.go:117-130 | a loop still running has seen no quit key; a loop that returned success has seen one; at most one frame is rendered per event |
| `Ui.RunRendersOncePerTick` | internal/ui/dashboard.go:125-128 | a run still going has rendered exactly one frame per tick and a returned run at most one per tick; terminal events render nothing; a trace that starts with a successful tick first renders the widgets that refresh produced (with `RunAppend`, so does every later successful tick) |
| `Ui.RunAppend` | internal/ui/dashboard.go:117-130 | running two traces in a row equals running them one after the other; nothing after the return is processed |
| `Ui.QuitReturnsSuccess` | internal/ui/dashboard.go:119-124 | the first "q" or "<C-c>" keyboard event reached returns success and keeps the widgets and frames produced before it |
| `Ui.FailingTickReturnsError` | internal/ui/dashboard.go:125-128 | the first failing refresh reached makes the loop return that refresh's error, keeping the frames rendered before it, with the widgets as that refresh left them |
| `Ui.RunIgnoresOtherEvents` | internal/ui/dashboard.go:119-124 | removing every terminal event that is not a quit key leaves the run unchanged |
| `Ui.RunKeepsBanded` | internal/ui/dashboard.go:126-153 | from banded widgets, every rendered frame and the final widgets have gauge colours that match their percentages |
| `Ui.UIProvider.constructor` | internal/ui/dashboard.go:16-22 | on a fresh terminal `Init` was not called, it was never closed and it has rendered nothing; its initialisation outcome is fixed |
| `Ui.UIProvider.Init` | internal/ui/dashboard.go:18 | `Init` is recorded as called, reports the terminal's initialisation outcome and changes nothing else |
| `Ui.UIProvider.Close` | internal/ui/dashboard.go:19 | closing is counted and changes nothing else |
| `Ui.UIProvider.Render` | internal/ui/dashboard.go:21 | rendering appends the three widgets to the frames painted and changes nothing else |
| `Ui.Dashboard.constructor` | internal/ui/dashboard.go:62-88 | the gauges are titled "CPU Usage" and "Memory Usage" at 0 percent with green bars; the list is titled "Processes" and has no rows |
| `Ui.Dashboard.Update` | internal/ui/dashboard.go:134-171 | the new widgets and the returned error are those of `Refresh`; the three widgets are rendered exactly when no error is returned; the terminal is not closed |
| `Ui.Dashboard.Run` | internal/ui/dashboard.go:107-131 | the widgets, the outcome and the frames rendered are those of `RunSpec`; the terminal is closed exactly once when the loop returns, by either path, and not while it is still running |
| `Ui.FormatRows` | internal/ui/dashboard.go:160-166 | one row per process, in the same order, each showing that process |
| `Ui.NewDashboardWithUI` | internal/ui/dashboard.go:57-90 | `Init` is called on the terminal in every case; a failed initialisation returns its wrapped error; otherwise a new dashboard on that terminal with the initial widgets |
| `Processes.OrZero` | internal/system/process.go:32-34 | a query whose error is ignored yields its value, or the zero value when it failed |
| `Processes.Info` | internal/system/process.go:36-42 | the record keeps the process's pid and resolved name; failed CPU and memory queries read as 0; the status is its strings joined with "," |
| `Processes.SplitJoin` | internal/system/process.go:41 | splitting the joined status on "," returns the status strings, when there is at least one and none contains "," |
| `Processes.Kept` | internal/system/process.go:26-44 | the positions kept are exactly those whose name resolves, in increasing order |
| `Processes.CollectIsKept` | internal/system/process.go:26-44 | the list is the record of each kept position in order, so no longer than the input, with no resolved process dropped and none unresolved included |
| `Processes.GetProcessList` | internal/system/process.go:19-47 | an enumeration failure returns that error; otherwise the list is `Collect` of the processes |
| `Signals.GetAvailableSignals` | internal/system/signal.go:21-34 | the catalog has 10 entries, SIGTERM first and SIGCONT last |
| `Signals.CatalogPositions` | internal/system/signal.go:22-33 | each entry sits at the position its signal is listed at |
| `Signals.CatalogDistinct` | internal/system/signal.go:23-32 | no signal is listed twice |
| `Signals.CatalogEntriesExpected` | internal/system/signal.go:23-32 | every entry has a non-empty description and is one of the expected Unix signals, named after it |
| `Signals.CatalogComplete` | internal/system/signal.go:22-33 | the catalog lists every expected signal and has exactly as many entries as there are expected signals |
| `Signals.SendSignal` | internal/system/signal.go:37-44 | a failed process lookup returns "process not found: " and the lookup error, and sends nothing; otherwise the given signal goes to the given pid and the delivery's own outcome is returned |

`Signals.AvailableSignals` is the constant `GetAvailableSignals()`, as at
internal/system/signal.go:18.

## Left out

- Rendering by the terminal library is left out. This covers widget geometry (`SetRect`), border and title styles, and the `RealUI` wrapper with `NewDashboard` that uses it. A render is recorded as a snapshot of the three widgets it is given.
- The widgets are values owned by the dashboard. The source shares them with the renderer through pointers, and that aliasing is not modelled.
- Sampling CPU and memory and enumerating and querying processes are inputs, because they are operating system calls. This covers `cpu.Percent`, `mem.VirtualMemory`, `process.Processes`, the per-process queries, `process.NewProcess` and `proc.SendSignal`.
- Processes.OrZero: a failed per-process CPU, memory or status query is taken to yield the zero value. The source ignores the error and uses whatever value the process library returns beside it, which is the zero value.
- Truncating sampled float percentages to `int` is left out. Percentages are given as integers, and no 0-100 range is enforced, because the source enforces none.
- Process CPU and memory percentages are `real` values, because float64 and float32 rounding plays no part in the logic.
- A process row's `%.1f` text template is left out, because it formats floats. A row is the structured set of values it shows.
- The log message written when the process list cannot be read is left out, because it is I/O.
- Ticker timing, the goroutine and `select` multiplexing, and the choice between a ready tick and a ready key are left out, because they are timing and concurrency. The loop consumes one merged trace. A trace that ends before the loop returns leaves it running, with the terminal still open.
- Stopping the ticker when `Run` returns is left out, because it is timing.
- GetProcessList: returns an empty sequence where the source returns a nil slice. The two cannot be told apart by length or contents.
- Signal numbers are the Linux ones. Other Unix systems number SIGUSR1, SIGUSR2, SIGSTOP and SIGCONT differently.
- SendSignal: does not decide on its own that a pid such as -1 fails the lookup. That decision belongs to the process library, so the lookup outcome is an input.
- Process-table navigation and its clamp, the signal selection menu, byte-size formatting and per-core gauges are left out, because `dashboard.go` does not implement them.
- The process record validity check is left out, because it exists only in a test and is not enforced by the code.
- The `cmd/htop` and `cmd/thop` entry points are left out, because they only start the program.
