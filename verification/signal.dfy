/**
 * The catalog of signals the dashboard offers and the delivery of one signal
 * to a process (internal/system/signal.go).
 *
 * A `syscall.Signal` is a platform signal number; the numbers below are the
 * Linux ones. Looking a process up and delivering the signal are operating
 * system calls: their outcomes are parameters.
 */
module Signals {
  import opened Wrappers

  /** Linux signal numbers. */
  const SIGHUP: int := 1
  const SIGINT: int := 2
  const SIGQUIT: int := 3
  const SIGABRT: int := 6
  const SIGKILL: int := 9
  const SIGUSR1: int := 10
  const SIGUSR2: int := 12
  const SIGTERM: int := 15
  const SIGCONT: int := 18
  const SIGSTOP: int := 19

  datatype Signal = Signal(name: string, description: string, signal: int)

  /** The signals a Unix build is expected to offer, each with the name it must carry. */
  const ExpectedSignals: map<int, string> := map[
    SIGTERM := "SIGTERM", SIGKILL := "SIGKILL", SIGINT := "SIGINT",
    SIGHUP := "SIGHUP", SIGQUIT := "SIGQUIT", SIGABRT := "SIGABRT",
    SIGUSR1 := "SIGUSR1", SIGUSR2 := "SIGUSR2", SIGSTOP := "SIGSTOP",
    SIGCONT := "SIGCONT"]

  /** The fixed, ordered catalog, SIGTERM first and SIGCONT last. */
  function GetAvailableSignals(): (c: seq<Signal>)
    ensures |c| == 10
    ensures c[0].name == "SIGTERM" && c[0].signal == SIGTERM
    ensures c[9].name == "SIGCONT" && c[9].signal == SIGCONT
  {
    [
      Signal("SIGTERM", "Terminate process", SIGTERM),
      Signal("SIGKILL", "Kill process", SIGKILL),
      Signal("SIGINT", "Interrupt process", SIGINT),
      Signal("SIGHUP", "Hangup", SIGHUP),
      Signal("SIGQUIT", "Quit", SIGQUIT),
      Signal("SIGABRT", "Abort", SIGABRT),
      Signal("SIGUSR1", "User-defined signal 1", SIGUSR1),
      Signal("SIGUSR2", "User-defined signal 2", SIGUSR2),
      Signal("SIGSTOP", "Stop process", SIGSTOP),
      Signal("SIGCONT", "Continue process", SIGCONT)
    ]
  }

  /** Where a signal number sits in the catalog, or -1 when it is not listed. */
  function Position(sig: int): (i: int)
    ensures -1 <= i < 10
  {
    if sig == SIGTERM then 0 else if sig == SIGKILL then 1
    else if sig == SIGINT then 2 else if sig == SIGHUP then 3
    else if sig == SIGQUIT then 4 else if sig == SIGABRT then 5
    else if sig == SIGUSR1 then 6 else if sig == SIGUSR2 then 7
    else if sig == SIGSTOP then 8 else if sig == SIGCONT then 9
    else -1
  }

  /** Every entry is found back at its own position. */
  lemma CatalogPositions(i: int)
    requires 0 <= i < 10
    ensures Position(GetAvailableSignals()[i].signal) == i
  {
  }

  /** No signal is listed twice. */
  lemma CatalogDistinct()
    ensures forall i, j :: 0 <= i < j < |GetAvailableSignals()| ==>
      GetAvailableSignals()[i].signal != GetAvailableSignals()[j].signal
  {
    forall i, j | 0 <= i < j < 10
      ensures GetAvailableSignals()[i].signal != GetAvailableSignals()[j].signal
    {
      CatalogPositions(i);
      CatalogPositions(j);
    }
  }

  /** Every entry has a description and is one of the expected signals, named after it. */
  lemma CatalogEntriesExpected()
    ensures forall i :: 0 <= i < |GetAvailableSignals()| ==>
      var s := GetAvailableSignals()[i];
      s.description != "" && s.signal in ExpectedSignals && ExpectedSignals[s.signal] == s.name
  {
  }

  /** Every expected signal is in the catalog, so the catalog has exactly as many entries as expected. */
  lemma CatalogComplete()
    ensures |GetAvailableSignals()| == |ExpectedSignals|
    ensures forall s :: s in ExpectedSignals ==>
      0 <= Position(s) < |GetAvailableSignals()| && GetAvailableSignals()[Position(s)].signal == s
  {
  }

  /** The catalog as the rest of the program sees it, computed once. */
  const AvailableSignals: seq<Signal> := GetAvailableSignals()

  /** A signal handed to the operating system for one process. */
  datatype Delivery = Delivery(pid: Int32, signal: int)

  /** What `SendSignal` returns (`err`) and what it asked the system to deliver (`sent`). */
  datatype SendOutcome = SendOutcome(err: Option<string>, sent: Option<Delivery>)

  /** Sends `sig` to the process `pid`. `lookup` is the outcome of finding
      the process (the error text when it is not found), `delivery` the outcome
      of the delivery itself. A failed lookup is reported and nothing is sent;
      otherwise exactly `sig` goes to `pid` and the delivery's own outcome is
      returned. */
  function SendSignal(pid: Int32, sig: int, lookup: Option<string>, delivery: Option<string>): (r: SendOutcome)
    ensures r.sent.None? <==> lookup.Some?
    ensures lookup.Some? ==> r.err == Some("process not found: " + lookup.value)
    ensures lookup.None? ==> r.sent == Some(Delivery(pid, sig)) && r.err == delivery
    ensures r.err.None? ==> r.sent.Some?
  {
    if lookup.Some? then SendOutcome(Some("process not found: " + lookup.value), None)
    else SendOutcome(delivery, Some(Delivery(pid, sig)))
  }
}
