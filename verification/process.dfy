/**
 * The process list shown by the dashboard (internal/system/process.go).
 *
 * Enumerating processes and querying each one are operating system calls:
 * a process as enumerated is a `RawProcess` holding the outcome of every
 * query the source makes about it. Percentages are carried as `real` values.
 */
module Processes {
  import opened Wrappers

  /** One enumerated process and the outcomes of its name, CPU, memory and status queries. */
  datatype RawProcess = RawProcess(
    pid: Int32,
    name: Result<string, string>,
    cpu: Result<real, string>,
    memory: Result<real, string>,
    status: Result<seq<string>, string>)

  datatype ProcessInfo = ProcessInfo(pid: Int32, name: string, cpu: real, memory: real, status: string)

  /** The value a query yields when its error is ignored: the zero value on failure. */
  function OrZero<T>(r: Result<T, string>, zero: T): (v: T)
    ensures r.Success? ==> v == r.value
    ensures r.Failure? ==> v == zero
  {
    if r.Success? then r.value else zero
  }

  /** `strings.Join`: the parts with `sep` between consecutive ones. */
  function Join(parts: seq<string>, sep: string): (s: string)
    decreases |parts|
  {
    if |parts| == 0 then ""
    else if |parts| == 1 then parts[0]
    else parts[0] + sep + Join(parts[1..], sep)
  }

  /** `strings.Split` on a one-character separator: the pieces between separators, at least one. */
  function Split(s: string, d: char): (parts: seq<string>)
    ensures |parts| >= 1
    decreases |s|
  {
    if s == [] then [""]
    else
      var rest := Split(s[1..], d);
      if s[0] == d then [""] + rest else [[s[0]] + rest[0]] + rest[1..]
  }

  lemma {:induction false} SplitPrefix(p: string, tail: string, d: char)
    requires d !in p
    ensures Split(p + tail, d) == [p + Split(tail, d)[0]] + Split(tail, d)[1..]
    decreases |p|
  {
    var t := Split(tail, d);
    if p == [] {
      assert p + tail == tail;
      assert p + t[0] == t[0];
      assert t == [t[0]] + t[1..];
    } else {
      var s := p + tail;
      assert s[0] == p[0] != d;
      assert s[1..] == p[1..] + tail;
      SplitPrefix(p[1..], tail, d);
      var rest := Split(s[1..], d);
      assert rest == [p[1..] + t[0]] + t[1..];
      assert Split(s, d) == [[p[0]] + rest[0]] + rest[1..];
      assert [p[0]] + (p[1..] + t[0]) == p + t[0];
    }
  }

  /** Splitting a joined status on its separator gives the status strings back,
      provided there is at least one and none contains the separator. */
  lemma {:induction false} SplitJoin(parts: seq<string>, d: char)
    requires |parts| >= 1
    requires forall i :: 0 <= i < |parts| ==> d !in parts[i]
    ensures Split(Join(parts, [d]), d) == parts
    decreases |parts|
  {
    if |parts| == 1 {
      SplitPrefix(parts[0], "", d);
      assert parts[0] + "" == parts[0];
    } else {
      var rest := Join(parts[1..], [d]);
      assert Join(parts, [d]) == parts[0] + ([d] + rest);
      SplitPrefix(parts[0], [d] + rest, d);
      assert ([d] + rest)[0] == d && ([d] + rest)[1..] == rest;
      assert Split([d] + rest, d) == [""] + Split(rest, d);
      SplitJoin(parts[1..], d);
      assert parts[0] + "" == parts[0];
      assert parts == [parts[0]] + parts[1..];
    }
  }

  /** The record kept for a process whose name was resolved. */
  function Info(p: RawProcess): (info: ProcessInfo)
    requires p.name.Success?
    ensures info.pid == p.pid && info.name == p.name.value
    ensures info.cpu == OrZero(p.cpu, 0.0) && info.memory == OrZero(p.memory, 0.0)
    ensures info.status == Join(OrZero(p.status, []), ",")
  {
    ProcessInfo(p.pid, p.name.value, OrZero(p.cpu, 0.0), OrZero(p.memory, 0.0),
      Join(OrZero(p.status, []), ","))
  }

  /** The process list built from `ps`: every process whose name resolves, in input order. */
  function Collect(ps: seq<RawProcess>): (list: seq<ProcessInfo>)
    decreases |ps|
  {
    if ps == [] then []
    else
      var last := ps[|ps| - 1];
      Collect(ps[..|ps| - 1]) + if last.name.Failure? then [] else [Info(last)]
  }

  /** The positions of `ps` whose name resolves, in increasing order. */
  function Kept(ps: seq<RawProcess>): (idx: seq<nat>)
    ensures forall k :: 0 <= k < |idx| ==> idx[k] < |ps| && ps[idx[k]].name.Success?
    ensures forall k, l :: 0 <= k < l < |idx| ==> idx[k] < idx[l]
    ensures forall i :: 0 <= i < |ps| && ps[i].name.Success? ==> i in idx
    decreases |ps|
  {
    if ps == [] then []
    else
      var front := ps[..|ps| - 1];
      assert forall i :: 0 <= i < |front| ==> front[i] == ps[i];
      Kept(front) + if ps[|ps| - 1].name.Failure? then [] else [|ps| - 1]
  }

  /** The list holds exactly the resolved processes, in input order, never more
      entries than were enumerated. */
  lemma {:induction false} CollectIsKept(ps: seq<RawProcess>)
    ensures |Collect(ps)| == |Kept(ps)| <= |ps|
    ensures forall k :: 0 <= k < |Kept(ps)| ==> Collect(ps)[k] == Info(ps[Kept(ps)[k]])
    decreases |ps|
  {
    if ps != [] {
      var front := ps[..|ps| - 1];
      CollectIsKept(front);
      assert forall i :: 0 <= i < |front| ==> front[i] == ps[i];
    }
  }

  /** `GetProcessList`: on an enumeration failure its error; otherwise, in input
      order, a record for each process whose name resolves, with failed CPU,
      memory and status queries read as zero values. */
  method GetProcessList(processes: Result<seq<RawProcess>, string>) returns (r: Result<seq<ProcessInfo>, string>)
    ensures processes.Failure? ==> r == Failure(processes.error)
    ensures processes.Success? ==> r == Success(Collect(processes.value))
  {
    if processes.Failure? {
      return Failure(processes.error);
    }
    var ps := processes.value;
    var processList: seq<ProcessInfo> := [];
    var i := 0;
    while i < |ps|
      invariant 0 <= i <= |ps|
      invariant processList == Collect(ps[..i])
    {
      assert ps[..i + 1][..i] == ps[..i];
      if ps[i].name.Failure? {
        i := i + 1;
        continue;
      }
      processList := processList + [Info(ps[i])];
      i := i + 1;
    }
    assert ps[..i] == ps;
    return Success(processList);
  }
}
