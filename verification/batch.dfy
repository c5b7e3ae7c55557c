/** The download worker (logic.py, `run_download_logic` and
    `cancel_download`): for each URL it reports its position, launches the
    downloader with the command the builder gives, reads the output line by
    line, stores one history entry per accepted DATA line, and finally
    reports one of three outcomes. The launched process is abstracted as the
    lines it prints and its exit code (or a failure to launch); the
    callbacks into the user interface are recorded as a trace of effects. */
module Batch {
  import opened Wrappers
  import opened Seqs
  import opened Text
  import opened Numbers
  import opened Paths
  import opened History
  import opened Command
  import opened Output

  /** What one launch of the downloader produced. */
  datatype Run = Launched(lines: seq<string>, exitCode: int) | LaunchError

  /** The worker's observable effects, in order: the `status`, `progress`,
      `refresh_history` and `finish` callbacks, and the launch of a
      process. */
  datatype Effect =
    | Status(text: string, color: string)
    | Progress(percent: real)
    | Launch(args: seq<string>)
    | RefreshHistory
    | Finish(ok: bool, message: string)

  function ProcessingText(k: nat, n: nat): string {
    "Processing " + NatToString(k) + "/" + NatToString(n) + "..."
  }

  const AllComplete: string := "All Downloads Complete!"
  const FailedOrCancelled: string := "Downloads failed or cancelled."

  function CompletedText(k: nat, n: nat): string {
    "Completed " + NatToString(k) + "/" + NatToString(n)
  }

  /** The final `finish` call for `k` successes out of `n` URLs. */
  function Outcome(k: nat, n: nat): Effect {
    if k == n then Finish(true, AllComplete)
    else if k > 0 then Finish(true, CompletedText(k, n))
    else Finish(false, FailedOrCancelled)
  }

  // ----- What the read loop does with the output lines -----
  //
  // The two line classifiers are parameters here; `RunDownloadLogic` binds
  // them to `Output.ProgressOf` and `Output.RecordOf`.

  /** A progress report, then a history refresh when a record was stored. */
  function EffectsOf(progress: Option<real>, record: Option<Entry>): seq<Effect> {
    (match progress case Some(v) => [Progress(v)] case None => [])
    + (if record.Some? then [RefreshHistory] else [])
  }

  function AsList<T>(o: Option<T>): seq<T> {
    match o
    case Some(x) => [x]
    case None => []
  }

  /** The entries stored while reading `lines`, in order. */
  function LineRecords(lines: seq<string>, parse: string -> Option<Entry>): seq<Entry>
    decreases |lines|
  {
    if lines == [] then []
    else LineRecords(lines[..|lines| - 1], parse) + AsList(parse(lines[|lines| - 1]))
  }

  /** The effects of reading `lines`, in order. */
  function LinesTrace(lines: seq<string>, parse: string -> Option<Entry>, meter: string -> Option<real>): seq<Effect>
    decreases |lines|
  {
    if lines == [] then []
    else
      LinesTrace(lines[..|lines| - 1], parse, meter)
      + EffectsOf(meter(lines[|lines| - 1]), parse(lines[|lines| - 1]))
  }

  /** One more line read: its record and its effects are appended. */
  lemma LinesStep(lines: seq<string>, j: nat, parse: string -> Option<Entry>, meter: string -> Option<real>)
    requires j < |lines|
    ensures LineRecords(lines[..j + 1], parse) == LineRecords(lines[..j], parse) + AsList(parse(lines[j]))
    ensures LinesTrace(lines[..j + 1], parse, meter)
      == LinesTrace(lines[..j], parse, meter) + EffectsOf(meter(lines[j]), parse(lines[j]))
  {
    assert lines[..j + 1][..j] == lines[..j];
  }

  function RunRecords(run: Run, parse: string -> Option<Entry>): seq<Entry> {
    match run
    case Launched(lines, _) => LineRecords(lines, parse)
    case LaunchError => []
  }

  function RunTrace(run: Run, parse: string -> Option<Entry>, meter: string -> Option<real>): seq<Effect> {
    match run
    case Launched(lines, _) => LinesTrace(lines, parse, meter)
    case LaunchError => []
  }

  /** The effects of item `k` (0-based) of `n`, launched with `command`. */
  function ItemTrace(k: nat, n: nat, command: seq<string>, run: Run,
                     parse: string -> Option<Entry>, meter: string -> Option<real>): seq<Effect>
  {
    ItemHeader(k, n, command) + RunTrace(run, parse, meter)
  }

  /** What is reported before item `k` (0-based) of `n` is launched with
      `command`: its position, and the progress bar reset. */
  function ItemHeader(k: nat, n: nat, command: seq<string>): seq<Effect> {
    [Status(ProcessingText(k + 1, n), "blue"), Progress(0.0), Launch(command)]
  }

  /** The entries stored by the first `i` items. */
  function BatchRecords(runs: seq<Run>, i: nat, parse: string -> Option<Entry>): seq<Entry>
    requires i <= |runs|
  {
    if i == 0 then [] else BatchRecords(runs, i - 1, parse) + RunRecords(runs[i - 1], parse)
  }

  /** The effects of the first `i` items, each launched with the command
      `build` gives for its URL. */
  function BatchTrace(urls: seq<string>, runs: seq<Run>, i: nat, build: string -> seq<string>,
                      parse: string -> Option<Entry>, meter: string -> Option<real>): seq<Effect>
    requires i <= |urls| == |runs|
  {
    if i == 0 then []
    else
      BatchTrace(urls, runs, i - 1, build, parse, meter)
      + ItemTrace(i - 1, |urls|, build(urls[i - 1]), runs[i - 1], parse, meter)
  }

  /** One more item processed: its records and its effects are appended. */
  lemma BatchStep(urls: seq<string>, runs: seq<Run>, i: nat, build: string -> seq<string>,
                  parse: string -> Option<Entry>, meter: string -> Option<real>)
    requires i < |urls| == |runs|
    ensures BatchRecords(runs, i + 1, parse) == BatchRecords(runs, i, parse) + RunRecords(runs[i], parse)
    ensures BatchTrace(urls, runs, i + 1, build, parse, meter)
      == BatchTrace(urls, runs, i, build, parse, meter) + ItemTrace(i, |urls|, build(urls[i]), runs[i], parse, meter)
  {
  }

  /** The command builder of the worker, for the options of the batch. */
  function Builder(o: Options, ffExists: bool): string -> seq<string> {
    url => BuildCommand(o, url, ffExists)
  }

  /** The record parser of the worker: DATA lines, with relative paths
      resolved against `target` and the working directory `cwd`. */
  function Parser(target: string, cwd: string): string -> Option<Entry>
    requires IsAbs(cwd)
  {
    line => RecordOf(line, target, cwd)
  }

  // ----- What the batch promises -----

  /** There is no `finish` call in `t`. */
  predicate NoFinish(t: seq<Effect>) {
    forall i :: 0 <= i < |t| ==> !t[i].Finish?
  }

  lemma {:induction false} LinesTraceNoFinish(lines: seq<string>, parse: string -> Option<Entry>,
                                              meter: string -> Option<real>)
    ensures NoFinish(LinesTrace(lines, parse, meter))
    decreases |lines|
  {
    if lines != [] {
      LinesTraceNoFinish(lines[..|lines| - 1], parse, meter);
    }
  }

  /** Processing items never calls `finish`. */
  lemma {:induction false} BatchTraceNoFinish(urls: seq<string>, runs: seq<Run>, i: nat, build: string -> seq<string>,
                                              parse: string -> Option<Entry>, meter: string -> Option<real>)
    requires i <= |urls| == |runs|
    ensures NoFinish(BatchTrace(urls, runs, i, build, parse, meter))
  {
    if i > 0 {
      BatchTraceNoFinish(urls, runs, i - 1, build, parse, meter);
      match runs[i - 1] {
        case LaunchError =>
        case Launched(lines, _) => LinesTraceNoFinish(lines, parse, meter);
      }
    }
  }

  /** A batch calls `finish` exactly once, as its last effect. */
  lemma FinishOnceLast(urls: seq<string>, runs: seq<Run>, build: string -> seq<string>,
                       parse: string -> Option<Entry>, meter: string -> Option<real>, k: nat)
    requires |urls| == |runs|
    ensures var t := BatchTrace(urls, runs, |urls|, build, parse, meter) + [Outcome(k, |urls|)];
      forall i :: 0 <= i < |t| ==> (t[i].Finish? <==> i == |t| - 1)
  {
    BatchTraceNoFinish(urls, runs, |urls|, build, parse, meter);
  }

  /** The number of `refresh_history` calls in `t`. */
  function Refreshes(t: seq<Effect>): nat
    decreases |t|
  {
    if t == [] then 0
    else Refreshes(t[..|t| - 1]) + (if t[|t| - 1] == RefreshHistory then 1 else 0)
  }

  /** Counting refreshes distributes over concatenation. */
  lemma {:induction false} RefreshesAppend(a: seq<Effect>, b: seq<Effect>)
    ensures Refreshes(a + b) == Refreshes(a) + Refreshes(b)
    decreases |b|
  {
    if b == [] {
      assert a + b == a;
    } else {
      assert (a + b)[..|a + b| - 1] == a + b[..|b| - 1];
      RefreshesAppend(a, b[..|b| - 1]);
    }
  }

  /** The effects announcing an item include no refresh. */
  lemma HeaderNoRefresh(k: nat, n: nat, command: seq<string>)
    ensures Refreshes(ItemHeader(k, n, command)) == 0
  {
    var h := ItemHeader(k, n, command);
    assert Refreshes(h[..1]) == 0 by {
      assert h[..1][..0] == [];
    }
    assert Refreshes(h[..2]) == 0 by {
      assert h[..2][..1] == h[..1];
    }
    assert h[..|h| - 1] == h[..2];
  }

  lemma {:induction false} LinesRefreshes(lines: seq<string>, parse: string -> Option<Entry>,
                                          meter: string -> Option<real>)
    ensures Refreshes(LinesTrace(lines, parse, meter)) == |LineRecords(lines, parse)|
    decreases |lines|
  {
    if lines != [] {
      var last := lines[|lines| - 1];
      LinesRefreshes(lines[..|lines| - 1], parse, meter);
      RefreshesAppend(LinesTrace(lines[..|lines| - 1], parse, meter), EffectsOf(meter(last), parse(last)));
      var progress := match meter(last) case Some(v) => [Progress(v)] case None => [];
      RefreshesAppend(progress, if parse(last).Some? then [RefreshHistory] else []);
      assert Refreshes(progress) == 0 by {
        if progress != [] {
          assert progress[..0] == [];
        }
      }
    }
  }

  /** An item refreshes the history view once per entry it stores. */
  lemma ItemRefreshes(k: nat, n: nat, command: seq<string>, run: Run,
                      parse: string -> Option<Entry>, meter: string -> Option<real>)
    ensures Refreshes(ItemTrace(k, n, command, run, parse, meter)) == |RunRecords(run, parse)|
  {
    HeaderNoRefresh(k, n, command);
    RefreshesAppend(ItemHeader(k, n, command), RunTrace(run, parse, meter));
    match run {
      case LaunchError =>
      case Launched(lines, _) => LinesRefreshes(lines, parse, meter);
    }
  }

  /** One more item keeps the refresh count equal to the success count. */
  lemma CountStep(urls: seq<string>, runs: seq<Run>, i: nat, build: string -> seq<string>,
                  parse: string -> Option<Entry>, meter: string -> Option<real>)
    requires 0 < i <= |urls| == |runs|
    requires Refreshes(BatchTrace(urls, runs, i - 1, build, parse, meter)) == |BatchRecords(runs, i - 1, parse)|
    ensures Refreshes(BatchTrace(urls, runs, i, build, parse, meter)) == |BatchRecords(runs, i, parse)|
  {
    ItemRefreshes(i - 1, |urls|, build(urls[i - 1]), runs[i - 1], parse, meter);
    RefreshesAppend(BatchTrace(urls, runs, i - 1, build, parse, meter),
                    ItemTrace(i - 1, |urls|, build(urls[i - 1]), runs[i - 1], parse, meter));
  }

  /** Every success is announced: the success count of a batch equals the
      number of `refresh_history` calls it makes. */
  lemma {:induction false} CountIsRefreshes(urls: seq<string>, runs: seq<Run>, i: nat, build: string -> seq<string>,
                                            parse: string -> Option<Entry>, meter: string -> Option<real>)
    requires i <= |urls| == |runs|
    ensures Refreshes(BatchTrace(urls, runs, i, build, parse, meter)) == |BatchRecords(runs, i, parse)|
    decreases i
  {
    if i > 0 {
      CountIsRefreshes(urls, runs, i - 1, build, parse, meter);
      CountStep(urls, runs, i, build, parse, meter);
    }
  }

  /** Two launches printed the same lines, or both failed. */
  predicate SameOutput(r1: Run, r2: Run) {
    match r1
    case LaunchError => r2.LaunchError?
    case Launched(lines, _) => r2.Launched? && r2.lines == lines
  }

  /** The exit codes never matter: batches whose processes printed the same
      lines store the same entries and make the same calls. */
  lemma {:induction false} ExitCodeIgnored(urls: seq<string>, runs1: seq<Run>, runs2: seq<Run>, i: nat,
                                           build: string -> seq<string>, parse: string -> Option<Entry>,
                                           meter: string -> Option<real>)
    requires i <= |urls| == |runs1| == |runs2|
    requires forall j :: 0 <= j < |runs1| ==> SameOutput(runs1[j], runs2[j])
    ensures BatchRecords(runs1, i, parse) == BatchRecords(runs2, i, parse)
    ensures BatchTrace(urls, runs1, i, build, parse, meter) == BatchTrace(urls, runs2, i, build, parse, meter)
  {
    if i > 0 {
      ExitCodeIgnored(urls, runs1, runs2, i - 1, build, parse, meter);
      assert SameOutput(runs1[i - 1], runs2[i - 1]);
    }
  }

  /** The three outcomes: complete exactly when every URL succeeded (so an
      empty batch is complete), partial when some but not all did, failed
      when none did. */
  lemma OutcomeCases(k: nat, n: nat)
    ensures Outcome(k, n) == Finish(true, AllComplete) <==> k == n
    ensures Outcome(k, n) == Finish(true, CompletedText(k, n)) <==> 0 < k && k != n
    ensures Outcome(k, n) == Finish(false, FailedOrCancelled) <==> k == 0 && n != 0
  {
    assert CompletedText(k, n)[0] == 'C';
  }

  /** Two lines that both carry a record store two entries. */
  lemma TwoRecords(l1: string, l2: string, code: int, parse: string -> Option<Entry>)
    requires parse(l1).Some? && parse(l2).Some?
    ensures |BatchRecords([Launched([l1, l2], code)], 1, parse)| == 2
  {
    var lines := [l1, l2];
    assert lines[..1][..0] == [];
    assert lines[..|lines| - 1] == lines[..1];
    assert LineRecords(lines[..1], parse) == [parse(l1).value];
    assert LineRecords(lines, parse) == [parse(l1).value, parse(l2).value];
  }

  /** The message for two successes out of one URL. */
  lemma CompletedTwoOfOne()
    ensures Outcome(2, 1) == Finish(true, "Completed 2/1")
  {
    assert NatToString(2) == "2" && NatToString(1) == "1";
  }

  /** The success count is the number of accepted DATA lines, not of URLs:
      one playlist URL whose process prints two records ends "Completed 2/1",
      with the success flag set. */
  lemma PlaylistOvercount(p1: string, t1: string, d1: string, s1: string,
                          p2: string, t2: string, d2: string, s2: string,
                          target: string, cwd: string, code: int)
    requires IsAbs(cwd)
    requires CleanField(p1) && CleanField(t1) && CleanField(d1) && CleanField(s1)
    requires CleanField(p2) && CleanField(t2) && CleanField(d2) && CleanField(s2)
    ensures var runs := [Launched([DataLine(p1, t1, d1, s1), DataLine(p2, t2, d2, s2)], code)];
      var k := |BatchRecords(runs, 1, Parser(target, cwd))|;
      k == 2 && Outcome(k, 1) == Finish(true, "Completed 2/1")
  {
    var parse := Parser(target, cwd);
    RecordOfDataLine(p1, t1, d1, s1, target, cwd);
    RecordOfDataLine(p2, t2, d2, s2, target, cwd);
    TwoRecords(DataLine(p1, t1, d1, s1), DataLine(p2, t2, d2, s2), code, parse);
    CompletedTwoOfOne();
  }

  /** The worker: the process handle it holds while a download runs, the
      stored history, and the effects so far. */
  class Downloader {
    var current: Option<seq<string>>
    var history: seq<Entry>
    var trace: seq<Effect>

    constructor(h: seq<Entry>)
      ensures current == None && history == h && trace == []
    {
      current := None;
      history := h;
      trace := [];
    }

    /** `cancel_download()`: terminate the held process, if any. It reports
        success, and forgets the handle, only when a process was held and
        terminating it did not fail. */
    method Cancel(terminateOk: bool) returns (cancelled: bool)
      modifies this
      ensures cancelled == (old(current).Some? && terminateOk)
      ensures current == (if cancelled then None else old(current))
      ensures history == old(history) && trace == old(trace)
    {
      if current.Some? && terminateOk {
        current := None;
        return true;
      }
      return false;
    }

    /** One line of output: report its progress, if any, and store its
        record, if any, counting it. */
    method ReadLine(line: string, parse: string -> Option<Entry>, meter: string -> Option<real>)
      returns (stored: bool)
      modifies this
      ensures stored == parse(line).Some?
      ensures history == AddAll(old(history), AsList(parse(line)))
      ensures trace == old(trace) + EffectsOf(meter(line), parse(line))
      ensures current == old(current)
    {
      var progress := meter(line);
      var record := parse(line);
      stored := record.Some?;
      if stored {
        assert [record.value][..0] == [];
        history := Add(history, record.value);
      }
      trace := trace + EffectsOf(progress, record);
    }

    /** The read loop for one launched process: every line may report
        progress, and every accepted DATA line is stored, refreshes the
        history view and counts as one success. */
    method ReadOutput(lines: seq<string>, parse: string -> Option<Entry>, meter: string -> Option<real>)
      returns (count: nat)
      modifies this
      ensures count == |LineRecords(lines, parse)|
      ensures history == AddAll(old(history), LineRecords(lines, parse))
      ensures trace == old(trace) + LinesTrace(lines, parse, meter)
      ensures current == old(current)
    {
      var h0, t0 := history, trace;
      count := 0;
      assert t0 + [] == t0;
      for j := 0 to |lines|
        invariant history == AddAll(h0, LineRecords(lines[..j], parse))
        invariant count == |LineRecords(lines[..j], parse)|
        invariant trace == t0 + LinesTrace(lines[..j], parse, meter)
        invariant current == old(current)
      {
        LinesStep(lines, j, parse, meter);
        Regroup(t0, LinesTrace(lines[..j], parse, meter), EffectsOf(meter(lines[j]), parse(lines[j])));
        AddAllAppend(h0, LineRecords(lines[..j], parse), AsList(parse(lines[j])));
        var stored := ReadLine(lines[j], parse, meter);
        if stored {
          count := count + 1;
        }
      }
      assert lines[..|lines|] == lines;
    }

    /** One item of the batch: report its position, launch the command the
        builder gives and, when the launch succeeds, hold its handle while
        the output is read. */
    method RunItem(k: nat, n: nat, command: seq<string>, run: Run,
                   parse: string -> Option<Entry>, meter: string -> Option<real>)
      returns (count: nat)
      modifies this
      ensures count == |RunRecords(run, parse)|
      ensures history == AddAll(old(history), RunRecords(run, parse))
      ensures trace == old(trace) + ItemTrace(k, n, command, run, parse, meter)
      ensures current == None
    {
      var header := ItemHeader(k, n, command);
      Regroup(old(trace), header, RunTrace(run, parse, meter));
      trace := trace + header;
      match run {
        case LaunchError =>
          count := 0;
          assert header + [] == header;
        case Launched(lines, _) =>
          current := Some(command);
          count := ReadOutput(lines, parse, meter);
      }
      current := None;
    }

    /** The batch loop for given line classifiers. */
    method RunBatch(urls: seq<string>, runs: seq<Run>, build: string -> seq<string>,
                    parse: string -> Option<Entry>, meter: string -> Option<real>)
      returns (successCount: nat)
      requires |runs| == |urls|
      modifies this
      ensures successCount == |BatchRecords(runs, |runs|, parse)|
      ensures history == AddAll(old(history), BatchRecords(runs, |runs|, parse))
      ensures trace == old(trace) + BatchTrace(urls, runs, |urls|, build, parse, meter)
        + [Outcome(successCount, |urls|)]
      ensures current == None
    {
      var h0, t0 := history, trace;
      successCount := 0;
      current := None;
      assert t0 + [] == t0;
      for i := 0 to |urls|
        invariant history == AddAll(h0, BatchRecords(runs, i, parse))
        invariant successCount == |BatchRecords(runs, i, parse)|
        invariant trace == t0 + BatchTrace(urls, runs, i, build, parse, meter)
        invariant current == None
      {
        BatchStep(urls, runs, i, build, parse, meter);
        AddAllAppend(h0, BatchRecords(runs, i, parse), RunRecords(runs[i], parse));
        Regroup(t0, BatchTrace(urls, runs, i, build, parse, meter), ItemTrace(i, |urls|, build(urls[i]), runs[i], parse, meter));
        var count := RunItem(i, |urls|, build(urls[i]), runs[i], parse, meter);
        successCount := successCount + count;
      }
      trace := trace + [Outcome(successCount, |urls|)];
    }

    /** `run_download_logic(urls, options, callbacks)`, with `runs[i]` what the
        process launched for `urls[i]` produced, `ffExists` whether
        `ff_path` exists and `cwd` the working directory used to make paths
        absolute. Each accepted DATA line is stored in the history and
        counted; the count decides the final message. The handle is held
        only while a process runs. */
    method RunDownloadLogic(urls: seq<string>, o: Options, ffExists: bool, runs: seq<Run>, cwd: string)
      returns (successCount: nat)
      requires |runs| == |urls| && IsAbs(cwd)
      modifies this
      ensures successCount == |BatchRecords(runs, |runs|, Parser(o.targetFolder, cwd))|
      ensures history == AddAll(old(history), BatchRecords(runs, |runs|, Parser(o.targetFolder, cwd)))
      ensures trace == old(trace) + BatchTrace(urls, runs, |urls|, Builder(o, ffExists), Parser(o.targetFolder, cwd), ProgressOf)
        + [Outcome(successCount, |urls|)]
      ensures current == None
    {
      successCount := RunBatch(urls, runs, Builder(o, ffExists), Parser(o.targetFolder, cwd), ProgressOf);
    }
  }
}
