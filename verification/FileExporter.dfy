/**
 The local JSONL exporter: one file per day, a size cap checked before each write, and a drop counter
 that it shares with the span processor feeding it. A batch refused by the cap is counted by the
 exporter and reported as a success; an I/O error is reported and counted by the processor.
 */
module FileExporter {
  import opened Prelude
  import P = SpanProcessor

  /** Days, as chrono's `NaiveDate` orders them. */
  type Date = int

  /**
   What the clock, the serialiser and the file system do during one export: today's date, whether the
   directory and file can be opened, whether `metadata` succeeds, the length of the serialised line
   (none if serialising fails), and how many bytes the write got out before it failed, if it failed.
   */
  datatype Io = Io(today: Date, opens: bool, metadata: bool, line: Option<nat>, torn: Option<nat>)

  /** `files` maps each existing day file to its size; `written` and `capped` record the spans of the
      lines written and of the batches the cap refused. */
  datatype Exporter = Exporter(
    currentDate: Date,
    currentFile: Option<Date>,
    files: map<Date, nat>,
    written: seq<P.Span>,
    capped: seq<P.Span>)

  /** Rotation and opening: afterwards the open file, if any, is today's. */
  function Opened(x: Exporter, io: Io): Exporter {
    var y := if io.today != x.currentDate then x.(currentDate := io.today, currentFile := None) else x;
    if y.currentFile.Some? || !io.opens then y
    else y.(currentFile := Some(y.currentDate),
            files := if y.currentDate in y.files then y.files else y.files[y.currentDate := 0])
  }

  function Size(files: map<Date, nat>, d: Date): nat {
    if d in files then files[d] else 0
  }

  /** The bytes a write leaves in the file. */
  function BytesOut(line: nat, torn: Option<nat>): nat {
    if torn.Some? then Min(torn.value, line) else line
  }

  /** One export: the new exporter, and whether it reports success. */
  function Write(x: Exporter, cap: nat, io: Io, batch: seq<P.Span>): (Exporter, bool) {
    var y := Opened(x, io);
    if y.currentFile.None? then (y, false)
    else
      var d := y.currentFile.value;
      if (if io.metadata then Size(y.files, d) else 0) >= cap then (y.(capped := y.capped + batch), true)
      else if io.line.None? then (y, false)
      else
        var grown := y.(files := y.files[d := Size(y.files, d) + BytesOut(io.line.value, io.torn)]);
        if io.torn.Some? then (grown, false) else (grown.(written := grown.written + batch), true)
  }

  // ----- the processor and the exporter together, on one counter -----

  datatype System = System(processor: P.State, exporter: Exporter, counter: nat)

  function Initial(capacity: nat, today: Date, files: map<Date, nat>): System {
    System(P.Initial(capacity), Exporter(today, None, files, [], []), 0)
  }

  /** Any processor step but the end of an export, or an export carried out by the file exporter. */
  datatype Step = Task(step: P.Step) | Export(io: Io)

  function Apply(cap: nat, s: System, step: Step): System {
    match step
    case Task(t) =>
      if t.Exported? then s
      else
        var p := P.Apply(s.processor, t);
        var more := if p.dropped > s.processor.dropped then p.dropped - s.processor.dropped else 0;
        s.(processor := p, counter := s.counter + more)
    case Export(io) =>
      if !s.processor.phase.Exporting? then s
      else
        var batch := s.processor.phase.spans;
        var (x, ok) := Write(s.exporter, cap, io, batch);
        var p := P.Apply(s.processor, P.Exported(if ok then P.Delivered else P.Failed));
        System(p, x, s.counter + (|x.capped| - |s.exporter.capped|) + (if ok then 0 else |batch|))
  }

  function Run(cap: nat, s: System, steps: seq<Step>): System {
    if steps == [] then s else Apply(cap, Run(cap, s, steps[..|steps| - 1]), steps[|steps| - 1])
  }

  /** The exports reported as successes are the written and the capped spans; both parties' counts add up. */
  ghost predicate Shared(calls: seq<P.Call>, dropped: nat, x: Exporter, counter: nat) {
    && multiset(P.Having(calls, true)) == multiset(x.written) + multiset(x.capped)
    && counter == dropped + |x.capped|
  }

  /** A successful export either wrote the batch or counted it against the cap; a failed one did neither. */
  lemma WriteAccounts(x: Exporter, cap: nat, io: Io, batch: seq<P.Span>)
    ensures var (y, ok) := Write(x, cap, io, batch);
            || (ok && y.written == x.written + batch && y.capped == x.capped)
            || (ok && y.written == x.written && y.capped == x.capped + batch)
            || (!ok && y.written == x.written && y.capped == x.capped)
  {
  }

  lemma ExportShares(calls: seq<P.Call>, dropped: nat, x: Exporter, counter: nat, cap: nat, io: Io, batch: seq<P.Span>)
    requires Shared(calls, dropped, x, counter)
    ensures var (y, ok) := Write(x, cap, io, batch);
            Shared(calls + [P.Call(batch, ok)], dropped + (if ok then 0 else |batch|), y,
                   counter + (|y.capped| - |x.capped|) + (if ok then 0 else |batch|))
  {
    WriteAccounts(x, cap, io, batch);
    P.Snoc(calls, P.Call(batch, Write(x, cap, io, batch).1));
  }

  lemma OnlyExportsComplete(p: P.State, t: P.Step)
    requires !t.Exported?
    ensures P.Apply(p, t).calls == p.calls && P.Apply(p, t).dropped >= p.dropped
  {
  }

  lemma TaskShares(cap: nat, s: System, t: P.Step)
    requires Shared(s.processor.calls, s.processor.dropped, s.exporter, s.counter)
    ensures var q := Apply(cap, s, Task(t)); Shared(q.processor.calls, q.processor.dropped, q.exporter, q.counter)
  {
    if !t.Exported? {
      OnlyExportsComplete(s.processor, t);
    }
  }

  lemma StepShares(cap: nat, s: System, step: Step)
    requires Shared(s.processor.calls, s.processor.dropped, s.exporter, s.counter)
    ensures var q := Apply(cap, s, step); Shared(q.processor.calls, q.processor.dropped, q.exporter, q.counter)
  {
    match step
    case Task(t) => TaskShares(cap, s, t);
    case Export(io) =>
      if s.processor.phase.Exporting? {
        var p, batch := s.processor, s.processor.phase.spans;
        var ok := Write(s.exporter, cap, io, batch).1;
        ExportShares(p.calls, p.dropped, s.exporter, s.counter, cap, io, batch);
        assert Apply(cap, s, step).processor.calls == p.calls + [P.Call(batch, ok)];
        assert Apply(cap, s, step).processor.dropped == p.dropped + if ok then 0 else |batch|;
      }
  }

  /** An export step ends the processor's export with what the exporter reported, and leaves what it wrote. */
  lemma ExportCompletes(cap: nat, s: System, io: Io)
    requires s.processor.phase.Exporting?
    ensures var batch, q := s.processor.phase.spans, Apply(cap, s, Export(io));
            var (x, ok) := Write(s.exporter, cap, io, batch);
            && q.exporter == x && !q.processor.phase.Exporting?
            && q.processor.calls == s.processor.calls + [P.Call(batch, ok)]
            && q.processor.dropped == s.processor.dropped + (if ok then 0 else |batch|)
  {
  }

  lemma ProcessorKeeps(cap: nat, s: System, step: Step)
    requires P.Invariant(s.processor)
    ensures P.Invariant(Apply(cap, s, step).processor)
  {
    match step
    case Task(t) => P.StepKeeps(s.processor, t);
    case Export(io) =>
      if s.processor.phase.Exporting? {
        var ok := Write(s.exporter, cap, io, s.processor.phase.spans).1;
        P.StepKeeps(s.processor, P.Exported(if ok then P.Delivered else P.Failed));
      }
  }

  lemma {:induction false} RunKeeps(cap: nat, s: System, steps: seq<Step>)
    requires P.Invariant(s.processor) && Shared(s.processor.calls, s.processor.dropped, s.exporter, s.counter)
    ensures var q := Run(cap, s, steps);
            P.Invariant(q.processor) && Shared(q.processor.calls, q.processor.dropped, q.exporter, q.counter)
  {
    if steps != [] {
      var init := steps[..|steps| - 1];
      RunKeeps(cap, s, init);
      StepShares(cap, Run(cap, s, init), steps[|steps| - 1]);
      ProcessorKeeps(cap, Run(cap, s, init), steps[|steps| - 1]);
    }
  }

  /**
   The shared counter never counts a span twice and never misses one: over every run each offered
   span is written, or counted (rejected by the queue, refused by the cap, or lost to an I/O error),
   or still on its way, and the counter is exactly the number of the counted ones.
   */
  lemma SharedCounterIsExact(cap: nat, capacity: nat, today: Date, files: map<Date, nat>, steps: seq<Step>)
    ensures var s := Run(cap, Initial(capacity, today, files), steps);
            var counted := s.processor.rejected + P.Having(s.processor.calls, false) + s.exporter.capped;
            && multiset(s.processor.offered) ==
               multiset(s.exporter.written) + multiset(counted)
               + multiset(P.InFlight(s.processor)) + multiset(s.processor.batch) + multiset(s.processor.queue)
            && s.counter == |counted|
  {
    RunKeeps(cap, Initial(capacity, today, files), steps);
    P.Accounted(Run(cap, Initial(capacity, today, files), steps).processor);
  }

  // ----- the size cap -----

  function LineLength(io: Io): nat {
    if io.line.Some? then io.line.value else 0
  }

  /** Metadata reads that failed in a run; each of them can let one more line through. */
  function Blind(steps: seq<Step>): nat {
    if steps == [] then 0
    else Blind(steps[..|steps| - 1]) + if steps[|steps| - 1].Export? && !steps[|steps| - 1].io.metadata then 1 else 0
  }

  /** How large the file of day `d` may get: one that started below the cap, less than the cap plus one line;
      one that started at or above the cap, no larger than it was. */
  function Limit(before: map<Date, nat>, d: Date, cap: nat, longest: nat): nat {
    if Size(before, d) >= cap then Size(before, d) else cap - 1 + longest
  }

  /** No file shrank, and none is beyond its limit by more than `extra`. */
  ghost predicate Within(before: map<Date, nat>, files: map<Date, nat>, cap: nat, longest: nat, extra: nat) {
    forall d: Date :: Size(before, d) <= Size(files, d) <= Limit(before, d, cap, longest) + extra
  }

  /** One export changes at most one file's size, by at most one line, and not if it is seen to be full. */
  lemma WriteSizes(x: Exporter, cap: nat, io: Io, batch: seq<P.Span>, d: Date)
    ensures var size, after := Size(x.files, d), Size(Write(x, cap, io, batch).0.files, d);
            size <= after <= size + LineLength(io) && (io.metadata && size >= cap ==> after == size)
  {
  }

  /** The open file is that of the exporter's day. */
  predicate Consistent(x: Exporter) {
    x.currentFile.Some? ==> x.currentFile.value == x.currentDate
  }

  /** Opening leaves today's file open, or none; it is open exactly if it could be opened or already was. */
  lemma OpensToday(x: Exporter, io: Io)
    requires Consistent(x)
    ensures var y := Opened(x, io);
            && Consistent(y) && y.currentDate == io.today
            && (y.currentFile == Some(io.today) <==> io.opens || x.currentFile == Some(io.today))
            && (y.currentFile.Some? ==> y.currentFile.value == io.today)
            && (forall d :: Size(y.files, d) == Size(x.files, d))
  {
  }

  /** What one export does to a file of the day `d`: only today's grows, and by the line's length unless the write
      failed half-way. */
  lemma OnlyTodayGrows(x: Exporter, cap: nat, io: Io, batch: seq<P.Span>, d: Date)
    requires Consistent(x)
    ensures var y := Write(x, cap, io, batch).0;
            Consistent(y) && (Size(y.files, d) != Size(x.files, d) ==> d == io.today && io.line.Some?)
  {
    OpensToday(x, io);
  }

  /** Over every run, a day file that grew was written to on that day. */
  lemma {:induction false} FilesGrowOnTheirDay(cap: nat, capacity: nat, today: Date, files: map<Date, nat>,
                                               steps: seq<Step>, d: Date)
    ensures var s := Run(cap, Initial(capacity, today, files), steps);
            && Consistent(s.exporter)
            && (Size(s.exporter.files, d) != Size(files, d) ==>
                  exists i :: 0 <= i < |steps| && steps[i].Export? && steps[i].io.today == d)
  {
    if steps != [] {
      var init, last := steps[..|steps| - 1], steps[|steps| - 1];
      FilesGrowOnTheirDay(cap, capacity, today, files, init, d);
      var q := Run(cap, Initial(capacity, today, files), init);
      if last.Export? && q.processor.phase.Exporting? {
        OnlyTodayGrows(q.exporter, cap, last.io, q.processor.phase.spans, d);
      }
      assert steps[|steps| - 1] == last && forall i :: 0 <= i < |init| ==> steps[i] == init[i];
    }
  }

  lemma WriteWithin(before: map<Date, nat>, x: Exporter, cap: nat, io: Io, batch: seq<P.Span>, longest: nat, extra: nat)
    requires Within(before, x.files, cap, longest, extra) && LineLength(io) <= longest
    ensures Within(before, Write(x, cap, io, batch).0.files, cap, longest,
                   if io.metadata then extra else extra + longest)
  {
    var y := Write(x, cap, io, batch).0.files;
    forall d: Date
      ensures Size(before, d) <= Size(y, d)
      ensures Size(y, d) <= Limit(before, d, cap, longest) + if io.metadata then extra else extra + longest
    {
      WriteSizes(x, cap, io, batch, d);
    }
  }

  /**
   Over every run from any files, with any rotation, torn writes included: a day file that started below
   the cap grows at most to the cap less one byte plus one line, and one that started at or above the cap
   does not grow, except for one more line for each metadata read that fails.
   */
  lemma {:induction false} FilesStayWithinCap(cap: nat, s: System, steps: seq<Step>, longest: nat)
    requires forall i :: 0 <= i < |steps| && steps[i].Export? ==> LineLength(steps[i].io) <= longest
    ensures Within(s.exporter.files, Run(cap, s, steps).exporter.files, cap, longest, longest * Blind(steps))
  {
    if steps != [] {
      var init, last := steps[..|steps| - 1], steps[|steps| - 1];
      FilesStayWithinCap(cap, s, init, longest);
      var q := Run(cap, s, init);
      if last.Export? && q.processor.phase.Exporting? {
        var batch := q.processor.phase.spans;
        WriteWithin(s.exporter.files, q.exporter, cap, last.io, batch, longest, longest * Blind(init));
      }
      assert longest * (Blind(init) + 1) == longest * Blind(init) + longest;
    }
  }

  // ----- the exporter's method, on fields updated in place -----

  class DropCounter {
    var value: nat
    constructor () ensures value == 0 { value := 0; }
  }

  class JsonlFileExporter {
    const sizeCap: nat
    const dropCounter: DropCounter?
    var currentDate: Date
    var currentFile: Option<Date>
    var files: map<Date, nat>
    ghost var written: seq<P.Span>
    ghost var capped: seq<P.Span>

    ghost function Abstract(): Exporter
      reads this
    {
      Exporter(currentDate, currentFile, files, written, capped)
    }

    constructor (today: Date, sizeCap: nat, dropCounter: DropCounter?, existing: map<Date, nat>)
      ensures Abstract() == Exporter(today, None, existing, [], []) && Consistent(Abstract())
      ensures this.sizeCap == sizeCap && this.dropCounter == dropCounter
    {
      this.sizeCap, this.dropCounter := sizeCap, dropCounter;
      currentDate, currentFile, files := today, None, existing;
      written, capped := [], [];
    }

    method EnsureFile(io: Io) returns (ok: bool)
      requires Consistent(Abstract())
      modifies this
      ensures Abstract() == Opened(old(Abstract()), io) && Consistent(Abstract())
      ensures ok <==> io.opens || old(currentFile) == Some(io.today)
      ensures currentFile == if ok then Some(io.today) else None
      ensures forall d: Date :: Size(files, d) == old(Size(files, d))
      ensures written == old(written) && capped == old(capped)
    {
      if io.today != currentDate {
        currentDate := io.today;
        currentFile := None;
      }
      if currentFile.None? {
        if !io.opens {
          return false;
        }
        if currentDate !in files {
          files := files[currentDate := 0];
        }
        currentFile := Some(currentDate);
      }
      return true;
    }

    /**
     Nothing is written unless today's file is open; a batch that finds it at the cap is counted and reported
     as written; a line that cannot be serialised or is torn is an error and not counted; otherwise the line
     goes to the end of today's file and nowhere else.
     */
    method WriteBatch(io: Io, batch: seq<P.Span>) returns (ok: bool)
      requires Consistent(Abstract())
      modifies this, dropCounter
      ensures (Abstract(), ok) == Write(old(Abstract()), sizeCap, io, batch) && Consistent(Abstract())
      ensures dropCounter != null ==> dropCounter.value == old(dropCounter.value) + (|capped| - |old(capped)|)
      ensures var open := io.opens || old(currentFile) == Some(io.today);
              var full := (io.metadata && old(Size(files, io.today)) >= sizeCap) || sizeCap == 0;
              && ok == (open && (full || (io.line.Some? && io.torn.None?)))
              && capped == old(capped) + (if open && full then batch else [])
              && written == old(written) + (if ok && !full then batch else [])
              && (forall d: Date :: Size(files, d) == old(Size(files, d)) +
                    if d == io.today && open && !full && io.line.Some? then BytesOut(io.line.value, io.torn) else 0)
    {
      var ready := EnsureFile(io);
      if !ready {
        return false;
      }
      var d := currentFile.value;
      var size := if io.metadata then Size(files, d) else 0;
      if size >= sizeCap {
        if dropCounter != null {
          dropCounter.value := dropCounter.value + |batch|;
        }
        capped := capped + batch;
        return true;
      }
      if io.line.None? {
        return false;
      }
      files := files[d := Size(files, d) + BytesOut(io.line.value, io.torn)];
      if io.torn.Some? {
        return false;
      }
      written := written + batch;
      return true;
    }
  }
}
