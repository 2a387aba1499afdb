/** Compaction of the whole coordinator state before it is written (electron/coordinator/persistence.ts). */
module PersistedState {
  import opened Common
  import opened Compaction
  import opened PromptDeliveries

  datatype RunStatus = Starting | Running | Draining | PausedByUser | StaleAfterRestore | Completed | Failed | Cancelled

  predicate IsTerminalRun(status: RunStatus) {
    status.Completed? || status.Failed? || status.Cancelled?
  }

  datatype StoredPrompt = StoredPrompt(id: string, status: Status, createdAt: int, deliveryJournal: seq<int>)

  datatype StoredRun = StoredRun(
    id: string,
    status: RunStatus,
    updatedAt: int,
    prompts: seq<StoredPrompt>,
    resumes: Option<seq<int>>)

  datatype Launch = Launch(runId: string, taskId: string)

  /** `bytes` is the size of the entry's JSON text. */
  datatype ToolCallResult = ToolCallResult(callId: string, createdAt: int, bytes: nat)

  datatype Stored = Stored(
    runs: seq<StoredRun>,
    stateVersion: nat,
    launches: seq<Launch>,
    toolCallResults: seq<ToolCallResult>)

  const MAX_COMPLETED_RUNS := 20
  const MAX_RESUMES_PER_RUN := 20
  const MAX_SETTLED_PROMPTS_PER_RUN := 100
  const MAX_TOOL_CALL_RESULT_BYTES := 4_194_304

  // ---- one run ----------------------------------------------------------------

  const SETTLED: StoredPrompt -> bool := (p: StoredPrompt) => !IsPending(p.status)
  const PROMPT_AT: StoredPrompt -> int := (p: StoredPrompt) => p.createdAt

  const CLEAR_JOURNAL: StoredPrompt -> StoredPrompt := (p: StoredPrompt) => p.(deliveryJournal := [])

  function ClearJournals(prompts: seq<StoredPrompt>): seq<StoredPrompt> {
    Mapped(prompts, CLEAR_JOURNAL)
  }

  function Candidates(run: StoredRun): seq<StoredPrompt> {
    if IsTerminalRun(run.status) then ClearJournals(run.prompts) else run.prompts
  }

  function CompactPrompts(run: StoredRun): seq<StoredPrompt> {
    KeepNewest(Candidates(run), SETTLED, PROMPT_AT, MAX_SETTLED_PROMPTS_PER_RUN)
  }

  /** The last resumes in list order. */
  function CompactResumes(resumes: Option<seq<int>>): Option<seq<int>> {
    if resumes.Some? && |resumes.value| > MAX_RESUMES_PER_RUN
    then Some(resumes.value[|resumes.value| - MAX_RESUMES_PER_RUN..])
    else resumes
  }

  function CompactRun(run: StoredRun): StoredRun {
    run.(prompts := CompactPrompts(run), resumes := CompactResumes(run.resumes))
  }

  // ---- the state --------------------------------------------------------------

  const TERMINAL: StoredRun -> bool := (r: StoredRun) => IsTerminalRun(r.status)
  const RUN_AT: StoredRun -> int := (r: StoredRun) => r.updatedAt
  const RESULT_AT: ToolCallResult -> int := (t: ToolCallResult) => t.createdAt
  const RESULT_SIZE: ToolCallResult -> nat := (t: ToolCallResult) => t.bytes

  function RetainedRuns(runs: seq<StoredRun>): seq<StoredRun> {
    KeepNewest(runs, TERMINAL, RUN_AT, MAX_COMPLETED_RUNS)
  }

  const COMPACT_ONE: StoredRun -> StoredRun := (r: StoredRun) => CompactRun(r)

  function CompactRuns(runs: seq<StoredRun>): seq<StoredRun> {
    Mapped(runs, COMPACT_ONE)
  }

  function LiveRunIds(runs: seq<StoredRun>): set<string> {
    set i | 0 <= i < |runs| && !IsTerminalRun(runs[i].status) :: runs[i].id
  }

  function RunIds(runs: seq<StoredRun>): set<string> {
    set i | 0 <= i < |runs| :: runs[i].id
  }

  function Compact(s: Stored): Stored {
    var runs := CompactRuns(RetainedRuns(s.runs));
    var retained, live := RunIds(runs), LiveRunIds(runs);
    Stored(runs, s.stateVersion,
           Filter(s.launches, (l: Launch) => l.runId in retained && l.runId in live),
           CapBytes(s.toolCallResults, RESULT_AT, RESULT_SIZE, MAX_TOOL_CALL_RESULT_BYTES))
  }

  /** The budget loop as the original runs it: newest first, stop at the first entry that does not fit. */
  method CapToolCallResultBytes(results: seq<ToolCallResult>) returns (kept: seq<ToolCallResult>)
    ensures kept == CapBytes(results, RESULT_AT, RESULT_SIZE, MAX_TOOL_CALL_RESULT_BYTES)
    ensures Sum(kept, RESULT_SIZE) <= MAX_TOOL_CALL_RESULT_BYTES
  {
    var newestFirst := AllNewest(results, RESULT_AT);
    var retained: seq<nat> := [];
    var totalBytes := 0;
    var i := 0;
    while i < |newestFirst|
      invariant i <= |newestFirst| && retained == newestFirst[..i]
      invariant totalBytes == SumAt(results, RESULT_SIZE, newestFirst[..i])
      invariant Fitting(results, RESULT_SIZE, newestFirst, i, MAX_TOOL_CALL_RESULT_BYTES)
             == Fitting(results, RESULT_SIZE, newestFirst, 0, MAX_TOOL_CALL_RESULT_BYTES)
    {
      var entryBytes := results[newestFirst[i]].bytes;
      assert entryBytes == RESULT_SIZE(results[newestFirst[i]]);
      if totalBytes + entryBytes > MAX_TOOL_CALL_RESULT_BYTES {
        break;
      }
      totalBytes := totalBytes + entryBytes;
      retained := retained + [newestFirst[i]];
      assert newestFirst[..i + 1][..i] == newestFirst[..i];
      i := i + 1;
    }
    CapHoldsAndIsTight(results, RESULT_AT, RESULT_SIZE, MAX_TOOL_CALL_RESULT_BYTES);
    if |retained| == |results| {
      return results;
    }
    return KeepUpTo(results, |results|, Elements(retained));
  }

  // ---- what is never dropped ----------------------------------------------------

  const LIVE := Not(TERMINAL)
  const PENDING := Not(SETTLED)

  /** Every non-terminal run is kept, in order, itself compacted. */
  lemma LiveRunsAreKept(s: Stored)
    ensures Filter(Compact(s).runs, LIVE) == CompactRuns(Filter(s.runs, LIVE))
  {
    hide KeepNewest, Filter, CompactPrompts, CompactResumes, CapBytes;
    OthersAreKept(s.runs, TERMINAL, RUN_AT, MAX_COMPLETED_RUNS);
    FilterThroughMap(RetainedRuns(s.runs), COMPACT_ONE, LIVE);
  }

  /** No run loses a pending prompt; a finished run's prompts only lose their journals. */
  lemma PendingPromptsAreKept(run: StoredRun)
    ensures var pending := Filter(run.prompts, PENDING);
            Filter(CompactRun(run).prompts, PENDING)
            == if IsTerminalRun(run.status) then ClearJournals(pending) else pending
  {
    hide KeepNewest, Filter, CompactResumes;
    if IsTerminalRun(run.status) {
      OthersAreKept(ClearJournals(run.prompts), SETTLED, PROMPT_AT, MAX_SETTLED_PROMPTS_PER_RUN);
      FilterThroughMap(run.prompts, CLEAR_JOURNAL, PENDING);
    } else {
      OthersAreKept(run.prompts, SETTLED, PROMPT_AT, MAX_SETTLED_PROMPTS_PER_RUN);
    }
  }

  lemma {:induction false} LiveIdsOfFilter(runs: seq<StoredRun>)
    ensures LiveRunIds(runs) == RunIds(Filter(runs, LIVE))
  {
    if runs == [] {
      assert LiveRunIds(runs) == {};
    } else {
      var n := |runs| - 1;
      LiveIdsOfFilter(runs[..n]);
      assert runs == runs[..n] + [runs[n]];
      LiveIdsAppend(runs[..n], runs[n]);
      var low := Filter(runs[..n], LIVE);
      RunIdsAppend(low, runs[n]);
      assert low + [] == low;
    }
  }

  lemma LiveIdsAppend(runs: seq<StoredRun>, r: StoredRun)
    ensures LiveRunIds(runs + [r]) == LiveRunIds(runs) + (if LIVE(r) then {r.id} else {})
  {
    var all := runs + [r];
    assert forall i :: 0 <= i < |runs| ==> all[i] == runs[i];
    if LIVE(r) {
      assert all[|runs|] == r;
    }
  }

  lemma RunIdsAppend(runs: seq<StoredRun>, r: StoredRun)
    ensures RunIds(runs + [r]) == RunIds(runs) + {r.id}
  {
    var all := runs + [r];
    assert forall i :: 0 <= i < |runs| ==> all[i] == runs[i];
    assert all[|runs|] == r;
  }

  lemma SameIds(runs: seq<StoredRun>)
    ensures RunIds(CompactRuns(runs)) == RunIds(runs)
  {
    forall i | 0 <= i < |runs|
      ensures CompactRuns(runs)[i].id == runs[i].id
    {
    }
  }

  /** Compaction does not change which runs are live. */
  lemma LiveIdsAreKept(s: Stored)
    ensures LiveRunIds(Compact(s).runs) == LiveRunIds(s.runs)
  {
    hide Compact, LiveRunIds, RunIds, CompactRuns;
    LiveRunsAreKept(s);
    LiveIdsOfFilter(Compact(s).runs);
    LiveIdsOfFilter(s.runs);
    SameIds(Filter(s.runs, LIVE));
  }

  /** A launch payload is kept exactly if its run is live. */
  lemma LaunchesExactlyForLiveRuns(s: Stored)
    ensures Compact(s).launches == Filter(s.launches, ForLive(s.runs))
  {
    hide KeepNewest, Filter, CompactRun, CapBytes;
    LiveIdsAreKept(s);
    var runs := Compact(s).runs;
    assert LiveRunIds(runs) <= RunIds(runs);
    FilterCongruent(s.launches, (l: Launch) => l.runId in RunIds(runs) && l.runId in LiveRunIds(runs), ForLive(s.runs));
  }

  function ForLive(runs: seq<StoredRun>): Launch -> bool {
    var live := LiveRunIds(runs);
    (l: Launch) => l.runId in live
  }

  // ---- what is dropped ------------------------------------------------------------

  /** What is kept of a kind is at least as new as anything of it that is dropped. */
  predicate KeepsNewer<T>(xs: seq<T>, kind: T -> bool, at: T -> int, kept: set<nat>) {
    forall i: nat, j: nat | i < |xs| && j < |xs| && i in kept && j !in kept && kind(xs[i]) && kind(xs[j]) ::
      at(xs[i]) >= at(xs[j])
  }

  lemma KeepNewestKeepsNewer<T>(xs: seq<T>, kind: T -> bool, at: T -> int, limit: nat)
    ensures KeepsNewer(xs, kind, at, KeptPositions(xs, kind, at, limit))
  {
    forall i: nat, j: nat | i < |xs| && j < |xs| && kind(xs[i]) && kind(xs[j])
      && i in KeptPositions(xs, kind, at, limit) && j !in KeptPositions(xs, kind, at, limit)
      ensures at(xs[i]) >= at(xs[j])
    {
      KeptAreNewer(xs, kind, at, limit, i, j);
    }
  }

  lemma CapBytesKeepsNewer<T>(xs: seq<T>, at: T -> int, size: T -> nat, limit: nat)
    ensures KeepsNewer(xs, (t: T) => true, at, Elements(Affordable(xs, at, size, limit)))
  {
    forall i: nat, j: nat | i < |xs| && j < |xs|
      && i in Elements(Affordable(xs, at, size, limit)) && j !in Elements(Affordable(xs, at, size, limit))
      ensures at(xs[i]) >= at(xs[j])
    {
      CapKeepsNewer(xs, at, size, limit, i, j);
    }
  }

  /** Of finished runs, settled prompts and tool results, at most the allowed number or bytes are kept,
      and nothing newer was dropped in favour of something older. */
  lemma LimitsHold(s: Stored, run: StoredRun)
    ensures |Filter(Compact(s).runs, TERMINAL)| == Min(MAX_COMPLETED_RUNS, |Filter(s.runs, TERMINAL)|)
    ensures |Filter(CompactRun(run).prompts, SETTLED)| <= MAX_SETTLED_PROMPTS_PER_RUN
    ensures Sum(Compact(s).toolCallResults, RESULT_SIZE) <= MAX_TOOL_CALL_RESULT_BYTES
    ensures KeepsNewer(s.runs, TERMINAL, RUN_AT, KeptPositions(s.runs, TERMINAL, RUN_AT, MAX_COMPLETED_RUNS))
    ensures KeepsNewer(Candidates(run), SETTLED, PROMPT_AT,
                       KeptPositions(Candidates(run), SETTLED, PROMPT_AT, MAX_SETTLED_PROMPTS_PER_RUN))
    ensures var results := s.toolCallResults;
            KeepsNewer(results, (t: ToolCallResult) => true, RESULT_AT,
                       Elements(Affordable(results, RESULT_AT, RESULT_SIZE, MAX_TOOL_CALL_RESULT_BYTES)))
  {
    KeepNewestKeepsNewer(s.runs, TERMINAL, RUN_AT, MAX_COMPLETED_RUNS);
    KeepNewestKeepsNewer(Candidates(run), SETTLED, PROMPT_AT, MAX_SETTLED_PROMPTS_PER_RUN);
    CapBytesKeepsNewer(s.toolCallResults, RESULT_AT, RESULT_SIZE, MAX_TOOL_CALL_RESULT_BYTES);
    hide KeepNewest, Filter, CompactResumes, CapBytes;
    KeepsExactlyTheLimit(s.runs, TERMINAL, RUN_AT, MAX_COMPLETED_RUNS);
    FilterThroughMap(RetainedRuns(s.runs), COMPACT_ONE, TERMINAL);
    KeepsExactlyTheLimit(ClearJournals(run.prompts), SETTLED, PROMPT_AT, MAX_SETTLED_PROMPTS_PER_RUN);
    KeepsExactlyTheLimit(run.prompts, SETTLED, PROMPT_AT, MAX_SETTLED_PROMPTS_PER_RUN);
    CapHoldsAndIsTight(s.toolCallResults, RESULT_AT, RESULT_SIZE, MAX_TOOL_CALL_RESULT_BYTES);
  }

  // ---- idempotence --------------------------------------------------------------------

  lemma ClearedStaysCleared(prompts: seq<StoredPrompt>)
    requires forall i :: 0 <= i < |prompts| ==> prompts[i].deliveryJournal == []
    ensures ClearJournals(prompts) == prompts
  {
  }

  lemma CompactRunIsIdempotent(run: StoredRun)
    ensures CompactRun(CompactRun(run)) == CompactRun(run)
  {
    hide KeepUpTo, KeptPositions;
    var cleared := ClearJournals(run.prompts);
    if IsTerminalRun(run.status) {
      KeepNewestIsIdempotent(cleared, SETTLED, PROMPT_AT, MAX_SETTLED_PROMPTS_PER_RUN);
      KeptAreMembers(cleared, |cleared|, KeptPositions(cleared, SETTLED, PROMPT_AT, MAX_SETTLED_PROMPTS_PER_RUN));
      ClearedStaysCleared(CompactPrompts(run));
    } else {
      KeepNewestIsIdempotent(run.prompts, SETTLED, PROMPT_AT, MAX_SETTLED_PROMPTS_PER_RUN);
    }
  }

  lemma RunsAreIdempotent(runs: seq<StoredRun>)
    ensures var once := CompactRuns(RetainedRuns(runs)); CompactRuns(RetainedRuns(once)) == once
  {
    hide Filter, CompactRun, KeptPositions, KeepUpTo;
    var once := CompactRuns(RetainedRuns(runs));
    KeepsExactlyTheLimit(runs, TERMINAL, RUN_AT, MAX_COMPLETED_RUNS);
    TerminalKept(RetainedRuns(runs));
    assert RetainedRuns(once) == once;
    forall i | 0 <= i < |once|
      ensures CompactRun(once[i]) == once[i]
    {
      CompactRunIsIdempotent(RetainedRuns(runs)[i]);
    }
  }

  lemma TerminalKept(runs: seq<StoredRun>)
    ensures |Filter(CompactRuns(runs), TERMINAL)| == |Filter(runs, TERMINAL)|
  {
    hide Filter, CompactPrompts, CompactResumes;
    FilterThroughMap(runs, COMPACT_ONE, TERMINAL);
  }

  /** Compacting what was compacted changes nothing. */
  lemma CompactIsIdempotent(s: Stored)
    ensures Compact(Compact(s)) == Compact(s)
  {
    hide Filter, CompactRuns, RetainedRuns, CapBytes, LiveRunIds, RunIds;
    RunsAreIdempotent(s.runs);
    LaunchesExactlyForLiveRuns(s);
    LaunchesExactlyForLiveRuns(Compact(s));
    LiveIdsAreKept(s);
    FilterTwice(s.launches, ForLive(s.runs));
    FilterCongruent(Compact(s).launches, ForLive(Compact(s).runs), ForLive(s.runs));
    CapIsIdempotent(s.toolCallResults, RESULT_AT, RESULT_SIZE, MAX_TOOL_CALL_RESULT_BYTES);
  }
}
