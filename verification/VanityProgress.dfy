/** How soon the search ends once it is stopped, and how far the progress mark can lag behind
    (src/hot_wallet/mod.rs). */
module VanityProgress {
  import opened VanitySearch

  // ----- After the flag is up -----

  /** The candidate that a worker may still test. */
  function MayTest(k: Worker): int {
    if k.pc.Testing? then 1 else 0
  }

  /** How many steps a worker can still take once it sees the flag: it finishes the candidate at hand and
      whatever that sets off, and leaves. */
  function StepsLeft(k: Worker): int {
    match k.pc
    case Testing => 6
    case AddingChunk => 5
    case Loading(_) => 4
    case Exchanging(_, _) => 3
    case AddingFinal => 3
    case Checking => 2
    case Swapping => 2
    case Failing => 2
    case Sending => 1
    case SendingError => 1
    case Flushing => 1
    case Done => 0
  }

  lemma {:induction false} StoppedStep(search: Search, s: State, w: nat)
    requires s.stopped && w < |s.workers| && s.workers[w].pc != Done
    ensures var s', k, k' := Step(search, s, w), s.workers[w], Moved(search, s, w);
            && s'.stopped && |s'.workers| == |s.workers|
            && k'.tested + MayTest(k') <= k.tested + MayTest(k) && k.tested <= k'.tested
            && StepsLeft(k') < StepsLeft(k)
            && forall v :: 0 <= v < |s.workers| && v != w ==> s'.workers[v] == s.workers[v]
  {
  }

  /** Once the flag is up it stays up, and no worker tests more than the candidate that it has at hand. */
  lemma {:induction false} StoppedTests(search: Search, states: seq<State>, schedule: seq<nat>, i: nat, j: nat, w: nat)
    requires Run(search, states, schedule) && i <= j < |states| && states[i].stopped && w < |states[i].workers|
    ensures states[j].stopped && |states[j].workers| == |states[i].workers|
    ensures var k, k' := states[i].workers[w], states[j].workers[w];
            k.tested <= k'.tested && k'.tested + MayTest(k') <= k.tested + MayTest(k) <= k.tested + 1
  {
    hide Step, Start;
    if i < j {
      StoppedTests(search, states, schedule, i, j - 1, w);
      StoppedStep(search, states[j - 1], schedule[j - 1]);
    }
  }

  /** Every interleaving ends within six steps of each worker after the flag is up. */
  lemma {:induction false} StoppedSoon(search: Search, states: seq<State>, schedule: seq<nat>, i: nat, j: nat)
    requires Run(search, states, schedule) && i <= j < |states| && states[i].stopped
    ensures (j - i) + Sum(StepsLeft, states[j].workers) <= Sum(StepsLeft, states[i].workers) <= 6 * search.n
    ensures Sum(StepsLeft, states[j].workers) >= 0
  {
    hide Step, Start, Valid, Sum, Moved, StepsLeft;
    RunIsValid(search, states, schedule, i);
    WorkerCount(search, states[i]);
    StepsBound(states[i].workers);
    StepsBound(states[j].workers);
    if i < j {
      StoppedSoon(search, states, schedule, i, j - 1);
      var s, w := states[j - 1], schedule[j - 1];
      FlagStays(search, states, schedule, i, j - 1);
      StoppedStep(search, s, w);
      StepReplacesOne(search, s, w);
      SumUpdate(StepsLeft, s.workers, w, Moved(search, s, w));
    }
  }

  lemma {:induction false} FlagStays(search: Search, states: seq<State>, schedule: seq<nat>, i: nat, j: nat)
    requires Run(search, states, schedule) && i <= j < |states| && states[i].stopped
    ensures states[j].stopped
  {
    hide Step, Start;
    if i < j {
      FlagStays(search, states, schedule, i, j - 1);
      StoppedStep(search, states[j - 1], schedule[j - 1]);
    }
  }

  lemma {:induction false} WorkerCount(search: Search, s: State)
    requires Valid(search, s)
    ensures |s.workers| == search.n
  {
  }

  lemma {:induction false} StepsBound(workers: seq<Worker>)
    ensures 0 <= Sum(StepsLeft, workers) <= 6 * |workers|
  {
    if workers != [] {
      StepsBound(workers[1..]);
    }
  }

  lemma {:induction false} TestedBound(before: seq<Worker>, after: seq<Worker>)
    requires |before| == |after| && forall w :: 0 <= w < |before| ==> after[w].tested <= before[w].tested + 1
    ensures Sum(Tested, after) <= Sum(Tested, before) + |before|
  {
    if before != [] {
      TestedBound(before[1..], after[1..]);
    }
  }

  /** So the attempts of a complete search exceed the candidates tested when the flag went up by at most
      one for each worker. */
  lemma {:induction false} StoppedAttempts(search: Search, states: seq<State>, schedule: seq<nat>, i: nat)
    requires search.n > 0 && Run(search, states, schedule) && AllDone(states[|schedule|])
    requires i <= |schedule| && states[i].stopped
    ensures states[|schedule|].attempts <= Sum(Tested, states[i].workers) + search.n
  {
    var last := states[|schedule|];
    SearchOutcome(search, states, schedule);
    RunIsValid(search, states, schedule, i);
    WorkerCount(search, states[i]);
    assert |last.workers| == search.n by {
      RunIsValid(search, states, schedule, |schedule|);
      WorkerCount(search, last);
    }
    hide Run, Valid, Sum, MessageValid;
    forall w | 0 <= w < |last.workers|
      ensures last.workers[w].tested <= states[i].workers[w].tested + 1
    {
      StoppedTests(search, states, schedule, i, |schedule|, w);
    }
    TestedBound(states[i].workers, last.workers);
  }

  // ----- The progress mark -----

  predicate InReport(pc: Pc) {
    pc.Loading? || pc.Exchanging?
  }

  /** A report that is due is never lost: a worker that has counted a million past the mark does not go on
      before the mark has risen by a million. */
  lemma {:induction false} DueReportIsMade(search: Search, states: seq<State>, schedule: seq<nat>, i: nat, j: nat, w: nat)
    requires Run(search, states, schedule) && i <= j < |states| && w < |states[i].workers|
    requires states[i].workers[w].pc.Loading? && states[i].workers[w].pc.total >= states[i].mark + REPORT_INTERVAL
    ensures |states[j].workers| == |states[i].workers| && states[i].mark <= states[j].mark
    ensures || states[i].mark + REPORT_INTERVAL <= states[j].mark
            || (&& states[j].mark == states[i].mark
                && states[j].workers[w].pc in {states[i].workers[w].pc, Exchanging(states[i].workers[w].pc.total, states[i].mark)})
  {
    if i < j {
      DueReportIsMade(search, states, schedule, i, j - 1, w);
      RunIsValid(search, states, schedule, j - 1);
      hide SharedValid, Position, VanitySearch.History;
      assert WorkerValid(search, states[j - 1], schedule[j - 1], states[j - 1].workers[schedule[j - 1]]);
      MarkStep(search, states[j - 1], schedule[j - 1]);
      hide Step, Start, WorkerValid;
    }
  }

  // The mark moves only by an exchange, and then by a million at least.
  lemma {:induction false} MarkStep(search: Search, s: State, w: nat)
    requires w < |s.workers| && s.workers[w].pc != Done && Flags(s, s.workers[w])
    ensures var s', k, k' := Step(search, s, w), s.workers[w], Moved(search, s, w);
            && |s'.workers| == |s.workers|
            && (s'.mark == s.mark || s'.mark >= s.mark + REPORT_INTERVAL)
            && (forall v :: 0 <= v < |s.workers| && v != w ==> s'.workers[v] == s.workers[v])
            && (k.pc.Loading? && k.pc.total >= s.mark + REPORT_INTERVAL ==>
                  k'.pc == Exchanging(k.pc.total, s.mark) && s'.mark == s.mark)
            && (k.pc.Exchanging? && k.pc.previous == s.mark ==> s'.mark == k.pc.total)
  {
  }

  /** A worker that holds a report which can still be accepted. */
  predicate Live(mark: nat, k: Worker) {
    || (k.pc.Loading? && k.pc.total >= mark + REPORT_INTERVAL)
    || (k.pc.Exchanging? && k.pc.previous == mark)
  }

  /** A worker whose last attempts have been added. */
  predicate Finished(k: Worker) {
    k.pc.Swapping? || k.pc.Sending? || k.pc.Done?
  }

  // What a worker may have added since the oldest live report.
  function Share(mark: nat): Worker -> int {
    k => if Live(mark, k) || Finished(k) then 1 else 0
  }

  predicate Counted(k: Worker) {
    k.pending <= CHUNK && (k.pc.Checking? || k.pc.Testing? || InReport(k.pc) ==> k.pending < CHUNK)
  }

  predicate StaleIsSmall(mark: nat, k: Worker) {
    k.pc.Exchanging? && k.pc.previous != mark ==> k.pc.total < mark + REPORT_INTERVAL
  }

  predicate Covers(attempts: nat, total: nat, shares: int) {
    attempts <= total + CHUNK * shares
  }

  // The invariant of one worker, given how much all of them may have added.
  predicate Lags(attempts: nat, mark: nat, shares: int, k: Worker) {
    && Counted(k) && StaleIsSmall(mark, k)
    && (Live(mark, k) ==> Covers(attempts, k.pc.total, shares))
  }

  function Shares(s: State): int {
    Sum(Share(s.mark), s.workers)
  }

  ghost predicate Keeps(s: State) {
    && s.attempts < s.mark + REPORT_INTERVAL + CHUNK * Shares(s)
    && forall w :: 0 <= w < |s.workers| ==> Lags(s.attempts, s.mark, Shares(s), s.workers[w])
  }

  lemma {:induction false} SharesBound(mark: nat, workers: seq<Worker>)
    ensures 0 <= Sum(Share(mark), workers) <= |workers|
  {
    if workers != [] {
      SharesBound(mark, workers[1..]);
    }
  }

  // A step that leaves the mark alone.
  lemma {:induction false} OwnLag(search: Search, s: State, w: nat)
    requires w < |s.workers| && s.workers[w].pc != Done && Flags(s, s.workers[w]) && Lags(s.attempts, s.mark, Shares(s), s.workers[w])
    requires Step(search, s, w).mark == s.mark && s.attempts < s.mark + REPORT_INTERVAL + CHUNK * Shares(s) && Shares(s) >= 0
    ensures var s', k, k' := Step(search, s, w), s.workers[w], Moved(search, s, w);
            var shares := Shares(s) + Share(s.mark)(k') - Share(s.mark)(k);
            && s'.attempts < s'.mark + REPORT_INTERVAL + CHUNK * shares
            && Lags(s'.attempts, s'.mark, shares, k')
            && (forall t :: t >= s.mark + REPORT_INTERVAL && Covers(s.attempts, t, Shares(s)) ==> Covers(s'.attempts, t, shares))
  {
    hide Shares;
  }

  lemma {:induction false} QuietStep(search: Search, s: State, w: nat)
    requires Valid(search, s) && Keeps(s) && w < |s.workers| && s.workers[w].pc != Done && Step(search, s, w).mark == s.mark
    ensures Keeps(Step(search, s, w))
  {
    var s' := Step(search, s, w);
    SharesBound(s.mark, s.workers);
    assert WorkerValid(search, s, w, s.workers[w]);
    StepReplacesOne(search, s, w);
    SumUpdate(Share(s.mark), s.workers, w, Moved(search, s, w));
    OwnLag(search, s, w);
    hide Step, Moved, Sum, Position, VanitySearch.History, SharedValid, Share;
    forall v | 0 <= v < |s'.workers|
      ensures Lags(s'.attempts, s'.mark, Shares(s'), s'.workers[v])
    {
      if v != w {
        var k := s.workers[v];
        assert WorkerValid(search, s, v, k);
        assert Lags(s.attempts, s.mark, Shares(s), k);
        assert Live(s.mark, k) ==> k.pc.total >= s.mark + REPORT_INTERVAL;
      }
    }
  }

  lemma {:induction false} AcceptedStep(search: Search, s: State, w: nat)
    requires Valid(search, s) && Keeps(s) && w < |s.workers| && s.workers[w].pc != Done && Step(search, s, w).mark != s.mark
    requires search.n * CHUNK < REPORT_INTERVAL
    ensures Keeps(Step(search, s, w))
  {
    var s', k := Step(search, s, w), s.workers[w];
    SharesBound(s.mark, s.workers);
    SharesBound(s'.mark, s'.workers);
    WorkerCount(search, s);
    assert k.pc.Exchanging? && k.pc.previous == s.mark && s'.mark == k.pc.total && s'.attempts == s.attempts;
    assert Lags(s.attempts, s.mark, Shares(s), k) && Live(s.mark, k);
    AtMost(Shares(s), search.n);
    assert s'.attempts < s'.mark + REPORT_INTERVAL;
    StepReplacesOne(search, s, w);
    hide Sum, Position, VanitySearch.History, SharedValid, Share;
    forall v | 0 <= v < |s'.workers|
      ensures Lags(s'.attempts, s'.mark, Shares(s'), s'.workers[v])
    {
      assert WorkerValid(search, s, v, s.workers[v]);
      assert WorkerValid(search, s, w, k);
      assert Lags(s.attempts, s.mark, Shares(s), s.workers[v]);
      assert !Live(s'.mark, s'.workers[v]);
    }
  }

  lemma {:induction false} AtMost(a: int, b: int)
    requires a <= b
    ensures CHUNK * a <= b * CHUNK
  {
  }

  lemma {:induction false} StartKeeps(search: Search)
    ensures Keeps(Start(search))
  {
    var s := Start(search);
    SharesBound(0, s.workers);
    hide Sum;
  }

  lemma {:induction false} RunKeeps(search: Search, states: seq<State>, schedule: seq<nat>, i: nat)
    requires Run(search, states, schedule) && i < |states| && search.n * CHUNK < REPORT_INTERVAL
    ensures Keeps(states[i])
  {
    hide Step, Start, Valid, Keeps;
    if i == 0 {
      StartKeeps(search);
    } else {
      RunKeeps(search, states, schedule, i - 1);
      RunIsValid(search, states, schedule, i - 1);
      if states[i].mark == states[i - 1].mark {
        QuietStep(search, states[i - 1], schedule[i - 1]);
      } else {
        AcceptedStep(search, states[i - 1], schedule[i - 1]);
      }
    }
  }

  /** With up to 244 workers the mark keeps up in every interleaving: it is less than a million and one
      chunk of each worker behind the attempts. */
  lemma {:induction false} MarkKeepsUp(search: Search, states: seq<State>, schedule: seq<nat>, i: nat)
    requires Run(search, states, schedule) && i < |states| && search.n <= 244
    ensures states[i].mark <= states[i].attempts < states[i].mark + 1_000_000 + 4_096 * search.n
  {
    RunKeeps(search, states, schedule, i);
    RunIsValid(search, states, schedule, i);
    WorkerCount(search, states[i]);
    SharesBound(states[i].mark, states[i].workers);
    AtMost(Shares(states[i]), search.n);
    hide Run, Sum, WorkerValid;
  }

  // ----- Any number of workers -----

  ghost predicate AllCounted(s: State) {
    forall w :: 0 <= w < |s.workers| ==> Counted(s.workers[w])
  }

  // No more than `base`, and one chunk of each worker that has reported since.
  ghost predicate Within(s: State, base: nat) {
    AllCounted(s) && s.attempts < base + CHUNK * Shares(s)
  }

  // One step of a worker while the mark stands still: past the next mark, an attempt that is added makes
  // its worker wait.
  lemma {:induction false} OwnShare(search: Search, s: State, w: nat)
    requires w < |s.workers| && s.workers[w].pc != Done && Flags(s, s.workers[w]) && Counted(s.workers[w])
    ensures var s', k, k' := Step(search, s, w), s.workers[w], Moved(search, s, w);
            && Counted(k') && (s'.mark == s.mark || (s'.attempts == s.attempts && s'.mark >= s.mark + REPORT_INTERVAL))
            && |s'.reports| == |s.reports| + (if s'.mark == s.mark then 0 else 1)
            && (s'.mark == s.mark ==>
                  || s'.attempts < s.mark + REPORT_INTERVAL
                  || s'.attempts + CHUNK * Share(s.mark)(k) <= s.attempts + CHUNK * Share(s.mark)(k'))
  {
  }

  lemma {:induction false} WithinStep(search: Search, s: State, w: nat, base: nat)
    requires Valid(search, s) && Within(s, base) && base >= s.mark + REPORT_INTERVAL && w < |s.workers| && s.workers[w].pc != Done
    ensures AllCounted(Step(search, s, w))
    ensures Step(search, s, w).mark == s.mark ==> Within(Step(search, s, w), base)
  {
    SharesBound(s.mark, s.workers);
    assert WorkerValid(search, s, w, s.workers[w]);
    OwnShare(search, s, w);
    StepReplacesOne(search, s, w);
    SumUpdate(Share(s.mark), s.workers, w, Moved(search, s, w));
    SharesBound(s.mark, Step(search, s, w).workers);
    hide Step, Moved, Sum, WorkerValid, SharedValid, Share, Counted;
  }

  // One chunk of each worker for each report that has been accepted.
  function Rounds(search: Search, s: State): nat {
    CHUNK * (search.n * |s.reports|)
  }

  ghost predicate LagsByRounds(search: Search, s: State) {
    Within(s, s.mark + REPORT_INTERVAL + Rounds(search, s))
  }

  lemma {:induction false} RoundsStep(search: Search, s: State, w: nat)
    requires Valid(search, s) && LagsByRounds(search, s) && w < |s.workers| && s.workers[w].pc != Done
    ensures LagsByRounds(search, Step(search, s, w))
  {
    var s' := Step(search, s, w);
    WithinStep(search, s, w, s.mark + REPORT_INTERVAL + Rounds(search, s));
    assert WorkerValid(search, s, w, s.workers[w]);
    OwnShare(search, s, w);
    WorkerCount(search, s);
    SharesBound(s.mark, s.workers);
    SharesBound(s'.mark, s'.workers);
    AtMost(Shares(s), search.n);
    assert search.n * (|s.reports| + 1) == search.n * |s.reports| + search.n;
    hide Step, Moved, Sum, WorkerValid, Valid, Share, AllCounted;
  }

  lemma {:induction false} StartWithin(search: Search)
    ensures LagsByRounds(search, Start(search))
  {
    var s := Start(search);
    SharesBound(0, s.workers);
    hide Sum;
  }

  lemma {:induction false} RunLags(search: Search, states: seq<State>, schedule: seq<nat>, i: nat)
    requires Run(search, states, schedule) && i < |states|
    ensures LagsByRounds(search, states[i])
  {
    hide Step, Start, Valid, LagsByRounds;
    if i == 0 {
      StartWithin(search);
    } else {
      RunLags(search, states, schedule, i - 1);
      RunIsValid(search, states, schedule, i - 1);
      RoundsStep(search, states[i - 1], schedule[i - 1]);
    }
  }

  /** With any number of workers, in every interleaving, the attempts are less than a million ahead of the
      mark, and one chunk of each worker for each report that has been accepted and for the next. */
  lemma {:induction false} MarkLagsByRounds(search: Search, states: seq<State>, schedule: seq<nat>, i: nat)
    requires Run(search, states, schedule) && i < |states|
    ensures states[i].mark <= states[i].attempts
    ensures states[i].attempts < states[i].mark + 1_000_000 + 4_096 * (search.n * |states[i].reports|) + 4_096 * search.n
  {
    RunLags(search, states, schedule, i);
    RunIsValid(search, states, schedule, i);
    WorkerCount(search, states[i]);
    SharesBound(states[i].mark, states[i].workers);
    AtMost(Shares(states[i]), search.n);
    hide Run, Sum, WorkerValid;
  }

  /** And the mark does not stand still: while it does, no more is added than up to the next mark, and one
      chunk of each worker. */
  lemma {:induction false} MarkDoesNotStall(search: Search, states: seq<State>, schedule: seq<nat>, i: nat, j: nat)
    requires Run(search, states, schedule) && i <= j < |states| && states[j].mark == states[i].mark
    ensures states[j].attempts <= states[i].attempts + 4_096 * search.n
         || states[j].attempts < states[i].mark + 1_000_000 + 4_096 * search.n
  {
    var base := if states[i].attempts < states[i].mark + REPORT_INTERVAL then states[i].mark + REPORT_INTERVAL else states[i].attempts + 1;
    StandstillWithin(search, states, schedule, i, j, base);
    RunIsValid(search, states, schedule, j);
    WorkerCount(search, states[j]);
    SharesBound(states[j].mark, states[j].workers);
    AtMost(Shares(states[j]), search.n);
    hide Run, Sum, WorkerValid;
  }

  lemma {:induction false} StandstillWithin(search: Search, states: seq<State>, schedule: seq<nat>, i: nat, j: nat, base: nat)
    requires Run(search, states, schedule) && i <= j < |states| && states[j].mark == states[i].mark
    requires base >= states[i].mark + REPORT_INTERVAL && base > states[i].attempts
    ensures Within(states[j], base)
  {
    if i == j {
      RunLags(search, states, schedule, i);
      SharesBound(states[i].mark, states[i].workers);
    } else {
      var s, w := states[j - 1], schedule[j - 1];
      RunIsValid(search, states, schedule, j - 1);
      MarkOnlyRises(search, states, schedule, i, j - 1);
      assert WorkerValid(search, s, w, s.workers[w]);
      MarkStep(search, s, w);
      hide Step, Start, Valid, Within, WorkerValid;
      StandstillWithin(search, states, schedule, i, j - 1, base);
      WithinStep(search, s, w, base);
    }
  }

  lemma {:induction false} MarkOnlyRises(search: Search, states: seq<State>, schedule: seq<nat>, i: nat, j: nat)
    requires Run(search, states, schedule) && i <= j < |states|
    ensures states[i].mark <= states[j].mark
  {
    if i < j {
      var s, w := states[j - 1], schedule[j - 1];
      MarkOnlyRises(search, states, schedule, i, j - 1);
      RunIsValid(search, states, schedule, j - 1);
      assert WorkerValid(search, s, w, s.workers[w]);
      MarkStep(search, s, w);
      hide Step, Start, WorkerValid;
    }
  }
}
