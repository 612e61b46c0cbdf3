/** The concurrent search for a phone key: n workers stride over the key indexes and share a stop
    flag, an attempt counter, a progress mark and a channel (src/hot_wallet/mod.rs). Every access to
    something shared is one atomic step, and the scheduler picks any worker for each step. */
module VanitySearch {
  import opened Bytes
  import opened VanityTarget

  const LIMIT: nat := 0x8000_0000
  const CHUNK: nat := 4_096
  const REPORT_INTERVAL: nat := 1_000_000

  datatype Message = Found(index: nat) | Failed(index: nat)

  /** Where a worker is in its loop. */
  datatype Pc =
    | Checking                                   // loop condition: reads the stop flag
    | Testing                                    // derives and tests the candidate
    | AddingFinal                                // a match: adds its attempts
    | Swapping                                   // a match: raises the stop flag
    | Sending                                    // the first to raise it sends its index
    | AddingChunk                                // every 4,096 attempts
    | Loading(total: nat)                        // reads the progress mark
    | Exchanging(total: nat, previous: nat)      // compare-exchange of the mark
    | Flushing                                   // left the loop: adds what is pending
    | Failing                                    // derivation failed: raises the stop flag
    | SendingError
    | Done

  datatype Worker = Worker(pc: Pc, index: nat, pending: nat, tested: nat, failed: bool)

  datatype State = State(
    stopped: bool,
    attempts: nat,
    mark: nat,
    channel: seq<Message>,
    reports: seq<nat>,
    workers: seq<Worker>)

  /** The search: how many workers, which indexes match, and which cannot be derived. */
  datatype Search = Search(n: nat, hit: nat -> bool, fails: nat -> bool)

  function Start(search: Search): State {
    State(false, 0, 0, [], [], seq(search.n, w requires 0 <= w < search.n => Worker(Checking, w, 0, 0, false)))
  }

  // To the next candidate of the same worker.
  function Advance(search: Search, worker: Worker): Worker {
    worker.(pc := Checking, index := worker.index + search.n)
  }

  function SaturatingSub(a: nat, b: nat): nat {
    if a >= b then a - b else 0
  }

  /** One atomic step of worker w. */
  function Step(search: Search, s: State, w: nat): State
    requires w < |s.workers| && s.workers[w].pc != Done
  {
    var k := s.workers[w];
    match k.pc
    case Checking => With(s, w, k.(pc := if k.index < LIMIT && !s.stopped then Testing else Flushing))
    case Testing =>
      if search.fails(k.index) then With(s, w, k.(pc := Failing, failed := true))
      else
        var counted := k.(pending := k.pending + 1, tested := k.tested + 1);
        if search.hit(k.index) then With(s, w, counted.(pc := AddingFinal))
        else if counted.pending == CHUNK then With(s, w, counted.(pc := AddingChunk))
        else With(s, w, Advance(search, counted))
    case AddingFinal => With(s, w, k.(pc := Swapping, pending := 0)).(attempts := s.attempts + k.pending)
    case Swapping => With(s, w, k.(pc := if s.stopped then Done else Sending)).(stopped := true)
    case Sending => With(s, w, k.(pc := Done)).(channel := s.channel + [Found(k.index)])
    case AddingChunk =>
      With(s, w, k.(pc := Loading(s.attempts + k.pending), pending := 0)).(attempts := s.attempts + k.pending)
    case Loading(total) =>
      if SaturatingSub(total, s.mark) >= REPORT_INTERVAL then With(s, w, k.(pc := Exchanging(total, s.mark)))
      else With(s, w, Advance(search, k))
    case Exchanging(total, previous) =>
      if s.mark == previous then With(s, w, Advance(search, k)).(mark := total, reports := s.reports + [total])
      else With(s, w, Advance(search, k))
    case Flushing => With(s, w, k.(pc := Done, pending := 0)).(attempts := s.attempts + k.pending)
    case Failing => With(s, w, k.(pc := if s.stopped then Done else SendingError)).(stopped := true)
    case SendingError => With(s, w, k.(pc := Done)).(channel := s.channel + [Failed(k.index)])
  }

  function With(s: State, w: nat, worker: Worker): State
    requires w < |s.workers|
  {
    s.(workers := s.workers[w := worker])
  }

  /** Any interleaving of the workers' steps. */
  ghost predicate Run(search: Search, states: seq<State>, schedule: seq<nat>) {
    && |states| == |schedule| + 1 && states[0] == Start(search)
    && forall i :: 0 <= i < |schedule| ==>
         && schedule[i] < |states[i].workers| && states[i].workers[schedule[i]].pc != Done
         && states[i + 1] == Step(search, states[i], schedule[i])
  }

  // ----- Sums over the workers -----

  function Sum(f: Worker -> int, workers: seq<Worker>): int {
    if workers == [] then 0 else f(workers[0]) + Sum(f, workers[1..])
  }

  lemma {:induction false} SumUpdate(f: Worker -> int, workers: seq<Worker>, w: nat, worker: Worker)
    requires w < |workers|
    ensures Sum(f, workers[w := worker]) == Sum(f, workers) - f(workers[w]) + f(worker)
  {
    var after := workers[w := worker];
    if w == 0 {
      assert after[1..] == workers[1..];
    } else {
      assert after[1..] == workers[1..][w - 1 := worker];
      SumUpdate(f, workers[1..], w - 1, worker);
    }
  }

  lemma {:induction false} SumOfEqual(f: Worker -> int, workers: seq<Worker>, value: int)
    requires forall w :: 0 <= w < |workers| ==> f(workers[w]) == value
    ensures Sum(f, workers) == value * |workers|
  {
    if workers != [] {
      SumOfEqual(f, workers[1..], value);
    }
  }

  lemma {:induction false} SumNonNegative(f: Worker -> int, workers: seq<Worker>)
    requires forall w :: 0 <= w < |workers| ==> f(workers[w]) >= 0
    ensures Sum(f, workers) >= 0
    ensures forall w :: 0 <= w < |workers| ==> f(workers[w]) <= Sum(f, workers)
  {
    if workers != [] {
      SumNonNegative(f, workers[1..]);
    }
  }

  function Pending(k: Worker): int { k.pending }
  function Tested(k: Worker): int { k.tested }
  function Claims(k: Worker): int { if k.pc.Sending? || k.pc.SendingError? then 1 else 0 }

  // ----- One worker's own invariant -----

  // The number of candidates of this worker that lie behind its index.
  predicate BeforeIndex(pc: Pc) {
    pc.Checking? || pc.Testing? || pc.Flushing? || pc.Failing? || pc.SendingError?
  }

  // The candidate that worker w of n tests after t others.
  function Visits(w: nat, n: nat, t: nat): nat {
    w + n * t
  }

  lemma {:induction false} VisitsNext(w: nat, n: nat, t: nat)
    ensures Visits(w, n, 0) == w && Visits(w, n, t + 1) == Visits(w, n, t) + n
  {
    assert n * (t + 1) == n * t + n;
  }

  /** The first `count` candidates of worker w lie below the limit and were derived. */
  ghost predicate TestedInOrder(search: Search, w: nat, count: nat) {
    forall t: nat :: t < count ==> Visits(w, search.n, t) < LIMIT && !search.fails(Visits(w, search.n, t))
  }

  /** Only the last of them may match. */
  ghost predicate NoneMatched(search: Search, w: nat, count: nat) {
    forall t: nat :: t < count ==> !search.hit(Visits(w, search.n, t))
  }

  /** Worker w visits w, w + n, w + 2n, ... in order, tests each once, and stops at the first match. */
  ghost predicate WorkerValid(search: Search, s: State, w: nat, k: Worker) {
    Position(search, w, k) && History(search, s, w, k) && Flags(s, k)
  }

  predicate Matched(pc: Pc) {
    pc.AddingFinal? || pc.Swapping? || pc.Sending?
  }

  predicate Reporting(pc: Pc) {
    pc.AddingChunk? || pc.Loading? || pc.Exchanging?
  }

  ghost predicate Position(search: Search, w: nat, k: Worker) {
    && (BeforeIndex(k.pc) ==> k.index == Visits(w, search.n, k.tested))
    && (Matched(k.pc) || Reporting(k.pc) ==>
          k.tested > 0 && k.index == Visits(w, search.n, k.tested - 1) && k.index < LIMIT)
    && (k.pc.Testing? || k.pc.Failing? || k.pc.SendingError? ==> k.index < LIMIT)
    && (Matched(k.pc) ==> search.hit(k.index) && !search.fails(k.index))
    && (k.pc.Failing? || k.pc.SendingError? ==> k.failed && search.fails(k.index))
  }

  ghost predicate History(search: Search, s: State, w: nat, k: Worker) {
    && TestedInOrder(search, w, k.tested)
    && (if Matched(k.pc) || (k.pc.Done? && s.stopped) then k.tested > 0 ==> NoneMatched(search, w, k.tested - 1)
        else NoneMatched(search, w, k.tested))
    && (k.pc.Done? && !s.stopped ==> Visits(w, search.n, k.tested) >= LIMIT)
    && (k.pc.Flushing? ==> s.stopped || k.index >= LIMIT)
  }

  ghost predicate Flags(s: State, k: Worker) {
    && (k.failed ==> k.pc.Failing? || s.stopped)
    && (k.pc.Failing? || k.pc.SendingError? ==> k.failed)
    && (k.pc.Sending? || k.pc.SendingError? ==> s.stopped)
    && (k.pc.Done? && !k.failed ==> k.pending == 0)
    && (k.pc.Swapping? || k.pc.Sending? ==> k.pending == 0)
    && (k.failed ==> k.pc.Done? || k.pc.Failing? || k.pc.SendingError?)
    && (k.pc.Loading? ==> k.pc.total <= s.attempts)
    && (k.pc.Exchanging? ==> k.pc.total <= s.attempts && k.pc.total >= k.pc.previous + REPORT_INTERVAL && k.pc.previous <= s.mark)
  }

  // ----- The shared invariant -----

  ghost predicate SharedValid(search: Search, s: State) {
    && |s.workers| == search.n
    && s.attempts + Sum(Pending, s.workers) == Sum(Tested, s.workers)
    && |s.channel| + Sum(Claims, s.workers) == (if s.stopped then 1 else 0)
    && (forall i :: 0 <= i < |s.channel| ==> MessageValid(search, s.channel[i]))
    && ReportsValid(s)
  }

  predicate MessageValid(search: Search, m: Message) {
    match m
    case Found(i) => i < LIMIT && search.hit(i) && !search.fails(i)
    case Failed(i) => i < LIMIT && search.fails(i)
  }

  /** Successful marks rise by at least a million and never pass the attempts. */
  ghost predicate ReportsValid(s: State) {
    && s.mark == (if s.reports == [] then 0 else s.reports[|s.reports| - 1]) && s.mark <= s.attempts
    && (forall i :: 0 <= i < |s.reports| ==> Rises(s.reports, i))
  }

  predicate Rises(reports: seq<nat>, i: nat)
    requires i < |reports|
  {
    reports[i] >= REPORT_INTERVAL + (if i == 0 then 0 else reports[i - 1])
  }

  ghost predicate Valid(search: Search, s: State) {
    SharedValid(search, s) && forall w :: 0 <= w < |s.workers| ==> WorkerValid(search, s, w, s.workers[w])
  }

  // ----- Every step keeps the invariant -----

  lemma {:induction false} StartIsValid(search: Search)
    ensures Valid(search, Start(search))
  {
    var s := Start(search);
    SumOfEqual(Pending, s.workers, 0);
    SumOfEqual(Tested, s.workers, 0);
    SumOfEqual(Claims, s.workers, 0);
    hide Visits, Sum;
    forall w | 0 <= w < |s.workers|
      ensures WorkerValid(search, s, w, s.workers[w])
    {
      VisitsNext(w, search.n, 0);
    }
  }

  lemma {:induction false} OwnPosition(search: Search, s: State, w: nat)
    requires w < |s.workers| && s.workers[w].pc != Done && Position(search, w, s.workers[w])
    ensures Position(search, w, Step(search, s, w).workers[w])
  {
    hide Visits;
    var k := s.workers[w];
    VisitsNext(w, search.n, k.tested);
    if k.tested > 0 {
      VisitsNext(w, search.n, k.tested - 1);
    }
  }

  lemma {:induction false} OwnHistory(search: Search, s: State, w: nat)
    requires w < |s.workers| && s.workers[w].pc != Done && WorkerValid(search, s, w, s.workers[w])
    ensures History(search, Step(search, s, w), w, Step(search, s, w).workers[w])
  {
    hide Visits;
    var k, k' := s.workers[w], Step(search, s, w).workers[w];
    assert k'.tested == k.tested || (k.pc.Testing? && !search.fails(k.index) && k'.tested == k.tested + 1);
    assert k'.tested == k.tested + 1 ==> k.index == Visits(w, search.n, k.tested) && k.index < LIMIT;
  }

  lemma {:induction false} OwnFlags(search: Search, s: State, w: nat)
    requires w < |s.workers| && s.workers[w].pc != Done && Flags(s, s.workers[w])
    ensures Flags(Step(search, s, w), Step(search, s, w).workers[w])
  {
  }

  lemma {:induction false} OwnStep(search: Search, s: State, w: nat)
    requires w < |s.workers| && s.workers[w].pc != Done && WorkerValid(search, s, w, s.workers[w])
    ensures WorkerValid(search, Step(search, s, w), w, Step(search, s, w).workers[w])
  {
    OwnPosition(search, s, w);
    OwnHistory(search, s, w);
    OwnFlags(search, s, w);
    hide Step, Position, History, Flags;
  }

  // The shared values that the other workers rely on only move one way.
  lemma {:induction false} SharedMoves(search: Search, s: State, w: nat)
    requires w < |s.workers| && s.workers[w].pc != Done && WorkerValid(search, s, w, s.workers[w])
    ensures var s' := Step(search, s, w);
            && (s.stopped ==> s'.stopped) && s.attempts <= s'.attempts && s.mark <= s'.mark
            && |s'.workers| == |s.workers|
            && forall v :: 0 <= v < |s.workers| && v != w ==> s'.workers[v] == s.workers[v]
  {
  }

  lemma {:induction false} OthersStep(search: Search, s: State, s': State, v: nat, k: Worker)
    requires WorkerValid(search, s, v, k)
    requires (s.stopped ==> s'.stopped) && s.attempts <= s'.attempts && s.mark <= s'.mark
    ensures WorkerValid(search, s', v, k)
  {
    hide Visits;
  }

  // The worker that a step leaves behind.
  function Moved(search: Search, s: State, w: nat): Worker
    requires w < |s.workers| && s.workers[w].pc != Done
  {
    Step(search, s, w).workers[w]
  }

  lemma {:induction false} StepReplacesOne(search: Search, s: State, w: nat)
    requires w < |s.workers| && s.workers[w].pc != Done
    ensures Step(search, s, w).workers == s.workers[w := Moved(search, s, w)]
  {
  }

  lemma {:induction false} CounterDeltas(search: Search, s: State, w: nat)
    requires w < |s.workers| && s.workers[w].pc != Done && Flags(s, s.workers[w])
    ensures var k, k', s' := s.workers[w], Moved(search, s, w), Step(search, s, w);
            && s'.attempts - s.attempts == Tested(k') - Tested(k) - (Pending(k') - Pending(k))
            && |s'.channel| - |s.channel| + Claims(k') - Claims(k) == (if s'.stopped then 1 else 0) - (if s.stopped then 1 else 0)
  {
  }

  lemma {:induction false} CountersStep(search: Search, s: State, w: nat)
    requires w < |s.workers| && s.workers[w].pc != Done && SharedValid(search, s) && Flags(s, s.workers[w])
    ensures var s' := Step(search, s, w);
            && s'.attempts + Sum(Pending, s'.workers) == Sum(Tested, s'.workers)
            && |s'.channel| + Sum(Claims, s'.workers) == (if s'.stopped then 1 else 0)
  {
    hide Step, Moved, ReportsValid, Flags, Sum;
    var k' := Moved(search, s, w);
    StepReplacesOne(search, s, w);
    SumUpdate(Pending, s.workers, w, k');
    SumUpdate(Tested, s.workers, w, k');
    SumUpdate(Claims, s.workers, w, k');
    CounterDeltas(search, s, w);
  }

  lemma {:induction false} ReportAdded(s: State, s': State, total: nat)
    requires ReportsValid(s) && s'.reports == s.reports + [total] && s'.mark == total <= s'.attempts
    requires total >= s.mark + REPORT_INTERVAL
    ensures ReportsValid(s')
  {
    forall i | 0 <= i < |s'.reports|
      ensures Rises(s'.reports, i)
    {
      if i < |s.reports| {
        assert Rises(s.reports, i);
      }
    }
  }

  lemma {:induction false} MessagesStep(search: Search, s: State, w: nat)
    requires w < |s.workers| && s.workers[w].pc != Done && SharedValid(search, s) && WorkerValid(search, s, w, s.workers[w])
    ensures var s' := Step(search, s, w);
            && |s'.workers| == search.n
            && (forall i :: 0 <= i < |s'.channel| ==> MessageValid(search, s'.channel[i]))
            && ReportsValid(s')
  {
    hide Visits, Sum, TestedInOrder, NoneMatched;
    var k, s' := s.workers[w], Step(search, s, w);
    if k.pc.Exchanging? && s.mark == k.pc.previous {
      ReportAdded(s, s', k.pc.total);
    }
  }

  lemma {:induction false} StepIsValid(search: Search, s: State, w: nat)
    requires w < |s.workers| && s.workers[w].pc != Done && Valid(search, s)
    ensures Valid(search, Step(search, s, w))
  {
    var s' := Step(search, s, w);
    assert WorkerValid(search, s, w, s.workers[w]);
    CountersStep(search, s, w);
    MessagesStep(search, s, w);
    SharedMoves(search, s, w);
    OwnStep(search, s, w);
    hide Step, WorkerValid, ReportsValid;
    forall v | 0 <= v < |s'.workers|
      ensures WorkerValid(search, s', v, s'.workers[v])
    {
      if v != w {
        OthersStep(search, s, s', v, s.workers[v]);
      }
    }
  }

  lemma {:induction false} RunIsValid(search: Search, states: seq<State>, schedule: seq<nat>, i: nat)
    requires Run(search, states, schedule) && i < |states|
    ensures Valid(search, states[i])
  {
    hide Valid, Step, Start;
    if i == 0 {
      StartIsValid(search);
    } else {
      RunIsValid(search, states, schedule, i - 1);
      StepIsValid(search, states[i - 1], schedule[i - 1]);
    }
  }

  // ----- Termination -----

  function PcRank(pc: Pc): nat {
    match pc
    case Checking => 6
    case Testing => 5
    case AddingChunk => 4
    case Loading(_) => 3
    case AddingFinal => 3
    case Exchanging(_, _) => 2
    case Swapping => 2
    case Failing => 2
    case Sending => 1
    case SendingError => 1
    case Flushing => 1
    case Done => 0
  }

  /** What a worker still has to do. */
  function Rank(k: Worker): int {
    8 * (if k.index < LIMIT then LIMIT - k.index else 0) + PcRank(k.pc)
  }

  lemma {:induction false} StepLowersRank(search: Search, s: State, w: nat)
    requires search.n > 0 && w < |s.workers| && s.workers[w].pc != Done && WorkerValid(search, s, w, s.workers[w])
    ensures Rank(Moved(search, s, w)) < Rank(s.workers[w])
  {
    hide Visits, TestedInOrder, NoneMatched;
  }

  /** No interleaving runs on: its length is bounded by the work that there is. */
  lemma {:induction false} RunTerminates(search: Search, states: seq<State>, schedule: seq<nat>, i: nat)
    requires Run(search, states, schedule) && i < |states|
    ensures i + Sum(Rank, states[i].workers) <= Sum(Rank, Start(search).workers)
    ensures Sum(Rank, states[i].workers) >= 0
  {
    hide Step, Start, Valid, Moved, Rank;
    RanksNonNegative(states[i].workers);
    if i > 0 {
      RunTerminates(search, states, schedule, i - 1);
      RunIsValid(search, states, schedule, i - 1);
      var s, w := states[i - 1], schedule[i - 1];
      WorkersExist(search, s, w);
      StepReplacesOne(search, s, w);
      SumUpdate(Rank, s.workers, w, Moved(search, s, w));
      StepLowersRank(search, s, w);
    }
  }

  lemma {:induction false} WorkersExist(search: Search, s: State, w: nat)
    requires Valid(search, s) && w < |s.workers|
    ensures search.n > 0 && WorkerValid(search, s, w, s.workers[w])
  {
  }

  lemma {:induction false} RanksNonNegative(workers: seq<Worker>)
    ensures Sum(Rank, workers) >= 0
  {
    SumNonNegative(Rank, workers);
  }

  // ----- The outcome -----

  ghost predicate AllDone(s: State) {
    forall w :: 0 <= w < |s.workers| ==> s.workers[w].pc.Done?
  }

  ghost predicate NoneFailed(s: State) {
    forall w :: 0 <= w < |s.workers| ==> !s.workers[w].failed
  }

  /** Each index belongs to exactly one worker. */
  lemma {:induction false} IndexHasOneOwner(n: nat, index: nat, w: nat)
    requires 0 < n && w < n
    ensures (exists t: nat {:trigger Visits(w, n, t)} :: Visits(w, n, t) == index) <==> w == index % n
  {
    if w == index % n {
      assert Visits(w, n, index / n) == index;
    }
    if exists t: nat {:trigger Visits(w, n, t)} :: Visits(w, n, t) == index {
      var t: nat :| Visits(w, n, t) == index;
      Remainder(w, n, t);
    }
  }

  lemma {:induction false} Remainder(w: nat, n: nat, t: nat)
    requires w < n
    ensures Visits(w, n, t) % n == w
  {
    var a := Visits(w, n, t);
    var q := a / n;
    assert a == n * q + a % n;
    assert n * (q + 1) == n * q + n && n * (t + 1) == n * t + n;
    MulAtLeast(n, q + 1, t);
    MulAtLeast(n, t + 1, q);
  }

  // An index that was never tested by its owner was never reached, so the search was stopped.
  lemma {:induction false} UnstoppedTestsAll(search: Search, s: State, index: nat)
    requires search.n > 0 && Valid(search, s) && AllDone(s) && !s.stopped && index < LIMIT
    ensures !search.hit(index) && !search.fails(index)
  {
    var w, t := index % search.n, index / search.n;
    assert index == Visits(w, search.n, t);
    var k := s.workers[w];
    assert WorkerValid(search, s, w, k) && k.pc.Done?;
    if t >= k.tested {
      MulAtLeast(search.n, k.tested, t);
    }
    assert t < k.tested;
  }

  lemma {:induction false} MulAtLeast(n: nat, a: nat, b: nat)
    ensures a <= b ==> n * a <= n * b
  {
  }

  /** The outcome of every complete interleaving: at most one message is sent; an index sent below
      2^31 really matches; no message means that nothing below 2^31 matches or fails; and if no
      worker failed, the attempt counter is exactly the number of candidates tested. */
  lemma {:induction false} SearchOutcome(search: Search, states: seq<State>, schedule: seq<nat>)
    requires search.n > 0 && Run(search, states, schedule) && AllDone(states[|schedule|])
    ensures var s := states[|schedule|];
            && |s.channel| <= 1
            && (forall m :: m in s.channel ==> MessageValid(search, m))
            && (s.channel == [] ==> forall index :: 0 <= index < LIMIT ==> !search.hit(index) && !search.fails(index))
            && (NoneFailed(s) ==> s.attempts == Sum(Tested, s.workers))
            && s.attempts <= Sum(Tested, s.workers)
  {
    var s := states[|schedule|];
    RunIsValid(search, states, schedule, |schedule|);
    SumOfEqual(Claims, s.workers, 0);
    PendingNonNegative(s.workers);
    hide Run, Step, ReportsValid;
    if s.channel == [] {
      forall index | 0 <= index < LIMIT
        ensures !search.hit(index) && !search.fails(index)
      {
        UnstoppedTestsAll(search, s, index);
      }
    }
    if NoneFailed(s) {
      forall w | 0 <= w < |s.workers|
        ensures Pending(s.workers[w]) == 0
      {
        assert WorkerValid(search, s, w, s.workers[w]);
      }
      SumOfEqual(Pending, s.workers, 0);
    }
  }

  lemma {:induction false} PendingNonNegative(workers: seq<Worker>)
    ensures Sum(Pending, workers) >= 0
  {
    SumNonNegative(Pending, workers);
  }

  /** In every interleaving the accepted progress marks rise strictly, by at least a million each
      time, and none exceeds the attempts made. */
  lemma {:induction false} MarksRise(search: Search, states: seq<State>, schedule: seq<nat>, n: nat, i: nat, j: nat)
    requires Run(search, states, schedule) && n < |states| && i < j < |states[n].reports|
    ensures var reports := states[n].reports;
            && reports[j] >= reports[i] + (j - i) * REPORT_INTERVAL
            && reports[j] <= states[n].attempts
  {
    RunIsValid(search, states, schedule, n);
    hide Run, Step, WorkerValid;
    RisesBetween(states[n].reports, i, j);
    RisesBetween(states[n].reports, j, |states[n].reports| - 1);
  }

  lemma {:induction false} RisesBetween(reports: seq<nat>, i: nat, j: nat)
    requires i <= j < |reports|
    requires forall k :: 0 <= k < |reports| ==> Rises(reports, k)
    ensures reports[j] >= reports[i] + (j - i) * REPORT_INTERVAL
  {
    if i < j {
      RisesBetween(reports, i, j - 1);
      assert Rises(reports, j);
    }
  }

  /** The grinder end to end: whatever index a complete search returns, in any interleaving, the
      address of its key begins with the requested suffix. */
  lemma {:induction false} FoundAddressHasPrefix(search: Search, states: seq<State>, schedule: seq<nat>, keys: nat -> seq<Byte>,
                                                 suffix: string, digits: seq<Digit>, hrp: string, checksum: string, index: nat)
    requires search.n > 0 && Run(search, states, schedule) && AllDone(states[|schedule|])
    requires 1 <= |suffix| <= 6 && Characters(digits) == suffix
    requires forall i: nat :: |keys(i)| == 32 && (search.hit(i) <==> Matches(Target(Value(digits), 5 * |suffix|), keys(i)))
    requires Found(index) in states[|schedule|].channel
    ensures index < LIMIT && hrp + "1p" + suffix <= AddressText(hrp, keys(index), checksum)
  {
    SearchOutcome(search, states, schedule);
    assert MessageValid(search, Found(index));
    MatchIsPrefix(suffix, digits, keys(index), hrp, checksum);
    hide Run, Matches, AddressText, Characters, Value;
  }
}
