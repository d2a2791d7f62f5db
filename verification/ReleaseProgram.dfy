/**
 The release controller as a function of the cloud and of the script of outside events: what a run
 does, call by call.  The process is dead when the script is used up.  `AdmissionRelease` carries it
 out on the cloud itself and is proved to do exactly this.
 */
module ReleaseProgram {
  import opened Wrappers
  import opened ReleaseModel

  datatype Why =
    | Unstable | WrongCheckpoint | UnknownParameter | NotExecutable | PlanMismatch | NotConverged | TimedOut
    | CannotProve | OutsideChange | EmptyDiffers | CandidateChanged | NeedsInvestigation

  datatype Exit = Going | Killed | Raised(why: Why)
  datatype Outcome = Completed | AlreadyApplied | Interrupted | Failed(why: Why)

  datatype State = State(cloud: Cloud, script: seq<Event>)
  datatype Result = Result(state: State, exit: Exit)

  /** What the controller was started with; a task listing has a fixed number of pages. */
  datatype Setup = Setup(change: nat, reviewed: ChangeSet, pages: nat)

  function OverridesOf(x: Context, stage: Stage): Params {
    match stage
    case Pausing => PauseValues(x.previous)
    case Candidate => map[]
    case Revising => PauseValues(x.parameters)
    case Resuming => Enabled(x)
  }

  predicate Satisfied(actual: Params, overrides: Params) {
    forall k :: k in overrides ==> k in actual && actual[k] == overrides[k]
  }

  function Stop(s: State, why: Why): Result {
    Result(s, Raised(why))
  }

  /** One call to the outside: an event happens first. */
  function Next(s: State): Result {
    if s.script == [] then Result(s, Killed) else Result(State(Env(s.cloud, s.script[0]), s.script[1..]), Going)
  }

  // ---------- the stack ----------

  function WaitStack(s: State, polls: nat): Result
    decreases polls
  {
    if polls == 0 then Stop(s, TimedOut)
    else
      var r := Next(s);
      if !r.exit.Going? || r.state.cloud.status.Settled? then r
      else if !r.state.cloud.status.Progressing? then Stop(r.state, NotConverged)
      else WaitStack(r.state, polls - 1)
  }

  /** One poll. */
  lemma WaitStackOnce(s: State, polls: nat)
    ensures polls == 0 ==> WaitStack(s, polls) == Stop(s, TimedOut)
    ensures polls > 0 ==>
              var r := Next(s);
              WaitStack(s, polls)
              == if !r.exit.Going? || r.state.cloud.status.Settled? then r
                 else if !r.state.cloud.status.Progressing? then Stop(r.state, NotConverged)
                 else WaitStack(r.state, polls - 1)
  {
    hide Next;
  }

  function ReadStack(s: State): Result {
    var r := Next(s);
    if !r.exit.Going? || !r.state.cloud.status.Progressing? then r
    else
      var settled := WaitStack(r.state, 180);
      if settled.exit.Going? then Next(settled.state) else settled
  }

  function WithSet(s: State, stage: Stage, made: ChangeSet): State {
    s.(cloud := s.cloud.(sets := s.cloud.sets[stage := made]))
  }

  function Executing(s: State, stage: Stage): State {
    s.(cloud := s.cloud.(status := Progressing(stage)))
  }

  /** Describe the change set, creating it when there is none. */
  function FindChange(s: State, stage: Stage, made: ChangeSet): Result {
    if stage in s.cloud.sets then Result(s, Going) else Next(WithSet(s, stage, made))
  }

  function StartChange(s: State, stage: Stage): Result {
    var r := Next(s);
    if !r.exit.Going? then r
    else if stage !in r.state.cloud.sets then Stop(r.state, NotExecutable)
    else WaitStack(Executing(r.state, stage), 180)
  }

  function ExecuteChange(s: State, stage: Stage, plan: Params): Result {
    var asked := Next(s);
    if !asked.exit.Going? then asked
    else
      var r := FindChange(asked.state, stage, ChangeSet(plan, asked.state.cloud.template, Available));
      if !r.exit.Going? then r
      else if stage !in r.state.cloud.sets || !r.state.cloud.sets[stage].state.Available?
      then Stop(r.state, NotExecutable)
      else if r.state.cloud.sets[stage].params != plan then Stop(r.state, PlanMismatch)
      else StartChange(r.state, stage)
  }

  function ChangeBackground(s: State, stage: Stage, overrides: Params): Result {
    var r := ReadStack(s);
    if !r.exit.Going? || Satisfied(r.state.cloud.params, overrides) then r
    else if !(overrides.Keys <= r.state.cloud.params.Keys) then Stop(r.state, UnknownParameter)
    else ExecuteChange(r.state, stage, r.state.cloud.params + overrides)
  }

  // ---------- the acknowledgement and the drain ----------

  /** Every registration of the stack, at its present version, is what the controller last loaded. */
  predicate Acknowledged(c: Cloud, expected: map<Product, Reg>) {
    0 <= c.now - c.observedAt <= 90 && c.refreshedAt > 0
    && forall p :: p in expected ==> p in c.loaded && c.loaded[p] == expected[p]
  }

  function PollAck(s: State, expected: map<Product, Reg>, polls: nat): Result
    decreases polls
  {
    if polls == 0 then Stop(s, TimedOut)
    else
      var r := Next(s);
      if !r.exit.Going? || Acknowledged(r.state.cloud, expected) then r
      else PollAck(r.state, expected, polls - 1)
  }

  lemma PollAckOnce(s: State, expected: map<Product, Reg>, polls: nat)
    ensures polls == 0 ==> PollAck(s, expected, polls) == Stop(s, TimedOut)
    ensures polls > 0 ==>
              var r := Next(s);
              PollAck(s, expected, polls)
              == if !r.exit.Going? || Acknowledged(r.state.cloud, expected) then r
                 else PollAck(r.state, expected, polls - 1)
  {
    hide Next, Acknowledged;
  }

  function WaitAck(s: State): Result {
    var r := Next(s);
    if r.exit.Going? then PollAck(r.state, r.state.cloud.regs, 60) else r
  }

  /** Which page of a listing a task is on. */
  function PageOf(t: TaskId, pages: nat): nat
    requires pages > 0
  {
    t % pages
  }

  /** The tasks of one page that are wanted, or no longer wanted. */
  function Listing(c: Cloud, pages: nat, page: nat, wanted: bool): set<TaskId>
    requires pages > 0
  {
    set t | t in c.tasks && PageOf(t, pages) == page && c.tasks[t].wanted == wanted
  }

  datatype Scan = Scan(result: Result, arns: set<TaskId>)

  function ListPages(s: State, pages: nat, page: nat, wanted: bool, arns: set<TaskId>): Scan
    requires page <= pages && pages > 0
    decreases pages - page
  {
    if page == pages then Scan(Result(s, Going), arns)
    else
      var r := Next(s);
      if !r.exit.Going? then Scan(r, arns)
      else ListPages(r.state, pages, page + 1, wanted, arns + Listing(r.state.cloud, pages, page, wanted))
  }

  /** Both lists are required: a stopping task is no longer wanted. */
  function ListTasks(s: State, pages: nat): Scan
    requires pages > 0
  {
    var running := ListPages(s, pages, 0, true, {});
    if running.result.exit.Going? then ListPages(running.result.state, pages, 0, false, running.arns) else running
  }

  ghost predicate IsLeast(some: set<TaskId>, t: TaskId) {
    t in some && forall u :: u in some ==> t <= u
  }

  ghost function Least(some: set<TaskId>): (t: TaskId)
    requires some != {}
    ensures IsLeast(some, t)
  {
    LeastExists(some);
    var t :| IsLeast(some, t);
    t
  }

  lemma {:induction false} LeastExists(some: set<TaskId>)
    requires some != {}
    ensures exists t :: IsLeast(some, t)
    decreases some
  {
    var t :| t in some;
    var rest := some - {t};
    if rest == {} {
      assert some == {t};
      assert IsLeast(some, t);
    } else {
      LeastExists(rest);
      var v :| IsLeast(rest, v);
      assert forall u :: u in some ==> u == t || u in rest;
      assert IsLeast(some, if t < v then t else v);
    }
  }

  /** The first `n` tasks in sorted order. */
  ghost function FirstOf(some: set<TaskId>, n: nat): set<TaskId>
    ensures FirstOf(some, n) <= some && |FirstOf(some, n)| <= n
    ensures some != {} && n > 0 ==> FirstOf(some, n) != {}
    decreases n
  {
    if n == 0 || some == {} then {} else {Least(some)} + FirstOf(some - {Least(some)}, n - 1)
  }

  lemma FirstOfOnce(some: set<TaskId>, n: nat)
    ensures n == 0 || some == {} ==> FirstOf(some, n) == {}
    ensures n > 0 && some != {} ==> FirstOf(some, n) == {Least(some)} + FirstOf(some - {Least(some)}, n - 1)
  {
  }

  predicate AnyAlive(c: Cloud, batch: set<TaskId>)
    requires batch <= c.tasks.Keys
  {
    exists t :: t in batch && c.tasks[t].product.Some? && c.tasks[t].alive
  }

  datatype Finding = Finding(result: Result, unsettled: bool)

  /** Describe the tasks a hundred at a time; a task that cannot be described proves nothing. */
  ghost function DescribeTasks(s: State, left: set<TaskId>, unsettled: bool): Finding
    decreases left
  {
    if left == {} then Finding(Result(s, Going), unsettled)
    else
      var batch := FirstOf(left, 100);
      var r := Next(s);
      if !r.exit.Going? then Finding(r, true)
      else if !(batch <= r.state.cloud.tasks.Keys) then Finding(Stop(r.state, CannotProve), true)
      else DescribeTasks(r.state, left - batch, unsettled || AnyAlive(r.state.cloud, batch))
  }

  lemma DescribeOnce(s: State, left: set<TaskId>, unsettled: bool)
    ensures left == {} ==> DescribeTasks(s, left, unsettled) == Finding(Result(s, Going), unsettled)
    ensures left != {} ==>
              var batch, r := FirstOf(left, 100), Next(s);
              DescribeTasks(s, left, unsettled)
              == if !r.exit.Going? then Finding(r, true)
                 else if !(batch <= r.state.cloud.tasks.Keys) then Finding(Stop(r.state, CannotProve), true)
                 else DescribeTasks(r.state, left - batch, unsettled || AnyAlive(r.state.cloud, batch))
  {
    hide Next, FirstOf, AnyAlive;
  }

  ghost function WaitDrained(s: State, pages: nat, polls: nat): Result
    requires pages > 0
    decreases polls
  {
    if polls == 0 then Stop(s, TimedOut)
    else
      var listed := ListTasks(s, pages);
      if !listed.result.exit.Going? then listed.result
      else
        var found := DescribeTasks(listed.result.state, listed.arns, false);
        if !found.result.exit.Going? || !found.unsettled then found.result
        else WaitDrained(found.result.state, pages, polls - 1)
  }

  lemma WaitDrainedOnce(s: State, pages: nat, polls: nat)
    requires pages > 0
    ensures polls == 0 ==> WaitDrained(s, pages, polls) == Stop(s, TimedOut)
    ensures polls > 0 ==>
              var listed := ListTasks(s, pages);
              && (!listed.result.exit.Going? ==> WaitDrained(s, pages, polls) == listed.result)
              && (listed.result.exit.Going? ==>
                    var found := DescribeTasks(listed.result.state, listed.arns, false);
                    WaitDrained(s, pages, polls)
                    == if !found.result.exit.Going? || !found.unsettled then found.result
                       else WaitDrained(found.result.state, pages, polls - 1))
  {
    hide ListTasks, DescribeTasks;
  }

  // ---------- the candidate ----------

  function ExecuteCandidate(s: State, planned: Params, template: nat, actual: Params): Result {
    if Candidate !in s.cloud.sets then Stop(s, NotExecutable)
    else
      var change := s.cloud.sets[Candidate];
      if change.state.Empty? then (if actual == planned then Result(s, Going) else Stop(s, EmptyDiffers))
      else if change.params != planned || change.template != template then Stop(s, CandidateChanged)
      else if change.state.Available? then StartChange(s, Candidate)
      else if change.state.Executed? && actual == planned then Result(s, Going)
      else Stop(s, NeedsInvestigation)
  }

  function ApplyCandidate(s: State, x: Context): Result {
    var planned := Paused(x.parameters);
    var r := ReadStack(s);
    if !r.exit.Going? then r
    else if r.state.cloud.params != Paused(x.previous) && r.state.cloud.params != planned
    then Stop(r.state, OutsideChange)
    else
      var actual := r.state.cloud.params;
      var asked := Next(r.state);
      if !asked.exit.Going? then asked
      else
        var c := asked.state.cloud;
        var same := planned == c.params && x.template == c.template;
        var made := ChangeSet(planned, x.template, if same then Empty else Available);
        var found := FindChange(asked.state, Candidate, made);
        if found.exit.Going? then ExecuteCandidate(found.state, planned, x.template, actual) else found
  }

  // ---------- the journal ----------

  function WithNote(s: State, note: Note): State {
    s.(cloud := s.cloud.(journal := s.cloud.journal.(notes := s.cloud.journal.notes + {note})))
  }

  function RecordNote(s: State, note: Note): Result {
    var r := Next(s);
    if !r.exit.Going? || note in r.state.cloud.journal.notes then r
    else
      var w := Next(r.state);
      if w.exit.Going? then Result(WithNote(w.state, note), Going) else w
  }

  function Frozen(c: Cloud, setup: Setup): Context {
    Context(setup.change, c.params, setup.reviewed.params, setup.reviewed.template,
            Flags(FlagValues(setup.reviewed.params)))
  }

  function Begin(s: State, setup: Setup): Result {
    var r := Next(s);
    if !r.exit.Going? then r
    else if !r.state.cloud.status.Settled? then Stop(r.state, Unstable)
    else
      var w := Next(r.state);
      var journal := Journal(Some(Frozen(r.state.cloud, setup)), {Start});
      if w.exit.Going? then Result(w.state.(cloud := w.state.cloud.(journal := journal)), Going) else w
  }

  // ---------- the whole release ----------

  /** Pause, wait until the controller knows, wait until every product task has ended, and say so. */
  ghost function Drain(s: State, x: Context, pages: nat): Result
    requires pages > 0
  {
    var paused := ChangeBackground(s, Pausing, PauseValues(x.previous));
    if !paused.exit.Going? then paused
    else
      var known := WaitAck(paused.state);
      if !known.exit.Going? then known
      else
        var ended := WaitDrained(known.state, pages, 120);
        if ended.exit.Going? then RecordNote(ended.state, Drained) else ended
  }

  ghost function ReplaceRuntime(s: State, x: Context, pages: nat): Result
    requires pages > 0
  {
    var drained := Drain(s, x, pages);
    if !drained.exit.Going? then drained
    else
      var applied := ApplyCandidate(drained.state, x);
      if applied.exit.Going? then RecordNote(applied.state, Runtime) else applied
  }

  function Revise(s: State, x: Context): Result {
    if Revisions in s.cloud.journal.notes then Result(s, Going)
    else
      var r := ChangeBackground(s, Revising, PauseValues(x.parameters));
      if r.exit.Going? then RecordNote(r.state, Revisions) else r
  }

  function RestoreFlags(s: State, x: Context): Result {
    var revised := Revise(s, x);
    if !revised.exit.Going? then revised
    else
      var restored := ChangeBackground(revised.state, Resuming, Enabled(x));
      if !restored.exit.Going? then restored
      else
        var known := WaitAck(restored.state);
        if known.exit.Going? then RecordNote(known.state, Complete) else known
  }

  datatype Ran = Ran(state: State, outcome: Outcome)

  function Ended(r: Result): Ran {
    Ran(r.state, if r.exit.Raised? then Failed(r.exit.why) else Interrupted)
  }

  ghost function Resume(s: State, setup: Setup, x: Context): Ran
    requires setup.pages > 0
  {
    if x.change != setup.change then Ran(s, Failed(WrongCheckpoint))
    else
      var r := if Runtime in s.cloud.journal.notes then Result(s, Going) else ReplaceRuntime(s, x, setup.pages);
      if !r.exit.Going? then Ended(r)
      else
        var done := RestoreFlags(r.state, x);
        if done.exit.Going? then Ran(done.state, Completed) else Ended(done)
  }

  /** One run, from the beginning or from wherever an earlier run was killed. */
  ghost function RunOnce(s: State, setup: Setup): Ran
    requires setup.pages > 0
  {
    var r := Next(s);
    if !r.exit.Going? then Ended(r)
    else if Complete in r.state.cloud.journal.notes then Ran(r.state, AlreadyApplied)
    else
      var begun := if r.state.cloud.journal.start.Some? then r else Begin(r.state, setup);
      if !begun.exit.Going? then Ended(begun)
      else Resume(begun.state, setup, begun.state.cloud.journal.start.value)
  }

  /** The cloud after one run per script, each killed where its script ends. */
  ghost function After(c: Cloud, setup: Setup, scripts: seq<seq<Event>>): Cloud
    requires setup.pages > 0
    decreases |scripts|
  {
    if scripts == [] then c
    else RunOnce(State(After(c, setup, scripts[..|scripts| - 1]), scripts[|scripts| - 1]), setup).state.cloud
  }

  /** The outcome of each of those runs. */
  ghost function Outcomes(c: Cloud, setup: Setup, scripts: seq<seq<Event>>): seq<Outcome>
    requires setup.pages > 0
    ensures |Outcomes(c, setup, scripts)| == |scripts|
    decreases |scripts|
  {
    if scripts == [] then []
    else
      var before := scripts[..|scripts| - 1];
      Outcomes(c, setup, before) + [RunOnce(State(After(c, setup, before), scripts[|scripts| - 1]), setup).outcome]
  }
}
