/**
 The release controller.  Every call to the outside first lets one event of the script happen; when
 the script is used up the process is dead, wherever it stands, and the next run starts over.
 */
module AdmissionRelease {
  import opened Wrappers
  import opened ReleaseModel
  import opened P = ReleaseProgram

  /** When the controller changes the registrations: how far it is by then. */
  predicate Due(stage: Stage, phase: nat) {
    match stage
    case Pausing => phase <= 2
    case Candidate => false
    case Revising => phase == 2
    case Resuming => 2 <= phase <= 3
  }

  /** An override that is due is in force already, or names an unknown parameter, or is the very next step. */
  lemma NextStep(x: Context, phase: nat, stage: Stage)
    requires Due(stage, phase)
    ensures var actual, overrides := At(x, phase), OverridesOf(x, stage);
            || Satisfied(actual, overrides)
            || !(overrides.Keys <= actual.Keys)
            || (phase + 1 == LeadsTo(stage) && actual + overrides == At(x, LeadsTo(stage)))
    ensures Satisfied(At(x, phase), OverridesOf(x, stage)) && phase + 1 == LeadsTo(stage) ==>
              At(x, phase) == At(x, phase + 1)
    ensures stage.Pausing? && phase < 2 ==> OverridesOf(x, stage).Keys <= At(x, phase).Keys
    ensures stage.Pausing? && phase == 2 ==> (OverridesOf(x, stage).Keys <= At(x, phase).Keys <==> Resumable(x))
    ensures stage.Revising? ==> Satisfied(At(x, phase), OverridesOf(x, stage))
    ensures stage.Resuming? && phase == 2 && OverridesOf(x, stage).Keys <= At(x, phase).Keys ==>
              Enabled(x).Keys <= Paused(x.parameters).Keys
    ensures stage.Resuming? && phase == 2 ==>
              (OverridesOf(x, stage).Keys <= At(x, phase).Keys <==> OverridesOf(x, stage).Keys <= x.parameters.Keys)
    ensures stage.Resuming? && phase == 3 ==> Satisfied(At(x, phase), OverridesOf(x, stage))
  {
    PausedFlags(x.previous);
    PausedFlags(x.parameters);
  }

  /** The ways a run can fail without anything being wrong with the plan: the world did not converge. */
  predicate Expected(why: Why) {
    why.NotExecutable? || why.NotConverged? || why.TimedOut? || why.CannotProve? || why.NeedsInvestigation?
  }

  /** The candidate still has every product flag the previous configuration had. */
  predicate Resumable(x: Context) {
    PauseValues(x.previous).Keys <= x.parameters.Keys
  }

  /** Killed between the candidate's update and its checkpoint, with a flag dropped. */
  predicate Stranded(c: Cloud, phase: nat) {
    c.journal.start.Some? && phase == 2 && Runtime !in c.journal.notes && !Resumable(c.journal.start.value)
  }

  class Controller {
    const setup: Setup
    var cloud: Cloud
    var script: seq<Event>
    ghost var phase: nat

    constructor (setup: Setup, cloud: Cloud, script: seq<Event>, ghost phase: nat)
      requires Valid(cloud, phase)
      ensures Ready() && this.setup == setup && Here() == State(cloud, script) && this.phase == phase
    {
      this.setup := setup;
      this.cloud := cloud;
      this.script := script;
      this.phase := phase;
    }

    /** Where the process stands: the cloud, and the events yet to happen. */
    function Here(): State
      reads this
    {
      State(cloud, script)
    }

    ghost predicate Ready()
      reads this
    {
      Valid(cloud, phase)
    }

    /** Let one event happen; false when the process is dead. */
    method Next() returns (alive: bool)
      requires Ready()
      modifies this
      ensures Result(Here(), if alive then Going else Killed) == P.Next(old(Here()))
      ensures script == if alive then old(script)[1..] else []
      ensures alive <==> old(script) != []
      ensures Ready() && phase >= old(phase) && cloud.journal == old(cloud).journal
      ensures !old(cloud).status.Progressing? ==> Still(old(cloud), cloud) && phase == old(phase)
      ensures old(cloud).status.Progressing? ==> Moved(old(cloud), old(phase), cloud, phase)
      ensures !old(cloud).status.Progressing? && Disarmed(old(cloud)) ==>
                && Disarmed(cloud)
                && forall t :: t in cloud.tasks && cloud.tasks[t].product.Some? && cloud.tasks[t].alive ==>
                     t in old(cloud).tasks && old(cloud).tasks[t].product.Some? && old(cloud).tasks[t].alive
                     && (cloud.tasks[t].wanted ==> old(cloud).tasks[t].wanted)
    {
      hide Valid, Still, Moved, Env, Disarmed;
      alive := script != [];
      SelfStill(cloud, phase);
      if alive {
        var e := script[0];
        EnvKeeps(cloud, phase, e);
        EnvJournal(cloud, e);
        if cloud.status.Progressing? {
          EnvMoves(cloud, phase, e);
        } else {
          EnvStill(cloud, e);
          ProgressOnly(cloud, phase, e);
          if Disarmed(cloud) {
            EnvDisarmed(cloud, e);
          }
        }
        script := script[1..];
        phase := PhaseAfter(cloud, phase, e);
        cloud := Env(cloud, e);
      }
    }

    /** Poll until the update is over. */
    method WaitStack() returns (exit: Exit)
      requires Ready()
      modifies this
      ensures Result(Here(), exit) == P.WaitStack(old(Here()), 180)
      ensures Ready() && phase >= old(phase) && cloud.journal == old(cloud).journal
      ensures exit.Going? ==> cloud.status.Settled?
      ensures exit.Raised? ==> exit.why.NotConverged? || exit.why.TimedOut?
      ensures old(cloud).status.Progressing? && exit.Going? ==> phase == old(phase) + 1
      ensures !old(cloud).status.Progressing? ==> Still(old(cloud), cloud) && phase == old(phase)
    {
      hide Valid, Still, P.Next, P.WaitStack;
      SelfStill(cloud, phase);
      for i := 0 to 180
        invariant P.WaitStack(old(Here()), 180) == P.WaitStack(Here(), 180 - i)
        invariant Ready() && phase >= old(phase) && cloud.journal == old(cloud).journal
        invariant old(cloud).status.Progressing? ==> cloud.status == old(cloud).status && phase == old(phase)
        invariant !old(cloud).status.Progressing? ==>
                    !cloud.status.Progressing? && Still(old(cloud), cloud) && phase == old(phase)
      {
        ghost var before := cloud;
        WaitStackOnce(Here(), 180 - i);
        var alive := Next();
        if !old(cloud).status.Progressing? {
          StillFurther(old(cloud), before, cloud);
        }
        if !alive {
          return Killed;
        }
        if cloud.status.Settled? {
          return Going;
        }
        if !cloud.status.Progressing? {
          return Raised(NotConverged);
        }
      }
      WaitStackOnce(Here(), 0);
      return Raised(TimedOut);
    }

    /** Read the stack, waiting first if an update is in progress. */
    method ReadStack() returns (exit: Exit)
      requires Ready()
      modifies this
      ensures Result(Here(), exit) == P.ReadStack(old(Here()))
      ensures Ready() && phase >= old(phase) && cloud.journal == old(cloud).journal
      ensures exit.Going? ==> !cloud.status.Progressing?
      ensures exit.Raised? ==> exit.why.NotConverged? || exit.why.TimedOut?
    {
      hide Valid, P.Next, P.WaitStack;
      var alive := Next();
      if !alive {
        return Killed;
      }
      if cloud.status.Progressing? {
        exit := WaitStack();
        if !exit.Going? {
          return;
        }
        alive := Next();
        if !alive {
          return Killed;
        }
      }
      exit := Going;
    }

    /**
     Bring the overrides of a stage into force, unless they already are: read the stack, plan a change
     set against what was read, make sure it still fits, execute it and wait.
     */
    method ChangeBackground(stage: Stage, overrides: Params) returns (exit: Exit)
      requires Ready() && cloud.journal.start.Some? && !stage.Candidate?
      requires overrides == OverridesOf(cloud.journal.start.value, stage)
      requires stage.Pausing? ==> Runtime !in cloud.journal.notes
      requires stage.Revising? ==> Runtime in cloud.journal.notes && Revisions !in cloud.journal.notes
      requires stage.Resuming? ==> Revisions in cloud.journal.notes
      modifies this
      ensures Result(Here(), exit) == P.ChangeBackground(old(Here()), stage, overrides)
      ensures Ready() && phase >= old(phase) && cloud.journal == old(cloud).journal
      ensures exit.Going? ==>
                !cloud.status.Progressing? && phase >= 1 && Due(stage, phase) && phase <= LeadsTo(stage) + 1
      ensures exit.Going? && stage.Resuming? ==> phase == 3
      ensures exit.Going? && stage.Pausing? ==> overrides.Keys <= cloud.params.Keys
      ensures exit.Raised? ==> Expected(exit.why) || exit.why.UnknownParameter?
      ensures exit == Raised(UnknownParameter) ==>
                || (stage.Pausing? && phase == 2 && !Resumable(cloud.journal.start.value))
                || (stage.Resuming? && !(overrides.Keys <= cloud.journal.start.value.parameters.Keys))
    {
      hide Valid, At, OverridesOf, P.ReadStack, P.ExecuteChange;
      ghost var x := cloud.journal.start.value;
      exit := ReadStack();
      if !exit.Going? {
        return;
      }
      DueNow(cloud, phase, stage);
      var actual := cloud.params;
      if Satisfied(actual, overrides) {
        if phase + 1 == LeadsTo(stage) {
          StepTaken(cloud, phase, stage);
          phase := phase + 1;
        }
        return Going;
      }
      NextStep(x, phase, stage);
      if !(overrides.Keys <= actual.Keys) {
        return Raised(UnknownParameter);
      }
      exit := ExecuteChange(stage, actual + overrides);
      if exit.Going? {
        InForce(cloud, phase, stage);
      }
    }

    /** Find or create the named change set, check it against the plan, execute it and wait. */
    method ExecuteChange(stage: Stage, plan: Params) returns (exit: Exit)
      requires Ready() && cloud.journal.start.Some? && !cloud.status.Progressing?
      requires stage.Pausing? || stage.Resuming?
      requires plan == At(cloud.journal.start.value, LeadsTo(stage)) && phase + 1 == LeadsTo(stage)
      requires plan != cloud.params
      requires stage.Resuming? ==>
                 && Revisions in cloud.journal.notes
                 && var x := cloud.journal.start.value; Enabled(x).Keys <= Paused(x.parameters).Keys
      modifies this
      ensures Result(Here(), exit) == P.ExecuteChange(old(Here()), stage, plan)
      ensures Ready() && phase >= old(phase) && cloud.journal == old(cloud).journal
      ensures exit.Going? ==> cloud.status.Settled? && phase == LeadsTo(stage)
      ensures exit.Raised? ==> exit.why.NotExecutable? || exit.why.NotConverged? || exit.why.TimedOut?
    {
      hide Valid, At, Enabled, Paused, P.Next, P.WaitStack;
      var alive := Next();
      if !alive {
        return Killed;
      }
      if stage !in cloud.sets {
        CreateKeeps(cloud, phase, stage, plan);
        cloud := cloud.(sets := cloud.sets[stage := ChangeSet(plan, cloud.template, Available)]);
        alive := Next();
        if !alive {
          return Killed;
        }
      }
      if stage !in cloud.sets || !cloud.sets[stage].state.Available? {
        return Raised(NotExecutable);
      }
      PlannedSet(cloud, phase, stage);
      if cloud.sets[stage].params != plan {
        return Raised(PlanMismatch);
      }
      alive := Next();
      if !alive {
        return Killed;
      }
      if stage !in cloud.sets {
        return Raised(NotExecutable);
      }
      ExecuteKeeps(cloud, phase, stage);
      cloud := cloud.(status := Progressing(stage));
      exit := WaitStack();
    }

    /** Wait for the controller to report the registrations as they are. */
    method WaitAck() returns (exit: Exit)
      requires Ready() && !cloud.status.Progressing?
      modifies this
      ensures Result(Here(), exit) == P.WaitAck(old(Here()))
      ensures Ready() && phase == old(phase) && cloud.journal == old(cloud).journal && Still(old(cloud), cloud)
      ensures exit.Going? ==> forall p :: p in cloud.regs ==> p in cloud.loaded && cloud.loaded[p] == cloud.regs[p]
      ensures exit.Going? ==> cloud.refreshedAt > 0 && cloud.observedAt <= cloud.now <= cloud.observedAt + 90
      ensures exit.Raised? ==> exit.why.TimedOut?
    {
      hide Valid, P.Next, P.PollAck;
      var alive := Next();
      if !alive {
        return Killed;
      }
      var expected := cloud.regs;
      for i := 0 to 60
        invariant P.WaitAck(old(Here())) == P.PollAck(Here(), expected, 60 - i)
        invariant Ready() && phase == old(phase) && Still(old(cloud), cloud) && expected == cloud.regs
      {
        PollAckOnce(Here(), expected, 60 - i);
        alive := Next();
        if !alive {
          return Killed;
        }
        if Acknowledged(cloud, expected) {
          return Going;
        }
      }
      PollAckOnce(Here(), expected, 0);
      return Raised(TimedOut);
    }

    // ---------- proving that every product task has stopped ----------

    /** A product task that is still alive has been listed, or has yet to turn up among the unwanted. */
    ghost predicate ListedBefore(arns: set<TaskId>, page: nat)
      reads this
      requires setup.pages > 0
    {
      forall t :: t in cloud.tasks && cloud.tasks[t].product.Some? && cloud.tasks[t].alive
                  && PageOf(t, setup.pages) < page ==>
        t in arns || !cloud.tasks[t].wanted
    }

    ghost predicate ListedTwice(arns: set<TaskId>, page: nat)
      reads this
      requires setup.pages > 0
    {
      forall t :: t in cloud.tasks && cloud.tasks[t].product.Some? && cloud.tasks[t].alive ==>
        t in arns || (!cloud.tasks[t].wanted && PageOf(t, setup.pages) >= page)
    }

    /** List the wanted tasks page by page, then the unwanted ones; tasks come and go in between. */
    method ListTasks() returns (alive: bool, arns: set<TaskId>)
      requires Ready() && setup.pages > 0 && !cloud.status.Progressing? && Disarmed(cloud)
      modifies this
      ensures Scan(Result(Here(), if alive then Going else Killed), arns) == P.ListTasks(old(Here()), setup.pages)
      ensures Ready() && phase == old(phase) && Still(old(cloud), cloud) && Disarmed(cloud)
      ensures alive ==> ListedTwice(arns, setup.pages)
    {
      hide Valid, Disarmed, P.Next;
      arns := {};
      SelfStill(cloud, phase);
      for page := 0 to setup.pages
        invariant Ready() && phase == old(phase) && Still(old(cloud), cloud) && Disarmed(cloud)
        invariant ListedBefore(arns, page)
        invariant P.ListPages(old(Here()), setup.pages, 0, true, {})
                  == P.ListPages(Here(), setup.pages, page, true, arns)
      {
        alive := Next();
        if !alive {
          return;
        }
        arns := arns + Listing(cloud, setup.pages, page, true);
      }
      for page := 0 to setup.pages
        invariant Ready() && phase == old(phase) && Still(old(cloud), cloud) && Disarmed(cloud)
        invariant ListedTwice(arns, page)
        invariant P.ListTasks(old(Here()), setup.pages) == P.ListPages(Here(), setup.pages, page, false, arns)
      {
        alive := Next();
        if !alive {
          return;
        }
        arns := arns + Listing(cloud, setup.pages, page, false);
      }
      alive := true;
    }

    /** Everything alive is among the tasks listed and not described as stopped. */
    ghost predicate Described(arns: set<TaskId>, left: set<TaskId>, unsettled: bool)
      reads this
    {
      forall t :: t in cloud.tasks && cloud.tasks[t].product.Some? && cloud.tasks[t].alive ==>
        t in arns && (t in left || unsettled)
    }

    /** Describe the listed tasks in batches of a hundred; a task that cannot be described proves nothing. */
    method DescribeTasks(arns: set<TaskId>) returns (exit: Exit, unsettled: bool)
      requires Ready() && setup.pages > 0 && !cloud.status.Progressing? && Disarmed(cloud)
      requires ListedTwice(arns, setup.pages)
      modifies this
      ensures Finding(Result(Here(), exit), unsettled) == P.DescribeTasks(old(Here()), arns, false)
      ensures Ready() && phase == old(phase) && Still(old(cloud), cloud) && Disarmed(cloud)
      ensures exit.Going? && !unsettled ==>
                forall t :: t in cloud.tasks && cloud.tasks[t].product.Some? ==> !cloud.tasks[t].alive
      ensures exit.Raised? ==> exit.why.CannotProve?
    {
      hide Valid, Disarmed, P.Next, P.DescribeTasks;
      unsettled := false;
      var left := arns;
      SelfStill(cloud, phase);
      while left != {}
        invariant Ready() && phase == old(phase) && Still(old(cloud), cloud) && Disarmed(cloud)
        invariant Described(arns, left, unsettled)
        invariant P.DescribeTasks(old(Here()), arns, false) == P.DescribeTasks(Here(), left, unsettled)
        decreases left
      {
        DescribeOnce(Here(), left, unsettled);
        var batch := Batch(left);
        var alive := Next();
        if !alive {
          return Killed, true;
        }
        if !(batch <= cloud.tasks.Keys) {
          return Raised(CannotProve), true;
        }
        unsettled := unsettled || AnyAlive(cloud, batch);
        left := left - batch;
      }
      DescribeOnce(Here(), {}, unsettled);
      exit := Going;
    }

    /** The first hundred of the tasks, in sorted order. */
    method Batch(left: set<TaskId>) returns (batch: set<TaskId>)
      ensures batch == FirstOf(left, 100)
    {
      hide FirstOf;
      batch := {};
      var rest := left;
      for n := 0 to 100
        invariant FirstOf(left, 100) == batch + FirstOf(rest, 100 - n)
      {
        FirstOfOnce(rest, 100 - n);
        if rest == {} {
          return;
        }
        var t := LeastOf(rest);
        batch := batch + {t};
        rest := rest - {t};
      }
      FirstOfOnce(rest, 0);
    }

    method LeastOf(some: set<TaskId>) returns (least: TaskId)
      requires some != {}
      ensures least == Least(some)
    {
      least :| least in some;
      var rest := some - {least};
      while rest != {}
        invariant rest <= some && least in some && forall u :: u in some ==> least <= u || u in rest
        decreases rest
      {
        var t :| t in rest;
        least := if t < least then t else least;
        rest := rest - {t};
      }
    }

    /** Scan until a scan finds no product task alive: then there is none. */
    method WaitDrained() returns (exit: Exit)
      requires Ready() && setup.pages > 0 && !cloud.status.Progressing? && Disarmed(cloud)
      modifies this
      ensures Result(Here(), exit) == P.WaitDrained(old(Here()), setup.pages, 120)
      ensures Ready() && phase == old(phase) && cloud.journal == old(cloud).journal && Still(old(cloud), cloud)
      ensures exit.Going? ==> Quiet(cloud)
      ensures exit.Raised? ==> exit.why.CannotProve? || exit.why.TimedOut?
    {
      hide Valid, P.ListTasks, P.DescribeTasks, P.WaitDrained;
      SelfStill(cloud, phase);
      for i := 0 to 120
        invariant P.WaitDrained(old(Here()), setup.pages, 120) == P.WaitDrained(Here(), setup.pages, 120 - i)
        invariant Ready() && phase == old(phase) && Still(old(cloud), cloud) && Disarmed(cloud)
      {
        WaitDrainedOnce(Here(), setup.pages, 120 - i);
        var alive, arns := ListTasks();
        if !alive {
          return Killed;
        }
        var unsettled;
        exit, unsettled := DescribeTasks(arns);
        if !exit.Going? {
          return;
        }
        if !unsettled {
          return Going;
        }
      }
      WaitDrainedOnce(Here(), setup.pages, 0);
      return Raised(TimedOut);
    }

    // ---------- the candidate ----------

    /** Apply the reviewed template and values with the flags off, unless that has happened already. */
    method ApplyCandidate(x: Context) returns (exit: Exit)
      requires Ready() && cloud.journal.start == Some(x) && 1 <= phase <= 2
      requires Drained in cloud.journal.notes && Runtime !in cloud.journal.notes
      modifies this
      ensures Result(Here(), exit) == P.ApplyCandidate(old(Here()), x)
      ensures Ready() && phase >= old(phase) && cloud.journal == old(cloud).journal
      ensures exit.Going? ==> !cloud.status.Progressing? && phase == 2
      ensures exit.Raised? ==>
                exit.why.NotExecutable? || exit.why.NotConverged? || exit.why.TimedOut? || exit.why.NeedsInvestigation?
    {
      hide Valid, At, Paused, P.Next, P.ReadStack, P.ExecuteCandidate;
      var planned := Paused(x.parameters);
      exit := ReadStack();
      if !exit.Going? {
        return;
      }
      BeforeRuntime(cloud, phase);
      var actual := cloud.params;
      if actual != Paused(x.previous) && actual != planned {
        return Raised(OutsideChange);
      }
      var alive := Next();
      if !alive {
        return Killed;
      }
      if Candidate !in cloud.sets {
        var same := planned == cloud.params && x.template == cloud.template;
        CandidateKeeps(cloud, phase);
        var made := ChangeSet(planned, x.template, if same then Empty else Available);
        cloud := cloud.(sets := cloud.sets[Candidate := made]);
        phase := if same then 2 else phase;
        alive := Next();
        if !alive {
          return Killed;
        }
      }
      exit := ExecuteCandidate(planned, x.template, actual);
    }

    method ExecuteCandidate(planned: Params, template: nat, actual: Params) returns (exit: Exit)
      requires Ready() && cloud.journal.start.Some? && 1 <= phase <= 2 && !cloud.status.Progressing?
      requires Drained in cloud.journal.notes && Runtime !in cloud.journal.notes
      requires planned == Paused(cloud.journal.start.value.parameters) && template == cloud.journal.start.value.template
      requires actual == cloud.params
      modifies this
      ensures Result(Here(), exit) == P.ExecuteCandidate(old(Here()), planned, template, actual)
      ensures Ready() && phase >= old(phase) && cloud.journal == old(cloud).journal
      ensures exit.Going? ==> !cloud.status.Progressing? && phase == 2
      ensures exit.Raised? ==>
                exit.why.NotExecutable? || exit.why.NotConverged? || exit.why.TimedOut? || exit.why.NeedsInvestigation?
    {
      hide Valid, Paused, P.Next, P.WaitStack;
      if Candidate !in cloud.sets {
        return Raised(NotExecutable);
      }
      var change := cloud.sets[Candidate];
      PlannedSet(cloud, phase, Candidate);
      BeforeRuntime(cloud, phase);
      if change.state.Empty? {
        return if actual == planned then Going else Raised(EmptyDiffers);
      }
      if change.params != planned || change.template != template {
        return Raised(CandidateChanged);
      }
      if change.state.Available? {
        var alive := Next();
        if !alive {
          return Killed;
        }
        if Candidate !in cloud.sets {
          return Raised(NotExecutable);
        }
        AvailableAhead(cloud, phase, Candidate);
        ExecuteKeeps(cloud, phase, Candidate);
        cloud := cloud.(status := Progressing(Candidate));
        exit := WaitStack();
      } else if change.state.Executed? && actual == planned {
        exit := Going;
      } else {
        exit := Raised(NeedsInvestigation);
      }
    }

    // ---------- the journal ----------

    /** Write a checkpoint, or find it written. */
    method RecordNote(note: Note) returns (exit: Exit)
      requires Ready() && cloud.journal.start.Some? && !cloud.status.Progressing? && CanNote(cloud, phase, note)
      modifies this
      ensures Result(Here(), exit) == P.RecordNote(old(Here()), note)
      ensures Ready() && phase == old(phase) && JournalGrows(old(cloud).journal, cloud.journal)
      ensures cloud.journal.start == old(cloud).journal.start
      ensures cloud.journal.notes <= old(cloud).journal.notes + {note}
      ensures exit.Going? ==> note in cloud.journal.notes && !cloud.status.Progressing?
      ensures !exit.Raised?
    {
      hide Valid, P.Next;
      var alive := Next();
      if !alive {
        return Killed;
      }
      StillNotable(old(cloud), cloud, phase, note);
      if note in cloud.journal.notes {
        return Going;
      }
      ghost var before := cloud;
      alive := Next();
      if !alive {
        return Killed;
      }
      StillNotable(before, cloud, phase, note);
      NoteKeeps(cloud, phase, note);
      cloud := cloud.(journal := cloud.journal.(notes := cloud.journal.notes + {note}));
      return Going;
    }

    /** The first run freezes what it is about to do. */
    method Begin() returns (exit: Exit)
      requires Ready() && cloud.journal.start.None?
      modifies this
      ensures Result(Here(), exit) == P.Begin(old(Here()), setup)
      ensures Ready() && phase == old(phase)
      ensures exit.Going? ==> cloud.journal.start.Some? && cloud.journal.start.value.change == setup.change
                              && cloud.journal.start.value == Frozen(old(cloud), setup)
      ensures !exit.Going? ==> cloud.journal == old(cloud).journal
      ensures JournalGrows(old(cloud).journal, cloud.journal)
      ensures exit.Raised? ==> exit.why.Unstable? && !old(cloud).status.Settled?
      ensures exit.Going? ==> old(cloud).status.Settled?
      ensures !old(cloud).status.Settled? ==>
                Still(old(cloud), cloud) && exit == if old(script) == [] then Killed else Raised(Unstable)
    {
      hide Valid, P.Next;
      NotBegun(cloud, phase);
      var alive := Next();
      if !alive {
        return Killed;
      }
      if !cloud.status.Settled? {
        return Raised(Unstable);
      }
      var context := Frozen(cloud, setup);
      alive := Next();
      if !alive {
        return Killed;
      }
      BeginKeeps(cloud, phase, context);
      cloud := cloud.(journal := Journal(Some(context), {Start}));
      return Going;
    }

    // ---------- the whole release ----------

    /** Pause, wait until the controller knows and every product task has ended, then apply the candidate. */
    method ReplaceRuntime(x: Context) returns (exit: Exit)
      requires Ready() && cloud.journal.start == Some(x) && Runtime !in cloud.journal.notes && setup.pages > 0
      modifies this
      ensures Result(Here(), exit) == P.ReplaceRuntime(old(Here()), x, setup.pages)
      ensures Ready() && phase >= old(phase) && JournalGrows(old(cloud).journal, cloud.journal)
      ensures cloud.journal.start == Some(x)
      ensures exit.Going? ==> Runtime in cloud.journal.notes && Revisions !in cloud.journal.notes
                              && (old(phase) == 2 ==> Resumable(x))
      ensures exit.Raised? ==> Expected(exit.why) || (exit.why.UnknownParameter? && !Resumable(x))
      ensures !Resumable(x) && old(phase) == 2 ==> cloud.journal == old(cloud).journal
    {
      hide Valid, At, Paused, P.ChangeBackground, P.WaitAck, P.WaitDrained, P.RecordNote, P.ApplyCandidate;
      NotYet(cloud, phase);
      exit := ChangeBackground(Pausing, PauseValues(x.previous));
      if !exit.Going? {
        return;
      }
      if phase == 2 {
        PausedKeys(cloud, phase);
      }
      exit := WaitAck();
      if !exit.Going? {
        return;
      }
      AckDisarms(cloud, phase);
      exit := WaitDrained();
      if !exit.Going? {
        return;
      }
      exit := RecordNote(Drained);
      if !exit.Going? {
        return;
      }
      exit := ApplyCandidate(x);
      if !exit.Going? {
        return;
      }
      exit := RecordNote(Runtime);
    }

    /** Restore the flags and wait until the controller knows. */
    method RestoreFlags(x: Context) returns (exit: Exit)
      requires Ready() && cloud.journal.start == Some(x) && Runtime in cloud.journal.notes
      modifies this
      ensures Result(Here(), exit) == P.RestoreFlags(old(Here()), x)
      ensures Ready() && phase >= old(phase) && JournalGrows(old(cloud).journal, cloud.journal)
      ensures cloud.journal.start == Some(x)
      ensures exit.Going? ==> Complete in cloud.journal.notes
      ensures exit.Raised? ==>
                Expected(exit.why) || (exit.why.UnknownParameter? && !(Enabled(x).Keys <= x.parameters.Keys))
    {
      hide Valid, At, Paused, Enabled, P.ChangeBackground, P.WaitAck, P.RecordNote;
      if Revisions !in cloud.journal.notes {
        exit := ChangeBackground(Revising, PauseValues(x.parameters));
        if !exit.Going? {
          return;
        }
        exit := RecordNote(Revisions);
        if !exit.Going? {
          return;
        }
      }
      exit := ChangeBackground(Resuming, Enabled(x));
      if !exit.Going? {
        return;
      }
      exit := WaitAck();
      if !exit.Going? {
        return;
      }
      exit := RecordNote(Complete);
    }

    /**
     One run of the release, from the beginning or from wherever an earlier run was killed.  The stack
     only moves forward through the four configurations, checkpoints never change, and a completed
     release leaves exactly the restored candidate.
     */
    method Run() returns (outcome: Outcome)
      requires Ready() && setup.pages > 0
      modifies this
      ensures Ran(Here(), outcome) == P.RunOnce(old(Here()), setup)
      ensures Ready() && phase >= old(phase) && JournalGrows(old(cloud).journal, cloud.journal)
      ensures outcome.Completed? || outcome.AlreadyApplied? ==>
                && cloud.journal.start.Some? && Complete in cloud.journal.notes
                && cloud.params == At(cloud.journal.start.value, 3)
                && cloud.template == cloud.journal.start.value.template
                && (cloud.journal.start.value.restore.Flags? ==> cloud.params == cloud.journal.start.value.parameters)
      ensures outcome.Failed? && outcome.why.UnknownParameter? ==>
                && cloud.journal.start.Some?
                && var x := cloud.journal.start.value;
                   !Resumable(x) || !(Enabled(x).Keys <= x.parameters.Keys)
      ensures outcome.Failed? ==>
                || Expected(outcome.why) || outcome.why.UnknownParameter? || outcome.why.Unstable?
                || outcome.why.WrongCheckpoint?
      ensures Stranded(old(cloud), old(phase)) ==>
                cloud.journal == old(cloud).journal && (outcome.Failed? || outcome.Interrupted?)
      ensures Unfit(old(cloud)) ==>
                Still(old(cloud), cloud) && outcome == if |old(script)| < 2 then Interrupted else Failed(Unstable)
      ensures outcome == Failed(Unstable) ==> Unfit(old(cloud))
      ensures Foreign(old(cloud), setup) ==>
                && cloud.journal == old(cloud).journal && |script| >= |old(script)| - 1
                && outcome == if old(script) == [] then Interrupted else Failed(WrongCheckpoint)
      ensures outcome == Failed(WrongCheckpoint) ==> Foreign(old(cloud), setup)
    {
      hide Valid, At, Paused, Resumable, Enabled, P.Next, P.Begin, P.ReplaceRuntime, P.RestoreFlags;
      if cloud.journal.start.None? {
        NotBegun(cloud, phase);
      }
      var alive := Next();
      if !alive {
        return Interrupted;
      }
      ghost var before := cloud;
      if Complete in cloud.journal.notes {
        Finished(cloud, phase);
        return AlreadyApplied;
      }
      var exit := Going;
      if cloud.journal.start.None? {
        exit := Begin();
        if !exit.Going? {
          if Unfit(old(cloud)) {
            StillFurther(old(cloud), before, cloud);
          }
          return HowItEnded(exit);
        }
      }
      var x := cloud.journal.start.value;
      if x.change != setup.change {
        return Failed(WrongCheckpoint);
      }
      if Runtime !in cloud.journal.notes {
        NotYet(cloud, phase);
        exit := ReplaceRuntime(x);
        if !exit.Going? {
          return HowItEnded(exit);
        }
      }
      exit := RestoreFlags(x);
      if !exit.Going? {
        return HowItEnded(exit);
      }
      Finished(cloud, phase);
      return Completed;
    }

    /**
     However often the release is killed and started again, it only moves forward; a completed one leaves
     exactly the restored candidate, and a stranded one stays stranded.
     */
    method RunAgain(scripts: seq<seq<Event>>) returns (outcomes: seq<Outcome>)
      requires Ready() && setup.pages > 0
      modifies this
      ensures cloud == P.After(old(cloud), setup, scripts) && outcomes == P.Outcomes(old(cloud), setup, scripts)
      ensures Ready() && phase >= old(phase) && JournalGrows(old(cloud).journal, cloud.journal)
      ensures |outcomes| == |scripts|
      ensures Completed in outcomes || AlreadyApplied in outcomes ==>
                && cloud.journal.start.Some? && Complete in cloud.journal.notes
                && cloud.params == At(cloud.journal.start.value, 3)
                && cloud.template == cloud.journal.start.value.template
                && (cloud.journal.start.value.restore.Flags? ==> cloud.params == cloud.journal.start.value.parameters)
      ensures Failed(UnknownParameter) in outcomes ==>
                && cloud.journal.start.Some?
                && var x := cloud.journal.start.value;
                   !Resumable(x) || !(Enabled(x).Keys <= x.parameters.Keys)
      ensures Stranded(old(cloud), old(phase)) ==>
                && cloud.journal == old(cloud).journal && phase == old(phase)
                && forall o :: o in outcomes ==> o.Failed? || o.Interrupted?
      ensures Unfit(old(cloud)) ==>
                Still(old(cloud), cloud) && forall o :: o in outcomes ==> o == Failed(Unstable) || o == Interrupted
    {
      hide Valid, At, P.RunOnce, Resumable, Enabled;
      outcomes := [];
      SelfStill(cloud, phase);
      for i := 0 to |scripts|
        invariant Ready() && phase >= old(phase) && JournalGrows(old(cloud).journal, cloud.journal)
        invariant |outcomes| == i
        invariant Completed in outcomes || AlreadyApplied in outcomes ==> Complete in cloud.journal.notes
        invariant Failed(UnknownParameter) in outcomes ==>
                    && cloud.journal.start.Some?
                    && var x := cloud.journal.start.value;
                       !Resumable(x) || !(Enabled(x).Keys <= x.parameters.Keys)
        invariant Stranded(old(cloud), old(phase)) ==>
                    && cloud.journal == old(cloud).journal && phase == old(phase)
                    && forall o :: o in outcomes ==> o.Failed? || o.Interrupted?
        invariant Unfit(old(cloud)) ==>
                    && Still(old(cloud), cloud)
                    && forall o :: o in outcomes ==> o == Failed(Unstable) || o == Interrupted
        invariant cloud == P.After(old(cloud), setup, scripts[..i])
        invariant outcomes == P.Outcomes(old(cloud), setup, scripts[..i])
      {
        script := scripts[i];
        ghost var before := cloud;
        var outcome := Run();
        if Unfit(old(cloud)) {
          StillFurther(old(cloud), before, cloud);
        }
        if Stranded(old(cloud), old(phase)) {
          NotYet(cloud, phase);
        }
        outcomes := outcomes + [outcome];
        assert scripts[..i + 1][..i] == scripts[..i];
      }
      assert scripts[..|scripts|] == scripts;
      if Completed in outcomes || AlreadyApplied in outcomes {
        Finished(cloud, phase);
      }
    }
  }

  lemma BeforeRuntime(c: Cloud, phase: nat)
    requires Valid(c, phase) && c.journal.start.Some? && Runtime !in c.journal.notes && 1 <= phase
    ensures phase <= 2
    ensures c.params == if phase == 1 then Paused(c.journal.start.value.previous)
                        else Paused(c.journal.start.value.parameters)
    ensures phase == 2 ==> c.template == c.journal.start.value.template
  {
    hide Paused, Planned, Quiet, Wired;
  }

  lemma CandidateKeeps(c: Cloud, phase: nat)
    requires Valid(c, phase) && c.journal.start.Some? && !c.status.Progressing?
    requires 1 <= phase && Drained in c.journal.notes && Runtime !in c.journal.notes && Candidate !in c.sets
    ensures var x := c.journal.start.value;
            var planned := Paused(x.parameters);
            var same := planned == c.params && x.template == c.template;
            && Valid(c.(sets := c.sets[Candidate := ChangeSet(planned, x.template, if same then Empty else Available)]),
                     if same then 2 else phase)
            && (phase == 2 ==> same)
  {
    hide Paused, Enabled;
  }

  lemma AvailableAhead(c: Cloud, phase: nat, stage: Stage)
    requires Valid(c, phase) && c.journal.start.Some? && stage in c.sets && c.sets[stage].state.Available?
    ensures LeadsTo(stage) > phase
  {
    hide At, Quiet, Wired;
  }

  /** The journal is that of the release of another change, and that release is not complete. */
  predicate Foreign(c: Cloud, setup: Setup) {
    c.journal.start.Some? && c.journal.start.value.change != setup.change && Complete !in c.journal.notes
  }

  /** No release has begun, and the stack is not settled: none may begin. */
  predicate Unfit(c: Cloud) {
    c.journal.start.None? && !c.status.Settled?
  }

  function HowItEnded(exit: Exit): Outcome {
    if exit.Raised? then Failed(exit.why) else Interrupted
  }

  /** What a checkpoint vouches for. */
  ghost predicate CanNote(c: Cloud, phase: nat, note: Note) {
    match note
    case Start => false
    case Drained => 1 <= phase && (phase <= 2 ==> Quiet(c))
    case Runtime => phase >= 2
    case Revisions => Runtime in c.journal.notes
    case Complete => phase == 3
  }

  lemma StillNotable(c: Cloud, c': Cloud, phase: nat, note: Note)
    requires CanNote(c, phase, note) && Still(c, c')
    requires Disarmed(c) ==>
               && Disarmed(c')
               && forall t :: t in c'.tasks && c'.tasks[t].product.Some? && c'.tasks[t].alive ==>
                    t in c.tasks && c.tasks[t].product.Some? && c.tasks[t].alive
    ensures CanNote(c', phase, note)
  {
  }

  lemma NoteKeeps(c: Cloud, phase: nat, note: Note)
    requires Valid(c, phase) && c.journal.start.Some? && !c.status.Progressing? && CanNote(c, phase, note)
    ensures Valid(c.(journal := c.journal.(notes := c.journal.notes + {note})), phase)
  {
    hide At, Paused, Enabled;
  }

  lemma NotBegun(c: Cloud, phase: nat)
    requires Valid(c, phase) && c.journal.start.None?
    ensures phase == 0 && !c.status.Progressing? && c.journal.notes == {}
  {
  }

  lemma BeginKeeps(c: Cloud, phase: nat, x: Context)
    requires Valid(c, phase) && c.journal.start.None? && x.previous == c.params
    requires x.restore == Flags(FlagValues(x.parameters))
    ensures Valid(c.(journal := Journal(Some(x), {Start})), phase)
  {
    hide Paused;
  }

  lemma NotYet(c: Cloud, phase: nat)
    requires Valid(c, phase) && c.journal.start.Some? && Runtime !in c.journal.notes
    ensures Revisions !in c.journal.notes && phase <= 2 && Complete !in c.journal.notes
  {
    hide At, Planned, Wired, Quiet;
  }

  lemma PausedKeys(c: Cloud, phase: nat)
    requires Valid(c, phase) && c.journal.start.Some? && phase == 2
    requires PauseValues(c.journal.start.value.previous).Keys <= c.params.Keys
    ensures Resumable(c.journal.start.value)
  {
    PausedFlags(c.journal.start.value.parameters);
  }

  /** When the paused registrations are what the controller has loaded, nothing can be launched. */
  lemma AckDisarms(c: Cloud, phase: nat)
    requires Valid(c, phase) && c.journal.start.Some? && 1 <= phase <= 2
    requires forall p :: p in c.regs ==> p in c.loaded && c.loaded[p] == c.regs[p]
    ensures Disarmed(c)
  {
    hide Planned, Quiet;
    forall p | p in c.regs
      ensures c.regs[p].enabled != "true"
    {
      FlagsOff(c.journal.start.value, phase, p);
    }
  }

  lemma Finished(c: Cloud, phase: nat)
    requires Valid(c, phase) && Complete in c.journal.notes
    ensures c.journal.start.Some? && c.params == At(c.journal.start.value, 3)
    ensures c.template == c.journal.start.value.template && Runtime in c.journal.notes
    ensures c.journal.start.value.restore.Flags? ==> c.params == c.journal.start.value.parameters
  {
    hide Planned, Quiet, Wired, Paused;
    if c.journal.start.value.restore.Flags? {
      RestoredExactly(c.journal.start.value);
    }
  }

  /** Where a stage is due, and what the stack then looks like. */
  lemma DueNow(c: Cloud, phase: nat, stage: Stage)
    requires Valid(c, phase) && c.journal.start.Some? && !stage.Candidate?
    requires stage.Pausing? ==> Runtime !in c.journal.notes
    requires stage.Revising? ==> Runtime in c.journal.notes && Revisions !in c.journal.notes
    requires stage.Resuming? ==> Revisions in c.journal.notes
    ensures Due(stage, phase) && c.params == At(c.journal.start.value, phase)
  {
    hide At, Planned, Wired, Quiet;
  }

  lemma InForce(c: Cloud, phase: nat, stage: Stage)
    requires Valid(c, phase) && c.journal.start.Some? && phase == LeadsTo(stage)
    ensures stage.Pausing? ==> OverridesOf(c.journal.start.value, stage).Keys <= c.params.Keys
  {
    PausedFlags(c.journal.start.value.previous);
  }

  lemma CreateKeeps(c: Cloud, phase: nat, stage: Stage, plan: Params)
    requires Valid(c, phase) && c.journal.start.Some? && !c.status.Progressing?
    requires plan == At(c.journal.start.value, LeadsTo(stage)) && phase + 1 == LeadsTo(stage)
    requires stage !in c.sets && (stage.Pausing? || stage.Resuming?) && plan != c.params
    ensures Valid(c.(sets := c.sets[stage := ChangeSet(plan, c.template, Available)]), phase)
  {
    hide At, Paused, Enabled;
  }

  lemma PlannedSet(c: Cloud, phase: nat, stage: Stage)
    requires Valid(c, phase) && c.journal.start.Some? && stage in c.sets
    ensures c.sets[stage].params == At(c.journal.start.value, LeadsTo(stage))
    ensures LeadsTo(stage) >= 2 ==> c.sets[stage].template == c.journal.start.value.template
    ensures c.sets[stage].state.Executed? || c.sets[stage].state.Empty? ==> LeadsTo(stage) <= phase
  {
    hide At, Wired, Quiet, Paused, Enabled;
  }

  lemma ExecuteKeeps(c: Cloud, phase: nat, stage: Stage)
    requires Valid(c, phase) && c.journal.start.Some? && !c.status.Progressing? && !stage.Revising?
    requires stage in c.sets && c.sets[stage].state.Available? && phase + 1 == LeadsTo(stage)
    requires stage.Candidate? ==> Drained in c.journal.notes
    requires stage.Resuming? ==> Revisions in c.journal.notes
                                 && Enabled(c.journal.start.value).Keys <= Paused(c.journal.start.value.parameters).Keys
    ensures Valid(c.(status := Progressing(stage)), phase)
  {
    hide At, Paused, Enabled;
  }

  /** Overrides already in force: the next configuration is the present one. */
  lemma StepTaken(c: Cloud, phase: nat, stage: Stage)
    requires Valid(c, phase) && c.journal.start.Some? && !stage.Candidate? && !stage.Revising? && !c.status.Progressing?
    requires Due(stage, phase) && phase + 1 == LeadsTo(stage)
    requires Satisfied(c.params, OverridesOf(c.journal.start.value, stage))
    requires stage.Resuming? ==> Revisions in c.journal.notes
    ensures Valid(c, phase + 1)
  {
    NextStep(c.journal.start.value, phase, stage);
  }

  lemma SelfStill(c: Cloud, phase: nat)
    ensures Still(c, c) && Moved(c, phase, c, phase)
  {
  }

  lemma StillFurther(a: Cloud, b: Cloud, c: Cloud)
    requires Still(a, b) && Still(b, c)
    ensures Still(a, c) && c.status == a.status
  {
  }

  lemma ProgressOnly(c: Cloud, phase: nat, e: Event)
    requires !c.status.Progressing?
    ensures PhaseAfter(c, phase, e) == phase
  {
  }

  // ---------- what holds at every moment, killed or not ----------

  /** The stack runs one of the four configurations, and shows no enabled flag from the pause until the restoration. */
  lemma OneOfFour(c: Cloud, phase: nat)
    requires Valid(c, phase) && c.journal.start.Some?
    ensures var x := c.journal.start.value;
            || c.params == x.previous || c.params == Paused(x.previous)
            || c.params == Paused(x.parameters) || c.params == Paused(x.parameters) + Enabled(x)
    ensures 1 <= phase <= 2 ==> forall p :: FlagOf(p) in c.params ==> c.params[FlagOf(p)] == "false"
  {
    hide Planned, Quiet, Wired, Paused;
    if 1 <= phase <= 2 {
      forall p | FlagOf(p) in c.params
        ensures c.params[FlagOf(p)] == "false"
      {
        FlagsOff(c.journal.start.value, phase, p);
      }
    }
  }

  /** While the candidate is being put in place, and until it is restored, no product task is alive. */
  lemma NobodyWorksUnderTheCandidate(c: Cloud, phase: nat, t: TaskId)
    requires Valid(c, phase) && c.journal.start.Some? && (Moving(c, Candidate) || phase == 2)
    requires t in c.tasks && c.tasks[t].product.Some?
    ensures !c.tasks[t].alive
  {
    hide Planned, Wired, At;
  }
}
