/**
 Which releases can still be completed.  Between runs anything may happen; a run that gets through is
 put together from its stages, and a release interrupted after its candidate dropped a flag is shown
 to fail in every later run.
 */
module ReleaseEnding {
  import opened Wrappers
  import opened ReleaseModel
  import opened ReleaseProgram
  import opened AdmissionRelease

  // ---------- what one stage does when nothing else happens ----------

  lemma Calmly(c: Cloud, rest: seq<Event>)
    ensures Next(State(c, [Nothing] + rest)) == Result(State(c, rest), Going)
  {
    assert ([Nothing] + rest)[1..] == rest;
  }

  lemma Happens(c: Cloud, e: Event, rest: seq<Event>)
    ensures Next(State(c, [e] + rest)) == Result(State(Env(c, e), rest), Going)
  {
    hide Env;
    assert ([e] + rest)[1..] == rest;
  }

  lemma Dead(c: Cloud)
    ensures Next(State(c, [])) == Result(State(c, []), Killed)
  {
  }

  const START_CHANGE: seq<Event> := [Nothing] + [Completes]
  const CHANGE: seq<Event> := [Nothing] + ([Nothing] + ([Nothing] + START_CHANGE))

  function Updated(c: Cloud, stage: Stage, made: ChangeSet): Cloud {
    c.(params := made.params, template := made.template, status := Settled,
       sets := map[stage := made.(state := Executed)], regs := Registered(c.regs, made.params))
  }

  /** An executable change set is executed, and the update succeeds. */
  lemma StartUpdates(c: Cloud, stage: Stage, rest: seq<Event>)
    requires stage in c.sets
    ensures StartChange(State(c, START_CHANGE + rest), stage)
            == Result(State(Updated(c, stage, c.sets[stage]), rest), Going)
  {
    hide Registered, Next;
    assert START_CHANGE + rest == [Nothing] + ([Completes] + rest);
    Calmly(c, [Completes] + rest);
    var moving := c.(status := Progressing(stage));
    Happens(moving, Completes, rest);
    WaitStackOnce(State(moving, [Completes] + rest), 180);
  }

  /** Overrides that are not in force are planned, executed and in force. */
  lemma ChangeUpdates(c: Cloud, stage: Stage, overrides: Params, rest: seq<Event>)
    requires !c.status.Progressing? && stage !in c.sets
    requires overrides.Keys <= c.params.Keys && !Satisfied(c.params, overrides)
    ensures ChangeBackground(State(c, CHANGE + rest), stage, overrides)
            == Result(State(Updated(c, stage, ChangeSet(c.params + overrides, c.template, Available)), rest), Going)
  {
    hide Next, StartChange, Registered, WaitStack, Satisfied;
    assert CHANGE + rest == [Nothing] + ([Nothing] + ([Nothing] + (START_CHANGE + rest)));
    Calmly(c, [Nothing] + ([Nothing] + (START_CHANGE + rest)));
    Calmly(c, [Nothing] + (START_CHANGE + rest));
    var planned := c.(sets := c.sets[stage := ChangeSet(c.params + overrides, c.template, Available)]);
    Calmly(planned, START_CHANGE + rest);
    StartUpdates(planned, stage, rest);
  }

  lemma ChangeSkips(c: Cloud, stage: Stage, overrides: Params, rest: seq<Event>)
    requires !c.status.Progressing? && Satisfied(c.params, overrides)
    ensures ChangeBackground(State(c, [Nothing] + rest), stage, overrides) == Result(State(c, rest), Going)
  {
    hide Next, ExecuteChange, WaitStack;
    Calmly(c, rest);
  }

  const ACK: seq<Event> := [Nothing] + [Refreshes]

  function Told(c: Cloud): Cloud {
    c.(loaded := c.regs, observedAt := c.now, refreshedAt := c.now)
  }

  lemma AckComes(c: Cloud, rest: seq<Event>)
    requires c.now > 0
    ensures WaitAck(State(c, ACK + rest)) == Result(State(Told(c), rest), Going)
  {
    hide Next;
    assert ACK + rest == [Nothing] + ([Refreshes] + rest);
    Calmly(c, [Refreshes] + rest);
    Happens(c, Refreshes, rest);
    PollAckOnce(State(c, [Refreshes] + rest), c.regs, 60);
  }

  function Quietly(n: nat): seq<Event> {
    if n == 0 then [] else [Nothing] + Quietly(n - 1)
  }

  lemma {:induction false} PagesAreEmpty(c: Cloud, pages: nat, page: nat, wanted: bool, rest: seq<Event>)
    requires pages > 0 && page <= pages && c.tasks == map[]
    ensures ListPages(State(c, Quietly(pages - page) + rest), pages, page, wanted, {})
            == Scan(Result(State(c, rest), Going), {})
    decreases pages - page
  {
    hide Next;
    if page < pages {
      var more := Quietly(pages - page - 1) + rest;
      assert Quietly(pages - page) + rest == [Nothing] + more;
      Calmly(c, more);
      assert {} + Listing(c, pages, page, wanted) == {};
      PagesAreEmpty(c, pages, page + 1, wanted, rest);
    } else {
      assert Quietly(0) + rest == rest;
    }
  }

  /** With no task left one scan proves it. */
  lemma DrainEnds(c: Cloud, pages: nat, rest: seq<Event>)
    requires pages > 0 && c.tasks == map[]
    ensures WaitDrained(State(c, Quietly(pages) + (Quietly(pages) + rest)), pages, 120)
            == Result(State(c, rest), Going)
  {
    hide ListPages, DescribeTasks;
    var s := State(c, Quietly(pages) + (Quietly(pages) + rest));
    PagesAreEmpty(c, pages, 0, true, Quietly(pages) + rest);
    PagesAreEmpty(c, pages, 0, false, rest);
    DescribeOnce(State(c, rest), {}, false);
    WaitDrainedOnce(s, pages, 120);
  }

  function NoteScript(c: Cloud, note: Note): seq<Event> {
    if note in c.journal.notes then [Nothing] else [Nothing] + [Nothing]
  }

  function Noted(c: Cloud, note: Note): Cloud {
    c.(journal := c.journal.(notes := c.journal.notes + {note}))
  }

  lemma NoteIsWritten(c: Cloud, note: Note, rest: seq<Event>)
    ensures RecordNote(State(c, NoteScript(c, note) + rest), note) == Result(State(Noted(c, note), rest), Going)
  {
    hide Next;
    if note in c.journal.notes {
      Calmly(c, rest);
      assert c.journal.notes + {note} == c.journal.notes;
    } else {
      assert NoteScript(c, note) + rest == [Nothing] + ([Nothing] + rest);
      Calmly(c, [Nothing] + rest);
      Calmly(c, rest);
    }
  }

  function Planned(x: Context, state: SetState): ChangeSet {
    ChangeSet(Paused(x.parameters), x.template, state)
  }

  predicate InPlace(c: Cloud, x: Context) {
    Paused(x.parameters) == c.params && x.template == c.template
  }

  function CandidateScript(c: Cloud, x: Context): seq<Event> {
    if InPlace(c, x) then [Nothing] + ([Nothing] + [Nothing]) else CHANGE
  }

  function Applied(c: Cloud, x: Context): Cloud {
    if InPlace(c, x) then c.(sets := c.sets[Candidate := Planned(x, Empty)])
    else Updated(c, Candidate, Planned(x, Available))
  }

  /** The candidate is put in place, or found in place. */
  lemma CandidateApplies(c: Cloud, x: Context, rest: seq<Event>)
    requires !c.status.Progressing? && Candidate !in c.sets
    requires c.params == Paused(x.previous) || c.params == Paused(x.parameters)
    ensures ApplyCandidate(State(c, CandidateScript(c, x) + rest), x) == Result(State(Applied(c, x), rest), Going)
  {
    hide Next, StartChange, Registered, WaitStack, Paused;
    if InPlace(c, x) {
      assert CandidateScript(c, x) + rest == [Nothing] + ([Nothing] + ([Nothing] + rest));
      Calmly(c, [Nothing] + ([Nothing] + rest));
      Calmly(c, [Nothing] + rest);
      Calmly(Applied(c, x), rest);
    } else {
      assert CandidateScript(c, x) + rest == [Nothing] + ([Nothing] + ([Nothing] + (START_CHANGE + rest)));
      Calmly(c, [Nothing] + ([Nothing] + (START_CHANGE + rest)));
      Calmly(c, [Nothing] + (START_CHANGE + rest));
      var made := c.(sets := c.sets[Candidate := Planned(x, Available)]);
      Calmly(made, START_CHANGE + rest);
      StartUpdates(made, Candidate, rest);
    }
  }

  // ---------- a whole run ----------

  function ChangeScript(c: Cloud, overrides: Params): seq<Event> {
    if Satisfied(c.params, overrides) then [Nothing] else CHANGE
  }

  function Changed(c: Cloud, stage: Stage, overrides: Params): Cloud {
    if Satisfied(c.params, overrides) then c
    else Updated(c, stage, ChangeSet(c.params + overrides, c.template, Available))
  }

  lemma Changes(c: Cloud, stage: Stage, overrides: Params, rest: seq<Event>)
    requires !c.status.Progressing? && stage !in c.sets && overrides.Keys <= c.params.Keys
    ensures ChangeBackground(State(c, ChangeScript(c, overrides) + rest), stage, overrides)
            == Result(State(Changed(c, stage, overrides), rest), Going)
  {
    hide ChangeBackground, Updated, Satisfied;
    if Satisfied(c.params, overrides) {
      ChangeSkips(c, stage, overrides, rest);
    } else {
      ChangeUpdates(c, stage, overrides, rest);
    }
  }

  /** Nothing is in progress, nothing is left over from earlier runs, and no task is listed any more. */
  predicate Calm(c: Cloud) {
    !c.status.Progressing? && c.sets == map[] && c.tasks == map[] && c.now > 0
  }

  function Halted(c: Cloud, x: Context): Cloud {
    Told(Changed(c, Pausing, PauseValues(x.previous)))
  }

  function DrainScript(c: Cloud, x: Context, pages: nat, rest: seq<Event>): seq<Event> {
    ChangeScript(c, PauseValues(x.previous))
    + (ACK + (Quietly(pages) + (Quietly(pages) + (NoteScript(c, Drained) + rest))))
  }

  lemma Drains(c: Cloud, x: Context, pages: nat, rest: seq<Event>)
    requires pages > 0 && Calm(c) && PauseValues(x.previous).Keys <= c.params.Keys
    ensures Drain(State(c, DrainScript(c, x, pages, rest)), x, pages)
            == Result(State(Noted(Halted(c, x), Drained), rest), Going)
  {
    hide ChangeBackground, WaitAck, WaitDrained, RecordNote, Satisfied, Registered;
    var noted := NoteScript(c, Drained) + rest;
    var scanned := Quietly(pages) + (Quietly(pages) + noted);
    Changes(c, Pausing, PauseValues(x.previous), ACK + scanned);
    AckComes(Changed(c, Pausing, PauseValues(x.previous)), scanned);
    DrainEnds(Halted(c, x), pages, noted);
    NoteIsWritten(Halted(c, x), Drained, rest);
  }

  /** The stack shows a configuration that the release can pause. */
  predicate Pausable(c: Cloud, x: Context) {
    && PauseValues(x.previous).Keys <= c.params.Keys
    && (c.params == x.previous || c.params == Paused(x.previous) || c.params == Paused(x.parameters))
  }

  lemma PausedNow(c: Cloud, x: Context)
    requires Pausable(c, x)
    ensures var v := Changed(c, Pausing, PauseValues(x.previous));
            v.params == Paused(x.previous) || v.params == Paused(x.parameters)
  {
    PausedFlags(x.previous);
    PausedFlags(x.parameters);
    if Satisfied(c.params, PauseValues(x.previous)) && c.params == x.previous {
      assert c.params == Paused(x.previous);
    }
  }

  function ReplaceScript(c: Cloud, x: Context, pages: nat, rest: seq<Event>): seq<Event> {
    DrainScript(c, x, pages, CandidateScript(Noted(Halted(c, x), Drained), x) + (NoteScript(c, Runtime) + rest))
  }

  function Replaced(c: Cloud, x: Context): Cloud {
    Noted(Applied(Noted(Halted(c, x), Drained), x), Runtime)
  }

  lemma Replaces(c: Cloud, x: Context, pages: nat, rest: seq<Event>)
    requires pages > 0 && Calm(c) && Pausable(c, x) && Runtime !in c.journal.notes
    ensures ReplaceRuntime(State(c, ReplaceScript(c, x, pages, rest)), x, pages)
            == Result(State(Replaced(c, x), rest), Going)
  {
    hide Drain, ApplyCandidate, RecordNote, Satisfied, Registered, Paused, InPlace;
    var noted := NoteScript(c, Runtime) + rest;
    var drained := Noted(Halted(c, x), Drained);
    PausedNow(c, x);
    Drains(c, x, pages, CandidateScript(drained, x) + noted);
    CandidateApplies(drained, x, noted);
    NoteIsWritten(Applied(drained, x), Runtime, rest);
  }

  lemma ReplacedFacts(c: Cloud, x: Context)
    requires Calm(c) && Pausable(c, x)
    ensures var v := Replaced(c, x);
            && !v.status.Progressing? && Resuming !in v.sets && v.now > 0 && v.params == Paused(x.parameters)
            && v.journal == c.journal.(notes := c.journal.notes + {Drained, Runtime})
  {
    hide Satisfied, Registered, Paused;
    assert c.journal.notes + {Drained} + {Runtime} == c.journal.notes + {Drained, Runtime};
  }

  function ReviseScript(c: Cloud, rest: seq<Event>): seq<Event> {
    if Revisions in c.journal.notes then rest else [Nothing] + (NoteScript(c, Revisions) + rest)
  }

  lemma Revises(c: Cloud, x: Context, rest: seq<Event>)
    requires !c.status.Progressing?
    requires Revisions !in c.journal.notes ==> Satisfied(c.params, PauseValues(x.parameters))
    ensures Revise(State(c, ReviseScript(c, rest)), x) == Result(State(Noted(c, Revisions), rest), Going)
  {
    hide ChangeBackground, RecordNote;
    if Revisions in c.journal.notes {
      assert c.journal.notes + {Revisions} == c.journal.notes;
    } else {
      ChangeSkips(c, Revising, PauseValues(x.parameters), NoteScript(c, Revisions) + rest);
      NoteIsWritten(c, Revisions, rest);
    }
  }

  function RestoreScript(c: Cloud, x: Context): seq<Event> {
    ReviseScript(c, ChangeScript(c, Enabled(x)) + (ACK + (NoteScript(c, Complete) + [])))
  }

  lemma Restores(c: Cloud, x: Context)
    requires !c.status.Progressing? && Resuming !in c.sets && c.now > 0 && Enabled(x).Keys <= c.params.Keys
    requires Revisions !in c.journal.notes ==> Satisfied(c.params, PauseValues(x.parameters))
    ensures RestoreFlags(State(c, RestoreScript(c, x)), x).exit.Going?
  {
    hide Revise, ChangeBackground, WaitAck, RecordNote, Satisfied, Enabled, Registered;
    var noted := NoteScript(c, Complete) + [];
    var revised := Noted(c, Revisions);
    Revises(c, x, ChangeScript(c, Enabled(x)) + (ACK + noted));
    Changes(revised, Resuming, Enabled(x), ACK + noted);
    var restored := Changed(revised, Resuming, Enabled(x));
    AckComes(restored, noted);
    assert Complete in c.journal.notes <==> Complete in Told(restored).journal.notes;
    NoteIsWritten(Told(restored), Complete, []);
  }

  /** Where a started release must stand so that a calm run completes it. */
  ghost predicate Completable(c: Cloud, x: Context) {
    && (Runtime !in c.journal.notes ==> Pausable(c, x))
    && (Runtime in c.journal.notes ==>
          && Enabled(x).Keys <= c.params.Keys
          && (Revisions !in c.journal.notes ==> Satisfied(c.params, PauseValues(x.parameters))))
  }

  /** A run in which the updates succeed and the controller answers completes the release. */
  lemma CalmRunCompletes(c: Cloud, setup: Setup, x: Context) returns (script: seq<Event>)
    requires setup.pages > 0 && Calm(c) && c.journal.start == Some(x) && x.change == setup.change
    requires Complete !in c.journal.notes && Enabled(x).Keys <= x.parameters.Keys && Completable(c, x)
    ensures RunOnce(State(c, script), setup).outcome.Completed?
  {
    hide Next, ReplaceRuntime, RestoreFlags, Satisfied, Paused, Replaced, RestoreScript, ReplaceScript, Enabled,
      Pausable;
    if Runtime in c.journal.notes {
      var rest := RestoreScript(c, x);
      script := [Nothing] + rest;
      Calmly(c, rest);
      Restores(c, x);
    } else {
      var v := Replaced(c, x);
      ReplacedFacts(c, x);
      PausedKeys(x);
      var rest := ReplaceScript(c, x, setup.pages, RestoreScript(v, x));
      script := [Nothing] + rest;
      Calmly(c, rest);
      Replaces(c, x, setup.pages, RestoreScript(v, x));
      Restores(v, x);
    }
  }

  lemma PausedKeys(x: Context)
    ensures Paused(x.parameters).Keys == x.parameters.Keys
    ensures Satisfied(Paused(x.parameters), PauseValues(x.parameters))
  {
    PausedFlags(x.parameters);
  }

  // ---------- between runs anything may happen ----------

  function Played(c: Cloud, events: seq<Event>): Cloud
    decreases |events|
  {
    if events == [] then c else Env(Played(c, events[..|events| - 1]), events[|events| - 1])
  }

  lemma {:induction false} PlayedMore(c: Cloud, events: seq<Event>, more: seq<Event>)
    ensures Played(c, events + more) == Played(Played(c, events), more)
    decreases |more|
  {
    hide Env;
    if more == [] {
      assert events + more == events;
    } else {
      var last := |more| - 1;
      assert (events + more)[..|events + more| - 1] == events + more[..last];
      PlayedMore(c, events, more[..last]);
    }
  }

  lemma PlayedOne(c: Cloud, e: Event)
    ensures Played(c, [e]) == Env(c, e)
  {
    hide Env;
    assert [e][..0] == [];
  }

  /** A run that is killed at its second call has let one event happen and done nothing. */
  lemma KilledAtOnce(c: Cloud, setup: Setup, e: Event)
    requires setup.pages > 0
    ensures RunOnce(State(c, [e]), setup).state.cloud == Env(c, e)
  {
    hide Env, ExecuteChange, WaitStack, WaitAck, WaitDrained, RecordNote, ApplyCandidate, Satisfied, Enabled;
    assert [e] == [e] + [];
    Happens(c, e, []);
    Dead(Env(c, e));
  }

  function Singly(events: seq<Event>): (scripts: seq<seq<Event>>)
    ensures |scripts| == |events| && forall i :: 0 <= i < |events| ==> scripts[i] == [events[i]]
  {
    seq(|events|, i requires 0 <= i < |events| => [events[i]])
  }

  lemma {:induction false} AfterSingly(c: Cloud, setup: Setup, events: seq<Event>)
    requires setup.pages > 0
    ensures After(c, setup, Singly(events)) == Played(c, events)
    decreases |events|
  {
    hide Env, RunOnce;
    if events != [] {
      var last := |events| - 1;
      assert Singly(events)[..last] == Singly(events[..last]);
      AfterSingly(c, setup, events[..last]);
      KilledAtOnce(Played(c, events[..last]), setup, events[last]);
    }
  }

  /** What calming leaves alone. */
  predicate SameCourse(c: Cloud, v: Cloud) {
    v.params == c.params && v.template == c.template && v.journal == c.journal
    && (c.status.Settled? ==> v.status.Settled?)
  }

  lemma {:induction false} TasksEnd(c: Cloud) returns (events: seq<Event>)
    requires !c.status.Progressing?
    ensures var v := Played(c, events);
            SameCourse(c, v) && !v.status.Progressing? && v.sets == c.sets && v.now == c.now && v.tasks == map[]
    decreases |c.tasks|
  {
    if c.tasks == map[] {
      events := [];
    } else {
      var t :| t in c.tasks;
      var stopped := Env(c, Stops(t));
      var gone := Env(stopped, Expires(t));
      assert gone.tasks == c.tasks - {t};
      var more := TasksEnd(gone);
      events := [Stops(t)] + ([Expires(t)] + more);
      PlayedMore(c, [Stops(t)], [Expires(t)] + more);
      PlayedMore(stopped, [Expires(t)], more);
      PlayedOne(c, Stops(t));
      PlayedOne(stopped, Expires(t));
    }
  }

  const FORGET: seq<Event> := [Forgets(Pausing)] + ([Forgets(Candidate)] + ([Forgets(Revising)] + [Forgets(Resuming)]))

  lemma Forgetting(c: Cloud, stage: Stage)
    requires !c.status.Progressing?
    ensures Env(c, Forgets(stage)) == c.(sets := c.sets - {stage})
  {
  }

  lemma SetsForgotten(c: Cloud)
    requires !c.status.Progressing?
    ensures var v := Played(c, FORGET);
            SameCourse(c, v) && !v.status.Progressing? && v.sets == map[] && v.now == c.now && v.tasks == c.tasks
  {
    hide Env, Played;
    var c1 := c.(sets := c.sets - {Pausing});
    var c2 := c1.(sets := c1.sets - {Candidate});
    var c3 := c2.(sets := c2.sets - {Revising});
    PlayedMore(c, [Forgets(Pausing)], [Forgets(Candidate)] + ([Forgets(Revising)] + [Forgets(Resuming)]));
    PlayedMore(c1, [Forgets(Candidate)], [Forgets(Revising)] + [Forgets(Resuming)]);
    PlayedMore(c2, [Forgets(Revising)], [Forgets(Resuming)]);
    PlayedOne(c, Forgets(Pausing));
    PlayedOne(c1, Forgets(Candidate));
    PlayedOne(c2, Forgets(Revising));
    PlayedOne(c3, Forgets(Resuming));
    Forgetting(c, Pausing);
    Forgetting(c1, Candidate);
    Forgetting(c2, Revising);
    Forgetting(c3, Resuming);
    var left := c3.sets - {Resuming};
    forall stage: Stage
      ensures stage !in left
    {
      match stage
      case Pausing =>
      case Candidate =>
      case Revising =>
      case Resuming =>
    }
    assert left == map[];
  }

  /** From any moment of a release the world can calm down: an update in progress is undone, tasks end. */
  lemma CalmsDown(c: Cloud) returns (events: seq<Event>)
    requires c.status.Progressing? ==> c.status.stage in c.sets
    ensures SameCourse(c, Played(c, events)) && Calm(Played(c, events))
  {
    hide Env, Played;
    var c1 := Env(c, RollsBack);
    Undone(c);
    var ends := TasksEnd(c1);
    var c2 := Played(c1, ends);
    SetsForgotten(c2);
    var c3 := Played(c2, FORGET);
    var wait: nat := if c3.now > 0 then 0 else 1 - c3.now;
    TimePasses(c3, wait);
    events := [RollsBack] + (ends + (FORGET + [Tick(wait)]));
    PlayedMore(c, [RollsBack], ends + (FORGET + [Tick(wait)]));
    PlayedMore(c1, ends, FORGET + [Tick(wait)]);
    PlayedMore(c2, FORGET, [Tick(wait)]);
    PlayedOne(c, RollsBack);
    PlayedOne(c3, Tick(wait));
  }

  lemma Undone(c: Cloud)
    requires c.status.Progressing? ==> c.status.stage in c.sets
    ensures var v := Env(c, RollsBack); SameCourse(c, v) && !v.status.Progressing?
  {
  }

  lemma TimePasses(c: Cloud, seconds: nat)
    ensures var v := Env(c, Tick(seconds));
            && SameCourse(c, v) && v.now == c.now + seconds && v.status == c.status
            && v.sets == c.sets && v.tasks == c.tasks
  {
  }

  // ---------- exactly which releases can be completed ----------

  predicate Done(o: Outcome) {
    o.Completed? || o.AlreadyApplied?
  }

  /** Some sequence of runs, each killed or not, gets the release done. */
  ghost predicate CanComplete(c: Cloud, setup: Setup)
    requires setup.pages > 0
  {
    exists scripts :: exists i :: 0 <= i < |scripts| && Done(Outcomes(c, setup, scripts)[i])
  }

  /** The runtime is not recorded as replaced, and the stack has lost a flag the release still has to pause. */
  predicate Stuck(c: Cloud) {
    c.journal.start.Some? && Runtime !in c.journal.notes && Complete !in c.journal.notes
    && !(PauseValues(c.journal.start.value.previous).Keys <= c.params.Keys)
  }

  lemma StuckChange(s: State)
    requires Stuck(s.cloud) && !s.cloud.status.Progressing?
    ensures var r := ChangeBackground(s, Pausing, PauseValues(s.cloud.journal.start.value.previous));
            !r.exit.Going? && Stuck(r.state.cloud) && r.state.cloud.journal == s.cloud.journal
            && !r.state.cloud.status.Progressing?
  {
    hide WaitStack, ExecuteChange;
    if s.script != [] {
      EnvStill(s.cloud, s.script[0]);
    }
  }

  /** One more run of a stuck release fails or is killed, and it is stuck as before. */
  lemma StuckRun(s: State, setup: Setup)
    requires setup.pages > 0 && Stuck(s.cloud) && !s.cloud.status.Progressing?
    ensures var r := RunOnce(s, setup);
            && !Done(r.outcome) && Stuck(r.state.cloud) && r.state.cloud.journal == s.cloud.journal
            && !r.state.cloud.status.Progressing?
  {
    hide ChangeBackground, WaitAck, WaitDrained, RecordNote, ApplyCandidate, RestoreFlags, Begin, Env;
    if s.script != [] {
      EnvStill(s.cloud, s.script[0]);
      StuckChange(Next(s).state);
    }
  }

  lemma {:induction false} StuckForever(c: Cloud, setup: Setup, scripts: seq<seq<Event>>)
    requires setup.pages > 0 && Stuck(c) && !c.status.Progressing?
    ensures Stuck(After(c, setup, scripts)) && After(c, setup, scripts).journal == c.journal
    ensures !After(c, setup, scripts).status.Progressing?
    ensures forall i :: 0 <= i < |scripts| ==> !Done(Outcomes(c, setup, scripts)[i])
    decreases |scripts|
  {
    hide RunOnce, Stuck;
    if scripts != [] {
      var last := |scripts| - 1;
      StuckForever(c, setup, scripts[..last]);
      StuckRun(State(After(c, setup, scripts[..last]), scripts[last]), setup);
    }
  }

  lemma OutcomesLast(c: Cloud, setup: Setup, scripts: seq<seq<Event>>, script: seq<Event>)
    requires setup.pages > 0
    ensures Outcomes(c, setup, scripts + [script])[|scripts|]
            == RunOnce(State(After(c, setup, scripts), script), setup).outcome
  {
    hide RunOnce;
    assert (scripts + [script])[..|scripts|] == scripts;
  }

  lemma Standing(c: Cloud, phase: nat, x: Context)
    requires Valid(c, phase) && c.journal.start == Some(x) && !Stuck(c) && Complete !in c.journal.notes
    requires Enabled(x).Keys <= x.parameters.Keys
    ensures Completable(c, x)
  {
    hide Planned, Quiet, Wired;
    PausedFlags(x.previous);
    PausedFlags(x.parameters);
  }

  lemma FlagsAreParameters(c: Cloud, phase: nat, x: Context)
    requires Valid(c, phase) && c.journal.start == Some(x) && x.restore.Flags?
    ensures Enabled(x).Keys <= x.parameters.Keys
  {
    hide Planned, Quiet, Wired, At;
  }

  lemma SetInProgress(c: Cloud, phase: nat)
    requires Valid(c, phase)
    ensures c.status.Progressing? ==> c.status.stage in c.sets
    ensures Stuck(c) ==> !c.status.Progressing?
  {
    hide Quiet, Wired, Enabled;
    if c.journal.start.Some? {
      PausedFlags(c.journal.start.value.previous);
    }
  }

  /**
   At any moment of a release, killed or not, with an update in progress or not: it can still be
   completed exactly if the stack has every flag the release has to pause, or the replacement of the
   runtime is recorded.
   */
  lemma CompletesExactly(c: Cloud, phase: nat, setup: Setup, x: Context)
    requires setup.pages > 0 && Valid(c, phase) && c.journal.start == Some(x) && x.change == setup.change
    requires x.restore.Flags? || Enabled(x).Keys <= x.parameters.Keys
    ensures CanComplete(c, setup)
            <==> Runtime in c.journal.notes || PauseValues(x.previous).Keys <= c.params.Keys
  {
    hide Valid, Outcomes, After, Completable, Enabled, Calm, RunOnce;
    SetInProgress(c, phase);
    if Complete in c.journal.notes {
      Finished(c, phase);
      CompleteStays(c, setup);
    } else if Stuck(c) {
      forall scripts, i | 0 <= i < |scripts|
        ensures !Done(Outcomes(c, setup, scripts)[i])
      {
        StuckForever(c, setup, scripts);
      }
    } else {
      if x.restore.Flags? {
        FlagsAreParameters(c, phase, x);
      }
      Standing(c, phase, x);
      var events := CalmsDown(c);
      var v := Played(c, events);
      StillCompletable(c, v, x);
      AfterSingly(c, setup, events);
      var script := CalmRunCompletes(v, setup, x);
      var scripts := Singly(events) + [script];
      OutcomesLast(c, setup, Singly(events), script);
      assert Done(Outcomes(c, setup, scripts)[|events|]);
    }
  }

  /** A completed release is found completed. */
  lemma CompleteStays(c: Cloud, setup: Setup)
    requires setup.pages > 0 && Complete in c.journal.notes
    ensures CanComplete(c, setup)
  {
    hide Env, Resume, Begin;
    Calmly(c, []);
    assert [Nothing] + [] == [Nothing];
    assert RunOnce(State(c, [Nothing]), setup).outcome.AlreadyApplied?;
    OutcomesLast(c, setup, [], [Nothing]);
    assert [] + [[Nothing]] == [[Nothing]];
    assert Done(Outcomes(c, setup, [[Nothing]])[0]);
  }

  /** Of a release that drops no flag, no moment is one from which it cannot be completed. */
  lemma ResumableCompletes(c: Cloud, phase: nat, setup: Setup, x: Context)
    requires setup.pages > 0 && Valid(c, phase) && c.journal.start == Some(x) && x.change == setup.change
    requires x.restore.Flags? && Resumable(x)
    ensures CanComplete(c, setup)
  {
    hide CanComplete, Planned, Quiet, Wired;
    PausedFlags(x.previous);
    PausedFlags(x.parameters);
    CompletesExactly(c, phase, setup, x);
  }

  /**
   The controller, killed and started again as often as one likes: a release that drops no flag is never
   refused for an unknown parameter, and it can be completed after every run.
   */
  method ResumableRelease(controller: Controller, scripts: seq<seq<Event>>) returns (outcomes: seq<Outcome>)
    requires controller.Ready() && controller.setup.pages > 0 && controller.cloud.journal.start.Some?
    requires var x := controller.cloud.journal.start.value;
             x.change == controller.setup.change && x.restore.Flags? && Resumable(x)
    modifies controller
    ensures controller.Ready() && controller.cloud.journal.start == old(controller.cloud.journal.start)
    ensures CanComplete(controller.cloud, controller.setup)
    ensures Failed(UnknownParameter) !in outcomes
  {
    hide Valid, CanComplete, Outcomes, After, Resumable;
    ghost var x := controller.cloud.journal.start.value;
    outcomes := controller.RunAgain(scripts);
    FlagsAreParameters(controller.cloud, controller.phase, x);
    ResumableCompletes(controller.cloud, controller.phase, controller.setup, x);
  }

  lemma StillCompletable(c: Cloud, v: Cloud, x: Context)
    requires Completable(c, x) && SameCourse(c, v)
    ensures Completable(v, x)
  {
  }

  lemma {:induction false} AfterAppend(c: Cloud, setup: Setup, first: seq<seq<Event>>, more: seq<seq<Event>>)
    requires setup.pages > 0
    ensures After(c, setup, first + more) == After(After(c, setup, first), setup, more)
    ensures Outcomes(c, setup, first + more)
            == Outcomes(c, setup, first) + Outcomes(After(c, setup, first), setup, more)
    decreases |more|
  {
    hide RunOnce;
    if more == [] {
      assert first + more == first;
    } else {
      var last := |more| - 1;
      assert (first + more)[..|first + more| - 1] == first + more[..last];
      AfterAppend(c, setup, first, more[..last]);
    }
  }

  const BEGIN: seq<Event> := [Nothing] + ([Nothing] + ([Nothing] + []))

  lemma Begins(c: Cloud, setup: Setup)
    requires setup.pages > 0 && c.status.Settled? && c.journal == Journal(None, {})
    ensures RunOnce(State(c, BEGIN), setup).state.cloud == c.(journal := Journal(Some(Frozen(c, setup)), {Start}))
  {
    hide Next, ExecuteChange, WaitStack, WaitAck, WaitDrained, RecordNote, ApplyCandidate, Satisfied, RestoreFlags,
      Frozen;
    FrozenIs(c, setup);
    Calmly(c, [Nothing] + ([Nothing] + []));
    Calmly(c, [Nothing] + []);
    Calmly(c, []);
    Dead(c.(journal := Journal(Some(Frozen(c, setup)), {Start})));
  }

  lemma FrozenIs(c: Cloud, setup: Setup)
    ensures var x := Frozen(c, setup);
            && x.previous == c.params && x.parameters == setup.reviewed.params && x.template == setup.reviewed.template
            && x.change == setup.change && x.restore == Flags(FlagValues(x.parameters))
  {
  }

  /** A release of a stable stack can always be completed, whatever its candidate. */
  lemma FreshCompletes(c: Cloud, setup: Setup)
    requires setup.pages > 0 && Valid(c, 0) && c.status.Settled? && c.journal.start.None?
    ensures CanComplete(c, setup)
  {
    hide Valid, RunOnce, BEGIN, Frozen, Outcomes, After;
    var x := Frozen(c, setup);
    var begun := c.(journal := Journal(Some(x), {Start}));
    FrozenIs(c, setup);
    NotBegun(c, 0);
    Begins(c, setup);
    BeginKeeps(c, 0, x);
    FlagKeys(x);
    CompletesExactly(begun, 0, setup, x);
    var scripts, i :| 0 <= i < |scripts| && Done(Outcomes(begun, setup, scripts)[i]);
    AfterOne(c, setup, BEGIN);
    AfterAppend(c, setup, [BEGIN], scripts);
    assert Done(Outcomes(c, setup, [BEGIN] + scripts)[1 + i]);
  }

  lemma AfterOne(c: Cloud, setup: Setup, script: seq<Event>)
    requires setup.pages > 0
    ensures After(c, setup, [script]) == RunOnce(State(c, script), setup).state.cloud
  {
    hide RunOnce;
    assert [script][..0] == [];
  }

  // ---------- a candidate that drops a flag ----------

  /** Begin, pause, drain and apply the candidate; the script ends before the checkpoint. */
  function WindowScript(c: Cloud, setup: Setup): seq<Event> {
    var x := Frozen(c, setup);
    var begun := c.(journal := Journal(Some(x), {Start}));
    [Nothing] + ([Nothing] + ([Nothing]
      + DrainScript(begun, x, setup.pages, CandidateScript(Noted(Halted(begun, x), Drained), x) + [])))
  }

  /** Whatever the candidate, a first run can be killed between its update and the checkpoint. */
  lemma KilledInTheWindow(c: Cloud, setup: Setup)
    requires setup.pages > 0 && Calm(c) && c.status.Settled? && c.journal == Journal(None, {})
    ensures var r := RunOnce(State(c, WindowScript(c, setup)), setup);
            && r.outcome.Interrupted? && !r.state.cloud.status.Progressing?
            && r.state.cloud.params == Paused(setup.reviewed.params)
            && r.state.cloud.journal == Journal(Some(Frozen(c, setup)), {Start, Drained})
  {
    hide Next, Drain, ApplyCandidate, Satisfied, Paused, Registered, DrainScript, CandidateScript, Frozen;
    var x := Frozen(c, setup);
    FrozenIs(c, setup);
    var begun := c.(journal := Journal(Some(x), {Start}));
    var halted := Noted(Halted(begun, x), Drained);
    var rest := CandidateScript(halted, x) + [];
    var drain := DrainScript(begun, x, setup.pages, rest);
    Calmly(c, [Nothing] + ([Nothing] + drain));
    Calmly(c, [Nothing] + drain);
    Calmly(c, drain);
    FlagKeys(x);
    Drains(begun, x, setup.pages, rest);
    PausedNow(begun, x);
    CandidateApplies(halted, x, []);
    Dead(Applied(halted, x));
    assert {Start} + {Drained} == {Start, Drained};
  }

  lemma FlagKeys(x: Context)
    ensures PauseValues(x.previous).Keys <= x.previous.Keys
  {
  }

  /** Any release whose candidate drops a product flag can be interrupted so that no later run completes it. */
  lemma DroppedFlagStrands(c: Cloud, setup: Setup)
    requires setup.pages > 0 && Calm(c) && c.status.Settled? && c.journal == Journal(None, {})
    requires !(PauseValues(c.params).Keys <= setup.reviewed.params.Keys)
    ensures var r := RunOnce(State(c, WindowScript(c, setup)), setup);
            r.outcome.Interrupted? && !CanComplete(r.state.cloud, setup)
  {
    hide RunOnce, WindowScript, Outcomes, After;
    KilledInTheWindow(c, setup);
    var v := RunOnce(State(c, WindowScript(c, setup)), setup).state.cloud;
    PausedFlags(setup.reviewed.params);
    assert Stuck(v);
    forall scripts, i | 0 <= i < |scripts|
      ensures !Done(Outcomes(v, setup, scripts)[i])
    {
      StuckForever(v, setup, scripts);
    }
  }

  /** So whatever its tasks and clocks, a stable stack can be left stranded by a candidate that drops a flag. */
  lemma AnyDropCanStrand(c: Cloud, setup: Setup)
    requires setup.pages > 0 && Valid(c, 0) && c.status.Settled? && c.journal.start.None?
    requires !(PauseValues(c.params).Keys <= setup.reviewed.params.Keys)
    ensures exists scripts :: !CanComplete(After(c, setup, scripts), setup)
  {
    hide Valid, RunOnce, WindowScript, CanComplete, Calm;
    NotBegun(c, 0);
    var events := CalmsDown(c);
    var v := Played(c, events);
    AfterSingly(c, setup, events);
    DroppedFlagStrands(v, setup);
    AfterOne(v, setup, WindowScript(v, setup));
    AfterAppend(c, setup, Singly(events), [WindowScript(v, setup)]);
    assert !CanComplete(After(c, setup, Singly(events) + [WindowScript(v, setup)]), setup);
  }

  /** Two products run; the reviewed candidate has one of them only. */
  const TWO_ON: Params := map[MetadataEnabled := "true", IngestEnabled := "true"]
  const ONE_ON: Params := map[MetadataEnabled := "true"]
  const BOTH: map<Product, Reg> := map[Metadata := Reg(1, "true"), Ingest := Reg(1, "true")]
  const INITIAL := Cloud(1, TWO_ON, 3, Settled, map[], BOTH, BOTH, 1, 1, map[], Journal(None, {}))
  const SETUP := Setup(1, ChangeSet(ONE_ON, 7, Available), 1)

  /** Nineteen calls: both updates succeed, and the controller answers; then the process is killed. */
  const SCRIPT: seq<Event> :=
    [Nothing] + ([Nothing] + ([Nothing]         // read the journal, freeze the context
      + (CHANGE + (ACK                          // pause, and be acknowledged
      + ([Nothing] + ([Nothing]                 // list the tasks
      + (([Nothing] + [Nothing])                // note that they have ended
      + (CHANGE + []))))))))                    // the candidate

  lemma ScriptIsWindow()
    ensures |SCRIPT| == 19 && SCRIPT == WindowScript(INITIAL, SETUP)
  {
    hide Registered, Frozen;
    var x := Frozen(INITIAL, SETUP);
    FrozenIs(INITIAL, SETUP);
    var begun := INITIAL.(journal := Journal(Some(x), {Start}));
    assert ChangeScript(begun, PauseValues(x.previous)) == CHANGE by {
      assert MetadataEnabled in PauseValues(x.previous);
    }
    assert CandidateScript(Noted(Halted(begun, x), Drained), x) == CHANGE by {
      assert Halted(begun, x).template == 3;
    }
    assert Quietly(1) == [Nothing] by {
      assert Quietly(0) == [];
    }
    assert NoteScript(begun, Drained) == [Nothing] + [Nothing];
  }

  /** A release may start from that state, and after this run of it no other run completes it. */
  lemma DroppedFlagExample()
    ensures Valid(INITIAL, 0)
    ensures var r := RunOnce(State(INITIAL, SCRIPT), SETUP);
            r.outcome.Interrupted? && !CanComplete(r.state.cloud, SETUP)
  {
    hide RunOnce, WindowScript, CanComplete;
    ScriptIsWindow();
    assert IngestEnabled in PauseValues(INITIAL.params) && IngestEnabled !in SETUP.reviewed.params;
    DroppedFlagStrands(INITIAL, SETUP);
  }

  /** The controller itself, started there and killed after nineteen calls, then run again as often as one likes. */
  method StrandedRelease(scripts: seq<seq<Event>>) returns (first: Outcome, later: seq<Outcome>)
    ensures first.Interrupted? && |later| == |scripts|
    ensures forall i :: 0 <= i < |later| ==> !Done(later[i])
  {
    hide RunOnce, Valid, Outcomes, After;
    DroppedFlagExample();
    var controller := new Controller(SETUP, INITIAL, SCRIPT, 0);
    first := controller.Run();
    later := controller.RunAgain(scripts);
  }
}
