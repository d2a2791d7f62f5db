/** How long a release waits before it gives up. */
module ReleasePatience {
  import opened ReleaseModel
  import opened ReleaseProgram

  /** What the controller sees after `n` more events. */
  function Later(s: State, n: nat): State
    requires n <= |s.script|
    decreases n
  {
    if n == 0 then s else Later(Next(s).state, n - 1)
  }

  lemma NextAlive(s: State)
    ensures Next(s).exit.Going? <==> |s.script| > 0
    ensures |s.script| > 0 ==> |Next(s).state.script| == |s.script| - 1
    ensures |s.script| == 0 ==> Next(s).state == s
    ensures !Next(s).exit.Raised?
  {
  }

  /** What is seen after `k` events is seen after `k - 1` further ones. */
  lemma LaterNext(s: State, k: nat)
    requires 1 <= k <= |s.script|
    ensures k - 1 <= |Next(s).state.script| && Later(s, k) == Later(Next(s).state, k - 1)
  {
    NextAlive(s);
  }

  /** After each of the next `n` events the update is still in progress. */
  ghost predicate BusyThrough(s: State, n: nat)
    requires n <= |s.script|
  {
    forall k :: 1 <= k <= n ==> Later(s, k).cloud.status.Progressing?
  }

  lemma BusyNext(s: State, n: nat)
    requires 1 <= n <= |s.script|
    ensures n - 1 <= |Next(s).state.script|
    ensures BusyThrough(s, n) <==> Next(s).state.cloud.status.Progressing? && BusyThrough(Next(s).state, n - 1)
  {
    hide Next;
    NextAlive(s);
    LaterNext(s, 1);
    var u := Next(s).state;
    if BusyThrough(s, n) {
      forall i | 1 <= i <= n - 1
        ensures Later(u, i).cloud.status.Progressing?
      {
        LaterNext(s, i + 1);
      }
    }
    if u.cloud.status.Progressing? && BusyThrough(u, n - 1) {
      forall k | 1 <= k <= n
        ensures Later(s, k).cloud.status.Progressing?
      {
        LaterNext(s, k);
      }
    }
  }

  /** Waiting for the stack gives up exactly if every one of its looks finds the update still in progress. */
  lemma {:induction false} StackTimesOut(s: State, polls: nat)
    ensures WaitStack(s, polls).exit == Raised(TimedOut) <==> |s.script| >= polls && BusyThrough(s, polls)
    decreases polls
  {
    hide Next, WaitStack, Later;
    WaitStackOnce(s, polls);
    NextAlive(s);
    if polls > 0 && |s.script| > 0 {
      StackTimesOut(Next(s).state, polls - 1);
      if |s.script| >= polls {
        BusyNext(s, polls);
      }
    }
  }

  /** An update that was started is waited for through 180 looks. */
  lemma UpdateTimesOut(s: State, stage: Stage)
    ensures StartChange(s, stage).exit == Raised(TimedOut)
            <==> |s.script| >= 181 && stage in Next(s).state.cloud.sets
                 && BusyThrough(Executing(Next(s).state, stage), 180)
  {
    hide Next, WaitStack;
    NextAlive(s);
    if |s.script| > 0 {
      StackTimesOut(Executing(Next(s).state, stage), 180);
    }
  }

  /** After none of the next `n` events the registrations are acknowledged. */
  ghost predicate UnknownThrough(s: State, expected: map<Product, Reg>, n: nat)
    requires n <= |s.script|
  {
    forall k :: 1 <= k <= n ==> !Acknowledged(Later(s, k).cloud, expected)
  }

  lemma UnknownNext(s: State, expected: map<Product, Reg>, n: nat)
    requires 1 <= n <= |s.script|
    ensures n - 1 <= |Next(s).state.script|
    ensures UnknownThrough(s, expected, n)
            <==> !Acknowledged(Next(s).state.cloud, expected) && UnknownThrough(Next(s).state, expected, n - 1)
  {
    hide Next, Acknowledged;
    NextAlive(s);
    LaterNext(s, 1);
    var u := Next(s).state;
    if UnknownThrough(s, expected, n) {
      forall i | 1 <= i <= n - 1
        ensures !Acknowledged(Later(u, i).cloud, expected)
      {
        LaterNext(s, i + 1);
      }
    }
    if !Acknowledged(u.cloud, expected) && UnknownThrough(u, expected, n - 1) {
      forall k | 1 <= k <= n
        ensures !Acknowledged(Later(s, k).cloud, expected)
      {
        LaterNext(s, k);
      }
    }
  }

  lemma {:induction false} AckTimesOut(s: State, expected: map<Product, Reg>, polls: nat)
    ensures PollAck(s, expected, polls).exit == Raised(TimedOut)
            <==> |s.script| >= polls && UnknownThrough(s, expected, polls)
    decreases polls
  {
    hide Next, PollAck, Acknowledged, Later;
    PollAckOnce(s, expected, polls);
    NextAlive(s);
    if polls > 0 && |s.script| > 0 {
      AckTimesOut(Next(s).state, expected, polls - 1);
      if |s.script| >= polls {
        UnknownNext(s, expected, polls);
      }
    }
  }

  /** No report at most ninety seconds old says that the controller holds these registrations. */
  predicate Unreported(c: Cloud, regs: map<Product, Reg>) {
    || c.refreshedAt <= 0 || c.now < c.observedAt || c.now > c.observedAt + 90
    || exists p :: p in regs && (p !in c.loaded || c.loaded[p] != regs[p])
  }

  /** None of the next `n` events brings a report. */
  ghost predicate UnreportedThrough(s: State, regs: map<Product, Reg>, n: nat)
    requires n <= |s.script|
  {
    forall k :: 1 <= k <= n ==> Unreported(Later(s, k).cloud, regs)
  }

  lemma UnreportedIsUnknown(s: State, regs: map<Product, Reg>, n: nat)
    requires n <= |s.script|
    ensures UnreportedThrough(s, regs, n) <==> UnknownThrough(s, regs, n)
  {
    hide Unreported, Acknowledged;
    forall k | 1 <= k <= n
      ensures Unreported(Later(s, k).cloud, regs) <==> !Acknowledged(Later(s, k).cloud, regs)
    {
      UnreportedIs(Later(s, k).cloud, regs);
    }
  }

  /**
   The acknowledgement is given up exactly if sixty looks pass without a report of the registrations the stack had
   when the waiting began.
   */
  lemma AcknowledgementTimesOut(s: State)
    ensures WaitAck(s).exit == Raised(TimedOut)
            <==> |s.script| >= 61 && UnreportedThrough(Next(s).state, Next(s).state.cloud.regs, 60)
  {
    hide Next, PollAck, UnreportedThrough, UnknownThrough;
    NextAlive(s);
    if |s.script| > 0 {
      var u := Next(s).state;
      AckTimesOut(u, u.cloud.regs, 60);
      if |s.script| > 60 {
        UnreportedIsUnknown(u, u.cloud.regs, 60);
      }
    }
  }

  lemma UnreportedIs(c: Cloud, regs: map<Product, Reg>)
    ensures Unreported(c, regs) <==> !Acknowledged(c, regs)
  {
  }

  lemma {:induction false} PagesTaken(s: State, pages: nat, page: nat, wanted: bool, arns: set<TaskId>)
    requires page <= pages && pages > 0
    ensures var r := ListPages(s, pages, page, wanted, arns).result;
            && !r.exit.Raised?
            && (r.exit.Going? ==> |s.script| - |r.state.script| == pages - page)
    decreases pages - page
  {
    hide Next, Listing;
    NextAlive(s);
    if page < pages && |s.script| > 0 {
      var u := Next(s).state;
      PagesTaken(u, pages, page + 1, wanted, arns + Listing(u.cloud, pages, page, wanted));
    }
  }

  lemma {:induction false} DescribingTakes(s: State, left: set<TaskId>, unsettled: bool)
    ensures var r := DescribeTasks(s, left, unsettled).result;
            && (r.exit.Raised? ==> r.exit.why.CannotProve?)
            && |r.state.script| <= |s.script|
    decreases left
  {
    hide Next, AnyAlive, FirstOf, DescribeTasks;
    DescribeOnce(s, left, unsettled);
    NextAlive(s);
    if left != {} && |s.script| > 0 {
      var batch, u := FirstOf(left, 100), Next(s).state;
      if batch <= u.cloud.tasks.Keys {
        assert batch != {} && left - batch < left;
        DescribingTakes(u, left - batch, unsettled || AnyAlive(u.cloud, batch));
      }
    }
  }

  lemma {:induction false} LooksTaken(s: State, pages: nat, polls: nat)
    requires pages > 0 && WaitDrained(s, pages, polls).exit == Raised(TimedOut)
    ensures |s.script| - |WaitDrained(s, pages, polls).state.script| >= polls * (2 * pages)
    decreases polls
  {
    hide Next, ListPages, DescribeTasks, WaitDrained;
    WaitDrainedOnce(s, pages, polls);
    if polls > 0 {
      var listed := ListTasks(s, pages);
      PagesTaken(s, pages, 0, true, {});
      var running := ListPages(s, pages, 0, true, {});
      if running.result.exit.Going? {
        PagesTaken(running.result.state, pages, 0, false, running.arns);
      }
      if listed.result.exit.Going? {
        var found := DescribeTasks(listed.result.state, listed.arns, false);
        DescribingTakes(listed.result.state, listed.arns, false);
        if found.result.exit.Going? && found.unsettled {
          LooksTaken(found.result.state, pages, polls - 1);
          OneLookMore(polls, 2 * pages);
        }
      }
    }
  }

  lemma OneLookMore(polls: nat, each: nat)
    requires polls > 0
    ensures polls * each == (polls - 1) * each + each
  {
  }

  /** The drain is given up only after both task lists were read through a hundred and twenty times. */
  lemma DrainTimesOut(s: State, x: Context, pages: nat)
    requires pages > 0
    ensures var known := WaitAck(ChangeBackground(s, Pausing, PauseValues(x.previous)).state);
            var r := Drain(s, x, pages);
            ChangeBackground(s, Pausing, PauseValues(x.previous)).exit.Going? && known.exit.Going?
            && r.exit == Raised(TimedOut) ==>
              |known.state.script| - |r.state.script| >= 240 * pages
  {
    hide Next, ChangeBackground, WaitAck, WaitDrained, RecordNote;
    var paused := ChangeBackground(s, Pausing, PauseValues(x.previous));
    var known := WaitAck(paused.state);
    if paused.exit.Going? && known.exit.Going? {
      var ended := WaitDrained(known.state, pages, 120);
      if ended.exit == Raised(TimedOut) {
        LooksTaken(known.state, pages, 120);
      }
      NoteNeverFails(ended.state);
    }
  }

  lemma NoteNeverFails(s: State)
    ensures !RecordNote(s, Drained).exit.Raised?
  {
  }
}
