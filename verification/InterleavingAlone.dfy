/**
 * A call that runs on its own, port call by port call against a prompt ledger, does what the service
 * operation of the sequential model does: to rows, ledger and queue, and to nothing else.
 */
module InterleavingAlone {
  import opened Prelude
  import opened RepoPort
  import opened Adapters
  import D = Deposits
  import opened Interleaving

  // ---- Steps of one call ------------------------------------------------------------------

  /** One prompt step of call `id`; `screen` is what compliance answers, should the call ask it. */
  ghost function Step(s: Sys, id: nat, screen: PortResult<D.ScreenOutcome>): Sys {
    Happen(s, Advance(id, Prompt, screen))
  }

  ghost function Steps(s: Sys, id: nat, screen: PortResult<D.ScreenOutcome>, n: nat): Sys
    decreases n
  {
    if n == 0 then s else Steps(Step(s, id, screen), id, screen, n - 1)
  }

  /** `s` with call `id` at `c`, or without it. */
  function With(s: Sys, id: nat, c: Option<Call>): Sys {
    if c.Some? then s.(calls := s.calls[id := c.value]) else s
  }

  /** What a step of a call at `c` makes of the rest of the system, and where the call goes. */
  ghost function OneStep(s: Sys, id: nat, c: Call, screen: PortResult<D.ScreenOutcome>): (Sys, Option<Call>) {
    if Asks(c).Some? then
      var (rows, a) := InMemory(RowsOf(s), Asks(c).value);
      (Over(s, rows), Told(c, a, s.clock, s.delta))
    else
      var t := StepPort(s, id, c, Prompt, screen);
      (t.(calls := s.calls), Standing(t, id))
  }

  lemma StoreStepIs(s: Sys, id: nat, c: Call)
    requires id !in s.calls && Asks(c).Some?
    ensures var (rows, a) := InMemory(RowsOf(s), Asks(c).value);
            StepStore(With(s, id, Some(c)), id, c) == With(Over(s, rows), id, Told(c, a, s.clock, s.delta))
  {
    var (rows, a) := InMemory(RowsOf(s), Asks(c).value);
    var next := Told(c, a, s.clock, s.delta);
    assert s.calls[id := c] - {id} == s.calls;
    if next.Some? {
      assert s.calls[id := c][id := next.value] == s.calls[id := next.value];
    }
  }

  lemma PortStepIs(s: Sys, id: nat, c: Call, screen: PortResult<D.ScreenOutcome>)
    requires id !in s.calls && Asks(c).None?
    ensures StepPort(With(s, id, Some(c)), id, c, Prompt, screen) == With(OneStep(s, id, c, screen).0, id, OneStep(s, id, c, screen).1)
  {
    PortIgnoresItself(s, id, c, screen);
    WithStanding(s.calls, StepPort(s, id, c, Prompt, screen), id);
  }

  lemma WithStanding(calls: map<nat, Call>, t: Sys, id: nat)
    requires t.calls - {id} == calls && id !in calls
    ensures With(t.(calls := calls), id, Standing(t, id)) == t
  {
    if id in t.calls {
      assert t.calls == calls[id := t.calls[id]];
    } else {
      assert t.calls == calls;
    }
  }

  lemma CallsOver(calls: map<nat, Call>, id: nat, c: Call, next: Option<Call>)
    requires id !in calls
    ensures next.Some? ==> calls[id := c][id := next.value] == calls[id := next.value] && calls[id := next.value] - {id} == calls
    ensures calls[id := c] - {id} == calls && calls - {id} == calls
  {
  }

  /** Where the call stands after the step, if it is not over. */
  function Standing(t: Sys, id: nat): Option<Call> {
    if id in t.calls then Some(t.calls[id]) else None
  }

  lemma MintItself(s: Sys, id: nat, c: Call, screen: PortResult<D.ScreenOutcome>)
    requires id !in s.calls && c.AskMint?
    ensures StepPort(With(s, id, Some(c)), id, c, Prompt, screen) == StepPort(s, id, c, Prompt, screen)
    ensures StepPort(s, id, c, Prompt, screen).calls - {id} == s.calls
  {
    CallsOver(s.calls, id, c, Standing(StepPort(s, id, c, Prompt, screen), id));
  }

  lemma EscrowItself(s: Sys, id: nat, c: Call, screen: PortResult<D.ScreenOutcome>)
    requires id !in s.calls && c.AskEscrow?
    ensures StepPort(With(s, id, Some(c)), id, c, Prompt, screen) == StepPort(s, id, c, Prompt, screen)
    ensures StepPort(s, id, c, Prompt, screen).calls - {id} == s.calls
  {
    CallsOver(s.calls, id, c, Standing(StepPort(s, id, c, Prompt, screen), id));
  }

  lemma BurnItself(s: Sys, id: nat, c: Call, screen: PortResult<D.ScreenOutcome>)
    requires id !in s.calls && (c.AskBurn? || c.AskReturn?)
    ensures StepPort(With(s, id, Some(c)), id, c, Prompt, screen) == StepPort(s, id, c, Prompt, screen)
    ensures StepPort(s, id, c, Prompt, screen).calls - {id} == s.calls
  {
    CallsOver(s.calls, id, c, Standing(StepPort(s, id, c, Prompt, screen), id));
  }

  lemma OtherItself(s: Sys, id: nat, c: Call, screen: PortResult<D.ScreenOutcome>)
    requires id !in s.calls && !c.AskMint? && !c.AskEscrow? && !c.AskBurn? && !c.AskReturn?
    ensures StepPort(With(s, id, Some(c)), id, c, Prompt, screen) == StepPort(s, id, c, Prompt, screen)
    ensures StepPort(s, id, c, Prompt, screen).calls - {id} == s.calls
  {
    CallsOver(s.calls, id, c, Standing(StepPort(s, id, c, Prompt, screen), id));
  }

  /** A port call's step reads the call it advances nowhere but where it stands. */
  lemma PortIgnoresItself(s: Sys, id: nat, c: Call, screen: PortResult<D.ScreenOutcome>)
    requires id !in s.calls && Asks(c).None?
    ensures StepPort(With(s, id, Some(c)), id, c, Prompt, screen) == StepPort(s, id, c, Prompt, screen)
    ensures StepPort(s, id, c, Prompt, screen).calls - {id} == s.calls
  {
    if c.AskMint? {
      MintItself(s, id, c, screen);
    } else if c.AskEscrow? {
      EscrowItself(s, id, c, screen);
    } else if c.AskBurn? || c.AskReturn? {
      BurnItself(s, id, c, screen);
    } else {
      OtherItself(s, id, c, screen);
    }
  }

  /** A step of the call is that. */
  lemma StepIs(s: Sys, id: nat, c: Call, screen: PortResult<D.ScreenOutcome>)
    requires id !in s.calls
    ensures var (t, next) := OneStep(s, id, c, screen); Step(With(s, id, Some(c)), id, screen) == With(t, id, next)
    ensures OneStep(s, id, c, screen).0.calls == s.calls
  {
    if Asks(c).Some? {
      StoreStepIs(s, id, c);
    } else {
      PortStepIs(s, id, c, screen);
    }
  }

  /** `n` steps of a call from `c`. */
  ghost function Whole(s: Sys, id: nat, c: Call, screen: PortResult<D.ScreenOutcome>, n: nat): (Sys, Option<Call>)
    decreases n
  {
    if n == 0 then (s, Some(c))
    else
      var (t, next) := OneStep(s, id, c, screen);
      if next.None? then (t, None) else Whole(t, id, next.value, screen, n - 1)
  }

  lemma {:induction false} IdleSteps(s: Sys, id: nat, screen: PortResult<D.ScreenOutcome>, n: nat)
    requires id !in s.calls
    ensures Steps(s, id, screen, n) == s
    decreases n
  {
    if n > 0 {
      assert Step(s, id, screen) == s;
      IdleSteps(s, id, screen, n - 1);
    }
  }

  lemma FirstStep(s: Sys, id: nat, c: Call, screen: PortResult<D.ScreenOutcome>, n: nat)
    requires id !in s.calls && n > 0
    ensures var (t, next) := OneStep(s, id, c, screen);
            t.calls == s.calls && Steps(With(s, id, Some(c)), id, screen, n) == Steps(With(t, id, next), id, screen, n - 1)
  {
    StepIs(s, id, c, screen);
  }

  lemma WholeNext(s: Sys, id: nat, c: Call, screen: PortResult<D.ScreenOutcome>, n: nat, t: Sys, next: Option<Call>)
    requires n > 0 && OneStep(s, id, c, screen) == (t, next)
    ensures Whole(s, id, c, screen, n) == if next.None? then (t, None) else Whole(t, id, next.value, screen, n - 1)
  {
  }

  lemma {:induction false} WholeIs(s: Sys, id: nat, c: Call, screen: PortResult<D.ScreenOutcome>, n: nat)
    requires id !in s.calls
    ensures var (t, next) := Whole(s, id, c, screen, n); Steps(With(s, id, Some(c)), id, screen, n) == With(t, id, next)
    decreases n, 0
  {
    if n > 0 {
      var first := OneStep(s, id, c, screen);
      FirstStep(s, id, c, screen, n);
      WholeNext(s, id, c, screen, n, first.0, first.1);
      RestIs(first.0, id, first.1, screen, n - 1);
    }
  }

  /** The steps that are left, of a call that may be over. */
  lemma {:induction false} RestIs(t: Sys, id: nat, next: Option<Call>, screen: PortResult<D.ScreenOutcome>, n: nat)
    requires id !in t.calls
    ensures var end := if next.None? then (t, None) else Whole(t, id, next.value, screen, n);
            Steps(With(t, id, next), id, screen, n) == With(end.0, id, end.1)
    decreases n, 1
  {
    if next.None? {
      IdleSteps(t, id, screen, n);
    } else {
      WholeIs(t, id, next.value, screen, n);
    }
  }
}
