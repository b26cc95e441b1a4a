/**
 * The agent-chat demo (`AgentSection`, App.tsx:421-508). A step index walks through a reset (0),
 * typing the prompt (1), sending it (2), thinking (3) and the agent's actions (4-10). A
 * "Thought Ns" counter ticks while the agent thinks and is cleared otherwise.
 */
module Agent {
  import opened Playback

  /**
   * The setter calls of `sequence`, and `Tick`: one callback of the seconds interval, which
   * runs beside the sequence rather than in it.
   */
  datatype Mutation = SetStep(k: int) | SetInput(value: string) | Tick

  /** `step`, `inputValue` and `seconds`. */
  datatype View = View(step: int, input: string, seconds: int)

  const Prompt := "Help me understand how teams split their focus between the analytics toolkit that highlights tab versus agent usage."

  const Initial := View(0, "", 0)

  /** The steps during which the seconds interval runs (App.tsx:436). */
  predicate Thinking(step: int) {
    3 <= step < 10
  }

  /** The interval callback `s => (s < 9 ? s + 1 : 9)` (App.tsx:438). */
  function NextSecond(s: int): (t: int)
    ensures t <= 9
    ensures s <= 9 ==> s <= t && (t == s <==> s == 9)
  {
    if s < 9 then s + 1 else 9
  }

  /**
   * A setter call together with the timer effect it triggers (App.tsx:434-445). The effect
   * depends on `step`, so it runs again only when the step changes: it keeps the counter
   * while the new step is a thinking step and clears it otherwise. A tick changes the counter
   * only while the interval exists.
   */
  function Apply(v: View, m: Mutation): (w: View)
    ensures m.SetStep? ==> w.step == m.k && w.input == v.input
    ensures !m.SetStep? ==> w.step == v.step
    ensures !m.SetInput? ==> w.input == v.input
    ensures 0 <= v.seconds <= 9 ==> 0 <= w.seconds <= 9
    ensures w.step != v.step && !Thinking(w.step) ==> w.seconds == 0
    ensures m.Tick? && !Thinking(v.step) ==> w == v
  {
    match m
    case SetStep(k) =>
      if k == v.step then v
      else v.(step := k, seconds := if Thinking(k) then v.seconds else 0)
    case SetInput(s) => v.(input := s)
    case Tick => if Thinking(v.step) then v.(seconds := NextSecond(v.seconds)) else v
  }

  /** `setInputValue(prompt.slice(0, i))` for i = 0 .. |prompt|. */
  function Typing(prompt: string): seq<Mutation> {
    seq(|prompt| + 1, i requires 0 <= i <= |prompt| => SetInput(prompt[..i]))
  }

  /** The reset at the top of each pass (App.tsx:455-458). */
  const Reset: seq<Op<Mutation>> := [Set(SetStep(0)), Set(SetInput("")), Pause]

  /** The pause after typing, and sending the message (App.tsx:467-472). */
  const Send: seq<Op<Mutation>> := [Pause, Set(SetStep(2)), Set(SetInput("")), Pause]

  /** `setStep(k); await wait(ms);` for k = lo .. hi (App.tsx:474-502). */
  function Progression(lo: int, hi: int): seq<Op<Mutation>>
    decreases hi - lo
  {
    if hi < lo then [] else Progression(lo, hi - 1) + [Set(SetStep(hi)), Pause]
  }

  /** The body of `while (isMounted)` for a given prompt (App.tsx:454-503). */
  function Script(prompt: string): seq<Op<Mutation>> {
    Reset + [Set(SetStep(1))] + Guarded(Typing(prompt)) + Send + Progression(3, 10)
  }

  function Body(): seq<Op<Mutation>> {
    Script(Prompt)
  }

  /** `SetStep(k)` for k = lo .. hi. */
  function StepRange(lo: int, hi: int): seq<Mutation>
    decreases hi - lo
  {
    if hi < lo then [] else StepRange(lo, hi - 1) + [SetStep(hi)]
  }

  /** The setter calls a pass is written with, in order. */
  function ScriptCalls(prompt: string): seq<Mutation> {
    [SetStep(0), SetInput(""), SetStep(1)] + Typing(prompt) + [SetStep(2), SetInput("")] + StepRange(3, 10)
  }

  /** The step values a sequence of calls sets, in order. */
  function StepValues(ms: seq<Mutation>): seq<int> {
    if ms == [] then []
    else StepValues(ms[..|ms| - 1]) + (if ms[|ms| - 1].SetStep? then [ms[|ms| - 1].k] else [])
  }

  // ---------------------------------------------------------------------------------------
  // What the script is written with

  /** The action steps are written with one setter call and one pause each, and no guard. */
  lemma {:induction false} ProgressionSets(lo: int, hi: int)
    requires lo <= hi + 1
    ensures Sets(Progression(lo, hi)) == StepRange(lo, hi)
    ensures Pauses(Progression(lo, hi)) == hi - lo + 1
    ensures Unguarded(Progression(lo, hi)) && NoHelpers(Progression(lo, hi))
    decreases hi - lo
  {
    if lo <= hi {
      var p := Progression(lo, hi - 1);
      var q: seq<Op<Mutation>> := [Set(SetStep(hi)), Pause];
      ProgressionSets(lo, hi - 1);
      assert Sets(q) == [SetStep(hi)] && Pauses(q) == 1 && Unguarded(q) by {
        TwoCounts(Set(SetStep(hi)), Pause);
        SingleCounts(Set(SetStep(hi)));
        SingleCounts<Mutation>(Pause);
      }
      CountsAppend(p, q);
      UnguardedAppend(p, q);
      assert Progression(lo, hi) == p + q;
    } else {
      assert Progression(lo, hi) == [];
    }
  }

  /** The reset and step 1 are written with three setter calls and one pause. */
  lemma HeadSets()
    ensures Sets(Reset + [Set(SetStep(1))]) == [SetStep(0), SetInput(""), SetStep(1)]
    ensures Pauses(Reset + [Set(SetStep(1))]) == 1
    ensures NoHelpers(Reset + [Set(SetStep(1))])
  {
    ThreeCounts(Set(SetStep(0)), Set(SetInput("")), Pause);
    SingleCounts(Set(SetStep(0)));
    SingleCounts(Set(SetStep(1)));
    SingleCounts(Set(SetInput("")));
    SingleCounts<Mutation>(Pause);
    SetsAppend(Reset, [Set(SetStep(1))]);
    PausesAppend(Reset, [Set(SetStep(1))]);
    assert Unguarded(Reset + [Set(SetStep(1))]);
  }

  /** The send and any run of action steps are written without guards, one pause per step. */
  lemma SendProgressionSets(lo: int, hi: int)
    requires lo <= hi + 1
    ensures Sets(Send + Progression(lo, hi)) == [SetStep(2), SetInput("")] + StepRange(lo, hi)
    ensures Pauses(Send + Progression(lo, hi)) == hi - lo + 3
    ensures Unguarded(Send + Progression(lo, hi)) && NoHelpers(Send + Progression(lo, hi))
  {
    FourCounts(Pause, Set(SetStep(2)), Set(SetInput("")), Pause);
    SingleCounts(Set(SetStep(2)));
    SingleCounts(Set(SetInput("")));
    SingleCounts<Mutation>(Pause);
    ProgressionSets(lo, hi);
    assert Unguarded(Send);
    SetsAppend(Send, Progression(lo, hi));
    PausesAppend(Send, Progression(lo, hi));
    UnguardedAppend(Send, Progression(lo, hi));
  }

  /** Everything after typing is written with ten setter calls, ten pauses and no guard. */
  lemma TailSets()
    ensures Sets(Send + Progression(3, 10)) == [SetStep(2), SetInput("")] + StepRange(3, 10)
    ensures Pauses(Send + Progression(3, 10)) == 10
    ensures |Sets(Send + Progression(3, 10))| == 10
    ensures Unguarded(Send + Progression(3, 10)) && NoHelpers(Send + Progression(3, 10))
  {
    SendProgressionSets(3, 10);
    StepRangeLength(3, 10);
  }

  lemma {:induction false} StepRangeLength(lo: int, hi: int)
    requires lo <= hi + 1
    ensures |StepRange(lo, hi)| == hi - lo + 1
    decreases hi - lo
  {
    if lo <= hi {
      StepRangeLength(lo, hi - 1);
    }
  }

  /** A pass is written with the calls of `ScriptCalls` and |prompt| + 12 pauses. */
  lemma ScriptSets(prompt: string)
    ensures Sets(Script(prompt)) == ScriptCalls(prompt)
    ensures Pauses(Script(prompt)) == |prompt| + 12
    ensures NoHelpers(Script(prompt))
  {
    var h, c, t := Reset + [Set(SetStep(1))], Guarded(Typing(prompt)), Send + Progression(3, 10);
    assert Script(prompt) == h + c + t;
    CountsOfThree(h, c, t);
    HeadSets();
    TailSets();
    GuardedSets(Typing(prompt));
    assert NoHelpers(h + c + t) by {
      NoHelpersAppend(h, c);
      NoHelpersAppend(h + c, t);
    }
  }

  // ---------------------------------------------------------------------------------------
  // The step index

  lemma {:induction false} StepValuesAppend(a: seq<Mutation>, b: seq<Mutation>)
    ensures StepValues(a + b) == StepValues(a) + StepValues(b)
    decreases |b|
  {
    if b == [] {
      assert a + b == a;
    } else {
      assert (a + b)[..|a + b| - 1] == a + b[..|b| - 1];
      StepValuesAppend(a, b[..|b| - 1]);
    }
  }

  /** A prefix of the calls sets a prefix of the step values. */
  lemma StepValuesPrefix(a: seq<Mutation>, b: seq<Mutation>)
    requires a <= b
    ensures StepValues(a) <= StepValues(b)
  {
    assert b == a + b[|a|..];
    StepValuesAppend(a, b[|a|..]);
  }

  lemma {:induction false} StepRangeValues(lo: int, hi: int)
    requires lo <= hi + 1
    ensures |StepValues(StepRange(lo, hi))| == hi - lo + 1
    ensures forall i :: 0 <= i <= hi - lo ==> StepValues(StepRange(lo, hi))[i] == lo + i
    decreases hi - lo
  {
    if lo <= hi {
      StepRangeValues(lo, hi - 1);
      StepValuesAppend(StepRange(lo, hi - 1), [SetStep(hi)]);
      assert [SetStep(hi)][..0] == [];
    }
  }

  lemma {:induction false} TypingSetsNoStep(prompt: string, n: nat)
    requires n <= |prompt| + 1
    ensures StepValues(Typing(prompt)[..n]) == []
  {
    if n > 0 {
      assert Typing(prompt)[..n][..n - 1] == Typing(prompt)[..n - 1];
      TypingSetsNoStep(prompt, n - 1);
    } else {
      assert Typing(prompt)[..0] == [];
    }
  }

  /** The calls of a pass set the steps 0, 1, 2, ..., 10 in this order, and no others. */
  lemma CycleSteps(prompt: string)
    ensures |StepValues(ScriptCalls(prompt))| == 11
    ensures forall i :: 0 <= i < 11 ==> StepValues(ScriptCalls(prompt))[i] == i
  {
    var a: seq<Mutation> := [SetStep(0), SetInput(""), SetStep(1)];
    var t := Typing(prompt);
    var c: seq<Mutation> := [SetStep(2), SetInput("")];
    var e := StepRange(3, 10);
    assert a[..2][..1] == [SetStep(0)] && a[..2] == [SetStep(0), SetInput("")] && [SetStep(0)][..0] == [];
    assert StepValues(a) == [0, 1];
    assert c[..1] == [SetStep(2)] && [SetStep(2)][..0] == [];
    assert StepValues(c) == [2];
    TypingSetsNoStep(prompt, |prompt| + 1);
    assert t[..|prompt| + 1] == t;
    StepRangeValues(3, 10);
    StepValuesAppend(a, t);
    StepValuesAppend(a + t, c);
    StepValuesAppend(a + t + c, e);
  }

  /**
   * Within any pass, whenever the view is torn down, the step index is set to 0, 1, 2, ... in
   * this order: the values are strictly increasing and never leave [0, 10].
   */
  lemma PassSteps(prompt: string, r: Run<Mutation>)
    requires !r.skipping
    ensures var vs := StepValues(Exec([Guard] + Script(prompt), r).issued[|r.issued|..]);
      && |vs| <= 11
      && (forall i :: 0 <= i < |vs| ==> vs[i] == i)
      && (forall i, j :: 0 <= i < j < |vs| ==> vs[i] < vs[j])
      && (forall i :: 0 <= i < |vs| ==> 0 <= vs[i] <= 10)
  {
    var e := Exec([Guard] + Script(prompt), r);
    assert e.issued[|r.issued|..] <= ScriptCalls(prompt) by {
      var g: seq<Op<Mutation>> := [Guard];
      SingleCounts<Mutation>(Guard);
      SetsAppend(g, Script(prompt));
      ScriptSets(prompt);
      assert NoHelpers(g);
      NoHelpersAppend(g, Script(prompt));
      ExecIssuesPrefix(g + Script(prompt), r);
    }
    StepValuesPrefix(e.issued[|r.issued|..], ScriptCalls(prompt));
    CycleSteps(prompt);
  }

  // ---------------------------------------------------------------------------------------
  // The seconds counter

  /** n callbacks of the interval. */
  function Ticks(s: int, n: nat): int {
    if n == 0 then s else NextSecond(Ticks(s, n - 1))
  }

  /** From any value in [0, 9], the counter saturates at 9: n ticks give min(s + n, 9). */
  lemma {:induction false} TicksSaturate(s: int, n: nat)
    requires 0 <= s <= 9
    ensures Ticks(s, n) == if s + n < 9 then s + n else 9
  {
    if n > 0 {
      TicksSaturate(s, n - 1);
    }
  }

  /** The counter is a second count in [0, 9], and 0 whenever the agent is not thinking. */
  predicate SecondsConsistent(v: View) {
    0 <= v.seconds <= 9 && (!Thinking(v.step) ==> v.seconds == 0)
  }

  lemma ApplyKeepsSeconds(v: View, m: Mutation)
    requires SecondsConsistent(v)
    ensures SecondsConsistent(Apply(v, m))
  {
  }

  /**
   * Whatever the order in which setter calls and interval callbacks interleave, the counter
   * stays in [0, 9] and reads 0 whenever the step is not a thinking step.
   */
  lemma SecondsAlwaysConsistent(ms: seq<Mutation>)
    ensures SecondsConsistent(Replay(Apply, Initial, ms))
  {
    forall i, w | 0 <= i < |ms| && SecondsConsistent(w)
      ensures SecondsConsistent(Apply(w, ms[i]))
    {
      ApplyKeepsSeconds(w, ms[i]);
    }
    ReplayKeeps(Apply, SecondsConsistent, Initial, ms);
  }

  /** Steps lo .. hi, set one after another from step lo - 1, end at hi with the input untouched. */
  lemma {:induction false} ReplayStepRange(w: View, lo: int, hi: int)
    requires w.step == lo - 1 && lo <= hi
    ensures var u := Replay(Apply, w, StepRange(lo, hi));
      u.step == hi && u.input == w.input && (!Thinking(hi) ==> u.seconds == 0)
    decreases hi - lo
  {
    var ms := StepRange(lo, hi);
    assert ms[..|ms| - 1] == StepRange(lo, hi - 1);
    if lo < hi {
      ReplayStepRange(w, lo, hi - 1);
    } else {
      assert StepRange(lo, hi - 1) == [];
    }
  }

  /** A whole pass ends at step 10 with an empty input and a cleared counter, whatever came before. */
  lemma CycleView(v: View, prompt: string)
    ensures Replay(Apply, v, ScriptCalls(prompt)) == View(10, "", 0)
  {
    var head := [SetStep(0), SetInput(""), SetStep(1)] + Typing(prompt);
    var send := [SetStep(2), SetInput("")];
    assert ScriptCalls(prompt) == head + send + StepRange(3, 10);
    var w := Replay(Apply, v, head);
    ReplayTwo(Apply, w, SetStep(2), SetInput(""));
    var w2 := Replay(Apply, w, send);
    assert w2.step == 2 && w2.input == "";
    ReplayAppend(Apply, v, head, send);
    ReplayAppend(Apply, v, head + send, StepRange(3, 10));
    ReplayStepRange(w2, 3, 10);
  }

  /**
   * A pass whose pauses all resume with the view mounted makes every call of the script and
   * ends at step 10 with an empty input and the counter at 0.
   */
  lemma FullPass(prompt: string, r: Run<Mutation>, v: View)
    requires r.mounted && !r.halted && !r.skipping && |prompt| + 12 <= r.budget
    ensures var e := Exec([Guard] + Script(prompt), r);
      && e.issued == r.issued + ScriptCalls(prompt) && e.mounted && e.late == r.late
      && Replay(Apply, v, e.issued[|r.issued|..]) == View(10, "", 0)
  {
    var e := Exec([Guard] + Script(prompt), r);
    assert e == r.(issued := r.issued + ScriptCalls(prompt), budget := r.budget - |prompt| - 12) by {
      ExecAppend([Guard], Script(prompt), r);
      Single(Guard, r);
      ScriptSets(prompt);
      ExecUncancelled(Script(prompt), r);
    }
    assert e.issued[|r.issued|..] == ScriptCalls(prompt);
    CycleView(v, prompt);
  }

  /**
   * A pass torn down during the pause after the last keystroke still runs to its end: the send
   * and every later step are set after teardown, ten late calls in all.
   */
  lemma ScriptTornDownAfterTyping(prompt: string, r: Run<Mutation>)
    requires r.mounted && !r.halted && !r.skipping && r.budget == |prompt| + 1
    ensures Exec(Script(prompt), r).issued == r.issued + ScriptCalls(prompt)
    ensures Exec(Script(prompt), r).late == r.late + 10
    ensures !Exec(Script(prompt), r).mounted && Exec(Script(prompt), r).budget == 0
    ensures !Exec(Script(prompt), r).halted && !Exec(Script(prompt), r).skipping
  {
    var h, c, t := Reset + [Set(SetStep(1))], Guarded(Typing(prompt)), Send + Progression(3, 10);
    var r2 := Exec(h + c, r);
    TornDownWhileTyping(prompt, r);
    TailTornDown(r2);
    assert Script(prompt) == h + c + t;
    ExecAppend(h + c, t, r);
  }

  /** Once the view is torn down, the send and the action steps are all still set, each late. */
  lemma TailTornDown(r: Run<Mutation>)
    requires !r.mounted && !r.halted && !r.skipping && r.budget == 0
    ensures Exec(Send + Progression(3, 10), r)
      == r.(issued := r.issued + [SetStep(2), SetInput("")] + StepRange(3, 10), late := r.late + 10)
  {
    TailSets();
    ExecTornDown(Send + Progression(3, 10), r);
  }

  /** Teardown during the pause after the last keystroke leaves the typing loop without returning. */
  lemma TornDownWhileTyping(prompt: string, r: Run<Mutation>)
    requires r.mounted && !r.halted && !r.skipping && r.budget == |prompt| + 1
    ensures var e := Exec(Reset + [Set(SetStep(1))] + Guarded(Typing(prompt)), r);
      && e.issued == r.issued + [SetStep(0), SetInput(""), SetStep(1)] + Typing(prompt)
      && e.late == r.late && !e.mounted && !e.halted && !e.skipping && e.budget == 0
  {
    var h, c := Reset + [Set(SetStep(1))], Guarded(Typing(prompt));
    HeadSets();
    ExecUncancelled(h, r);
    var r1 := Exec(h, r);
    ExecGuarded(Typing(prompt), r1);
    assert Typing(prompt)[..|prompt| + 1] == Typing(prompt);
    ExecAppend(h, c, r);
  }

  /**
   * Teardown during the pause after the last keystroke (the last pause of the typing loop, the
   * 118th of the pass) does not stop the pass: its calls still walk to step 10, and only the
   * head of the next pass returns.
   */
  lemma LateStepsAfterTeardown()
    ensures var e := Loop(Body(), Start(|Prompt| + 1), 2);
      && e.halted && e.late == 10 && e.issued == ScriptCalls(Prompt)
      && Replay(Apply, Initial, e.issued) == View(10, "", 0)
  {
    var r := Start(|Prompt| + 1);
    LoopNext(Body(), r, 0);
    Single(Guard, r);
    ScriptTornDownAfterTyping(Prompt, r);
    var e1 := Loop(Body(), r, 1);
    LoopExit(Body(), r, 1);
    CycleView(Initial, Prompt);
  }

  // ---------------------------------------------------------------------------------------

  /** The component: its state, its `isMounted` flag, and the run its sequence has made so far. */
  class AgentSection {
    var seconds: int
    var step: int
    var inputValue: string
    var isMounted: bool
    /** How many more pauses resume before the view is torn down. */
    var pausesLeft: nat
    /** The body of `while (isMounted)`, as written. */
    ghost const script: seq<Op<Mutation>>
    ghost var run: Run<Mutation>

    ghost predicate Valid()
      reads this
    {
      isMounted == run.mounted && pausesLeft == run.budget && !run.skipping
      && View(step, inputValue, seconds) == Replay(Apply, Initial, run.issued)
    }

    /** Mounting with the initial state; the view will be torn down after the given pauses. */
    constructor (pausesBeforeTeardown: nat)
      ensures Valid() && run == Start(pausesBeforeTeardown) && script == Body()
      ensures step == 0 && inputValue == "" && seconds == 0
    {
      script := Body();
      seconds := 0;
      step := 0;
      inputValue := "";
      isMounted := true;
      pausesLeft := pausesBeforeTeardown;
      run := Start(pausesBeforeTeardown);
    }

    /** `await wait(ms)`: teardown can happen only here. */
    method Wait()
      requires Valid() && !run.halted
      modifies this
      ensures Valid() && run == Step(old(run), Pause)
      ensures step == old(step) && inputValue == old(inputValue) && seconds == old(seconds)
    {
      if pausesLeft > 0 {
        pausesLeft := pausesLeft - 1;
      } else {
        isMounted := false;
      }
      run := Step(run, Pause);
    }

    /** `setStep(k)`, with the timer effect it triggers when the step changes (App.tsx:434-445). */
    method GoToStep(k: int)
      requires Valid() && !run.halted
      modifies this
      ensures Valid() && run == Step(old(run), Set(SetStep(k)))
      ensures step == k && inputValue == old(inputValue)
      ensures seconds == if k == old(step) || Thinking(k) then old(seconds) else 0
    {
      ReplaySnoc(Apply, Initial, run.issued, SetStep(k));
      if k != step && !Thinking(k) {
        seconds := 0;
      }
      step := k;
      run := Step(run, Set(SetStep(k)));
    }

    /** `setInputValue(s)` */
    method SetInputValue(s: string)
      requires Valid() && !run.halted
      modifies this
      ensures Valid() && run == Step(old(run), Set(SetInput(s)))
      ensures step == old(step) && inputValue == s && seconds == old(seconds)
    {
      ReplaySnoc(Apply, Initial, run.issued, SetInput(s));
      inputValue := s;
      run := Step(run, Set(SetInput(s)));
    }

    /**
     * One callback of the seconds interval (App.tsx:437-439). The interval exists only while
     * the step is a thinking step and the view is mounted.
     */
    method TickSeconds()
      requires Valid() && isMounted && Thinking(step)
      modifies this
      ensures Valid() && run == old(run).(issued := old(run).issued + [Tick])
      ensures seconds == NextSecond(old(seconds)) && step == old(step) && inputValue == old(inputValue)
    {
      ReplaySnoc(Apply, Initial, run.issued, Tick);
      seconds := if seconds < 9 then seconds + 1 else 9;
      run := run.(issued := run.issued + [Tick]);
    }

    /** The typing loop (App.tsx:461-465); `true` when its guard returned. */
    method TypePrompt(prompt: string) returns (stopped: bool)
      requires Valid() && !run.halted
      modifies this
      ensures Valid() && run == Exec(Guarded(Typing(prompt)), old(run)) && stopped == run.halted
    {
      ghost var r0 := run;
      ghost var ms := Typing(prompt);
      assert ms[..0] == [];
      for i := 0 to |prompt| + 1
        invariant Valid() && !run.halted && run == Exec(Guarded(ms[..i]), r0)
      {
        if !isMounted {
          GuardedStop(ms, i, r0);
          run := run.(halted := true);
          return true;
        }
        SetInputValue(prompt[..i]);
        Wait();
        GuardedPass(ms, i, r0);
      }
      assert ms[..|prompt| + 1] == ms;
      return false;
    }

    /** Sending the typed prompt (App.tsx:467-472). */
    method SendPrompt()
      requires Valid() && !run.halted
      modifies this
      ensures Valid() && run == Exec(Send, old(run)) && !run.halted
    {
      Four(Pause, Set(SetStep(2)), Set(SetInput("")), Pause, run);
      Wait();
      GoToStep(2);
      SetInputValue("");
      Wait();
    }

    /** One action step: `setStep(k); await wait(ms);` (App.tsx:474-502). */
    method Advance(k: int)
      requires Valid() && !run.halted
      modifies this
      ensures Valid() && run == Step(Step(old(run), Set(SetStep(k))), Pause) && !run.halted
    {
      GoToStep(k);
      Wait();
    }

    /** Thinking and the agent's actions, steps 3 to 10 (App.tsx:474-502). */
    method PlayActions()
      requires Valid() && !run.halted
      modifies this
      ensures Valid() && run == Exec(Progression(3, 10), old(run)) && !run.halted
    {
      ghost var base := run;
      Advance(3);
      assert run == Advanced(base, 3, 3);
      Advance(4);
      assert run == Advanced(base, 3, 4);
      Advance(5);
      assert run == Advanced(base, 3, 5);
      Advance(6);
      assert run == Advanced(base, 3, 6);
      Advance(7);
      assert run == Advanced(base, 3, 7);
      Advance(8);
      assert run == Advanced(base, 3, 8);
      Advance(9);
      assert run == Advanced(base, 3, 9);
      Advance(10);
      assert run == Advanced(base, 3, 10);
      ProgressionRun(base, 3, 10);
    }

    /** The reset at the top of a pass (App.tsx:455-458). */
    method ResetView()
      requires Valid() && !run.halted
      modifies this
      ensures Valid() && run == Exec(Reset, old(run)) && !run.halted
      ensures run.budget < old(run.budget) || !run.mounted
    {
      Three(Set(SetStep(0)), Set(SetInput("")), Pause, run);
      GoToStep(0);
      SetInputValue("");
      Wait();
    }

    /** One pass of the `while (isMounted)` body; `true` when the typing guard returned. */
    method RunPass() returns (stopped: bool)
      requires Valid() && isMounted && !run.halted && script == Body()
      modifies this
      ensures Valid() && run == Exec(script, old(run)) && stopped == run.halted
      ensures run.budget < old(run.budget) || !run.mounted
    {
      stopped := PlayScript(Prompt);
    }

    /** The body of the loop for a given prompt; `true` when the typing guard returned. */
    method PlayScript(prompt: string) returns (stopped: bool)
      requires Valid() && !run.halted
      modifies this
      ensures Valid() && run == Exec(Script(prompt), old(run)) && stopped == run.halted
      ensures run.budget < old(run.budget) || !run.mounted
    {
      ghost var r0 := run;
      ghost var a, b, c, d := Reset, [Set(SetStep(1))], Guarded(Typing(prompt)), Send;
      ghost var e := Progression(3, 10);
      ResetView();
      ExecSnoc(a, Set(SetStep(1)), r0);
      GoToStep(1);
      stopped := TypePrompt(prompt);
      ExecAppend(a + b, c, r0);
      if stopped {
        ExecHaltedPrefix(a + b + c, d + e, r0);
        assert a + b + c + (d + e) == Script(prompt);
        return;
      }
      Respond();
      ExecAppend(a + b + c, d + e, r0);
      assert a + b + c + (d + e) == Script(prompt);
    }

    /** Everything after typing: the send, then the thinking and action steps. */
    method Respond()
      requires Valid() && !run.halted
      modifies this
      ensures Valid() && run == Exec(Send + Progression(3, 10), old(run)) && !run.halted
    {
      ghost var r0 := run;
      SendPrompt();
      PlayActions();
      ExecAppend(Send, Progression(3, 10), r0);
    }

    /** `sequence` (App.tsx:451-505), started by the mount effect. */
    method RunScenario() returns (ghost passes: nat)
      requires Valid() && isMounted && !run.halted && script == Body()
      modifies this
      ensures Valid() && run.halted && run == Loop(script, old(run), passes)
    {
      ghost var r0 := run;
      passes := 0;
      while isMounted
        invariant Valid() && !run.halted && run == Loop(script, r0, passes)
        decreases pausesLeft, isMounted
      {
        var stopped := RunPass();
        LoopPass(script, r0, passes, run);
        passes := passes + 1;
        if stopped {
          return;
        }
      }
      LoopExit(script, r0, passes);
      run := run.(halted := true);
      passes := passes + 1;
    }
  }

  /** The run after the action steps lo .. hi, one step at a time. */
  function Advanced(r: Run<Mutation>, lo: int, hi: int): Run<Mutation>
    decreases hi - lo
  {
    if hi < lo then r else Step(Step(Advanced(r, lo, hi - 1), Set(SetStep(hi))), Pause)
  }

  /** Running the action steps is taking them one at a time. */
  lemma {:induction false} ProgressionRun(r: Run<Mutation>, lo: int, hi: int)
    ensures Exec(Progression(lo, hi), r) == Advanced(r, lo, hi)
    decreases hi - lo
  {
    if lo <= hi {
      ProgressionRun(r, lo, hi - 1);
      var p := Progression(lo, hi - 1);
      assert Progression(lo, hi) == p + [Set(SetStep(hi))] + [Pause];
      ExecSnoc(p + [Set(SetStep(hi))], Pause, r);
      ExecSnoc(p, Set(SetStep(hi)), r);
    }
  }
}
