/**
 * The terminal demo (`TerminalWindow`, App.tsx:210-304): a transcript of coloured lines and an
 * input buffer, driven by `runScenario`. Each pass resets the transcript to three header lines,
 * then plays two rounds: it types a command one prefix at a time, commits it as a `> ` line,
 * prints the command's output lines and pauses. The commands are `npm run dev` and `vortex fix`.
 */
module Terminal {
  import opened Playback

  datatype Line = Line(text: string, color: string)

  /** The setter calls of `runScenario`; `AppendLine` is `setLines(prev => [...prev, line])`. */
  datatype Mutation = SetLines(lines: seq<Line>) | AppendLine(line: Line) | SetInput(value: string)

  /** `lines` and `inputValue`. */
  datatype View = View(lines: seq<Line>, input: string)

  const Header: seq<Line> := [
    Line(">_ Vortex (v0.50.0)", "text-gray-500"),
    Line("directory: ~/eb/code/acme", "text-gray-500"),
    Line(" ", "")
  ]

  const Cmd1 := "npm run dev"

  const Output1: seq<Line> := [
    Line("> vortex-app@0.1.0 dev", "text-gray-400"),
    Line("ready - started server on http://localhost:3000", "text-green-400"),
    Line("event - compiled client and server successfully", "text-gray-400"),
    Line("wait  - compiling...", "text-gray-500"),
    Line("error - ./src/Dashboard.tsx:24:12", "text-red-500"),
    Line("SyntaxError: Unexpected token", "text-red-400")
  ]

  const Cmd2 := "vortex fix"

  const Output2: seq<Line> := [
    Line("Vortex is analyzing...", "text-blue-400"),
    Line("Found syntax error in Dashboard.tsx", "text-gray-300"),
    Line("Applying fix...", "text-gray-300"),
    Line("+ const data = await response.json();", "text-green-400"),
    Line("\U{2713} Fixed in 180ms", "text-green-500"),
    Line("ready - reloaded successfully", "text-gray-400")
  ]

  /** The view when the component mounts. */
  const Initial := View(Header, "")

  function Apply(v: View, m: Mutation): (w: View)
    ensures !m.SetLines? ==> v.lines <= w.lines && |w.lines| <= |v.lines| + 1
    ensures m.SetInput? ==> w.lines == v.lines
    ensures !m.SetInput? ==> w.input == v.input
  {
    match m
    case SetLines(ls) => v.(lines := ls)
    case AppendLine(l) => v.(lines := v.lines + [l])
    case SetInput(s) => v.(input := s)
  }

  /** The transcript line a command is committed as. */
  function Prompt(cmd: string): Line {
    Line("> " + cmd, "text-white")
  }

  /** `setInputValue(cmd.slice(0, i))` for i = 0 .. |cmd|. */
  function Typing(cmd: string): seq<Mutation> {
    seq(|cmd| + 1, i requires 0 <= i <= |cmd| => SetInput(cmd[..i]))
  }

  /** `setLines(prev => [...prev, line])` for each output line. */
  function Appends(out: seq<Line>): seq<Mutation> {
    seq(|out|, i requires 0 <= i < |out| => AppendLine(out[i]))
  }

  /** The reset at the top of each pass (App.tsx:234-240). */
  function Reset(header: seq<Line>): seq<Op<Mutation>> {
    [Set(SetLines(header)), Set(SetInput("")), Pause]
  }

  /** The unguarded commit after typing (App.tsx:249-252, 277-280). */
  function Commit(cmd: string): seq<Op<Mutation>> {
    [Pause, Set(AppendLine(Prompt(cmd))), Set(SetInput("")), Pause]
  }

  /** One round: typing, commit, output and the pause after it (App.tsx:242-268, 270-297). */
  function Round(cmd: string, out: seq<Line>): seq<Op<Mutation>> {
    Guarded(Typing(cmd)) + Commit(cmd) + Guarded(Appends(out)) + [Pause]
  }

  /** The body of `while (isMounted)` (App.tsx:233-297). */
  function Body(): seq<Op<Mutation>> {
    Reset(Header) + Round(Cmd1, Output1) + Round(Cmd2, Output2)
  }

  /** The setter calls a round is written with, in order. */
  function RoundCalls(cmd: string, out: seq<Line>): seq<Mutation> {
    Typing(cmd) + [AppendLine(Prompt(cmd)), SetInput("")] + Appends(out)
  }

  /** The setter calls a pass is written with, in order. */
  function CycleCalls(): seq<Mutation> {
    [SetLines(Header), SetInput("")] + RoundCalls(Cmd1, Output1) + RoundCalls(Cmd2, Output2)
  }

  /** The transcript of a pass that is not torn down. */
  function FinalTranscript(): seq<Line> {
    Header + [Prompt(Cmd1)] + Output1 + [Prompt(Cmd2)] + Output2
  }

  // ---------------------------------------------------------------------------------------
  // What the script is written with

  /** The reset sets the header and clears the input, then pauses once. */
  lemma ResetSets(header: seq<Line>)
    ensures Sets(Reset(header)) == [SetLines(header), SetInput("")]
    ensures Pauses(Reset(header)) == 1
    ensures NoHelpers(Reset(header))
  {
    ThreeCounts(Set(SetLines(header)), Set(SetInput("")), Pause);
    SingleCounts(Set(SetLines(header)));
    SingleCounts(Set(SetInput("")));
    SingleCounts<Mutation>(Pause);
  }

  /** The commit appends the `> cmd` line and clears the input, between two pauses. */
  lemma CommitSets(cmd: string)
    ensures Sets(Commit(cmd)) == [AppendLine(Prompt(cmd)), SetInput("")]
    ensures Pauses(Commit(cmd)) == 2
    ensures NoHelpers(Commit(cmd))
  {
    FourCounts(Pause, Set(AppendLine(Prompt(cmd))), Set(SetInput("")), Pause);
    SingleCounts<Mutation>(Pause);
    SingleCounts(Set(AppendLine(Prompt(cmd))));
    SingleCounts(Set(SetInput("")));
  }

  /** A round is written with the calls of `RoundCalls`, one pause per call but the commit's. */
  lemma RoundSets(cmd: string, out: seq<Line>)
    ensures Sets(Round(cmd, out)) == RoundCalls(cmd, out)
    ensures Pauses(Round(cmd, out)) == |cmd| + |out| + 4
    ensures NoHelpers(Round(cmd, out))
  {
    var a, b, c, d := Guarded(Typing(cmd)), Commit(cmd), Guarded(Appends(out)), [Pause];
    GuardedSets(Typing(cmd));
    GuardedSets(Appends(out));
    CommitSets(cmd);
    SingleCounts<Mutation>(Pause);
    SetsAppend(a, b);
    SetsAppend(a + b, c);
    SetsAppend(a + b + c, d);
    PausesAppend(a, b);
    PausesAppend(a + b, c);
    PausesAppend(a + b + c, d);
    NoHelpersAppend(a, b);
    NoHelpersAppend(a + b, c);
    NoHelpersAppend(a + b + c, d);
  }

  /** A pass with any header and rounds is written with the reset's calls and the rounds'. */
  lemma PassSets(header: seq<Line>, cmd1: string, out1: seq<Line>, cmd2: string, out2: seq<Line>)
    ensures Sets(Reset(header) + Round(cmd1, out1) + Round(cmd2, out2))
      == [SetLines(header), SetInput("")] + RoundCalls(cmd1, out1) + RoundCalls(cmd2, out2)
    ensures Pauses(Reset(header) + Round(cmd1, out1) + Round(cmd2, out2)) == |cmd1| + |out1| + |cmd2| + |out2| + 9
    ensures NoHelpers(Reset(header) + Round(cmd1, out1) + Round(cmd2, out2))
  {
    var a, b, c := Reset(header), Round(cmd1, out1), Round(cmd2, out2);
    ResetSets(header);
    RoundSets(cmd1, out1);
    RoundSets(cmd2, out2);
    SetsAppend(a, b);
    SetsAppend(a + b, c);
    PausesAppend(a, b);
    PausesAppend(a + b, c);
    NoHelpersAppend(a, b);
    NoHelpersAppend(a + b, c);
  }

  /** A pass is written with the calls of `CycleCalls` and 42 pauses. */
  lemma BodySets()
    ensures Sets(Body()) == CycleCalls()
    ensures Pauses(Body()) == 42
    ensures NoHelpers(Body())
  {
    PassSets(Header, Cmd1, Output1, Cmd2, Output2);
    assert |Cmd1| == 11 && |Output1| == 6 && |Cmd2| == 10 && |Output2| == 6;
  }

  /** A round never replaces the transcript. */
  lemma RoundKeepsLines(cmd: string, out: seq<Line>)
    ensures forall m :: m in RoundCalls(cmd, out) ==> !m.SetLines?
  {
    forall m | m in RoundCalls(cmd, out)
      ensures !m.SetLines?
    {
      var commit := [AppendLine(Prompt(cmd)), SetInput("")];
      if m in Typing(cmd) {
      } else if m in commit {
      } else {
        assert m in Appends(out);
      }
    }
  }

  /** The only call of a pass that replaces the transcript is its first, which sets the header. */
  lemma CycleResetsToHeader(m: Mutation)
    requires m in CycleCalls()
    ensures m.SetLines? ==> m.lines == Header
  {
    RoundKeepsLines(Cmd1, Output1);
    RoundKeepsLines(Cmd2, Output2);
    var reset := [SetLines(Header), SetInput("")];
    assert m in reset || m in RoundCalls(Cmd1, Output1) || m in RoundCalls(Cmd2, Output2);
  }

  // ---------------------------------------------------------------------------------------
  // What the calls show

  /**
   * Typing replaces the input buffer and leaves the transcript alone: after the first n + 1
   * keystrokes the buffer holds the first n characters of the command.
   */
  lemma {:induction false} ReplayTyping(v: View, cmd: string, n: nat)
    requires n <= |cmd|
    ensures Replay(Apply, v, Typing(cmd)[..n + 1]) == v.(input := cmd[..n])
  {
    var ms := Typing(cmd)[..n + 1];
    assert ms[..|ms| - 1] == Typing(cmd)[..n];
    if n > 0 {
      ReplayTyping(v, cmd, n - 1);
    } else {
      assert ms[..0] == [];
    }
  }

  /** Printing output lines appends exactly those lines to the transcript. */
  lemma {:induction false} ReplayAppends(v: View, out: seq<Line>)
    ensures Replay(Apply, v, Appends(out)) == v.(lines := v.lines + out)
  {
    if out != [] {
      var ms := Appends(out);
      assert ms[..|ms| - 1] == Appends(out[..|out| - 1]);
      ReplayAppends(v, out[..|out| - 1]);
      assert out[..|out| - 1] + [out[|out| - 1]] == out;
    } else {
      assert v.lines + out == v.lines;
    }
  }

  /**
   * A whole round leaves the transcript longer by the `> cmd` line and the output, and the
   * input buffer empty.
   */
  lemma RoundTranscript(v: View, cmd: string, out: seq<Line>)
    ensures Replay(Apply, v, RoundCalls(cmd, out)) == View(v.lines + [Prompt(cmd)] + out, "")
  {
    var commit := [AppendLine(Prompt(cmd)), SetInput("")];
    ReplayTyping(v, cmd, |cmd|);
    assert Typing(cmd)[..|cmd| + 1] == Typing(cmd) && cmd[..|cmd|] == cmd;
    var v1 := v.(input := cmd);
    ReplayAppend(Apply, v, Typing(cmd), commit);
    ReplayTwo(Apply, v1, AppendLine(Prompt(cmd)), SetInput(""));
    var v2 := View(v.lines + [Prompt(cmd)], "");
    assert Replay(Apply, v, Typing(cmd) + commit) == v2;
    ReplayAppend(Apply, v, Typing(cmd) + commit, Appends(out));
    ReplayAppends(v2, out);
    assert RoundCalls(cmd, out) == Typing(cmd) + commit + Appends(out);
  }

  /** The calls of a whole pass turn any view into the 17-line transcript with an empty input. */
  lemma CycleTranscript(v: View)
    ensures Replay(Apply, v, CycleCalls()) == View(FinalTranscript(), "")
    ensures |FinalTranscript()| == 17
  {
    var reset := [SetLines(Header), SetInput("")];
    ReplayTwo(Apply, v, SetLines(Header), SetInput(""));
    var v1 := View(Header, "");
    assert Replay(Apply, v, reset) == v1;
    ReplayAppend(Apply, v, reset, RoundCalls(Cmd1, Output1));
    RoundTranscript(v1, Cmd1, Output1);
    var v2 := View(Header + [Prompt(Cmd1)] + Output1, "");
    ReplayAppend(Apply, v, reset + RoundCalls(Cmd1, Output1), RoundCalls(Cmd2, Output2));
    RoundTranscript(v2, Cmd2, Output2);
  }

  /**
   * A pass whose pauses all resume with the view mounted makes every call of the script and
   * ends with the 17-line transcript and an empty input buffer, whatever the view before.
   */
  lemma FullPass(r: Run<Mutation>, v: View)
    requires r.mounted && !r.halted && !r.skipping && 42 <= r.budget
    ensures var e := Exec([Guard] + Body(), r);
      && e.issued == r.issued + CycleCalls() && e.mounted && e.late == r.late
      && Replay(Apply, v, e.issued[|r.issued|..]) == View(FinalTranscript(), "")
  {
    ExecAppend([Guard], Body(), r);
    Single(Guard, r);
    BodySets();
    ExecUncancelled(Body(), r);
    CycleTranscript(v);
    var e := Exec([Guard] + Body(), r);
    assert e.issued[|r.issued|..] == CycleCalls();
  }

  /** Every call of a pass after its first only appends to the transcript or sets the input. */
  lemma CycleOnlyAppends(i: nat, v: View)
    requires 1 <= i < |CycleCalls()|
    ensures v.lines <= Apply(v, CycleCalls()[i]).lines
  {
    var calls := CycleCalls();
    var later := [SetInput("")] + RoundCalls(Cmd1, Output1) + RoundCalls(Cmd2, Output2);
    assert calls == [SetLines(Header)] + later;
    assert calls[i] == later[i - 1];
    RoundKeepsLines(Cmd1, Output1);
    RoundKeepsLines(Cmd2, Output2);
    assert calls[i] in [SetInput("")] || calls[i] in RoundCalls(Cmd1, Output1) || calls[i] in RoundCalls(Cmd2, Output2);
  }

  /**
   * Within a pass, whenever the view is torn down, every call after the reset only grows the
   * transcript.
   */
  lemma PassOnlyAppends(r: Run<Mutation>, j: nat, v: View)
    requires !r.skipping
    requires |r.issued| < j < |Exec([Guard] + Body(), r).issued|
    ensures v.lines <= Apply(v, Exec([Guard] + Body(), r).issued[j]).lines
  {
    var e := Exec([Guard] + Body(), r);
    var g: seq<Op<Mutation>> := [Guard];
    Single(Guard, r);
    SetsAppend(g, Body());
    BodySets();
    assert NoHelpers(g);
    NoHelpersAppend(g, Body());
    ExecIssuesPrefix(g + Body(), r);
    assert e.issued[|r.issued|..] <= CycleCalls();
    assert e.issued[j] == e.issued[|r.issued|..][j - |r.issued|];
    CycleOnlyAppends(j - |r.issued|, v);
  }

  predicate ShowsHeader(v: View) {
    Header <= v.lines
  }

  /**
   * At every moment of every run, however many passes and whenever the view is torn down, the
   * transcript begins with the three header lines.
   */
  lemma HeaderAlwaysShown(budget: nat, passes: nat, k: nat)
    requires k <= |Loop(Body(), Start(budget), passes).issued|
    ensures ShowsHeader(Replay(Apply, Initial, Loop(Body(), Start(budget), passes).issued[..k]))
  {
    var issued := Loop(Body(), Start(budget), passes).issued;
    LoopIssuesFromBody(Body(), Start(budget), passes);
    BodySets();
    var ms := issued[..k];
    forall i, w | 0 <= i < |ms| && ShowsHeader(w)
      ensures ShowsHeader(Apply(w, ms[i]))
    {
      assert ms[i] == issued[i];
      CycleResetsToHeader(ms[i]);
    }
    ReplayKeeps(Apply, ShowsHeader, Initial, ms);
  }

  /**
   * A round torn down during the pause after its last keystroke still commits: the `> cmd` line
   * and the cleared input are set after teardown, and the guard of the output loop returns.
   */
  lemma RoundCommitAfterTeardown(cmd: string, out: seq<Line>, r: Run<Mutation>)
    requires r.mounted && !r.halted && !r.skipping && r.budget == |cmd| && out != []
    ensures Exec(Round(cmd, out), r)
      == r.(issued := r.issued + Typing(cmd) + [AppendLine(Prompt(cmd)), SetInput("")],
            late := r.late + 2, budget := 0, mounted := false, halted := true)
  {
    var a, b, c, d := Guarded(Typing(cmd)), Commit(cmd), Guarded(Appends(out)), [Pause];
    ExecGuarded(Typing(cmd), r);
    assert Typing(cmd)[..|cmd| + 1] == Typing(cmd);
    var r1 := Exec(a, r);
    ExecAppend(a, b, r);
    Four(Pause, Set(AppendLine(Prompt(cmd))), Set(SetInput("")), Pause, r1);
    var r2 := Exec(a + b, r);
    assert !r2.mounted && !r2.halted && !r2.skipping;
    GuardedStop(Appends(out), 0, r2);
    assert Appends(out)[..0] == [];
    ExecAppend(a + b, c, r);
    ExecHaltedPrefix(a + b + c, d, r);
  }

  /**
   * A pass torn down during the pause after the last keystroke of its first command ends the
   * run after the first commit, whose two calls are the only late ones.
   */
  lemma PassCommitAfterTeardown(header: seq<Line>, cmd1: string, out1: seq<Line>, cmd2: string,
                                out2: seq<Line>, r: Run<Mutation>)
    requires r.mounted && !r.halted && !r.skipping && r.budget == |cmd1| + 1 && out1 != []
    ensures Exec([Guard] + (Reset(header) + Round(cmd1, out1) + Round(cmd2, out2)), r).halted
    ensures Exec([Guard] + (Reset(header) + Round(cmd1, out1) + Round(cmd2, out2)), r).late == r.late + 2
    ensures Exec([Guard] + (Reset(header) + Round(cmd1, out1) + Round(cmd2, out2)), r).issued
      == r.issued + [SetLines(header), SetInput("")] + Typing(cmd1) + [AppendLine(Prompt(cmd1)), SetInput("")]
  {
    var g, a, b, c := [Guard], Reset(header), Round(cmd1, out1), Round(cmd2, out2);
    var r1 := Exec(g + a, r);
    assert r1 == r.(issued := r.issued + [SetLines(header), SetInput("")], budget := r.budget - 1) by {
      Single(Guard, r);
      ExecAppend(g, a, r);
      Three(Set(SetLines(header)), Set(SetInput("")), Pause, r);
    }
    var r2 := Exec(g + a + b, r);
    assert r2.halted && r2.late == r.late + 2
      && r2.issued == r.issued + [SetLines(header), SetInput("")] + Typing(cmd1) + [AppendLine(Prompt(cmd1)), SetInput("")] by {
      ExecAppend(g + a, b, r);
      RoundCommitAfterTeardown(cmd1, out1, r1);
    }
    assert Exec(g + a + b + c, r) == r2 by {
      ExecHaltedPrefix(g + a + b, c, r);
    }
    assert g + (a + b + c) == g + a + b + c;
  }

  /**
   * Teardown during the pause after the last keystroke of `npm run dev` (the last pause of the
   * typing loop, the thirteenth of the pass) ends the run after the first commit, whose two
   * calls are the only late ones.
   */
  lemma CommitAfterTeardown()
    ensures Loop(Body(), Start(12), 1).halted && Loop(Body(), Start(12), 1).late == 2
    ensures Loop(Body(), Start(12), 1).issued
      == [SetLines(Header), SetInput("")] + Typing(Cmd1) + [AppendLine(Prompt(Cmd1)), SetInput("")]
  {
    var r := Start<Mutation>(12);
    assert Loop(Body(), r, 1) == Exec([Guard] + Body(), r);
    assert |Cmd1| + 1 == 12 && Output1 != [];
    PassCommitAfterTeardown(Header, Cmd1, Output1, Cmd2, Output2, r);
  }

  // ---------------------------------------------------------------------------------------

  /** The component: its state, its `isMounted` flag, and the run its sequence has made so far. */
  class TerminalWindow {
    var lines: seq<Line>
    var inputValue: string
    var isMounted: bool
    /** How many more pauses resume before the view is torn down. */
    var pausesLeft: nat
    /** The body of `while (isMounted)`, as written. */
    ghost const script: seq<Op<Mutation>>
    ghost var run: Run<Mutation>

    ghost predicate Valid()
      reads this
    {
      isMounted == run.mounted && pausesLeft == run.budget && !run.skipping
      && View(lines, inputValue) == Replay(Apply, Initial, run.issued)
    }

    /** Mounting with the initial state; the view will be torn down after the given pauses. */
    constructor (pausesBeforeTeardown: nat)
      ensures Valid() && run == Start(pausesBeforeTeardown) && script == Body()
      ensures lines == Header && inputValue == ""
    {
      script := Body();
      lines := Header;
      inputValue := "";
      isMounted := true;
      pausesLeft := pausesBeforeTeardown;
      run := Start(pausesBeforeTeardown);
    }

    /** `await wait(ms)`: teardown can happen only here. */
    method Wait()
      requires Valid() && !run.halted
      modifies this
      ensures Valid() && run == Step(old(run), Pause)
      ensures lines == old(lines) && inputValue == old(inputValue)
    {
      if pausesLeft > 0 {
        pausesLeft := pausesLeft - 1;
      } else {
        isMounted := false;
      }
      run := Step(run, Pause);
    }

    /** `setLines(ls)` */
    method ReplaceLines(ls: seq<Line>)
      requires Valid() && !run.halted
      modifies this
      ensures Valid() && run == Step(old(run), Set(SetLines(ls)))
      ensures lines == ls && inputValue == old(inputValue)
    {
      ReplaySnoc(Apply, Initial, run.issued, SetLines(ls));
      lines := ls;
      run := Step(run, Set(SetLines(ls)));
    }

    /** `setLines(prev => [...prev, l])` */
    method PushLine(l: Line)
      requires Valid() && !run.halted
      modifies this
      ensures Valid() && run == Step(old(run), Set(AppendLine(l)))
      ensures lines == old(lines) + [l] && inputValue == old(inputValue)
    {
      ReplaySnoc(Apply, Initial, run.issued, AppendLine(l));
      lines := lines + [l];
      run := Step(run, Set(AppendLine(l)));
    }

    /** `setInputValue(s)` */
    method SetInputValue(s: string)
      requires Valid() && !run.halted
      modifies this
      ensures Valid() && run == Step(old(run), Set(SetInput(s)))
      ensures lines == old(lines) && inputValue == s
    {
      ReplaySnoc(Apply, Initial, run.issued, SetInput(s));
      inputValue := s;
      run := Step(run, Set(SetInput(s)));
    }

    /** The typing loop (App.tsx:244-248, 272-276); `true` when its guard returned. */
    method TypeCommand(cmd: string) returns (stopped: bool)
      requires Valid() && !run.halted
      modifies this
      ensures Valid() && run == Exec(Guarded(Typing(cmd)), old(run)) && stopped == run.halted
    {
      ghost var r0 := run;
      ghost var ms := Typing(cmd);
      assert ms[..0] == [];
      for i := 0 to |cmd| + 1
        invariant Valid() && !run.halted && run == Exec(Guarded(ms[..i]), r0)
      {
        if !isMounted {
          GuardedStop(ms, i, r0);
          run := run.(halted := true);
          return true;
        }
        SetInputValue(cmd[..i]);
        Wait();
        GuardedPass(ms, i, r0);
      }
      assert ms[..|cmd| + 1] == ms;
      return false;
    }

    /** An output loop (App.tsx:263-267, 291-295); `true` when its guard returned. */
    method PrintOutput(out: seq<Line>) returns (stopped: bool)
      requires Valid() && !run.halted
      modifies this
      ensures Valid() && run == Exec(Guarded(Appends(out)), old(run)) && stopped == run.halted
    {
      ghost var r0 := run;
      ghost var ms := Appends(out);
      assert ms[..0] == [];
      for i := 0 to |out|
        invariant Valid() && !run.halted && run == Exec(Guarded(ms[..i]), r0)
      {
        if !isMounted {
          GuardedStop(ms, i, r0);
          run := run.(halted := true);
          return true;
        }
        PushLine(out[i]);
        Wait();
        GuardedPass(ms, i, r0);
      }
      assert ms[..|out|] == ms;
      return false;
    }

    /** The unguarded commit after typing (App.tsx:249-252, 277-280). */
    method CommitCommand(cmd: string)
      requires Valid() && !run.halted
      modifies this
      ensures Valid() && run == Exec(Commit(cmd), old(run)) && !run.halted
    {
      Four(Pause, Set(AppendLine(Prompt(cmd))), Set(SetInput("")), Pause, run);
      Wait();
      PushLine(Prompt(cmd));
      SetInputValue("");
      Wait();
    }

    /** One round of a pass (App.tsx:242-268 and 270-297); `true` when a guard returned. */
    method PlayRound(cmd: string, out: seq<Line>) returns (stopped: bool)
      requires Valid() && !run.halted
      modifies this
      ensures Valid() && run == Exec(Round(cmd, out), old(run)) && stopped == run.halted
    {
      ghost var r0 := run;
      ghost var a, b, c, d := Guarded(Typing(cmd)), Commit(cmd), Guarded(Appends(out)), [Pause];
      stopped := TypeCommand(cmd);
      if stopped {
        ExecHaltedPrefix(a, b + c + d, r0);
        assert a + (b + c + d) == Round(cmd, out);
        return;
      }
      CommitCommand(cmd);
      ExecAppend(a, b, r0);
      stopped := PrintOutput(out);
      ExecAppend(a + b, c, r0);
      if stopped {
        ExecHaltedPrefix(a + b + c, d, r0);
        return;
      }
      Wait();
      ExecSnoc(a + b + c, Pause, r0);
    }

    /** One pass of the `while (isMounted)` body; `true` when one of its guards returned. */
    method RunPass() returns (stopped: bool)
      requires Valid() && isMounted && !run.halted && script == Body()
      modifies this
      ensures Valid() && run == Exec(script, old(run)) && stopped == run.halted
      ensures run.budget < old(run.budget) || !run.mounted
    {
      ghost var r0 := run;
      ghost var a, b, c := Reset(Header), Round(Cmd1, Output1), Round(Cmd2, Output2);
      Three(Set(SetLines(Header)), Set(SetInput("")), Pause, r0);
      ReplaceLines(Header);
      SetInputValue("");
      Wait();
      stopped := PlayRound(Cmd1, Output1);
      ExecAppend(a, b, r0);
      if stopped {
        ExecHaltedPrefix(a + b, c, r0);
        return;
      }
      stopped := PlayRound(Cmd2, Output2);
      ExecAppend(a + b, c, r0);
    }

    /** `runScenario` (App.tsx:231-299), started by the mount effect. */
    method RunScenario() returns (ghost passes: nat)
      requires Valid() && isMounted && !run.halted && script == Body()
      modifies this
      ensures Valid() && run.halted && run == Loop(script, old(run), passes)
    {
      ghost var r0 := run;
      passes := 0;
      while isMounted
        invariant Valid() && !run.halted && run == Loop(script, r0, passes)
        decreases pausesLeft, isMounted
      {
        var stopped := RunPass();
        LoopPass(script, r0, passes, run);
        passes := passes + 1;
        if stopped {
          return;
        }
      }
      LoopExit(script, r0, passes);
      run := run.(halted := true);
      passes := passes + 1;
    }
  }
}
