/**
 * The control pattern shared by the three animated demos of App.tsx (the terminal, the agent
 * chat and the autocomplete editor): an `async` loop of state-setter calls separated by
 * `await wait(ms)`, restarted by `while (isMounted)`, and guarded in places by
 * `if (!isMounted) return;`.
 *
 * Time is abstracted away: every `await wait(ms)` is a `Pause`, and a script is the sequence
 * of setter calls, pauses and guards in program order. The only thing the delays decide is
 * when the hosting view is torn down (the effect's cleanup sets `isMounted = false`); since
 * the sequence runs synchronously between awaits, that can only happen during a pause. A run
 * is therefore determined by its `budget`: the number of pauses that resume with the view
 * still mounted. The pause after those is the one during which the view is torn down.
 */
module Playback {

  datatype Op<M> =
    | Set(m: M)      // a state-setter call
    | Pause          // `await wait(ms)`
    | Guard          // `if (!isMounted) return;` in the sequence itself, or the `while (isMounted)` head
    | HelperGuard    // `if (!isMounted) return;` inside a helper: it leaves only the helper
    | HelperEnd      // the end of a helper call

  datatype Run<M> = Run(
    issued: seq<M>,  // the setter calls made so far, in order
    late: nat,       // how many of them were made after teardown
    budget: nat,     // pauses that still resume with the view mounted
    mounted: bool,   // the `isMounted` flag
    skipping: bool,  // a helper returned early; its remaining steps do not run
    halted: bool)    // the sequence has returned

  /** A fresh sequence, started by the mount effect. */
  function Start<M>(budget: nat): Run<M> {
    Run([], 0, budget, true, false, false)
  }

  /** The effect of one step of a script. */
  function Step<M>(r: Run<M>, op: Op<M>): Run<M> {
    if r.halted then r
    else if r.skipping then (if op.HelperEnd? then r.(skipping := false) else r)
    else match op
      case Set(m) => r.(issued := r.issued + [m], late := if r.mounted then r.late else r.late + 1)
      case Pause => if r.budget > 0 then r.(budget := r.budget - 1) else r.(mounted := false)
      case Guard => if r.mounted then r else r.(halted := true)
      case HelperGuard => if r.mounted then r else r.(skipping := true)
      case HelperEnd => r
  }

  /**
   * Running a script. Setter calls are only ever added, the budget only shrinks, a torn-down
   * view stays torn down, a returned sequence does nothing more, and no call is late while the
   * view is still mounted.
   */
  function Exec<M>(s: seq<Op<M>>, r: Run<M>): (e: Run<M>)
    ensures r.issued <= e.issued && r.late <= e.late && e.budget <= r.budget
    ensures e.mounted ==> r.mounted && e.late == r.late
    ensures r.halted ==> e == r
    decreases |s|
  {
    if s == [] then r else Exec(s[1..], Step(r, s[0]))
  }

  /** The setter calls of a script, in order, whether or not a run reaches them. */
  function Sets<M>(s: seq<Op<M>>): seq<M> {
    if s == [] then [] else (if s[0].Set? then [s[0].m] else []) + Sets(s[1..])
  }

  /** The number of pauses in a script. */
  function Pauses<M>(s: seq<Op<M>>): nat {
    if s == [] then 0 else (if s[0].Pause? then 1 else 0) + Pauses(s[1..])
  }

  /** A script that leaves helpers out: every guard returns from the whole sequence. */
  predicate NoHelpers<M>(s: seq<Op<M>>) {
    forall i :: 0 <= i < |s| ==> !s[i].HelperGuard? && !s[i].HelperEnd?
  }

  /** `for (const x of xs) { if (!isMounted) return; set(x); await wait(ms); }` */
  function Guarded<M>(ms: seq<M>): seq<Op<M>> {
    if ms == [] then [] else Guarded(ms[..|ms| - 1]) + [Guard, Set(ms[|ms| - 1]), Pause]
  }

  /** The loop of a helper: `for (...) { if (!isMounted) return; set(x); await wait(ms); }` */
  function HelperSteps<M>(ms: seq<M>): seq<Op<M>> {
    if ms == [] then [] else HelperSteps(ms[..|ms| - 1]) + [HelperGuard, Set(ms[|ms| - 1]), Pause]
  }

  /** A whole helper call: its loop, then the return to the caller. */
  function Helper<M>(ms: seq<M>): seq<Op<M>> {
    HelperSteps(ms) + [HelperEnd]
  }

  /** `while (isMounted) { body }`, run for the given number of passes. */
  function Loop<M>(body: seq<Op<M>>, r: Run<M>, passes: nat): Run<M> {
    if passes == 0 then r else Exec([Guard] + body, Loop(body, r, passes - 1))
  }

  /** The views a sequence of setter calls goes through, ending in the last one. */
  function Replay<V, M>(apply: (V, M) -> V, v: V, ms: seq<M>): V {
    if ms == [] then v else apply(Replay(apply, v, ms[..|ms| - 1]), ms[|ms| - 1])
  }

  // ---------------------------------------------------------------------------------------
  // Composition

  /** Running two scripts one after the other is running their concatenation. */
  lemma {:induction false} ExecAppend<M>(a: seq<Op<M>>, b: seq<Op<M>>, r: Run<M>)
    ensures Exec(a + b, r) == Exec(b, Exec(a, r))
  {
    if a != [] {
      assert (a + b)[1..] == a[1..] + b;
      ExecAppend(a[1..], b, Step(r, a[0]));
    } else {
      assert a + b == b;
    }
  }

  lemma {:induction false} SetsAppend<M>(a: seq<Op<M>>, b: seq<Op<M>>)
    ensures Sets(a + b) == Sets(a) + Sets(b)
  {
    if a != [] {
      assert (a + b)[1..] == a[1..] + b;
      SetsAppend(a[1..], b);
    } else {
      assert a + b == b;
    }
  }

  lemma {:induction false} PausesAppend<M>(a: seq<Op<M>>, b: seq<Op<M>>)
    ensures Pauses(a + b) == Pauses(a) + Pauses(b)
  {
    if a != [] {
      assert (a + b)[1..] == a[1..] + b;
      PausesAppend(a[1..], b);
    } else {
      assert a + b == b;
    }
  }

  /** Replaying two batches of setter calls one after the other is replaying both. */
  lemma {:induction false} ReplayAppend<V, M>(apply: (V, M) -> V, v: V, a: seq<M>, b: seq<M>)
    ensures Replay(apply, v, a + b) == Replay(apply, Replay(apply, v, a), b)
  {
    if b != [] {
      assert (a + b)[..|a + b| - 1] == a + b[..|b| - 1];
      ReplayAppend(apply, v, a, b[..|b| - 1]);
    } else {
      assert a + b == a;
    }
  }

  /** The setter call and the pause of one pass of a guarded loop or a helper loop. */
  lemma OnePass<M>(g: Op<M>, x: M)
    requires g.Guard? || g.HelperGuard?
    ensures Sets([g, Set(x), Pause]) == [x] && Pauses([g, Set(x), Pause]) == 1
  {
    var s := [g, Set(x), Pause];
    assert s[1..] == [Set(x), Pause] && s[1..][1..] == [Pause] && s[1..][1..][1..] == [];
    assert Sets(s[1..][1..]) == [] && Pauses(s[1..][1..]) == 1;
    assert Sets(s[1..]) == [x] && Pauses(s[1..]) == 1;
  }

  lemma {:induction false} GuardedSets<M>(ms: seq<M>)
    ensures Sets(Guarded(ms)) == ms && Pauses(Guarded(ms)) == |ms| && NoHelpers(Guarded(ms))
  {
    if ms != [] {
      var p := ms[..|ms| - 1];
      GuardedSets(p);
      OnePass(Guard, ms[|ms| - 1]);
      SetsAppend(Guarded(p), [Guard, Set(ms[|ms| - 1]), Pause]);
      PausesAppend(Guarded(p), [Guard, Set(ms[|ms| - 1]), Pause]);
      assert p + [ms[|ms| - 1]] == ms;
    }
  }

  lemma {:induction false} HelperSets<M>(ms: seq<M>)
    ensures Sets(Helper(ms)) == ms && Pauses(Helper(ms)) == |ms|
  {
    HelperStepsSets(ms);
    SetsAppend(HelperSteps(ms), [HelperEnd]);
    PausesAppend(HelperSteps(ms), [HelperEnd]);
  }

  lemma {:induction false} HelperStepsSets<M>(ms: seq<M>)
    ensures Sets(HelperSteps(ms)) == ms && Pauses(HelperSteps(ms)) == |ms|
    ensures forall i :: 0 <= i < |HelperSteps(ms)| ==> !HelperSteps(ms)[i].HelperEnd?
  {
    if ms != [] {
      var p := ms[..|ms| - 1];
      HelperStepsSets(p);
      OnePass(HelperGuard, ms[|ms| - 1]);
      SetsAppend(HelperSteps(p), [HelperGuard, Set(ms[|ms| - 1]), Pause]);
      PausesAppend(HelperSteps(p), [HelperGuard, Set(ms[|ms| - 1]), Pause]);
      assert p + [ms[|ms| - 1]] == ms;
    }
  }

  // ---------------------------------------------------------------------------------------
  // Runs that are never torn down

  /**
   * While the budget covers every pause, a script makes all of its setter calls, in order, and
   * the view stays mounted: the content never depends on timing.
   */
  lemma {:induction false} ExecUncancelled<M>(s: seq<Op<M>>, r: Run<M>)
    requires r.mounted && !r.halted && !r.skipping && Pauses(s) <= r.budget
    ensures Exec(s, r) == r.(issued := r.issued + Sets(s), budget := r.budget - Pauses(s))
  {
    if s != [] {
      var r' := Step(r, s[0]);
      ExecUncancelled(s[1..], r');
      if s[0].Set? {
        assert r' == r.(issued := r.issued + [s[0].m]);
        assert Sets(s) == [s[0].m] + Sets(s[1..]);
      } else if s[0].Pause? {
        assert Pauses(s) == 1 + Pauses(s[1..]);
        assert r' == r.(budget := r.budget - 1);
      } else {
        assert r' == r;
      }
    }
  }

  /** A script of setter calls and pauses only: nothing in it can return. */
  predicate Unguarded<M>(s: seq<Op<M>>) {
    forall i :: 0 <= i < |s| ==> s[i].Set? || s[i].Pause?
  }

  /** Two unguarded scripts concatenate to an unguarded one, which has no helper in it. */
  lemma UnguardedAppend<M>(a: seq<Op<M>>, b: seq<Op<M>>)
    requires Unguarded(a) && Unguarded(b)
    ensures Unguarded(a + b) && NoHelpers(a + b)
  {
    forall i | 0 <= i < |a + b|
      ensures (a + b)[i].Set? || (a + b)[i].Pause?
    {
      if i < |a| {
        assert (a + b)[i] == a[i];
      } else {
        assert (a + b)[i] == b[i - |a|];
      }
    }
  }

  /**
   * After teardown, a script with no guard in it still makes every one of its setter calls, and
   * each of them is late.
   */
  lemma {:induction false} ExecTornDown<M>(s: seq<Op<M>>, r: Run<M>)
    requires !r.mounted && !r.halted && !r.skipping && r.budget == 0 && Unguarded(s)
    ensures Exec(s, r) == r.(issued := r.issued + Sets(s), late := r.late + |Sets(s)|)
  {
    if s != [] {
      var r' := Step(r, s[0]);
      assert Unguarded(s[1..]) by {
        forall i | 0 <= i < |s[1..]|
          ensures s[1..][i].Set? || s[1..][i].Pause?
        {
          assert s[1..][i] == s[i + 1];
        }
      }
      ExecTornDown(s[1..], r');
    }
  }

  // ---------------------------------------------------------------------------------------
  // Guarded loops and helpers under teardown

  /** One pass of a guarded loop on a mounted, running sequence. */
  lemma GuardedStep<M>(x: M, e: Run<M>)
    requires !e.halted && !e.skipping
    ensures var f := Exec([Guard, Set(x), Pause], e);
      && f.issued == (if e.mounted then e.issued + [x] else e.issued)
      && f.late == e.late && !f.skipping
      && f.halted == !e.mounted
      && f.mounted == (e.mounted && e.budget > 0)
      && f.budget == (if e.mounted && e.budget > 0 then e.budget - 1 else e.budget)
  {
    Three(Guard, Set(x), Pause, e);
  }

  /** One pass of a helper's loop on a running sequence. */
  lemma HelperStep<M>(x: M, e: Run<M>)
    requires !e.halted && !e.skipping
    ensures var f := Exec([HelperGuard, Set(x), Pause], e);
      && f.issued == (if e.mounted then e.issued + [x] else e.issued)
      && f.late == e.late && !f.halted
      && f.skipping == !e.mounted
      && f.mounted == (e.mounted && e.budget > 0)
      && f.budget == (if e.mounted && e.budget > 0 then e.budget - 1 else e.budget)
  {
    Three(HelperGuard, Set(x), Pause, e);
  }

  /**
   * A guarded loop over `ms` with budget b makes the first min(|ms|, b + 1) calls. The view is
   * torn down during the pause of call b + 1 when there is one; the guard of the call after
   * that returns from the sequence. No call of the loop is ever late.
   */
  lemma {:induction false} ExecGuarded<M>(ms: seq<M>, r: Run<M>)
    requires r.mounted && !r.halted && !r.skipping
    ensures var k := if r.budget < |ms| then r.budget + 1 else |ms|;
      Exec(Guarded(ms), r).issued == r.issued + ms[..k]
    ensures Exec(Guarded(ms), r).late == r.late && !Exec(Guarded(ms), r).skipping
    ensures Exec(Guarded(ms), r).halted == (r.budget + 1 < |ms|)
    ensures Exec(Guarded(ms), r).mounted == (|ms| <= r.budget)
    ensures Exec(Guarded(ms), r).budget == (if |ms| <= r.budget then r.budget - |ms| else 0)
  {
    if ms == [] {
      assert ms[..0] == [];
    } else {
      var p, x := ms[..|ms| - 1], ms[|ms| - 1];
      assert p + [x] == ms;
      ExecGuarded(p, r);
      var e := Exec(Guarded(p), r);
      assert Exec(Guarded(ms), r) == Exec([Guard, Set(x), Pause], e) by {
        assert Guarded(ms) == Guarded(p) + [Guard, Set(x), Pause];
        ExecAppend(Guarded(p), [Guard, Set(x), Pause], r);
      }
      if e.halted {
        assert Exec(Guarded(ms), r) == e;
        assert ms[..r.budget + 1] == p[..r.budget + 1];
      } else {
        GuardedStep(x, e);
        if |p| <= r.budget {
          assert p[..|p|] == p;
          if |p| < r.budget {
            assert ms[..|ms|] == ms;
          } else {
            assert ms[..r.budget + 1] == ms;
          }
        } else {
          assert ms[..r.budget + 1] == p[..r.budget + 1];
        }
      }
    }
  }

  /** The loop of a helper: like a guarded loop, but a failed guard only skips the rest of it. */
  lemma {:induction false} ExecHelperSteps<M>(ms: seq<M>, r: Run<M>)
    requires !r.halted && !r.skipping
    ensures var k := if !r.mounted then 0 else if r.budget < |ms| then r.budget + 1 else |ms|;
      && Exec(HelperSteps(ms), r).issued == r.issued + ms[..k]
      && Exec(HelperSteps(ms), r).skipping == (k < |ms|)
    ensures Exec(HelperSteps(ms), r).late == r.late && !Exec(HelperSteps(ms), r).halted
    ensures Exec(HelperSteps(ms), r).mounted == (r.mounted && |ms| <= r.budget)
    ensures Exec(HelperSteps(ms), r).budget
      == (if !r.mounted then r.budget else if |ms| <= r.budget then r.budget - |ms| else 0)
  {
    if ms == [] {
      assert ms[..0] == [];
    } else {
      var p, x := ms[..|ms| - 1], ms[|ms| - 1];
      assert p + [x] == ms;
      ExecHelperSteps(p, r);
      var e := Exec(HelperSteps(p), r);
      ExecAppend(HelperSteps(p), [HelperGuard, Set(x), Pause], r);
      if e.skipping {
        var rest: seq<Op<M>> := [HelperGuard, Set(x), Pause];
        ExecSkipping(rest, e);
        if r.mounted {
          assert ms[..r.budget + 1] == p[..r.budget + 1];
        } else {
          assert ms[..0] == p[..0];
        }
      } else {
        HelperStep(x, e);
        if !r.mounted {
          assert ms[..0] == p[..0];
        } else if |p| <= r.budget {
          assert p[..|p|] == p;
          if |p| < r.budget {
            assert ms[..|ms|] == ms;
          } else {
            assert ms[..r.budget + 1] == ms;
          }
        } else {
          assert ms[..r.budget + 1] == p;
        }
      }
    }
  }

  /** A whole helper call never returns from the sequence, and leaves nothing skipped. */
  lemma ExecHelper<M>(ms: seq<M>, r: Run<M>)
    requires !r.halted && !r.skipping
    ensures var e := Exec(Helper(ms), r);
      var k := if !r.mounted then 0 else if r.budget < |ms| then r.budget + 1 else |ms|;
      && e.issued == r.issued + ms[..k] && e.late == r.late && !e.halted && !e.skipping
      && e.mounted == (r.mounted && |ms| <= r.budget)
      && e.budget == (if !r.mounted then r.budget else if |ms| <= r.budget then r.budget - |ms| else 0)
  {
    ExecHelperSteps(ms, r);
    ExecAppend(HelperSteps(ms), [HelperEnd], r);
  }

  // ---------------------------------------------------------------------------------------
  // What any run issues

  /**
   * Every setter call a run makes is one of the script's setter calls: a run never invents a
   * mutation, whenever the view is torn down.
   */
  lemma {:induction false} ExecIssuesFromScript<M>(s: seq<Op<M>>, r: Run<M>)
    ensures forall i :: |r.issued| <= i < |Exec(s, r).issued| ==> Exec(s, r).issued[i] in Sets(s)
  {
    if s != [] {
      var r' := Step(r, s[0]);
      ExecIssuesFromScript(s[1..], r');
      var e := Exec(s, r);
      assert e == Exec(s[1..], r');
      forall i | |r.issued| <= i < |e.issued|
        ensures e.issued[i] in Sets(s)
      {
        assert Sets(s) == (if s[0].Set? then [s[0].m] else []) + Sets(s[1..]);
        if i < |r'.issued| {
          assert r'.issued == r.issued + [s[0].m];
          assert e.issued[i] == r'.issued[i] == s[0].m;
        } else {
          assert e.issued[i] in Sets(s[1..]);
        }
      }
    }
  }

  /** Without helpers a run makes a prefix of the script's setter calls, in script order. */
  lemma {:induction false} ExecIssuesPrefix<M>(s: seq<Op<M>>, r: Run<M>)
    requires NoHelpers(s) && !r.skipping
    ensures var e := Exec(s, r); e.issued[|r.issued|..] <= Sets(s)
  {
    if s != [] {
      var r' := Step(r, s[0]);
      assert NoHelpers(s[1..]) by {
        forall i | 0 <= i < |s[1..]|
          ensures !s[1..][i].HelperGuard? && !s[1..][i].HelperEnd?
        {
          assert s[1..][i] == s[i + 1];
        }
      }
      assert !r'.skipping;
      ExecIssuesPrefix(s[1..], r');
      var e := Exec(s, r);
      assert e == Exec(s[1..], r');
      assert Sets(s) == (if s[0].Set? then [s[0].m] else []) + Sets(s[1..]);
      if r.halted {
        assert e.issued[|r.issued|..] == [];
      } else if s[0].Set? {
        var t := e.issued[|r'.issued|..];
        assert r'.issued == r.issued + [s[0].m];
        assert e.issued[|r.issued|] == s[0].m;
        assert e.issued[|r.issued|..] == [s[0].m] + t;
      } else {
        assert r'.issued == r.issued;
      }
    }
  }

  /** Every setter call made over any number of passes of a loop is one of its body's. */
  lemma {:induction false} LoopIssuesFromBody<M>(body: seq<Op<M>>, r: Run<M>, passes: nat)
    ensures forall i :: |r.issued| <= i < |Loop(body, r, passes).issued| ==>
      Loop(body, r, passes).issued[i] in Sets(body)
  {
    if passes > 0 {
      var mid := Loop(body, r, passes - 1);
      LoopIssuesFromBody(body, r, passes - 1);
      ExecIssuesFromScript([Guard] + body, mid);
      SetsAppend([Guard], body);
      var g: seq<Op<M>> := [Guard];
      assert g[1..] == [] && Sets(g) == [];
      var e := Loop(body, r, passes);
      assert e == Exec([Guard] + body, mid);
      assert Sets([Guard] + body) == Sets(body);
      forall i | |r.issued| <= i < |e.issued|
        ensures e.issued[i] in Sets(body)
      {
        if i < |mid.issued| {
          assert e.issued[i] == mid.issued[i];
          assert mid.issued[i] in Sets(body);
        } else {
          assert |mid.issued| <= i < |Exec([Guard] + body, mid).issued|;
          assert e.issued[i] in Sets([Guard] + body);
        }
      }
    }
  }

  /**
   * A view property that the initial view has and that every setter call of the body keeps
   * holds at every point of every run of the loop.
   */
  lemma {:induction false} ReplayKeeps<V, M>(apply: (V, M) -> V, keeps: V -> bool, v: V, ms: seq<M>)
    requires keeps(v)
    requires forall i, w :: 0 <= i < |ms| && keeps(w) ==> keeps(apply(w, ms[i]))
    ensures keeps(Replay(apply, v, ms))
  {
    if ms != [] {
      ReplayKeeps(apply, keeps, v, ms[..|ms| - 1]);
    }
  }

  // ---------------------------------------------------------------------------------------
  // One step at a time, as the imperative sequences run

  lemma ExecSnoc<M>(s: seq<Op<M>>, op: Op<M>, r: Run<M>)
    ensures Exec(s + [op], r) == Step(Exec(s, r), op)
  {
    ExecAppend(s, [op], r);
    assert [op][1..] == [];
  }

  /** Once a run has returned, the rest of the script changes nothing. */
  lemma ExecHaltedPrefix<M>(a: seq<Op<M>>, b: seq<Op<M>>, r: Run<M>)
    requires Exec(a, r).halted
    ensures Exec(a + b, r) == Exec(a, r)
  {
    ExecAppend(a, b, r);
  }

  lemma {:induction false} GuardedAppend<M>(a: seq<M>, b: seq<M>)
    ensures Guarded(a + b) == Guarded(a) + Guarded(b)
  {
    if b == [] {
      assert a + b == a;
    } else {
      assert (a + b)[..|a + b| - 1] == a + b[..|b| - 1];
      GuardedAppend(a, b[..|b| - 1]);
    }
  }

  lemma {:induction false} HelperStepsAppend<M>(a: seq<M>, b: seq<M>)
    ensures HelperSteps(a + b) == HelperSteps(a) + HelperSteps(b)
  {
    if b == [] {
      assert a + b == a;
    } else {
      assert (a + b)[..|a + b| - 1] == a + b[..|b| - 1];
      HelperStepsAppend(a, b[..|b| - 1]);
    }
  }

  /** A pass of a guarded loop whose guard finds the view mounted: its call, then its pause. */
  lemma GuardedPass<M>(ms: seq<M>, i: nat, r: Run<M>)
    requires i < |ms|
    requires Exec(Guarded(ms[..i]), r).mounted && !Exec(Guarded(ms[..i]), r).halted
    requires !Exec(Guarded(ms[..i]), r).skipping
    ensures Exec(Guarded(ms[..i + 1]), r) == Step(Step(Exec(Guarded(ms[..i]), r), Set(ms[i])), Pause)
  {
    assert ms[..i + 1][..i] == ms[..i];
    assert Guarded(ms[..i + 1]) == Guarded(ms[..i]) + [Guard, Set(ms[i]), Pause];
    var e := Exec(Guarded(ms[..i]), r);
    ExecAppend(Guarded(ms[..i]), [Guard, Set(ms[i]), Pause], r);
    Three(Guard, Set(ms[i]), Pause, e);
  }

  /** A guarded loop whose guard finds the view torn down returns from the sequence. */
  lemma GuardedStop<M>(ms: seq<M>, i: nat, r: Run<M>)
    requires i < |ms|
    requires !Exec(Guarded(ms[..i]), r).mounted && !Exec(Guarded(ms[..i]), r).halted
    requires !Exec(Guarded(ms[..i]), r).skipping
    ensures Exec(Guarded(ms), r) == Exec(Guarded(ms[..i]), r).(halted := true)
  {
    assert ms == ms[..i + 1] + ms[i + 1..];
    GuardedAppend(ms[..i + 1], ms[i + 1..]);
    assert ms[..i + 1][..i] == ms[..i];
    var head := Guarded(ms[..i + 1]);
    assert head == Guarded(ms[..i]) + [Guard, Set(ms[i]), Pause];
    var e := Exec(Guarded(ms[..i]), r);
    ExecAppend(Guarded(ms[..i]), [Guard, Set(ms[i]), Pause], r);
    Three(Guard, Set(ms[i]), Pause, e);
    ExecAppend(head, Guarded(ms[i + 1..]), r);
  }

  /** A pass of a helper loop whose guard finds the view mounted. */
  lemma HelperPass<M>(ms: seq<M>, i: nat, r: Run<M>)
    requires i < |ms|
    requires Exec(HelperSteps(ms[..i]), r).mounted && !Exec(HelperSteps(ms[..i]), r).halted
    requires !Exec(HelperSteps(ms[..i]), r).skipping
    ensures Exec(HelperSteps(ms[..i + 1]), r)
      == Step(Step(Exec(HelperSteps(ms[..i]), r), Set(ms[i])), Pause)
  {
    assert ms[..i + 1][..i] == ms[..i];
    assert HelperSteps(ms[..i + 1]) == HelperSteps(ms[..i]) + [HelperGuard, Set(ms[i]), Pause];
    var e := Exec(HelperSteps(ms[..i]), r);
    ExecAppend(HelperSteps(ms[..i]), [HelperGuard, Set(ms[i]), Pause], r);
    Three(HelperGuard, Set(ms[i]), Pause, e);
  }

  /** While a helper is skipping, nothing before its end has any effect. */
  lemma {:induction false} ExecSkipping<M>(s: seq<Op<M>>, r: Run<M>)
    requires r.skipping
    requires forall i :: 0 <= i < |s| ==> !s[i].HelperEnd?
    ensures Exec(s, r) == r
  {
    if s != [] {
      ExecSkipping(s[1..], r);
    }
  }

  /** A helper whose guard finds the view torn down returns to its caller, changing nothing. */
  lemma HelperStop<M>(ms: seq<M>, i: nat, r: Run<M>)
    requires i < |ms|
    requires !Exec(HelperSteps(ms[..i]), r).mounted && !Exec(HelperSteps(ms[..i]), r).halted
    requires !Exec(HelperSteps(ms[..i]), r).skipping
    ensures Exec(Helper(ms), r) == Exec(HelperSteps(ms[..i]), r)
  {
    var e := Exec(HelperSteps(ms[..i]), r);
    assert ms == ms[..i + 1] + ms[i + 1..];
    HelperStepsAppend(ms[..i + 1], ms[i + 1..]);
    assert ms[..i + 1][..i] == ms[..i];
    var head := HelperSteps(ms[..i + 1]);
    var tail := HelperSteps(ms[i + 1..]);
    assert head == HelperSteps(ms[..i]) + [HelperGuard, Set(ms[i]), Pause];
    ExecAppend(HelperSteps(ms[..i]), [HelperGuard, Set(ms[i]), Pause], r);
    Three(HelperGuard, Set(ms[i]), Pause, e);
    assert Exec(head, r) == e.(skipping := true);
    assert Helper(ms) == head + (tail + [HelperEnd]);
    ExecAppend(head, tail + [HelperEnd], r);
    ExecSnoc(tail, HelperEnd, e.(skipping := true));
    HelperStepsSets(ms[i + 1..]);
    ExecSkipping(tail, e.(skipping := true));
  }

  /** A helper whose loop ran to its end returns to its caller. */
  lemma HelperDone<M>(ms: seq<M>, r: Run<M>)
    requires !Exec(HelperSteps(ms), r).halted && !Exec(HelperSteps(ms), r).skipping
    ensures Exec(Helper(ms), r) == Exec(HelperSteps(ms), r)
  {
    ExecSnoc(HelperSteps(ms), HelperEnd, r);
  }

  // ---------------------------------------------------------------------------------------
  // Short scripts written out as displays
  //
  // Proof bookkeeping with no counterpart in the source: one-step unfoldings of Exec, Sets and
  // Pauses over short displays and concatenations, so that the scripts above can be counted
  // without the verifier unfolding their literal texts.

  /** What one step contributes to the setter calls and to the pauses of a script. */
  lemma Single<M>(op: Op<M>, r: Run<M>)
    ensures Exec([op], r) == Step(r, op)
  {
    assert [op][1..] == [];
  }

  /** A one-step script makes the step's setter call, if any, and its pause, if any. */
  lemma SingleCounts<M>(op: Op<M>)
    ensures Sets([op]) == (if op.Set? then [op.m] else [])
    ensures Pauses([op]) == (if op.Pause? then 1 else 0)
  {
    assert [op][1..] == [];
  }

  /** The setter calls and pauses of two scripts written one after the other. */
  lemma CountsAppend<M>(a: seq<Op<M>>, b: seq<Op<M>>)
    ensures Sets(a + b) == Sets(a) + Sets(b) && Pauses(a + b) == Pauses(a) + Pauses(b)
  {
    SetsAppend(a, b);
    PausesAppend(a, b);
  }

  /** The same for three scripts in a row. */
  lemma CountsOfThree<M>(a: seq<Op<M>>, b: seq<Op<M>>, c: seq<Op<M>>)
    ensures Sets(a + b + c) == Sets(a) + Sets(b) + Sets(c)
    ensures Pauses(a + b + c) == Pauses(a) + Pauses(b) + Pauses(c)
  {
    CountsAppend(a, b);
    CountsAppend(a + b, c);
  }

  /** The same for five scripts in a row. */
  lemma CountsOfFive<M>(a: seq<Op<M>>, b: seq<Op<M>>, c: seq<Op<M>>, d: seq<Op<M>>, e: seq<Op<M>>)
    ensures Sets(a + b + c + d + e) == Sets(a) + Sets(b) + Sets(c) + Sets(d) + Sets(e)
    ensures Pauses(a + b + c + d + e) == Pauses(a) + Pauses(b) + Pauses(c) + Pauses(d) + Pauses(e)
  {
    CountsAppend(a, b);
    CountsAppend(a + b, c);
    CountsAppend(a + b + c, d);
    CountsAppend(a + b + c + d, e);
  }

  /** The same for six scripts in a row. */
  lemma CountsOfSix<M>(a: seq<Op<M>>, b: seq<Op<M>>, c: seq<Op<M>>, d: seq<Op<M>>, e: seq<Op<M>>,
                       f: seq<Op<M>>)
    ensures Sets(a + b + c + d + e + f) == Sets(a) + Sets(b) + Sets(c) + Sets(d) + Sets(e) + Sets(f)
    ensures Pauses(a + b + c + d + e + f)
      == Pauses(a) + Pauses(b) + Pauses(c) + Pauses(d) + Pauses(e) + Pauses(f)
  {
    CountsOfFive(a, b, c, d, e);
    CountsAppend(a + b + c + d + e, f);
  }

  /** What a two-step script is written with. */
  lemma TwoCounts<M>(a: Op<M>, b: Op<M>)
    ensures Sets([a, b]) == Sets([a]) + Sets([b])
    ensures Pauses([a, b]) == Pauses([a]) + Pauses([b])
  {
    assert [a, b] == [a] + [b];
    CountsAppend([a], [b]);
  }

  /** A three-step script runs its steps in order. */
  lemma Three<M>(a: Op<M>, b: Op<M>, c: Op<M>, r: Run<M>)
    ensures Exec([a, b, c], r) == Step(Step(Step(r, a), b), c)
  {
    assert [a, b, c] == [a] + [b] + [c];
    ExecAppend([a] + [b], [c], r);
    ExecAppend([a], [b], r);
    Single(a, r);
    Single(b, Step(r, a));
    Single(c, Step(Step(r, a), b));
  }

  /** A three-step script makes its steps' setter calls and pauses, in order. */
  lemma ThreeCounts<M>(a: Op<M>, b: Op<M>, c: Op<M>)
    ensures Sets([a, b, c]) == Sets([a]) + Sets([b]) + Sets([c])
    ensures Pauses([a, b, c]) == Pauses([a]) + Pauses([b]) + Pauses([c])
  {
    assert [a, b, c] == [a] + [b] + [c];
    SetsAppend([a] + [b], [c]);
    SetsAppend([a], [b]);
    PausesAppend([a] + [b], [c]);
    PausesAppend([a], [b]);
  }

  /** A four-step script runs its steps in order. */
  lemma Four<M>(a: Op<M>, b: Op<M>, c: Op<M>, d: Op<M>, r: Run<M>)
    ensures Exec([a, b, c, d], r) == Step(Step(Step(Step(r, a), b), c), d)
  {
    assert [a, b, c, d] == [a, b, c] + [d];
    Three(a, b, c, r);
    ExecAppend([a, b, c], [d], r);
    Single(d, Exec([a, b, c], r));
  }

  /** A four-step script makes its steps' setter calls and pauses, in order. */
  lemma FourCounts<M>(a: Op<M>, b: Op<M>, c: Op<M>, d: Op<M>)
    ensures Sets([a, b, c, d]) == Sets([a]) + Sets([b]) + Sets([c]) + Sets([d])
    ensures Pauses([a, b, c, d]) == Pauses([a]) + Pauses([b]) + Pauses([c]) + Pauses([d])
  {
    assert [a, b, c, d] == [a, b, c] + [d];
    ThreeCounts(a, b, c);
    SetsAppend([a, b, c], [d]);
    PausesAppend([a, b, c], [d]);
  }

  /** Four scripts in a row run one after the other. */
  lemma ExecFour<M>(a: seq<Op<M>>, b: seq<Op<M>>, c: seq<Op<M>>, d: seq<Op<M>>, r: Run<M>)
    ensures Exec(a + b + c + d, r) == Exec(d, Exec(c, Exec(b, Exec(a, r))))
  {
    ExecAppend(a + b + c, d, r);
    ExecAppend(a + b, c, r);
    ExecAppend(a, b, r);
  }

  /** Two scripts without helpers concatenate to one without helpers. */
  lemma NoHelpersAppend<M>(a: seq<Op<M>>, b: seq<Op<M>>)
    requires NoHelpers(a) && NoHelpers(b)
    ensures NoHelpers(a + b)
  {
    forall i | 0 <= i < |a + b|
      ensures !(a + b)[i].HelperGuard? && !(a + b)[i].HelperEnd?
    {
      if i < |a| {
        assert (a + b)[i] == a[i];
      } else {
        assert (a + b)[i] == b[i - |a|];
      }
    }
  }

  /** Replaying one more call applies it to the view so far. */
  lemma ReplaySnoc<V, M>(apply: (V, M) -> V, v: V, ms: seq<M>, m: M)
    ensures Replay(apply, v, ms + [m]) == apply(Replay(apply, v, ms), m)
  {
    assert (ms + [m])[..|ms|] == ms;
  }

  /** Replaying two calls applies them in order. */
  lemma ReplayTwo<V, M>(apply: (V, M) -> V, v: V, a: M, b: M)
    ensures Replay(apply, v, [a, b]) == apply(apply(v, a), b)
  {
    assert [a][..0] == [];
    assert Replay(apply, v, [a]) == apply(v, a);
    assert [a, b][..1] == [a];
  }

  /** One more pass of `while (isMounted)`: its head, then the body. */
  lemma LoopNext<M>(body: seq<Op<M>>, r: Run<M>, passes: nat)
    ensures Loop(body, r, passes + 1) == Exec(body, Step(Loop(body, r, passes), Guard))
  {
    ExecAppend([Guard], body, Loop(body, r, passes));
    Single(Guard, Loop(body, r, passes));
  }

  /**
   * Over any number of passes the loop only adds setter calls, never regains budget or
   * remounts, and makes no late call while the view is still mounted.
   */
  lemma {:induction false} LoopGrows<M>(body: seq<Op<M>>, r: Run<M>, passes: nat)
    ensures r.issued <= Loop(body, r, passes).issued && r.late <= Loop(body, r, passes).late
    ensures Loop(body, r, passes).budget <= r.budget
    ensures Loop(body, r, passes).mounted ==> r.mounted && Loop(body, r, passes).late == r.late
  {
    if passes > 0 {
      LoopGrows(body, r, passes - 1);
    }
  }

  /** While the view is mounted, the loop's head lets the next pass of the body run. */
  lemma LoopPass<M>(body: seq<Op<M>>, r: Run<M>, passes: nat, next: Run<M>)
    requires Loop(body, r, passes).mounted && next == Exec(body, Loop(body, r, passes))
    ensures Loop(body, r, passes + 1) == next
  {
    LoopNext(body, r, passes);
  }

  /** Once the view is torn down, the loop's head returns. */
  lemma LoopExit<M>(body: seq<Op<M>>, r: Run<M>, passes: nat)
    requires !Loop(body, r, passes).mounted && !Loop(body, r, passes).halted
    requires !Loop(body, r, passes).skipping
    ensures Loop(body, r, passes + 1) == Loop(body, r, passes).(halted := true)
  {
    LoopNext(body, r, passes);
  }
}
