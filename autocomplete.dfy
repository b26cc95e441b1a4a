/**
 * The autocomplete demo (`AutocompleteSection`, App.tsx:714-803): an editor buffer that starts
 * as a fixed file header, grows one character at a time through the `type` helper, and twice
 * shows a greyed-out suggestion (the ghost text) with a Tab hint that is then accepted whole.
 *
 * Unlike the other demos, the only guard inside a pass is the one in `type`: it returns from
 * the helper, not from the sequence, so once the view is torn down the suggestion and the
 * acceptance calls of the current pass are still made.
 */
module Autocomplete {
  import opened Playback

  /** The setter calls of `sequence`; `AppendCode` is `setDisplayedCode(prev => prev + text)`. */
  datatype Mutation =
    | SetCode(code: string)
    | AppendCode(text: string)
    | SetGhost(text: string)
    | SetShowTab(on: bool)
    | SetPressed(on: bool)

  /** `displayedCode`, `ghostText`, `showTabKey` and `tabPressed`. */
  datatype View = View(code: string, ghostText: string, showTab: bool, pressed: bool)

  /** One suggestion round: type two snippets, then offer a suggestion and accept it. */
  datatype Completion = Completion(first: string, second: string, suggestion: string)

  const StartCode: string :=
    "\"use client\";\n\nimport React, { useState } from \"react\";\n"
    + "import { useQuery } from \"@tanstack/react-query\";\n\n"
    + "export default function SupportChat() {\n  const [input, setInput] = useState(\"\");\n  "

  /** The query hook (App.tsx:754-772): typed, then its `queryFn` line is suggested. */
  const QueryHook := Completion(
    "const { data: messages } = useQuery({",
    "\n    queryKey: ['messages'],",
    "\n    queryFn: () => fetch('/api/messages').then(res => res.json())")

  /** The end of the hook and the JSX (App.tsx:774-794): the whole JSX is suggested. */
  const JsxReturn := Completion(
    "\n  });\n",
    "\n  return (",
    "\n    <div className=\"p-4 flex flex-col h-full\">\n"
    + "      {messages.map(msg => <div key={msg.id}>{msg.text}</div>)}\n    </div>\n  );")

  /** The closing brace typed last (App.tsx:796). */
  const Closing := "\n}"

  /** The view when the component mounts. */
  const Initial := View(StartCode, "", false, false)

  function Apply(v: View, m: Mutation): (w: View)
    ensures m.AppendCode? ==> w == v.(code := v.code + m.text)
    ensures !m.SetCode? && !m.AppendCode? ==> w.code == v.code
    ensures !m.SetGhost? ==> w.ghostText == v.ghostText
  {
    match m
    case SetCode(c) => v.(code := c)
    case AppendCode(t) => v.(code := v.code + t)
    case SetGhost(g) => v.(ghostText := g)
    case SetShowTab(b) => v.(showTab := b)
    case SetPressed(b) => v.(pressed := b)
  }

  /** The calls `type(text)` makes: one `prev + char` per character. */
  function Chars(t: string): seq<Mutation> {
    seq(|t|, i requires 0 <= i < |t| => AppendCode([t[i]]))
  }

  /** `await type(text)` (App.tsx:738-744): a helper whose guard returns only from itself. */
  function Type(t: string): seq<Op<Mutation>> {
    Helper(Chars(t))
  }

  /** The reset at the top of each pass (App.tsx:747-752). */
  function Reset(start: string): seq<Op<Mutation>> {
    [Set(SetCode(start)), Set(SetGhost("")), Set(SetShowTab(false)), Set(SetPressed(false)), Pause]
  }

  /** Showing the suggestion and the Tab hint (App.tsx:762-764, 782-784). */
  function Offer(g: string): seq<Op<Mutation>> {
    [Set(SetGhost(g)), Set(SetShowTab(true)), Pause]
  }

  /** "Pressing" Tab (App.tsx:767-768, 787-788). */
  function Press(): seq<Op<Mutation>> {
    [Set(SetPressed(true)), Pause]
  }

  /** Taking the suggestion into the buffer (App.tsx:769-772, 789-792). */
  function Take(g: string): seq<Op<Mutation>> {
    [Set(SetGhost("")), Set(AppendCode(g)), Set(SetShowTab(false)), Set(SetPressed(false))]
  }

  /** The whole acceptance: the Tab press, its pause, and taking the suggestion. */
  function Accept(g: string): seq<Op<Mutation>> {
    Press() + Take(g)
  }

  /** One suggestion round of a pass, with the pause after each typed snippet. */
  function Round(c: Completion): seq<Op<Mutation>> {
    Type(c.first) + [Pause] + Type(c.second) + [Pause] + Offer(c.suggestion) + Accept(c.suggestion)
  }

  /** A pass: reset, two suggestion rounds, the closing snippet and the final pause. */
  function Pass(start: string, c1: Completion, c2: Completion, last: string): seq<Op<Mutation>> {
    Reset(start) + Round(c1) + Round(c2) + Type(last) + [Pause]
  }

  /** The body of `while (isMounted)` (App.tsx:746-799). */
  function Body(): seq<Op<Mutation>> {
    Pass(StartCode, QueryHook, JsxReturn, Closing)
  }

  function ResetCalls(start: string): seq<Mutation> {
    [SetCode(start), SetGhost(""), SetShowTab(false), SetPressed(false)]
  }

  function OfferCalls(g: string): seq<Mutation> {
    [SetGhost(g), SetShowTab(true)]
  }

  function AcceptCalls(g: string): seq<Mutation> {
    [SetPressed(true), SetGhost(""), AppendCode(g), SetShowTab(false), SetPressed(false)]
  }

  /** The setter calls a round is written with, in order. */
  function RoundCalls(c: Completion): seq<Mutation> {
    Chars(c.first) + Chars(c.second) + OfferCalls(c.suggestion) + AcceptCalls(c.suggestion)
  }

  /** The setter calls a pass is written with, in order. */
  function PassCalls(start: string, c1: Completion, c2: Completion, last: string): seq<Mutation> {
    ResetCalls(start) + RoundCalls(c1) + RoundCalls(c2) + Chars(last)
  }

  /** The code a round adds to the buffer when it runs to its end. */
  function RoundText(c: Completion): string {
    c.first + c.second + c.suggestion
  }

  /** How many characters `type` appends when it starts in run r: all of them unless torn down. */
  function Typed(r: Run<Mutation>, n: nat): nat {
    if !r.mounted then 0 else if r.budget < n then r.budget + 1 else n
  }

  // ---------------------------------------------------------------------------------------
  // What the script is written with

  lemma TypeSets(t: string)
    ensures Sets(Type(t)) == Chars(t) && Pauses(Type(t)) == |t|
  {
    HelperSets(Chars(t));
  }

  lemma OfferSets(g: string)
    ensures Sets(Offer(g)) == OfferCalls(g) && Pauses(Offer(g)) == 1
    ensures Unguarded(Offer(g))
  {
    ThreeCounts(Set(SetGhost(g)), Set(SetShowTab(true)), Pause);
    SingleCounts(Set(SetGhost(g)));
    SingleCounts(Set(SetShowTab(true)));
    SingleCounts<Mutation>(Pause);
  }

  lemma PressSets()
    ensures Sets(Press()) == [SetPressed(true)] && Pauses(Press()) == 1 && Unguarded(Press())
  {
    TwoCounts(Set(SetPressed(true)), Pause);
    SingleCounts(Set(SetPressed(true)));
    SingleCounts<Mutation>(Pause);
  }

  lemma TakeSets(g: string)
    ensures Sets(Take(g)) == [SetGhost(""), AppendCode(g), SetShowTab(false), SetPressed(false)]
    ensures Pauses(Take(g)) == 0 && Unguarded(Take(g))
  {
    FourCounts(Set(SetGhost("")), Set(AppendCode(g)), Set(SetShowTab(false)), Set(SetPressed(false)));
    SingleCounts(Set(SetGhost("")));
    SingleCounts(Set(AppendCode(g)));
    SingleCounts(Set(SetShowTab(false)));
    SingleCounts(Set(SetPressed(false)));
  }

  lemma AcceptSets(g: string)
    ensures Sets(Accept(g)) == AcceptCalls(g) && Pauses(Accept(g)) == 1
    ensures Unguarded(Accept(g))
  {
    CountsAppend(Press(), Take(g));
    PressSets();
    TakeSets(g);
    UnguardedAppend(Press(), Take(g));
  }

  /** A suggestion offered and accepted is written with the offer's calls, then the acceptance's. */
  lemma SuggestionSets(g: string)
    ensures Sets(Offer(g) + Accept(g)) == OfferCalls(g) + AcceptCalls(g)
    ensures Unguarded(Offer(g) + Accept(g))
  {
    OfferSets(g);
    AcceptSets(g);
    CountsAppend(Offer(g), Accept(g));
    UnguardedAppend(Offer(g), Accept(g));
  }

  /** A round is written with the calls of `RoundCalls`, one pause per typed character and four more. */
  lemma RoundSets(c: Completion)
    ensures Sets(Round(c)) == RoundCalls(c)
    ensures Pauses(Round(c)) == |c.first| + |c.second| + 4
  {
    var a, p, b, o, x := Type(c.first), [Pause], Type(c.second), Offer(c.suggestion), Accept(c.suggestion);
    CountsOfSix(a, p, b, p, o, x);
    TypeSets(c.first);
    TypeSets(c.second);
    OfferSets(c.suggestion);
    AcceptSets(c.suggestion);
    assert Sets(p) == [] && Pauses(p) == 1 by {
      SingleCounts<Mutation>(Pause);
    }
  }

  lemma ResetSets(start: string)
    ensures Sets(Reset(start)) == ResetCalls(start) && Pauses(Reset(start)) == 1
  {
    var a, b, c, d := Set(SetCode(start)), Set(SetGhost("")), Set(SetShowTab(false)), Set(SetPressed(false));
    var f, z := [a, b, c, d], [Pause];
    CountsAppend(f, z);
    assert Reset(start) == f + z;
    assert Sets(f) == ResetCalls(start) && Pauses(f) == 0 by {
      FourCounts(a, b, c, d);
      SingleCounts(a);
      SingleCounts(b);
      SingleCounts(c);
      SingleCounts(d);
    }
    assert Sets(z) == [] && Pauses(z) == 1 by {
      SingleCounts<Mutation>(Pause);
    }
  }

  /** A pass is written with the calls of `PassCalls`, one pause per typed character and ten more. */
  lemma PassSets(start: string, c1: Completion, c2: Completion, last: string)
    ensures Sets(Pass(start, c1, c2, last)) == PassCalls(start, c1, c2, last)
    ensures Pauses(Pass(start, c1, c2, last))
      == |c1.first| + |c1.second| + |c2.first| + |c2.second| + |last| + 10
  {
    var a, b, c, d, e := Reset(start), Round(c1), Round(c2), Type(last), [Pause];
    CountsOfFive(a, b, c, d, e);
    ResetSets(start);
    RoundSets(c1);
    RoundSets(c2);
    TypeSets(last);
    assert Sets(e) == [] && Pauses(e) == 1 by {
      SingleCounts<Mutation>(Pause);
    }
  }

  // ---------------------------------------------------------------------------------------
  // What the calls show

  /** The first n characters typed extend the buffer by the first n characters of the text. */
  lemma {:induction false} ReplayChars(v: View, t: string, n: nat)
    requires n <= |t|
    ensures Replay(Apply, v, Chars(t)[..n]) == v.(code := v.code + t[..n])
  {
    if n == 0 {
      assert Chars(t)[..0] == [];
      assert v.code + t[..0] == v.code;
    } else {
      ReplayChars(v, t, n - 1);
      assert Chars(t)[..n][..n - 1] == Chars(t)[..n - 1];
      assert t[..n] == t[..n - 1] + [t[n - 1]];
    }
  }

  /** A completed `type(text)` appends exactly the text and changes nothing else. */
  lemma TypedText(v: View, t: string)
    ensures Replay(Apply, v, Chars(t)) == v.(code := v.code + t)
  {
    ReplayChars(v, t, |t|);
    assert Chars(t)[..|t|] == Chars(t) && t[..|t|] == t;
  }

  /**
   * `type(text)` appends the first `Typed` characters of the text, all of them when the view
   * stays mounted throughout, and then returns to the sequence, which goes on whether or not
   * the view was torn down.
   */
  lemma TypeAppends(t: string, r: Run<Mutation>, v: View)
    requires !r.halted && !r.skipping
    ensures Typed(r, |t|) <= |t|
    ensures Exec(Type(t), r).issued == r.issued + Chars(t)[..Typed(r, |t|)]
    ensures Replay(Apply, v, Exec(Type(t), r).issued[|r.issued|..]) == v.(code := v.code + t[..Typed(r, |t|)])
    ensures r.mounted && |t| <= r.budget ==> Typed(r, |t|) == |t| && Exec(Type(t), r).mounted
    ensures !Exec(Type(t), r).halted && !Exec(Type(t), r).skipping
  {
    var e := Exec(Type(t), r);
    ExecHelper(Chars(t), r);
    assert e.issued[|r.issued|..] == Chars(t)[..Typed(r, |t|)];
    ReplayChars(v, t, Typed(r, |t|));
  }

  /** The same, read against the whole record of calls since the view was first drawn. */
  lemma TypedView(t: string, r: Run<Mutation>, init: View, v: View)
    requires !r.halted && !r.skipping && Replay(Apply, init, r.issued) == v
    ensures Replay(Apply, init, Exec(Type(t), r).issued) == v.(code := v.code + t[..Typed(r, |t|)])
  {
    var e := Exec(Type(t), r);
    TypeAppends(t, r, v);
    assert e.issued == r.issued + e.issued[|r.issued|..];
    ReplayAppend(Apply, init, r.issued, e.issued[|r.issued|..]);
  }

  /** Showing a suggestion sets the ghost text and the Tab hint and leaves the code alone. */
  lemma Offered(v: View, g: string)
    ensures Replay(Apply, v, OfferCalls(g)) == v.(ghostText := g, showTab := true)
  {
    ReplayTwo(Apply, v, SetGhost(g), SetShowTab(true));
  }

  /**
   * Accepting a suggestion appends exactly the suggestion to the code and clears the ghost
   * text, the Tab hint and the pressed flag, whatever the view before.
   */
  lemma Accepted(v: View, g: string)
    ensures Replay(Apply, v, AcceptCalls(g)) == View(v.code + g, "", false, false)
  {
    var a, b, c, d, e := SetPressed(true), SetGhost(""), AppendCode(g), SetShowTab(false), SetPressed(false);
    ReplayTwo(Apply, v, a, b);
    ReplaySnoc(Apply, v, [a, b], c);
    assert [a, b] + [c] == [a, b, c];
    ReplaySnoc(Apply, v, [a, b, c], d);
    assert [a, b, c] + [d] == [a, b, c, d];
    ReplaySnoc(Apply, v, [a, b, c, d], e);
    assert [a, b, c, d] + [e] == AcceptCalls(g);
  }

  /** Offering and then accepting a suggestion appends it and leaves no ghost text or hint. */
  lemma Suggested(v: View, g: string)
    ensures Replay(Apply, v, OfferCalls(g) + AcceptCalls(g)) == View(v.code + g, "", false, false)
  {
    ReplayAppend(Apply, v, OfferCalls(g), AcceptCalls(g));
    Offered(v, g);
    Accepted(v.(ghostText := g, showTab := true), g);
  }

  /** A whole round appends its two snippets and its suggestion, and clears the rest. */
  lemma RoundCode(v: View, c: Completion)
    ensures Replay(Apply, v, RoundCalls(c)) == View(v.code + RoundText(c), "", false, false)
  {
    var a, b, s := Chars(c.first), Chars(c.second), OfferCalls(c.suggestion) + AcceptCalls(c.suggestion);
    var v2 := v.(code := v.code + c.first + c.second);
    assert Replay(Apply, v, a + b) == v2 by {
      ReplayAppend(Apply, v, a, b);
      TypedText(v, c.first);
      TypedText(v.(code := v.code + c.first), c.second);
    }
    assert Replay(Apply, v, RoundCalls(c)) == Replay(Apply, v2, s) by {
      assert RoundCalls(c) == (a + b) + s;
      ReplayAppend(Apply, v, a + b, s);
    }
    Suggested(v2, c.suggestion);
    assert v2.code + c.suggestion == v.code + RoundText(c);
  }

  /** The reset puts back the given code and clears everything else, whatever the view before. */
  lemma ResetCode(v: View, start: string)
    ensures Replay(Apply, v, ResetCalls(start)) == View(start, "", false, false)
  {
    var a := ResetCalls(start);
    ReplayTwo(Apply, v, SetCode(start), SetGhost(""));
    ReplaySnoc(Apply, v, a[..2], SetShowTab(false));
    assert a[..2] + [SetShowTab(false)] == a[..3];
    ReplaySnoc(Apply, v, a[..3], SetPressed(false));
    assert a[..3] + [SetPressed(false)] == a;
  }

  /** The calls of a whole pass leave the start code, both rounds and the last snippet. */
  lemma PassCode(v: View, start: string, c1: Completion, c2: Completion, last: string)
    ensures Replay(Apply, v, PassCalls(start, c1, c2, last))
      == View(start + RoundText(c1) + RoundText(c2) + last, "", false, false)
  {
    var a, b, c, d := ResetCalls(start), RoundCalls(c1), RoundCalls(c2), Chars(last);
    var w := View(start, "", false, false);
    ResetCode(v, start);
    ReplayAppend(Apply, v, a, b);
    RoundCode(w, c1);
    var w1 := View(start + RoundText(c1), "", false, false);
    ReplayAppend(Apply, v, a + b, c);
    RoundCode(w1, c2);
    var w2 := View(start + RoundText(c1) + RoundText(c2), "", false, false);
    ReplayAppend(Apply, v, a + b + c, d);
    TypedText(w2, last);
  }

  /** The code of a completed pass of the demo. */
  function FinalCode(): string {
    StartCode + RoundText(QueryHook) + RoundText(JsxReturn) + Closing
  }

  /**
   * A pass whose pauses all resume with the view mounted makes every call of the script and
   * ends with the whole file typed, and no ghost text, hint or pressed key showing.
   */
  lemma FullPass(start: string, c1: Completion, c2: Completion, last: string, r: Run<Mutation>, v: View)
    requires r.mounted && !r.halted && !r.skipping
    requires |c1.first| + |c1.second| + |c2.first| + |c2.second| + |last| + 10 <= r.budget
    ensures var e := Exec([Guard] + Pass(start, c1, c2, last), r);
      && e.issued == r.issued + PassCalls(start, c1, c2, last) && e.mounted && e.late == r.late
      && Replay(Apply, v, e.issued[|r.issued|..])
        == View(start + RoundText(c1) + RoundText(c2) + last, "", false, false)
  {
    var s := Pass(start, c1, c2, last);
    var e := Exec([Guard] + s, r);
    assert e == r.(issued := r.issued + PassCalls(start, c1, c2, last), budget := r.budget - Pauses(s)) by {
      ExecAppend([Guard], s, r);
      Single(Guard, r);
      PassSets(start, c1, c2, last);
      ExecUncancelled(s, r);
    }
    assert e.issued[|r.issued|..] == PassCalls(start, c1, c2, last);
    PassCode(v, start, c1, c2, last);
  }

  /**
   * A pass of the demo that is not torn down leaves the whole file in the editor: the start
   * code, the `useQuery` hook, the JSX return and the closing brace.
   */
  lemma FileTyped(r: Run<Mutation>, v: View)
    requires r.mounted && !r.halted && !r.skipping
    requires |QueryHook.first| + |QueryHook.second| + |JsxReturn.first| + |JsxReturn.second| + |Closing| + 10
      <= r.budget
    ensures Exec([Guard] + Body(), r).mounted
    ensures Replay(Apply, v, Exec([Guard] + Body(), r).issued[|r.issued|..]) == View(FinalCode(), "", false, false)
  {
    FullPass(StartCode, QueryHook, JsxReturn, Closing, r, v);
  }

  // ---------------------------------------------------------------------------------------
  // The start code stays in place

  /** A call that keeps `StartCode` at the head of the buffer. */
  predicate KeepsStart(m: Mutation) {
    m.SetCode? ==> StartCode <= m.code
  }

  predicate ShowsStart(v: View) {
    StartCode <= v.code
  }

  lemma ApplyKeepsStart(v: View, m: Mutation)
    requires ShowsStart(v) && KeepsStart(m)
    ensures ShowsStart(Apply(v, m))
  {
    if m.AppendCode? {
      assert v.code + m.text == StartCode + (v.code[|StartCode|..] + m.text);
    }
  }

  /** The only call of a pass that replaces the buffer puts the start code back. */
  lemma PassKeepsStart(m: Mutation)
    requires m in PassCalls(StartCode, QueryHook, JsxReturn, Closing)
    ensures KeepsStart(m)
  {
    var a, b, c, d := ResetCalls(StartCode), RoundCalls(QueryHook), RoundCalls(JsxReturn), Chars(Closing);
    assert m in a || m in b || m in c || m in d;
    if m in b || m in c {
      var x := if m in b then QueryHook else JsxReturn;
      assert m in Chars(x.first) || m in Chars(x.second) || m in OfferCalls(x.suggestion)
        || m in AcceptCalls(x.suggestion);
    }
  }

  /**
   * At every moment of every run, however many passes and whenever the view is torn down, the
   * buffer begins with the start code.
   */
  lemma StartAlwaysShown(budget: nat, passes: nat, k: nat)
    requires k <= |Loop(Body(), Start(budget), passes).issued|
    ensures ShowsStart(Replay(Apply, Initial, Loop(Body(), Start(budget), passes).issued[..k]))
  {
    var issued := Loop(Body(), Start(budget), passes).issued;
    LoopIssuesFromBody(Body(), Start(budget), passes);
    PassSets(StartCode, QueryHook, JsxReturn, Closing);
    var ms := issued[..k];
    forall i, w | 0 <= i < |ms| && ShowsStart(w)
      ensures ShowsStart(Apply(w, ms[i]))
    {
      assert ms[i] == issued[i];
      PassKeepsStart(ms[i]);
      ApplyKeepsStart(w, ms[i]);
    }
    ReplayKeeps(Apply, ShowsStart, Initial, ms);
  }

  // ---------------------------------------------------------------------------------------
  // Teardown

  /** After teardown, `type` returns at once and makes no call. */
  lemma TypeTornDown(t: string, r: Run<Mutation>)
    requires !r.mounted && !r.halted && !r.skipping
    ensures Exec(Type(t), r) == r
  {
    ExecHelper(Chars(t), r);
    assert Chars(t)[..0] == [];
  }

  /** After teardown, the typing of a round and the pauses after it do nothing. */
  lemma TypingTornDown(c: Completion, r: Run<Mutation>)
    requires !r.mounted && !r.halted && !r.skipping && r.budget == 0
    ensures Exec(Type(c.first) + [Pause] + Type(c.second) + [Pause], r) == r
  {
    var a, p, b := Type(c.first), [Pause], Type(c.second);
    TypeTornDown(c.first, r);
    TypeTornDown(c.second, r);
    Single(Pause, r);
    ExecAppend(a, p, r);
    ExecAppend(a + p, b, r);
    ExecAppend(a + p + b, p, r);
  }

  /** After teardown, a round still offers and accepts its suggestion: seven late calls. */
  lemma RoundTornDown(c: Completion, r: Run<Mutation>)
    requires !r.mounted && !r.halted && !r.skipping && r.budget == 0
    ensures Exec(Round(c), r)
      == r.(issued := r.issued + OfferCalls(c.suggestion) + AcceptCalls(c.suggestion), late := r.late + 7)
  {
    var q := Type(c.first) + [Pause] + Type(c.second) + [Pause];
    var o, x := Offer(c.suggestion), Accept(c.suggestion);
    var u := o + x;
    TypingTornDown(c, r);
    SuggestionSets(c.suggestion);
    ExecTornDown(u, r);
    assert Round(c) == q + u;
    ExecAppend(q, u, r);
  }

  /** A reset whose pause is the one the view is torn down in makes its four calls in time. */
  lemma ResetTornDown(start: string, r: Run<Mutation>)
    requires r.mounted && !r.halted && !r.skipping && r.budget == 0
    ensures Exec(Reset(start), r) == r.(issued := r.issued + ResetCalls(start), mounted := false)
  {
    var f := [Set(SetCode(start)), Set(SetGhost("")), Set(SetShowTab(false)), Set(SetPressed(false))];
    assert Reset(start) == f + [Pause];
    Four(f[0], f[1], f[2], f[3], r);
    ExecSnoc(f, Pause, r);
  }

  /**
   * A pass whose first pause is the one the view is torn down in still makes both suggestion
   * rounds' offer and accept calls, fourteen late calls in all, and types nothing.
   */
  lemma PassTornDownAtReset(start: string, c1: Completion, c2: Completion, last: string, r: Run<Mutation>)
    requires r.mounted && !r.halted && !r.skipping && r.budget == 0
    ensures Exec(Pass(start, c1, c2, last), r)
      == r.(issued := r.issued + ResetCalls(start) + OfferCalls(c1.suggestion) + AcceptCalls(c1.suggestion)
              + OfferCalls(c2.suggestion) + AcceptCalls(c2.suggestion),
            late := r.late + 14, mounted := false)
  {
    var a, b, c, d := Reset(start), Round(c1), Round(c2), Type(last) + [Pause];
    assert Pass(start, c1, c2, last) == a + b + c + d;
    ExecFour(a, b, c, d, r);
    ResetTornDown(start, r);
    var r1 := Exec(a, r);
    RoundTornDown(c1, r1);
    var r2 := Exec(b, r1);
    RoundTornDown(c2, r2);
    var r3 := Exec(c, r2);
    TypeTornDown(last, r3);
    ExecSnoc(Type(last), Pause, r3);
  }

  /** The calls of a pass torn down at its reset: the start code, then both suggestions. */
  lemma TornDownCode(v: View, start: string, g1: string, g2: string)
    ensures Replay(Apply, v, ResetCalls(start) + OfferCalls(g1) + AcceptCalls(g1) + OfferCalls(g2) + AcceptCalls(g2))
      == View(start + g1 + g2, "", false, false)
  {
    var a, b, c := ResetCalls(start), OfferCalls(g1) + AcceptCalls(g1), OfferCalls(g2) + AcceptCalls(g2);
    assert a + OfferCalls(g1) + AcceptCalls(g1) + OfferCalls(g2) + AcceptCalls(g2) == a + b + c;
    ReplayAppend(Apply, v, a, b);
    ReplayAppend(Apply, v, a + b, c);
    ResetCode(v, start);
    Suggested(View(start, "", false, false), g1);
    Suggested(View(start + g1, "", false, false), g2);
  }

  /**
   * Teardown during the pause after the first reset ends the run after one pass, which typed
   * nothing but still accepted both suggestions.
   */
  lemma LoopTornDownAtReset(start: string, c1: Completion, c2: Completion, last: string, v: View)
    ensures Loop(Pass(start, c1, c2, last), Start(0), 2).halted
    ensures Loop(Pass(start, c1, c2, last), Start(0), 2).late == 14
    ensures Replay(Apply, v, Loop(Pass(start, c1, c2, last), Start(0), 2).issued)
      == View(start + c1.suggestion + c2.suggestion, "", false, false)
  {
    var r: Run<Mutation> := Start(0);
    var body := Pass(start, c1, c2, last);
    LoopNext(body, r, 0);
    Single(Guard, r);
    PassTornDownAtReset(start, c1, c2, last, r);
    LoopExit(body, r, 1);
    var ms := ResetCalls(start) + OfferCalls(c1.suggestion) + AcceptCalls(c1.suggestion)
      + OfferCalls(c2.suggestion) + AcceptCalls(c2.suggestion);
    assert Loop(body, r, 2).issued == [] + ms;
    assert [] + ms == ms;
    TornDownCode(v, start, c1.suggestion, c2.suggestion);
  }

  /**
   * Teardown during the pause after the first reset: the calls made after it still write the
   * two suggestions after the start code, the `queryFn` line and the JSX, but none of the
   * typed code.
   */
  lemma SuggestionsAfterTeardown()
    ensures Loop(Body(), Start(0), 2).halted && Loop(Body(), Start(0), 2).late == 14
    ensures Replay(Apply, Initial, Loop(Body(), Start(0), 2).issued)
      == View(StartCode + QueryHook.suggestion + JsxReturn.suggestion, "", false, false)
  {
    LoopTornDownAtReset(StartCode, QueryHook, JsxReturn, Closing, Initial);
  }

  // ---------------------------------------------------------------------------------------

  /** The component: its state, its `isMounted` flag, and the run its sequence has made so far. */
  class AutocompleteSection {
    /** `startCode`, and the texts the sequence types and suggests. */
    const startCode: string
    const queryHook: Completion
    const jsxReturn: Completion
    const closing: string
    var displayedCode: string
    var ghostText: string
    var showTabKey: bool
    var tabPressed: bool
    var isMounted: bool
    /** How many more pauses resume before the view is torn down. */
    var pausesLeft: nat
    /** The body of `while (isMounted)`, as written. */
    ghost const script: seq<Op<Mutation>>
    ghost var run: Run<Mutation>

    ghost predicate Valid()
      reads this
    {
      isMounted == run.mounted && pausesLeft == run.budget && !run.skipping
      && View(displayedCode, ghostText, showTabKey, tabPressed)
         == Replay(Apply, View(startCode, "", false, false), run.issued)
    }

    /** Mounting with the initial state; the view will be torn down after the given pauses. */
    constructor (pausesBeforeTeardown: nat)
      ensures Valid() && run == Start(pausesBeforeTeardown) && script == Body()
      ensures startCode == StartCode && queryHook == QueryHook && jsxReturn == JsxReturn && closing == Closing
      ensures script == Pass(startCode, queryHook, jsxReturn, closing)
      ensures displayedCode == StartCode && ghostText == "" && !showTabKey && !tabPressed
    {
      startCode := StartCode;
      queryHook := QueryHook;
      jsxReturn := JsxReturn;
      closing := Closing;
      script := Body();
      displayedCode := StartCode;
      ghostText := "";
      showTabKey := false;
      tabPressed := false;
      isMounted := true;
      pausesLeft := pausesBeforeTeardown;
      run := Start(pausesBeforeTeardown);
    }

    /** `await wait(ms)`: teardown can happen only here. */
    method Wait()
      requires Valid() && !run.halted
      modifies this
      ensures Valid() && run == Step(old(run), Pause)
      ensures displayedCode == old(displayedCode) && ghostText == old(ghostText)
      ensures showTabKey == old(showTabKey) && tabPressed == old(tabPressed)
    {
      if pausesLeft > 0 {
        pausesLeft := pausesLeft - 1;
      } else {
        isMounted := false;
      }
      run := Step(run, Pause);
    }

    /** `setDisplayedCode(c)` */
    method ReplaceCode(c: string)
      requires Valid() && !run.halted
      modifies this
      ensures Valid() && run == Step(old(run), Set(SetCode(c)))
      ensures displayedCode == c && ghostText == old(ghostText)
      ensures showTabKey == old(showTabKey) && tabPressed == old(tabPressed)
    {
      ReplaySnoc(Apply, View(startCode, "", false, false), run.issued, SetCode(c));
      displayedCode := c;
      run := Step(run, Set(SetCode(c)));
    }

    /** `setDisplayedCode(prev => prev + t)` */
    method ExtendCode(t: string)
      requires Valid() && !run.halted
      modifies this
      ensures Valid() && run == Step(old(run), Set(AppendCode(t)))
      ensures displayedCode == old(displayedCode) + t && ghostText == old(ghostText)
      ensures showTabKey == old(showTabKey) && tabPressed == old(tabPressed)
    {
      ReplaySnoc(Apply, View(startCode, "", false, false), run.issued, AppendCode(t));
      displayedCode := displayedCode + t;
      run := Step(run, Set(AppendCode(t)));
    }

    /** `setGhostText(g)` */
    method SetGhostText(g: string)
      requires Valid() && !run.halted
      modifies this
      ensures Valid() && run == Step(old(run), Set(SetGhost(g)))
      ensures displayedCode == old(displayedCode) && ghostText == g
      ensures showTabKey == old(showTabKey) && tabPressed == old(tabPressed)
    {
      ReplaySnoc(Apply, View(startCode, "", false, false), run.issued, SetGhost(g));
      ghostText := g;
      run := Step(run, Set(SetGhost(g)));
    }

    /** `setShowTabKey(b)` */
    method SetShowTabKey(b: bool)
      requires Valid() && !run.halted
      modifies this
      ensures Valid() && run == Step(old(run), Set(SetShowTab(b)))
      ensures displayedCode == old(displayedCode) && ghostText == old(ghostText)
      ensures showTabKey == b && tabPressed == old(tabPressed)
    {
      ReplaySnoc(Apply, View(startCode, "", false, false), run.issued, SetShowTab(b));
      showTabKey := b;
      run := Step(run, Set(SetShowTab(b)));
    }

    /** `setTabPressed(b)` */
    method SetTabPressed(b: bool)
      requires Valid() && !run.halted
      modifies this
      ensures Valid() && run == Step(old(run), Set(SetPressed(b)))
      ensures displayedCode == old(displayedCode) && ghostText == old(ghostText)
      ensures showTabKey == old(showTabKey) && tabPressed == b
    {
      ReplaySnoc(Apply, View(startCode, "", false, false), run.issued, SetPressed(b));
      tabPressed := b;
      run := Step(run, Set(SetPressed(b)));
    }

    /**
     * `type(text)` (App.tsx:738-744): appends the text one character at a time, and returns
     * early, to the sequence and not out of it, once the view is torn down.
     */
    method TypeText(t: string)
      requires Valid() && !run.halted
      modifies this
      ensures Valid() && run == Exec(Type(t), old(run)) && !run.halted
      ensures displayedCode == old(displayedCode) + t[..Typed(old(run), |t|)]
      ensures ghostText == old(ghostText) && showTabKey == old(showTabKey) && tabPressed == old(tabPressed)
    {
      ghost var r0 := run;
      ghost var v0 := View(displayedCode, ghostText, showTabKey, tabPressed);
      ghost var ms := Chars(t);
      TypedView(t, r0, View(startCode, "", false, false), v0);
      assert ms[..0] == [];
      for i := 0 to |t|
        invariant Valid() && !run.halted && run == Exec(HelperSteps(ms[..i]), r0)
      {
        if !isMounted {
          HelperStop(ms, i, r0);
          return;
        }
        ExtendCode([t[i]]);
        Wait();
        HelperPass(ms, i, r0);
      }
      assert ms[..|t|] == ms;
      HelperDone(ms, r0);
    }

    /** A typed snippet and the pause after it. */
    method TypeThenWait(t: string)
      requires Valid() && !run.halted
      modifies this
      ensures Valid() && run == Exec(Type(t) + [Pause], old(run)) && !run.halted
    {
      ghost var r0 := run;
      TypeText(t);
      Wait();
      ExecSnoc(Type(t), Pause, r0);
    }

    /** Showing the suggestion and the Tab hint (App.tsx:762-764, 782-784). */
    method OfferGhost(g: string)
      requires Valid() && !run.halted
      modifies this
      ensures Valid() && run == Exec(Offer(g), old(run)) && !run.halted
      ensures displayedCode == old(displayedCode) && ghostText == g && showTabKey
    {
      Three(Set(SetGhost(g)), Set(SetShowTab(true)), Pause, run);
      SetGhostText(g);
      SetShowTabKey(true);
      Wait();
    }

    /**
     * "Pressing" Tab and taking the suggestion (App.tsx:767-772, 787-792): the suggestion is
     * appended whole, and the ghost text, the hint and the pressed key are cleared.
     */
    method AcceptGhost(g: string)
      requires Valid() && !run.halted
      modifies this
      ensures Valid() && run == Exec(Accept(g), old(run)) && !run.halted
      ensures displayedCode == old(displayedCode) + g && ghostText == "" && !showTabKey && !tabPressed
    {
      ghost var r0 := run;
      SetTabPressed(true);
      Wait();
      ghost var r1 := run;
      assert r1 == Exec(Press(), r0) by {
        ExecSnoc([Set(SetPressed(true))], Pause, r0);
        Single(Set(SetPressed(true)), r0);
        assert [Set(SetPressed(true))] + [Pause] == Press();
      }
      Four(Set(SetGhost("")), Set(AppendCode(g)), Set(SetShowTab(false)), Set(SetPressed(false)), r1);
      SetGhostText("");
      ExtendCode(g);
      SetShowTabKey(false);
      SetTabPressed(false);
      ExecAppend(Press(), Take(g), r0);
    }

    /** Offering a suggestion and accepting it. */
    method Suggest(g: string)
      requires Valid() && !run.halted
      modifies this
      ensures Valid() && run == Exec(Offer(g) + Accept(g), old(run)) && !run.halted
      ensures displayedCode == old(displayedCode) + g && ghostText == "" && !showTabKey && !tabPressed
    {
      ghost var r0 := run;
      OfferGhost(g);
      AcceptGhost(g);
      ExecAppend(Offer(g), Accept(g), r0);
    }

    /** One suggestion round (App.tsx:754-772 and 774-794). */
    method PlayRound(c: Completion)
      requires Valid() && !run.halted
      modifies this
      ensures Valid() && run == Exec(Round(c), old(run)) && !run.halted
    {
      ghost var r0 := run;
      ghost var a, b, o := Type(c.first) + [Pause], Type(c.second) + [Pause], Offer(c.suggestion) + Accept(c.suggestion);
      TypeThenWait(c.first);
      TypeThenWait(c.second);
      ExecAppend(a, b, r0);
      Suggest(c.suggestion);
      ExecAppend(a + b, o, r0);
      assert a + b + o == Round(c);
    }

    /** The reset at the top of each pass (App.tsx:747-752). */
    method ResetView()
      requires Valid() && !run.halted
      modifies this
      ensures Valid() && run == Exec(Reset(startCode), old(run)) && !run.halted
      ensures run.budget < old(run.budget) || !run.mounted
    {
      ghost var r0 := run;
      ghost var f := [Set(SetCode(startCode)), Set(SetGhost("")), Set(SetShowTab(false)), Set(SetPressed(false))];
      Four(Set(SetCode(startCode)), Set(SetGhost("")), Set(SetShowTab(false)), Set(SetPressed(false)), r0);
      ReplaceCode(startCode);
      SetGhostText("");
      SetShowTabKey(false);
      SetTabPressed(false);
      Wait();
      ExecSnoc(f, Pause, r0);
      assert f + [Pause] == Reset(startCode);
    }

    /** One pass of the `while (isMounted)` body; its only guard is the one inside `type`. */
    method RunPass()
      requires Valid() && isMounted && !run.halted && script == Pass(startCode, queryHook, jsxReturn, closing)
      modifies this
      ensures Valid() && run == Exec(script, old(run)) && !run.halted
      ensures run.budget < old(run.budget) || !run.mounted
    {
      ghost var r0 := run;
      ghost var a, b, c, d := Reset(startCode), Round(queryHook), Round(jsxReturn), Type(closing) + [Pause];
      ResetView();
      PlayRound(queryHook);
      PlayRound(jsxReturn);
      TypeThenWait(closing);
      ExecFour(a, b, c, d, r0);
      assert a + b + c + d == script;
    }

    /** `sequence` (App.tsx:736-800), started by the mount effect. */
    method RunScenario() returns (ghost passes: nat)
      requires Valid() && isMounted && !run.halted && script == Pass(startCode, queryHook, jsxReturn, closing)
      modifies this
      ensures Valid() && run.halted && run == Loop(script, old(run), passes)
    {
      ghost var r0 := run;
      passes := 0;
      while isMounted
        invariant Valid() && !run.halted && run == Loop(script, r0, passes)
        decreases pausesLeft, isMounted
      {
        RunPass();
        LoopPass(script, r0, passes, run);
        passes := passes + 1;
      }
      LoopExit(script, r0, passes);
      run := run.(halted := true);
      passes := passes + 1;
    }
  }
}
