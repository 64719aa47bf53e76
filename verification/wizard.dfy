/**
 * The profile creator's state: the current step of the fixed four-step
 * sequence (personal, contact, social, professional) and the draft, with the
 * Next / Back / Skip buttons and the `updateFormData` callback the steps use.
 */
module Wizard {
  import opened Base
  import opened Draft

  /** `TOTAL_STEPS`. */
  const TotalSteps: int := 4

  /** `currentStep` (a plain number in the component) and `formData`. */
  datatype State = State(step: int, draft: Profile)

  /** The step is one of 1..TotalSteps. */
  predicate Valid(w: State) {
    1 <= w.step <= TotalSteps
  }

  function Min(a: int, b: int): int { if a <= b then a else b }
  function Max(a: int, b: int): int { if a <= b then b else a }

  /** The state the component mounts with: step 1 and the all-empty draft. */
  function Start(): (w: State)
    ensures Valid(w) && w.step == 1
    ensures forall k :: k !in ListKeys && k != ProfilePicture ==> Get(w.draft, k) == Str("")
    ensures w.draft.profilePicture.None?
    ensures w.draft.skills == [] && w.draft.interests == [] && w.draft.experiences == [] && w.draft.education == []
  {
    State(1, Initial())
  }

  /** `handleNext`: one step forward unless already on the last step; the draft is never touched. */
  function Next(w: State): (r: State)
    ensures r.draft == w.draft
    ensures w.step <= r.step <= w.step + 1
    ensures r.step == w.step <==> w.step >= TotalSteps
    ensures Valid(w) ==> Valid(r)
  {
    if w.step < TotalSteps then w.(step := w.step + 1) else w
  }

  /** `handleBack`: one step back unless already on the first step; the draft is never touched. */
  function Back(w: State): (r: State)
    ensures r.draft == w.draft
    ensures w.step - 1 <= r.step <= w.step
    ensures r.step == w.step <==> w.step <= 1
    ensures Valid(w) ==> Valid(r)
  {
    if w.step > 1 then w.(step := w.step - 1) else w
  }

  /** `handleSkip`: calls `handleNext`, so the step's fields are simply left as they are. */
  function Skip(w: State): (r: State)
  {
    Next(w)
  }

  /** `updateFormData(patch)`: merges the patch into the draft; the step is untouched. */
  function UpdateFormData(w: State, p: Patch): (r: State)
    ensures r.step == w.step
    ensures forall k :: k !in Names(p) ==> Get(r.draft, k) == Get(w.draft, k)
    ensures forall k :: k in Names(p) ==> Some(Get(r.draft, k)) == PatchGet(p, k)
  {
    MergeFrame(w.draft, p);
    w.(draft := Merge(w.draft, p))
  }

  /** From a valid step, Next gives min(step + 1, TotalSteps) and Back gives max(step - 1, 1). */
  lemma NextBackSaturate(w: State)
    requires Valid(w)
    ensures Next(w).step == Min(w.step + 1, TotalSteps)
    ensures Back(w).step == Max(w.step - 1, 1)
  {
  }

  /** On a valid step, Back undoes Next and Next undoes Back, away from the end each one stops at. */
  lemma NextBackInverse(w: State)
    requires Valid(w)
    ensures w.step < TotalSteps ==> Back(Next(w)) == w
    ensures w.step > 1 ==> Next(Back(w)) == w
  {
  }

  /** A navigation button press. */
  datatype Nav = NextButton | BackButton | SkipButton

  function Press(w: State, n: Nav): State {
    match n
    case NextButton => Next(w)
    case BackButton => Back(w)
    case SkipButton => Skip(w)
  }

  /** The state after pressing the buttons `ns` in order. */
  function Run(w: State, ns: seq<Nav>): State
    decreases |ns|
  {
    if |ns| == 0 then w else Run(Press(w, ns[0]), ns[1..])
  }

  /** 1 <= step <= TotalSteps survives any sequence of Next / Back / Skip presses. */
  lemma {:induction false} RunKeepsValid(w: State, ns: seq<Nav>)
    requires Valid(w)
    ensures Valid(Run(w, ns))
    decreases |ns|
  {
    if |ns| > 0 {
      RunKeepsValid(Press(w, ns[0]), ns[1..]);
    }
  }

  /** Navigation never touches the draft. */
  lemma {:induction false} RunKeepsDraft(w: State, ns: seq<Nav>)
    ensures Run(w, ns).draft == w.draft
    decreases |ns|
  {
    if |ns| > 0 {
      RunKeepsDraft(Press(w, ns[0]), ns[1..]);
    }
  }

  /** `ns` with every Skip press replaced by a Next press. */
  function SkipsAsNexts(ns: seq<Nav>): (ms: seq<Nav>)
    ensures |ms| == |ns|
    ensures SkipButton !in ms
    decreases |ns|
  {
    if |ns| == 0 then []
    else [if ns[0] == SkipButton then NextButton else ns[0]] + SkipsAsNexts(ns[1..])
  }

  /** Skip has exactly the effect of Next: replacing every Skip press by Next changes no outcome. */
  lemma {:induction false} SkipIsNext(w: State, ns: seq<Nav>)
    ensures Run(w, ns) == Run(w, SkipsAsNexts(ns))
    decreases |ns|
  {
    if |ns| > 0 {
      var ms := SkipsAsNexts(ns);
      assert ms[1..] == SkipsAsNexts(ns[1..]);
      assert Press(w, ns[0]) == Press(w, ms[0]);
      SkipIsNext(Press(w, ns[0]), ns[1..]);
    }
  }

  /** `n` presses of the same button. */
  function Repeat(n: nat, b: Nav): (ns: seq<Nav>)
    ensures |ns| == n && forall i :: 0 <= i < n ==> ns[i] == b
  {
    seq(n, _ => b)
  }

  /** n presses of Next from a valid step land on min(step + n, TotalSteps). */
  lemma {:induction false} NextsSaturate(w: State, n: nat)
    requires Valid(w)
    ensures Run(w, Repeat(n, NextButton)).step == Min(w.step + n, TotalSteps)
    decreases n
  {
    if n > 0 {
      assert Repeat(n, NextButton)[1..] == Repeat(n - 1, NextButton);
      NextsSaturate(Next(w), n - 1);
    }
  }

  /** n presses of Back from a valid step land on max(step - n, 1). */
  lemma {:induction false} BacksSaturate(w: State, n: nat)
    requires Valid(w)
    ensures Run(w, Repeat(n, BackButton)).step == Max(w.step - n, 1)
    decreases n
  {
    if n > 0 {
      assert Repeat(n, BackButton)[1..] == Repeat(n - 1, BackButton);
      BacksSaturate(Back(w), n - 1);
    }
  }

  /** From the start, three Nexts reach the last step, and a Back then returns to step 3. */
  lemma ThreeNextsThenBack()
    ensures Run(Start(), [NextButton, NextButton, NextButton]).step == TotalSteps
    ensures Run(Start(), [NextButton, NextButton, NextButton, BackButton]).step == 3
    ensures Run(Start(), [NextButton, NextButton, NextButton, BackButton]).draft == Initial()
  {
    RunKeepsDraft(Start(), [NextButton, NextButton, NextButton, BackButton]);
  }
}
