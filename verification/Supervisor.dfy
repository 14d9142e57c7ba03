/** The semantic supervisor of src/harness/supervisor.ts: detectors over rolling windows and a
    bounded escalation ladder. Fractions are exact reals. */
module Supervisor {
  import opened Prelude

  datatype Thresholds = Thresholds(
    loopThreshold: nat, stagnationSteps: nat, window: nat, budgetHeadroom: real, maxEscalations: nat)

  datatype State = State(
    actionWindow: seq<string>, progressWindow: seq<nat>, escalationLevel: nat, recoveries: nat)

  const InitialState := State([], [], 0, 0)

  datatype Input = Input(
    proposedSignature: Option<string>, proposedTargets: seq<string>, completedItems: seq<string>,
    remainingItems: int, step: int, maxSteps: int, tokensUsed: int, tokenBudget: Option<int>)

  datatype Basis = Steps | Tokens

  datatype Detection =
    | Loop(signature: string, repeats: nat)
    | Stagnation(steps: nat)
    | ContextLoss(item: string)
    | BudgetLow(fraction: real, basis: Basis)

  datatype Directive = Continue | Recover | EscalateModel | WindDown | Terminate(reason: string)

  datatype Evaluation = Evaluation(detections: seq<Detection>, directive: Directive, state: State)

  /** What a step without tools is recorded as. */
  const NoAction: string := "\U{2205}"

  function Signature(input: Input): string {
    if input.proposedSignature.Some? then input.proposedSignature.value else NoAction
  }

  // --------------------------------------------------------------------- windows

  /** The last k entries. */
  function Last<T>(s: seq<T>, k: nat): seq<T> { if |s| <= k then s else s[|s| - k..] }

  function Push<T>(s: seq<T>, v: T, cap: nat): seq<T> { Last(s + [v], cap) }

  function TrailingRepeats(s: seq<string>): (n: nat)
    ensures n <= |s|
    ensures n > 0 <==> s != []
    ensures forall i :: |s| - n <= i < |s| ==> s[i] == s[|s| - 1]
    ensures n < |s| ==> s[|s| - n - 1] != s[|s| - 1]
  {
    if s == [] then 0
    else if |s| == 1 || s[|s| - 2] != s[|s| - 1] then 1
    else 1 + TrailingRepeats(s[..|s| - 1])
  }

  /** The source's counting loop. */
  method CountTrailing(window: seq<string>) returns (n: nat)
    ensures n == TrailingRepeats(window)
  {
    n := 0;
    if |window| == 0 {
      return;
    }
    var last := window[|window| - 1];
    var i := |window| - 1;
    while i >= 0 && window[i] == last
      invariant -1 <= i < |window| && n == |window| - 1 - i
      invariant forall j :: i < j < |window| ==> window[j] == last
    {
      n := n + 1;
      i := i - 1;
    }
    assert window[|window| - 1] == last;
    RepeatsUnique(window, n);
  }

  lemma RepeatsUnique(s: seq<string>, n: nat)
    requires 0 < n <= |s|
    requires forall i :: |s| - n <= i < |s| ==> s[i] == s[|s| - 1]
    requires n < |s| ==> s[|s| - n - 1] != s[|s| - 1]
    ensures n == TrailingRepeats(s)
  {
    var m := TrailingRepeats(s);
    assert m < |s| ==> s[|s| - m - 1] != s[|s| - 1];
  }

  // ------------------------------------------------------------------- detectors

  predicate Looping(t: Thresholds, signature: string, actions: seq<string>) {
    signature != NoAction && TrailingRepeats(actions) >= t.loopThreshold
  }

  /** Long enough and flat over its last stagnationSteps entries. */
  predicate Flat(t: Thresholds, progress: seq<nat>) {
    |progress| >= t.stagnationSteps
    && forall i :: |progress| - t.stagnationSteps <= i < |progress| ==>
         progress[i] == progress[|progress| - t.stagnationSteps]
  }

  predicate OccursAt(s: string, part: string, i: nat) {
    i + |part| <= |s| && s[i..i + |part|] == part
  }

  predicate Contains(s: string, part: string) {
    exists i :: 0 <= i <= |s| && OccursAt(s, part, i)
  }

  predicate Overlaps(done: string, target: string) {
    |done| > 0 && (Contains(done, target) || Contains(target, done))
  }

  /** First completed item that overlaps the target; lower stands for toLowerCase. */
  function FirstOverlap(completed: seq<string>, target: string, lower: string -> string): Option<string>
  {
    if completed == [] then None
    else if Overlaps(lower(completed[0]), lower(target)) then Some(lower(completed[0]))
    else FirstOverlap(completed[1..], target, lower)
  }

  function LostContext(targets: seq<string>, completed: seq<string>, lower: string -> string): Option<string>
  {
    if targets == [] then None
    else
      var hit := FirstOverlap(completed, targets[0], lower);
      if hit.Some? then hit else LostContext(targets[1..], completed, lower)
  }

  function StepFraction(input: Input): real {
    if input.maxSteps > 0 then (input.maxSteps - input.step) as real / input.maxSteps as real else 1.0
  }

  function TokenFraction(input: Input): real {
    if input.tokenBudget.Some? && input.tokenBudget.value > 0 then
      var fraction := (input.tokenBudget.value - input.tokensUsed) as real / input.tokenBudget.value as real;
      if fraction > 0.0 then fraction else 0.0
    else 1.0
  }

  function BudgetDetection(input: Input, t: Thresholds): seq<Detection> {
    var basis := if StepFraction(input) <= TokenFraction(input) then Steps else Tokens;
    var fraction := if StepFraction(input) <= TokenFraction(input) then StepFraction(input) else TokenFraction(input);
    if fraction < t.budgetHeadroom && input.remainingItems > 0 then [BudgetLow(fraction, basis)] else []
  }

  predicate IsStuck(d: Detection) { d.Loop? || d.Stagnation? || d.ContextLoss? }

  function Detect(input: Input, actions: seq<string>, progress: seq<nat>, t: Thresholds, lower: string -> string)
    : seq<Detection>
  {
    (if Looping(t, Signature(input), actions) then [Loop(Signature(input), TrailingRepeats(actions))] else [])
    + (if Flat(t, progress) then [Stagnation(t.stagnationSteps)] else [])
    + (match LostContext(input.proposedTargets, input.completedItems, lower)
       case None => []
       case Some(item) => [ContextLoss(item)])
    + BudgetDetection(input, t)
  }

  predicate AnyStuck(detections: seq<Detection>) {
    exists i :: 0 <= i < |detections| && IsStuck(detections[i])
  }

  function TerminalReason(detections: seq<Detection>): string {
    if detections == [] then "context_loss_unrecovered"
    else if detections[0].Loop? then "loop_unrecovered"
    else if detections[0].Stagnation? then "stagnation_unrecovered"
    else "context_loss_unrecovered"
  }

  /** One step: advance the windows, run the detectors, climb the ladder. */
  function Evaluate(state: State, input: Input, t: Thresholds, lower: string -> string): Evaluation
  {
    var actions := Push(state.actionWindow, Signature(input), t.window);
    var progress := Push(state.progressWindow, |input.completedItems|, t.window);
    var detections := Detect(input, actions, progress, t, lower);
    var next := State(actions, progress, state.escalationLevel, state.recoveries);
    if AnyStuck(detections) then
      if state.escalationLevel >= t.maxEscalations then
        Evaluation(detections, Terminate(TerminalReason(detections)), next)
      else if state.recoveries >= 1 then
        Evaluation(detections, EscalateModel,
                   next.(escalationLevel := state.escalationLevel + 1, recoveries := state.recoveries + 1))
      else Evaluation(detections, Recover, next.(recoveries := state.recoveries + 1))
    else if |detections| > 0 then Evaluation(detections, WindDown, next.(recoveries := 0))
    else Evaluation(detections, Continue, next.(recoveries := 0))
  }

  // -------------------------------------------------------------------- whole runs

  /** The state after a run of inputs. */
  function After(start: State, inputs: seq<Input>, t: Thresholds, lower: string -> string): State
  {
    if inputs == [] then start
    else Evaluate(After(start, inputs[..|inputs| - 1], t, lower), inputs[|inputs| - 1], t, lower).state
  }

  function At(start: State, inputs: seq<Input>, k: nat, t: Thresholds, lower: string -> string): Evaluation
    requires k < |inputs|
  {
    Evaluate(After(start, inputs[..k], t, lower), inputs[k], t, lower)
  }

  function Actions(inputs: seq<Input>): (s: seq<string>)
    ensures |s| == |inputs| && forall i :: 0 <= i < |s| ==> s[i] == Signature(inputs[i])
  {
    seq(|inputs|, i requires 0 <= i < |inputs| => Signature(inputs[i]))
  }

  function Progress(inputs: seq<Input>): (s: seq<nat>)
    ensures |s| == |inputs| && forall i :: 0 <= i < |s| ==> s[i] == |inputs[i].completedItems|
  {
    seq(|inputs|, i requires 0 <= i < |inputs| => |inputs[i].completedItems|)
  }

  lemma AfterStep(start: State, inputs: seq<Input>, k: nat, t: Thresholds, lower: string -> string)
    requires k < |inputs|
    ensures After(start, inputs[..k + 1], t, lower) == At(start, inputs, k, t, lower).state
  {
    assert inputs[..k + 1][..k] == inputs[..k];
  }

  lemma WindowsMove(state: State, input: Input, t: Thresholds, lower: string -> string)
    ensures Evaluate(state, input, t, lower).state.actionWindow == Push(state.actionWindow, Signature(input), t.window)
    ensures Evaluate(state, input, t, lower).state.progressWindow
         == Push(state.progressWindow, |input.completedItems|, t.window)
    ensures Evaluate(state, input, t, lower).detections
         == Detect(input, Push(state.actionWindow, Signature(input), t.window),
                   Push(state.progressWindow, |input.completedItems|, t.window), t, lower)
  {
    hide Detect, Push;
  }

  lemma LastOfPush<T>(s: seq<T>, v: T, k: nat)
    ensures Push(Last(s, k), v, k) == Last(s + [v], k)
  {
  }

  lemma HistoryGrows(inputs: seq<Input>, k: nat)
    requires k < |inputs|
    ensures Actions(inputs[..k + 1]) == Actions(inputs[..k]) + [Signature(inputs[k])]
    ensures Progress(inputs[..k + 1]) == Progress(inputs[..k]) + [|inputs[k].completedItems|]
  {
  }

  ghost predicate Recent(state: State, inputs: seq<Input>, t: Thresholds)
  {
    && state.actionWindow == Last(Actions(inputs), t.window)
    && state.progressWindow == Last(Progress(inputs), t.window)
  }

  lemma RecentStep(state: State, inputs: seq<Input>, k: nat, t: Thresholds, lower: string -> string)
    requires k < |inputs| && Recent(state, inputs[..k], t)
    ensures Recent(Evaluate(state, inputs[k], t, lower).state, inputs[..k + 1], t)
    ensures Evaluate(state, inputs[k], t, lower).detections
         == Detect(inputs[k], Last(Actions(inputs[..k + 1]), t.window), Last(Progress(inputs[..k + 1]), t.window), t, lower)
  {
    WindowsMove(state, inputs[k], t, lower);
    HistoryGrows(inputs, k);
    LastOfPush(Actions(inputs[..k]), Signature(inputs[k]), t.window);
    LastOfPush(Progress(inputs[..k]), |inputs[k].completedItems|, t.window);
    hide Evaluate, Last, Push, Detect, Actions, Progress;
  }

  lemma NothingSeen(t: Thresholds, lower: string -> string)
    ensures Recent(After(InitialState, [], t, lower), [], t)
  {
  }

  /** The windows hold the most recent part of the whole history. */
  lemma {:induction false} WindowsAreRecent(inputs: seq<Input>, k: nat, t: Thresholds, lower: string -> string)
    requires k <= |inputs|
    ensures Recent(After(InitialState, inputs[..k], t, lower), inputs[..k], t)
  {
    hide Recent, Evaluate, After;
    if k == 0 {
      assert inputs[..0] == [];
      NothingSeen(t, lower);
    } else {
      WindowsAreRecent(inputs, k - 1, t, lower);
      AfterStep(InitialState, inputs, k - 1, t, lower);
      RecentStep(After(InitialState, inputs[..k - 1], t, lower), inputs, k - 1, t, lower);
    }
  }

  lemma RepeatsInWindow(s: seq<string>, w: nat)
    ensures TrailingRepeats(Last(s, w)) == Min(TrailingRepeats(s), w)
  {
    var r := Last(s, w);
    var n := Min(TrailingRepeats(s), w);
    if 0 < n {
      RepeatsUnique(r, n);
    }
  }

  lemma FlatInWindow(t: Thresholds, s: seq<nat>)
    requires t.stagnationSteps <= t.window
    ensures Flat(t, Last(s, t.window)) <==> Flat(t, s)
  {
    var r := Last(s, t.window);
    if |s| >= t.stagnationSteps {
      var d := |s| - |r|;
      assert forall i :: 0 <= i < |r| ==> r[i] == s[i + d];
      assert forall i :: d <= i < |s| ==> s[i] == r[i - d];
    }
  }

  predicate ReportsLoop(detections: seq<Detection>) {
    exists i :: 0 <= i < |detections| && detections[i].Loop?
  }

  predicate ReportsStagnation(detections: seq<Detection>) {
    exists i :: 0 <= i < |detections| && detections[i].Stagnation?
  }

  /** Detections are what the detectors say. */
  lemma DetectReports(input: Input, actions: seq<string>, progress: seq<nat>, t: Thresholds, lower: string -> string)
    ensures ReportsLoop(Detect(input, actions, progress, t, lower)) <==> Looping(t, Signature(input), actions)
    ensures ReportsStagnation(Detect(input, actions, progress, t, lower)) <==> Flat(t, progress)
  {
    hide Flat, TrailingRepeats;
    var detections := Detect(input, actions, progress, t, lower);
    if Looping(t, Signature(input), actions) {
      assert detections[0].Loop?;
    }
    if Flat(t, progress) {
      assert detections[if Looping(t, Signature(input), actions) then 1 else 0].Stagnation?;
    }
  }

  /** With a window no shorter than the thresholds, the bounded detectors agree with detectors
      over the whole unbounded history. */
  lemma BoundedWindowSuffices(inputs: seq<Input>, k: nat, t: Thresholds, lower: string -> string)
    requires k < |inputs| && t.loopThreshold <= t.window && t.stagnationSteps <= t.window
    ensures ReportsLoop(At(InitialState, inputs, k, t, lower).detections)
       <==> Looping(t, Signature(inputs[k]), Actions(inputs[..k + 1]))
    ensures ReportsStagnation(At(InitialState, inputs, k, t, lower).detections) <==> Flat(t, Progress(inputs[..k + 1]))
  {
    hide After, Evaluate, Last, Detect, Flat, Actions, Progress, Recent, ReportsLoop, ReportsStagnation;
    WindowsAreRecent(inputs, k, t, lower);
    RecentStep(After(InitialState, inputs[..k], t, lower), inputs, k, t, lower);
    DetectReports(inputs[k], Last(Actions(inputs[..k + 1]), t.window), Last(Progress(inputs[..k + 1]), t.window), t, lower);
    RepeatsInWindow(Actions(inputs[..k + 1]), t.window);
    FlatInWindow(t, Progress(inputs[..k + 1]));
  }

  /** How often the model was escalated. */
  function Escalations(start: State, inputs: seq<Input>, k: nat, t: Thresholds, lower: string -> string): nat
    requires k <= |inputs|
  {
    if k == 0 then 0
    else Escalations(start, inputs, k - 1, t, lower)
         + (if At(start, inputs, k - 1, t, lower).directive.EscalateModel? then 1 else 0)
  }

  /** A run is escalated at most maxEscalations times. */
  lemma {:induction false} EscalationsBounded(inputs: seq<Input>, k: nat, t: Thresholds, lower: string -> string)
    requires k <= |inputs|
    ensures Escalations(InitialState, inputs, k, t, lower) == After(InitialState, inputs[..k], t, lower).escalationLevel
    ensures Escalations(InitialState, inputs, k, t, lower) <= t.maxEscalations
  {
    hide Detect;
    if k > 0 {
      EscalationsBounded(inputs, k - 1, t, lower);
      AfterStep(InitialState, inputs, k - 1, t, lower);
    }
  }

  // ------------------------------------------------------------------- termination

  ghost predicate Repeating(inputs: seq<Input>, signature: string)
  {
    signature != NoAction && forall i :: 0 <= i < |inputs| ==> Signature(inputs[i]) == signature
  }

  /** After k repetitions the window ends in that many equal entries, as far as it reaches. */
  lemma {:induction false} WindowFills(
    start: State, inputs: seq<Input>, signature: string, k: nat, t: Thresholds, lower: string -> string)
    requires Repeating(inputs, signature) && k <= |inputs|
    ensures EndsIn(After(start, inputs[..k], t, lower).actionWindow, signature, Min(k, t.window))
  {
    hide After, Evaluate, EndsIn;
    if k > 0 {
      var before := After(start, inputs[..k - 1], t, lower);
      WindowFills(start, inputs, signature, k - 1, t, lower);
      AfterStep(start, inputs, k - 1, t, lower);
      WindowsMove(before, inputs[k - 1], t, lower);
      PushFills(before.actionWindow, signature, k - 1, t.window);
    } else {
      EndsInNone(After(start, inputs[..0], t, lower).actionWindow, signature);
    }
  }

  /** The last n entries are this one. */
  ghost predicate EndsIn(w: seq<string>, signature: string, n: nat)
  {
    |w| >= n && forall i :: |w| - n <= i < |w| ==> w[i] == signature
  }

  lemma EndsInNone(w: seq<string>, signature: string)
    ensures EndsIn(w, signature, 0)
  {
  }

  lemma PushFills(w: seq<string>, signature: string, n: nat, cap: nat)
    requires EndsIn(w, signature, Min(n, cap))
    ensures EndsIn(Push(w, signature, cap), signature, Min(n + 1, cap))
  {
  }

  lemma SuffixRepeats(s: seq<string>, n: nat)
    requires 0 < n <= |s| && forall i :: |s| - n <= i < |s| ==> s[i] == s[|s| - 1]
    ensures TrailingRepeats(s) >= n
  {
  }

  /** From the loopThreshold-th repetition on, every step is stuck. */
  lemma RepetitionIsStuck(
    start: State, inputs: seq<Input>, signature: string, k: nat, t: Thresholds, lower: string -> string)
    requires Repeating(inputs, signature) && k < |inputs|
    requires 1 <= t.loopThreshold <= t.window && t.loopThreshold <= k + 1
    ensures AnyStuck(At(start, inputs, k, t, lower).detections)
  {
    WindowFills(start, inputs, signature, k + 1, t, lower);
    AfterStep(start, inputs, k, t, lower);
    WindowsMove(After(start, inputs[..k], t, lower), inputs[k], t, lower);
    var w := At(start, inputs, k, t, lower).state.actionWindow;
    SuffixRepeats(w, t.loopThreshold);
    assert At(start, inputs, k, t, lower).detections[0].Loop?;
  }

  /** What a stuck step does to the ladder. */
  lemma StuckClimbs(state: State, input: Input, t: Thresholds, lower: string -> string)
    requires AnyStuck(Evaluate(state, input, t, lower).detections)
    ensures var e := Evaluate(state, input, t, lower);
            e.directive.Terminate? ||
            (e.state.recoveries >= 1
             && e.state.escalationLevel == state.escalationLevel + (if state.recoveries >= 1 then 1 else 0))
    ensures Evaluate(state, input, t, lower).directive.Terminate? <==> state.escalationLevel >= t.maxEscalations
  {
    hide Detect;
  }

  /** Without a termination, n consecutive stuck steps after the first climb n rungs. */
  lemma {:induction false} LadderClimbs(
    start: State, inputs: seq<Input>, signature: string, n: nat, t: Thresholds, lower: string -> string)
    requires Repeating(inputs, signature) && 1 <= t.loopThreshold <= t.window
    requires t.loopThreshold + n <= |inputs|
    requires forall k :: 0 <= k < t.loopThreshold + n ==> !At(start, inputs, k, t, lower).directive.Terminate?
    ensures After(start, inputs[..t.loopThreshold + n], t, lower).escalationLevel >= n
    ensures After(start, inputs[..t.loopThreshold + n], t, lower).recoveries >= 1
  {
    var k := t.loopThreshold + n - 1;
    RepetitionIsStuck(start, inputs, signature, k, t, lower);
    StuckClimbs(After(start, inputs[..k], t, lower), inputs[k], t, lower);
    AfterStep(start, inputs, k, t, lower);
    if n > 0 {
      LadderClimbs(start, inputs, signature, n - 1, t, lower);
    }
  }

  /** A run that repeats one action is terminated within loopThreshold + maxEscalations + 1
      steps, whatever state the repetition starts in. */
  lemma RepetitionTerminates(start: State, inputs: seq<Input>, signature: string, t: Thresholds, lower: string -> string)
    requires Repeating(inputs, signature) && 1 <= t.loopThreshold <= t.window
    requires |inputs| == t.loopThreshold + t.maxEscalations + 1
    ensures exists k :: 0 <= k < |inputs| && At(start, inputs, k, t, lower).directive.Terminate?
  {
    hide After, Evaluate;
    if forall k :: 0 <= k < |inputs| ==> !At(start, inputs, k, t, lower).directive.Terminate? {
      LadderClimbs(start, inputs, signature, t.maxEscalations, t, lower);
      var k := t.loopThreshold + t.maxEscalations;
      RepetitionIsStuck(start, inputs, signature, k, t, lower);
      StuckClimbs(After(start, inputs[..k], t, lower), inputs[k], t, lower);
    }
  }

  // --------------------------------------------------------- one step, from its inputs

  /** The window after this step: what it held and the new entry, cut to its last `window` ones. */
  ghost predicate Advanced<T>(before: seq<T>, v: T, after: seq<T>, window: nat)
  {
    && |after| == Min(|before| + 1, window)
    && forall i :: 0 <= i < |after| ==> after[i] == (before + [v])[|before| + 1 - |after| + i]
  }

  /** A real action fills the last loopThreshold places of the window. */
  ghost predicate LoopSeen(input: Input, actions: seq<string>, t: Thresholds)
  {
    && input.proposedSignature.Some? && input.proposedSignature.value != NoAction
    && t.loopThreshold <= |actions|
    && forall i :: |actions| - t.loopThreshold <= i < |actions| ==> actions[i] == input.proposedSignature.value
  }

  /** The completed count has not changed over the last stagnationSteps steps. */
  ghost predicate StagnationSeen(progress: seq<nat>, t: Thresholds)
  {
    && t.stagnationSteps <= |progress|
    && forall i, j :: |progress| - t.stagnationSteps <= i < |progress| && |progress| - t.stagnationSteps <= j < |progress| ==>
         progress[i] == progress[j]
  }

  /** A proposed target and a completed item, one of which contains the other. */
  ghost predicate LossSeen(input: Input, lower: string -> string)
  {
    exists i, j :: 0 <= i < |input.proposedTargets| && 0 <= j < |input.completedItems|
      && SameWork(lower(input.proposedTargets[i]), lower(input.completedItems[j]))
  }

  ghost predicate SameWork(target: string, done: string)
  {
    done != "" && (Occurs(target, done) || Occurs(done, target))
  }

  ghost predicate Occurs(part: string, whole: string)
  {
    exists before, rest :: whole == before + part + rest
  }

  /** Work remains, and less than the headroom is left of the steps or of the tokens. */
  ghost predicate LowSeen(input: Input, t: Thresholds)
  {
    && input.remainingItems > 0
    && (Below(input.maxSteps - input.step, input.maxSteps, t.budgetHeadroom)
        || (if input.tokenBudget.None? then 1.0 < t.budgetHeadroom
            else Below(Max(input.tokenBudget.value - input.tokensUsed, 0), input.tokenBudget.value, t.budgetHeadroom)))
  }

  /** left is less than that fraction of total; without a total everything is left. */
  predicate Below(left: int, total: int, fraction: real) {
    if total > 0 then left as real < fraction * total as real else 1.0 < fraction
  }

  lemma LoopingMeans(input: Input, actions: seq<string>, t: Thresholds)
    requires actions != [] ==> actions[|actions| - 1] == Signature(input)
    ensures Looping(t, Signature(input), actions) <==> LoopSeen(input, actions, t)
  {
    if LoopSeen(input, actions, t) && t.loopThreshold > 0 {
      SuffixRepeats(actions, t.loopThreshold);
    }
  }

  lemma ContainsMeans(whole: string, part: string)
    ensures Contains(whole, part) <==> Occurs(part, whole)
  {
    if Contains(whole, part) {
      var i :| 0 <= i <= |whole| && OccursAt(whole, part, i);
      assert whole == whole[..i] + part + whole[i + |part|..];
    }
    if Occurs(part, whole) {
      var before, rest :| whole == before + part + rest;
      assert OccursAt(whole, part, |before|);
    }
  }

  lemma {:induction false} OverlapMeans(completed: seq<string>, target: string, lower: string -> string)
    ensures FirstOverlap(completed, target, lower).Some? <==>
              exists j :: 0 <= j < |completed| && SameWork(lower(target), lower(completed[j]))
  {
    hide Contains, Occurs;
    if completed != [] {
      OverlapMeans(completed[1..], target, lower);
      ContainsMeans(lower(completed[0]), lower(target));
      ContainsMeans(lower(target), lower(completed[0]));
      assert completed == [completed[0]] + completed[1..];
      if j :| 0 <= j < |completed| && SameWork(lower(target), lower(completed[j])) {
        assert j > 0 ==> SameWork(lower(target), lower(completed[1..][j - 1]));
      }
    }
  }

  lemma {:induction false} LossMeans(targets: seq<string>, completed: seq<string>, lower: string -> string)
    ensures LostContext(targets, completed, lower).Some? <==>
              exists i, j :: 0 <= i < |targets| && 0 <= j < |completed|
                && SameWork(lower(targets[i]), lower(completed[j]))
  {
    hide SameWork, FirstOverlap;
    if targets != [] {
      OverlapMeans(completed, targets[0], lower);
      LossMeans(targets[1..], completed, lower);
      if i, j :| 0 <= i < |targets| && 0 <= j < |completed| && SameWork(lower(targets[i]), lower(completed[j])) {
        assert i > 0 ==> SameWork(lower(targets[1..][i - 1]), lower(completed[j]));
      }
    }
  }

  lemma FractionBelow(left: int, total: int, fraction: real)
    requires total > 0
    ensures left as real / total as real < fraction <==> left as real < fraction * total as real
  {
    assert left as real / total as real * total as real == left as real;
  }

  lemma LowMeans(input: Input, t: Thresholds)
    ensures BudgetDetection(input, t) != [] <==> LowSeen(input, t)
    ensures |BudgetDetection(input, t)| <= 1
    ensures forall i :: 0 <= i < |BudgetDetection(input, t)| ==> BudgetDetection(input, t)[i].BudgetLow?
  {
    if input.maxSteps > 0 {
      FractionBelow(input.maxSteps - input.step, input.maxSteps, t.budgetHeadroom);
    }
    if input.tokenBudget.Some? && input.tokenBudget.value > 0 {
      var left := input.tokenBudget.value - input.tokensUsed;
      FractionBelow(Max(left, 0), input.tokenBudget.value, t.budgetHeadroom);
      assert left <= 0 ==> left as real / input.tokenBudget.value as real <= 0.0;
      assert left > 0 ==> left as real / input.tokenBudget.value as real > 0.0;
    }
  }

  /** What one step must answer: stuck exactly when a loop, stagnation or lost context shows, and
      then one rung up the ladder, first a recovery, next a stronger model, at the last rung the
      end; otherwise winding down exactly when the budget runs low. */
  lemma EvaluateOutcome(state: State, input: Input, t: Thresholds, lower: string -> string)
    ensures var e := Evaluate(state, input, t, lower);
            var loop, flat, loss := LoopSeen(input, e.state.actionWindow, t), StagnationSeen(e.state.progressWindow, t),
                                    LossSeen(input, lower);
            && Advanced(state.actionWindow, Signature(input), e.state.actionWindow, t.window)
            && Advanced(state.progressWindow, |input.completedItems|, e.state.progressWindow, t.window)
            && (ReportsLoop(e.detections) <==> loop) && (ReportsStagnation(e.detections) <==> flat)
            && (if loop || flat || loss then
                  if state.escalationLevel >= t.maxEscalations then
                    && e.directive == Terminate(if loop then "loop_unrecovered"
                                                else if flat then "stagnation_unrecovered" else "context_loss_unrecovered")
                    && e.state.escalationLevel == state.escalationLevel && e.state.recoveries == state.recoveries
                  else
                    && e.directive == (if state.recoveries >= 1 then EscalateModel else Recover)
                    && e.state.escalationLevel == state.escalationLevel + (if state.recoveries >= 1 then 1 else 0)
                    && e.state.recoveries == state.recoveries + 1
                else
                  && e.directive == (if LowSeen(input, t) then WindDown else Continue)
                  && e.state.escalationLevel == state.escalationLevel && e.state.recoveries == 0)
  {
    var actions := Push(state.actionWindow, Signature(input), t.window);
    var progress: seq<nat> := Push<nat>(state.progressWindow, |input.completedItems|, t.window);
    PushAdvances(state.actionWindow, Signature(input), t.window);
    PushAdvances(state.progressWindow, |input.completedItems|, t.window);
    hide Push, LoopSeen, StagnationSeen, LossSeen, LowSeen, Looping, Flat, LostContext, BudgetDetection, Advanced;
    LoopingMeans(input, actions, t);
    FlatMeans(progress, t);
    LossShows(input, lower);
    LowMeans(input, t);
    DetectReports(input, actions, progress, t, lower);
    FirstDetection(input, actions, progress, t, lower);
  }

  lemma PushAdvances<T>(before: seq<T>, v: T, window: nat)
    ensures Advanced(before, v, Push(before, v, window), window)
    ensures Push(before, v, window) != [] ==> Push(before, v, window)[|Push(before, v, window)| - 1] == v
  {
  }

  lemma FlatMeans(progress: seq<nat>, t: Thresholds)
    ensures Flat(t, progress) <==> StagnationSeen(progress, t)
  {
  }

  lemma LossShows(input: Input, lower: string -> string)
    ensures LostContext(input.proposedTargets, input.completedItems, lower).Some? <==> LossSeen(input, lower)
  {
    hide LostContext, SameWork;
    LossMeans(input.proposedTargets, input.completedItems, lower);
  }

  /** Stuck detections come first, loops before stagnation before lost context. */
  lemma FirstDetection(input: Input, actions: seq<string>, progress: seq<nat>, t: Thresholds, lower: string -> string)
    ensures var ds := Detect(input, actions, progress, t, lower);
            var loop, flat := Looping(t, Signature(input), actions), Flat(t, progress);
            var loss := LostContext(input.proposedTargets, input.completedItems, lower).Some?;
            && (AnyStuck(ds) <==> loop || flat || loss)
            && (ds != [] <==> loop || flat || loss || BudgetDetection(input, t) != [])
            && (loop ==> ds[0].Loop?) && (!loop && flat ==> ds[0].Stagnation?) && (!loop && !flat && loss ==> ds[0].ContextLoss?)
  {
    LowMeans(input, t);
    hide Looping, Flat, LostContext, BudgetDetection, LowSeen;
    var ds := Detect(input, actions, progress, t, lower);
    if Looping(t, Signature(input), actions) || Flat(t, progress)
       || LostContext(input.proposedTargets, input.completedItems, lower).Some? {
      assert IsStuck(ds[0]);
    }
  }
}
