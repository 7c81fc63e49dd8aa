/** What is known of a frame is what was said of it last: its loader, its url and name, how far it has
    loaded, the request that brought it. */
module FrameFacts {
  import opened Wrappers
  import opened FrameTree
  import opened FrameEvents
  import opened FrameReloads

  datatype Fact = Loaded | Parsed | Loader(loader: LoaderId) | Url(url: string) | Name(name: string)
                | Finished(request: string)

  predicate Holds(f: Frame, fact: Fact) {
    match fact
    case Loaded => "load" in f.events
    case Parsed => "DOMContentLoaded" in f.events
    case Loader(l) => f.loader == Some(l)
    case Url(u) => f.url == Some(u)
    case Name(n) => f.name == Some(n)
    case Finished(r) => f.request == Some(r)
  }

  predicate Has(frames: Frames, id: FrameId, fact: Fact) { id in frames && Holds(frames[id], fact) }

  /** The navigation of a frame that is known, or of the page. */
  predicate Navigates(m: Manager, input: Input, id: FrameId) {
    input.Navigated? && input.cdp.id == id && (input.cdp.parent.Some? ==> id in m.frames)
  }

  /** A top-level navigation makes the frame the main one, in place of one of which this holds. */
  predicate TakesOver(m: Manager, input: Input, id: FrameId, fact: Fact) {
    && input.Navigated? && input.cdp.parent.None? && input.cdp.id == id
    && m.main.Some? && Has(m.frames, m.main.value, fact)
  }

  predicate Milestone(m: Manager, input: Input, id: FrameId, ev: string) {
    id in m.frames && (input == StoppedLoading(id) || (input.Lifecycle? && input.id == id && input.name == ev))
  }

  /** The event says this of the frame. */
  predicate Gives(m: Manager, input: Input, id: FrameId, fact: Fact) {
    match fact
    case Loaded => Milestone(m, input, id, "load") || TakesOver(m, input, id, fact)
    case Parsed => Milestone(m, input, id, "DOMContentLoaded") || TakesOver(m, input, id, fact)
    case Loader(l) => (id in m.frames && input == Lifecycle(id, l, "init")) || TakesOver(m, input, id, fact)
    case Url(u) =>
      || (id in m.frames && input == WithinDocument(id, u))
      || (Navigates(m, input, id)
          && u == if input.cdp.fragment.Some? then input.cdp.url + input.cdp.fragment.value else input.cdp.url)
    case Name(n) => Navigates(m, input, id) && input.cdp.name == Some(n)
    case Finished(r) => (id in m.frames && input == RequestFinished(Some(id), r)) || TakesOver(m, input, id, fact)
  }

  /** The event says something else of it, or makes what was said out of date. */
  predicate Outdates(input: Input, id: FrameId, fact: Fact) {
    match fact
    case Loaded => input == StartedLoading(id) || (input.Lifecycle? && input.id == id && input.name == "init")
    case Parsed => input == StartedLoading(id) || (input.Lifecycle? && input.id == id && input.name == "init")
    case Loader(_) => input.Lifecycle? && input.id == id && input.name == "init"
    case Url(_) => (input.WithinDocument? && input.id == id) || (input.Navigated? && input.cdp.id == id)
    case Name(_) => input.Navigated? && input.cdp.id == id
    case Finished(_) => input == StartedLoading(id) || (input.RequestFinished? && input.frame == Some(id))
  }

  // ---------------------------------------------------------------- one step

  ghost predicate StepsRight(m: Manager, input: Input, id: FrameId, fact: Fact)
    requires Step(m, input).Running?
  {
    Has(Step(m, input).m.frames, id, fact) <==>
      Gives(m, input, id, fact) || (Has(m.frames, id, fact) && !Outdates(input, id, fact) && !Removes(m, input, id))
  }

  lemma OnlyKnownAbove(frames: Frames, a: FrameId, d: FrameId)
    requires InSubtree(frames, a, d)
    ensures a in frames
  {
    var n: nat :| Up(frames, d, n) == Some(a);
    UpEndsInside(frames, d, n);
  }

  lemma TopNavigationFacts(m: Manager, input: Input, id: FrameId, fact: Fact)
    requires Inv(m) && input.Navigated? && input.cdp.parent.None? && Step(m, input).Running?
    ensures StepsRight(m, input, id, fact)
  {
    if IsTree(m.main, m.frames) { NavigateTopIsSingleton(m.main, m.frames, input.cdp); }
  }

  lemma ChildNavigationFacts(m: Manager, input: Input, id: FrameId, fact: Fact)
    requires input.Navigated? && input.cdp.parent.Some?
    ensures StepsRight(m, input, id, fact)
  {
    if InSubtree(m.frames, input.cdp.id, id) { OnlyKnownAbove(m.frames, input.cdp.id, id); }
  }

  lemma DetachedFacts(m: Manager, input: Input, id: FrameId, fact: Fact)
    requires input.Detached?
    ensures StepsRight(m, input, id, fact)
  {
    if InSubtree(m.frames, input.id, id) { OnlyKnownAbove(m.frames, input.id, id); }
  }

  predicate OfFrame(input: Input) {
    || input.Lifecycle? || input.StartedLoading? || input.StoppedLoading?
    || input.WithinDocument? || input.RequestFinished?
  }

  lemma FrameEventFacts(m: Manager, input: Input, id: FrameId, fact: Fact)
    requires OfFrame(input)
    ensures StepsRight(m, input, id, fact)
  {
  }

  lemma OtherFacts(m: Manager, input: Input, id: FrameId, fact: Fact)
    requires !input.Navigated? && !input.Detached? && !OfFrame(input) && Step(m, input).Running?
    ensures StepsRight(m, input, id, fact)
  {
  }

  lemma StepFacts(m: Manager, input: Input, id: FrameId, fact: Fact)
    requires Inv(m) && Step(m, input).Running?
    ensures StepsRight(m, input, id, fact)
  {
    if input.Navigated? {
      if input.cdp.parent.None? { TopNavigationFacts(m, input, id, fact); }
      else { ChildNavigationFacts(m, input, id, fact); }
    } else if input.Detached? { DetachedFacts(m, input, id, fact); }
    else if OfFrame(input) { FrameEventFacts(m, input, id, fact); }
    else { OtherFacts(m, input, id, fact); }
  }

  // ---------------------------------------------------------------- whole runs

  ghost predicate SaidAt(inputs: seq<Input>, k: nat, id: FrameId, fact: Fact) {
    k < |inputs| && Run(inputs[..k]).Live? && Gives(Run(inputs[..k]).m, inputs[k], id, fact)
  }

  /** The step does not outdate it and does not remove the frame. */
  ghost predicate LeavesAt(inputs: seq<Input>, m: nat, id: FrameId, fact: Fact)
    requires m < |inputs|
  {
    Run(inputs[..m]).Live? ==> !Outdates(inputs[m], id, fact) && !Removes(Run(inputs[..m]).m, inputs[m], id)
  }

  ghost predicate Stands(inputs: seq<Input>, from: nat, id: FrameId, fact: Fact) {
    forall m: nat | from <= m < |inputs| :: LeavesAt(inputs, m, id, fact)
  }

  lemma LeavesEarlier(inputs: seq<Input>, m: nat, id: FrameId, fact: Fact)
    requires m + 1 < |inputs|
    ensures LeavesAt(inputs[..|inputs| - 1], m, id, fact) <==> LeavesAt(inputs, m, id, fact)
  {
    assert inputs[..|inputs| - 1][..m] == inputs[..m];
  }

  ghost predicate SaidLast(inputs: seq<Input>, id: FrameId, fact: Fact) {
    exists k: nat :: SaidAt(inputs, k, id, fact) && Stands(inputs, k + 1, id, fact)
  }

  lemma LeavesNow(inputs: seq<Input>, id: FrameId, fact: Fact)
    requires inputs != [] && Run(inputs[..|inputs| - 1]).Live?
    ensures var n := |inputs| - 1;
      LeavesAt(inputs, n, id, fact) <==>
        !Outdates(inputs[n], id, fact) && !Removes(Run(inputs[..n]).m, inputs[n], id)
  {
  }

  lemma StandsUnfold(inputs: seq<Input>, from: nat, id: FrameId, fact: Fact)
    requires from < |inputs|
    ensures var n := |inputs| - 1;
      Stands(inputs, from, id, fact) <==> Stands(inputs[..n], from, id, fact) && LeavesAt(inputs, n, id, fact)
  {
    var n := |inputs| - 1;
    forall m: nat | m < n ensures LeavesAt(inputs[..n], m, id, fact) <==> LeavesAt(inputs, m, id, fact) {
      LeavesEarlier(inputs, m, id, fact);
    }
  }

  lemma SaidEarlier(inputs: seq<Input>, k: nat, id: FrameId, fact: Fact)
    requires k + 1 < |inputs|
    ensures SaidAt(inputs[..|inputs| - 1], k, id, fact) <==> SaidAt(inputs, k, id, fact)
  {
    assert inputs[..|inputs| - 1][..k] == inputs[..k];
  }

  ghost predicate LeavesLast(inputs: seq<Input>, id: FrameId, fact: Fact)
    requires inputs != []
  {
    LeavesAt(inputs, |inputs| - 1, id, fact)
  }

  lemma SaidBefore(inputs: seq<Input>, id: FrameId, fact: Fact)
    requires inputs != [] && Run(inputs[..|inputs| - 1]).Live? && SaidLast(inputs, id, fact)
    ensures SaidAt(inputs, |inputs| - 1, id, fact)
         || (SaidLast(inputs[..|inputs| - 1], id, fact) && LeavesLast(inputs, id, fact))
  {
    var n := |inputs| - 1;
    var k: nat :| SaidAt(inputs, k, id, fact) && Stands(inputs, k + 1, id, fact);
    if k < n {
      SaidEarlier(inputs, k, id, fact);
      StandsUnfold(inputs, k + 1, id, fact);
    }
  }

  lemma SaidOn(inputs: seq<Input>, id: FrameId, fact: Fact)
    requires inputs != [] && Run(inputs[..|inputs| - 1]).Live?
    requires SaidLast(inputs[..|inputs| - 1], id, fact) && LeavesLast(inputs, id, fact)
    ensures SaidLast(inputs, id, fact)
  {
    var p := inputs[..|inputs| - 1];
    var k: nat :| SaidAt(p, k, id, fact) && Stands(p, k + 1, id, fact);
    SaidEarlier(inputs, k, id, fact);
    StandsUnfold(inputs, k + 1, id, fact);
  }

  lemma SaidUnfold(inputs: seq<Input>, id: FrameId, fact: Fact)
    requires inputs != [] && Run(inputs[..|inputs| - 1]).Live?
    ensures var n := |inputs| - 1;
      SaidLast(inputs, id, fact) <==>
        SaidAt(inputs, n, id, fact) || (SaidLast(inputs[..n], id, fact) && LeavesLast(inputs, id, fact))
  {
    var n := |inputs| - 1;
    if SaidLast(inputs, id, fact) { SaidBefore(inputs, id, fact); }
    if SaidAt(inputs, n, id, fact) { assert Stands(inputs, n + 1, id, fact); }
    if SaidLast(inputs[..n], id, fact) && LeavesLast(inputs, id, fact) { SaidOn(inputs, id, fact); }
  }

  /** On every run something is known of a frame exactly when an event said so and since then nothing made
      it out of date and the frame was not removed.  In particular a `load` that counts is younger than
      the last thing that began to load its frame. */
  lemma {:induction false} KnownExactlyWhen(inputs: seq<Input>, id: FrameId, fact: Fact)
    requires Run(inputs).Live?
    ensures Has(Run(inputs).m.frames, id, fact) <==> SaidLast(inputs, id, fact)
  {
    if inputs != [] {
      var n := |inputs| - 1;
      KnownExactlyWhen(inputs[..n], id, fact);
      TreeOnEveryRun(inputs[..n]);
      StepFacts(Run(inputs[..n]).m, inputs[n], id, fact);
      LeavesNow(inputs, id, fact);
      SaidUnfold(inputs, id, fact);
    }
  }
}
