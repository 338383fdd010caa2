/**
  The calculator's two-step flow: the input view holds an editable draft;
  submitting it computes a result bundle, shows the results view and
  overwrites the single persisted "last result" slot. The slot is write-only
  here: nothing reads it back into the form.
 */
module Flow {
  import opened Estimator
  import opened Form

  /** An ISO-8601 time stamp supplied by the clock at submission. */
  type Timestamp = string

  /** What a submission computes. */
  datatype ResultBundle = ResultBundle(
    schoolName: Value,
    studentCount: Value,
    current: MetricSet,
    predicted: ByHorizon,
    improvements: ByHorizon)

  /** The persisted copy of a bundle, stamped with its submission time. */
  datatype Saved = Saved(bundle: ResultBundle, timestamp: Timestamp)

  datatype View = Input | Results

  /** The controller's state together with the browser's storage slot. */
  datatype State = State(view: View, draft: Draft, results: Option<ResultBundle>, stored: Option<Saved>)

  datatype Option<T> = None | Some(value: T)

  /** The user actions the calculator handles. */
  datatype Event =
    | Change(edit: Edit)
    | Submit(now: Timestamp)
    | Reset
    | TryAnother

  const SchoolFallback := "Your School"
  const CountFallback := "500+"

  /** A falsy label is replaced by its fallback text. */
  function Label(v: Value, fallback: string): (r: Value)
    requires fallback != ""
    ensures Falsy(v) ==> r == Text(fallback)
    ensures !Falsy(v) ==> r == v
    ensures !Falsy(r)
  {
    if Falsy(v) then Text(fallback) else v
  }

  /** A bundle whose improvements and projections agree with its baseline. */
  predicate Coherent(b: ResultBundle) {
    && (forall h, m :: b.predicted.At(h).Get(m) == Project(h, m, b.current.Get(m)))
    && (forall h, m :: b.improvements.At(h).Get(m) == b.predicted.At(h).Get(m) - b.current.Get(m))
  }

  /** The submit handler's computation. */
  function Calculate(d: Draft): (b: ResultBundle)
    ensures b.current == d.scores
    ensures Falsy(d.schoolName) ==> b.schoolName == Text(SchoolFallback)
    ensures !Falsy(d.schoolName) ==> b.schoolName == d.schoolName
    ensures Falsy(d.studentCount) ==> b.studentCount == Text(CountFallback)
    ensures !Falsy(d.studentCount) ==> b.studentCount == d.studentCount
    ensures forall h, m :: b.predicted.At(h).Get(m) <= Cap(h)
    ensures Coherent(b)
  {
    var predicted := Predict(d.scores);
    ResultBundle(
      Label(d.schoolName, SchoolFallback),
      Label(d.studentCount, CountFallback),
      d.scores,
      predicted,
      Improvements(predicted, d.scores))
  }

  /** The numbers of a bundle depend on the scores only, never on the labels. */
  lemma NumbersIgnoreLabels(d1: Draft, d2: Draft)
    requires d1.scores == d2.scores
    ensures Calculate(d1).predicted == Calculate(d2).predicted
    ensures Calculate(d1).improvements == Calculate(d2).improvements
  {
  }

  /** The state on mount; `previous` is whatever an earlier page left in storage. */
  function Init(previous: Option<Saved>): State {
    State(Input, DefaultDraft, None, previous)
  }

  /** The calculator mounts on the form, with the default draft, no results and the invariant. */
  lemma InitialState(previous: Option<Saved>)
    ensures Init(previous).view == Input
    ensures Init(previous).results == None
    ensures Init(previous).draft == Draft(Text(""), Text(""), MetricSet(45, 38, 52, 61))
    ensures Init(previous).stored == previous
    ensures Inv(Init(previous))
  {
  }

  /** Whether the current view renders the control that raises an event. */
  function Offered(v: View, ev: Event): (r: bool)
    ensures ev.TryAnother? ==> (r <==> v == Results)
    ensures !ev.TryAnother? ==> (r <==> v == Input)
  {
    match ev
    case Change(_) => v == Input
    case Submit(_) => v == Input
    case Reset => v == Input
    case TryAnother => v == Results
  }

  predicate WellFormedEvent(ev: Event) {
    ev.Change? ==> WellFormed(ev.edit)
  }

  /**
    The reachable-state invariant: the results view always has a bundle; a
    bundle is always coherent and is exactly what the storage slot holds.
   */
  predicate Inv(s: State) {
    && (s.view == Results ==> s.results.Some?)
    && (s.results.Some? ==> Coherent(s.results.value))
    && (s.results.Some? ==> s.stored.Some? && s.stored.value.bundle == s.results.value)
  }

  /** One user action. An action whose control is not on screen changes nothing. */
  function Next(s: State, ev: Event): (t: State)
    requires WellFormedEvent(ev)
    ensures Inv(s) ==> Inv(t)
    ensures t.stored != s.stored ==> ev.Submit?
    ensures t.results != s.results ==> ev.Submit?
    ensures t.view != s.view ==> ev.Submit? || ev.TryAnother?
    ensures t.draft != s.draft ==> ev.Change? || ev.Reset?
    ensures s.results.Some? ==> t.results.Some?
  {
    if !Offered(s.view, ev) then s
    else
      match ev
      case Change(e) => s.(draft := ApplyEdit(s.draft, e))
      case Submit(now) =>
        var b := Calculate(s.draft);
        s.(view := Results, results := Some(b), stored := Some(Saved(b, now)))
      case Reset => s.(draft := DefaultDraft)
      case TryAnother => s.(view := Input)
  }

  /** A control that the current view does not render cannot change anything. */
  lemma OffScreenControlsDoNothing(s: State, ev: Event)
    requires WellFormedEvent(ev) && (s.view == Results) != ev.TryAnother?
    ensures Next(s, ev) == s
  {
  }

  /** On the results screen every action other than "Try Another Scenario" leaves the state as it is. */
  lemma {:induction false} ResultsScreenIsFrozen(s: State, evs: seq<Event>)
    requires AllWellFormed(evs) && s.view == Results
    requires forall i :: 0 <= i < |evs| ==> !evs[i].TryAnother?
    ensures Run(s, evs) == s
    decreases |evs|
  {
    if |evs| > 0 {
      OffScreenControlsDoNothing(s, evs[0]);
      ResultsScreenIsFrozen(Next(s, evs[0]), evs[1..]);
    }
  }

  /** An edit changes only the named draft field. */
  lemma ChangeTouchesOnlyField(s: State, e: Edit)
    requires WellFormed(e) && s.view == Input
    ensures Next(s, Change(e)).view == s.view
    ensures Next(s, Change(e)).results == s.results
    ensures Next(s, Change(e)).stored == s.stored
    ensures FieldValue(Next(s, Change(e)).draft, e.field) == Coerce(e.raw, e.kind)
    ensures forall f :: f != e.field ==> FieldValue(Next(s, Change(e)).draft, f) == FieldValue(s.draft, f)
  {
  }

  /** Submitting shows the draft's bundle and overwrites the slot with it. */
  lemma SubmitShowsAndPersists(s: State, now: Timestamp)
    requires s.view == Input
    ensures Next(s, Submit(now)).view == Results
    ensures Next(s, Submit(now)).draft == s.draft
    ensures Next(s, Submit(now)).results == Some(Calculate(s.draft))
    ensures Next(s, Submit(now)).stored == Some(Saved(Calculate(s.draft), now))
  {
  }

  /** Reset restores the initial draft and nothing else. */
  lemma ResetRestoresInitialDraft(s: State)
    requires s.view == Input
    ensures Next(s, Reset).draft == DefaultDraft
    ensures Next(s, Reset).view == s.view
    ensures Next(s, Reset).results == s.results
    ensures Next(s, Reset).stored == s.stored
  {
  }

  /** "Try Another Scenario" returns to the form, which still holds the last draft. */
  lemma TryAnotherOnlySwitchesView(s: State)
    requires s.view == Results
    ensures Next(s, TryAnother).view == Input
    ensures Next(s, TryAnother).draft == s.draft
    ensures Next(s, TryAnother).results == s.results
    ensures Next(s, TryAnother).stored == s.stored
  {
  }

  /** Returning and re-submitting without edits reproduces the bundle; only the stamp differs. */
  lemma ResubmitReproducesBundle(s: State, t1: Timestamp, t2: Timestamp)
    requires s.view == Input
    ensures var s1 := Next(s, Submit(t1));
            var s2 := Next(Next(s1, TryAnother), Submit(t2));
            && s2.results == s1.results
            && s2.draft == s1.draft
            && s2.stored == Some(Saved(s1.stored.value.bundle, t2))
  {
  }

  /** Submitting, going back and resetting keeps the stored result from the submission. */
  lemma ResetKeepsPersistedResult(s: State, now: Timestamp)
    requires s.view == Input
    ensures var s3 := Next(Next(Next(s, Submit(now)), TryAnother), Reset);
            && s3.view == Input
            && s3.draft == DefaultDraft
            && s3.stored == Some(Saved(Calculate(s.draft), now))
  {
  }

  predicate AllWellFormed(evs: seq<Event>) {
    forall i :: 0 <= i < |evs| ==> WellFormedEvent(evs[i])
  }

  /** A sequence of user actions, applied in order. */
  function Run(s: State, evs: seq<Event>): (t: State)
    requires AllWellFormed(evs)
    ensures Inv(s) ==> Inv(t)
    ensures (forall i :: 0 <= i < |evs| ==> !evs[i].Submit?) ==> t.stored == s.stored && t.results == s.results
    ensures s.results.Some? ==> t.results.Some?
    decreases |evs|
  {
    if |evs| == 0 then s else Run(Next(s, evs[0]), evs[1..])
  }

  /** Every state the calculator can reach satisfies the invariant. */
  lemma ReachableSatisfiesInv(previous: Option<Saved>, evs: seq<Event>)
    requires AllWellFormed(evs)
    ensures Inv(Run(Init(previous), evs))
  {
  }

  /** Once the results view has been shown, the slot holds the bundle on display. */
  lemma {:induction false} ShownResultIsPersisted(previous: Option<Saved>, evs: seq<Event>, k: nat)
    requires AllWellFormed(evs) && k <= |evs|
    requires Run(Init(previous), evs[..k]).view == Results
    ensures Run(Init(previous), evs).results.Some? && Run(Init(previous), evs).stored.Some?
    ensures Run(Init(previous), evs).stored.value.bundle == Run(Init(previous), evs).results.value
  {
    ReachableSatisfiesInv(previous, evs[..k]);
    RunSplits(Init(previous), evs, k);
  }

  /** Running a sequence is running its prefix and then its suffix. */
  lemma {:induction false} RunSplits(s: State, evs: seq<Event>, k: nat)
    requires AllWellFormed(evs) && k <= |evs|
    ensures Run(s, evs) == Run(Run(s, evs[..k]), evs[k..])
    decreases k
  {
    if k > 0 {
      assert evs[..k][1..] == evs[1..][..k - 1];
      assert evs[k..] == evs[1..][k - 1..];
      RunSplits(Next(s, evs[0]), evs[1..], k - 1);
    }
  }
}
