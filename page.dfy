/**
 * A whole session of the page as a sequence of user and network events, each passed
 * through the gate the rendered page puts in front of it: the upload zone's
 * `disabled`, the generate button's `disabled`, the Remove control that exists only
 * while a file is selected, and the browser's `change` rule. `inFlight` counts the
 * POSTs that have been issued and have not settled yet.
 */
module Page {
  import opened Wrappers
  import opened Text
  import opened Submission
  import opened JobController
  import opened UploadZone

  datatype Session = Session(app: AppState, inputValue: string, inFlight: nat)

  /** A freshly loaded page. */
  function Start(): Session {
    Session(Initial(), "", 0)
  }

  datatype Event =
    | Choose(files: seq<File>, value: string)   // files chosen in the dialog, and the input's new value
    | Drop(files: seq<File>)                     // files dropped on the zone
    | Remove                                     // a click on Remove
    | GenerateClick                              // a click on the generate button
    | Settled(outcome: Outcome)                  // the pending POST settles

  /** `onFileSelect(file)` when the handler found a file to forward. */
  function Forward(s: AppState, f: Option<File>): AppState {
    if f.Some? then SelectFile(s, f) else s
  }

  function Step(s: Session, e: Event): Session {
    match e
    case Choose(files, value) =>
      if InputDelivers(ZoneDisabled(s.app), s.inputValue, value)
      then Session(Forward(s.app, FromPicker(files)), value, s.inFlight)
      else s
    case Drop(files) =>
      s.(app := Forward(s.app, FromDrop(files)))
    case Remove =>
      if RemoveActive(s.app.selectedFile, ZoneDisabled(s.app))
      then Session(SelectFile(s.app, None), "", s.inFlight)
      else s
    case GenerateClick =>
      if GenerateEnabled(s.app) then s.(app := Begin(s.app), inFlight := s.inFlight + 1) else s
    case Settled(o) =>
      if s.inFlight == 0 then s else s.(app := Finish(s.app, o), inFlight := s.inFlight - 1)
  }

  function Run(s: Session, es: seq<Event>): Session
    decreases |es|
  {
    if es == [] then s else Run(Step(s, es[0]), es[1..])
  }

  /** Two events in a row. */
  lemma RunTwo(s: Session, a: Event, b: Event)
    ensures Run(s, [a, b]) == Step(Step(s, a), b)
  {
    assert [a, b][1..] == [b];
    assert [b][1..] == [];
    assert Run(Step(s, a), [b]) == Run(Step(Step(s, a), b), []);
  }

  /** Three events in a row. */
  lemma RunThree(s: Session, a: Event, b: Event, c: Event)
    ensures Run(s, [a, b, c]) == Step(Step(Step(s, a), b), c)
  {
    assert [a, b, c][1..] == [b, c];
    RunTwo(Step(s, a), b, c);
  }

  /**
   * What holds at every point of a session: at most one submission is pending and
   * the loading flag says exactly whether one is; no summary is shown while loading;
   * a shown summary is non-empty; the no-file warning never appears, because the
   * button that would raise it is disabled whenever no file is selected.
   */
  predicate Inv(s: Session) {
    s.inFlight <= 1 &&
    (s.app.isLoading <==> s.inFlight == 1) &&
    (s.app.isLoading ==> s.app.summary.None?) &&
    (s.app.summary.Some? ==> s.app.summary.value != "") &&
    NoFileToast !in s.app.toasts
  }

  lemma StepKeepsInv(s: Session, e: Event)
    requires Inv(s)
    ensures Inv(Step(s, e))
  {
    if e.Settled? && s.inFlight > 0 {
      var r := Finish(s.app, e.outcome);
      assert r.toasts == s.app.toasts + [r.toasts[|s.app.toasts|]];
    }
  }

  lemma {:induction false} RunKeepsInv(s: Session, es: seq<Event>)
    requires Inv(s)
    ensures Inv(Run(s, es))
    decreases |es|
  {
    if es != [] {
      StepKeepsInv(s, es[0]);
      RunKeepsInv(Step(s, es[0]), es[1..]);
    }
  }

  /** Every session, whatever its events, keeps one job at a time and the other facts of `Inv`. */
  lemma OneJobAtATime(es: seq<Event>)
    ensures Run(Start(), es).inFlight <= 1
    ensures Run(Start(), es).app.isLoading <==> Run(Start(), es).inFlight == 1
    ensures Run(Start(), es).app.isLoading ==> Run(Start(), es).app.summary.None?
    ensures NoFileToast !in Run(Start(), es).app.toasts
  {
    RunKeepsInv(Start(), es);
  }

  /** Generate and the settling of a POST never touch the selection. */
  lemma {:induction false} SelectionChangesOnlyInZone(s: Session, es: seq<Event>)
    requires forall i :: 0 <= i < |es| ==> es[i].GenerateClick? || es[i].Settled?
    ensures Run(s, es).app.selectedFile == s.app.selectedFile
    decreases |es|
  {
    if es != [] {
      SelectionChangesOnlyInZone(Step(s, es[0]), es[1..]);
    }
  }

  /** Choosing, dropping and removing files never touch the summary, the loading flag or the notifications. */
  lemma {:induction false} SelectionKeepsSummary(s: Session, es: seq<Event>)
    requires forall i :: 0 <= i < |es| ==> es[i].Choose? || es[i].Drop? || es[i].Remove?
    ensures Run(s, es).app.summary == s.app.summary
    ensures Run(s, es).app.isLoading == s.app.isLoading
    ensures Run(s, es).app.toasts == s.app.toasts
    ensures Run(s, es).inFlight == s.inFlight
    decreases |es|
  {
    if es != [] {
      SelectionKeepsSummary(Step(s, es[0]), es[1..]);
    }
  }

  function Clicks(es: seq<Event>): nat
    decreases |es|
  {
    if es == [] then 0 else (if es[0].GenerateClick? then 1 else 0) + Clicks(es[1..])
  }

  /** Every notification answers a click on generate: notifications plus pending submissions never outnumber the clicks. */
  lemma {:induction false} NotificationsAnswerClicks(s: Session, es: seq<Event>)
    ensures |Run(s, es).app.toasts| + Run(s, es).inFlight <= |s.app.toasts| + s.inFlight + Clicks(es)
    decreases |es|
  {
    if es != [] {
      NotificationsAnswerClicks(Step(s, es[0]), es[1..]);
    }
  }

  /** A drop is not gated: an audio file dropped during a submission still becomes the selection, and the submission goes on. */
  lemma DropWhileLoading(s: Session, f: File, rest: seq<File>)
    requires s.app.isLoading && IsAudio(f)
    ensures Step(s, Drop([f] + rest)).app.selectedFile == Some(f)
    ensures Step(s, Drop([f] + rest)).app.isLoading && Step(s, Drop([f] + rest)).inFlight == s.inFlight
  {
  }

  /** A drop of anything but audio changes nothing. */
  lemma NonAudioDropIgnored(s: Session, f: File, rest: seq<File>)
    requires !IsAudio(f)
    ensures Step(s, Drop([f] + rest)) == s
  {
  }

  /** While loading, the dialog's choices do not reach the (disabled) input and Remove does nothing. */
  lemma PickerAndRemoveGatedWhileLoading(s: Session, files: seq<File>, value: string)
    requires s.app.isLoading
    ensures Step(s, Choose(files, value)) == s
    ensures Step(s, Remove) == s
  {
  }

  /**
   * Choosing the file whose value the input still holds fires no `change`; after
   * Remove has reset the input, the same choice selects the file again.
   */
  lemma RemoveAllowsReselection(s: Session, f: File, value: string)
    requires s.app.selectedFile == Some(f) && !s.app.isLoading && s.inputValue == value && value != ""
    ensures Step(s, Choose([f], value)) == s
    ensures Run(s, [Remove, Choose([f], value)]).app.selectedFile == Some(f)
    ensures Run(s, [Remove, Choose([f], value)]).inputValue == value
  {
    RunTwo(s, Remove, Choose([f], value));
  }

  /** Clearing twice is the same as clearing once, and Remove without a selection is no event at all. */
  lemma ClearIsIdempotent(s: Session)
    ensures SelectFile(SelectFile(s.app, None), None) == SelectFile(s.app, None)
    ensures s.app.selectedFile.None? ==> Step(s, Remove) == s
    ensures Run(s, [Remove, Remove]) == Step(s, Remove)
  {
    RunTwo(s, Remove, Remove);
  }

  /** Choosing a file keeps the summary on display, and the next generate clears it even for the same file. */
  lemma ReselectKeepsSummaryUntilGenerate(s: Session, f: File, value: string)
    requires Inv(s) && !s.app.isLoading && s.app.selectedFile == Some(f)
    requires ChangeFires(s.inputValue, value)
    ensures Step(s, Choose([f], value)).app.summary == s.app.summary
    ensures Step(Step(s, Choose([f], value)), GenerateClick).app.summary.None?
  {
  }

  const Lecture := File("lecture.mp3", 2400000, "audio/mpeg")
  const Notes := File("notes.wav", 800000, "audio/wav")
  const Talk := File("talk.m4a", 1200000, "audio/mp4")

  /** Select, generate, and the service answers with a summary. */
  lemma ScenarioSuccess()
    ensures Run(Start(), [Choose([Lecture], "C:\\fakepath\\lecture.mp3"), GenerateClick,
                          Settled(Resolved(Body(true, Some("Topic X covered."), None)))]).app
            == AppState(Some(Lecture), false, Some("Topic X covered."), [SuccessToast])
  {
    RunThree(Start(), Choose([Lecture], "C:\\fakepath\\lecture.mp3"), GenerateClick,
             Settled(Resolved(Body(true, Some("Topic X covered."), None))));
  }

  /** Generate without a file: the handler only warns, and on the page the button does not even respond. */
  lemma ScenarioNoFile()
    ensures Begin(Initial()) == AppState(None, false, None, [NoFileToast])
    ensures Step(Start(), GenerateClick) == Start()
  {
  }

  /** Select, generate, and the service cannot be reached. */
  lemma ScenarioUnreachable()
    ensures Run(Start(), [Drop([Notes]), GenerateClick, Settled(Rejected(AxiosError(None, Some("ERR_NETWORK"))))]).app
            == AppState(Some(Notes), false, None, [Toast(Destructive, FailureTitle, NetworkMessage)])
  {
    StartsWithConcat(AudioPrefix, "wav");
    assert Notes.mimeType == AudioPrefix + "wav";
    RunThree(Start(), Drop([Notes]), GenerateClick, Settled(Rejected(AxiosError(None, Some("ERR_NETWORK")))));
  }

  /** Select, generate, and the service answers 500 with a structured failure body. */
  lemma ScenarioServerFailure()
    ensures Run(Start(), [Choose([Talk], "C:\\fakepath\\talk.m4a"), GenerateClick,
                          Settled(Rejected(AxiosError(Some(ErrorResponse(500, Some("model overloaded"))), Some("ERR_BAD_RESPONSE"))))]).app.toasts
            == [Toast(Destructive, FailureTitle, "model overloaded")]
  {
    var o := Rejected(AxiosError(Some(ErrorResponse(500, Some("model overloaded"))), Some("ERR_BAD_RESPONSE")));
    RunThree(Start(), Choose([Talk], "C:\\fakepath\\talk.m4a"), GenerateClick, Settled(o));
  }
}
