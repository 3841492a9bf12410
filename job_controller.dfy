/**
 * The `App` component of frontend/src/App.tsx as a state machine: three state
 * cells (`selectedFile`, `isLoading`, `summary`) plus the stream of notifications,
 * and `handleGenerateSummary` split at its single `await` into the part that runs
 * before the POST and the part that runs once the POST settles.
 */
module JobController {
  import opened Wrappers
  import opened Text
  import opened Submission

  /** A browser `File`: an opaque handle with a name, a size and a declared media type. */
  datatype File = File(name: string, size: nat, mimeType: string)

  /** The POST the client issues: the resolved endpoint and the file sent as `arquivo`. */
  datatype Request = Request(url: string, file: File)

  /** The component's state cells and the notifications emitted so far. */
  datatype AppState = AppState(selectedFile: Option<File>, isLoading: bool, summary: Option<string>, toasts: seq<Toast>)

  /** The `useState` initial values; no notification yet. */
  function Initial(): AppState {
    AppState(None, false, None, [])
  }

  /** `setSelectedFile(f)`, the setter handed to the upload zone as `onFileSelect`. */
  function SelectFile(s: AppState, f: Option<File>): (r: AppState)
    ensures r.selectedFile == f
    ensures r.isLoading == s.isLoading && r.summary == s.summary && r.toasts == s.toasts
  {
    s.(selectedFile := f)
  }

  /**
   * `handleGenerateSummary` up to the await: without a file it only notifies;
   * with one it turns loading on and drops whatever summary was shown, whether or
   * not the file is the one that produced it.
   */
  function Begin(s: AppState): (r: AppState)
    ensures r.selectedFile == s.selectedFile
    ensures s.selectedFile.None? ==>
      r.isLoading == s.isLoading && r.summary == s.summary && r.toasts == s.toasts + [NoFileToast]
    ensures s.selectedFile.Some? ==> r.isLoading && r.summary.None? && r.toasts == s.toasts
  {
    if s.selectedFile.None? then s.(toasts := s.toasts + [NoFileToast])
    else s.(isLoading := true, summary := None)
  }

  /**
   * `handleGenerateSummary` after the await: the try block and the catch clause,
   * which between them emit exactly one notification, then the `finally`.
   */
  function Finish(s: AppState, o: Outcome): (r: AppState)
    ensures !r.isLoading && r.selectedFile == s.selectedFile
    ensures |r.toasts| == |s.toasts| + 1 && r.toasts[..|s.toasts|] == s.toasts
    ensures Settle(o).Succeeded? ==>
      r.summary == Some(Settle(o).summary) && r.toasts[|s.toasts|] == SuccessToast
    ensures Settle(o).Failed? ==>
      r.summary == s.summary &&
      r.toasts[|s.toasts|] == Toast(Destructive, FailureTitle, Settle(o).detail)
  {
    match Settle(o)
    case Succeeded(text) => s.(summary := Some(text), toasts := s.toasts + [SuccessToast], isLoading := false)
    case Failed(detail) => s.(toasts := s.toasts + [VerdictToast(Failed(detail))], isLoading := false)
  }

  /** The generate button's `disabled={!selectedFile || isLoading}`, negated. */
  predicate GenerateEnabled(s: AppState) {
    s.selectedFile.Some? && !s.isLoading
  }

  /** The upload zone's `disabled={isLoading}`. */
  predicate ZoneDisabled(s: AppState) {
    s.isLoading
  }

  /**
   * One generate from a state with a file, followed by the POST settling: the file
   * stays selected, loading is off, the summary is the new one or none at all (an
   * older summary never survives), and exactly the verdict's notification is added.
   */
  lemma GenerateThenSettle(s: AppState, o: Outcome)
    requires s.selectedFile.Some?
    ensures Finish(Begin(s), o).selectedFile == s.selectedFile
    ensures !Finish(Begin(s), o).isLoading
    ensures Finish(Begin(s), o).summary == if Settle(o).Succeeded? then Some(Settle(o).summary) else None
    ensures Finish(Begin(s), o).toasts == s.toasts + [VerdictToast(Settle(o))]
  {
  }

  /** The enabled generate button always begins a submission rather than warning. */
  lemma EnabledGenerateStartsSubmission(s: AppState)
    requires GenerateEnabled(s)
    ensures Begin(s).isLoading && Begin(s).toasts == s.toasts && Begin(s) != s
  {
  }

  /** The state of one mounted `App`. */
  class App {
    /** `API_ENDPOINT`, fixed when the module is loaded. */
    const endpoint: string
    var selectedFile: Option<File>
    var isLoading: bool
    var summary: Option<string>
    /** Every notification passed to `toast`, oldest first. */
    var toasts: seq<Toast>

    function State(): AppState
      reads this
    {
      AppState(selectedFile, isLoading, summary, toasts)
    }

    constructor (viteApiUrl: Option<string>)
      ensures endpoint == ResolveEndpoint(viteApiUrl)
      ensures State() == Initial()
    {
      endpoint := ResolveEndpoint(viteApiUrl);
      selectedFile, isLoading, summary, toasts := None, false, None, [];
    }

    /** `setSelectedFile`. */
    method SetSelectedFile(f: Option<File>)
      modifies this
      ensures State() == SelectFile(old(State()), f)
    {
      selectedFile := f;
    }

    /**
     * `handleGenerateSummary` up to `await axios.post(...)`. Returns the request it
     * issues, or none when the guard stops it.
     */
    method BeginGenerate() returns (request: Option<Request>)
      modifies this
      ensures State() == Begin(old(State()))
      ensures request.Some? <==> old(selectedFile).Some?
      ensures request.Some? ==> request.value == Request(endpoint, old(selectedFile).value)
    {
      if selectedFile.None? {
        toasts := toasts + [NoFileToast];
        return None;
      }
      isLoading := true;
      summary := None;
      request := Some(Request(endpoint, selectedFile.value));
    }

    /** The rest of `handleGenerateSummary`, once the POST has settled with `outcome`. */
    method Complete(outcome: Outcome)
      modifies this
      ensures State() == Finish(old(State()), outcome)
    {
      var thrown: Option<Thrown> := None;
      match outcome {
        case Resolved(data) =>
          if data.sucesso && Truthy(data.resumo) {
            summary := data.resumo;
            toasts := toasts + [SuccessToast];
          } else {
            thrown := Some(Rejection(data));
          }
        case Rejected(error) =>
          thrown := Some(error);
      }
      if thrown.Some? {
        var errorMessage := CatchMessage(thrown.value);
        toasts := toasts + [Toast(Destructive, FailureTitle, errorMessage)];
      }
      isLoading := false;
    }

    /** Whether the generate button accepts a click. */
    function GenerateButtonEnabled(): (enabled: bool)
      reads this
      ensures enabled == GenerateEnabled(State())
    {
      !(selectedFile.None? || isLoading)
    }

    /** A click on the generate button: a disabled button ignores it, an enabled one runs the handler. */
    method PressGenerate() returns (request: Option<Request>)
      modifies this
      ensures GenerateEnabled(old(State())) ==> State() == Begin(old(State())) && request.Some?
      ensures !GenerateEnabled(old(State())) ==> State() == old(State()) && request.None?
      ensures request.Some? ==> request.value == Request(endpoint, old(selectedFile).value)
    {
      request := None;
      if GenerateButtonEnabled() {
        request := BeginGenerate();
      }
    }
  }
}
