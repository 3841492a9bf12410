# Audio-summary client: job controller and file selector

A Dafny model of the interactive core of a single-page client that takes an audio
recording of a class, posts it to a summarisation service, and shows the summary it
gets back. The model covers the two components that hold state and control flow:

- the job controller, `App` in frontend/src/App.tsx. It holds the three state cells
  `selectedFile`, `isLoading` and `summary`. It resolves the service endpoint once when
  the module loads. It runs `handleGenerateSummary`, which guards on a missing file,
  starts a job, awaits one POST, reads the reply, classifies any failure into one
  message, notifies the user, and finally turns loading off;
- the file selector, `AudioUploadZone` in frontend/src/components/AudioUploadZone.tsx.
  A click opens the file dialog and the first chosen file is forwarded. A drop forwards
  the first dropped file only if it is audio. Remove forwards `null` and resets the
  input widget.

Modules:

- `Wrappers`: `Option`, standing for JavaScript's `null`/`undefined`.
- `Text`: JavaScript truthiness of an optional string, `startsWith` (proved equal to
  the slice definition of a prefix), and the decimal rendering of a status code, with
  its parse-back round trip.
- `Submission`: the endpoint rule, the reply and error types, the success test, the
  error classifier (once as a precedence-ordered function, once as the source's
  default-then-overwrite `if`/`else` chain, proved equal), and the notifications.
- `JobController`: the state record `AppState` and its pure transitions. `Begin` is
  the part of the handler before the `await`, `Finish` the part after it. The class
  `App` holds the same cells as mutable fields; its methods `SetSelectedFile`,
  `BeginGenerate` and `Complete` are proved to perform exactly those transitions.
- `UploadZone`: the picker and drop acceptance rules as functions. The class
  `AudioUploadZone` holds the input's value and a reference to its parent `App`
  (`onFileSelect` is the parent's setter, `disabled` the parent's `isLoading`).
- `Page`: a whole session as a sequence of events. Each event passes through the gate
  the rendered page puts in front of it (zone `disabled`, button `disabled`, Remove
  rendered only with a file, the browser's `change` rule), written with the same gate
  predicates (`GenerateEnabled`, `ZoneDisabled`, `InputDelivers`, `RemoveActive`) that the
  class methods `App.PressGenerate`, `AudioUploadZone.InputChange` and
  `AudioUploadZone.PressRemove` use. `inFlight` counts the POSTs
  still pending. The invariants are proved by induction over every event sequence:
  one job at a time, no summary while loading, no no-file warning reachable from the
  page.

Behaviour that the model follows as the code has it:

- Choosing or dropping a file sets only `selectedFile`. A summary already shown stays
  until the next generate begins (frontend/src/App.tsx:101).
- Every generate with a file clears the summary, even a resubmission of the same file
  (frontend/src/App.tsx:31).
- The drop handler has no `disabled` check. An audio drop therefore replaces the
  selection even while a submission is pending (frontend/src/components/AudioUploadZone.tsx:21-27).
- The connectivity message always names `http://127.0.0.1:8001`, whatever endpoint is
  configured (frontend/src/App.tsx:63).
- A reply of the bundled service that reports a failure carries its reason under
  `erro`, not `mensagem` (backend/main.py:89). The client therefore shows the generic
  "Erro ao processar o áudio" for it.

## Model

| member | source | states |
|---|---|---|
| `Text.OrElse` | frontend/src/App.tsx:52 | JavaScript `or` of an optional string and a fallback is the string when it is present and non-empty, the fallback otherwise |
| `Text.StartsWithIsPrefix` | frontend/src/components/AudioUploadZone.tsx:24 | the character-by-character `startsWith` holds exactly when the prefix fits and the string's leading slice equals it |
| `Text.StartsWithConcat` | frontend/src/components/AudioUploadZone.tsx:24 | any string starts with `p` once `p` is put in front of it |
| `Text.Decimal` | frontend/src/App.tsx:61 | the rendering of a status is a non-empty string of digits with no leading zero |
| `Text.ParseDecimalOfDecimal` | frontend/src/App.tsx:61 | reading the rendered digits back gives the status again |
| `Submission.ResolveEndpoint` | frontend/src/App.tsx:10-12 | the endpoint always ends with `/transcrever-audio`; what precedes the route is the configured base when that is non-empty, else `http://127.0.0.1:8001` |
| `Submission.ServerErrorMessageNamesStatus` | frontend/src/App.tsx:61 | `Erro do servidor: <status>` can be parsed back to the very status it was built from |
| `Submission.ServerErrorMessageInjective` | frontend/src/App.tsx:61 | two different statuses never produce the same server-error message |
| `Submission.ErrorMessage` | frontend/src/App.tsx:57-67 | an axios error with a response gives `mensagem` or `Erro do servidor: <status>` whatever its code, `ERR_NETWORK` included; one without a response gives the connectivity message iff its code is `ERR_NETWORK`, the default otherwise; a plain `Error` gives its message verbatim; anything else gives the default; only an empty `Error` message yields an empty message |
| `Submission.CatchMessage` | frontend/src/App.tsx:57-67 | the source's chain (default message, axios response or `ERR_NETWORK` or plain `Error` overwriting it) computes exactly the classifier's message |
| `Submission.Interpret` | frontend/src/App.tsx:45-46 | a 2xx body is a success iff `sucesso` is true and `resumo` is present and non-empty; the summary is then that `resumo` |
| `Submission.Settle` | frontend/src/App.tsx:43-67 | success iff a 2xx body passes the success test; a 2xx body that fails it gives `mensagem` or "Erro ao processar o áudio"; a rejection gives the classifier's message |
| `Submission.StructuredFailureShowsMensagem` | frontend/src/App.tsx:51-61 | a failure body with a non-empty `mensagem` shows that text with any HTTP status and any axios code, as a 2xx body and as an error reply |
| `Submission.StructuredFailureWithoutMensagem` | frontend/src/App.tsx:51-61 | without a usable `mensagem`, a 2xx failure body shows the generic fallback and an error reply, with any axios code, shows `Erro do servidor: <status>` |
| `Submission.NetworkFailureMessage` | frontend/src/App.tsx:57-64 | no response with code `ERR_NETWORK` gives the fixed message ending in `http://127.0.0.1:8001`; no response with any other code gives the default message |
| `Submission.VerdictToast` | frontend/src/App.tsx:47-73 | a success emits the one "Resumo gerado com sucesso!" toast; a failure emits a destructive toast titled "Erro ao gerar resumo" whose description is the failure's detail |
| `JobController.SelectFile` | frontend/src/App.tsx:101 | a selection sets `selectedFile` and leaves loading, summary and notifications as they were |
| `JobController.Begin` | frontend/src/App.tsx:20-31 | without a file: one "Nenhum arquivo selecionado" toast and nothing else changes; with one: loading on, summary cleared, no toast; the selection is never changed |
| `JobController.Finish` | frontend/src/App.tsx:43-76 | after any outcome loading is off, the selection is kept and exactly one toast is appended; on success the summary is the reply's, on failure the summary is untouched and the toast is the destructive failure toast carrying the detail |
| `JobController.GenerateThenSettle` | frontend/src/App.tsx:30-76 | from a state with a file, generate then settle keeps the file, ends not loading, leaves the new summary or none (an old one never survives), and appends exactly the verdict's toast |
| `JobController.EnabledGenerateStartsSubmission` | frontend/src/App.tsx:111 | when the button is enabled, a click always starts a submission and never raises the no-file warning |
| `JobController.App.constructor` | frontend/src/App.tsx:10-17 | the endpoint is resolved once at load time; the cells start empty, not loading, with no notification |
| `JobController.App.SetSelectedFile` | frontend/src/App.tsx:101 | the setter performs `SelectFile` on the object's cells |
| `JobController.App.BeginGenerate` | frontend/src/App.tsx:20-41 | performs `Begin` and issues a request to the resolved endpoint with the selected file iff a file is selected |
| `JobController.App.Complete` | frontend/src/App.tsx:43-76 | the try block, catch clause and `finally`, written step by step, perform `Finish` for the outcome |
| `JobController.App.GenerateButtonEnabled` | frontend/src/App.tsx:111 | the button accepts clicks iff a file is selected and nothing is loading |
| `JobController.App.PressGenerate` | frontend/src/App.tsx:108-111 | a click on the disabled button changes nothing and sends nothing; on the enabled button it performs `Begin` and sends the selected file to the endpoint |
| `UploadZone.FromPicker` | frontend/src/components/AudioUploadZone.tsx:14-19 | the picker forwards a file iff the list is non-empty, and then its first file, with no type check |
| `UploadZone.FromDrop` | frontend/src/components/AudioUploadZone.tsx:21-27 | a drop forwards a file iff the list is non-empty and its first file's type starts with `audio/`, and then that first file |
| `UploadZone.DropAcceptsIffAudioType` | frontend/src/components/AudioUploadZone.tsx:24 | a drop is accepted iff the first file's media type is at least six characters long and its first six are `audio/` |
| `UploadZone.DropAcceptsAnyAudioSubtype` | frontend/src/components/AudioUploadZone.tsx:24 | every `audio/<anything>` first file is forwarded on drop, whatever follows it |
| `UploadZone.DropIsStricterThanPicker` | frontend/src/components/AudioUploadZone.tsx:14-27 | whatever a drop forwards, the picker forwards the same; on an audio first file both agree |
| `UploadZone.PickerTakesWhatDropRefuses` | frontend/src/components/AudioUploadZone.tsx:14-27 | a `text/plain` file is forwarded by the picker and ignored on drop: `accept` is advisory only |
| `UploadZone.AudioUploadZone.constructor` | frontend/src/components/AudioUploadZone.tsx:11-12 | the zone is bound to its parent and the input starts empty |
| `UploadZone.AudioUploadZone.Disabled` | frontend/src/App.tsx:102 | the zone is disabled iff the parent is loading |
| `UploadZone.AudioUploadZone.HandleFileSelect` | frontend/src/components/AudioUploadZone.tsx:14-19 | a non-empty list selects its first file; an empty list changes nothing |
| `UploadZone.AudioUploadZone.HandleDrop` | frontend/src/components/AudioUploadZone.tsx:21-27 | an accepted drop selects the first file; any other drop changes nothing; there is no `disabled` check |
| `UploadZone.AudioUploadZone.ClearFile` | frontend/src/components/AudioUploadZone.tsx:33-38 | the selection becomes none and the input's value becomes empty |
| `UploadZone.AudioUploadZone.ClickZone` | frontend/src/components/AudioUploadZone.tsx:50 | a click opens the dialog iff the zone is not disabled, and changes no state |
| `UploadZone.AudioUploadZone.InputChange` | frontend/src/components/AudioUploadZone.tsx:52-58 | the disabled input receives nothing; an unchanged value fires no `change`; otherwise the value is taken and `handleFileSelect` runs |
| `UploadZone.AudioUploadZone.PressRemove` | frontend/src/components/AudioUploadZone.tsx:72-83 | Remove clears only when a file is shown and the zone is enabled, and never opens the dialog |
| `Page.StepKeepsInv` | frontend/src/App.tsx:30-111 | every gated event keeps the session invariant |
| `Page.RunKeepsInv` | frontend/src/App.tsx:30-111 | every sequence of gated events keeps the session invariant |
| `Page.OneJobAtATime` | frontend/src/App.tsx:102-111 | from a fresh page, whatever happens: at most one POST is pending, `isLoading` says exactly whether one is, no summary is shown while loading, and the no-file warning never appears |
| `Page.SelectionChangesOnlyInZone` | frontend/src/App.tsx:20-77 | generate clicks and settling POSTs never change the selected file |
| `Page.SelectionKeepsSummary` | frontend/src/App.tsx:101 | choosing, dropping and removing files never change the summary, the loading flag, the notifications or the pending count |
| `Page.NotificationsAnswerClicks` | frontend/src/App.tsx:20-77 | in every session, notifications plus pending submissions never outnumber the generate clicks |
| `Page.DropWhileLoading` | frontend/src/components/AudioUploadZone.tsx:21-27 | an audio drop during a submission becomes the selection, and the submission stays pending |
| `Page.NonAudioDropIgnored` | frontend/src/components/AudioUploadZone.tsx:24 | a drop whose first file is not audio changes nothing |
| `Page.PickerAndRemoveGatedWhileLoading` | frontend/src/components/AudioUploadZone.tsx:58-79 | while loading, dialog choices and Remove clicks change nothing |
| `Page.RemoveAllowsReselection` | frontend/src/components/AudioUploadZone.tsx:33-38 | choosing the same file again without Remove fires nothing; after Remove the same choice selects it again |
| `Page.ClearIsIdempotent` | frontend/src/components/AudioUploadZone.tsx:33-38 | clearing twice equals clearing once; with no selection Remove changes nothing and emits no notification |
| `Page.ReselectKeepsSummaryUntilGenerate` | frontend/src/App.tsx:31 | re-choosing the file keeps the summary shown; the next generate clears it, even for the same file |
| `Page.ScenarioSuccess` | frontend/src/App.tsx:43-50 | choose `lecture.mp3`, generate, success body: file kept, summary "Topic X covered.", one success toast |
| `Page.ScenarioNoFile` | frontend/src/App.tsx:21-28 | the handler without a file only warns; on the page the disabled button does not respond at all |
| `Page.ScenarioUnreachable` | frontend/src/App.tsx:62-63 | drop `notes.wav`, generate, network error: file kept, no summary, one toast with the connectivity message |
| `Page.ScenarioServerFailure` | frontend/src/App.tsx:60-61 | choose `talk.m4a`, generate, HTTP 500 with `mensagem` "model overloaded": the only toast carries that text |

## Left out

- backend/main.py is not part of this model. Its routing, temp files and calls to the generative model are a foreign service; only the shape of its replies enters, as the `Outcome` input of `Complete`.
- frontend/src/components/SummaryCard.tsx and frontend/src/components/Header.tsx: rendering, the clipboard call and a 2000 ms timer; no job state.
- The size display `(size / (1024 * 1024)).toFixed(2)` (frontend/src/components/AudioUploadZone.tsx:69): floating point. `File.size` is carried but not used.
- `handleDragOver` (frontend/src/components/AudioUploadZone.tsx:29-31): it only calls `preventDefault`, a DOM effect, and touches no state.
- axios and the multipart payload (frontend/src/App.tsx:34-41): a `Request` carries the endpoint and the file. The form field name `arquivo` and the header are not modelled.
- The network is not modelled: the request's outcome is a parameter of `Complete` and of the `Settled` event.
- `console.error`, the toast hook's internals (toast lifetime and dismissal), and React's render scheduling. A notification is an append to a sequence; a state setter takes effect at once.
- JSON values other than the modelled field types. `sucesso` is a boolean, `resumo` and `mensagem` are optional strings. A `null` or `undefined` 2xx body, where reading `data.sucesso` throws a `TypeError`, is not modelled. Any other non-object body (an empty string, an HTML page, a number) reads every field as `undefined` and behaves as `Body(false, None, None)`. Truthy non-string fields are not modelled.
- The file dialog itself and the value the browser gives the input for a choice. The value is a parameter of `InputChange` and of the `Choose` event. A `null` file list is modelled as an empty one; the handlers treat the two alike.
- The button label and spinner switch, layout, class names and icons.
- `App.Complete` and `App.BeginGenerate` have no guard against two overlapping submissions, as in the source. The one-job-at-a-time property is proved for the `Page` model, where clicks pass the button's `disabled` gate.
