# kesar in Dafny

kesar is a small Python server for running online experiments. The
experimenter writes the experiment as a generator. Each `yield` hands
the server a piece of HTML to show the participant. The server passes
each submitted form back into the generator, which yields the next
page. The value the generator finally returns is appended to a log
file. This project models the core of kesar.py and the example
experiment example-animals.py, and proves properties of the model.

- `html.dfy` (module `Html`): the `tag` serialiser. It covers property
  filtering (None and False are dropped, True renders bare), stripping
  underscores from keys, and self-closing versus open elements with
  children joined by spaces.
- `html_decode.dfy` (module `HtmlDecode`): a reader for what `tag`
  writes. It is the partner of `tag` in a round-trip theorem.
- `forms.dfy` (module `Forms`): the builders `submit_`, `text_input_`,
  `check_input_`, `select_input_` and `exit_survey_`, and `page`. Each
  builder comes with the form fields it asks the participant for.
- `pairing.dfy` (module `Pairing`): `pair_manager`, the rendezvous that
  pairs participants in arrival order and passes messages between
  partners. It has a pure specification of the queue and a `class
  PairManager` whose methods update its fields in place.
- `scripts.dfy` (module `Scripts`): a generator script as a pair of step
  functions (`start`, `resume`), and `Drive`, which runs a script on its
  own against a list of answers.
- `dispatch.dfy` (module `Dispatch`): `do_GET` and `do_POST` over the
  session table and the log. There is a pure specification of one
  request (`StepGet`, `StepPost`), theorems about whole sessions, and a
  `class Server` proved against the specification.
- `animals.dfy` (module `Animals`): the example experiment as a step
  machine. The generator body is also written as a loop that is proved
  to agree with the step machine, followed by an end-to-end session on
  a fresh server.

The clock (`time.time()`) and the fresh session id (`uuid.uuid4()`) are
parameters. The id is one the caller promises is not in use.

The model follows the code in three places where a reader might expect otherwise:
- A finished session stays in the session table. Another POST to it
  makes the spent generator raise StopIteration again. That logs a null
  record and shows the default farewell (`Dispatch.ExhaustedLogsNull`).
- `get_partner` does not check whether the name is already waiting. A
  name that asks twice while alone in the queue is paired with itself
  (`Pairing.SelfPairing`).
- `get_partner` does not check whether the name is already linked
  either. A linked name that asks again is queued again and linked to the
  next arrival, while its old partner still names it
  (`Pairing.AskAgainWhileLinked`).

## Model

| member | source | states |
|---|---|---|
| Html.StripUnderscores | kesar.py:37-38 | `k.strip("_")`; its meaning is stated by `Html.StripUnderscoresCuts` |
| Html.RenderKv | kesar.py:35-38 | `render_kv`: the bare stripped key for True, `key="value"` otherwise |
| Html.RenderAttrs | kesar.py:41-42 | the attribute part of a start tag; stated by `Html.RenderAttrsAppend`, `Html.RenderAttrsShown` and `Html.HiddenAttrIgnored` |
| Html.JoinSpaces | kesar.py:42 | `' '.join` of the rendered children; stated by `Html.JoinSpacesAppend` |
| Html.TagCall | kesar.py:34-42 | `tag(name, **props)(*children)`; its partner is the reader `HtmlDecode.DecodeTag`, and `HtmlDecode.DecodeTagCall` is the round trip |
| Html.Render | kesar.py:31-42 | `str()` of a tag or a text child; an uncalled tag renders as a call with no children |
| Html.TrimLeadingCuts | kesar.py:37-38 | stripping leading underscores removes only underscores, from the front, and stops at the first other character |
| Html.TrimTrailingCuts | kesar.py:37-38 | stripping trailing underscores removes only underscores, from the back, and stops at the last other character |
| Html.StripUnderscoresCuts | kesar.py:37-38 | `k.strip("_")` is a contiguous part of the key. Everything cut is '_', the result has no '_' at either end, and it is empty exactly when the key is all underscores |
| Html.RenderAttrsStartsWithSpace | kesar.py:41-42 | the attribute text is empty or begins with a space, so it never runs into the tag name |
| Html.RenderAttrsShown | kesar.py:35-41 | each shown property is written in its place as a space followed by `key="value"`, or by the bare key when it is True |
| Html.RenderAttrsAppend | kesar.py:41-42 | properties render in the order given, and each independently of the others |
| Html.HiddenAttrIgnored | kesar.py:41-42 | a None or False property leaves no trace, wherever it stands |
| Html.JoinSpacesAppend | kesar.py:42 | children are separated by exactly one space |
| HtmlDecode.DecodeRenderAttrs | kesar.py:35-41 | reading the attribute part back gives the shown properties in order, with keys stripped and True values bare, and stops where the start tag ends |
| HtmlDecode.DecodeTagCall | kesar.py:34-42 | round trip of `tag(name, **props)(*children)`. It reads back as the name, the shown properties and either self-closing (no children) or the children joined by spaces |
| HtmlDecode.UnescapedValueIsAmbiguous | kesar.py:38 | values are not escaped, so a value holding a double quote renders like two properties |
| Forms.Submit | kesar.py:103-104 | `submit_`; its fields are stated by `Forms.SubmitHasNoField` |
| Forms.TextInput | kesar.py:106-110 | `text_input_`; its fields are stated by `Forms.TextInputField` |
| Forms.CheckInput | kesar.py:112-116 | `check_input_`; its fields are stated by `Forms.CheckInputField` |
| Forms.SelectInput | kesar.py:118-122 | `select_input_`; its fields are stated by `Forms.SelectInputField` |
| Forms.ExitSurvey | kesar.py:124-135 | `exit_survey_`; its fields are stated by `Forms.ExitSurveyFields` and `Forms.ExitSurveyNamesDistinct` |
| Forms.PageTree | kesar.py:51-90 | the `<html>` element of `page`, with and without a session; its fields are stated by `Forms.PageFields` |
| Forms.Page | kesar.py:51-90 | `page(uid, *contents)`: the doctype followed by the rendered tree |
| Forms.SubmitHasNoField | kesar.py:103-104 | the submit button contributes no named field to the answer |
| Forms.TextInputField | kesar.py:106-110 | `text_input_` asks for exactly one field, under its name, required as given |
| Forms.CheckInputField | kesar.py:112-116 | `check_input_` asks for exactly one field, under its name, required as given |
| Forms.SelectInputField | kesar.py:118-122 | `select_input_` asks for exactly one field, under its name; `required` and `value` come from the extra keywords; the options add none |
| Forms.DecimalInjective | kesar.py:131 | different question numbers are written differently |
| Forms.ExitSurveyFields | kesar.py:124-135 | `exit_survey_(*qs)` asks for the required fields Q1 … Qn, one per question, in order |
| Forms.ExitSurveyNamesDistinct | kesar.py:124-135 | the exit survey has one field per question, and no two fields share a name |
| Forms.PageFields | kesar.py:51-90 | a page asks for the fields of its contents, plus the hidden `uid` field when it belongs to a session and nothing else |
| Pairing.Drain | kesar.py:177-181 | the drain loop of `get_partner`; stated by `Pairing.DrainLeavesTail`, `Pairing.DrainPairs` and `Pairing.DrainKeepsOthers` |
| Pairing.Join | kesar.py:175-181 | the queue and partner map after one `get_partner`; `Pairing.PairManager.GetPartner` is proved against it |
| Pairing.DrainLeavesTail | kesar.py:177-181 | the drain loop leaves fewer than two names waiting: the last `len % 2` arrivals |
| Pairing.DrainKeepsOthers | kesar.py:177-181 | draining changes the partner map only at the names taken off the queue |
| Pairing.DrainPairs | kesar.py:177-181 | distinct waiting names are linked 1st with 2nd, 3rd with 4th, and so on, in both directions |
| Pairing.DrainThenJoin | kesar.py:175-181 | appending after a drain and draining again is the same as draining the longer queue once |
| Pairing.JoinAllIsDrain | kesar.py:173-185 | names asking one after another are paired as if their whole arrival sequence were drained at once |
| Pairing.ArrivalOrderPairs | kesar.py:173-185 | with distinct names, arrival order decides the pairs, and at most the last arrival is left waiting |
| Pairing.SelfPairing | kesar.py:175-181 | a name that asks twice while alone in the queue becomes its own partner |
| Pairing.PairManager.constructor | kesar.py:165-171 | a new manager has the given timeout and an empty queue, partner map, mailboxes and ping table |
| Pairing.PairManager.GetPartner | kesar.py:173-185 | queue and partners become `Join` of the old ones, and the caller's ping is set to now. It returns the partner exactly when the name is linked. With an empty queue the caller waits; with one waiting name the two are linked |
| Pairing.PairManager.Send | kesar.py:187-191 | the partner's mailbox holds the message (overwriting), the sender's ping is set to now, and nothing else changes |
| Pairing.PairManager.Recv | kesar.py:193-203 | pings the caller, then reports a disconnect exactly when the partner's last ping is more than `timeout` old. Otherwise it returns the mailbox content (False when empty) and empties the mailbox |
| Pairing.TwoArrivals | kesar.py:173-185 | the first arrival waits, and the second is told the first; a later call by the first names the second |
| Pairing.MailboxOverwrite | kesar.py:187-203 | the mailbox has one slot: the second send replaces the first, and a second recv finds it empty |
| Pairing.SilentPartner | kesar.py:193-197 | a partner silent for exactly `timeout` is still connected; one second more and it is disconnected |
| Pairing.AskTwice | kesar.py:173-185 | a lone name asking twice is paired with itself |
| Pairing.AskAgainWhileLinked | kesar.py:173-185 | after a, b and c arrive, a second call by a links a to c, while b still names a |
| Scripts.Drive | kesar.py:253-276 | a whole session of a script run on its own against a list of answers; the dispatcher is proved to follow it by `Dispatch.NewSession` |
| Scripts.DriveFrom | kesar.py:253-276 | driving a generator: each answer after a `yield` resumes it once, and a waiting run has shown one prompt more than it was given answers |
| Scripts.DriveFromSnoc | kesar.py:276 | one more answer only extends the prompts shown, and leaves a finished run as it is |
| Dispatch.SplitResult | kesar.py:278-281 | a returned 2-tuple is (data, farewell); anything else is the data with the default farewell; stated by `Dispatch.ReturnLogsData` |
| Dispatch.Finish | kesar.py:277-288 | a script that finished: its generator is spent, the data logged and the farewell shown |
| Dispatch.StepGet | kesar.py:246-255 | one GET of `/` over the session table and log; stated by `Dispatch.GetOpensSession` |
| Dispatch.StepGetWithArity | kesar.py:253 | the call `script(uid)` for a script declaring the given number of parameters; used by `Animals.AsWrittenGetFails` |
| Dispatch.StepPost | kesar.py:257-289 | one POST over the session table and log; stated by `Dispatch.PostInvariants`, `Dispatch.SessionFollowsScript` and the lemmas below |
| Dispatch.FieldValuesInjective | kesar.py:260-263 | the script sees exactly the values sent under a field: different value lists never reach it as the same list |
| Dispatch.AnswerOf | kesar.py:260-263 | the script receives the form without `uid`, with `time_` set to the request time, and every other field as the list of the values sent under it, in order |
| Dispatch.GetOpensSession | kesar.py:246-255 | a GET adds exactly the new session, logs nothing, and shows the first prompt under the new id. If the script ends before its first `yield`, the GET fails |
| Dispatch.UnknownUidRestarts | kesar.py:265-267 | a POST for an unknown session id acts exactly like a GET with a fresh id, and the unknown id is not added |
| Dispatch.ReturnLogsData | kesar.py:276-288 | when the script returns, a pair is split into (data, farewell); any other value is logged whole with the default farewell; the session is kept, spent |
| Dispatch.ExhaustedLogsNull | kesar.py:276-288 | a POST to a finished session logs a null record, shows the default farewell and changes no session |
| Dispatch.PostInvariants | kesar.py:257-289 | a POST removes no session, touches only the posted and the new one, never rewrites the log, and appends exactly one record exactly when it shows the farewell |
| Dispatch.PromptNamesLiveSession | kesar.py:257-289 | every prompt page names a session that is live and suspended |
| Dispatch.PromptPageCarriesUid | kesar.py:63-72 | a prompt page asks for the prompt's own fields plus the hidden `uid` of its session |
| Dispatch.ReplayExhausted | kesar.py:276-288 | any number of POSTs to a finished session: each logs null and shows the default farewell |
| Dispatch.SessionFollowsScript | kesar.py:257-289 | a session handles its POSTs exactly as the script runs on the answers they carry: the same later prompts, then one farewell and one logged record (or a failure), then null records. Other sessions are untouched |
| Dispatch.NewSession | kesar.py:246-289 | from its GET on, a session shows the script's own run (`Drive`) on its answers; a script ending before its first prompt fails the GET |
| Dispatch.Server.constructor | kesar.py:216-219 | a new server has no sessions, and its log is the lines the log file already holds: the file is only ever appended to (kesar.py:286) |
| Dispatch.Server.Get | kesar.py:246-255 | the new sessions, log and response are those of `StepGet` |
| Dispatch.Server.Post | kesar.py:257-289 | the new sessions, log and response are those of `StepPost` |
| Animals.Stage | example-animals.py:8-14 | the top of loop iteration i: yield the i-th animal's page, or return the dictionary after the last |
| Animals.Start | example-animals.py:4-12 | the generator run to its first `yield` (the cat page); with `Animals.Resume` it makes the script `Animals.Experiment` |
| Animals.Resume | example-animals.py:13 | `data[animal] = response['rating']`, then the next iteration; KeyError (a fault) without `rating`; stated by `Animals.MissingRatingFaults` and `Animals.CollectedRatings` |
| Animals.AsWrittenGetFails | example-animals.py:4 | as written, `experiment()` cannot be called as `script(uid)`, so every GET fails and changes nothing |
| Animals.CorrectedGetShowsCat | example-animals.py:4-12 | with the session id accepted, a GET opens the session at the cat page |
| Animals.CollectedRatings | example-animals.py:13 | after n answers the dictionary maps exactly the first n animals, each to the rating on its own page |
| Animals.RunExperiment | example-animals.py:4-14 | the loop over the animals, run against the answers, gives exactly the run of the step machine (`Drive`) |
| Animals.ThreeRatedAnswers | example-animals.py:5-14 | with three rated answers the pages are cat, dog, beaver in that order, and the result maps each animal to its rating |
| Animals.ResultKeys | example-animals.py:5-14 | the returned dictionary has exactly the keys cat, dog and beaver |
| Animals.MissingRatingFaults | example-animals.py:13 | an answer without `rating` ends the script with an exception right after the page it answers |
| Animals.DictGetsDefaultBye | example-animals.py:14 | the returned dictionary is not a pair, so it is logged whole with the default farewell |
| Animals.AnimalPrompt | example-animals.py:9-12 | the `div_` yielded for one animal: a text input named `rating` labelled with the question, and the submit button; its fields are stated by `Animals.PromptAsksForRating` |
| Animals.PromptAsksForRating | example-animals.py:9-12 | every page asks for exactly one field: the required `rating` |
| Animals.RatingFormAnswer | kesar.py:260-263 | parse_qs drops blank values: the form names a session exactly when the id is not empty, and the script gets a `rating` exactly when the rating is not empty, as the one-element list of it |
| Animals.PostRating | example-animals.py:8-14 | on the server, a form without an id fails and changes nothing; a blank rating raises KeyError and spends the session; any other rating moves the session to the next animal's page or, after the third, logs the dictionary |
| Animals.PostAnswer | example-animals.py:8-14 | the same four cases on a `Dispatch.Server` object, with its whole new state |
| Animals.WholeSession | example-animals.py:3-14 | a whole session with every box filled in, on a new server whose log file holds earlier lines: cat, dog and beaver pages, then the farewell. One record of the three ratings is appended after the earlier lines, and a further POST appends a null record |
| Animals.BlankRatingSession | example-animals.py:13 | a cat page submitted with the box empty fails the request and spends the session; a resubmission shows the default farewell and appends a null record |

## Findings

| source | as written | input that shows it | evidently intended | confidence | as-written member | corrected member |
|---|---|---|---|---|---|---|
| example-animals.py:4 | `def experiment():` takes no parameter, while kesar.py:253 calls `script(uid)` | any GET of `/`: the call raises TypeError, and no page is shown | the script accepts the session id, as the server's call requires | high; not executed | Animals.AsWrittenGetFails | Animals.CorrectedGetShowsCat |

## Left out

- Locks (`threading.Lock` in `pair_manager` and around the log file) and the threaded HTTP server. Each operation is modelled as one atomic step.
- HTTP plumbing: headers, status codes, reading the request body, serving static files from `do_GET` (kesar.py:222-244), `static_` and its cache.
- Dispatch.StepPost: every request is taken to be for `/`. In the source, a POST with an unknown session id calls `do_GET` (kesar.py:267), and for a path other than `/` that serves a static file and opens no session (kesar.py:222); the model always opens one.
- Forms.Submit: requires the extra keywords to avoid `id_`, `type_` and `value`. In the source, `submit_` given one of them raises TypeError (the keyword is passed twice, kesar.py:104); the model has no such error path.
- Scripts.Value: a dictionary is a `map`, so the order of insertion is lost. `json.dumps` writes the keys in that order (kesar.py:287), so the logged line for the example lists cat, dog, beaver; the model keeps the record's keys and values but not their order.
- `refresh_daemon` and process restarts: they only watch the script file and re-exec the process.
- `stratify_`, `shuffled`, `threadsafe_iterable_`: randomness and iteration helpers outside the core.
- `pause_` and the JavaScript embedded in `page`. The script text is the uninterpreted `guard` parameter of `Forms.PageTree`.
- Installing one `tag` shortcut per HTML element into `globals()`. The model uses `Html.Element` with the element name.
- `time.time()` is an integer `now` parameter, one per call. `recv` reads the clock twice, and the model reads it once.
- `uuid.uuid4()`: a fresh id is a parameter that callers promise is not in the session table.
- `parse_qs` and `urlparse`: the parsed form is the input (`Dispatch.Form`). Where the model builds a form itself (`Animals.RatingForm`), it drops blank values as parse_qs does by default. `json.dumps`: the log is a sequence of values, one per line written.
- Animals.WholeSession: requires a non-empty id, which uuid4().hex always gives, and non-empty ratings, which the `required` text box asks the browser for. A blank rating is covered by `Animals.PostRating`, `Animals.PostAnswer` and `Animals.BlankRatingSession` instead.
- Dispatch.Server.Get: the response is the prompt and the session id, not the HTML string. The page is given by `Forms.Page`, and its fields are proved by `Dispatch.PromptPageCarriesUid`.
- Dispatch.Server.Post: a farewell that is not a string is kept as a value, not converted by `str()`. An uncaught exception is the `Crash` response, and the HTTP error the server then produces is not modelled.
- Pairing.PairManager.Send: requires the caller to have a partner. In the source, a name without one raises KeyError.
- Pairing.PairManager.Recv: requires the caller to have a partner, for the same reason. A message sent as the value False cannot be told apart from an empty mailbox; the model's messages are strings.
