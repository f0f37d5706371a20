/**
 * The example experiment of example-animals.py: for each of three
 * animals in turn it shows a page asking whether the participant has
 * that pet, stores the submitted `rating` under the animal's name, and
 * finally returns the collected dictionary to be logged.
 *
 * The generator becomes a step machine: its state is the position in
 * the loop and the dictionary built so far. The same loop is also
 * written as a method that runs the generator body against a list of
 * answers, and is proved to agree with the step machine.
 *
 * The script is started with the session id (as the server calls
 * `script(uid)`) and ignores it. The file as written declares
 * `experiment()` with no parameter; AsWrittenGetFails states what the
 * server then does.
 */
module Animals {
  import Html
  import Forms
  import opened Scripts
  import Dispatch

  const Animals: seq<string> := ["cat", "dog", "beaver"]

  function Question(animal: string): string
  {
    "Do you have a pet " + animal + "? (y/n)"
  }

  /** The page body yielded for one animal: a required text field named
      `rating` with the question as its label, and the submit button. */
  function AnimalPrompt(animal: string): Html.Node
  {
    Html.Element("div", [], [Forms.TextInput("rating", Question(animal)), Forms.Submit([])])
  }

  /** A loop position the generator can be suspended at. */
  type Pos = i: nat | i < 3

  /** The suspended generator: the loop position of the pending `yield`
      and the dictionary collected so far. */
  datatype AState = AState(pos: Pos, data: map<string, Value>)

  /** What the generator does from the top of iteration `i`: yield the
      prompt for the i-th animal, or return the dictionary after the
      last one. */
  function Stage(i: nat, data: map<string, Value>): Step<AState>
    requires i <= 3
  {
    if i < 3 then Yield(AnimalPrompt(Animals[i]), AState(i, data)) else Return(Dict(data))
  }

  function Start(uid: string): Step<AState>
  {
    Stage(0, map[])
  }

  /** `data[animal] = response['rating']`, then on to the next
      iteration; an answer without `rating` raises KeyError. */
  function Resume(st: AState, answer: Answer): Step<AState>
  {
    if "rating" !in answer then Fault
    else Stage(st.pos + 1, st.data[Animals[st.pos] := answer["rating"]])
  }

  const Experiment: Script<AState> := Script(Start, Resume)

  /** The number of required positional parameters `experiment` declares in
      example-animals.py. */
  const DeclaredArity: nat := 0

  /** As written, the server's call `script(uid)` does not match the
      declaration `experiment()`: every GET fails with TypeError, shows
      no page and opens no session. */
  lemma AsWrittenGetFails(st: Dispatch.State<AState>, uid: string)
    ensures Dispatch.StepGetWithArity(DeclaredArity, Experiment, st, uid) == Dispatch.Outcome(st, Dispatch.Crash)
  {
  }

  /** With the session id accepted (and ignored), as the server's call
      requires, a GET opens the session at the cat page. */
  lemma CorrectedGetShowsCat(st: Dispatch.State<AState>, uid: string)
    ensures Dispatch.StepGetWithArity(1, Experiment, st, uid)
         == Dispatch.Outcome(Dispatch.State(st.sessions[uid := Dispatch.Suspended(AState(0, map[]))], st.log),
                             Dispatch.Prompt(uid, AnimalPrompt("cat")))
  {
  }

  /** The dictionary after the first n answers. */
  function Collected(answers: seq<Answer>, n: nat): map<string, Value>
    requires n <= 3 && n <= |answers| && AllRated(answers, n)
  {
    if n == 0 then map[] else Collected(answers, n - 1)[Animals[n - 1] := answers[n - 1]["rating"]]
  }

  /** After n answers the dictionary holds exactly the first n animals,
      each mapped to the rating of the answer to its own page. */
  lemma {:induction false} CollectedRatings(answers: seq<Answer>, n: nat)
    requires n <= 3 && n <= |answers| && AllRated(answers, n)
    ensures Collected(answers, n).Keys == set j | 0 <= j < n :: Animals[j]
    ensures forall j :: 0 <= j < n ==> Collected(answers, n)[Animals[j]] == answers[j]["rating"]
  {
    if n > 0 {
      CollectedRatings(answers, n - 1);
      var c := Collected(answers, n);
      assert (set j | 0 <= j < n :: Animals[j]) == (set j | 0 <= j < n - 1 :: Animals[j]) + {Animals[n - 1]};
      forall j | 0 <= j < n ensures c[Animals[j]] == answers[j]["rating"] {
        if j < n - 1 {
          assert Animals[j] != Animals[n - 1];
        }
      }
    }
  }

  predicate AllRated(answers: seq<Answer>, n: nat)
    requires n <= |answers|
  {
    forall j :: 0 <= j < n ==> "rating" in answers[j]
  }

  /** The body of `experiment` run against the answers the participant
      gives: the loop yields one prompt per animal, stores each
      `rating`, and returns the dictionary; it stops early when the
      answers run out (the generator waits) or one lacks `rating`. */
  method RunExperiment(answers: seq<Answer>) returns (run: Run)
    ensures run == Drive(Experiment, "", answers)
  {
    var data: map<string, Value> := map[];
    var prompts: seq<Html.Node> := [];
    for i := 0 to 3
      invariant i <= |answers| && AllRated(answers, i)
      invariant data == Collected(answers, i)
      invariant |prompts| == i
      invariant forall j :: 0 <= j < i ==> prompts[j] == AnimalPrompt(Animals[j])
      invariant Drive(Experiment, "", answers)
             == Prepend(prompts, DriveFrom(Experiment, Stage(i, data), answers[i..]))
    {
      var animal := Animals[i];
      StageStep(i, data, answers[i..]);
      ghost var before := prompts;
      prompts := prompts + [AnimalPrompt(animal)];
      if i >= |answers| {
        return Run(prompts, Waiting);
      }
      var response := answers[i];
      if "rating" !in response {
        return Run(prompts, Faulted);
      }
      assert answers[i..][1..] == answers[i + 1..];
      data := data[animal := response["rating"]];
      ghost var rest := DriveFrom(Experiment, Stage(i + 1, data), answers[i + 1..]);
      assert before + ([AnimalPrompt(animal)] + rest.prompts) == prompts + rest.prompts;
    }
    run := Run(prompts, Returned(Dict(data)));
  }

  /** Prompts shown before a run. */
  function Prepend(ps: seq<Html.Node>, r: Run): Run
  {
    Run(ps + r.prompts, r.end)
  }

  /** One iteration of the loop: the prompt for the i-th animal, then
      whatever the answer leads to. */
  lemma StageStep(i: nat, data: map<string, Value>, answers: seq<Answer>)
    requires i < 3
    ensures DriveFrom(Experiment, Stage(i, data), answers)
         == if answers == [] then Run([AnimalPrompt(Animals[i])], Waiting)
            else if "rating" !in answers[0] then Run([AnimalPrompt(Animals[i])], Faulted)
            else Prepend([AnimalPrompt(Animals[i])], DriveFrom(Experiment, Stage(i + 1, data[Animals[i] := answers[0]["rating"]]), answers[1..]))
  {
  }

  /** With three rated answers the script shows the pages for cat, dog
      and beaver in that order and returns the dictionary that maps each
      animal to the rating given on its page. */
  lemma {:induction false} ThreeRatedAnswers(uid: string, answers: seq<Answer>)
    requires |answers| == 3 && AllRated(answers, 3)
    ensures Drive(Experiment, uid, answers)
         == Run([AnimalPrompt("cat"), AnimalPrompt("dog"), AnimalPrompt("beaver")],
                Returned(Dict(map["cat" := answers[0]["rating"], "dog" := answers[1]["rating"], "beaver" := answers[2]["rating"]])))
  {
    var d1 := map["cat" := answers[0]["rating"]];
    var d2 := d1["dog" := answers[1]["rating"]];
    StageStep(0, map[], answers);
    StageStep(1, d1, answers[1..]);
    StageStep(2, d2, answers[2..]);
    assert answers[1..][1..] == answers[2..];
    assert answers[2..][1..] == [];
    assert map[]["cat" := answers[0]["rating"]] == d1;
  }

  /** The returned dictionary has exactly the keys cat, dog and beaver,
      whatever the ratings. */
  lemma ResultKeys(uid: string, answers: seq<Answer>)
    requires |answers| == 3 && AllRated(answers, 3)
    ensures Drive(Experiment, uid, answers).end.Returned?
    ensures Drive(Experiment, uid, answers).end.value.Dict?
    ensures Drive(Experiment, uid, answers).end.value.entries.Keys == {"cat", "dog", "beaver"}
  {
    ThreeRatedAnswers(uid, answers);
  }

  /** An answer without `rating` ends the script with an exception, right
      after the page it answers. */
  lemma {:induction false} MissingRatingFaults(uid: string, answers: seq<Answer>, k: nat)
    requires k < 3 && k < |answers| && AllRated(answers, k) && "rating" !in answers[k]
    ensures Drive(Experiment, uid, answers).end == Faulted
    ensures |Drive(Experiment, uid, answers).prompts| == k + 1
  {
    StageStep(0, map[], answers);
    if k > 0 {
      var d1 := map["cat" := answers[0]["rating"]];
      assert map[]["cat" := answers[0]["rating"]] == d1;
      StageStep(1, d1, answers[1..]);
      if k > 1 {
        var d2 := d1["dog" := answers[1]["rating"]];
        assert answers[1..][1..] == answers[2..];
        StageStep(2, d2, answers[2..]);
      }
    }
  }

  /** The dictionary is not a pair, so the server logs all of it and
      shows the default farewell. */
  lemma DictGetsDefaultBye(data: map<string, Value>)
    ensures Dispatch.SplitResult(Dict(data)) == (Dict(data), Str(Dispatch.DefaultBye))
  {
  }

  /** Every page of the experiment asks for one required field, named
      `rating`, so a browser submits it with every answer. */
  lemma PromptAsksForRating(animal: string)
    ensures Forms.Fields(AnimalPrompt(animal)) == [Forms.Field("rating", true, Html.None)]
  {
    var input := Forms.TextInput("rating", Question(animal));
    Forms.TextInputField("rating", Question(animal), true);
    Forms.SubmitHasNoField();
    Forms.FieldsAllTwo(input, Forms.Submit([]));
  }

  /** The form parse_qs makes of a submission from a page: the session
      id and the rating typed in, each under its own name. parse_qs drops
      a field whose value is blank, so an empty id or an empty rating is
      missing from the form altogether. */
  function RatingForm(uid: string, rating: string): Dispatch.Form
  {
    (if uid == "" then map[] else map["uid" := [uid]]) +
    (if rating == "" then map[] else map["rating" := [rating]])
  }

  lemma RatingFormAnswer(uid: string, r: string, now: int)
    ensures Dispatch.HasUid(RatingForm(uid, r)) <==> uid != ""
    ensures uid != "" ==> RatingForm(uid, r)["uid"][0] == uid
    ensures "rating" in Dispatch.AnswerOf(RatingForm(uid, r), now) <==> r != ""
    ensures r != "" ==> Dispatch.AnswerOf(RatingForm(uid, r), now)["rating"] == List([Str(r)])
  {
    if r != "" {
      var v := Dispatch.FieldValues([r]);
      assert v.items == [Str(r)];
    }
  }

  /** The server's view of one answer. A form without an id fails at
      `fields['uid']`; a blank rating reaches the script as no `rating`
      at all, so `response['rating']` raises KeyError and the session is
      spent; otherwise the rating is stored as the list parse_qs made of
      it, and the next page or the farewell follows. */
  lemma PostRating(st: Dispatch.State<AState>, uid: string, r: string, now: int, other: string, i: Pos, data: map<string, Value>)
    requires uid in st.sessions && st.sessions[uid] == Dispatch.Suspended(AState(i, data))
    ensures var o := Dispatch.StepPost(Experiment, st, RatingForm(uid, r), now, other);
      var data' := data[Animals[i] := List([Str(r)])];
      if uid == "" then
        o == Dispatch.Outcome(st, Dispatch.Crash)
      else if r == "" then
        o == Dispatch.Outcome(Dispatch.State(st.sessions[uid := Dispatch.Exhausted], st.log), Dispatch.Crash)
      else if i < 2 then
        o == Dispatch.Outcome(Dispatch.State(st.sessions[uid := Dispatch.Suspended(AState(i + 1, data'))], st.log),
                              Dispatch.Prompt(uid, AnimalPrompt(Animals[i + 1])))
      else
        o == Dispatch.Outcome(Dispatch.State(st.sessions[uid := Dispatch.Exhausted], st.log + [Dict(data')]),
                              Dispatch.Farewell(Str(Dispatch.DefaultBye)))
  {
    RatingFormAnswer(uid, r, now);
  }

  /** One answer posted to a server whose only session is suspended at
      position i. */
  method PostAnswer(server: Dispatch.Server<AState>, uid: string, r: string, now: int, other: string, i: Pos, data: map<string, Value>)
    returns (page: Dispatch.Response)
    requires server.script == Experiment && uid != other
    requires server.sessions == map[uid := Dispatch.Suspended(AState(i, data))]
    modifies server
    ensures var data' := data[Animals[i] := List([Str(r)])];
      if uid == "" then
        server.sessions == old(server.sessions) && server.log == old(server.log) && page == Dispatch.Crash
      else if r == "" then
        server.sessions == map[uid := Dispatch.Exhausted] && server.log == old(server.log) && page == Dispatch.Crash
      else if i < 2 then
        server.sessions == map[uid := Dispatch.Suspended(AState(i + 1, data'))] && server.log == old(server.log) &&
        page == Dispatch.Prompt(uid, AnimalPrompt(Animals[i + 1]))
      else
        server.sessions == map[uid := Dispatch.Exhausted] && server.log == old(server.log) + [Dict(data')] &&
        page == Dispatch.Farewell(Str(Dispatch.DefaultBye))
  {
    PostRating(Dispatch.State(server.sessions, server.log), uid, r, now, other, i, data);
    page := server.Post(RatingForm(uid, r), now, other);
    assert map[uid := Dispatch.Suspended(AState(i, data))][uid := Dispatch.Exhausted] == map[uid := Dispatch.Exhausted];
  }

  /** A whole session of a participant who fills in every required box,
      on a server whose log file already holds the `earlier` lines: the
      GET shows the cat page, the first two answers the dog and beaver
      pages, the third the default farewell, and one record is appended
      mapping each animal to the list parse_qs made of its rating. A
      further submission from the finished session appends a null
      record. The id is one uuid4().hex gives, so it is never empty. */
  method WholeSession(earlier: seq<Value>, uid: string, other: string, r1: string, r2: string, r3: string)
    returns (pages: seq<Dispatch.Response>, logAfterThree: seq<Value>, logAfterFour: seq<Value>)
    requires uid != other && uid != ""
    requires r1 != "" && r2 != "" && r3 != ""
    ensures pages == [
      Dispatch.Prompt(uid, AnimalPrompt("cat")),
      Dispatch.Prompt(uid, AnimalPrompt("dog")),
      Dispatch.Prompt(uid, AnimalPrompt("beaver")),
      Dispatch.Farewell(Str(Dispatch.DefaultBye)),
      Dispatch.Farewell(Str(Dispatch.DefaultBye))]
    ensures logAfterThree == earlier + [Dict(map["cat" := List([Str(r1)]), "dog" := List([Str(r2)]), "beaver" := List([Str(r3)])])]
    ensures logAfterFour == logAfterThree + [Null]
  {
    var server := new Dispatch.Server(Experiment, earlier);
    var p0 := server.Get(uid);
    var d1 := map["cat" := List([Str(r1)])];
    var d2 := d1["dog" := List([Str(r2)])];
    var d3 := d2["beaver" := List([Str(r3)])];
    assert map[][Animals[0] := List([Str(r1)])] == d1;
    var p1 := PostAnswer(server, uid, r1, 10, other, 0, map[]);
    var p2 := PostAnswer(server, uid, r2, 20, other, 1, d1);
    var p3 := PostAnswer(server, uid, r3, 30, other, 2, d2);
    logAfterThree := server.log;
    RatingFormAnswer(uid, r3, 40);
    Dispatch.ExhaustedLogsNull(Experiment, Dispatch.State(server.sessions, server.log), RatingForm(uid, r3), 40, other);
    var p4 := server.Post(RatingForm(uid, r3), 40, other);
    logAfterFour := server.log;
    pages := [p0, p1, p2, p3, p4];
  }

  /** A participant who submits the cat page with the box left empty:
      the blank rating is dropped, the script raises KeyError and the
      request fails, and the spent session then answers a resubmission
      with the default farewell and a null record. */
  method BlankRatingSession(earlier: seq<Value>, uid: string, other: string)
    returns (pages: seq<Dispatch.Response>, logAfter: seq<Value>)
    requires uid != other && uid != ""
    ensures pages == [Dispatch.Prompt(uid, AnimalPrompt("cat")), Dispatch.Crash, Dispatch.Farewell(Str(Dispatch.DefaultBye))]
    ensures logAfter == earlier + [Null]
  {
    var server := new Dispatch.Server(Experiment, earlier);
    var p0 := server.Get(uid);
    var p1 := PostAnswer(server, uid, "", 10, other, 0, map[]);
    RatingFormAnswer(uid, "", 20);
    Dispatch.ExhaustedLogsNull(Experiment, Dispatch.State(server.sessions, server.log), RatingForm(uid, ""), 20, other);
    var p2 := server.Post(RatingForm(uid, ""), 20, other);
    logAfter := server.log;
    pages := [p0, p1, p2];
  }
}
