/**
 * An experiment script as the server sees it. In kesar.py a script is a
 * Python generator: `script(uid)` creates it, `next` runs it up to its
 * first `yield`, and `send(fields)` hands it the participant's answer
 * and runs it up to the next `yield`. A `return` ends it with a value,
 * and an exception ends it abnormally.
 *
 * Here a script is a pair of step functions over a state type S of its
 * own choosing: `start` (from the session id to the first step) and
 * `resume` (from a suspended state and an answer to the next step).
 */
module Scripts {
  import Html

  /** The Python values a script handles and returns: the answers it
      receives and the data it returns to be logged. */
  datatype Value =
    | Null
    | Num(n: int)
    | Str(s: string)
    | List(items: seq<Value>)
    | Tuple(items: seq<Value>)
    | Dict(entries: map<string, Value>)

  /** The fields of one submitted form, as the script receives them. */
  type Answer = map<string, Value>

  /** What running a script up to its next suspension point gives: a
      prompt to show and the state to resume from, a returned value, or
      an exception. */
  datatype Step<S> = Yield(prompt: Html.Node, next: S) | Return(value: Value) | Fault

  datatype Script<!S> = Script(start: string -> Step<S>, resume: (S, Answer) -> Step<S>)

  /** How a run against a sequence of answers ends: still waiting for an
      answer, returned, or failed. */
  datatype End = Waiting | Returned(value: Value) | Faulted

  /** The prompts a run shows, in order, and how it ends. */
  datatype Run = Run(prompts: seq<Html.Node>, end: End)

  /** Feeding answers to a script from a given step on: each yielded
      prompt consumes the next answer; answers left over once the script
      has ended are not used. */
  function DriveFrom<S>(script: Script<S>, step: Step<S>, answers: seq<Answer>): (r: Run)
    ensures step.Yield? ==> |r.prompts| >= 1 && r.prompts[0] == step.prompt
    ensures |r.prompts| <= |answers| + 1
    ensures r.end.Waiting? ==> |r.prompts| == |answers| + 1
    ensures !r.end.Waiting? ==> |r.prompts| <= |answers|
    decreases |answers|
  {
    match step
    case Return(v) => Run([], Returned(v))
    case Fault => Run([], Faulted)
    case Yield(p, s) =>
      if answers == [] then Run([p], Waiting)
      else
        var rest := DriveFrom(script, script.resume(s, answers[0]), answers[1..]);
        Run([p] + rest.prompts, rest.end)
  }

  /** A whole session of a script: started for `uid`, then fed the
      answers in order. */
  function Drive<S>(script: Script<S>, uid: string, answers: seq<Answer>): Run
  {
    DriveFrom(script, script.start(uid), answers)
  }

  /** Answers given one more at a time extend the run: a waiting run
      shows one more prompt or ends; an ended run stays as it is. */
  lemma {:induction false} DriveFromSnoc<S>(script: Script<S>, step: Step<S>, answers: seq<Answer>, a: Answer)
    ensures var before := DriveFrom(script, step, answers);
      var after := DriveFrom(script, step, answers + [a]);
      before.prompts <= after.prompts &&
      (!before.end.Waiting? ==> after == before)
    decreases |answers|
  {
    match step
    case Return(_) =>
    case Fault =>
    case Yield(p, s) =>
      if answers != [] {
        assert (answers + [a])[1..] == answers[1..] + [a];
        DriveFromSnoc(script, script.resume(s, answers[0]), answers[1..], a);
      }
  }
}
