/**
 * The session dispatcher of kesar.py: the request handler's `do_GET`
 * (start a new session) and `do_POST` (resume the session a submitted
 * form belongs to). The server keeps one running script per session id
 * and appends one record to the log each time a script finishes.
 *
 * StepGet and StepPost are the pure specification of one request over
 * the server state; the class Server performs the same requests on its
 * fields and is proved against them. Session ids, which the server draws
 * with uuid4, are parameters that callers promise are not in use.
 */
module Dispatch {
  import Html
  import Forms
  import opened Scripts

  /** The farewell shown when a script returns anything but a pair. */
  const DefaultBye: string := "You have completed the experiment and can safely close this window."

  /** A submitted form as parse_qs gives it: each field name with the
      list of values sent under it. */
  type Form = map<string, seq<string>>

  /** The generator kept for a session: suspended at a `yield`, or
      finished (by returning or by an exception). */
  datatype Runner<S> = Suspended(state: S) | Exhausted

  /** What a request produces: the page `page(uid, prompt)`, the
      farewell page `page(None, bye)`, or an uncaught exception. */
  datatype Response = Prompt(uid: string, prompt: Html.Node) | Farewell(bye: Value) | Crash

  /** The `sessions` dictionary and all the lines of the log file,
      those of earlier runs included (entry i stands for the line
      `json.dumps` writes for it). */
  datatype State<S> = State(sessions: map<string, Runner<S>>, log: seq<Value>)

  datatype Outcome<S> = Outcome(state: State<S>, response: Response)

  /** The list parse_qs gives for one field. */
  function FieldValues(vs: seq<string>): Value
  {
    List(seq(|vs|, i requires 0 <= i < |vs| => Str(vs[i])))
  }

  /** The script sees exactly the values sent under a field: different
      lists of values never reach it as the same list. */
  lemma FieldValuesInjective(vs: seq<string>, ws: seq<string>)
    requires FieldValues(vs) == FieldValues(ws)
    ensures vs == ws
  {
    assert |vs| == |FieldValues(vs).items| == |ws|;
    forall i | 0 <= i < |vs| ensures vs[i] == ws[i] {
      assert FieldValues(vs).items[i] == Str(vs[i]);
      assert FieldValues(ws).items[i] == Str(ws[i]);
    }
  }

  /** The fields handed to the script: the form without `uid`, with
      `time_` set to the time of the request. */
  function AnswerOf(form: Form, now: int): (a: Answer)
    ensures a.Keys == (form.Keys - {"uid"}) + {"time_"}
    ensures a["time_"] == Num(now)
    ensures forall k :: k in form && k != "uid" && k != "time_" ==> a[k] == FieldValues(form[k])
  {
    (map k | k in form && k != "uid" :: FieldValues(form[k]))["time_" := Num(now)]
  }

  /** The session id a form carries: the first value of its `uid`
      field, when it has one. */
  predicate HasUid(form: Form)
  {
    "uid" in form && |form["uid"]| > 0
  }

  /** A returned pair is (data, farewell); anything else is the data,
      with the default farewell. */
  function SplitResult(v: Value): (Value, Value)
  {
    if v.Tuple? && |v.items| == 2 then (v.items[0], v.items[1]) else (v, Str(DefaultBye))
  }

  /** A script finished with `v`: the session's generator is spent, the
      data part is logged and the farewell page shown. */
  function Finish<S>(st: State<S>, uid: string, v: Value): Outcome<S>
  {
    var (data, bye) := SplitResult(v);
    Outcome(State(st.sessions[uid := Exhausted], st.log + [data]), Farewell(bye))
  }

  /** A GET of `/` with `uid` as the new session id. */
  function StepGet<S>(script: Script<S>, st: State<S>, uid: string): Outcome<S>
  {
    match script.start(uid)
    case Yield(p, s) => Outcome(State(st.sessions[uid := Suspended(s)], st.log), Prompt(uid, p))
    case Return(_) => Outcome(State(st.sessions[uid := Exhausted], st.log), Crash)
    case Fault => Outcome(State(st.sessions[uid := Exhausted], st.log), Crash)
  }

  /** The call `script(uid)` for a script function that declares
      `arity` required positional parameters and no `*args`: with a
      number other than one, Python raises TypeError at the call
      itself, before the session table is touched. */
  function StepGetWithArity<S>(arity: nat, script: Script<S>, st: State<S>, uid: string): Outcome<S>
  {
    if arity == 1 then StepGet(script, st, uid) else Outcome(st, Crash)
  }

  /** A POST of `form` at time `now`; `newId` is the id a new session
      would get if the form names no live session. */
  function StepPost<S>(script: Script<S>, st: State<S>, form: Form, now: int, newId: string): Outcome<S>
  {
    if !HasUid(form) then Outcome(st, Crash)
    else
      var uid := form["uid"][0];
      if uid !in st.sessions then StepGet(script, st, newId)
      else
        match st.sessions[uid]
        case Exhausted => Finish(st, uid, Null)
        case Suspended(s) =>
          match script.resume(s, AnswerOf(form, now))
          case Yield(p, s') => Outcome(State(st.sessions[uid := Suspended(s')], st.log), Prompt(uid, p))
          case Return(v) => Finish(st, uid, v)
          case Fault => Outcome(State(st.sessions[uid := Exhausted], st.log), Crash)
  }

  /** A GET opens exactly the new session and logs nothing; it shows the
      script's first prompt under the new id, or fails if the script
      ends before its first `yield`. */
  lemma GetOpensSession<S>(script: Script<S>, st: State<S>, uid: string)
    ensures var o := StepGet(script, st, uid);
      o.state.log == st.log &&
      o.state.sessions.Keys == st.sessions.Keys + {uid} &&
      (forall k :: k in st.sessions && k != uid ==> o.state.sessions[k] == st.sessions[k]) &&
      (o.response.Prompt? <==> script.start(uid).Yield?) &&
      (o.response.Prompt? ==> o.response == Prompt(uid, script.start(uid).prompt) &&
                              o.state.sessions[uid] == Suspended(script.start(uid).next)) &&
      (!o.response.Prompt? ==> o.response == Crash && o.state.sessions[uid] == Exhausted)
  {
  }

  /** A form whose session id is unknown (a "zombie" session, say after
      a restart) starts a brand-new session under a new id, exactly as
      a GET does; the unknown id is not added. */
  lemma UnknownUidRestarts<S>(script: Script<S>, st: State<S>, form: Form, now: int, newId: string)
    requires HasUid(form) && form["uid"][0] !in st.sessions
    requires newId != form["uid"][0]
    ensures StepPost(script, st, form, now, newId) == StepGet(script, st, newId)
    ensures form["uid"][0] !in StepPost(script, st, form, now, newId).state.sessions
  {
  }

  /** When the script returns, one record is appended to the log: the
      first half of a returned pair together with the second half as the
      farewell, or else the whole value with the default farewell. The
      session is kept, its generator spent. */
  lemma ReturnLogsData<S>(script: Script<S>, st: State<S>, form: Form, now: int, newId: string, v: Value)
    requires HasUid(form)
    requires var uid := form["uid"][0];
      uid in st.sessions && st.sessions[uid].Suspended? &&
      script.resume(st.sessions[uid].state, AnswerOf(form, now)) == Return(v)
    ensures var o := StepPost(script, st, form, now, newId);
      o.state.sessions == st.sessions[form["uid"][0] := Exhausted] &&
      (v.Tuple? && |v.items| == 2 ==> o.state.log == st.log + [v.items[0]] && o.response == Farewell(v.items[1])) &&
      (!(v.Tuple? && |v.items| == 2) ==> o.state.log == st.log + [v] && o.response == Farewell(Str(DefaultBye)))
  {
  }

  /** A finished session is never removed: posting to it again logs a
      null record (the spent generator raises StopIteration with no
      value) and shows the default farewell. */
  lemma ExhaustedLogsNull<S>(script: Script<S>, st: State<S>, form: Form, now: int, newId: string)
    requires HasUid(form) && form["uid"][0] in st.sessions && st.sessions[form["uid"][0]] == Exhausted
    ensures var o := StepPost(script, st, form, now, newId);
      o.state == State(st.sessions, st.log + [Null]) && o.response == Farewell(Str(DefaultBye))
  {
    var uid := form["uid"][0];
    assert st.sessions[uid := Exhausted] == st.sessions;
  }

  /** What every POST keeps: no session disappears, sessions other than
      the posted and the new one are untouched, the log only grows, and
      it grows by exactly one record exactly when the farewell page is
      shown. */
  lemma PostInvariants<S>(script: Script<S>, st: State<S>, form: Form, now: int, newId: string)
    requires newId !in st.sessions
    ensures var o := StepPost(script, st, form, now, newId);
      st.sessions.Keys <= o.state.sessions.Keys <= st.sessions.Keys + {newId}
    ensures var o := StepPost(script, st, form, now, newId);
      forall k :: k in st.sessions && (!HasUid(form) || k != form["uid"][0]) ==> o.state.sessions[k] == st.sessions[k]
    ensures var o := StepPost(script, st, form, now, newId);
      st.log <= o.state.log && |o.state.log| <= |st.log| + 1
    ensures var o := StepPost(script, st, form, now, newId);
      |o.state.log| == |st.log| + 1 <==> o.response.Farewell?
  {
    if HasUid(form) && form["uid"][0] !in st.sessions {
      GetOpensSession(script, st, newId);
    }
  }

  /** A prompt page names a session that is live and waiting for exactly
      this page's answer. */
  lemma PromptNamesLiveSession<S>(script: Script<S>, st: State<S>, form: Form, now: int, newId: string)
    ensures var o := StepPost(script, st, form, now, newId);
      o.response.Prompt? ==> o.response.uid in o.state.sessions && o.state.sessions[o.response.uid].Suspended?
  {
  }

  /** The page for a prompt hands the session id back: besides the
      prompt's own fields it holds exactly one more, the hidden `uid`,
      so the next submission reaches the same session. */
  lemma PromptPageCarriesUid(uid: string, prompt: Html.Node, guard: string)
    ensures Forms.Fields(Forms.PageTree(Forms.Session(uid), [prompt], guard))
         == Forms.Fields(prompt) + [Forms.Field("uid", false, Html.Str(uid))]
  {
    Forms.PageFields(Forms.Session(uid), [prompt], guard);
    Forms.FieldsAllOne(prompt);
  }

  /** One submitted form and the time it arrived. */
  datatype Submission = Submission(form: Form, now: int)

  /** The state after a series of requests and the responses to them. */
  datatype Trace<S> = Trace(state: State<S>, responses: seq<Response>)

  /** POSTs handled one after another. */
  function Replay<S>(script: Script<S>, st: State<S>, subs: seq<Submission>, newId: string): (t: Trace<S>)
    ensures |t.responses| == |subs|
    decreases |subs|
  {
    if subs == [] then Trace(st, [])
    else
      var o := StepPost(script, st, subs[0].form, subs[0].now, newId);
      var t := Replay(script, o.state, subs[1..], newId);
      Trace(t.state, [o.response] + t.responses)
  }

  /** Every submission comes from the session `uid`. */
  predicate FromSession(subs: seq<Submission>, uid: string)
  {
    forall i :: 0 <= i < |subs| ==> HasUid(subs[i].form) && subs[i].form["uid"][0] == uid
  }

  /** What the script receives for each submission. */
  function Answers(subs: seq<Submission>): (r: seq<Answer>)
    ensures |r| == |subs|
  {
    seq(|subs|, i requires 0 <= i < |subs| => AnswerOf(subs[i].form, subs[i].now))
  }

  function Nulls(n: nat): seq<Value>
  {
    seq(n, i => Null)
  }

  lemma FromSessionTail(subs: seq<Submission>, uid: string)
    requires subs != [] && FromSession(subs, uid)
    ensures FromSession(subs[1..], uid)
    ensures Answers(subs[1..]) == Answers(subs)[1..]
  {
    assert forall i :: 0 <= i < |subs| - 1 ==> subs[1..][i] == subs[i + 1];
  }

  /** Posting to a finished session, any number of times: each post
      logs a null record and shows the default farewell; no session
      changes. */
  lemma {:induction false} ReplayExhausted<S>(script: Script<S>, st: State<S>, uid: string, subs: seq<Submission>, newId: string)
    requires uid in st.sessions && st.sessions[uid] == Exhausted && FromSession(subs, uid)
    ensures var t := Replay(script, st, subs, newId);
      t.state == State(st.sessions, st.log + Nulls(|subs|)) &&
      forall i :: 0 <= i < |subs| ==> t.responses[i] == Farewell(Str(DefaultBye))
    decreases |subs|
  {
    if subs != [] {
      ExhaustedLogsNull(script, st, subs[0].form, subs[0].now, newId);
      var st1 := State(st.sessions, st.log + [Null]);
      FromSessionTail(subs, uid);
      ReplayExhausted(script, st1, uid, subs[1..], newId);
      assert st.log + [Null] + Nulls(|subs| - 1) == st.log + Nulls(|subs|);
    }
  }

  /** The session `uid`, suspended at state `s` after showing `p`,
      handles the submissions exactly as the script runs on its own from
      there against the answers they carry. The submissions are shown
      the run's later prompts in order. If the run returns a value, the
      submission that ends it is shown the farewell and the data is
      logged, once; if the script raises, that submission fails and
      nothing is logged for it. Every submission after the end is shown
      the default farewell and logs a null record. Other sessions are
      not touched. */
  ghost predicate Follows<S>(script: Script<S>, st: State<S>, uid: string, p: Html.Node, s: S, subs: seq<Submission>, newId: string)
  {
    var t := Replay(script, st, subs, newId);
    var run := DriveFrom(script, Yield(p, s), Answers(subs));
    OthersUntouched(st, uid, t.state) &&
    ShowsPrompts(uid, run.prompts, t.responses) &&
    EndsAs(st.log, run, t.state.log, t.responses, t.state.sessions[uid])
  }

  /** The session `uid` is still there and no other session changed. */
  ghost predicate OthersUntouched<S>(st: State<S>, uid: string, after: State<S>)
  {
    uid in after.sessions &&
    forall k :: k in st.sessions && k != uid ==> k in after.sessions && after.sessions[k] == st.sessions[k]
  }

  /** Response i is the prompt the run shows after its (i+1)-th answer. */
  predicate ShowsPrompts(uid: string, prompts: seq<Html.Node>, responses: seq<Response>)
  {
    |prompts| <= |responses| + 1 &&
    forall i :: 0 <= i < |prompts| - 1 ==> responses[i] == Prompt(uid, prompts[i + 1])
  }

  /** The responses and the log from the answer that ends the run on:
      the farewell and the data, or a failure, then null records; while
      the run waits, nothing is logged and the session stays suspended. */
  predicate EndsAs<S>(log0: seq<Value>, run: Run, log: seq<Value>, responses: seq<Response>, runner: Runner<S>)
  {
    1 <= |run.prompts| && (!run.end.Waiting? ==> |run.prompts| <= |responses|) &&
    (run.end.Waiting? ==> log == log0 && runner.Suspended?) &&
    (run.end.Returned? ==>
      responses[|run.prompts| - 1] == Farewell(SplitResult(run.end.value).1) &&
      log == log0 + [SplitResult(run.end.value).0] + Nulls(|responses| - |run.prompts|)) &&
    (run.end.Faulted? ==>
      responses[|run.prompts| - 1] == Crash && log == log0 + Nulls(|responses| - |run.prompts|)) &&
    (!run.end.Waiting? ==> forall i :: |run.prompts| <= i < |responses| ==> responses[i] == Farewell(Str(DefaultBye)))
  }

  /** A prompt shown before a run, answered by a response before the
      responses: the prompts still line up. */
  lemma ShowsPromptsCons(uid: string, p: Html.Node, p': Html.Node, prompts: seq<Html.Node>, responses: seq<Response>)
    requires ShowsPrompts(uid, prompts, responses) && prompts != [] && prompts[0] == p'
    ensures ShowsPrompts(uid, [p] + prompts, [Prompt(uid, p')] + responses)
  {
    var ps, rs := [p] + prompts, [Prompt(uid, p')] + responses;
    forall i | 0 <= i < |ps| - 1 ensures rs[i] == Prompt(uid, ps[i + 1]) {
      if i > 0 {
        assert rs[i] == responses[i - 1] && ps[i + 1] == prompts[i];
      }
    }
  }

  /** One more prompt and one more response in front shift the end of
      the run and the responses alike. */
  lemma EndsAsCons<S>(log0: seq<Value>, p: Html.Node, run: Run, log: seq<Value>, x: Response, responses: seq<Response>, runner: Runner<S>)
    requires EndsAs(log0, run, log, responses, runner)
    ensures EndsAs(log0, Run([p] + run.prompts, run.end), log, [x] + responses, runner)
  {
    var ps, rs := [p] + run.prompts, [x] + responses;
    assert |rs| - |ps| == |responses| - |run.prompts|;
    if !run.end.Waiting? {
      assert rs[|ps| - 1] == responses[|run.prompts| - 1];
      forall i | |ps| <= i < |rs| ensures rs[i] == Farewell(Str(DefaultBye)) {
        assert rs[i] == responses[i - 1];
      }
    }
  }

  /** By induction on the submissions: each one either resumes the
      script (and the rest follows from the new state) or ends it. */
  lemma {:induction false} SessionFollowsScript<S>(script: Script<S>, st: State<S>, uid: string, p: Html.Node, s: S,
                                                   subs: seq<Submission>, newId: string)
    requires uid in st.sessions && st.sessions[uid] == Suspended(s) && FromSession(subs, uid)
    ensures Follows(script, st, uid, p, s, subs, newId)
    decreases |subs|
  {
    if subs == [] {
      assert Answers(subs) == [];
    } else {
      var o := StepPost(script, st, subs[0].form, subs[0].now, newId);
      FromSessionTail(subs, uid);
      match script.resume(s, Answers(subs)[0])
      case Yield(p', s') =>
        ResumeYields(script, st, uid, s, subs, newId, p', s');
        SessionFollowsScript(script, o.state, uid, p', s', subs[1..], newId);
        FollowsYield(script, st, uid, p, s, subs, newId, p', s');
      case Return(v) =>
        FollowsEnd(script, st, uid, p, s, subs, newId);
      case Fault =>
        FollowsEnd(script, st, uid, p, s, subs, newId);
    }
  }

  /** A session from its GET on: the first page is the script's first
      prompt, and from there on the session follows the script's own run
      (Drive) on the answers its submissions carry. A script that ends
      before its first prompt fails the GET, and every later submission
      from that session logs a null record. */
  lemma NewSession<S>(script: Script<S>, st: State<S>, uid: string, subs: seq<Submission>, newId: string)
    requires uid !in st.sessions && FromSession(subs, uid)
    ensures var o := StepGet(script, st, uid);
      script.start(uid).Yield? ==>
        o.response == Prompt(uid, Drive(script, uid, Answers(subs)).prompts[0]) &&
        Follows(script, o.state, uid, script.start(uid).prompt, script.start(uid).next, subs, newId)
    ensures var o := StepGet(script, st, uid);
      !script.start(uid).Yield? ==>
        o.response == Crash &&
        Replay(script, o.state, subs, newId).state == State(o.state.sessions, st.log + Nulls(|subs|))
  {
    var o := StepGet(script, st, uid);
    match script.start(uid)
    case Yield(p, s) =>
      SessionFollowsScript(script, o.state, uid, p, s, subs, newId);
    case Return(_) =>
      ReplayExhausted(script, o.state, uid, subs, newId);
    case Fault =>
      ReplayExhausted(script, o.state, uid, subs, newId);
  }

  lemma FollowsYield<S>(script: Script<S>, st: State<S>, uid: string, p: Html.Node, s: S,
                        subs: seq<Submission>, newId: string, p': Html.Node, s': S)
    requires uid in st.sessions && st.sessions[uid] == Suspended(s) && FromSession(subs, uid) && subs != []
    requires Answers(subs[1..]) == Answers(subs)[1..]
    requires script.resume(s, Answers(subs)[0]) == Yield(p', s')
    requires StepPost(script, st, subs[0].form, subs[0].now, newId)
          == Outcome(State(st.sessions[uid := Suspended(s')], st.log), Prompt(uid, p'))
    requires Follows(script, State(st.sessions[uid := Suspended(s')], st.log), uid, p', s', subs[1..], newId)
    ensures Follows(script, st, uid, p, s, subs, newId)
  {
    var st1 := State(st.sessions[uid := Suspended(s')], st.log);
    var t1 := Replay(script, st1, subs[1..], newId);
    var run1 := DriveFrom(script, Yield(p', s'), Answers(subs[1..]));
    var run := DriveFrom(script, Yield(p, s), Answers(subs));
    assert run == Run([p] + run1.prompts, run1.end);
    var t := Replay(script, st, subs, newId);
    assert t == Trace(t1.state, [Prompt(uid, p')] + t1.responses);
    ShowsPromptsCons(uid, p, p', run1.prompts, t1.responses);
    EndsAsCons(st.log, p, run1, t1.state.log, Prompt(uid, p'), t1.responses, t1.state.sessions[uid]);
  }

  lemma FollowsEnd<S>(script: Script<S>, st: State<S>, uid: string, p: Html.Node, s: S,
                      subs: seq<Submission>, newId: string)
    requires uid in st.sessions && st.sessions[uid] == Suspended(s) && FromSession(subs, uid) && subs != []
    requires FromSession(subs[1..], uid)
    requires !script.resume(s, Answers(subs)[0]).Yield?
    ensures Follows(script, st, uid, p, s, subs, newId)
  {
    var o := StepPost(script, st, subs[0].form, subs[0].now, newId);
    assert o.state.sessions == st.sessions[uid := Exhausted];
    ReplayExhausted(script, o.state, uid, subs[1..], newId);
    match script.resume(s, Answers(subs)[0])
    case Return(v) =>
      assert st.log + [SplitResult(v).0] + Nulls(|subs| - 1) == o.state.log + Nulls(|subs| - 1);
    case Fault =>
  }

  /** The inductive step of SessionFollowsScript when the script yields. */
  lemma ResumeYields<S>(script: Script<S>, st: State<S>, uid: string, s: S, subs: seq<Submission>, newId: string, p': Html.Node, s': S)
    requires uid in st.sessions && st.sessions[uid] == Suspended(s) && FromSession(subs, uid) && subs != []
    requires script.resume(s, Answers(subs)[0]) == Yield(p', s')
    ensures var o := StepPost(script, st, subs[0].form, subs[0].now, newId);
      o == Outcome(State(st.sessions[uid := Suspended(s')], st.log), Prompt(uid, p'))
  {
  }

  /** The server object: the session table and the log file. */
  class Server<S(==)> {
    const script: Script<S>
    var sessions: map<string, Runner<S>>
    var log: seq<Value>

    /** A server started on `script`. The log file is only ever opened
        for appending, so it still holds the `earlier` lines written
        before this server started. */
    constructor(script: Script<S>, earlier: seq<Value>)
      ensures this.script == script && sessions == map[] && log == earlier
    {
      this.script := script;
      sessions := map[];
      log := earlier;
    }

    /** `do_GET` for `/`: create the script for the new id and run it up
        to its first prompt. */
    method Get(uid: string) returns (r: Response)
      requires uid !in sessions
      modifies this
      ensures Outcome(State(sessions, log), r) == StepGet(script, old(State(sessions, log)), uid)
    {
      var step := script.start(uid);
      match step
      case Yield(p, s) =>
        sessions := sessions[uid := Suspended(s)];
        r := Prompt(uid, p);
      case Return(_) =>
        sessions := sessions[uid := Exhausted];
        r := Crash;
      case Fault =>
        sessions := sessions[uid := Exhausted];
        r := Crash;
    }

    /** `do_POST`: find the session the form names, hand it the answer,
        and show its next prompt, or log its data and say goodbye. */
    method Post(form: Form, now: int, newId: string) returns (r: Response)
      requires newId !in sessions
      modifies this
      ensures Outcome(State(sessions, log), r) == StepPost(script, old(State(sessions, log)), form, now, newId)
    {
      if "uid" !in form || |form["uid"]| == 0 {
        return Crash;
      }
      var uid := form["uid"][0];
      var fields := map k | k in form && k != "uid" :: FieldValues(form[k]);
      fields := fields["time_" := Num(now)];
      if uid !in sessions {
        r := Get(newId);
        return;
      }
      var step: Step<S>;
      match sessions[uid] {
        case Exhausted =>
          step := Return(Null);
        case Suspended(s) =>
          step := script.resume(s, fields);
      }
      match step
      case Yield(p, s') =>
        sessions := sessions[uid := Suspended(s')];
        r := Prompt(uid, p);
      case Return(v) =>
        sessions := sessions[uid := Exhausted];
        var data, bye;
        if v.Tuple? && |v.items| == 2 {
          data, bye := v.items[0], v.items[1];
        } else {
          data, bye := v, Str(DefaultBye);
        }
        log := log + [data];
        r := Farewell(bye);
      case Fault =>
        sessions := sessions[uid := Exhausted];
        r := Crash;
    }
  }
}
