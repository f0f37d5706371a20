/**
 * The small builders of kesar.py on top of `tag` (submit_, text_input_,
 * check_input_, select_input_, exit_survey_) and `page`, which wraps a
 * prompt into a whole document. Each builder is a `Node`; rendering it
 * with Html.Render gives the string the Python function returns.
 *
 * What a builder means for the engine is the set of form fields it asks
 * the participant for, since those become the keys of the answer handed
 * back to the script. `Fields` reads them off a node tree.
 */
module Forms {
  import opened Html

  const CssFrameworkHref: string := "https://cdn.jsdelivr.net/npm/water.css@2/out/water.css"

  /** The favicon is written into the page as a raw string. */
  const FaviconLink: string :=
    "<link rel=\"icon\" href=\"data:image/svg+xml,<svg xmlns=%22http://www.w3.org/2000/svg%22 viewBox=%220 0 100 100%22><text y=%22.9em%22 font-size=%2290%22>\U{1F33A}</text></svg>\">"

  const BackButtonNote: string := "Note: do not press the \"back\" button during this study."

  /** No keyword in `extra` repeats one of `keys` (Python refuses a
      keyword argument given twice). */
  predicate KeysAvoid(extra: seq<Attr>, keys: set<string>)
  {
    forall i :: 0 <= i < |extra| ==> extra[i].key !in keys
  }

  // ---------------------------------------------------------------------
  // Builders

  /** `submit_(**kwargs)`: the "Next" button, not yet called. */
  function Submit(extra: seq<Attr>): Node
    requires KeysAvoid(extra, {"id_", "type_", "value"})
  {
    Element("input", [Attr("id_", Str("submit_button")), Attr("type_", Str("submit")), Attr("value", Str("Next"))] + extra, [])
  }

  /** The properties of a named input: type, id, name and required. */
  function InputProps(kind: string, name: string, required: bool): seq<Attr>
  {
    [Attr("type_", Str(kind)), Attr("id_", Str(name)), Attr("name", Str(name)), Attr("required", Bool(required))]
  }

  /** `text_input_(name, text, required)`: a label and a text field. */
  function TextInput(name: string := "response", text: string := "", required: bool := true): Node
  {
    Element("span", [], [
      Element("label", [Attr("for_", Str(name))], [Text(text)]),
      Element("input", InputProps("text", name, required), [])
    ])
  }

  /** `check_input_(name, text, required)`: a checkbox and its label. */
  function CheckInput(name: string, text: string, required: bool := true): Node
  {
    Element("span", [], [
      Element("input", InputProps("checkbox", name, required), []),
      Element("label", [Attr("for_", Str(name))], [Text(text)])
    ])
  }

  /** One entry of the options dictionary of select_input_. */
  datatype Choice = Choice(value: string, caption: string)

  function OptionOf(c: Choice): Node
  {
    Element("option", [Attr("value", Str(c.value))], [Text(c.caption)])
  }

  /** `select_input_(name, options_dict, prompt, **kwargs)`: a drop-down
      list whose first, empty entry carries the prompt. */
  function SelectInput(name: string, options: seq<Choice>, prompt: string := "-- select one --", extra: seq<Attr> := []): Node
    requires KeysAvoid(extra, {"name"})
  {
    Element("select", [Attr("name", Str(name))] + extra,
      [Element("option", [Attr("value", Str(""))], [Text(prompt)])]
      + seq(|options|, i requires 0 <= i < |options| => OptionOf(options[i])))
  }

  function DigitChar(d: nat): char
    requires d < 10
  {
    "0123456789"[d]
  }

  /** Decimal notation, as in the f-string `Q{i + 1}`. */
  function Decimal(n: nat): (r: string)
    ensures |r| >= 1
    ensures n >= 10 ==> |r| >= 2
  {
    if n < 10 then [DigitChar(n)] else Decimal(n / 10) + [DigitChar(n % 10)]
  }

  /** The question numbered `i` (from 0) of an exit survey. */
  function SurveySection(i: nat, q: string): Node
  {
    Element("section", [], [
      Element("p", [], [Text(q)]),
      Element("textarea", [Attr("name", Str("Q" + Decimal(i + 1))), Attr("required", Bool(true))], [Text("")])
    ])
  }

  function SurveySections(qs: seq<string>): (r: seq<Node>)
    ensures |r| == |qs|
  {
    seq(|qs|, i requires 0 <= i < |qs| => SurveySection(i, qs[i]))
  }

  /** The heading and the note that open an exit survey. */
  const SurveyIntro: seq<Node> := [
    Element("h1", [], [Text("You are almost done!")]),
    Element("p", [], [Text("Answer the following questions and press 'next' to finish the study!")])
  ]

  /** `exit_survey_(*qs)`: a heading, a note, one required text area per
      question, and the submit button. */
  function ExitSurvey(qs: seq<string>): Node
  {
    Element("div", [], SurveyIntro + SurveySections(qs) + [Submit([])])
  }

  /** The session token of a page, or none (the farewell page). */
  datatype PageSession = NoSession | Session(uid: string)

  /** The head elements of every page: character set, viewport, icon
      and style sheet. */
  const PageHead: seq<Node> := [
    Element("meta", [Attr("charset", Str("utf-8"))], []),
    Element("meta", [Attr("name", Str("viewport")), Attr("content", Str("width=device-width, initial-scale=1.0"))], []),
    Text(FaviconLink),
    Element("link", [Attr("rel", Str("stylesheet")), Attr("type_", Str("text/css")), Attr("href", Str(CssFrameworkHref))], [])
  ]

  /** The properties of the page's form: it posts back to the same
      address, with autocompletion off. */
  const FormProps: seq<Attr> := [Attr("action", Str("")), Attr("method", Str("POST")), Attr("autocomplete", Str("off"))]

  /** The hidden input that sends the session token back with the form. */
  function HiddenUid(uid: string): Node
  {
    Element("input", [Attr("type_", Str("hidden")), Attr("name", Str("uid")), Attr("value", Str(uid))], [])
  }

  /** The `<html>` element of `page(uid, *contents)`. `guard` stands for
      the embedded script that warns before leaving the page. */
  function PageTree(session: PageSession, contents: seq<Node>, guard: string): Node
  {
    match session
    case NoSession =>
      Element("html", [], PageHead + [Element("form", FormProps, contents)])
    case Session(uid) =>
      Element("html", [], PageHead + [
        Element("form", FormProps, contents + [
          HiddenUid(uid),
          Element("p", [], [Element("em", [], [Text(BackButtonNote)])])
        ]),
        Element("script", [], [Text(guard)])
      ])
  }

  /** `page(uid, *contents)` as the text sent to the browser. */
  function Page(session: PageSession, contents: seq<Node>, guard: string): string
  {
    "<!DOCTYPE html>" + Render(PageTree(session, contents, guard))
  }

  // ---------------------------------------------------------------------
  // The form fields a node asks for

  /** A named form control: its name, whether the browser insists on a
      value, and its preset value (None when it has none). */
  datatype Field = Field(name: string, required: bool, value: AttrValue)

  predicate IsControl(tagName: string)
  {
    tagName == "input" || tagName == "select" || tagName == "textarea"
  }

  /** The value of attribute `key` as the browser reads the start tag: the
      first shown property whose stripped key is `key`, or None. */
  function Lookup(props: seq<Attr>, key: string): AttrValue
  {
    if props == [] then None
    else if Names(props[0], key) then props[0].value
    else Lookup(props[1..], key)
  }

  /** The property is shown and its key strips to `key`. */
  predicate Names(a: Attr, key: string)
  {
    Shown(a.value) && StripUnderscores(a.key) == key
  }

  /** The named controls of a node tree, in document order. */
  function Fields(n: Node): seq<Field>
    decreases n
  {
    match n
    case Text(_) => []
    case Element(tagName, props, children) =>
      (if IsControl(tagName) && Lookup(props, "name").Str?
       then [Field(Lookup(props, "name").s, Lookup(props, "required") != None, Lookup(props, "value"))]
       else [])
      + FieldsAll(children)
  }

  function FieldsAll(ns: seq<Node>): seq<Field>
    decreases ns
  {
    if ns == [] then [] else Fields(ns[0]) + FieldsAll(ns[1..])
  }

  lemma {:induction false} FieldsAllAppend(a: seq<Node>, b: seq<Node>)
    ensures FieldsAll(a + b) == FieldsAll(a) + FieldsAll(b)
  {
    if a == [] {
      assert a + b == b;
    } else {
      assert (a + b)[1..] == a[1..] + b;
      FieldsAllAppend(a[1..], b);
    }
  }

  /** Nodes that are not controls and hold none contribute no field. */
  predicate NoControls(ns: seq<Node>)
  {
    forall i :: 0 <= i < |ns| ==> Fields(ns[i]) == []
  }

  lemma {:induction false} FieldsAllNone(ns: seq<Node>)
    requires NoControls(ns)
    ensures FieldsAll(ns) == []
  {
    if ns != [] {
      assert Fields(ns[0]) == [];
      assert NoControls(ns[1..]) by {
        forall i | 0 <= i < |ns[1..]| ensures Fields(ns[1..][i]) == [] {
          assert ns[1..][i] == ns[i + 1];
        }
      }
      FieldsAllNone(ns[1..]);
    }
  }

  lemma {:induction false} FieldsAllOne(a: Node)
    ensures FieldsAll([a]) == Fields(a)
  {
    assert [a][1..] == [];
  }

  lemma {:induction false} FieldsAllTwo(a: Node, b: Node)
    ensures FieldsAll([a, b]) == Fields(a) + Fields(b)
  {
    assert [a, b][1..] == [b];
    FieldsAllOne(b);
  }

  /** Keys without underscores at either end are written unchanged, and
      one trailing underscore (`for_`, `type_`, `id_`) is dropped. */
  lemma {:induction false} StripClean(k: string)
    requires k != [] && k[0] != '_' && k[|k| - 1] != '_'
    ensures StripUnderscores(k) == k && StripUnderscores(k + "_") == k
  {
    assert TrimLeading(k) == k;
    assert TrimLeading(k + "_") == k + "_";
    assert (k + "_")[..|k|] == k;
    assert TrimTrailing(k + "_") == TrimTrailing(k) == k;
  }

  /** Properties that do not name `key` are passed over. */
  lemma {:induction false} LookupSkip(props: seq<Attr>, key: string, j: nat)
    requires j <= |props|
    requires forall i :: 0 <= i < j ==> !Names(props[i], key)
    ensures Lookup(props, key) == Lookup(props[j..], key)
  {
    if j > 0 {
      assert props[1..][j - 1..] == props[j..];
      LookupSkip(props[1..], key, j - 1);
    }
  }

  lemma {:induction false} InputName(kind: string, name: string, required: bool)
    ensures Lookup(InputProps(kind, name, required), "name") == Str(name)
  {
    var props := InputProps(kind, name, required);
    StripClean("name");
    LookupSkip(props, "name", 2);
  }

  lemma {:induction false} InputRequired(kind: string, name: string, required: bool)
    ensures Lookup(InputProps(kind, name, required), "required") == if required then Bool(true) else None
  {
    var props := InputProps(kind, name, required);
    StripClean("required");
    LookupSkip(props, "required", 3);
    assert props[3..] == [props[3]];
    assert [props[3]][1..] == [];
  }

  lemma {:induction false} InputValue(kind: string, name: string, required: bool)
    ensures Lookup(InputProps(kind, name, required), "value") == None
  {
    var props := InputProps(kind, name, required);
    LookupSkip(props, "value", 4);
    assert props[4..] == [];
  }

  lemma {:induction false} NamedInputField(kind: string, name: string, required: bool)
    ensures Fields(Element("input", InputProps(kind, name, required), [])) == [Field(name, required, None)]
  {
    InputName(kind, name, required);
    InputRequired(kind, name, required);
    InputValue(kind, name, required);
  }

  /** An element that is not a form control and holds only text (a
      label, an option, a paragraph) adds no field. */
  lemma {:induction false} TextElementHasNoField(tagName: string, props: seq<Attr>, text: string)
    requires !IsControl(tagName)
    ensures Fields(Element(tagName, props, [Text(text)])) == []
  {
    FieldsAllOne(Text(text));
  }

  /** text_input_ asks for exactly one field, under the given name, and
      the browser requires it exactly when `required` is set. */
  lemma {:induction false} TextInputField(name: string, text: string, required: bool)
    ensures Fields(TextInput(name, text, required)) == [Field(name, required, None)]
  {
    var lab := Element("label", [Attr("for_", Str(name))], [Text(text)]);
    var input := Element("input", InputProps("text", name, required), []);
    TextElementHasNoField("label", [Attr("for_", Str(name))], text);
    NamedInputField("text", name, required);
    FieldsAllTwo(lab, input);
  }

  /** check_input_ asks for exactly one field, like text_input_. */
  lemma {:induction false} CheckInputField(name: string, text: string, required: bool)
    ensures Fields(CheckInput(name, text, required)) == [Field(name, required, None)]
  {
    var lab := Element("label", [Attr("for_", Str(name))], [Text(text)]);
    var input := Element("input", InputProps("checkbox", name, required), []);
    TextElementHasNoField("label", [Attr("for_", Str(name))], text);
    NamedInputField("checkbox", name, required);
    FieldsAllTwo(input, lab);
  }

  /** The submit button has no name, so it adds no field to the answer. */
  lemma {:induction false} SubmitHasNoField()
    ensures Fields(Submit([])) == []
  {
    var props := [Attr("id_", Str("submit_button")), Attr("type_", Str("submit")), Attr("value", Str("Next"))];
    assert props + [] == props;
    LookupSkip(props, "name", 3);
    assert props[3..] == [];
  }

  lemma {:induction false} OptionsHaveNoField(options: seq<Choice>, prompt: string)
    ensures FieldsAll([Element("option", [Attr("value", Str(""))], [Text(prompt)])]
      + seq(|options|, i requires 0 <= i < |options| => OptionOf(options[i]))) == []
  {
    var opts := [Element("option", [Attr("value", Str(""))], [Text(prompt)])]
      + seq(|options|, i requires 0 <= i < |options| => OptionOf(options[i]));
    assert NoControls(opts) by {
      forall i | 0 <= i < |opts| ensures Fields(opts[i]) == [] {
        if i == 0 {
          TextElementHasNoField("option", [Attr("value", Str(""))], prompt);
        } else {
          TextElementHasNoField("option", [Attr("value", Str(options[i - 1].value))], options[i - 1].caption);
        }
      }
    }
    FieldsAllNone(opts);
  }

  /** select_input_ asks for one field under its name; the options do
      not add any. It is required when the extra keywords say so. */
  lemma {:induction false} SelectInputField(name: string, options: seq<Choice>, prompt: string, extra: seq<Attr>)
    requires KeysAvoid(extra, {"name"})
    ensures Fields(SelectInput(name, options, prompt, extra))
         == [Field(name, Lookup(extra, "required") != None, Lookup(extra, "value"))]
  {
    var props := [Attr("name", Str(name))] + extra;
    StripClean("name");
    assert props[1..] == extra;
    assert Lookup(props, "name") == Str(name);
    assert Lookup(props, "required") == Lookup(extra, "required");
    assert Lookup(props, "value") == Lookup(extra, "value");
    OptionsHaveNoField(options, prompt);
  }

  lemma {:induction false} DecimalInjective(n: nat, m: nat)
    requires Decimal(n) == Decimal(m)
    ensures n == m
  {
    var dn, dm := Decimal(n), Decimal(m);
    if n >= 10 && m >= 10 {
      assert dn[|dn| - 1] == DigitChar(n % 10);
      assert dm[|dm| - 1] == DigitChar(m % 10);
      assert Decimal(n / 10) == dn[..|dn| - 1] == dm[..|dm| - 1] == Decimal(m / 10);
      DecimalInjective(n / 10, m / 10);
    }
  }

  /** The field of question i (from 0) of an exit survey. */
  function QuestionField(i: nat): Field
  {
    Field("Q" + Decimal(i + 1), true, None)
  }

  lemma {:induction false} SurveySectionField(i: nat, q: string)
    ensures Fields(SurveySection(i, q)) == [QuestionField(i)]
  {
    var name := "Q" + Decimal(i + 1);
    var para := Element("p", [], [Text(q)]);
    var props := [Attr("name", Str(name)), Attr("required", Bool(true))];
    var area := Element("textarea", props, [Text("")]);
    StripClean("name");
    StripClean("required");
    assert props[1..] == [props[1]];
    assert props[1..][1..] == [];
    assert Lookup(props, "name") == Str(name);
    assert Lookup(props, "required") == Bool(true);
    LookupSkip(props, "value", 2);
    assert props[2..] == [];
    FieldsAllOne(Text(""));
    FieldsAllOne(Text(q));
    FieldsAllTwo(para, area);
  }

  /** The fields of the first k sections of a survey. */
  lemma {:induction false} SurveySectionsFields(qs: seq<string>, k: nat)
    requires k <= |qs|
    ensures |FieldsAll(SurveySections(qs)[..k])| == k
    ensures forall i :: 0 <= i < k ==> FieldsAll(SurveySections(qs)[..k])[i] == QuestionField(i)
  {
    if k > 0 {
      var ss := SurveySections(qs);
      SurveySectionsFields(qs, k - 1);
      FieldsAllSnoc(ss, k);
      SurveySectionField(k - 1, qs[k - 1]);
    }
  }

  lemma {:induction false} FieldsAllSnoc(ns: seq<Node>, k: nat)
    requires 0 < k <= |ns|
    ensures FieldsAll(ns[..k]) == FieldsAll(ns[..k - 1]) + Fields(ns[k - 1])
  {
    assert ns[..k] == ns[..k - 1] + [ns[k - 1]];
    FieldsAllAppend(ns[..k - 1], [ns[k - 1]]);
    FieldsAllOne(ns[k - 1]);
  }

  lemma {:induction false} SurveyIntroHasNoField()
    ensures FieldsAll(SurveyIntro) == []
  {
    var h, p := SurveyIntro[0], SurveyIntro[1];
    assert SurveyIntro == [h, p];
    FieldsAllOne(h.children[0]);
    FieldsAllOne(p.children[0]);
    FieldsAllTwo(h, p);
  }

  /** Only the sections of an exit survey ask for anything. */
  lemma {:induction false} ExitSurveySectionFields(qs: seq<string>)
    ensures Fields(ExitSurvey(qs)) == FieldsAll(SurveySections(qs))
  {
    var ss := SurveySections(qs);
    SurveyIntroHasNoField();
    SubmitHasNoField();
    FieldsAllOne(Submit([]));
    FieldsAllAppend(SurveyIntro + ss, [Submit([])]);
    FieldsAllAppend(SurveyIntro, ss);
  }

  /** exit_survey_ asks for one required field per question, named Q1,
      Q2, ... in order. */
  lemma {:induction false} ExitSurveyFields(qs: seq<string>)
    ensures |Fields(ExitSurvey(qs))| == |qs|
    ensures forall i :: 0 <= i < |qs| ==> Fields(ExitSurvey(qs))[i] == QuestionField(i)
  {
    var ss := SurveySections(qs);
    ExitSurveySectionFields(qs);
    SurveySectionsFields(qs, |qs|);
    assert ss[..|qs|] == ss;
  }

  /** The fields of an exit survey have pairwise different names. */
  lemma {:induction false} ExitSurveyNamesDistinct(qs: seq<string>)
    ensures |Fields(ExitSurvey(qs))| == |qs|
    ensures forall i, j :: 0 <= i < j < |qs| ==> Fields(ExitSurvey(qs))[i].name != Fields(ExitSurvey(qs))[j].name
  {
    ExitSurveyFields(qs);
    var fs := Fields(ExitSurvey(qs));
    forall i, j | 0 <= i < j < |qs| ensures fs[i].name != fs[j].name {
      if fs[i].name == fs[j].name {
        assert Decimal(i + 1) == fs[i].name[1..] == fs[j].name[1..] == Decimal(j + 1);
        DecimalInjective(i + 1, j + 1);
      }
    }
  }

  lemma {:induction false} HeadHasNoField()
    ensures FieldsAll(PageHead) == []
  {
    var head := PageHead;
    assert NoControls(head);
    FieldsAllNone(head);
  }

  /** The hidden input that carries the session token. */
  lemma {:induction false} HiddenUidField(uid: string)
    ensures Fields(HiddenUid(uid))
         == [Field("uid", false, Str(uid))]
  {
    var props := HiddenUid(uid).props;
    StripClean("name");
    LookupSkip(props, "name", 1);
    assert props[1..] == [props[1], props[2]];
    LookupSkip(props, "required", 3);
    assert props[3..] == [];
    StripClean("value");
    LookupSkip(props, "value", 2);
    assert props[2..] == [props[2]];
  }

  /** A page that belongs to a session carries its token in a hidden,
      optional `uid` field after the prompt's own fields, which is how
      the token comes back with the next submission; the farewell page
      asks for nothing beyond its contents. */
  lemma {:induction false} PageFields(session: PageSession, contents: seq<Node>, guard: string)
    ensures session.Session? ==>
      Fields(PageTree(session, contents, guard)) == FieldsAll(contents) + [Field("uid", false, Str(session.uid))]
    ensures session.NoSession? ==>
      Fields(PageTree(session, contents, guard)) == FieldsAll(contents)
  {
    var head := PageHead;
    HeadHasNoField();
    match session
    case NoSession =>
      var form := Element("form", FormProps, contents);
      FieldsAllAppend(head, [form]);
      FieldsAllOne(form);
    case Session(uid) =>
      var hidden := HiddenUid(uid);
      var em := Element("em", [], [Text(BackButtonNote)]);
      var note := Element("p", [], [em]);
      var form := Element("form", FormProps, contents + [hidden, note]);
      var script := Element("script", [], [Text(guard)]);
      HiddenUidField(uid);
      FieldsAllOne(Text(BackButtonNote));
      FieldsAllOne(em);
      FieldsAllTwo(hidden, note);
      FieldsAllAppend(contents, [hidden, note]);
      FieldsAllOne(Text(guard));
      FieldsAllTwo(form, script);
      FieldsAllAppend(head, [form, script]);
  }
}
