/**
 * The `tag` HTML serialiser of kesar.py: a tag has a name and keyword
 * properties; calling it with children yields the element as a string.
 * A tag object that is turned into a string without being called renders
 * exactly as a call with no children, so both are `Element(name, props, [])`
 * in the `Node` tree below.
 */
module Html {

  /** What a keyword property can hold, as far as rendering can tell:
      Python's None, a bool, or any other value (written out by str()). */
  datatype AttrValue = None | Bool(b: bool) | Str(s: string)

  /** One keyword property, in the order the keywords were given. */
  datatype Attr = Attr(key: string, value: AttrValue)

  /** A property is rendered unless it is None or False. */
  predicate Shown(v: AttrValue)
  {
    v != None && v != Bool(false)
  }

  /** Removes the leading underscores of a key. */
  function TrimLeading(k: string): string
  {
    if |k| > 0 && k[0] == '_' then TrimLeading(k[1..]) else k
  }

  /** Removes the trailing underscores of a key. */
  function TrimTrailing(k: string): string
  {
    if |k| > 0 && k[|k| - 1] == '_' then TrimTrailing(k[..|k| - 1]) else k
  }

  /** Python's `k.strip("_")`: the key without its leading and trailing
      underscores, so that `for_`, `type_` and `id_` become `for`, `type`
      and `id`. */
  function StripUnderscores(k: string): string
  {
    TrimTrailing(TrimLeading(k))
  }

  /** TrimLeading keeps a suffix of the key, cuts only underscores, and
      cuts all of them. */
  lemma {:induction false} TrimLeadingCuts(k: string)
    ensures |TrimLeading(k)| <= |k| && TrimLeading(k) == k[|k| - |TrimLeading(k)|..]
    ensures forall i :: 0 <= i < |k| - |TrimLeading(k)| ==> k[i] == '_'
    ensures TrimLeading(k) == [] || TrimLeading(k)[0] != '_'
  {
    if |k| > 0 && k[0] == '_' {
      TrimLeadingCuts(k[1..]);
      assert k[1..][|k| - 1 - |TrimLeading(k)|..] == k[|k| - |TrimLeading(k)|..];
      forall i | 0 <= i < |k| - |TrimLeading(k)| ensures k[i] == '_' {
        if i > 0 {
          assert k[i] == k[1..][i - 1];
        }
      }
    }
  }

  /** TrimTrailing keeps a prefix of the key, cuts only underscores, and
      cuts all of them. */
  lemma {:induction false} TrimTrailingCuts(k: string)
    ensures |TrimTrailing(k)| <= |k| && TrimTrailing(k) == k[..|TrimTrailing(k)|]
    ensures forall i :: |TrimTrailing(k)| <= i < |k| ==> k[i] == '_'
    ensures TrimTrailing(k) == [] || TrimTrailing(k)[|TrimTrailing(k)| - 1] != '_'
  {
    if |k| > 0 && k[|k| - 1] == '_' {
      var k' := k[..|k| - 1];
      TrimTrailingCuts(k');
      assert k'[..|TrimTrailing(k)|] == k[..|TrimTrailing(k)|];
      forall i | |TrimTrailing(k)| <= i < |k| ensures k[i] == '_' {
        if i < |k| - 1 {
          assert k[i] == k'[i];
        }
      }
    }
  }

  /** The stripped key is the part of `k` that starts after the leading
      underscores; every character cut off at either end is an
      underscore, the result neither starts nor ends with one, and it is
      empty exactly when the key is made of underscores only. */
  lemma {:induction false} StripUnderscoresCuts(k: string)
    ensures |StripUnderscores(k)| <= |TrimLeading(k)| <= |k|
    ensures StripUnderscores(k) == k[|k| - |TrimLeading(k)|..|k| - |TrimLeading(k)| + |StripUnderscores(k)|]
    ensures forall i :: 0 <= i < |k| - |TrimLeading(k)| ==> k[i] == '_'
    ensures forall i :: |k| - |TrimLeading(k)| + |StripUnderscores(k)| <= i < |k| ==> k[i] == '_'
    ensures StripUnderscores(k) == [] || (StripUnderscores(k)[0] != '_' && StripUnderscores(k)[|StripUnderscores(k)| - 1] != '_')
    ensures StripUnderscores(k) == [] <==> forall i :: 0 <= i < |k| ==> k[i] == '_'
  {
    var l := TrimLeading(k);
    var r := TrimTrailing(l);
    assert r == StripUnderscores(k);
    TrimLeadingCuts(k);
    TrimTrailingCuts(l);
    var s := |k| - |l|;
    forall i | s + |r| <= i < |k| ensures k[i] == '_' {
      assert k[i] == l[i - s];
    }
    assert r == k[s..s + |r|] by {
      assert r == l[..|r|];
    }
    if r == [] {
      assert l == [];
    } else {
      assert k[s] == r[0];
    }
  }

  /** One shown property: a True value renders as the bare key, any
      other value as `key="value"`. */
  function RenderKv(a: Attr): string
    requires Shown(a.value)
  {
    if a.value.Str? then StripUnderscores(a.key) + "=\"" + a.value.s + "\""
    else StripUnderscores(a.key)
  }

  /** The attribute part of a start tag: a space before each shown
      property, in the order the properties were given. */
  function RenderAttrs(props: seq<Attr>): string
  {
    if props == [] then ""
    else
      (if Shown(props[0].value) then " " + RenderKv(props[0]) else "")
      + RenderAttrs(props[1..])
  }

  /** Python's `' '.join(children)`. */
  function JoinSpaces(cs: seq<string>): string
  {
    if |cs| == 0 then ""
    else if |cs| == 1 then cs[0]
    else cs[0] + " " + JoinSpaces(cs[1..])
  }

  /** `tag(name, **props)(*children)`: a self-closing element when there
      are no children, otherwise a start tag, the children separated by
      single spaces, and an end tag. */
  function TagCall(name: string, props: seq<Attr>, children: seq<string>): string
  {
    if |children| == 0 then "<" + name + RenderAttrs(props) + "/>"
    else "<" + name + RenderAttrs(props) + ">" + JoinSpaces(children) + "</" + name + ">"
  }

  /** A page fragment: raw text (inserted verbatim, as str() does), or a
      tag with its properties and the children it is called with. */
  datatype Node = Text(raw: string) | Element(name: string, props: seq<Attr>, children: seq<Node>)

  function Render(n: Node): string
    decreases n
  {
    match n
    case Text(s) => s
    case Element(name, props, children) => TagCall(name, props, RenderAll(children))
  }

  function RenderAll(ns: seq<Node>): (r: seq<string>)
    ensures |r| == |ns|
    decreases ns
  {
    if ns == [] then [] else [Render(ns[0])] + RenderAll(ns[1..])
  }

  /** Every shown property is written with a leading space, so the
      attribute part is empty or starts with a space. */
  lemma {:induction false} RenderAttrsStartsWithSpace(props: seq<Attr>)
    ensures RenderAttrs(props) == [] || RenderAttrs(props)[0] == ' '
  {
    if props != [] && !Shown(props[0].value) {
      RenderAttrsStartsWithSpace(props[1..]);
    }
  }

  /** Rendering the properties is compositional: order is preserved and
      nothing is added or lost between consecutive runs of properties. */
  lemma {:induction false} RenderAttrsAppend(a: seq<Attr>, b: seq<Attr>)
    ensures RenderAttrs(a + b) == RenderAttrs(a) + RenderAttrs(b)
  {
    if a == [] {
      assert a + b == b;
    } else {
      assert (a + b)[1..] == a[1..] + b;
      RenderAttrsAppend(a[1..], b);
    }
  }

  /** A property that is None or False leaves no trace in the output,
      wherever it stands. */
  lemma HiddenAttrIgnored(a: seq<Attr>, h: Attr, b: seq<Attr>)
    requires !Shown(h.value)
    ensures RenderAttrs(a + [h] + b) == RenderAttrs(a + b)
  {
    RenderAttrsAppend(a + [h], b);
    RenderAttrsAppend(a, [h]);
    RenderAttrsAppend(a, b);
    assert RenderAttrs([h]) == "" by {
      assert [h][1..] == [];
    }
  }

  /** A shown property is written in its place among the others as a
      space followed by `key="value"` or the bare key. */
  lemma RenderAttrsShown(a: seq<Attr>, x: Attr, b: seq<Attr>)
    requires Shown(x.value)
    ensures RenderAttrs(a + [x] + b) == RenderAttrs(a) + " " + RenderKv(x) + RenderAttrs(b)
  {
    RenderAttrsAppend(a + [x], b);
    RenderAttrsAppend(a, [x]);
    assert RenderAttrs([x]) == " " + RenderKv(x) by {
      assert [x][1..] == [];
    }
  }

  /** Joining two non-empty runs of children puts exactly one space
      between them. */
  lemma {:induction false} JoinSpacesAppend(a: seq<string>, b: seq<string>)
    requires a != [] && b != []
    ensures JoinSpaces(a + b) == JoinSpaces(a) + " " + JoinSpaces(b)
  {
    if |a| == 1 {
      assert (a + b)[1..] == b;
    } else {
      assert (a + b)[1..] == a[1..] + b;
      JoinSpacesAppend(a[1..], b);
    }
  }
}
