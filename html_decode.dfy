/**
 * Reading back what `tag` writes. The decoder is the partner of
 * Html.TagCall: whenever the name and the keys are plain words and no
 * value holds a double quote, decoding a rendered element recovers its
 * name, its shown properties in order (with stripped keys, True ones
 * bare) and the children joined by spaces. `tag` escapes nothing, so
 * without those conditions two different calls can give the same text
 * (see UnescapedValueIsAmbiguous).
 */
module HtmlDecode {
  import opened Html

  /** Characters that end a tag name or an attribute key. */
  predicate Delimiter(c: char)
  {
    c == ' ' || c == '=' || c == '"' || c == '/' || c == '>'
  }

  predicate Plain(s: string)
  {
    forall i :: 0 <= i < |s| ==> !Delimiter(s[i])
  }

  predicate Unquoted(s: string)
  {
    forall i :: 0 <= i < |s| ==> s[i] != '"'
  }

  /** The longest prefix made of non-delimiters. */
  function TakePlain(s: string): (t: string)
    ensures |t| <= |s| && t == s[..|t|] && Plain(t)
    ensures |t| < |s| ==> Delimiter(s[|t|])
  {
    if |s| > 0 && !Delimiter(s[0]) then [s[0]] + TakePlain(s[1..]) else []
  }

  /** The longest prefix without a double quote. */
  function TakeUnquoted(s: string): (t: string)
    ensures |t| <= |s| && t == s[..|t|] && Unquoted(t)
    ensures |t| < |s| ==> s[|t|] == '"'
  {
    if |s| > 0 && s[0] != '"' then [s[0]] + TakeUnquoted(s[1..]) else []
  }

  lemma TakePlainOf(t: string, rest: string)
    requires Plain(t)
    requires rest == [] || Delimiter(rest[0])
    ensures TakePlain(t + rest) == t
  {
    var u := TakePlain(t + rest);
    assert u == (t + rest)[..|t|] == t;
  }

  lemma TakeUnquotedOf(t: string, rest: string)
    requires Unquoted(t)
    requires rest != [] && rest[0] == '"'
    ensures TakeUnquoted(t + rest) == t
  {
    var u := TakeUnquoted(t + rest);
    assert u == (t + rest)[..|t|] == t;
  }

  /** An attribute as a reader of the start tag sees it. */
  datatype Token = Bare(key: string) | Valued(key: string, value: string)

  function TokenOf(a: Attr): Token
    requires Shown(a.value)
  {
    if a.value.Str? then Valued(StripUnderscores(a.key), a.value.s)
    else Bare(StripUnderscores(a.key))
  }

  /** The attributes a property list stands for: the shown ones, in
      order, with stripped keys; True ones bare. */
  function Tokens(props: seq<Attr>): seq<Token>
  {
    if props == [] then []
    else (if Shown(props[0].value) then [TokenOf(props[0])] else []) + Tokens(props[1..])
  }

  /** A shown property whose key strips to a plain non-empty word and
      whose value holds no double quote. */
  predicate PlainAttr(a: Attr)
  {
    Shown(a.value) ==>
      StripUnderscores(a.key) != [] && Plain(StripUnderscores(a.key)) &&
      (a.value.Str? ==> Unquoted(a.value.s))
  }

  predicate Renderable(props: seq<Attr>)
  {
    forall i :: 0 <= i < |props| ==> PlainAttr(props[i])
  }

  datatype Parsed = Parsed(tokens: seq<Token>, rest: string)

  /** Reads ` key` and ` key="value"` items for as long as they come. */
  function DecodeAttrs(s: string): Parsed
    decreases |s|
  {
    if |s| == 0 || s[0] != ' ' then Parsed([], s)
    else
      var key := TakePlain(s[1..]);
      var after := s[1 + |key|..];
      if key == [] then Parsed([], s)
      else if |after| >= 2 && after[0] == '=' && after[1] == '"' then
        var v := TakeUnquoted(after[2..]);
        var close := after[2 + |v|..];
        if close == [] then Parsed([], s)
        else
          var p := DecodeAttrs(close[1..]);
          Parsed([Valued(key, v)] + p.tokens, p.rest)
      else
        var p := DecodeAttrs(after);
        Parsed([Bare(key)] + p.tokens, p.rest)
  }

  /** What may follow the attributes of a start tag. */
  predicate StartTagEnd(tail: string)
  {
    tail == [] || tail[0] == '/' || tail[0] == '>'
  }

  lemma RenderableTail(props: seq<Attr>)
    requires props != [] && Renderable(props)
    ensures Renderable(props[1..])
  {
    forall i | 0 <= i < |props[1..]|
      ensures PlainAttr(props[1..][i])
    {
      assert props[1..][i] == props[i + 1];
    }
  }

  /** One bare key, followed by what comes after it. */
  lemma DecodeBare(k: string, t: string)
    requires k != [] && Plain(k)
    requires t == [] || t[0] == ' ' || t[0] == '/' || t[0] == '>'
    ensures DecodeAttrs(" " + k + t) == Parsed([Bare(k)] + DecodeAttrs(t).tokens, DecodeAttrs(t).rest)
  {
    var s := " " + k + t;
    assert s[1..] == k + t;
    TakePlainOf(k, t);
    assert s[1 + |k|..] == t;
  }

  /** One `key="value"` item, followed by what comes after it. */
  lemma DecodeValued(k: string, v: string, t: string)
    requires k != [] && Plain(k) && Unquoted(v)
    ensures DecodeAttrs(" " + k + "=\"" + v + "\"" + t)
         == Parsed([Valued(k, v)] + DecodeAttrs(t).tokens, DecodeAttrs(t).rest)
  {
    var after := "=\"" + v + "\"" + t;
    var s := " " + k + "=\"" + v + "\"" + t;
    assert s == " " + (k + after);
    assert s[1..] == k + after;
    TakePlainOf(k, after);
    assert s[1 + |k|..] == after;
    assert after[2..] == v + ("\"" + t);
    TakeUnquotedOf(v, "\"" + t);
    assert after[2 + |v|..] == "\"" + t;
    assert ("\"" + t)[1..] == t;
  }

  /** One shown property, followed by what comes after it. */
  lemma DecodeShown(a: Attr, t: string, s: string)
    requires Shown(a.value) && PlainAttr(a)
    requires t == [] || t[0] == ' ' || t[0] == '/' || t[0] == '>'
    requires s == " " + RenderKv(a) + t
    ensures DecodeAttrs(s) == Parsed([TokenOf(a)] + DecodeAttrs(t).tokens, DecodeAttrs(t).rest)
  {
    var k := StripUnderscores(a.key);
    if a.value.Str? {
      assert s == " " + k + "=\"" + a.value.s + "\"" + t;
      DecodeValued(k, a.value.s, t);
    } else {
      assert s == " " + k + t;
      DecodeBare(k, t);
    }
  }

  lemma HiddenHead(props: seq<Attr>)
    requires props != [] && !Shown(props[0].value)
    ensures RenderAttrs(props) == RenderAttrs(props[1..])
    ensures Tokens(props) == Tokens(props[1..])
  {
  }

  lemma ShownHead(props: seq<Attr>)
    requires props != [] && Shown(props[0].value)
    ensures RenderAttrs(props) == " " + RenderKv(props[0]) + RenderAttrs(props[1..])
    ensures Tokens(props) == [TokenOf(props[0])] + Tokens(props[1..])
  {
  }

  /** The inductive step for a shown property in front. */
  lemma {:induction false} DecodeRenderAttrsCons(props: seq<Attr>, tail: string)
    requires props != [] && Shown(props[0].value) && PlainAttr(props[0]) && StartTagEnd(tail)
    requires DecodeAttrs(RenderAttrs(props[1..]) + tail) == Parsed(Tokens(props[1..]), tail)
    ensures DecodeAttrs(RenderAttrs(props) + tail) == Parsed(Tokens(props), tail)
  {
    var t := RenderAttrs(props[1..]) + tail;
    RenderAttrsStartsWithSpace(props[1..]);
    ShownHead(props);
    DecodeShown(props[0], t, RenderAttrs(props) + tail);
  }

  /** Decoding the attribute part gives back exactly the shown
      properties, in order, and stops where the start tag ends. */
  lemma {:induction false} DecodeRenderAttrs(props: seq<Attr>, tail: string)
    requires Renderable(props)
    requires StartTagEnd(tail)
    ensures DecodeAttrs(RenderAttrs(props) + tail) == Parsed(Tokens(props), tail)
  {
    if props == [] {
      assert RenderAttrs(props) + tail == tail;
    } else {
      RenderableTail(props);
      DecodeRenderAttrs(props[1..], tail);
      if Shown(props[0].value) {
        DecodeRenderAttrsCons(props, tail);
      } else {
        HiddenHead(props);
      }
    }
  }

  datatype Content = SelfClosing | Children(text: string)

  datatype TagParse = Malformed | Tag(name: string, attrs: seq<Token>, content: Content)

  /** Reads one element written by `tag`: `<name attrs/>`, or
      `<name attrs>content</name>`. */
  function DecodeTag(r: string): TagParse
  {
    if |r| == 0 || r[0] != '<' then Malformed
    else
      var name := TakePlain(r[1..]);
      var p := DecodeAttrs(r[1 + |name|..]);
      var close := "</" + name + ">";
      if name == [] then Malformed
      else if p.rest == "/>" then Tag(name, p.tokens, SelfClosing)
      else if |p.rest| >= 1 + |close| && p.rest[0] == '>' && p.rest[|p.rest| - |close|..] == close then
        Tag(name, p.tokens, Children(p.rest[1..|p.rest| - |close|]))
      else Malformed
  }

  /** A start tag reads back as its name and its shown properties. */
  lemma {:induction false} DecodeStartTag(name: string, props: seq<Attr>, tail: string, r: string)
    requires name != [] && Plain(name) && Renderable(props) && StartTagEnd(tail)
    requires r == "<" + name + RenderAttrs(props) + tail
    ensures |r| >= 1 + |name| && r[0] == '<' && TakePlain(r[1..]) == name
    ensures DecodeAttrs(r[1 + |name|..]) == Parsed(Tokens(props), tail)
  {
    var attrs := RenderAttrs(props);
    assert r[1..] == name + (attrs + tail);
    RenderAttrsStartsWithSpace(props);
    TakePlainOf(name, attrs + tail);
    assert r[1 + |name|..] == attrs + tail;
    DecodeRenderAttrs(props, tail);
  }

  lemma DecodeSelfClosing(name: string, props: seq<Attr>)
    requires name != [] && Plain(name) && Renderable(props)
    ensures DecodeTag(TagCall(name, props, [])) == Tag(name, Tokens(props), SelfClosing)
  {
    DecodeStartTag(name, props, "/>", TagCall(name, props, []));
  }

  lemma DecodeWithChildren(name: string, props: seq<Attr>, children: seq<string>)
    requires name != [] && Plain(name) && Renderable(props) && children != []
    ensures DecodeTag(TagCall(name, props, children)) == Tag(name, Tokens(props), Children(JoinSpaces(children)))
  {
    var close := "</" + name + ">";
    var tail := ">" + JoinSpaces(children) + close;
    DecodeStartTag(name, props, tail, TagCall(name, props, children));
    assert tail[|tail| - |close|..] == close;
    assert tail[1..|tail| - |close|] == JoinSpaces(children);
  }

  /** The round trip of `tag`: with no children the element is
      self-closing, otherwise the content between start and end tag is
      the children separated by single spaces; the attributes read back
      are the shown properties in order, keys stripped of underscores,
      True ones bare. */
  lemma DecodeTagCall(name: string, props: seq<Attr>, children: seq<string>)
    requires name != [] && Plain(name) && Renderable(props)
    ensures DecodeTag(TagCall(name, props, children))
         == Tag(name, Tokens(props), if children == [] then SelfClosing else Children(JoinSpaces(children)))
  {
    if children == [] {
      DecodeSelfClosing(name, props);
    } else {
      DecodeWithChildren(name, props, children);
    }
  }

  /** Values are written between double quotes without escaping, so a
      value holding a quote can pass for two properties. */
  lemma UnescapedValueIsAmbiguous()
    ensures RenderAttrs([Attr("title", Str("a\" b=\"c"))])
         == RenderAttrs([Attr("title", Str("a")), Attr("b", Str("c"))])
  {
  }
}
