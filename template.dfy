/**
 * Template evaluation for `authProviderFor` / `paramProviderFor`
 * (lib/STSExampleHandler.js, `eval`). The source evaluates the `x-ample`
 * string as a JavaScript template literal with `headers` and `obj` bound to
 * the response's headers and parsed body. Here only placeholders of the form
 * `${headers.<identifier>}` and `${obj.<identifier>}` are accepted; every
 * other character is copied as it is, and anything else inside `${...}` is
 * an error, as is a backtick or a backslash (which would end or escape the
 * literal in the source).
 */
module Template {
  import opened Js

  /** The two names the source binds before evaluating. */
  datatype Root = Headers | Obj

  datatype Segment = Lit(c: char) | Ref(root: Root, id: string)

  predicate IsIdStart(c: char)
  {
    ('a' <= c <= 'z') || ('A' <= c <= 'Z') || c == '_' || c == '$'
  }

  predicate IsIdentifier(s: string)
  {
    |s| > 0 && IsIdStart(s[0]) && forall i :: 0 <= i < |s| ==> IsIdStart(s[i]) || IsDigit(s[i])
  }

  function RootName(root: Root): string
  {
    match root
    case Headers => "headers"
    case Obj => "obj"
  }

  /** The first position of `c` in `s`. */
  function IndexOf(s: string, c: char): (r: Option<nat>)
    ensures r.Some? ==> r.value < |s| && s[r.value] == c && c !in s[..r.value]
    ensures r.None? ==> c !in s
  {
    if s == [] then None
    else if s[0] == c then Some(0)
    else match IndexOf(s[1..], c)
      case None => None
      case Some(i) =>
        assert s[..i + 1] == [s[0]] + s[1..][..i];
        Some(i + 1)
  }

  /** The expression inside `${...}`: `headers.<id>` or `obj.<id>`. */
  function ParseRef(expr: string): Option<Segment>
  {
    if |expr| > 8 && expr[..8] == "headers." && IsIdentifier(expr[8..]) then Some(Ref(Headers, expr[8..]))
    else if |expr| > 4 && expr[..4] == "obj." && IsIdentifier(expr[4..]) then Some(Ref(Obj, expr[4..]))
    else None
  }

  /** Splits a template into literal characters and placeholders. */
  function Parse(t: string): Result<seq<Segment>, Failure>
    decreases |t|
  {
    if t == [] then Ok([])
    else if t[0] == '`' || t[0] == '\\' then Err(TemplateError("unsupported character in template"))
    else if t[0] == '$' && |t| > 1 && t[1] == '{' then
      match IndexOf(t[2..], '}')
      case None => Err(TemplateError("unterminated placeholder"))
      case Some(close) =>
        match ParseRef(t[2..2 + close])
        case None => Err(TemplateError("unsupported placeholder: " + t[2..2 + close]))
        case Some(seg) =>
          match Parse(t[3 + close..])
          case Err(e) => Err(e)
          case Ok(rest) => Ok([seg] + rest)
    else
      match Parse(t[1..])
      case Err(e) => Err(e)
      case Ok(rest) => Ok([Lit(t[0])] + rest)
  }

  /** The text a segment list stands for. */
  function Unparse(segs: seq<Segment>): string
  {
    if segs == [] then ""
    else
      var head := match segs[0]
        case Lit(c) => [c]
        case Ref(root, id) => "${" + RootName(root) + "." + id + "}";
      head + Unparse(segs[1..])
  }

  /**
   * Segment lists that a template can produce: literal characters are not a
   * backtick or a backslash, a literal `$` is not followed by a literal `{`,
   * and placeholder names are identifiers.
   */
  predicate WellFormed(segs: seq<Segment>)
  {
    segs == [] ||
    ((match segs[0]
      case Lit(c) => c != '`' && c != '\\' && (c == '$' && |segs| > 1 ==> segs[1] != Lit('{'))
      case Ref(_, id) => IsIdentifier(id))
     && WellFormed(segs[1..]))
  }

  lemma {:induction false} IndexOfAfter(body: string, tail: string)
    requires '}' !in body
    ensures IndexOf(body + "}" + tail, '}') == Some(|body|)
  {
    if body != [] {
      assert (body + "}" + tail)[1..] == body[1..] + "}" + tail;
      IndexOfAfter(body[1..], tail);
    }
  }

  lemma RefText(root: Root, id: string, tail: string)
    requires IsIdentifier(id)
    ensures var t := "${" + RootName(root) + "." + id + "}" + tail;
      var close := |RootName(root)| + 1 + |id|;
      IndexOf(t[2..], '}') == Some(close) && t[2..2 + close] == RootName(root) + "." + id
      && ParseRef(t[2..2 + close]) == Some(Ref(root, id)) && t[3 + close..] == tail
  {
    var t := "${" + RootName(root) + "." + id + "}" + tail;
    var body := RootName(root) + "." + id;
    assert t[2..] == body + "}" + tail;
    RefBodyNoBrace(root, id);
    IndexOfAfter(body, tail);
    assert t[2..2 + |body|] == body;
    ParseRefBody(root, id);
  }

  lemma RefBodyNoBrace(root: Root, id: string)
    requires IsIdentifier(id)
    ensures '}' !in RootName(root) + "." + id
  {
    var body := RootName(root) + "." + id;
    forall i | 0 <= i < |body| ensures body[i] != '}' {
      if i >= |RootName(root)| + 1 {
        assert body[i] == id[i - |RootName(root)| - 1];
      }
    }
  }

  lemma ParseRefBody(root: Root, id: string)
    requires IsIdentifier(id)
    ensures ParseRef(RootName(root) + "." + id) == Some(Ref(root, id))
  {
    var body := RootName(root) + "." + id;
    match root {
      case Headers =>
        assert body[..8] == "headers." && body[8..] == id;
      case Obj =>
        assert |body| > 8 ==> body[..8][0] == 'o' != "headers."[0];
        assert body[..4] == "obj." && body[4..] == id;
    }
  }

  lemma ParseLitStep(c: char, text: string, rest: seq<Segment>)
    requires c != '`' && c != '\\' && (c == '$' && text != [] ==> text[0] != '{')
    requires Parse(text) == Ok(rest)
    ensures Parse([c] + text) == Ok([Lit(c)] + rest)
  {
    assert ([c] + text)[1..] == text;
  }

  lemma ParseRefStep(root: Root, id: string, text: string, rest: seq<Segment>)
    requires IsIdentifier(id)
    requires Parse(text) == Ok(rest)
    ensures Parse("${" + RootName(root) + "." + id + "}" + text) == Ok([Ref(root, id)] + rest)
  {
    var t := "${" + RootName(root) + "." + id + "}" + text;
    RefText(root, id, text);
    assert t[0] == '$' && t[1] == '{';
  }

  /** The first character of a non-empty segment list's text. */
  lemma UnparseHead(segs: seq<Segment>)
    requires segs != []
    ensures Unparse(segs) != []
    ensures Unparse(segs)[0] == match segs[0] case Lit(d) => d case Ref(_, _) => '$'
  {
  }

  /** Parsing the text of a well-formed segment list gives the list back. */
  lemma {:induction false} ParseUnparse(segs: seq<Segment>)
    requires WellFormed(segs)
    ensures Parse(Unparse(segs)) == Ok(segs)
  {
    if segs != [] {
      var rest := segs[1..];
      ParseUnparse(rest);
      assert segs == [segs[0]] + rest;
      match segs[0] {
        case Lit(c) =>
          if c == '$' && rest != [] {
            UnparseHead(rest);
          }
          ParseLitStep(c, Unparse(rest), rest);
        case Ref(root, id) =>
          ParseRefStep(root, id, Unparse(rest), rest);
      }
    }
  }

  /** `${headers.id}` / `${obj.id}` read from the response; a literal is copied. */
  function RenderSegment(seg: Segment, response: Json): Result<string, Failure>
  {
    match seg
    case Lit(c) => Ok([c])
    case Ref(root, id) =>
      match Member(Get(response, RootName(root)), id)
      case Err(e) => Err(e)
      case Ok(v) => Ok(ToJsString(v))
  }

  function Render(segs: seq<Segment>, response: Json): Result<string, Failure>
  {
    if segs == [] then Ok("")
    else
      match RenderSegment(segs[0], response)
      case Err(e) => Err(e)
      case Ok(h) =>
        match Render(segs[1..], response)
        case Err(e) => Err(e)
        case Ok(tail) => Ok(h + tail)
  }

  /**
   * The constrained replacement of `eval('`' + template + '`')`: reading
   * `response.headers` and `response.obj` first fails on an undefined or
   * null response.
   */
  function Eval(response: Json, template: string): (r: Result<string, Failure>)
    ensures (response == JUndefined || response == JNull) ==> r.Err?
  {
    match Member(response, "headers")
    case Err(e) => Err(e)
    case Ok(_) =>
      match Parse(template)
      case Err(e) => Err(e)
      case Ok(segs) => Render(segs, response)
  }

  /** A template without `$`, backtick or backslash evaluates to itself. */
  lemma {:induction false} EvalPlainText(response: Json, template: string)
    requires response != JUndefined && response != JNull
    requires forall i :: 0 <= i < |template| ==> template[i] !in "$`\\"
    ensures Eval(response, template) == Ok(template)
  {
    var segs := seq(|template|, i requires 0 <= i < |template| => Lit(template[i]));
    PlainSegments(template);
    ParseUnparse(segs);
    RenderLiterals(segs, response);
  }

  /** The text of a well-formed segment list evaluates to those segments rendered against the response. */
  lemma EvalUnparse(segs: seq<Segment>, response: Json)
    requires WellFormed(segs)
    requires response != JUndefined && response != JNull
    ensures Eval(response, Unparse(segs)) == Render(segs, response)
  {
    ParseUnparse(segs);
  }

  /**
   * `${headers.id}` or `${obj.id}` alone evaluates to the JavaScript string of
   * `response.headers.id` or `response.obj.id`; it throws when
   * `response.headers` or `response.obj` is undefined or null.
   */
  lemma EvalPlaceholder(response: Json, root: Root, id: string)
    requires response != JUndefined && response != JNull
    requires IsIdentifier(id)
    ensures var holder := Get(response, RootName(root));
      var r := Eval(response, "${" + RootName(root) + "." + id + "}");
      if holder == JUndefined || holder == JNull then r.Err? else r == Ok(ToJsString(Get(holder, id)))
  {
    var t := "${" + RootName(root) + "." + id + "}";
    var segs := [Ref(root, id)];
    ParseRefStep(root, id, "", []);
    assert t + "" == t && [Ref(root, id)] + [] == segs;
    assert Eval(response, t) == Render(segs, response);
    assert segs[1..] == [] && Render([], response) == Ok("");
    var holder := Get(response, RootName(root));
    if holder != JUndefined && holder != JNull {
      var h := ToJsString(Get(holder, id));
      assert RenderSegment(segs[0], response) == Ok(h);
      assert h + "" == h;
    }
  }

  lemma {:induction false} PlainSegments(template: string)
    requires forall i :: 0 <= i < |template| ==> template[i] !in "$`\\"
    ensures var segs := seq(|template|, i requires 0 <= i < |template| => Lit(template[i]));
      WellFormed(segs) && Unparse(segs) == template
  {
    var segs := seq(|template|, i requires 0 <= i < |template| => Lit(template[i]));
    if template != [] {
      PlainSegments(template[1..]);
      assert segs[1..] == seq(|template| - 1, i requires 0 <= i < |template| - 1 => Lit(template[1..][i]));
      assert Unparse(segs) == [template[0]] + template[1..];
    }
  }

  lemma {:induction false} RenderLiterals(segs: seq<Segment>, response: Json)
    requires forall i :: 0 <= i < |segs| ==> segs[i].Lit?
    ensures Render(segs, response) == Ok(Unparse(segs))
  {
    if segs != [] {
      RenderLiterals(segs[1..], response);
    }
  }

  function SampleSegments(): seq<Segment>
  {
    [Lit('['), Ref(Headers, "header1"), Lit(':'), Ref(Obj, "field2"), Lit(']')]
  }

  function SampleResponse(): Json
  {
    Object([("headers", Object([("header1", JStr("value1"))])), ("obj", Object([("field2", JStr("value2"))]))])
  }

  lemma SampleWellFormed()
    ensures WellFormed(SampleSegments())
  {
    var s5: seq<Segment> := [];
    var s4 := [Lit(']')] + s5;
    var s3 := [Ref(Obj, "field2")] + s4;
    var s2 := [Lit(':')] + s3;
    var s1 := [Ref(Headers, "header1")] + s2;
    var s0 := [Lit('[')] + s1;
    assert s0 == SampleSegments();
    assert s4[1..] == s5 && s3[1..] == s4 && s2[1..] == s3 && s1[1..] == s2 && s0[1..] == s1;
    assert IsIdentifier("field2") && IsIdentifier("header1");
  }

  lemma UnparseCons(seg: Segment, rest: seq<Segment>)
    ensures Unparse([seg] + rest) == Unparse([seg]) + Unparse(rest)
  {
    assert ([seg] + rest)[1..] == rest;
    assert [seg][1..] == [];
  }

  lemma UnparseSingle(seg: Segment)
    ensures Unparse([seg]) == match seg
      case Lit(c) => [c]
      case Ref(root, id) => "${" + RootName(root) + "." + id + "}"
  {
    assert [seg][1..] == [];
  }

  // Each of the sample's text equalities gets its own lemma: literal strings
  // glued together are costly for the solver when several share one proof.

  lemma ObjFieldText()
    ensures "${" + RootName(Obj) + "." + "field2" + "}" + "]" == "${obj.field2}]"
  {
    assert "${" + "obj" + "." + "field2" + "}" == "${obj.field2}";
  }

  lemma ColonText()
    ensures ":" + "${obj.field2}]" == ":${obj.field2}]"
  {
  }

  lemma HeadersFieldText()
    ensures "${" + RootName(Headers) + "." + "header1" + "}" + ":${obj.field2}]" == "${headers.header1}:${obj.field2}]"
  {
    assert "${" + "headers" + "." + "header1" + "}" == "${headers.header1}";
  }

  lemma BracketText()
    ensures "[" + "${headers.header1}:${obj.field2}]" == "[${headers.header1}:${obj.field2}]"
  {
  }

  lemma SampleUnparseTail()
    ensures Unparse([Ref(Obj, "field2"), Lit(']')]) == "${obj.field2}]"
  {
    UnparseSingle(Ref(Obj, "field2"));
    UnparseSingle(Lit(']'));
    assert [Ref(Obj, "field2")] + [Lit(']')] == [Ref(Obj, "field2"), Lit(']')];
    UnparseCons(Ref(Obj, "field2"), [Lit(']')]);
    ObjFieldText();
  }

  lemma SampleUnparseMiddle()
    ensures Unparse([Ref(Headers, "header1"), Lit(':'), Ref(Obj, "field2"), Lit(']')]) == "${headers.header1}:${obj.field2}]"
  {
    var tail := [Ref(Obj, "field2"), Lit(']')];
    var middle := [Lit(':')] + tail;
    assert Unparse(middle) == ":${obj.field2}]" by {
      SampleUnparseTail();
      UnparseSingle(Lit(':'));
      UnparseCons(Lit(':'), tail);
      ColonText();
    }
    UnparseSingle(Ref(Headers, "header1"));
    UnparseCons(Ref(Headers, "header1"), middle);
    assert [Ref(Headers, "header1")] + middle == [Ref(Headers, "header1"), Lit(':'), Ref(Obj, "field2"), Lit(']')];
    HeadersFieldText();
  }

  lemma SampleUnparse()
    ensures Unparse(SampleSegments()) == "[${headers.header1}:${obj.field2}]"
  {
    var tail := [Ref(Headers, "header1"), Lit(':'), Ref(Obj, "field2"), Lit(']')];
    SampleUnparseMiddle();
    UnparseSingle(Lit('['));
    UnparseCons(Lit('['), tail);
    assert [Lit('[')] + tail == SampleSegments();
    BracketText();
  }

  lemma SampleParses()
    ensures Parse("[${headers.header1}:${obj.field2}]") == Ok(SampleSegments())
  {
    SampleWellFormed();
    SampleUnparse();
    ParseUnparse(SampleSegments());
  }

  lemma RenderCons(seg: Segment, rest: seq<Segment>, response: Json)
    ensures Render([seg] + rest, response) ==
      match RenderSegment(seg, response)
      case Err(e) => Err(e)
      case Ok(h) =>
        match Render(rest, response)
        case Err(e) => Err(e)
        case Ok(t) => Ok(h + t)
  {
    assert ([seg] + rest)[0] == seg;
    assert ([seg] + rest)[1..] == rest;
  }

  lemma SampleLookups()
    ensures RenderSegment(Ref(Headers, "header1"), SampleResponse()) == Ok("value1")
    ensures RenderSegment(Ref(Obj, "field2"), SampleResponse()) == Ok("value2")
  {
    var headers := Object([("header1", JStr("value1"))]);
    var obj := Object([("field2", JStr("value2"))]);
    assert "headers"[0] != "obj"[0];
    GetObject2("headers", headers, "obj", obj);
    GetObject1("header1", JStr("value1"), "header1");
    GetObject1("field2", JStr("value2"), "field2");
  }

  lemma RenderConsOk(seg: Segment, rest: seq<Segment>, response: Json, h: string, t: string)
    requires RenderSegment(seg, response) == Ok(h) && Render(rest, response) == Ok(t)
    ensures Render([seg] + rest, response) == Ok(h + t)
  {
    RenderCons(seg, rest, response);
  }

  lemma SampleRendersTail(response: Json)
    requires RenderSegment(Ref(Obj, "field2"), response) == Ok("value2")
    ensures Render([Ref(Obj, "field2"), Lit(']')], response) == Ok("value2]")
  {
    var none: seq<Segment> := [];
    assert [Lit(']')] + none == [Lit(']')];
    RenderConsOk(Lit(']'), none, response, "]", "");
    assert [Ref(Obj, "field2")] + [Lit(']')] == [Ref(Obj, "field2"), Lit(']')];
    assert "]" + "" == "]" && "value2" + "]" == "value2]";
    RenderConsOk(Ref(Obj, "field2"), [Lit(']')], response, "value2", "]");
  }

  lemma SampleRendersMiddle(response: Json)
    requires RenderSegment(Ref(Headers, "header1"), response) == Ok("value1")
    requires RenderSegment(Ref(Obj, "field2"), response) == Ok("value2")
    ensures Render([Ref(Headers, "header1"), Lit(':'), Ref(Obj, "field2"), Lit(']')], response) == Ok("value1:value2]")
  {
    var tail := [Ref(Obj, "field2"), Lit(']')];
    SampleRendersTail(response);
    assert ":" + "value2]" == ":value2]";
    RenderConsOk(Lit(':'), tail, response, ":", "value2]");
    var middle := [Lit(':')] + tail;
    assert [Ref(Headers, "header1")] + middle == [Ref(Headers, "header1"), Lit(':'), Ref(Obj, "field2"), Lit(']')];
    assert "value1" + ":value2]" == "value1:value2]";
    RenderConsOk(Ref(Headers, "header1"), middle, response, "value1", ":value2]");
  }

  /** Any response whose `header1` header is `value1` and whose `field2` field is `value2`. */
  lemma SampleRenders(response: Json)
    requires RenderSegment(Ref(Headers, "header1"), response) == Ok("value1")
    requires RenderSegment(Ref(Obj, "field2"), response) == Ok("value2")
    ensures Render(SampleSegments(), response) == Ok("[value1:value2]")
  {
    var tail := [Ref(Headers, "header1"), Lit(':'), Ref(Obj, "field2"), Lit(']')];
    SampleRendersMiddle(response);
    assert [Lit('[')] + tail == SampleSegments();
    assert "[" + "value1:value2]" == "[value1:value2]";
    RenderConsOk(Lit('['), tail, response, "[", "value1:value2]");
  }

  /**
   * The placeholders read the response's headers and parsed body:
   * `[${headers.header1}:${obj.field2}]` gives `[value1:value2]`.
   */
  lemma EvalHeaderAndBody()
    ensures Eval(SampleResponse(), "[${headers.header1}:${obj.field2}]") == Ok("[value1:value2]")
  {
    SampleParses();
    SampleLookups();
    SampleRenders(SampleResponse());
  }

  /** Only `headers` and `obj` are bound: a `${body.x}` placeholder is rejected. */
  lemma BodyPlaceholderRejected(x: string, tail: string)
    ensures Parse("${body." + x + "}" + tail).Err?
  {
    var t := "${body." + x + "}" + tail;
    assert t[0] == '$' && t[1] == '{';
    match IndexOf(t[2..], '}') {
      case None =>
      case Some(close) =>
        var expr := t[2..2 + close];
        assert t[2..] == "body." + x + "}" + tail;
        if |expr| > 8 {
          assert expr[..8][0] == 'b';
        }
        if |expr| > 4 {
          assert expr[..4][0] == 'b';
        }
        assert ParseRef(expr) == None;
    }
  }
}
