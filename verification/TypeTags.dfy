/**
 Type tags of generic messages.

 The derive macro turns a type's name and generics into a format string with one hole for each type
 parameter; at run time the holes are filled with the arguments' own tags.  Messages are routed by tag, so
 different types must have different tags.
 */
module TypeTags {

  datatype Param = Lifetime | Type | Const

  datatype Expansion = Template(text: string, holes: nat) | Unimplemented

  // ---------------------------------------------------------------- the format string

  function TypeParams(params: seq<Param>): nat {
    multiset(params)[Type]
  }

  /** "{}", then ",{}" again and again. */
  function Holes(k: nat): string {
    if k == 0 then "" else if k == 1 then "{}" else Holes(k - 1) + ",{}"
  }

  function TemplateText(name: string, k: nat): string {
    if k == 0 then name else name + "<" + Holes(k) + ">"
  }

  /** `format!` on a string whose only braces are holes. */
  function Format(text: string, args: seq<string>): string {
    if text == "" then ""
    else if "{}" <= text && args != [] then args[0] + Format(text[2..], args[1..])
    else [text[0]] + Format(text[1..], args)
  }

  function Join(args: seq<string>): string {
    if args == [] then "" else if |args| == 1 then args[0] else args[0] + "," + Join(args[1..])
  }

  predicate Braceless(s: string) {
    '{' !in s && '}' !in s
  }

  lemma {:induction false} FormatPlain(s: string, text: string, args: seq<string>)
    requires Braceless(s)
    ensures Format(s + text, args) == s + Format(text, args)
  {
    if s == "" {
      assert s + text == text;
    } else {
      assert (s + text)[0] == s[0] && (s + text)[1..] == s[1..] + text;
      FormatPlain(s[1..], text, args);
      assert s == [s[0]] + s[1..];
    }
  }

  /** The holes seen from the front. */
  lemma {:induction false} HolesFront(k: nat)
    requires k >= 2
    ensures Holes(k) == "{}" + "," + Holes(k - 1)
  {
    if k > 2 {
      HolesFront(k - 1);
      assert Holes(k) == ("{}" + "," + Holes(k - 2)) + ",{}" == "{}" + "," + (Holes(k - 2) + ",{}");
    }
  }

  lemma {:induction false} FormatHoles(args: seq<string>)
    requires args != []
    ensures Format(Holes(|args|) + ">", args) == Join(args) + ">"
  {
    var k := |args|;
    if k == 1 {
      assert ("{}" + ">")[2..] == ">";
      assert Format(">", args[1..]) == [">"[0]] + Format(">"[1..], args[1..]) == ">";
    } else {
      HolesFront(k);
      var text := Holes(k) + ">";
      assert text[2..] == "," + (Holes(k - 1) + ">") && "{}" <= text;
      FormatPlain(",", Holes(k - 1) + ">", args[1..]);
      FormatHoles(args[1..]);
      assert args[0] + ("," + (Join(args[1..]) + ">")) == (args[0] + "," + Join(args[1..])) + ">";
    }
  }

  lemma Assoc(a: string, b: string, c: string)
    ensures a + b + c == a + (b + c)
  {
  }

  /** Filling the template gives the name with its arguments in angle brackets. */
  lemma TemplateFills(name: string, args: seq<string>)
    requires Braceless(name)
    ensures args == [] ==> Format(TemplateText(name, |args|), args) == name
    ensures args != [] ==> Format(TemplateText(name, |args|), args) == name + "<" + Join(args) + ">"
  {
    if args == [] {
      FormatPlain(name, "", args);
      assert name + "" == name;
    } else {
      var front := name + "<";
      var holes := Holes(|args|);
      Assoc(front, holes, ">");
      FormatPlain(front, holes + ">", args);
      FormatHoles(args);
      Assoc(front, Join(args), ">");
    }
  }

  // ---------------------------------------------------------------- type expressions

  datatype TypeExpr = TypeExpr(name: string, args: Args)
  datatype Args = None | More(head: TypeExpr, tail: Args)

  function Tags(args: Args): seq<string> {
    match args
    case None => []
    case More(head, tail) => [Tag(head)] + Tags(tail)
  }

  /** The tag of a type: its template filled with the tags of its arguments. */
  function Tag(e: TypeExpr): string {
    Format(TemplateText(e.name, |Tags(e.args)|), Tags(e.args))
  }

  /** The tags of the arguments, separated by commas. */
  function ArgTags(args: Args): string
    requires args.More?
  {
    if args.tail.None? then Tag(args.head) else Tag(args.head) + "," + ArgTags(args.tail)
  }

  lemma {:induction false} JoinTags(args: Args)
    requires args.More?
    ensures Join(Tags(args)) == ArgTags(args)
  {
    var tags := Tags(args);
    assert tags == [Tag(args.head)] + Tags(args.tail);
    if args.tail.More? {
      JoinTags(args.tail);
      assert tags[1..] == Tags(args.tail);
    }
  }

  lemma TagIs(e: TypeExpr)
    requires Braceless(e.name)
    ensures e.args.None? ==> Tag(e) == e.name
    ensures e.args.More? ==> Tag(e) == e.name + "<" + ArgTags(e.args) + ">"
  {
    TemplateFills(e.name, Tags(e.args));
    if e.args.More? {
      JoinTags(e.args);
    }
  }

  // ---------------------------------------------------------------- the code of the macro

  method TypeTagPart(name: string, params: seq<Param>) returns (x: Expansion)
    ensures x == if Const in params then Unimplemented
              else Template(TemplateText(name, TypeParams(params)), TypeParams(params))
    ensures x.Template? ==> x.holes == multiset(params)[Type]
    ensures x.Template? && Braceless(name) ==> forall e: TypeExpr |
              e.name == name && |Tags(e.args)| == multiset(params)[Type] :: Format(x.text, Tags(e.args)) == Tag(e)
  {
    var text := name;
    var holes := 0;
    var needClose := false;
    var i := 0;
    while i < |params|
      invariant 0 <= i <= |params| && Const !in params[..i]
      invariant holes == TypeParams(params[..i]) && needClose == (holes > 0)
      invariant text == if needClose then name + "<" + Holes(holes) else name
    {
      assert params[..i + 1] == params[..i] + [params[i]];
      assert params[..i + 1][..i] == params[..i];
      match params[i] {
        case Lifetime =>
        case Type =>
          if !needClose {
            text := text + "<";
            needClose := true;
          } else {
            text := text + ",";
          }
          text := text + "{}";
          holes := holes + 1;
        case Const => return Unimplemented;
      }
      i := i + 1;
    }
    assert params[..i] == params;
    if needClose {
      text := text + ">";
    }
    return Template(text, holes);
  }

  predicate Special(c: char) {
    c == '<' || c == '>' || c == ','
  }

  predicate PlainName(s: string) {
    Braceless(s) && forall i :: 0 <= i < |s| ==> !Special(s[i])
  }

  predicate Plain(e: TypeExpr) {
    PlainName(e.name) && PlainArgs(e.args)
  }

  predicate PlainArgs(args: Args) {
    match args
    case None => true
    case More(head, tail) => Plain(head) && PlainArgs(tail)
  }

  // ---------------------------------------------------------------- reading a tag back

  datatype Parsed<T> = Fail | Ok(value: T, rest: string)

  /** The longest prefix without angle brackets and commas. */
  function NameLength(s: string): (n: nat)
    ensures n <= |s|
  {
    if s == "" || Special(s[0]) then 0 else 1 + NameLength(s[1..])
  }

  function Parse(s: string): (p: Parsed<TypeExpr>)
    ensures p.Ok? ==> |p.rest| <= |s|
    decreases |s|, 0
  {
    var n := NameLength(s);
    var rest := s[n..];
    if rest != "" && rest[0] == '<' then
      match ParseArgs(rest[1..])
      case Ok(args, r) => Ok(TypeExpr(s[..n], args), r)
      case Fail => Fail
    else Ok(TypeExpr(s[..n], None), rest)
  }

  function ParseArgs(s: string): (p: Parsed<Args>)
    ensures p.Ok? ==> |p.rest| <= |s|
    decreases |s|, 1
  {
    match Parse(s)
    case Fail => Fail
    case Ok(head, r) =>
      if r != "" && r[0] == ',' then
        match ParseArgs(r[1..])
        case Ok(tail, r') => Ok(More(head, tail), r')
        case Fail => Fail
      else if r != "" && r[0] == '>' then Ok(More(head, None), r[1..])
      else Fail
  }

  /** What may follow a type expression. */
  predicate Delimited(rest: string) {
    rest == "" || rest[0] == ',' || rest[0] == '>'
  }

  lemma {:induction false} NameEnds(name: string, rest: string)
    requires PlainName(name) && (rest == "" || Special(rest[0]))
    ensures NameLength(name + rest) == |name|
  {
    if name == "" {
      assert name + rest == rest;
    } else {
      assert (name + rest)[0] == name[0] && (name + rest)[1..] == name[1..] + rest;
      NameEnds(name[1..], rest);
    }
  }

  lemma ParsePlain(name: string, rest: string)
    requires PlainName(name) && Delimited(rest)
    ensures Parse(name + rest) == Ok(TypeExpr(name, None), rest)
  {
    NameEnds(name, rest);
    assert (name + rest)[..|name|] == name && (name + rest)[|name|..] == rest;
  }

  lemma ParseGeneric(name: string, args: Args, inner: string, rest: string)
    requires PlainName(name) && ParseArgs(inner) == Ok(args, rest)
    ensures Parse(name + "<" + inner) == Ok(TypeExpr(name, args), rest)
  {
    var tail := "<" + inner;
    Assoc(name, "<", inner);
    NameEnds(name, tail);
    assert (name + tail)[..|name|] == name && (name + tail)[|name|..] == tail && tail[1..] == inner;
  }

  lemma ParseLast(inner: string, head: TypeExpr, rest: string)
    requires Parse(inner) == Ok(head, ">" + rest)
    ensures ParseArgs(inner) == Ok(More(head, None), rest)
  {
    assert (">" + rest)[1..] == rest;
  }

  lemma ParseNext(inner: string, head: TypeExpr, more: string, tail: Args, rest: string)
    requires Parse(inner) == Ok(head, "," + more) && ParseArgs(more) == Ok(tail, rest)
    ensures ParseArgs(inner) == Ok(More(head, tail), rest)
  {
    assert ("," + more)[1..] == more;
  }

  lemma Regroup(a: string, b: string, c: string, d: string)
    ensures a + b + c + d == a + (b + (c + d))
  {
  }

  lemma ParseWhole(name: string, args: Args, list: string, tag: string, rest: string)
    requires PlainName(name) && tag == name + "<" + list + ">" && ParseArgs(list + ">" + rest) == Ok(args, rest)
    ensures Parse(tag + rest) == Ok(TypeExpr(name, args), rest)
  {
    var inner := list + ">" + rest;
    ParseGeneric(name, args, inner, rest);
    Regroup(name + "<", list, ">", rest);
    Assoc(list, ">", rest);
  }

  /** The parser undoes the printer. */
  lemma {:induction false} ParseTag(e: TypeExpr, rest: string)
    requires Plain(e) && Delimited(rest)
    ensures Parse(Tag(e) + rest) == Ok(e, rest)
    decreases e
  {
    TagIs(e);
    if e.args.None? {
      ParsePlain(e.name, rest);
    } else {
      ParseArgTags(e.args, ArgTags(e.args), rest);
      ParseWhole(e.name, e.args, ArgTags(e.args), Tag(e), rest);
    }
  }

  lemma {:induction false} ParseArgTags(args: Args, list: string, rest: string)
    requires args.More? && PlainArgs(args) && list == ArgTags(args)
    ensures ParseArgs(list + ">" + rest) == Ok(args, rest)
    decreases args
  {
    var head, tail := args.head, args.tail;
    var first := Tag(head);
    if tail.None? {
      ParseTag(head, ">" + rest);
      Assoc(first, ">", rest);
      ParseLast(first + (">" + rest), head, rest);
    } else {
      var others := ArgTags(tail);
      var more := others + ">" + rest;
      ParseArgTags(tail, others, rest);
      ParseTag(head, "," + more);
      ParseNext(first + ("," + more), head, more, tail, rest);
      Split(first, others, rest);
    }
  }

  lemma Split(first: string, others: string, rest: string)
    ensures first + "," + others + ">" + rest == first + ("," + (others + ">" + rest))
  {
  }

  /** Different types have different tags. */
  lemma TagsUnambiguous(e: TypeExpr, f: TypeExpr)
    requires Plain(e) && Plain(f) && Tag(e) == Tag(f)
    ensures e == f
  {
    ParseTag(e, "");
    ParseTag(f, "");
    assert Tag(e) + "" == Tag(e) && Tag(f) + "" == Tag(f);
  }

  // ---------------------------------------------------------------- names chosen by hand

  /** Names without braces, but perhaps with brackets and commas. */
  predicate Formattable(e: TypeExpr) {
    Braceless(e.name) && FormattableArgs(e.args)
  }

  predicate FormattableArgs(args: Args) {
    match args
    case None => true
    case More(head, tail) => Formattable(head) && FormattableArgs(tail)
  }

  lemma {:induction false} TagBraceless(e: TypeExpr)
    requires Formattable(e)
    ensures Braceless(Tag(e))
    decreases e
  {
    TagIs(e);
    if e.args.More? {
      ArgTagsBraceless(e.args);
    }
  }

  lemma {:induction false} ArgTagsBraceless(args: Args)
    requires args.More? && FormattableArgs(args)
    ensures Braceless(ArgTags(args))
    decreases args
  {
    TagBraceless(args.head);
    if args.tail.More? {
      ArgTagsBraceless(args.tail);
    }
  }

  /** The tag looks like that of a generic type, with the bracket opening at i. */
  predicate OpensAt(tag: string, i: nat) {
    i + 1 < |tag| && tag[i] == '<' && tag[|tag| - 1] == '>'
  }

  ghost predicate LooksGeneric(tag: string) {
    exists i: nat :: OpensAt(tag, i)
  }

  lemma GenericLooks(e: TypeExpr)
    requires Formattable(e) && e.args.More?
    ensures LooksGeneric(Tag(e))
  {
    TagIs(e);
    assert OpensAt(Tag(e), |e.name|);
  }

  /** A name as it stands, and the same text read as a generic type, have the same tag. */
  lemma TwoReadings(tag: string, i: nat)
    requires Braceless(tag) && OpensAt(tag, i)
    ensures var plain := TypeExpr(tag, None);
            var generic := TypeExpr(tag[..i], More(TypeExpr(tag[i + 1..|tag| - 1], None), None));
            && Formattable(plain) && Formattable(generic) && Tag(plain) == Tag(generic) == tag
  {
    var outer, inner := tag[..i], tag[i + 1..|tag| - 1];
    Brackets(tag, i, outer, inner);
    TagIs(TypeExpr(tag, None));
    GenericTag(outer, inner);
  }

  lemma Brackets(tag: string, i: nat, outer: string, inner: string)
    requires OpensAt(tag, i) && outer == tag[..i] && inner == tag[i + 1..|tag| - 1]
    ensures tag == outer + "<" + inner + ">"
    ensures Braceless(tag) ==> Braceless(outer) && Braceless(inner)
  {
  }

  lemma GenericTag(outer: string, inner: string)
    requires Braceless(outer) && Braceless(inner)
    ensures Tag(TypeExpr(outer, More(TypeExpr(inner, None), None))) == outer + "<" + inner + ">"
  {
    var arg := TypeExpr(inner, None);
    TagIs(arg);
    TagIs(TypeExpr(outer, More(arg, None)));
  }

  /** Another type expression with the same tag. */
  ghost predicate Shared(e: TypeExpr) {
    exists f: TypeExpr :: f != e && Formattable(f) && Tag(f) == Tag(e)
  }

  /**
   Once names may contain brackets, as tags and namespaces chosen by hand may, a type shares its tag with another
   one exactly if the tag looks generic: it ends in '>' and has a '<' before that.
   */
  lemma SharedExactly(e: TypeExpr)
    requires Formattable(e)
    ensures Shared(e) <==> LooksGeneric(Tag(e))
  {
    var tag := Tag(e);
    TagBraceless(e);
    if LooksGeneric(tag) {
      var i: nat :| OpensAt(tag, i);
      TwoReadings(tag, i);
      var plain, generic := TypeExpr(tag, None), TypeExpr(tag[..i], More(TypeExpr(tag[i + 1..|tag| - 1], None), None));
      assert (if e == plain then generic else plain) != e;
    } else if f: TypeExpr :| f != e && Formattable(f) && Tag(f) == tag {
      if e.args.More? {
        GenericLooks(e);
      } else if f.args.More? {
        GenericLooks(f);
      } else {
        TagIs(e);
        TagIs(f);
      }
    }
  }
}
