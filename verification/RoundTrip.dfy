/** Slicing undoes building: whatever balanced content travels, it comes out as it went in. */
module RoundTrips {
  import opened Wrappers
  import opened Text
  import opened Envelopes

  // --------------------------------------------------------------- printing

  function OpenTag(name: string): string { "<" + name + ">" }

  function CloseTag(name: string): string { "</" + name + ">" }

  function RootTag(direction: Direction): string {
    "<" + direction.RootElement() + " xmlns=\"" + direction.Namespace() + "\">"
  }

  function TechnicalPart(technical: Option<string>): string {
    if technical.None? then "" else OpenTag(TECHNICAL_HEADER) + technical.value + CloseTag(TECHNICAL_HEADER)
  }

  /** The envelope text: header and document embedded as they are. */
  function Built(direction: Direction, wrapper: string, appHeader: string, document: string,
          technical: Option<string>): string {
    RootTag(direction)
    + (TechnicalPart(technical)
       + (OpenTag(direction.MessageElement())
          + (OpenTag(wrapper)
             + (appHeader
                + (document
                   + (CloseTag(wrapper) + (CloseTag(direction.MessageElement()) + CloseTag(direction.RootElement()))))))))
  }

  method Build(direction: Direction, wrapper: string, appHeader: string, document: string, technical: Option<string>)
    returns (out: string)
    ensures out == Built(direction, wrapper, appHeader, document, technical)
  {
    hide OpenTag, CloseTag, RootTag;
    var root, list := direction.RootElement(), direction.MessageElement();
    out := RootTag(direction);
    if technical.Some? {
      out := out + OpenTag(TECHNICAL_HEADER);
      out := out + technical.value;
      out := out + CloseTag(TECHNICAL_HEADER);
    }
    assert out == RootTag(direction) + TechnicalPart(technical);
    out := out + OpenTag(list) + OpenTag(wrapper);
    out := out + appHeader;
    out := out + document;
    out := out + CloseTag(wrapper) + CloseTag(list) + CloseTag(root);
    PushedInTurn(RootTag(direction), TechnicalPart(technical), OpenTag(list), OpenTag(wrapper), appHeader, document,
                 CloseTag(wrapper), CloseTag(list), CloseTag(root));
  }

  lemma PushedInTurn(root: string, tech: string, list: string, wrap: string, a: string, d: string, unwrap: string,
          unlist: string, unroot: string)
    ensures root + tech + list + wrap + a + d + unwrap + unlist + unroot
         == root + (tech + (list + (wrap + (a + (d + (unwrap + (unlist + unroot)))))))
  {
  }

  // ------------------------------------------------------- balanced content

  datatype Tag = Tag(text: string, name: string, xmlns: Option<string>)

  /** Well-formed element content: every start tag is closed by an end tag of the same name. */
  datatype Forest =
    | Nothing
    | Leaf(text: string, rest: Forest)
    | Element(tag: Tag, inner: Forest, close: string, rest: Forest)

  function Tokens(f: Forest): seq<Token> {
    match f
    case Nothing => []
    case Leaf(text, rest) => [Other(text)] + Tokens(rest)
    case Element(tag, inner, close, rest) => Enclosed(tag, Tokens(inner), close) + Tokens(rest)
  }

  function Enclosed(tag: Tag, inner: seq<Token>, close: string): seq<Token> {
    [Start(tag.text, tag.name, tag.xmlns)] + inner + [End(close, tag.name)]
  }

  /** A complete `AppHdr` or `Document` element. */
  datatype Part = Part(tag: Tag, inner: Forest, close: string) {
    function Events(): seq<Token> { Enclosed(tag, Tokens(inner), close) }

    function Text(): string { TextOf(Events()) }
  }

  predicate IsPart(part: Part, local: string) { LocalName(part.tag.name) == local }

  function Plain(name: string): Tag { Tag(OpenTag(name), name, None) }

  function TechnicalTokens(technical: Option<Forest>): seq<Token> {
    if technical.None? then []
    else Enclosed(Plain(TECHNICAL_HEADER), Tokens(technical.value), CloseTag(TECHNICAL_HEADER))
  }

  function TechnicalText(technical: Option<Forest>): Option<string> {
    if technical.None? then None else Some(TextOf(Tokens(technical.value)))
  }

  /** What the reader reports of a built envelope. */
  function BuiltTokens(direction: Direction, wrapper: string, appHeader: Part, document: Part,
          technical: Option<Forest>): seq<Token> {
    var messages := Enclosed(Plain(wrapper), appHeader.Events() + document.Events(), CloseTag(wrapper));
    var list := Enclosed(Plain(direction.MessageElement()), messages, CloseTag(direction.MessageElement()));
    Enclosed(Tag(RootTag(direction), direction.RootElement(), Some(direction.Namespace())), TechnicalTokens(technical) + list,
             CloseTag(direction.RootElement()))
  }

  lemma TextOfEnclosed(tag: Tag, inner: seq<Token>, close: string)
    ensures TextOf(Enclosed(tag, inner, close)) == tag.text + TextOf(inner) + close
  {
    var start, end := Start(tag.text, tag.name, tag.xmlns), End(close, tag.name);
    TextJoins([start] + inner, [end]);
    TextJoins([start], inner);
    TextOfOne(start);
    TextOfOne(end);
  }

  /** The tokens of a built envelope cover exactly the text built. */
  lemma TokensCoverText(direction: Direction, wrapper: string, appHeader: Part, document: Part,
          technical: Option<Forest>)
    ensures TextOf(BuiltTokens(direction, wrapper, appHeader, document, technical))
         == Built(direction, wrapper, appHeader.Text(), document.Text(), TechnicalText(technical))
  {
    hide TextOf, Enclosed, OpenTag, CloseTag, RootTag, Tokens;
    var parts := appHeader.Events() + document.Events();
    var messages := Enclosed(Plain(wrapper), parts, CloseTag(wrapper));
    var list := Enclosed(Plain(direction.MessageElement()), messages, CloseTag(direction.MessageElement()));
    TextJoins(appHeader.Events(), document.Events());
    TextOfEnclosed(Plain(wrapper), parts, CloseTag(wrapper));
    TextOfEnclosed(Plain(direction.MessageElement()), messages, CloseTag(direction.MessageElement()));
    TextJoins(TechnicalTokens(technical), list);
    TextOfEnclosed(Tag(RootTag(direction), direction.RootElement(), Some(direction.Namespace())),
                   TechnicalTokens(technical) + list, CloseTag(direction.RootElement()));
    TextOfTechnical(technical);
    Associate(RootTag(direction), TechnicalPart(TechnicalText(technical)), OpenTag(direction.MessageElement()), OpenTag(wrapper),
              appHeader.Text(), document.Text(), CloseTag(wrapper), CloseTag(direction.MessageElement()),
              CloseTag(direction.RootElement()));
  }

  lemma TextOfTechnical(technical: Option<Forest>)
    ensures TextOf(TechnicalTokens(technical)) == TechnicalPart(TechnicalText(technical))
  {
    if technical.Some? {
      TextOfEnclosed(Plain(TECHNICAL_HEADER), Tokens(technical.value), CloseTag(TECHNICAL_HEADER));
    }
  }

  lemma Associate(root: string, tech: string, list: string, wrap: string, a: string, d: string, unwrap: string,
          unlist: string, unroot: string)
    ensures root + (tech + (list + (wrap + (a + d) + unwrap) + unlist)) + unroot
         == root + (tech + (list + (wrap + (a + (d + (unwrap + (unlist + unroot)))))))
  {
  }

  // --------------------------------------------------------------- scanning

  lemma CollectsInTurn(s: Scan, a: string, b: string)
    ensures Collect(Collect(s, a), b) == Collect(s, a + b)
  {
    assert s.technicalText.Some? ==> s.technicalText.value + a + b == s.technicalText.value + (a + b);
    assert s.elementText.Some? ==> s.elementText.value + a + b == s.elementText.value + (a + b);
  }

  lemma CollectsNothing(s: Scan)
    ensures Collect(s, "") == s
  {
    assert s.technicalText.Some? ==> s.technicalText.value + "" == s.technicalText.value;
    assert s.elementText.Some? ==> s.elementText.value + "" == s.elementText.value;
  }

  /** Scanning an element is scanning its start tag, its content and its end tag. */
  lemma ScansEnclosed(s: Scan, tag: Tag, inner: seq<Token>, close: string)
    ensures var begun := Opened(s, Start(tag.text, tag.name, tag.xmlns));
      Scanned(s, Enclosed(tag, inner, close)) ==
        if begun.Err? then Err(begun.error)
        else if Scanned(begun.value, inner).Err? then Scanned(begun.value, inner)
        else Fed(Scanned(begun.value, inner).value, End(close, tag.name))
  {
    hide Opened, Scanned;
    var start, end := Start(tag.text, tag.name, tag.xmlns), End(close, tag.name);
    ScansInTurn(s, [start] + inner, [end]);
    ScansInTurn(s, [start], inner);
    ScansOne(s, start);
    if Scanned(s, [start] + inner).Ok? {
      ScansOne(Scanned(s, [start] + inner).value, end);
    }
  }

  /** Inside an `AppHdr`, a `Document` or anything that deep, content is only collected. */
  lemma {:induction false} DeepContent(s: Scan, f: Forest)
    requires |s.open| >= 4
    ensures Scanned(s, Tokens(f)) == Ok(Collect(s, TextOf(Tokens(f))))
    decreases f, 0
  {
    hide LocalName, WrapperName, TextOf, Scanned, Collect;
    match f
    case Nothing =>
      NothingScanned(s);
      CollectsNothing(s);
    case Leaf(text, rest) =>
      ScansInTurn(s, [Other(text)], Tokens(rest));
      ScansOne(s, Other(text));
      TextJoins([Other(text)], Tokens(rest));
      TextOfOne(Other(text));
      CollectKeeps(s, text);
      DeepContent(Collect(s, text), rest);
      CollectsInTurn(s, text, TextOf(Tokens(rest)));
    case Element(tag, inner, close, rest) =>
      var element := Enclosed(tag, Tokens(inner), close);
      DeepElement(s, tag, inner, close);
      ScansInTurn(s, element, Tokens(rest));
      TextJoins(element, Tokens(rest));
      CollectKeeps(s, TextOf(element));
      DeepContent(Collect(s, TextOf(element)), rest);
      CollectsInTurn(s, TextOf(element), TextOf(Tokens(rest)));
  }

  lemma NothingScanned(s: Scan)
    ensures Scanned(s, []) == Ok(s) && TextOf([]) == ""
  {
  }

  lemma CollectKeeps(s: Scan, text: string)
    ensures Collect(s, text).open == s.open && Collect(s, text).inTechnicalHeader == s.inTechnicalHeader
    ensures s.elementText.None? <==> Collect(s, text).elementText.None?
    ensures s.technicalText.None? <==> Collect(s, text).technicalText.None?
  {
  }

  lemma {:induction false} DeepElement(s: Scan, tag: Tag, inner: Forest, close: string)
    requires |s.open| >= 4
    ensures var element := Enclosed(tag, Tokens(inner), close);
      Scanned(s, element) == Ok(Collect(s, TextOf(element)))
    decreases inner, 1
  {
    hide LocalName, WrapperName, TextOf, Scanned;
    var begun := Collect(s, tag.text).(open := s.open + [tag.name]);
    ScansEnclosed(s, tag, Tokens(inner), close);
    assert Opened(s, Start(tag.text, tag.name, tag.xmlns)) == Ok(begun);
    DeepContent(begun, inner);
    var full := Collect(begun, TextOf(Tokens(inner)));
    assert full.open[..|full.open| - 1] == s.open;
    CollectsInTurn(s, tag.text, TextOf(Tokens(inner)));
    CollectsInTurn(s, tag.text + TextOf(Tokens(inner)), close);
    TextOfEnclosed(tag, Tokens(inner), close);
    assert Fed(full, End(close, tag.name)) == Ok(Collect(s, tag.text + TextOf(Tokens(inner)) + close));
  }

  /** Only the parts found may differ: headers and documents nested in the technical header are overwritten later. */
  ghost predicate UpToParts(s: Scan, s': Scan) {
    s' == s.(appHeader := s'.appHeader, document := s'.document)
  }

  /** Inside the technical header, whatever it nests, nothing else is remembered. */
  lemma {:induction false} TechnicalContent(s: Scan, f: Forest)
    requires 2 <= |s.open| <= 3 && s.inTechnicalHeader && s.elementText.None?
    ensures Scanned(s, Tokens(f)).Ok?
    ensures UpToParts(Collect(s, TextOf(Tokens(f))), Scanned(s, Tokens(f)).value)
    decreases f, 0
  {
    hide LocalName, WrapperName, TextOf, Scanned;
    match f
    case Nothing =>
      NothingScanned(s);
      CollectsNothing(s);
    case Leaf(text, rest) =>
      ScansInTurn(s, [Other(text)], Tokens(rest));
      ScansOne(s, Other(text));
      TextJoins([Other(text)], Tokens(rest));
      TextOfOne(Other(text));
      TechnicalContent(Collect(s, text), rest);
      CollectsInTurn(s, text, TextOf(Tokens(rest)));
    case Element(tag, inner, close, rest) =>
      var element := Enclosed(tag, Tokens(inner), close);
      TechnicalElement(s, tag, inner, close);
      var s1 := Scanned(s, element).value;
      ScansInTurn(s, element, Tokens(rest));
      TextJoins(element, Tokens(rest));
      TechnicalContent(s1, rest);
      CollectsInTurn(s, TextOf(element), TextOf(Tokens(rest)));
      CollectsUpToParts(Collect(s, TextOf(element)), s1, TextOf(Tokens(rest)));
  }

  lemma CollectsUpToParts(s: Scan, s': Scan, text: string)
    requires UpToParts(s, s')
    ensures UpToParts(Collect(s, text), Collect(s', text))
  {
  }

  lemma {:induction false} TechnicalElement(s: Scan, tag: Tag, inner: Forest, close: string)
    requires 2 <= |s.open| <= 3 && s.inTechnicalHeader && s.elementText.None?
    ensures var element := Enclosed(tag, Tokens(inner), close);
      Scanned(s, element).Ok? && UpToParts(Collect(s, TextOf(element)), Scanned(s, element).value)
    decreases inner, 1
  {
    hide LocalName, WrapperName, TextOf, Scanned;
    var body := TextOf(Tokens(inner));
    ScansEnclosed(s, tag, Tokens(inner), close);
    CollectsInTurn(s, tag.text, body);
    CollectsInTurn(s, tag.text + body, close);
    TextOfEnclosed(tag, Tokens(inner), close);
    var begun := Opened(s, Start(tag.text, tag.name, tag.xmlns)).value;
    if |s.open| == 2 {
      TechnicalContent(begun, inner);
    } else {
      DeepContent(begun, inner);
    }
    var full := Scanned(begun, Tokens(inner)).value;
    assert full.open == s.open + [tag.name] && full.open[..|s.open|] == s.open;
    assert full.technicalText == Longer(s.technicalText, tag.text + body);
  }

  /** The technical header comes out as the text between its tags. */
  lemma HeaderScanned(s: Scan, f: Forest)
    requires |s.open| == 1 && s.elementText.None? && s.technicalText.None? && !s.inTechnicalHeader
    ensures var r := Scanned(s, TechnicalTokens(Some(f)));
      r.Ok? && UpToParts(s.(technicalHeader := Some(TextOf(Tokens(f)))), r.value)
  {
    hide TextOf, Scanned, LocalName, Tokens;
    var tag := Plain(TECHNICAL_HEADER);
    ScansEnclosed(s, tag, Tokens(f), CloseTag(TECHNICAL_HEADER));
    UnprefixedName(TECHNICAL_HEADER);
    var begun := Opened(s, Start(tag.text, tag.name, tag.xmlns)).value;
    TechnicalContent(begun, f);
    var full := Scanned(begun, Tokens(f)).value;
    assert "" + TextOf(Tokens(f)) == TextOf(Tokens(f));
    assert full.open == s.open + [TECHNICAL_HEADER] && full.open[..1] == s.open;
  }

  lemma UnprefixedName(name: string)
    requires ':' !in name
    ensures LocalName(name) == name
  {
    assert forall i | 0 <= i < |name| :: name[i] in name;
  }

  /** An `AppHdr` or `Document` under the wrapper comes out whole, tags included. */
  lemma PartScanned(s: Scan, part: Part)
    requires |s.open| == 3 && s.elementText.None? && s.technicalText.None?
    requires IsPart(part, APP_HEADER) || IsPart(part, DOCUMENT)
    ensures Scanned(s, part.Events()) ==
      Ok(if IsPart(part, APP_HEADER) then s.(appHeader := Some(part.Text())) else s.(document := Some(part.Text())))
  {
    hide TextOf, Scanned, LocalName, WrapperName;
    var tag, body := part.tag, TextOf(Tokens(part.inner));
    ScansEnclosed(s, tag, Tokens(part.inner), part.close);
    var begun := Opened(s, Start(tag.text, tag.name, tag.xmlns)).value;
    DeepContent(begun, part.inner);
    TextOfEnclosed(tag, Tokens(part.inner), part.close);
    var full := Scanned(begun, Tokens(part.inner)).value;
    assert full.open == s.open + [tag.name] && full.open[..3] == s.open;
    assert full.elementText == Some(tag.text + body);
  }

  /** The message list under the root, with its one wrapper. */
  lemma ListScanned(s: Scan, list: string, wrapper: string, appHeader: Part, document: Part)
    requires |s.open| == 1 && s.elementText.None? && s.technicalText.None? && s.wrapper.None?
    requires ':' !in list && list != TECHNICAL_HEADER && PlainName(wrapper)
    requires IsPart(appHeader, APP_HEADER) && IsPart(document, DOCUMENT)
    ensures var parts := appHeader.Events() + document.Events();
      var messages := Enclosed(Plain(wrapper), parts, CloseTag(wrapper));
      Scanned(s, Enclosed(Plain(list), messages, CloseTag(list))) ==
        Ok(s.(inTechnicalHeader := false, wrapper := Some(wrapper), appHeader := Some(appHeader.Text()),
              document := Some(document.Text())))
  {
    hide TextOf, Scanned, LocalName, WrapperName, Tokens, PlainName;
    var parts := appHeader.Events() + document.Events();
    var messages := Enclosed(Plain(wrapper), parts, CloseTag(wrapper));
    UnprefixedName(list);
    PlainWrapperName(wrapper);
    ScansEnclosed(s, Plain(list), messages, CloseTag(list));
    var s2 := s.(open := s.open + [list], inTechnicalHeader := false);
    ScansEnclosed(s2, Plain(wrapper), parts, CloseTag(wrapper));
    var s3 := s2.(open := s2.open + [wrapper], wrapper := Some(wrapper));
    ScansInTurn(s3, appHeader.Events(), document.Events());
    PartScanned(s3, appHeader);
    PartScanned(s3.(appHeader := Some(appHeader.Text())), document);
    assert s3.open[..|s3.open| - 1] == s2.open && s2.open[..|s2.open| - 1] == s.open;
  }

  lemma NamesAreDistinct()
    ensures APP_HEADER != DOCUMENT
    ensures forall d: Direction :: d.MessageElement() != TECHNICAL_HEADER && DirectionOf(d.RootElement()) == Some(d)
    ensures forall d: Direction :: ':' !in d.MessageElement() && ':' !in d.RootElement() && ':' !in TECHNICAL_HEADER
  {
    assert forall d: Direction :: |d.MessageElement()| == |TECHNICAL_HEADER| ==> d.MessageElement()[6] != TECHNICAL_HEADER[6];
    assert "FedNowIncoming"[6] != "FedNowOutgoing"[6];
  }

  lemma NamespaceDeclared(direction: Direction)
    ensures Contains(RootTag(direction), direction.Namespace())
  {
    var before := "<" + direction.RootElement() + " xmlns=\"";
    var tag := RootTag(direction);
    assert tag == before + direction.Namespace() + "\">";
    assert OccursAt(tag, direction.Namespace(), |before|);
  }

  /**
   * Slicing a built envelope gives back its direction, namespace and wrapper and the exact text of every
   * part, even when the technical header nests elements called `AppHdr` or `Document`.
   */
  lemma SplitUndoesBuild(direction: Direction, wrapper: string, appHeader: Part, document: Part,
          technical: Option<Forest>)
    requires PlainName(wrapper) && IsPart(appHeader, APP_HEADER) && IsPart(document, DOCUMENT)
    ensures var tokens := BuiltTokens(direction, wrapper, appHeader, document, technical);
      && TextOf(tokens) == Built(direction, wrapper, appHeader.Text(), document.Text(), TechnicalText(technical))
      && Sliced(tokens) == Ok(RawEnvelope(direction, Some(direction.Namespace()), wrapper, TechnicalText(technical),
                                          appHeader.Text(), document.Text()))
  {
    hide TextOf, Scanned, LocalName, WrapperName, Tokens, PlainName, Contains, DirectionOf;
    TokensCoverText(direction, wrapper, appHeader, document, technical);
    NamesAreDistinct();
    NamespaceDeclared(direction);
    var root := Tag(RootTag(direction), direction.RootElement(), Some(direction.Namespace()));
    var messages := Enclosed(Plain(wrapper), appHeader.Events() + document.Events(), CloseTag(wrapper));
    var list := Enclosed(Plain(direction.MessageElement()), messages, CloseTag(direction.MessageElement()));
    UnprefixedName(direction.RootElement());
    ScansEnclosed(FRESH, root, TechnicalTokens(technical) + list, CloseTag(direction.RootElement()));
    var s1 := FRESH.(open := [direction.RootElement()], direction := Some(direction),
                     rootNamespace := Some(direction.Namespace()));
    ScansInTurn(s1, TechnicalTokens(technical), list);
    if technical.Some? {
      HeaderScanned(s1, technical.value);
    } else {
      NothingScanned(s1);
    }
    assert FRESH.open + [root.name] == [root.name] && DirectionOf(root.name) == Some(direction);
    assert Opened(FRESH, Start(root.text, root.name, root.xmlns)) == Ok(s1);
    var s2 := Scanned(s1, TechnicalTokens(technical)).value;
    assert UpToParts(s1.(technicalHeader := TechnicalText(technical)), s2);
    ListScanned(s2, direction.MessageElement(), wrapper, appHeader, document);
    var s3 := Scanned(s2, list).value;
    assert Scanned(s1, TechnicalTokens(technical) + list) == Ok(s3);
    assert Scanned(FRESH, BuiltTokens(direction, wrapper, appHeader, document, technical)) == Ok(s3.(open := []));
  }

  // ------------------------------------------------------------- namespaces

  /** A start tag that declares the namespace, in so many words. */
  predicate Declares(tok: Token, ns: string) {
    tok.Start? && tok.xmlns == Some(ns) && exists i :: 0 <= i <= |tok.text| - |ns| && ReadsAt(tok.text, ns, i)
  }

  predicate ReadsAt(s: string, part: string, i: int) {
    0 <= i && i + |part| <= |s| && forall j | 0 <= j < |part| :: s[i + j] == part[j]
  }

  lemma ContainsReads(s: string, part: string)
    ensures Contains(s, part) <==> exists i :: 0 <= i <= |s| - |part| && ReadsAt(s, part, i)
  {
    if Contains(s, part) {
      var i :| 0 <= i <= |s| - |part| && OccursAt(s, part, i);
      var found := s[i..i + |part|];
      assert forall j | 0 <= j < |part| :: found[j] == s[i + j];
      assert ReadsAt(s, part, i);
    }
    if i :| 0 <= i <= |s| - |part| && ReadsAt(s, part, i) {
      assert s[i..i + |part|] == part;
      assert OccursAt(s, part, i);
    }
  }

  lemma {:induction false} NamespaceWasRead(tokens: seq<Token>)
    requires Scanned(FRESH, tokens).Ok? && Scanned(FRESH, tokens).value.rootNamespace.Some?
    ensures exists tok | tok in tokens :: Declares(tok, Scanned(FRESH, tokens).value.rootNamespace.value)
    decreases |tokens|
  {
    hide Contains, LocalName, WrapperName, DirectionOf;
    if tokens != [] {
      var front, last := tokens[..|tokens| - 1], tokens[|tokens| - 1];
      var before, after := Scanned(FRESH, front).value, Scanned(FRESH, tokens).value;
      if after.rootNamespace == before.rootNamespace {
        NamespaceWasRead(front);
        var tok :| tok in front && Declares(tok, before.rootNamespace.value);
        assert tok in tokens;
      } else {
        ContainsReads(last.text, after.rootNamespace.value);
        assert Declares(last, after.rootNamespace.value) && last in tokens;
      }
    }
  }

  /** A namespace that slicing reports stands in a start tag of the text, word for word. */
  lemma NamespaceIsQuoted(tokens: seq<Token>)
    requires Sliced(tokens).Ok? && Sliced(tokens).value.rootNamespace.Some?
    ensures exists tok | tok in tokens :: Declares(tok, Sliced(tokens).value.rootNamespace.value)
  {
    NamespaceWasRead(tokens);
    hide Scanned;
  }

  // --------------------------------------------------------------- prefixes

  /** The same event, its element under a namespace prefix. */
  function Prefixed(prefix: string, tok: Token): Token {
    match tok
    case Start(text, name, xmlns) => Start(text, prefix + ":" + name, xmlns)
    case End(text, name) => End(text, prefix + ":" + name)
    case _ => tok
  }

  predicate Unprefixed(tok: Token) { tok.Start? || tok.End? ==> ':' !in tok.name }

  function AllPrefixed(prefix: string, tokens: seq<Token>): seq<Token>
    decreases |tokens|
  {
    if tokens == [] then [] else AllPrefixed(prefix, tokens[..|tokens| - 1]) + [Prefixed(prefix, tokens[|tokens| - 1])]
  }

  function NamesPrefixed(prefix: string, names: seq<string>): (r: seq<string>)
    ensures |r| == |names| && forall i | 0 <= i < |names| :: r[i] == prefix + ":" + names[i]
  {
    seq(|names|, i requires 0 <= i < |names| => prefix + ":" + names[i])
  }

  lemma PrefixIsNotLocal(prefix: string, name: string)
    requires ':' !in prefix && ':' !in name
    ensures LocalName(prefix + ":" + name) == name == LocalName(name)
  {
    var s := prefix + ":" + name;
    var i := IndexOf(s, ':');
    assert s[|prefix|] == ':';
    assert forall j | 0 <= j < |prefix| :: s[j] == prefix[j] && prefix[j] in prefix;
    assert i == |prefix|;
    assert s[i + 1..] == name;
    UnprefixedName(name);
  }

  lemma FedPrefixed(prefix: string, s: Scan, tok: Token)
    requires ':' !in prefix && Unprefixed(tok) && forall name | name in s.open :: ':' !in name
    ensures var s' := s.(open := NamesPrefixed(prefix, s.open));
      Fed(s', Prefixed(prefix, tok)) ==
        match Fed(s, tok)
        case Ok(r) => Ok(r.(open := NamesPrefixed(prefix, r.open)))
        case Err(e) => Err(e)
    ensures Fed(s, tok).Ok? ==> forall name | name in Fed(s, tok).value.open :: ':' !in name
  {
    hide LocalName, WrapperName, Contains, DirectionOf;
    var s' := s.(open := NamesPrefixed(prefix, s.open));
    match tok
    case Start(text, name, xmlns) =>
      PrefixIsNotLocal(prefix, name);
      assert NamesPrefixed(prefix, s.open + [name]) == s'.open + [prefix + ":" + name];
    case End(text, name) =>
      PrefixIsNotLocal(prefix, name);
      if s.open != [] {
        SamePrefix(prefix, s.open[|s.open| - 1], name);
        assert NamesPrefixed(prefix, s.open[..|s.open| - 1]) == s'.open[..|s.open| - 1];
      }
    case _ =>
  }

  lemma SamePrefix(prefix: string, a: string, b: string)
    ensures prefix + ":" + a == prefix + ":" + b <==> a == b
  {
    assert (prefix + ":" + a)[|prefix| + 1..] == a && (prefix + ":" + b)[|prefix| + 1..] == b;
  }

  lemma {:induction false} ScannedPrefixed(prefix: string, tokens: seq<Token>)
    requires ':' !in prefix && forall tok | tok in tokens :: Unprefixed(tok)
    ensures Scanned(FRESH, AllPrefixed(prefix, tokens)) ==
      match Scanned(FRESH, tokens)
      case Ok(r) => Ok(r.(open := NamesPrefixed(prefix, r.open)))
      case Err(e) => Err(e)
    ensures Scanned(FRESH, tokens).Ok? ==> forall name | name in Scanned(FRESH, tokens).value.open :: ':' !in name
    decreases |tokens|
  {
    hide Fed, Unprefixed;
    if tokens == [] {
      assert NamesPrefixed(prefix, []) == [];
    } else {
      var front, last := tokens[..|tokens| - 1], tokens[|tokens| - 1];
      ScannedPrefixed(prefix, front);
      var all := AllPrefixed(prefix, tokens);
      assert all[..|all| - 1] == AllPrefixed(prefix, front);
      if Scanned(FRESH, front).Ok? {
        FedPrefixed(prefix, Scanned(FRESH, front).value, last);
      }
    }
  }

  /** Slicing goes by local names: put every element under a prefix, and the same parts come out. */
  lemma PrefixesDoNotMatter(prefix: string, tokens: seq<Token>)
    requires ':' !in prefix && forall tok | tok in tokens :: Unprefixed(tok)
    ensures Sliced(AllPrefixed(prefix, tokens)) == Sliced(tokens)
  {
    ScannedPrefixed(prefix, tokens);
    hide Scanned;
  }

  /** A prefix on the wrapper is what gets lost. */
  lemma WrapperPrefixIsDropped(prefix: string, name: string)
    requires prefix != "" && (forall c | c in prefix :: !EndsName(c) && c != '<') && PlainName(name)
    ensures WrapperName(OpenTag(prefix + ":" + name)) == name
  {
    var full := prefix + ":" + name;
    var tag := OpenTag(full);
    assert tag[1..] == full + ">" && full[0] == prefix[0] && prefix[0] in prefix;
    assert TrimOpening(tag[1..]) == tag[1..];
    NameEndsAt(full, ">");
    LastColonCuts(prefix, name);
  }

  lemma {:induction false} LastColonCuts(prefix: string, name: string)
    requires ':' !in name
    ensures AfterLastColon(prefix + ":" + name) == name
    decreases |prefix|
  {
    var full := prefix + ":" + name;
    var i := IndexOf(full, ':');
    assert full[|prefix|] == ':';
    if i == |prefix| {
      assert full[i + 1..] == name;
    } else {
      assert full[i + 1..] == prefix[i + 1..] + ":" + name;
      LastColonCuts(prefix[i + 1..], name);
    }
  }

  /** A wrapper name survives slicing exactly when it carries no prefix. */
  lemma WrapperKeptExactly(name: string)
    requires name != "" && forall c | c in name :: !EndsName(c) && c != '<'
    ensures WrapperName(OpenTag(name)) == name <==> ':' !in name
  {
    if ':' !in name {
      PlainWrapperName(name);
    } else {
      var tag := OpenTag(name);
      assert tag[1..] == name + ">" && name[0] in name;
      assert TrimOpening(tag[1..]) == tag[1..];
      NameEndsAt(name, ">");
      AfterColonIsShorter(name);
    }
  }

  lemma {:induction false} AfterColonIsShorter(s: string)
    requires ':' in s
    ensures |AfterLastColon(s)| < |s|
    decreases |s|
  {
    var rest := s[IndexOf(s, ':') + 1..];
    if ':' in rest {
      AfterColonIsShorter(rest);
    }
  }

  // --------------------------------------------------------------- dispatch

  /** The namespace declared on the first start tag, which decides how a document is parsed. */
  function Sniffed(tokens: seq<Token>): Option<string> {
    if tokens == [] || tokens[0].Broken? || tokens[0].End? then None
    else if tokens[0].Other? then Sniffed(tokens[1..])
    else if tokens[0].xmlns.Some? && Contains(tokens[0].text, tokens[0].xmlns.value) then tokens[0].xmlns
    else None
  }

  /** What is sniffed is what the first start tag declares, word for word, after nothing but text. */
  lemma {:induction false} SniffedIsDeclared(tokens: seq<Token>, ns: string)
    ensures Sniffed(tokens) == Some(ns) <==>
      exists k :: 0 <= k < |tokens| && Declares(tokens[k], ns) && forall j | 0 <= j < k :: tokens[j].Other?
  {
    if tokens != [] {
      if tokens[0].Other? {
        SniffedIsDeclared(tokens[1..], ns);
        if k :| 0 <= k < |tokens[1..]| && Declares(tokens[1..][k], ns) && forall j | 0 <= j < k :: tokens[1..][j].Other? {
          assert Declares(tokens[k + 1], ns) && forall j | 0 <= j < k + 1 :: j > 0 ==> tokens[j] == tokens[1..][j - 1];
        }
        if k :| 0 <= k < |tokens| && Declares(tokens[k], ns) && forall j | 0 <= j < k :: tokens[j].Other? {
          assert tokens[1..][k - 1] == tokens[k];
        }
      } else if tokens[0].Start? && tokens[0].xmlns.Some? {
        ContainsReads(tokens[0].text, tokens[0].xmlns.value);
      }
    }
  }

  method SniffDefaultNamespace(tokens: seq<Token>) returns (ns: Option<string>)
    ensures ns == Sniffed(tokens)
  {
    var i := 0;
    while i < |tokens| && tokens[i].Other?
      invariant i <= |tokens|
      invariant Sniffed(tokens[i..]) == Sniffed(tokens)
    {
      i := i + 1;
    }
    if i < |tokens| && tokens[i].Start? && tokens[i].xmlns.Some? && Contains(tokens[i].text, tokens[i].xmlns.value) {
      return tokens[i].xmlns;
    }
    return None;
  }

  /** A document built under the wrapper of its namespace is dispatched to the message type that wrapper names. */
  lemma DispatchAgrees(document: Part, wrapper: string, ns: string)
    requires document.tag.xmlns == Some(ns) && Contains(document.tag.text, ns)
    requires WrapperForNamespace(ns) == Some(wrapper)
    ensures Sniffed(document.Events()) == NamespaceForWrapper(wrapper)
  {
    WrapperLookupsAreInverse(wrapper, ns);
    assert document.Events()[0] == Start(document.tag.text, document.tag.name, document.tag.xmlns);
  }
}
