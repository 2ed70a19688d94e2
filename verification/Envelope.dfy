/** The technical envelope around a business message: its printer, and the slicer that undoes it. */
module Envelopes {
  import opened Wrappers
  import opened Text

  datatype Direction = Incoming | Outgoing {
    function RootElement(): string { if Incoming? then "FedNowIncoming" else "FedNowOutgoing" }

    function MessageElement(): string { if Incoming? then "FedNowIncomingMessage" else "FedNowOutgoingMessage" }

    function Namespace(): string { if Incoming? then "urn:fednow:incoming:v001" else "urn:fednow:outgoing:v001" }
  }

  const TECHNICAL_HEADER := "FedNowTechnicalHeader"
  const APP_HEADER := "AppHdr"
  const DOCUMENT := "Document"

  // -------------------------------------------------------------- wrappers

  const ISO := "urn:iso:std:iso:20022:tech:xsd:"

  /** Wrapper element and enclosed `Document` namespace. */
  const WRAPPERS: seq<(string, string)> := [
    ("FedNowCustomerCreditTransfer", ISO + "pacs.008.001.08"),
    ("FedNowPaymentStatus", ISO + "pacs.002.001.10"),
    ("FedNowPaymentStatusRequest", ISO + "pacs.028.001.03"),
    ("FedNowPaymentReturn", ISO + "pacs.004.001.10"),
    ("FedNowReturnRequest", ISO + "camt.056.001.08"),
    ("FedNowReturnRequestResponse", ISO + "camt.029.001.09")]

  function FindByNamespace(table: seq<(string, string)>, ns: string): Option<string> {
    if table == [] then None else if table[0].1 == ns then Some(table[0].0) else FindByNamespace(table[1..], ns)
  }

  function FindByWrapper(table: seq<(string, string)>, wrapper: string): Option<string> {
    if table == [] then None else if table[0].0 == wrapper then Some(table[0].1) else FindByWrapper(table[1..], wrapper)
  }

  function WrapperForNamespace(ns: string): Option<string> { FindByNamespace(WRAPPERS, ns) }

  function NamespaceForWrapper(wrapper: string): Option<string> { FindByWrapper(WRAPPERS, wrapper) }

  /** Searching a table without repeats finds a pair from either side. */
  lemma {:induction false} LookupsAgree(table: seq<(string, string)>, wrapper: string, ns: string)
    requires forall i, j | 0 <= i < j < |table| :: table[i].0 != table[j].0 && table[i].1 != table[j].1
    ensures FindByNamespace(table, ns) == Some(wrapper) <==> (wrapper, ns) in table
    ensures FindByWrapper(table, wrapper) == Some(ns) <==> (wrapper, ns) in table
  {
    if table != [] {
      LookupsAgree(table[1..], wrapper, ns);
      assert (wrapper, ns) in table <==> table[0] == (wrapper, ns) || (wrapper, ns) in table[1..];
      assert forall pair | pair in table[1..] :: pair.0 != table[0].0 && pair.1 != table[0].1;
    }
  }

  lemma TableHasNoRepeats()
    ensures forall i, j | 0 <= i < j < |WRAPPERS| :: WRAPPERS[i].0 != WRAPPERS[j].0 && WRAPPERS[i].1 != WRAPPERS[j].1
  {
    assert forall i | 0 <= i < |WRAPPERS| :: WRAPPERS[i].1[..|ISO|] == ISO;
    assert WRAPPERS[0].1[|ISO| + 5..|ISO| + 8] == "008" && WRAPPERS[1].1[|ISO| + 5..|ISO| + 8] == "002";
    assert WRAPPERS[2].1[|ISO| + 5..|ISO| + 8] == "028" && WRAPPERS[3].1[|ISO| + 5..|ISO| + 8] == "004";
    assert WRAPPERS[4].1[|ISO| + 5..|ISO| + 8] == "056" && WRAPPERS[5].1[|ISO| + 5..|ISO| + 8] == "029";
    assert |WRAPPERS[0].0| == 28 && |WRAPPERS[1].0| == 19 && |WRAPPERS[2].0| == 26;
    assert |WRAPPERS[3].0| == 19 && |WRAPPERS[4].0| == 19 && |WRAPPERS[5].0| == 27;
    assert WRAPPERS[1].0[13] == 'S' && WRAPPERS[3].0[13] == 'R' && WRAPPERS[4].0[6] == 'R' && WRAPPERS[1].0[6] == 'P';
    assert WRAPPERS[3].0[6] == 'P';
  }

  /** The two lookups are inverse to each other. */
  lemma WrapperLookupsAreInverse(wrapper: string, ns: string)
    ensures WrapperForNamespace(ns) == Some(wrapper) <==> NamespaceForWrapper(wrapper) == Some(ns)
  {
    TableHasNoRepeats();
    LookupsAgree(WRAPPERS, wrapper, ns);
  }

  /** Each wrapper names the message it wraps. */
  lemma WrappersNameTheirMessages()
    ensures NamespaceForWrapper("FedNowCustomerCreditTransfer") == Some(ISO + "pacs.008.001.08")
    ensures NamespaceForWrapper("FedNowPaymentStatus") == Some(ISO + "pacs.002.001.10")
    ensures NamespaceForWrapper("FedNowPaymentStatusRequest") == Some(ISO + "pacs.028.001.03")
    ensures NamespaceForWrapper("FedNowPaymentReturn") == Some(ISO + "pacs.004.001.10")
    ensures NamespaceForWrapper("FedNowReturnRequest") == Some(ISO + "camt.056.001.08")
    ensures NamespaceForWrapper("FedNowReturnRequestResponse") == Some(ISO + "camt.029.001.09")
  {
    hide FindByWrapper, FindByNamespace;
    Listed(0, "FedNowCustomerCreditTransfer", ISO + "pacs.008.001.08");
    Listed(1, "FedNowPaymentStatus", ISO + "pacs.002.001.10");
    Listed(2, "FedNowPaymentStatusRequest", ISO + "pacs.028.001.03");
    Listed(3, "FedNowPaymentReturn", ISO + "pacs.004.001.10");
    Listed(4, "FedNowReturnRequest", ISO + "camt.056.001.08");
    Listed(5, "FedNowReturnRequestResponse", ISO + "camt.029.001.09");
  }

  lemma Listed(i: nat, wrapper: string, ns: string)
    requires i < |WRAPPERS| && WRAPPERS[i] == (wrapper, ns)
    ensures NamespaceForWrapper(wrapper) == Some(ns) && WrapperForNamespace(ns) == Some(wrapper)
  {
    TableHasNoRepeats();
    LookupsAgree(WRAPPERS, wrapper, ns);
  }

  // ---------------------------------------------------------------- tokens

  /** What the XML reader reports, with the text each event covers. */
  datatype Token =
    | Start(text: string, name: string, xmlns: Option<string>)
    | End(text: string, name: string)
    | Other(text: string) // character data, comments, empty elements, declarations
    | Broken(text: string)

  /** The text the tokens were read from. */
  function TextOf(tokens: seq<Token>): string
    decreases |tokens|
  {
    if tokens == [] then "" else TextOf(tokens[..|tokens| - 1]) + tokens[|tokens| - 1].text
  }

  lemma {:induction false} TextJoins(a: seq<Token>, b: seq<Token>)
    ensures TextOf(a + b) == TextOf(a) + TextOf(b)
    decreases |b|
  {
    if b == [] {
      assert a + b == a;
    } else {
      var front := b[..|b| - 1];
      assert (a + b)[..|a + b| - 1] == a + front;
      TextJoins(a, front);
      assert TextOf(a) + (TextOf(front) + b[|b| - 1].text) == TextOf(a) + TextOf(front) + b[|b| - 1].text;
    }
  }

  lemma TextOfOne(tok: Token)
    ensures TextOf([tok]) == tok.text
  {
    assert [tok][..0] == [];
    assert "" + tok.text == tok.text;
  }

  /** An element name without its prefix. */
  function LocalName(name: string): string {
    var i := IndexOf(name, ':');
    if i == |name| then name else name[i + 1..]
  }

  predicate EndsName(c: char) { c == ' ' || c == '\t' || c == '\n' || c == '\r' || c == '>' || c == '/' }

  function TrimOpening(tag: string): string {
    if tag != "" && tag[0] == '<' then TrimOpening(tag[1..]) else tag
  }

  function UntilNameEnds(s: string): string {
    if s == "" || EndsName(s[0]) then "" else [s[0]] + UntilNameEnds(s[1..])
  }

  function AfterLastColon(s: string): string
    decreases |s|
  {
    if ':' !in s then s else AfterLastColon(s[IndexOf(s, ':') + 1..])
  }

  /** The wrapper's name, read off its start tag. */
  function WrapperName(tag: string): string { AfterLastColon(UntilNameEnds(TrimOpening(tag))) }

  predicate PlainName(name: string) {
    name != "" && forall c | c in name :: !EndsName(c) && c != '<' && c != ':'
  }

  lemma {:induction false} NameEndsAt(name: string, rest: string)
    requires forall c | c in name :: !EndsName(c)
    requires rest != "" && EndsName(rest[0])
    ensures UntilNameEnds(name + rest) == name
  {
    if name == "" {
      assert name + rest == rest;
    } else {
      assert (name + rest)[1..] == name[1..] + rest;
      NameEndsAt(name[1..], rest);
      assert name == [name[0]] + name[1..];
    }
  }

  lemma PlainWrapperName(name: string)
    requires PlainName(name)
    ensures WrapperName("<" + name + ">") == name
  {
    var tag := "<" + name + ">";
    assert tag[1..] == name + ">";
    assert name[0] in name;
    assert TrimOpening(tag[1..]) == tag[1..];
    NameEndsAt(name, ">");
  }

  /** The wrapper's name ends where a blank, a line end, a `>` or a `/` follows. */
  lemma WrapperNameEnds(name: string, rest: string)
    requires name != "" && forall c | c in name :: c !in {' ', '\t', '\n', '\r', '>', '/', '<', ':'}
    requires rest != "" && rest[0] in {' ', '\t', '\n', '\r', '>', '/'}
    ensures WrapperName("<" + name + rest) == name
  {
    var tag := "<" + name + rest;
    assert tag[1..] == name + rest;
    assert name[0] in name;
    assert TrimOpening(tag[1..]) == tag[1..];
    NameEndsAt(name, rest);
  }

  predicate Contains(s: string, part: string) {
    exists i | 0 <= i <= |s| - |part| :: OccursAt(s, part, i)
  }

  predicate OccursAt(s: string, part: string, i: nat)
    requires i + |part| <= |s|
  {
    s[i..i + |part|] == part
  }

  // --------------------------------------------------------------- slicing

  datatype RawEnvelope = RawEnvelope(direction: Direction, rootNamespace: Option<string>, wrapper: string,
                                     technicalHeader: Option<string>, appHeader: string, document: string)

  datatype EnvelopeError = UnknownRoot(name: string) | Malformed | EmptyDocument | NoWrapper | NoAppHeader | NoDocument

  /**
   * Everything known about a prefix of the text: the open elements, the parts found so far, and the text
   * collected since the technical header's start tag and from the `AppHdr` or `Document` start tag on.
   */
  datatype Scan = Scan(open: seq<string>, direction: Option<Direction>, rootNamespace: Option<string>,
                       wrapper: Option<string>, technicalHeader: Option<string>, appHeader: Option<string>,
                       document: Option<string>, inTechnicalHeader: bool, technicalText: Option<string>,
                       elementText: Option<string>)

  const FRESH := Scan([], None, None, None, None, None, None, false, None, None)

  function Longer(collected: Option<string>, text: string): Option<string> {
    if collected.Some? then Some(collected.value + text) else None
  }

  function Collect(s: Scan, text: string): Scan {
    s.(technicalText := Longer(s.technicalText, text), elementText := Longer(s.elementText, text))
  }

  function DirectionOf(local: string): Option<Direction> {
    if local == "FedNowIncoming" then Some(Incoming)
    else if local == "FedNowOutgoing" then Some(Outgoing)
    else None
  }

  /** A start tag, by the depth it opens. */
  function Opened(s: Scan, tok: Token): Result<Scan, EnvelopeError>
    requires tok.Start?
  {
    var local, s1 := LocalName(tok.name), Collect(s, tok.text).(open := s.open + [tok.name]);
    match |s.open| + 1
    case 1 =>
      if DirectionOf(local).None? then Err(UnknownRoot(local))
      else
        var declared := tok.xmlns.Some? && Contains(tok.text, tok.xmlns.value);
        Ok(s1.(direction := DirectionOf(local),
               rootNamespace := if declared then tok.xmlns else s.rootNamespace))
    case 2 =>
      Ok(if local == TECHNICAL_HEADER then s1.(inTechnicalHeader := true, technicalText := Some(""))
         else s1.(inTechnicalHeader := false))
    case 3 =>
      Ok(if s.wrapper.None? && !s.inTechnicalHeader then s1.(wrapper := Some(WrapperName(tok.text))) else s1)
    case 4 =>
      Ok(if local == APP_HEADER || local == DOCUMENT then s1.(elementText := Some(tok.text)) else s1)
    case _ => Ok(s1)
  }

  /** An end tag, by the depth it closes. */
  function Closed(s: Scan, tok: Token): Scan
    requires tok.End? && s.open != []
  {
    var local, s1 := LocalName(tok.name), Collect(s, tok.text).(open := s.open[..|s.open| - 1]);
    match |s.open|
    case 2 =>
      if local == TECHNICAL_HEADER && s.technicalText.Some? then
        s1.(inTechnicalHeader := false, technicalHeader := s.technicalText, technicalText := None)
      else s1.(inTechnicalHeader := false)
    case 4 =>
      if s.elementText.None? then s1
      else
        var part := Some(s.elementText.value + tok.text);
        if local == APP_HEADER then s1.(elementText := None, appHeader := part)
        else if local == DOCUMENT then s1.(elementText := None, document := part)
        else s1.(elementText := None)
    case _ => s1
  }

  /** One event of the reader, which itself refuses end tags that close nothing. */
  function Fed(s: Scan, tok: Token): Result<Scan, EnvelopeError> {
    match tok
    case Start(_, _, _) => Opened(s, tok)
    case End(_, name) => if s.open == [] || s.open[|s.open| - 1] != name then Err(Malformed) else Ok(Closed(s, tok))
    case Other(text) => Ok(Collect(s, text))
    case Broken(_) => Err(Malformed)
  }

  function Scanned(s: Scan, tokens: seq<Token>): Result<Scan, EnvelopeError>
    decreases |tokens|
  {
    if tokens == [] then Ok(s)
    else
      var before :- Scanned(s, tokens[..|tokens| - 1]);
      Fed(before, tokens[|tokens| - 1])
  }

  function Finished(s: Scan): Result<RawEnvelope, EnvelopeError> {
    if s.direction.None? then Err(EmptyDocument)
    else if s.wrapper.None? then Err(NoWrapper)
    else if s.appHeader.None? then Err(NoAppHeader)
    else if s.document.None? then Err(NoDocument)
    else Ok(RawEnvelope(s.direction.value, s.rootNamespace, s.wrapper.value, s.technicalHeader, s.appHeader.value,
                        s.document.value))
  }

  /** What slicing an envelope means. */
  function Sliced(tokens: seq<Token>): Result<RawEnvelope, EnvelopeError> {
    var s :- Scanned(FRESH, tokens);
    Finished(s)
  }

  lemma {:induction false} ScansInTurn(s: Scan, a: seq<Token>, b: seq<Token>)
    ensures Scanned(s, a + b) == if Scanned(s, a).Ok? then Scanned(Scanned(s, a).value, b) else Scanned(s, a)
    decreases |b|
  {
    if b == [] {
      assert a + b == a;
    } else {
      assert (a + b)[..|a + b| - 1] == a + b[..|b| - 1];
      ScansInTurn(s, a, b[..|b| - 1]);
    }
  }

  lemma ScansOne(s: Scan, tok: Token)
    ensures Scanned(s, [tok]) == Fed(s, tok)
  {
    assert [tok][..0] == [];
  }

  /** What the offsets into the text say about the collected text. */
  ghost predicate Marks(xml: string, start: Option<nat>, pos: nat, collected: Option<string>) {
    && (start.Some? <==> collected.Some?)
    && (start.Some? ==> start.value <= pos <= |xml| && xml[start.value..pos] == collected.value)
  }

  lemma MarksAdvance(xml: string, start: Option<nat>, pos: nat, collected: Option<string>, text: string)
    requires Marks(xml, start, pos, collected)
    requires pos + |text| <= |xml| && xml[pos..pos + |text|] == text
    ensures Marks(xml, start, pos + |text|, Longer(collected, text))
  {
    if start.Some? {
      assert xml[start.value..pos + |text|] == xml[start.value..pos] + xml[pos..pos + |text|];
    }
  }

  lemma MarksRead(xml: string, start: Option<nat>, pos: nat, collected: Option<string>)
    requires Marks(xml, start, pos, collected)
    ensures start.Some? <==> collected.Some?
    ensures start.Some? ==> start.value <= pos <= |xml| && xml[start.value..pos] == collected.value
  {
  }

  lemma MarksStart(xml: string, start: nat, pos: nat)
    requires start <= pos <= |xml|
    ensures Marks(xml, Some(start), pos, Some(xml[start..pos])) && Marks(xml, None, pos, None)
    ensures xml[pos..pos] == ""
  {
  }

  lemma ScansNext(s: Scan, tokens: seq<Token>, i: nat)
    requires i < |tokens| && Scanned(s, tokens[..i]).Ok?
    ensures Scanned(s, tokens[..i + 1]) == Fed(Scanned(s, tokens[..i]).value, tokens[i])
  {
    assert tokens[..i + 1][..i] == tokens[..i];
  }

  lemma RefusalStops(s: Scan, tokens: seq<Token>, i: nat)
    requires i <= |tokens| && Scanned(s, tokens[..i]).Err?
    ensures Scanned(s, tokens) == Err(Scanned(s, tokens[..i]).error)
  {
    assert tokens == tokens[..i] + tokens[i..];
    ScansInTurn(s, tokens[..i], tokens[i..]);
  }

  /** The text of the next token is where the reader stands. */
  lemma NextText(xml: string, tokens: seq<Token>, i: nat)
    requires xml == TextOf(tokens) && i < |tokens|
    ensures var pos := |TextOf(tokens[..i])|;
      && TextOf(tokens[..i + 1]) == TextOf(tokens[..i]) + tokens[i].text
      && pos + |tokens[i].text| <= |xml| && xml[pos..pos + |tokens[i].text|] == tokens[i].text
  {
    assert tokens[..i + 1][..i] == tokens[..i];
    assert tokens == tokens[..i + 1] + tokens[i + 1..];
    TextJoins(tokens[..i + 1], tokens[i + 1..]);
    assert xml == TextOf(tokens[..i]) + tokens[i].text + TextOf(tokens[i + 1..]);
  }

  lemma ScanBegins(xml: string, tokens: seq<Token>)
    ensures Scanned(FRESH, tokens[..0]) == Ok(FRESH) && TextOf(tokens[..0]) == "" && Marks(xml, None, 0, None)
  {
  }

  /**
   * Slice an envelope into its raw parts: one pass over the reader's events with a depth and two offsets,
   * every part cut out of the text as it stands there.
   */
  method Split(xml: string, tokens: seq<Token>) returns (r: Result<RawEnvelope, EnvelopeError>)
    requires xml == TextOf(tokens)
    ensures r == Sliced(tokens)
  {
    hide TextOf, LocalName, WrapperName, Contains, DirectionOf, Scanned, Marks;
    var direction: Option<Direction>, rootNamespace: Option<string> := None, None;
    var wrapper: Option<string>, technicalHeader: Option<string> := None, None;
    var appHeader: Option<string>, document: Option<string> := None, None;
    var open: seq<string>, depth, pos, inTechnicalHeader := [], 0, 0, false;
    var technicalStart: Option<nat>, elementStart: Option<nat> := None, None;
    ghost var s := FRESH;
    ScanBegins(xml, tokens);
    for i := 0 to |tokens|
      invariant Scanned(FRESH, tokens[..i]) == Ok(s)
      invariant pos == |TextOf(tokens[..i])| && depth == |open|
      invariant s == Scan(open, direction, rootNamespace, wrapper, technicalHeader, appHeader, document, inTechnicalHeader,
                          s.technicalText, s.elementText)
      invariant Marks(xml, technicalStart, pos, s.technicalText)
      invariant Marks(xml, elementStart, pos, s.elementText)
    {
      var tok, before := tokens[i], pos;
      ghost var s0 := s;
      ScansNext(FRESH, tokens, i);
      NextText(xml, tokens, i);
      MarksRead(xml, technicalStart, pos, s.technicalText);
      MarksAdvance(xml, technicalStart, pos, s.technicalText, tok.text);
      MarksAdvance(xml, elementStart, pos, s.elementText, tok.text);
      pos := pos + |tok.text|;
      MarksRead(xml, elementStart, pos, Longer(s.elementText, tok.text));
      MarksStart(xml, before, pos);
      MarksStart(xml, pos, pos);
      if tok.Broken? || (tok.End? && (depth == 0 || open[depth - 1] != tok.name)) {
        RefusalStops(FRESH, tokens, i + 1);
        return Err(Malformed);
      }
      s := if Fed(s0, tok).Ok? then Fed(s0, tok).value else s0;
      if tok.Start? {
        depth, open := depth + 1, open + [tok.name];
        var local := LocalName(tok.name);
        if depth == 1 {
          direction := DirectionOf(local);
          if direction.None? {
            RefusalStops(FRESH, tokens, i + 1);
            return Err(UnknownRoot(local));
          }
          if tok.xmlns.Some? && Contains(tok.text, tok.xmlns.value) {
            rootNamespace := tok.xmlns;
          }
        } else if depth == 2 {
          inTechnicalHeader := local == TECHNICAL_HEADER;
          if inTechnicalHeader {
            technicalStart := Some(pos);
          }
        } else if depth == 3 {
          if wrapper.None? && !inTechnicalHeader {
            wrapper := Some(WrapperName(xml[before..pos]));
          }
        } else if depth == 4 && (local == APP_HEADER || local == DOCUMENT) {
          elementStart := Some(before);
        }
      } else if tok.End? {
        var local := LocalName(tok.name);
        if depth == 2 {
          if local == TECHNICAL_HEADER && technicalStart.Some? {
            technicalHeader, technicalStart := Some(xml[technicalStart.value..before]), None;
          }
          inTechnicalHeader := false;
        } else if depth == 4 && elementStart.Some? {
          var part := Some(xml[elementStart.value..pos]);
          elementStart := None;
          if local == APP_HEADER {
            appHeader := part;
          } else if local == DOCUMENT {
            document := part;
          }
        }
        depth, open := depth - 1, open[..depth - 1];
      }
    }
    assert tokens[..|tokens|] == tokens;
    if direction.None? {
      return Err(EmptyDocument);
    }
    if wrapper.None? {
      return Err(NoWrapper);
    }
    if appHeader.None? {
      return Err(NoAppHeader);
    }
    if document.None? {
      return Err(NoDocument);
    }
    return Ok(RawEnvelope(direction.value, rootNamespace, wrapper.value, technicalHeader, appHeader.value, document.value));
  }
}
