/** Rewriting and checking plain Canvas documents (src/infrastructure/canvas_contracts.py). */
module Canvas {
  import opened Common
  import opened Json

  datatype Error = ShapeChanged | Unsupported

  /** The validators return nothing, or the exception they raise. */
  type Check = Option<Error>

  /** Artifact variants other than a document, by field number. */
  const OTHER_VARIANTS: seq<nat> := [15, 16, 18, 19, 20, 21, 22, 23, 24, 25, 26, 27, 28, 29, 31, 32, 33, 34]

  predicate Present(v: Value) {
    v != Null && v != Arr([])
  }

  predicate AnyPresent(items: seq<Value>, start: nat) {
    exists i :: start <= i < |items| && Present(items[i])
  }

  /** Whitespace that Python's str.strip() removes. */
  predicate IsSpace(c: char) {
    || '\U{0009}' <= c <= '\U{000D}' || '\U{001C}' <= c <= '\U{0020}' || c == '\U{0085}' || c == '\U{00A0}'
    || c == '\U{1680}' || '\U{2000}' <= c <= '\U{200A}' || c == '\U{2028}' || c == '\U{2029}' || c == '\U{202F}'
    || c == '\U{205F}' || c == '\U{3000}'
  }

  predicate IsBlank(s: string) {
    forall i :: 0 <= i < |s| ==> IsSpace(s[i])
  }

  // ---------------------------------------------------------------- validators

  function CheckAnnotations(annotations: seq<Value>): Check {
    if annotations == [] then None
    else
      var a := annotations[0];
      if !a.Arr? || |a.items| < 3 || !a.items[2].Arr? then Some(ShapeChanged)
      else if AnyPresent(a.items[2].items, 3) then Some(Unsupported)
      else CheckAnnotations(annotations[1..])
  }

  function CheckParagraph(p: seq<Value>): Check {
    if |p| < 3 || !p[2].Str? then Some(ShapeChanged)
    else if p[1] != Null && !p[1].Int? then Some(ShapeChanged)
    else
      var annotations := if |p| > 3 then p[3] else Null;
      if annotations != Null && !annotations.Arr? then Some(ShapeChanged)
      else
        var bad := if annotations.Arr? then CheckAnnotations(annotations.items) else None;
        if bad.Some? then bad
        else if Present(p[0]) || AnyPresent(p, 4) then Some(Unsupported)
        else None
  }

  function CheckNode(node: Value): Check {
    if !node.Arr? || |node.items| < 2 || !node.items[1].Arr? then Some(Unsupported)
    else if Present(node.items[0]) || AnyPresent(node.items, 2) then Some(Unsupported)
    else CheckParagraph(node.items[1].items)
  }

  function CheckNodes(nodes: seq<Value>): Check {
    if nodes == [] then None
    else if CheckNode(nodes[0]).Some? then CheckNode(nodes[0])
    else CheckNodes(nodes[1..])
  }

  function CheckStructured(structured: Value): Check {
    if !structured.Arr? || structured.items == [] || !structured.items[0].Arr? then Some(ShapeChanged)
    else if AnyPresent(structured.items, 1) then Some(Unsupported)
    else CheckNodes(structured.items[0].items)
  }

  predicate OtherVariant(raw: seq<Value>) {
    exists k :: 0 <= k < |OTHER_VARIANTS| && |raw| >= OTHER_VARIANTS[k] && Present(raw[OTHER_VARIANTS[k] - 1])
  }

  function CheckDocument(raw: Value): Check {
    if !raw.Arr? || |raw.items| < 14 || !raw.items[0].Str? || IsBlank(raw.items[0].s) then Some(ShapeChanged)
    else
      var r := raw.items;
      if r[10] != Int(1) then Some(Unsupported)
      else if OtherVariant(r) then Some(Unsupported)
      else if !r[13].Arr? || |r[13].items| < 3 || !r[4].Str? || !r[13].items[0].Str? then Some(ShapeChanged)
      else
        var d := r[13].items;
        if Present(r[5]) || Present(r[11]) || Present(d[1]) || (|d| > 3 && Present(d[3])) then Some(Unsupported)
        else if CheckStructured(r[8]).Some? then CheckStructured(r[8])
        else CheckStructured(d[2])
  }

  /** The editor accepts this document. */
  predicate Accepted(raw: Value) {
    CheckDocument(raw).None?
  }

  // ---------------------------------------------------------------- what a plain document is

  /** Nothing, or an empty list, in slot `i` if there is one. */
  predicate Empty(items: seq<Value>, i: nat) {
    i < |items| ==> items[i] == Null || items[i] == Arr([])
  }

  /** An inline annotation that only formats: nothing beyond its first three fields. */
  ghost predicate Formats(a: Value) {
    && a.Arr? && |a.items| >= 3 && a.items[2].Arr?
    && forall i :: i >= 3 ==> Empty(a.items[2].items, i)
  }

  /** A text paragraph without sources: a text, an optional level, and annotations that only format. */
  ghost predicate PlainParagraph(p: seq<Value>) {
    && |p| >= 3 && p[2].Str? && (p[1] == Null || p[1].Int?)
    && Empty(p, 0) && (forall i :: i >= 4 ==> Empty(p, i))
    && (|p| > 3 ==> p[3] == Null || (p[3].Arr? && forall k :: 0 <= k < |p[3].items| ==> Formats(p[3].items[k])))
  }

  /** A node that is a text paragraph and nothing else. */
  ghost predicate PlainNode(node: Value) {
    && node.Arr? && |node.items| >= 2 && node.items[1].Arr? && PlainParagraph(node.items[1].items)
    && forall i :: i >= 0 && i != 1 ==> Empty(node.items, i)
  }

  /** A node collection without metadata. */
  ghost predicate PlainNodes(structured: Value) {
    && structured.Arr? && |structured.items| >= 1 && structured.items[0].Arr?
    && (forall i :: i >= 1 ==> Empty(structured.items, i))
    && forall k :: 0 <= k < |structured.items[0].items| ==> PlainNode(structured.items[0].items[k])
  }

  /** A titled Canvas document of kind 1, of no other variant, without attachments or citations. */
  ghost predicate PlainDocument(raw: Value) {
    && raw.Arr? && |raw.items| >= 14
    && raw.items[0].Str? && (exists i :: 0 <= i < |raw.items[0].s| && !IsSpace(raw.items[0].s[i]))
    && raw.items[10] == Int(1) && raw.items[4].Str?
    && Empty(raw.items, 5) && Empty(raw.items, 11)
    && (forall i: nat :: 14 <= i <= 33 && i != 16 && i != 29 ==> Empty(raw.items, i))
    && raw.items[13].Arr? && |raw.items[13].items| >= 3 && raw.items[13].items[0].Str?
    && Empty(raw.items[13].items, 1) && Empty(raw.items[13].items, 3)
    && PlainNodes(raw.items[8]) && PlainNodes(raw.items[13].items[2])
  }

  lemma {:induction false} AnnotationsExactly(annotations: seq<Value>)
    ensures CheckAnnotations(annotations).None? <==> forall k :: 0 <= k < |annotations| ==> Formats(annotations[k])
  {
    if annotations != [] {
      AnnotationsExactly(annotations[1..]);
      var a := annotations[0];
      if a.Arr? && |a.items| >= 3 && a.items[2].Arr? { NothingBeyond(a.items[2].items, 3); }
      assert forall k :: 0 <= k < |annotations| - 1 ==> annotations[1..][k] == annotations[k + 1];
      assert forall k :: 1 <= k < |annotations| ==> annotations[k] == annotations[1..][k - 1];
    }
  }

  lemma NothingBeyond(items: seq<Value>, start: nat)
    ensures !AnyPresent(items, start) <==> forall i :: i >= start ==> Empty(items, i)
  {
    if !AnyPresent(items, start) {
      forall i | i >= start ensures Empty(items, i) { if i < |items| { assert !Present(items[i]); } }
    }
    if forall i :: i >= start ==> Empty(items, i) {
      forall i | start <= i < |items| ensures !Present(items[i]) { assert Empty(items, i); }
    }
  }

  lemma ParagraphExactly(p: seq<Value>)
    ensures CheckParagraph(p).None? <==> PlainParagraph(p)
  {
    NothingBeyond(p, 4);
    if |p| > 3 && p[3].Arr? { AnnotationsExactly(p[3].items); }
  }

  lemma NodeExactly(node: Value)
    ensures CheckNode(node).None? <==> PlainNode(node)
  {
    if node.Arr? && |node.items| >= 2 && node.items[1].Arr? {
      NothingBeyond(node.items, 2);
      ParagraphExactly(node.items[1].items);
      assert Empty(node.items, 0) <==> !Present(node.items[0]);
    }
  }

  lemma {:induction false} NodesExactly(nodes: seq<Value>)
    ensures CheckNodes(nodes).None? <==> forall k :: 0 <= k < |nodes| ==> PlainNode(nodes[k])
  {
    if nodes != [] {
      NodesExactly(nodes[1..]);
      NodeExactly(nodes[0]);
      assert forall k :: 0 <= k < |nodes| - 1 ==> nodes[1..][k] == nodes[k + 1];
      assert forall k :: 1 <= k < |nodes| ==> nodes[k] == nodes[1..][k - 1];
    }
  }

  lemma StructuredExactly(structured: Value)
    ensures CheckStructured(structured).None? <==> PlainNodes(structured)
  {
    if structured.Arr? && structured.items != [] && structured.items[0].Arr? {
      NothingBeyond(structured.items, 1);
      NodesExactly(structured.items[0].items);
    }
  }

  lemma VariantsExactly(raw: seq<Value>)
    ensures !OtherVariant(raw) <==> forall i: nat :: 14 <= i <= 33 && i != 16 && i != 29 ==> Empty(raw, i)
  {
    if !OtherVariant(raw) {
      forall i: nat | 14 <= i <= 33 && i != 16 && i != 29 ensures Empty(raw, i) {
        var k := if i <= 15 then i - 14 else if i <= 28 then i - 15 else i - 16;
        assert OTHER_VARIANTS[k] == i + 1;
      }
    } else {
      var k :| 0 <= k < |OTHER_VARIANTS| && |raw| >= OTHER_VARIANTS[k] && Present(raw[OTHER_VARIANTS[k] - 1]);
      assert !Empty(raw, OTHER_VARIANTS[k] - 1);
    }
  }

  /** The editor accepts exactly the plain documents. */
  lemma AcceptedExactly(raw: Value)
    ensures Accepted(raw) <==> PlainDocument(raw)
  {
    if raw.Arr? && |raw.items| >= 14 {
      VariantsExactly(raw.items);
      StructuredExactly(raw.items[8]);
      assert Empty(raw.items, 5) <==> !Present(raw.items[5]);
      assert Empty(raw.items, 11) <==> !Present(raw.items[11]);
      if raw.items[13].Arr? && |raw.items[13].items| >= 3 {
        var d := raw.items[13].items;
        StructuredExactly(d[2]);
        assert Empty(d, 1) <==> !Present(d[1]);
        assert Empty(d, 3) <==> !(|d| > 3 && Present(d[3]));
      }
    }
  }

  // ---------------------------------------------------------------- rewrite

  function OneParagraph(text: string): Value {
    Arr([Arr([Arr([Null, Arr([Null, Int(0), Str(text)])])])])
  }

  function Rewritten(raw: Value, text: string): Value
    requires Accepted(raw)
  {
    var d := raw.items[13].items[0 := Str(text)][2 := OneParagraph(text)];
    Arr(raw.items[4 := Str(text)][8 := OneParagraph(text)][13 := Arr(d)])
  }

  function Replaced(raw: Value, text: string): Result<Value, Error> {
    match CheckDocument(raw)
    case Some(error) => Err(error)
    case None => Ok(Rewritten(raw, text))
  }

  method ReplacePlainDocument(raw: Value, text: string) returns (result: Result<Value, Error>)
    ensures result == Replaced(raw, text)
  {
    var bad := CheckDocument(raw);
    if bad.Some? {
      return Err(bad.value);
    }
    var updated := raw.items;
    var structured := Arr([Arr([Arr([Null, Arr([Null, Int(0), Str(text)])])])]);
    updated := updated[4 := Str(text)];
    updated := updated[8 := structured];
    var document := updated[13].items;
    document := document[0 := Str(text)];
    document := document[2 := structured];
    updated := updated[13 := Arr(document)];
    return Ok(Arr(updated));
  }

  // ---------------------------------------------------------------- check

  predicate IsEdge(c: char) { c == ' ' || c == '\n' }

  function TrimFront(s: string): string {
    if s != "" && IsEdge(s[0]) then TrimFront(s[1..]) else s
  }

  function TrimBack(s: string): string {
    if s != "" && IsEdge(s[|s| - 1]) then TrimBack(s[..|s| - 1]) else s
  }

  function Trim(s: string): string { TrimBack(TrimFront(s)) }

  function Paragraph(node: Value): seq<Value>
    requires CheckNode(node).None?
  {
    node.items[1].items
  }

  /** The text a node stands for, if the checker knows its formatting. */
  function NodeText(node: Value): Option<string>
    requires CheckNode(node).None?
  {
    var p := Paragraph(node);
    if |p| > 3 && Present(p[3]) then None
    else if p[1] == Null || p[1] == Int(0) then Some(p[2].s)
    else if p[1] == Int(1) then Some("# " + p[2].s)
    else None
  }

  predicate Readable(nodes: seq<Value>)
    requires CheckNodes(nodes).None?
  {
    nodes == [] || (NodeText(nodes[0]).Some? && Readable(nodes[1..]))
  }

  function Texts(nodes: seq<Value>): seq<string>
    requires CheckNodes(nodes).None? && Readable(nodes)
  {
    if nodes == [] then [] else [NodeText(nodes[0]).value] + Texts(nodes[1..])
  }

  function Joined(paragraphs: seq<string>): string {
    if paragraphs == [] then ""
    else if |paragraphs| == 1 then paragraphs[0]
    else paragraphs[0] + "\n\n" + Joined(paragraphs[1..])
  }

  predicate StructuredMatches(structured: Value, text: string)
    requires CheckStructured(structured).None?
  {
    var nodes := structured.items[0].items;
    Readable(nodes) && (Joined(Texts(nodes)) == text || Joined(Texts(nodes)) == Trim(text))
  }

  function Matches(raw: Value, text: string): Result<bool, Error> {
    match CheckDocument(raw)
    case Some(error) => Err(error)
    case None =>
      var r, d := raw.items, raw.items[13].items;
      Ok(r[4] == Str(text) && d[0] == Str(text) && StructuredMatches(r[8], text) && StructuredMatches(d[2], text))
  }

  lemma {:induction false} NodesSplit(nodes: seq<Value>, i: nat)
    requires i < |nodes| && CheckNodes(nodes).None?
    ensures CheckNodes(nodes[i..]).None? && CheckNode(nodes[i]).None?
    decreases i
  {
    if i == 0 {
      assert nodes[0..] == nodes;
    } else {
      NodesSplit(nodes[1..], i - 1);
      assert nodes[1..][i - 1..] == nodes[i..];
    }
  }

  method MatchStructured(structured: Value, text: string) returns (same: bool)
    requires CheckStructured(structured).None?
    ensures same == StructuredMatches(structured, text)
  {
    var nodes := structured.items[0].items;
    var paragraphs: seq<string> := [];
    var i := 0;
    assert nodes[0..] == nodes;
    while i < |nodes|
      invariant 0 <= i <= |nodes|
      invariant CheckNodes(nodes[i..]).None?
      invariant Readable(nodes) <==> Readable(nodes[i..])
      invariant Readable(nodes) ==> Texts(nodes) == paragraphs + Texts(nodes[i..])
    {
      NodesSplit(nodes[i..], 0);
      assert nodes[i..][1..] == nodes[i + 1..];
      var paragraph := Paragraph(nodes[i]);
      if |paragraph| > 3 && Present(paragraph[3]) {
        return false;
      }
      var level := paragraph[1];
      var prefix := "";
      if level == Null || level == Int(0) {
        prefix := "";
      } else if level == Int(1) {
        prefix := "# ";
      } else {
        return false;
      }
      assert "" + paragraph[2].s == paragraph[2].s;
      assert NodeText(nodes[i]) == Some(prefix + paragraph[2].s);
      paragraphs := paragraphs + [prefix + paragraph[2].s];
      i := i + 1;
    }
    assert nodes[i..] == [] && paragraphs + [] == paragraphs;
    var actual := Joined(paragraphs);
    same := actual == text || actual == Trim(text);
  }

  // ---------------------------------------------------------------- laws

  lemma OneParagraphReads(text: string)
    ensures CheckStructured(OneParagraph(text)).None? && StructuredMatches(OneParagraph(text), text)
    ensures Texts(OneParagraph(text).items[0].items) == [text]
  {
    var p := [Null, Int(0), Str(text)];
    var node := Arr([Null, Arr(p)]);
    assert CheckParagraph(p).None?;
    assert CheckNode(node).None?;
    assert CheckNodes([node]).None? by { assert [node][1..] == []; }
    assert NodeText(node) == Some(text);
    assert Texts([node]) == [text];
    assert Joined([text]) == text;
  }

  /** The four slots a rewrite may change; everything else stays. */
  predicate DiffersInContent(raw: Value, updated: Value) {
    && raw.Arr? && updated.Arr? && |updated.items| == |raw.items| > 13
    && raw.items[13].Arr? && updated.items[13].Arr?
    && (forall i :: 0 <= i < |raw.items| && i != 4 && i != 8 && i != 13 ==> updated.items[i] == raw.items[i])
    && |updated.items[13].items| == |raw.items[13].items|
    && (forall i :: 0 <= i < |raw.items[13].items| && i != 0 && i != 2 ==> updated.items[13].items[i] == raw.items[13].items[i])
  }

  /** Acceptance looks at nothing a rewrite changes but the two structured copies. */
  lemma RewriteIsAccepted(raw: Value, text: string)
    requires Accepted(raw)
    ensures DiffersInContent(raw, Rewritten(raw, text))
    ensures Accepted(Rewritten(raw, text))
  {
    var updated := Rewritten(raw, text);
    var r, u := raw.items, updated.items;
    OneParagraphReads(text);
    forall k | 0 <= k < |OTHER_VARIANTS| && |u| >= OTHER_VARIANTS[k] ensures !Present(u[OTHER_VARIANTS[k] - 1]) {
      assert u[OTHER_VARIANTS[k] - 1] == r[OTHER_VARIANTS[k] - 1];
    }
  }

  /**
   The editor and its checker agree: a rewritten document is accepted again, reads as the
   new text, and as no other; nothing but its four content slots has changed.
   */
  lemma RewriteMatchesItsText(raw: Value, text: string, other: string)
    requires Accepted(raw)
    ensures Replaced(raw, text).Ok? && DiffersInContent(raw, Replaced(raw, text).value)
    ensures Matches(Replaced(raw, text).value, other) == Ok(other == text)
  {
    RewriteIsAccepted(raw, text);
    OneParagraphReads(text);
  }

  /** A second rewrite depends on the second text alone. */
  lemma LastRewriteWins(raw: Value, first: string, second: string)
    requires Accepted(raw)
    ensures Replaced(Rewritten(raw, first), second) == Replaced(raw, second)
  {
    RewriteIsAccepted(raw, first);
    var a, b := Rewritten(Rewritten(raw, first), second), Rewritten(raw, second);
    assert a.items[13].items == b.items[13].items;
    assert a.items == b.items;
  }

  predicate Trimmed(s: string) {
    s == "" || (!IsEdge(s[0]) && !IsEdge(s[|s| - 1]))
  }

  lemma {:induction false} TrimFrontEnds(s: string)
    ensures TrimFront(s) == "" || !IsEdge(TrimFront(s)[0])
  {
    if s != "" && IsEdge(s[0]) { TrimFrontEnds(s[1..]); }
  }

  lemma {:induction false} TrimBackEnds(s: string)
    ensures TrimBack(s) == "" || (!IsEdge(TrimBack(s)[|TrimBack(s)| - 1]) && TrimBack(s)[0] == s[0] && s != "")
  {
    if s != "" && IsEdge(s[|s| - 1]) {
      TrimBackEnds(s[..|s| - 1]);
    }
  }

  lemma TrimIsTrimmed(s: string)
    ensures Trimmed(Trim(s)) && Trim(Trim(s)) == Trim(s)
  {
    TrimFrontEnds(s);
    TrimBackEnds(TrimFront(s));
  }

  /** Whatever the checker accepts has both structured copies read as the text, but for outer blanks and line feeds. */
  lemma MatchMeansSameText(raw: Value, text: string)
    requires Matches(raw, text) == Ok(true)
    ensures var outer, inner := raw.items[8].items[0].items, raw.items[13].items[2].items[0].items;
            && Readable(outer) && Trim(Joined(Texts(outer))) == Trim(text)
            && Readable(inner) && Trim(Joined(Texts(inner))) == Trim(text)
  {
    TrimIsTrimmed(text);
  }

  /** A paragraph as the provider stores it after parsing Markdown: a title, or body text. */
  datatype Part = Part(title: bool, text: string)

  function Nodes(parts: seq<Part>): seq<Value> {
    if parts == [] then []
    else [Arr([Null, Arr([Null, Int(if parts[0].title then 1 else 0), Str(parts[0].text)])])] + Nodes(parts[1..])
  }

  function Markdown(parts: seq<Part>): seq<string> {
    if parts == [] then [] else [if parts[0].title then "# " + parts[0].text else parts[0].text] + Markdown(parts[1..])
  }

  lemma {:induction false} NodesRead(parts: seq<Part>)
    ensures CheckNodes(Nodes(parts)).None? && Readable(Nodes(parts)) && Texts(Nodes(parts)) == Markdown(parts)
  {
    if parts != [] {
      NodesRead(parts[1..]);
      var p := [Null, Int(if parts[0].title then 1 else 0), Str(parts[0].text)];
      var node := Arr([Null, Arr(p)]);
      assert CheckParagraph(p).None?;
      assert CheckNode(node).None?;
      assert Nodes(parts) == [node] + Nodes(parts[1..]) && Nodes(parts)[0] == node && Nodes(parts)[1..] == Nodes(parts[1..]);
    }
  }

  /** Text that the provider took apart into titles and paragraphs is recognized as that text. */
  lemma SplitTextMatches(parts: seq<Part>)
    ensures CheckStructured(Arr([Arr(Nodes(parts))])).None?
    ensures StructuredMatches(Arr([Arr(Nodes(parts))]), Joined(Markdown(parts)))
  {
    NodesRead(parts);
  }
}
