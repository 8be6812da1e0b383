/** The text-recognition adapter: choosing a recognizer from the `modelType`
    option, and flattening a recognition result (blocks, lines, elements)
    into nested channel maps. */
module TextRecognizer {
  import opened Values
  import opened Channel

  // ---------------------------------------------------------------------
  // Recognition results, as the SDK hands them over
  // ---------------------------------------------------------------------

  /** An axis-aligned box given by its four edges. */
  datatype Rect = Rect(left: int, top: int, right: int, bottom: int)
  {
    function Width(): int { right - left }
    function Height(): int { bottom - top }
  }

  datatype Point = Point(x: int, y: int)

  datatype RecognizedLanguage = RecognizedLanguage(languageCode: string)

  /** What every level of the tree carries, and what `addData` reads: a
      possibly-null box, a possibly-null confidence, possibly-null corner
      points, a language list and the text. */
  datatype Node = Node(
    boundingBox: Option<Rect>,
    confidence: Option<int>,
    cornerPoints: Option<seq<Point>>,
    languages: seq<RecognizedLanguage>,
    text: string)

  datatype Element = Element(node: Node)
  datatype Line = Line(node: Node, elements: seq<Element>)
  datatype TextBlock = TextBlock(node: Node, lines: seq<Line>)
  datatype VisionText = VisionText(text: string, blocks: seq<TextBlock>)

  // ---------------------------------------------------------------------
  // Choosing the recognizer
  // ---------------------------------------------------------------------

  datatype Recognizer = OnDeviceRecognizer | CloudRecognizer

  /** The constructor either stores a recognizer or throws an
      IllegalArgumentException with the given message. */
  datatype Construction = Constructed(recognizer: Recognizer) | IllegalArgument(message: string)

  /** The options map must carry a string under `modelType` (the constructor
      casts it and calls `equals` on it). */
  predicate HasModelType(options: map<string, Value>)
  {
    "modelType" in options && options["modelType"].VStr?
  }

  /** The constructor's choice of recognizer. */
  function Create(options: map<string, Value>): (c: Construction)
    requires HasModelType(options)
    ensures var modelType := options["modelType"].s;
      && (c == Constructed(OnDeviceRecognizer) <==> modelType == "onDevice")
      && (c == Constructed(CloudRecognizer) <==> modelType == "cloud")
      && (c.IllegalArgument? <==> modelType != "onDevice" && modelType != "cloud")
      && (c.IllegalArgument? ==> c.message == "No model for type: " + modelType)
  {
    var modelType := options["modelType"].s;
    if modelType == "onDevice" then
      Constructed(OnDeviceRecognizer)
    else if modelType == "cloud" then
      Constructed(CloudRecognizer)
    else
      IllegalArgument("No model for type: " + modelType)
  }

  // ---------------------------------------------------------------------
  // The serialised form
  // ---------------------------------------------------------------------

  const GeometryKeys: set<string> := {"left", "top", "width", "height"}
  const CommonKeys: set<string> := {"confidence", "points", "recognizedLanguages", "text"}

  /** The keys a node's map holds: geometry only when there is a box. */
  function NodeKeys(n: Node): set<string>
  {
    if n.boundingBox.Some? then GeometryKeys + CommonKeys else CommonKeys
  }

  function GeometryMap(box: Option<Rect>): map<string, Value>
  {
    match box
    case None => map[]
    case Some(r) =>
      map["left" := VNum(r.left), "top" := VNum(r.top),
          "width" := VNum(r.Width()), "height" := VNum(r.Height())]
  }

  function ConfidenceValue(confidence: Option<int>): Value
  {
    match confidence
    case None => VNull
    case Some(c) => VNum(c)
  }

  /** A corner point as the pair `[x, y]`. */
  function PointValue(p: Point): Value
  {
    VList([VNum(p.x), VNum(p.y)])
  }

  /** Null corner points serialise as the empty list. */
  function PointsValue(cornerPoints: Option<seq<Point>>): seq<Value>
  {
    match cornerPoints
    case None => []
    case Some(ps) => seq(|ps|, i requires 0 <= i < |ps| => PointValue(ps[i]))
  }

  /** A language as a map holding only its code. */
  function LanguageValue(l: RecognizedLanguage): Value
  {
    VMap(map["languageCode" := VStr(l.languageCode)])
  }

  function LanguagesValue(ls: seq<RecognizedLanguage>): seq<Value>
  {
    seq(|ls|, i requires 0 <= i < |ls| => LanguageValue(ls[i]))
  }

  /** The entries `addData` puts for one node. */
  function NodeMap(n: Node): map<string, Value>
  {
    GeometryMap(n.boundingBox) +
    map["confidence" := ConfidenceValue(n.confidence),
        "points" := VList(PointsValue(n.cornerPoints)),
        "recognizedLanguages" := VList(LanguagesValue(n.languages)),
        "text" := VStr(n.text)]
  }

  /** A node's map holds exactly the node keys: the four geometry keys
      appear exactly when there is a bounding box. */
  lemma NodeMapKeys(n: Node)
    ensures NodeMap(n).Keys == NodeKeys(n)
    ensures n.boundingBox.Some? <==> GeometryKeys <= NodeMap(n).Keys
    ensures n.boundingBox.None? <==> NodeMap(n).Keys !! GeometryKeys
  {
  }

  /** The geometry entries: the box's left and top edges, and its width and
      height as differences of opposite edges. */
  lemma NodeMapGeometry(n: Node)
    requires n.boundingBox.Some?
    ensures var m, r := NodeMap(n), n.boundingBox.value;
      && m["left"] == VNum(r.left) && m["top"] == VNum(r.top)
      && m["width"] == VNum(r.right - r.left) && m["height"] == VNum(r.bottom - r.top)
  {
  }

  /** `confidence` is always there: null exactly when the input is null,
      the input otherwise. */
  lemma NodeMapConfidence(n: Node)
    ensures "confidence" in NodeMap(n)
    ensures NodeMap(n)["confidence"] == VNull <==> n.confidence.None?
    ensures n.confidence.Some? ==> NodeMap(n)["confidence"] == VNum(n.confidence.value)
  {
  }

  /** `points` holds one `[x, y]` pair per corner point, in order, and is
      empty when the corner points are null. */
  lemma NodeMapPoints(n: Node)
    ensures var points := NodeMap(n)["points"];
      && points.VList?
      && (n.cornerPoints.None? ==> points.items == [])
      && (n.cornerPoints.Some? ==>
            var ps := n.cornerPoints.value;
            && |points.items| == |ps|
            && forall i | 0 <= i < |ps| :: points.items[i] == VList([VNum(ps[i].x), VNum(ps[i].y)]))
  {
  }

  /** `recognizedLanguages` holds, in order, one map per language with only
      its code; `text` is the input text unchanged. */
  lemma NodeMapLanguagesAndText(n: Node)
    ensures var languages := NodeMap(n)["recognizedLanguages"];
      && languages.VList? && |languages.items| == |n.languages|
      && (forall i | 0 <= i < |n.languages| ::
            languages.items[i] == VMap(map["languageCode" := VStr(n.languages[i].languageCode)]))
    ensures NodeMap(n)["text"] == VStr(n.text)
  {
  }

  function ElementValue(e: Element): Value
  {
    VMap(NodeMap(e.node))
  }

  function ElementsValue(es: seq<Element>): seq<Value>
  {
    seq(|es|, i requires 0 <= i < |es| => ElementValue(es[i]))
  }

  /** A line's map: its node entries plus `elements`. */
  function LineValue(l: Line): Value
  {
    VMap(NodeMap(l.node)["elements" := VList(ElementsValue(l.elements))])
  }

  function LinesValue(ls: seq<Line>): seq<Value>
  {
    seq(|ls|, i requires 0 <= i < |ls| => LineValue(ls[i]))
  }

  /** A block's map: its node entries plus `lines`. */
  function BlockValue(b: TextBlock): Value
  {
    VMap(NodeMap(b.node)["lines" := VList(LinesValue(b.lines))])
  }

  function BlocksValue(bs: seq<TextBlock>): seq<Value>
  {
    seq(|bs|, i requires 0 <= i < |bs| => BlockValue(bs[i]))
  }

  /** The map the success listener replies with. */
  function Serialize(vt: VisionText): (v: Value)
    ensures v.VMap? && v.fields.Keys == {"text", "blocks"}
    ensures v.fields["text"] == VStr(vt.text)
    ensures v.fields["blocks"].VList? && |v.fields["blocks"].items| == |vt.blocks|
  {
    VMap(map["text" := VStr(vt.text), "blocks" := VList(BlocksValue(vt.blocks))])
  }

  /** The one reply `handleDetection` gives for a recognition outcome. */
  function DetectionReply(outcome: Outcome<VisionText>): (r: Reply)
    ensures outcome.Done? <==> r.SuccessReply?
    ensures outcome.Done? ==> r.value == Serialize(outcome.result)
    ensures outcome.Failed? ==>
      r == ErrorReply("textRecognizerError", outcome.exception.localizedMessage)
  {
    match outcome
    case Done(vt) => SuccessReply(Serialize(vt))
    case Failed(e) => ErrorReply("textRecognizerError", e.localizedMessage)
  }

  // ---------------------------------------------------------------------
  // Reading the serialised form back
  // ---------------------------------------------------------------------

  /** The box, when the four geometry keys hold numbers; no box when none of
      them is present; `None` (malformed) otherwise. */
  function DecodeBox(m: map<string, Value>): Option<Option<Rect>>
  {
    if "left" !in m && "top" !in m && "width" !in m && "height" !in m then Some(None)
    else if "left" in m && "top" in m && "width" in m && "height" in m
         && m["left"].VNum? && m["top"].VNum? && m["width"].VNum? && m["height"].VNum? then
      var left, top := m["left"].n, m["top"].n;
      Some(Some(Rect(left, top, left + m["width"].n, top + m["height"].n)))
    else None
  }

  function DecodeConfidence(v: Value): Option<Option<int>>
  {
    if v.VNull? then Some(None)
    else if v.VNum? then Some(Some(v.n))
    else None
  }

  predicate IsPointValue(v: Value)
  {
    v.VList? && |v.items| == 2 && v.items[0].VNum? && v.items[1].VNum?
  }

  function DecodePoints(v: Value): Option<seq<Point>>
  {
    if v.VList? && forall i | 0 <= i < |v.items| :: IsPointValue(v.items[i]) then
      Some(seq(|v.items|, i requires 0 <= i < |v.items| && IsPointValue(v.items[i]) =>
        Point(v.items[i].items[0].n, v.items[i].items[1].n)))
    else None
  }

  predicate IsLanguageValue(v: Value)
  {
    v.VMap? && "languageCode" in v.fields && v.fields["languageCode"].VStr?
  }

  function DecodeLanguages(v: Value): Option<seq<RecognizedLanguage>>
  {
    if v.VList? && forall i | 0 <= i < |v.items| :: IsLanguageValue(v.items[i]) then
      Some(seq(|v.items|, i requires 0 <= i < |v.items| && IsLanguageValue(v.items[i]) =>
        RecognizedLanguage(v.items[i].fields["languageCode"].s)))
    else None
  }

  /** The node a map describes; the corner points always come back as a list. */
  function DecodeNode(m: map<string, Value>): Option<Node>
  {
    if "confidence" in m && "points" in m && "recognizedLanguages" in m
       && "text" in m && m["text"].VStr? then
      var box, confidence := DecodeBox(m), DecodeConfidence(m["confidence"]);
      var points, languages := DecodePoints(m["points"]), DecodeLanguages(m["recognizedLanguages"]);
      if box.Some? && confidence.Some? && points.Some? && languages.Some? then
        Some(Node(box.value, confidence.value, points, languages.value, m["text"].s))
      else None
    else None
  }

  function DecodeElement(v: Value): Option<Element>
  {
    if v.VMap? then
      match DecodeNode(v.fields)
      case Some(n) => Some(Element(n))
      case None => None
    else None
  }

  function DecodeElements(vs: seq<Value>): Option<seq<Element>>
  {
    if forall i | 0 <= i < |vs| :: DecodeElement(vs[i]).Some? then
      Some(seq(|vs|, i requires 0 <= i < |vs| && DecodeElement(vs[i]).Some? => DecodeElement(vs[i]).value))
    else None
  }

  function DecodeLine(v: Value): Option<Line>
  {
    if v.VMap? && "elements" in v.fields && v.fields["elements"].VList? then
      var n, es := DecodeNode(v.fields), DecodeElements(v.fields["elements"].items);
      if n.Some? && es.Some? then Some(Line(n.value, es.value)) else None
    else None
  }

  function DecodeLines(vs: seq<Value>): Option<seq<Line>>
  {
    if forall i | 0 <= i < |vs| :: DecodeLine(vs[i]).Some? then
      Some(seq(|vs|, i requires 0 <= i < |vs| && DecodeLine(vs[i]).Some? => DecodeLine(vs[i]).value))
    else None
  }

  function DecodeBlock(v: Value): Option<TextBlock>
  {
    if v.VMap? && "lines" in v.fields && v.fields["lines"].VList? then
      var n, ls := DecodeNode(v.fields), DecodeLines(v.fields["lines"].items);
      if n.Some? && ls.Some? then Some(TextBlock(n.value, ls.value)) else None
    else None
  }

  function DecodeBlocks(vs: seq<Value>): Option<seq<TextBlock>>
  {
    if forall i | 0 <= i < |vs| :: DecodeBlock(vs[i]).Some? then
      Some(seq(|vs|, i requires 0 <= i < |vs| && DecodeBlock(vs[i]).Some? => DecodeBlock(vs[i]).value))
    else None
  }

  /** An independent reading of the serialised tree. */
  function Deserialize(v: Value): Option<VisionText>
  {
    if v.VMap? && "text" in v.fields && v.fields["text"].VStr?
       && "blocks" in v.fields && v.fields["blocks"].VList? then
      match DecodeBlocks(v.fields["blocks"].items)
      case Some(bs) => Some(VisionText(v.fields["text"].s, bs))
      case None => None
    else None
  }

  // ---------------------------------------------------------------------
  // What serialising loses, and the round trip
  // ---------------------------------------------------------------------

  /** Null corner points and an empty corner-point list serialise alike;
      the canonical form uses the empty list. */
  function CanonicalPoints(cornerPoints: Option<seq<Point>>): Option<seq<Point>>
  {
    if cornerPoints.None? then Some([]) else cornerPoints
  }

  function CanonicalNode(n: Node): Node
  {
    n.(cornerPoints := CanonicalPoints(n.cornerPoints))
  }

  function CanonicalLine(l: Line): Line
  {
    Line(CanonicalNode(l.node),
         seq(|l.elements|, i requires 0 <= i < |l.elements| => Element(CanonicalNode(l.elements[i].node))))
  }

  function CanonicalBlock(b: TextBlock): TextBlock
  {
    TextBlock(CanonicalNode(b.node),
              seq(|b.lines|, i requires 0 <= i < |b.lines| => CanonicalLine(b.lines[i])))
  }

  function Canonical(vt: VisionText): VisionText
  {
    VisionText(vt.text, seq(|vt.blocks|, i requires 0 <= i < |vt.blocks| => CanonicalBlock(vt.blocks[i])))
  }

  lemma PointsRoundTrip(cornerPoints: Option<seq<Point>>)
    ensures DecodePoints(VList(PointsValue(cornerPoints))) == CanonicalPoints(cornerPoints)
  {
    var ps := if cornerPoints.Some? then cornerPoints.value else [];
    var vs := PointsValue(cornerPoints);
    assert |vs| == |ps|;
    assert forall i | 0 <= i < |vs| :: vs[i] == PointValue(ps[i]);
    assert forall i | 0 <= i < |vs| :: IsPointValue(vs[i]);
    assert VList(vs).items == vs;
    assert DecodePoints(VList(vs)).Some?;
    var d := DecodePoints(VList(vs)).value;
    assert |d| == |ps|;
    forall i | 0 <= i < |ps| ensures d[i] == ps[i] {
      assert vs[i] == PointValue(ps[i]);
    }
    assert d == ps;
  }

  lemma LanguagesRoundTrip(ls: seq<RecognizedLanguage>)
    ensures DecodeLanguages(VList(LanguagesValue(ls))) == Some(ls)
  {
    var vs := LanguagesValue(ls);
    assert forall i | 0 <= i < |vs| :: IsLanguageValue(vs[i]);
    var d := DecodeLanguages(VList(vs)).value;
    assert |d| == |ls|;
    forall i | 0 <= i < |ls| ensures d[i] == ls[i] {
      assert vs[i] == LanguageValue(ls[i]);
    }
    assert d == ls;
  }

  /** The box comes back from a map whose geometry entries are those the
      box puts. */
  lemma BoxRoundTrip(m: map<string, Value>, box: Option<Rect>)
    requires box.None? ==> "left" !in m && "top" !in m && "width" !in m && "height" !in m
    requires box.Some? ==>
      && "left" in m && m["left"] == VNum(box.value.left)
      && "top" in m && m["top"] == VNum(box.value.top)
      && "width" in m && m["width"] == VNum(box.value.Width())
      && "height" in m && m["height"] == VNum(box.value.Height())
    ensures DecodeBox(m) == Some(box)
  {
  }

  lemma DecodeNodeOf(m: map<string, Value>, n: Node)
    requires "confidence" in m && "points" in m && "recognizedLanguages" in m
    requires "text" in m && m["text"] == VStr(n.text)
    requires DecodeBox(m) == Some(n.boundingBox)
    requires DecodeConfidence(m["confidence"]) == Some(n.confidence)
    requires DecodePoints(m["points"]) == CanonicalPoints(n.cornerPoints)
    requires DecodeLanguages(m["recognizedLanguages"]) == Some(n.languages)
    ensures DecodeNode(m) == Some(CanonicalNode(n))
  {
  }

  /** The lookups `DecodeNode` makes in a node's entries with extra
      entries outside the node keys beside them. */
  lemma NodeEntries(n: Node, extra: map<string, Value>)
    requires extra.Keys !! GeometryKeys && extra.Keys !! CommonKeys
    ensures var m := NodeMap(n) + extra;
      && (n.boundingBox.None? ==> "left" !in m && "top" !in m && "width" !in m && "height" !in m)
      && (n.boundingBox.Some? ==>
            && "left" in m && m["left"] == VNum(n.boundingBox.value.left)
            && "top" in m && m["top"] == VNum(n.boundingBox.value.top)
            && "width" in m && m["width"] == VNum(n.boundingBox.value.Width())
            && "height" in m && m["height"] == VNum(n.boundingBox.value.Height()))
      && "confidence" in m && m["confidence"] == ConfidenceValue(n.confidence)
      && "points" in m && m["points"] == VList(PointsValue(n.cornerPoints))
      && "recognizedLanguages" in m && m["recognizedLanguages"] == VList(LanguagesValue(n.languages))
      && "text" in m && m["text"] == VStr(n.text)
  {
  }

  /** A node's entries, with any extra entries outside the node keys beside
      them, decode back to the node's canonical form. */
  lemma NodeRoundTrip(n: Node, extra: map<string, Value>)
    requires extra.Keys !! GeometryKeys && extra.Keys !! CommonKeys
    ensures DecodeNode(NodeMap(n) + extra) == Some(CanonicalNode(n))
  {
    var m := NodeMap(n) + extra;
    NodeEntries(n, extra);
    BoxRoundTrip(m, n.boundingBox);
    PointsRoundTrip(n.cornerPoints);
    LanguagesRoundTrip(n.languages);
    DecodeNodeOf(m, n);
  }

  lemma ElementsRoundTrip(es: seq<Element>)
    ensures DecodeElements(ElementsValue(es))
         == Some(seq(|es|, i requires 0 <= i < |es| => Element(CanonicalNode(es[i].node))))
  {
    var vs := ElementsValue(es);
    forall i | 0 <= i < |es|
      ensures DecodeElement(vs[i]) == Some(Element(CanonicalNode(es[i].node)))
    {
      assert NodeMap(es[i].node) + map[] == NodeMap(es[i].node);
      NodeRoundTrip(es[i].node, map[]);
    }
    var d := DecodeElements(vs).value;
    assert |d| == |es|;
    assert forall i | 0 <= i < |es| :: d[i] == Element(CanonicalNode(es[i].node));
    assert d == seq(|es|, i requires 0 <= i < |es| => Element(CanonicalNode(es[i].node)));
  }

  lemma LineRoundTrip(l: Line)
    ensures DecodeLine(LineValue(l)) == Some(CanonicalLine(l))
  {
    var fields := NodeMap(l.node)["elements" := VList(ElementsValue(l.elements))];
    assert LineValue(l) == VMap(fields);
    assert fields == NodeMap(l.node) + map["elements" := VList(ElementsValue(l.elements))];
    NodeRoundTrip(l.node, map["elements" := VList(ElementsValue(l.elements))]);
    ElementsRoundTrip(l.elements);
    assert fields["elements"].items == ElementsValue(l.elements);
    assert DecodeNode(fields) == Some(CanonicalNode(l.node));
    var es := DecodeElements(fields["elements"].items).value;
    assert es == CanonicalLine(l).elements;
  }

  lemma LinesRoundTrip(ls: seq<Line>)
    ensures DecodeLines(LinesValue(ls))
         == Some(seq(|ls|, i requires 0 <= i < |ls| => CanonicalLine(ls[i])))
  {
    var vs := LinesValue(ls);
    forall i | 0 <= i < |ls|
      ensures DecodeLine(vs[i]) == Some(CanonicalLine(ls[i]))
    {
      LineRoundTrip(ls[i]);
    }
    var d := DecodeLines(vs).value;
    assert |d| == |ls|;
    assert forall i | 0 <= i < |ls| :: d[i] == CanonicalLine(ls[i]);
    assert d == seq(|ls|, i requires 0 <= i < |ls| => CanonicalLine(ls[i]));
  }

  lemma BlockRoundTrip(b: TextBlock)
    ensures DecodeBlock(BlockValue(b)) == Some(CanonicalBlock(b))
  {
    var fields := NodeMap(b.node)["lines" := VList(LinesValue(b.lines))];
    assert BlockValue(b) == VMap(fields);
    assert fields == NodeMap(b.node) + map["lines" := VList(LinesValue(b.lines))];
    NodeRoundTrip(b.node, map["lines" := VList(LinesValue(b.lines))]);
    LinesRoundTrip(b.lines);
    assert fields["lines"].items == LinesValue(b.lines);
    assert DecodeNode(fields) == Some(CanonicalNode(b.node));
    var ls := DecodeLines(fields["lines"].items).value;
    assert ls == CanonicalBlock(b).lines;
  }

  /** Serialising loses nothing but the difference between null and empty
      corner points: reading the map back gives the canonical tree, with
      every block, line and element in its original place. */
  lemma RoundTrip(vt: VisionText)
    ensures Deserialize(Serialize(vt)) == Some(Canonical(vt))
  {
    var vs := BlocksValue(vt.blocks);
    forall i | 0 <= i < |vt.blocks|
      ensures DecodeBlock(vs[i]) == Some(CanonicalBlock(vt.blocks[i]))
    {
      BlockRoundTrip(vt.blocks[i]);
    }
    var d := DecodeBlocks(vs).value;
    assert |d| == |vt.blocks|;
    assert forall i | 0 <= i < |vt.blocks| :: d[i] == CanonicalBlock(vt.blocks[i]);
    assert d == Canonical(vt).blocks;
  }

  /** Two results serialise alike only if they agree up to null versus
      empty corner points. */
  lemma SerializeInjective(a: VisionText, b: VisionText)
    requires Serialize(a) == Serialize(b)
    ensures Canonical(a) == Canonical(b)
  {
    RoundTrip(a);
    RoundTrip(b);
  }

  // ---------------------------------------------------------------------
  // The adapter's code: `addData` and the success listener's nested loops
  // ---------------------------------------------------------------------

  /** The geometry entries, put one after the other over `m`. */
  function PutGeometry(m: map<string, Value>, box: Option<Rect>): map<string, Value>
  {
    match box
    case None => m
    case Some(r) =>
      m["left" := VNum(r.left)]["top" := VNum(r.top)]
       ["width" := VNum(r.Width())]["height" := VNum(r.Height())]
  }

  /** The entries of `NodeMap`, put one after the other over `m`. */
  lemma NodeMapByPuts(m: map<string, Value>, n: Node)
    ensures PutGeometry(m, n.boundingBox)
      ["confidence" := ConfidenceValue(n.confidence)]
      ["points" := VList(PointsValue(n.cornerPoints))]
      ["recognizedLanguages" := VList(LanguagesValue(n.languages))]
      ["text" := VStr(n.text)]
      == m + NodeMap(n)
  {
  }

  /** `addData`: puts the node's entries into `addTo`. */
  method AddData(addTo: ValueMap, node: Node)
    modifies addTo
    ensures addTo.entries == old(addTo.entries) + NodeMap(node)
  {
    ghost var m0 := addTo.entries;
    if node.boundingBox.Some? {
      var box := node.boundingBox.value;
      addTo.Put("left", VNum(box.left));
      addTo.Put("top", VNum(box.top));
      addTo.Put("width", VNum(box.Width()));
      addTo.Put("height", VNum(box.Height()));
    }
    assert addTo.entries == PutGeometry(m0, node.boundingBox);
    var confidence := if node.confidence.None? then VNull else VNum(node.confidence.value);
    addTo.Put("confidence", confidence);

    var points: seq<Value> := [];
    if node.cornerPoints.Some? {
      var cornerPoints := node.cornerPoints.value;
      for i := 0 to |cornerPoints|
        invariant points == seq(i, k requires 0 <= k < i => PointValue(cornerPoints[k]))
      {
        var point := cornerPoints[i];
        points := points + [VList([VNum(point.x), VNum(point.y)])];
      }
    }
    assert points == PointsValue(node.cornerPoints);
    addTo.Put("points", VList(points));

    ghost var before := addTo.entries;
    var allLanguageData: seq<Value> := [];
    for i := 0 to |node.languages|
      invariant allLanguageData == seq(i, k requires 0 <= k < i => LanguageValue(node.languages[k]))
      invariant addTo.entries == before
    {
      var languageData := new ValueMap();
      languageData.Put("languageCode", VStr(node.languages[i].languageCode));
      allLanguageData := allLanguageData + [VMap(languageData.entries)];
    }
    assert allLanguageData == LanguagesValue(node.languages);
    addTo.Put("recognizedLanguages", VList(allLanguageData));

    addTo.Put("text", VStr(node.text));
    NodeMapByPuts(m0, node);
  }

  /** One element's map, filled by `addData`. */
  method SerializeElement(element: Element) returns (elementValue: Value)
    ensures elementValue == ElementValue(element)
  {
    var elementData := new ValueMap();
    AddData(elementData, element.node);
    assert elementData.entries == NodeMap(element.node);
    elementValue := VMap(elementData.entries);
  }

  /** The innermost loop of the success listener: one line's map, with an
      `elements` list holding each element's map in order. */
  method SerializeLine(line: Line) returns (lineValue: Value)
    ensures lineValue == LineValue(line)
  {
    var lineData := new ValueMap();
    AddData(lineData, line.node);
    assert lineData.entries == NodeMap(line.node);

    var allElementData: seq<Value> := [];
    for k := 0 to |line.elements|
      invariant |allElementData| == k
      invariant forall e | 0 <= e < k :: allElementData[e] == ElementValue(line.elements[e])
      invariant lineData.entries == NodeMap(line.node)
    {
      var elementData := SerializeElement(line.elements[k]);
      allElementData := allElementData + [elementData];
    }
    assert allElementData == ElementsValue(line.elements);
    lineData.Put("elements", VList(allElementData));
    lineValue := VMap(lineData.entries);
  }

  /** The middle loop: one block's map, with a `lines` list holding each
      line's map in order. */
  method SerializeBlock(block: TextBlock) returns (blockValue: Value)
    ensures blockValue == BlockValue(block)
  {
    var blockData := new ValueMap();
    AddData(blockData, block.node);
    assert blockData.entries == NodeMap(block.node);

    var allLineData: seq<Value> := [];
    for j := 0 to |block.lines|
      invariant |allLineData| == j
      invariant forall k | 0 <= k < j :: allLineData[k] == LineValue(block.lines[k])
      invariant blockData.entries == NodeMap(block.node)
    {
      var lineData := SerializeLine(block.lines[j]);
      allLineData := allLineData + [lineData];
    }
    assert allLineData == LinesValue(block.lines);
    blockData.Put("lines", VList(allLineData));
    blockValue := VMap(blockData.entries);
  }

  /** The success listener's body: the map built by the nested loops is
      exactly the serialised tree. */
  method SerializeVisionText(visionText: VisionText) returns (data: Value)
    ensures data == Serialize(visionText)
  {
    var visionTextData := new ValueMap();
    visionTextData.Put("text", VStr(visionText.text));

    var allBlockData: seq<Value> := [];
    for i := 0 to |visionText.blocks|
      invariant |allBlockData| == i
      invariant forall k | 0 <= k < i :: allBlockData[k] == BlockValue(visionText.blocks[k])
      invariant visionTextData.entries == map["text" := VStr(visionText.text)]
    {
      var blockData := SerializeBlock(visionText.blocks[i]);
      allBlockData := allBlockData + [blockData];
    }
    assert allBlockData == BlocksValue(visionText.blocks);
    visionTextData.Put("blocks", VList(allBlockData));
    data := VMap(visionTextData.entries);
  }

  /** `handleDetection` once the SDK's recognition task has ended: the
      success listener or the failure listener runs, and exactly one reply
      is given. */
  method HandleDetection(outcome: Outcome<VisionText>, result: MethodResult)
    modifies result
    ensures result.replies == old(result.replies) + [DetectionReply(outcome)]
  {
    match outcome {
      case Done(visionText) =>
        var visionTextData := SerializeVisionText(visionText);
        result.Success(visionTextData);
      case Failed(exception) =>
        result.Error("textRecognizerError", exception.localizedMessage);
    }
  }
}
