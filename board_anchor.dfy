/**
 * Resolution of a board's anchor point and anchor alignment
 * (src/utils/board-anchor.ts).
 *
 * The anchor point is the first candidate field, in a fixed order, whose x
 * and y are both finite numbers. The alignment is the first candidate
 * string that normalises to a known tag; failing that it is inferred from
 * the delta between the board's center and its anchor, and failing that it
 * is "center".
 */
module BoardAnchor {
  import opened JsValues

  /** The nine values of `BoardAnchorAlignment`. */
  datatype Alignment =
    | Center | Top | Bottom | Left | Right
    | TopLeft | TopRight | BottomLeft | BottomRight

  /** The tag the source returns for an alignment: hyphenated, lower case. */
  function Tag(a: Alignment): string {
    match a
    case Center => "center"
    case Top => "top"
    case Bottom => "bottom"
    case Left => "left"
    case Right => "right"
    case TopLeft => "top-left"
    case TopRight => "top-right"
    case BottomLeft => "bottom-left"
    case BottomRight => "bottom-right"
  }

  /** The number of entries of `alignmentMap`. */
  const EntryCount: nat := 45

  /** The entries of `alignmentMap`, in the order of the object literal. */
  function Entry(i: nat): (string, Alignment)
    requires i < EntryCount
  {
    match i
    case 0 => ("center", Center)
    case 1 => ("middle", Center)
    case 2 => ("center-center", Center)
    case 3 => ("center-middle", Center)
    case 4 => ("middle-center", Center)
    case 5 => ("top", Top)
    case 6 => ("top-center", Top)
    case 7 => ("center-top", Top)
    case 8 => ("top-middle", Top)
    case 9 => ("middle-top", Top)
    case 10 => ("bottom", Bottom)
    case 11 => ("bottom-center", Bottom)
    case 12 => ("center-bottom", Bottom)
    case 13 => ("bottom-middle", Bottom)
    case 14 => ("middle-bottom", Bottom)
    case 15 => ("left", Left)
    case 16 => ("left-center", Left)
    case 17 => ("center-left", Left)
    case 18 => ("left-middle", Left)
    case 19 => ("middle-left", Left)
    case 20 => ("right", Right)
    case 21 => ("right-center", Right)
    case 22 => ("center-right", Right)
    case 23 => ("right-middle", Right)
    case 24 => ("middle-right", Right)
    case 25 => ("top-left", TopLeft)
    case 26 => ("left-top", TopLeft)
    case 27 => ("top-left-center", TopLeft)
    case 28 => ("center-top-left", TopLeft)
    case 29 => ("top-center-left", TopLeft)
    case 30 => ("bottom-left", BottomLeft)
    case 31 => ("left-bottom", BottomLeft)
    case 32 => ("bottom-left-center", BottomLeft)
    case 33 => ("center-bottom-left", BottomLeft)
    case 34 => ("bottom-center-left", BottomLeft)
    case 35 => ("top-right", TopRight)
    case 36 => ("right-top", TopRight)
    case 37 => ("top-right-center", TopRight)
    case 38 => ("center-top-right", TopRight)
    case 39 => ("top-center-right", TopRight)
    case 40 => ("bottom-right", BottomRight)
    case 41 => ("right-bottom", BottomRight)
    case 42 => ("bottom-right-center", BottomRight)
    case 43 => ("center-bottom-right", BottomRight)
    case 44 => ("bottom-center-right", BottomRight)
  }

  /** Own-property lookup among the entries from `i` on; `None` when no entry has the key. */
  function LookupFrom(i: nat, key: string): Option<Alignment>
    requires i <= EntryCount
    decreases EntryCount - i
  {
    if i == EntryCount then None
    else if Entry(i).0 == key then Some(Entry(i).1)
    else LookupFrom(i + 1, key)
  }

  /**
   * `alignmentMap`, read by own property: the alias table from normalised
   * strings to alignments; `None` for a string that is not a key.
   */
  function AlignmentTable(key: string): Option<Alignment> {
    LookupFrom(0, key)
  }

  /** The lookup returns the first entry that has the key. */
  lemma {:induction false} LookupFindsFirst(key: string, i: nat, k: nat)
    requires i <= k < EntryCount && Entry(k).0 == key
    requires forall j :: i <= j < k ==> Entry(j).0 != key
    ensures LookupFrom(i, key) == Some(Entry(k).1)
    decreases k - i
  {
    if i < k {
      assert Entry(i).0 != key;
      LookupFindsFirst(key, i + 1, k);
    } else {
      assert Entry(i).0 == key;
    }
  }

  /** A key that no entry carries is looked up as `None`. */
  lemma {:induction false} LookupMisses(key: string, i: nat)
    requires i <= EntryCount
    requires forall j :: i <= j < EntryCount ==> Entry(j).0 != key
    ensures LookupFrom(i, key) == None
    decreases EntryCount - i
  {
    if i < EntryCount {
      LookupMisses(key, i + 1);
    }
  }

  /** Every tag the resolver returns is itself a key of the table and maps back to itself. */
  lemma TagIsAKey(a: Alignment)
    ensures AlignmentTable(Tag(a)) == Some(a)
  {
    var k := match a
      case Center => 0
      case Top => 5
      case Bottom => 10
      case Left => 15
      case Right => 20
      case TopLeft => 25
      case BottomLeft => 30
      case TopRight => 35
      case BottomRight => 40;
    LookupFindsFirst(Tag(a), 0, k);
  }

  /** The empty string is no key of the table. */
  lemma EmptyIsNotAKey(key: string)
    requires key == ""
    ensures AlignmentTable(key) == None
  {
    forall j | 0 <= j < EntryCount ensures Entry(j).0 != key {
    }
    LookupMisses(key, 0);
  }

  /** Every alignment's tag resolves back to that alignment. */
  lemma TagResolvesToItself(a: Alignment)
    ensures ExtractAlignment(Some(Tag(a))) == Some(a)
  {
    TagIsAKey(a);
    assert PlainText(Tag(a));
  }

  // ---------------------------------------------------------------------
  // Normalisation of alignment strings

  /** The characters of the class `[_\s]`. */
  predicate IsSeparator(c: char) {
    c == '_' || IsWhitespace(c)
  }

  function DropSeparators(s: string): (r: string)
    ensures |r| <= |s| && r == s[|s| - |r|..]
    ensures r == [] || !IsSeparator(r[0])
  {
    if s != [] && IsSeparator(s[0]) then DropSeparators(s[1..]) else s
  }

  /** `.replace(/[_\s]+/g, "-")`: every maximal run of separators becomes one hyphen. */
  function CollapseSeparators(s: string): (r: string)
    ensures forall i :: 0 <= i < |r| ==> !IsSeparator(r[i])
    decreases |s|
  {
    if s == [] then []
    else if IsSeparator(s[0]) then "-" + CollapseSeparators(DropSeparators(s))
    else [s[0]] + CollapseSeparators(s[1..])
  }

  /** The `normalized` string: trimmed, lower-cased, separators collapsed. */
  function Normalize(alignment: string): string {
    CollapseSeparators(ToLowerCase(Trim(alignment)))
  }

  /** Drop one trailing `-center` or `-middle`. */
  function StripTrailingModifier(s: string): (r: string)
    ensures r == s || (|r| == |s| - 7 && r == s[..|r|])
  {
    if EndsWith(s, "-center") || EndsWith(s, "-middle") then s[..|s| - 7] else s
  }

  /** Drop one leading `center-` or `middle-`. */
  function StripLeadingModifier(s: string): (r: string)
    ensures r == s || (|r| == |s| - 7 && r == s[7..])
  {
    if StartsWith(s, "center-") || StartsWith(s, "middle-") then s[7..] else s
  }

  /** The `simplified` string of the second lookup. */
  function Simplify(normalized: string): (r: string)
    ensures r == normalized
            || (|normalized| >= 7 && (r == normalized[7..] || r == normalized[..|normalized| - 7]))
            || (|normalized| >= 14 && r == normalized[7..|normalized| - 7])
  {
    StripLeadingModifier(StripTrailingModifier(normalized))
  }

  /**
   * `extractAlignment` with the table read by own property only: a missing
   * or empty string gives null; otherwise the normalised string is looked
   * up, then its simplification.
   */
  function ExtractAlignment(alignment: Option<string>): (r: Option<Alignment>)
    ensures alignment.None? || alignment.value == "" ==> r.None?
    ensures alignment.Some? && PlainText(alignment.value) && AlignmentTable(alignment.value).Some?
            ==> r == AlignmentTable(alignment.value)
    ensures alignment.Some? && PlainText(alignment.value) && AlignmentTable(alignment.value).None?
            && StripLeadingModifier(alignment.value) == alignment.value
            && StripTrailingModifier(alignment.value) == alignment.value
            ==> r.None?
  {
    if alignment.None? then None
    else if alignment.value == "" then EmptyIsNotAKey(alignment.value); None
    else
      PlainIsNormal(alignment.value);
      var normalized := Normalize(alignment.value);
      var first := AlignmentTable(normalized);
      if first.Some? then first else AlignmentTable(Simplify(normalized))
  }

  // ---------------------------------------------------------------------
  // The table read as written: a plain object literal

  /**
   * The property names every object literal inherits from
   * `Object.prototype`; each of them reads as a function or an object,
   * never as undefined.
   */
  const InheritedProperties: set<string> := {
    "constructor", "__defineGetter__", "__defineSetter__", "hasOwnProperty",
    "__lookupGetter__", "__lookupSetter__", "isPrototypeOf",
    "propertyIsEnumerable", "toString", "valueOf", "__proto__", "toLocaleString"
  }

  /** What `alignmentMap[key]` evaluates to, and what the resolver then returns. */
  datatype AlignmentValue = Tagged(alignment: Alignment) | InheritedMember(name: string)

  /** `alignmentMap[key]`, with `None` standing for undefined. */
  function LookupAsWritten(key: string): Option<AlignmentValue> {
    if AlignmentTable(key).Some? then Some(Tagged(AlignmentTable(key).value))
    else if key in InheritedProperties then Some(InheritedMember(key))
    else None
  }

  /** `extractAlignment` as written: the first truthy lookup wins. */
  function ExtractAlignmentAsWritten(alignment: Option<string>): Option<AlignmentValue> {
    if alignment.None? || alignment.value == "" then None
    else
      var normalized := Normalize(alignment.value);
      var first := LookupAsWritten(normalized);
      if first.Some? then first else LookupAsWritten(Simplify(normalized))
  }

  /** The string "constructor" resolves to the inherited `Object` function, not to a tag. */
  lemma ConstructorIsNotAnAlignment(s: string)
    requires s == "constructor"
    ensures ExtractAlignmentAsWritten(Some(s)) == Some(InheritedMember(s))
    ensures ExtractAlignment(Some(s)) == None
  {
    ConstructorIsPlain(s);
    ConstructorIsNotAKey(s);
  }

  lemma ConstructorIsPlain(s: string)
    requires s == "constructor"
    ensures Normalize(s) == s && Simplify(s) == s
  {
    ConstructorIsPlainText(s);
    NormalizePlain(s);
    ConstructorKeepsModifiers(s);
  }

  lemma ConstructorIsPlainText(s: string)
    requires s == "constructor"
    ensures PlainText(s)
  {
    assert forall i :: 0 <= i < |s| ==> 'a' <= s[i] <= 'z';
  }

  lemma ConstructorKeepsModifiers(s: string)
    requires s == "constructor"
    ensures Simplify(s) == s
  {
    assert s[4] == 't' && s[6] == 'u';
    SimplifyUnchanged(s);
  }

  /** `simplified` is `normalized` itself when neither modifier can be present. */
  lemma SimplifyUnchanged(s: string)
    requires |s| < 7 || (s[|s| - 7] != '-' && s[6] != '-')
    ensures Simplify(s) == s
  {
    if |s| >= 7 {
      assert s[|s| - 7..][0] == s[|s| - 7] && "-center"[0] == '-' && "-middle"[0] == '-';
      assert s[..7][6] == s[6] && "center-"[6] == '-' && "middle-"[6] == '-';
    }
  }

  lemma ConstructorIsNotAKey(key: string)
    requires key == "constructor"
    ensures AlignmentTable(key) == None
  {
    forall j | 0 <= j < EntryCount ensures Entry(j).0 != key {
      assert key[3] == 's';
    }
    LookupMisses(key, 0);
  }

  /** Text already in normal form is left alone by normalisation. */
  lemma PlainIsNormal(s: string)
    ensures PlainText(s) ==> Normalize(s) == s
  {
    if PlainText(s) {
      NormalizePlain(s);
    }
  }

  lemma NormalizePlain(s: string)
    requires forall i :: 0 <= i < |s| ==> 'a' <= s[i] <= 'z' || s[i] == '-'
    ensures Normalize(s) == s
  {
    PlainIsTrimmed(s);
    PlainIsLower(s);
    PlainIsCollapsed(s);
  }

  lemma PlainIsTrimmed(s: string)
    requires PlainText(s)
    ensures Trim(s) == s
  {
    if s != [] {
      TrimUnchanged(s);
    }
  }

  lemma PlainIsLower(s: string)
    requires PlainText(s)
    ensures ToLowerCase(s) == s
  {
    LowerUnchanged(s);
  }

  lemma PlainIsCollapsed(s: string)
    requires PlainText(s)
    ensures CollapseSeparators(s) == s
  {
    CollapsePlain(s);
  }

  lemma {:induction false} CollapsePlain(s: string)
    requires forall i :: 0 <= i < |s| ==> !IsSeparator(s[i])
    ensures CollapseSeparators(s) == s
    decreases |s|
  {
    if s != [] {
      CollapsePlain(s[1..]);
    }
  }

  /** Apart from inherited names, the two readings of the table agree. */
  lemma AsWrittenAgreesOffThePrototype(alignment: Option<string>)
    requires alignment.Some? ==> Normalize(alignment.value) !in InheritedProperties
                                 && Simplify(Normalize(alignment.value)) !in InheritedProperties
    ensures ExtractAlignmentAsWritten(alignment) ==
            (if ExtractAlignment(alignment).Some?
             then Some(Tagged(ExtractAlignment(alignment).value)) else None)
  {
  }

  // ---------------------------------------------------------------------
  // Board records

  /** A `{ x?, y? }` record; each coordinate is absent or a JavaScript number. */
  datatype PointFields = PointFields(x: Option<JsNumber>, y: Option<JsNumber>)

  datatype BoardAnchorConfig = BoardAnchorConfig(position: Option<PointFields>, alignment: Option<string>)

  datatype AutoSizeConfig = AutoSizeConfig(
    anchorPosition: Option<PointFields>,
    anchorAlignment: Option<string>,
    boardAnchorPosition: Option<PointFields>,
    boardAnchorAlignment: Option<string>,
    boardAnchor: Option<BoardAnchorConfig>)

  /** `BoardWithAnchor`: the board fields the resolver reads. */
  datatype Board = Board(
    center: Option<PointFields>,
    width: Option<JsNumber>,
    height: Option<JsNumber>,
    anchorPosition: Option<PointFields>,
    anchorAlignment: Option<string>,
    boardAnchorPosition: Option<PointFields>,
    boardAnchorAlignment: Option<string>,
    autoSizeConfig: Option<AutoSizeConfig>)

  /** `isFiniteNumber` */
  predicate IsFiniteNumber(value: Option<JsNumber>) {
    value.Some? && IsFinite(value.value)
  }

  /** `pickPoint`: the candidate's coordinates when both are finite numbers. */
  function PickPoint(candidate: Option<PointFields>): (r: Option<Point>)
    ensures r.Some? <==> candidate.Some? && IsFiniteNumber(candidate.value.x) && IsFiniteNumber(candidate.value.y)
    ensures r.Some? ==> r.value == Point(candidate.value.x.value.value, candidate.value.y.value.value)
  {
    if candidate.None? then None
    else if !IsFiniteNumber(candidate.value.x) || !IsFiniteNumber(candidate.value.y) then None
    else Some(Point(candidate.value.x.value.value, candidate.value.y.value.value))
  }

  /** `cfg?.board_anchor?.position` and friends: a missing config yields a missing field. */
  function AutoBoardAnchor(board: Board): Option<BoardAnchorConfig> {
    if board.autoSizeConfig.Some? then board.autoSizeConfig.value.boardAnchor else None
  }

  /** `cfg?.board_anchor?.position` */
  function AutoAnchorPosition(b: Board): Option<PointFields> {
    var boardAnchor := AutoBoardAnchor(b);
    if boardAnchor.Some? then boardAnchor.value.position else None
  }

  /** `cfg?.board_anchor_position` */
  function ConfigBoardAnchorPosition(b: Board): Option<PointFields> {
    if b.autoSizeConfig.Some? then b.autoSizeConfig.value.boardAnchorPosition else None
  }

  /** `cfg?.anchor_position` */
  function ConfigAnchorPosition(b: Board): Option<PointFields> {
    if b.autoSizeConfig.Some? then b.autoSizeConfig.value.anchorPosition else None
  }

  /** `cfg?.board_anchor?.alignment` */
  function AutoAnchorAlignment(b: Board): Option<string> {
    var boardAnchor := AutoBoardAnchor(b);
    if boardAnchor.Some? then boardAnchor.value.alignment else None
  }

  /** `cfg?.board_anchor_alignment` */
  function ConfigBoardAnchorAlignment(b: Board): Option<string> {
    if b.autoSizeConfig.Some? then b.autoSizeConfig.value.boardAnchorAlignment else None
  }

  /** `cfg?.anchor_alignment` */
  function ConfigAnchorAlignment(b: Board): Option<string> {
    if b.autoSizeConfig.Some? then b.autoSizeConfig.value.anchorAlignment else None
  }

  /** `anchorCandidates`: the auto-size fields, then the board's own, then its center. */
  function AnchorCandidates(board: Option<Board>): (r: seq<Option<PointFields>>)
    ensures board.None? ==> r == []
    ensures board.Some? ==> |r| == 6
    ensures board.Some? ==> r[0] == AutoAnchorPosition(board.value)
                            && r[1] == ConfigBoardAnchorPosition(board.value)
                            && r[2] == ConfigAnchorPosition(board.value)
                            && r[3] == board.value.boardAnchorPosition
                            && r[4] == board.value.anchorPosition
                            && r[5] == board.value.center
  {
    if board.None? then []
    else
      var b := board.value;
      [AutoAnchorPosition(b), ConfigBoardAnchorPosition(b), ConfigAnchorPosition(b),
       b.boardAnchorPosition, b.anchorPosition, b.center]
  }

  /** `alignmentCandidates`: the auto-size fields, then the board's own. */
  function AlignmentCandidates(board: Option<Board>): (r: seq<Option<string>>)
    ensures board.None? ==> r == []
    ensures board.Some? ==> |r| == 5
    ensures board.Some? ==> r[0] == AutoAnchorAlignment(board.value)
                            && r[1] == ConfigBoardAnchorAlignment(board.value)
                            && r[2] == ConfigAnchorAlignment(board.value)
                            && r[3] == board.value.boardAnchorAlignment
                            && r[4] == board.value.anchorAlignment
  {
    if board.None? then []
    else
      var b := board.value;
      [AutoAnchorAlignment(b), ConfigBoardAnchorAlignment(b), ConfigAnchorAlignment(b),
       b.boardAnchorAlignment, b.anchorAlignment]
  }

  /** The first-match search of `boardAnchorPosition`'s loop. */
  function FirstPickedPoint(candidates: seq<Option<PointFields>>): (r: Option<Point>)
    ensures r.None? <==> forall i :: 0 <= i < |candidates| ==> PickPoint(candidates[i]).None?
    ensures r.Some? ==> exists i :: 0 <= i < |candidates| && PickPoint(candidates[i]) == r
                                    && forall j :: 0 <= j < i ==> PickPoint(candidates[j]).None?
  {
    if candidates == [] then None
    else
      var point := PickPoint(candidates[0]);
      if point.Some? then point
      else
        var r := FirstPickedPoint(candidates[1..]);
        assert forall i :: 1 <= i < |candidates| ==> candidates[i] == candidates[1..][i - 1];
        if r.Some? then
          var k :| 0 <= k < |candidates[1..]| && PickPoint(candidates[1..][k]) == r
                   && forall j :: 0 <= j < k ==> PickPoint(candidates[1..][j]).None?;
          assert PickPoint(candidates[k + 1]) == r;
          r
        else r
  }

  const DefaultAnchor: Point := Point(0.0, 0.0)

  /** `boardAnchorPosition` */
  function BoardAnchorPosition(board: Option<Board>): (r: Point)
    ensures (exists i :: 0 <= i < |AnchorCandidates(board)| && PickPoint(AnchorCandidates(board)[i]) == Some(r)
                         && forall j :: 0 <= j < i ==> PickPoint(AnchorCandidates(board)[j]).None?)
            || (r == DefaultAnchor && forall i :: 0 <= i < |AnchorCandidates(board)| ==> PickPoint(AnchorCandidates(board)[i]).None?)
  {
    var picked := FirstPickedPoint(AnchorCandidates(board));
    if picked.Some? then picked.value else DefaultAnchor
  }

  /** The first present result of a scan in order, the shape of both resolver loops. */
  function FirstSome<T(==)>(results: seq<Option<T>>): (r: Option<T>)
    ensures r.None? <==> forall i :: 0 <= i < |results| ==> results[i].None?
    ensures r.Some? ==> exists i :: 0 <= i < |results| && results[i] == r
                                    && forall j :: 0 <= j < i ==> results[j].None?
  {
    if results == [] then None
    else if results[0].Some? then results[0]
    else
      var r := FirstSome(results[1..]);
      assert forall i :: 1 <= i < |results| ==> results[i] == results[1..][i - 1];
      if r.Some? then
        var k :| 0 <= k < |results[1..]| && results[1..][k] == r
                 && forall j :: 0 <= j < k ==> results[1..][j].None?;
        assert results[k + 1] == r;
        r
      else r
  }

  /** The scan returns the result at the first position that has one. */
  lemma {:induction false} FirstSomeIs<T>(results: seq<Option<T>>, k: int)
    requires 0 <= k < |results| && results[k].Some?
    requires forall j :: 0 <= j < k ==> results[j].None?
    ensures FirstSome(results) == results[k]
  {
    if k > 0 {
      assert results[1..][k - 1] == results[k];
      FirstSomeIs(results[1..], k - 1);
    }
  }

  /** `extractAlignment` applied to each candidate, in order. */
  function Extractions(candidates: seq<Option<string>>): (r: seq<Option<Alignment>>)
    ensures |r| == |candidates|
    ensures forall i :: 0 <= i < |r| ==> r[i] == ExtractAlignment(candidates[i])
  {
    if candidates == [] then []
    else
      var rest := Extractions(candidates[1..]);
      assert forall i :: 1 <= i < |candidates| ==> candidates[i] == candidates[1..][i - 1];
      [ExtractAlignment(candidates[0])] + rest
  }

  /** The first-match search of `boardAnchorAlignment`'s loop. */
  function FirstExtracted(candidates: seq<Option<string>>): Option<Alignment> {
    FirstSome(Extractions(candidates))
  }

  /** The search finds nothing exactly when no candidate resolves. */
  lemma FirstExtractedNone(candidates: seq<Option<string>>)
    ensures FirstExtracted(candidates).None? <==> forall i :: 0 <= i < |candidates| ==> ExtractAlignment(candidates[i]).None?
  {
    var results := Extractions(candidates);
    assert forall i :: 0 <= i < |candidates| ==> results[i] == ExtractAlignment(candidates[i]);
  }

  /** What the search finds is the alignment of a candidate that resolves, after candidates that do not. */
  lemma FirstExtractedFound(candidates: seq<Option<string>>)
    requires FirstExtracted(candidates).Some?
    ensures exists i :: 0 <= i < |candidates| && ExtractAlignment(candidates[i]) == FirstExtracted(candidates)
                        && forall j :: 0 <= j < i ==> ExtractAlignment(candidates[j]).None?
  {
    var results := Extractions(candidates);
    var k :| 0 <= k < |results| && results[k] == FirstSome(results) && forall j :: 0 <= j < k ==> results[j].None?;
    assert ExtractAlignment(candidates[k]) == FirstExtracted(candidates);
    assert forall j :: 0 <= j < k ==> ExtractAlignment(candidates[j]).None? by {
      forall j | 0 <= j < k ensures ExtractAlignment(candidates[j]).None? {
        assert results[j] == ExtractAlignment(candidates[j]);
      }
    }
  }

  // ---------------------------------------------------------------------
  // Inference from geometry

  const Tolerance: real := 0.000001

  /** `approxEqual` with its default tolerance of 1e-6. */
  predicate ApproxEqual(a: real, b: real) {
    Abs(a - b) <= Tolerance
  }

  /** Two values are approximately equal when each lies within 1e-6 of the other. */
  lemma ApproxEqualWindow(a: real, b: real)
    ensures ApproxEqual(a, b) <==> b - Tolerance <= a <= b + Tolerance
    ensures ApproxEqual(a, b) <==> ApproxEqual(b, a)
  {
  }

  /** Where the anchor sits on one axis relative to the center. */
  datatype AxisPlacement = Middle | Low | High

  /**
   * The nested ternary of one axis: the delta `center - anchor` is near 0,
   * near +half (anchor on the low side: left or bottom) or near -half (high
   * side: right or top). A delta that is NaN or infinite (`None`) matches
   * none of them.
   */
  function Placement(delta: Option<real>, half: real): Option<AxisPlacement> {
    if delta.None? then None
    else if ApproxEqual(delta.value, 0.0) then Some(Middle)
    else if ApproxEqual(delta.value, half) then Some(Low)
    else if ApproxEqual(delta.value, -half) then Some(High)
    else None
  }

  /** The alignment named by a horizontal and a vertical placement. */
  function Combine(horizontal: AxisPlacement, vertical: AxisPlacement): Alignment {
    match (vertical, horizontal)
    case (Middle, Middle) => Center
    case (High, Middle) => Top
    case (Low, Middle) => Bottom
    case (Middle, Low) => Left
    case (Middle, High) => Right
    case (High, Low) => TopLeft
    case (High, High) => TopRight
    case (Low, Low) => BottomLeft
    case (Low, High) => BottomRight
  }

  /** `center.x - anchor.x` when the center coordinate is a finite number. */
  function Delta(centerCoordinate: Option<JsNumber>, anchorCoordinate: real): Option<real> {
    if IsFiniteNumber(centerCoordinate) then Some(centerCoordinate.value.value - anchorCoordinate) else None
  }

  /** `deriveAlignmentFromBoard` */
  function DeriveAlignmentFromBoard(board: Option<Board>, anchor: Point): (r: Option<Alignment>)
    ensures r.Some? ==> board.Some? && board.value.center.Some?
                        && IsFiniteNumber(board.value.width) && IsFiniteNumber(board.value.height)
    ensures r == Some(Center) ==>
              IsFiniteNumber(board.value.center.value.x) && IsFiniteNumber(board.value.center.value.y)
              && ApproxEqual(board.value.center.value.x.value.value - anchor.x, 0.0)
              && ApproxEqual(board.value.center.value.y.value.value - anchor.y, 0.0)
  {
    if board.None? || board.value.center.None? then None
    else
      var b := board.value;
      if !IsFiniteNumber(b.width) || !IsFiniteNumber(b.height) then None
      else
        var halfWidth := b.width.value.value / 2.0;
        var halfHeight := b.height.value.value / 2.0;
        var horizontal := Placement(Delta(b.center.value.x, anchor.x), halfWidth);
        var vertical := Placement(Delta(b.center.value.y, anchor.y), halfHeight);
        if horizontal.None? || vertical.None? then None
        else Some(Combine(horizontal.value, vertical.value))
  }

  /** `boardAnchorAlignment` */
  function BoardAnchorAlignment(board: Option<Board>): (r: Alignment)
    ensures (exists i :: 0 <= i < |AlignmentCandidates(board)| && ExtractAlignment(AlignmentCandidates(board)[i]) == Some(r)
                         && forall j :: 0 <= j < i ==> ExtractAlignment(AlignmentCandidates(board)[j]).None?)
            || ((forall i :: 0 <= i < |AlignmentCandidates(board)| ==> ExtractAlignment(AlignmentCandidates(board)[i]).None?)
                && (DeriveAlignmentFromBoard(board, BoardAnchorPosition(board)) == Some(r)
                    || (DeriveAlignmentFromBoard(board, BoardAnchorPosition(board)).None? && r == Center)))
  {
    FirstExtractedNone(AlignmentCandidates(board));
    var explicit := FirstExtracted(AlignmentCandidates(board));
    if explicit.Some? then FirstExtractedFound(AlignmentCandidates(board)); explicit.value
    else
      var derived := DeriveAlignmentFromBoard(board, BoardAnchorPosition(board));
      if derived.Some? then derived.value else Center
  }

  /** `boardAnchorAlignment` with the table read as written. */
  function BoardAnchorAlignmentAsWritten(board: Option<Board>): AlignmentValue {
    var explicit := FirstExtractedAsWritten(AlignmentCandidates(board));
    if explicit.Some? then explicit.value
    else
      var derived := DeriveAlignmentFromBoard(board, BoardAnchorPosition(board));
      if derived.Some? then Tagged(derived.value) else Tagged(Center)
  }

  /** `extractAlignment` as written applied to each candidate, in order. */
  function ExtractionsAsWritten(candidates: seq<Option<string>>): (r: seq<Option<AlignmentValue>>)
    ensures |r| == |candidates|
    ensures forall i :: 0 <= i < |r| ==> r[i] == ExtractAlignmentAsWritten(candidates[i])
  {
    if candidates == [] then []
    else
      var rest := ExtractionsAsWritten(candidates[1..]);
      assert forall i :: 1 <= i < |candidates| ==> candidates[i] == candidates[1..][i - 1];
      [ExtractAlignmentAsWritten(candidates[0])] + rest
  }

  function FirstExtractedAsWritten(candidates: seq<Option<string>>): Option<AlignmentValue> {
    FirstSome(ExtractionsAsWritten(candidates))
  }


  // ---------------------------------------------------------------------
  // Properties of normalisation

  /** Two strings that agree once lower-cased. */
  predicate SameIgnoringCase(a: string, b: string) {
    |a| == |b| && forall i :: 0 <= i < |a| ==> LowerChar(a[i]) == LowerChar(b[i])
  }

  lemma SameIgnoringCaseWhitespace(a: string, b: string, i: int)
    requires SameIgnoringCase(a, b) && 0 <= i < |a|
    ensures IsWhitespace(a[i]) <==> IsWhitespace(b[i])
  {
  }

  lemma {:induction false} TrimStartIgnoringCase(a: string, b: string)
    requires SameIgnoringCase(a, b)
    ensures SameIgnoringCase(TrimStart(a), TrimStart(b))
    decreases |a|
  {
    if a != [] {
      SameIgnoringCaseWhitespace(a, b, 0);
      if IsWhitespace(a[0]) {
        assert SameIgnoringCase(a[1..], b[1..]) by {
          forall i | 0 <= i < |a| - 1 ensures LowerChar(a[1..][i]) == LowerChar(b[1..][i]) {
            assert a[1..][i] == a[i + 1] && b[1..][i] == b[i + 1];
          }
        }
        TrimStartIgnoringCase(a[1..], b[1..]);
      }
    }
  }

  lemma {:induction false} TrimEndIgnoringCase(a: string, b: string)
    requires SameIgnoringCase(a, b)
    ensures SameIgnoringCase(TrimEnd(a), TrimEnd(b))
    decreases |a|
  {
    if a != [] {
      SameIgnoringCaseWhitespace(a, b, |a| - 1);
      if IsWhitespace(a[|a| - 1]) {
        TrimEndIgnoringCase(a[..|a| - 1], b[..|b| - 1]);
      }
    }
  }

  /** Alignment strings that differ only in letter case resolve alike. */
  lemma CaseDoesNotMatter(a: string, b: string)
    requires SameIgnoringCase(a, b)
    ensures ExtractAlignment(Some(a)) == ExtractAlignment(Some(b))
  {
    NormalizeIgnoresCase(a, b);
  }

  lemma NormalizeIgnoresCase(a: string, b: string)
    requires SameIgnoringCase(a, b)
    ensures Normalize(a) == Normalize(b)
  {
    TrimStartIgnoringCase(a, b);
    TrimEndIgnoringCase(TrimStart(a), TrimStart(b));
    assert ToLowerCase(Trim(a)) == ToLowerCase(Trim(b));
  }

  predicate AllWhitespace(w: string) {
    forall i :: 0 <= i < |w| ==> IsWhitespace(w[i])
  }

  lemma {:induction false} TrimStartPadding(w: string, s: string)
    requires AllWhitespace(w)
    requires s != [] && !IsWhitespace(s[0])
    ensures TrimStart(w + s) == s
    decreases |w|
  {
    if w == [] {
      assert w + s == s;
    } else {
      assert (w + s)[0] == w[0] && IsWhitespace(w[0]);
      assert (w + s)[1..] == w[1..] + s;
      assert AllWhitespace(w[1..]) by {
        forall i | 0 <= i < |w[1..]| ensures IsWhitespace(w[1..][i]) {
          assert w[1..][i] == w[i + 1];
        }
      }
      TrimStartPadding(w[1..], s);
    }
  }

  lemma {:induction false} TrimEndPadding(s: string, w: string)
    requires AllWhitespace(w)
    requires s != [] && !IsWhitespace(s[|s| - 1])
    ensures TrimEnd(s + w) == s
    decreases |w|
  {
    if w == [] {
      assert s + w == s;
    } else {
      assert (s + w)[..|s + w| - 1] == s + w[..|w| - 1];
      TrimEndPadding(s, w[..|w| - 1]);
    }
  }

  /** White space around an alignment string is ignored. */
  lemma PaddingDoesNotMatter(before: string, s: string, after: string)
    requires AllWhitespace(before) && AllWhitespace(after)
    requires s != [] && !IsWhitespace(s[0]) && !IsWhitespace(s[|s| - 1])
    ensures ExtractAlignment(Some(before + s + after)) == ExtractAlignment(Some(s))
  {
    TrimPadding(before, s, after);
    SameTrimSameAlignment(before + s + after, s);
  }

  lemma TrimPadding(before: string, s: string, after: string)
    requires AllWhitespace(before) && AllWhitespace(after)
    requires s != [] && !IsWhitespace(s[0]) && !IsWhitespace(s[|s| - 1])
    ensures Trim(before + s + after) == Trim(s)
  {
    assert before + s + after == before + (s + after);
    TrimStartPadding(before, s + after);
    TrimEndPadding(s, after);
    assert TrimStart(s) == s;
    assert TrimEnd(s) == s;
  }

  /** Two non-empty strings that trim to the same text resolve alike. */
  lemma SameTrimSameAlignment(a: string, b: string)
    requires a != "" && b != "" && Trim(a) == Trim(b)
    ensures ExtractAlignment(Some(a)) == ExtractAlignment(Some(b))
  {
    assert Normalize(a) == Normalize(b);
  }

  predicate NoSeparators(s: string) {
    forall i :: 0 <= i < |s| ==> !IsSeparator(s[i])
  }

  lemma {:induction false} DropSeparatorsPlain(c: char, y: string)
    requires IsSeparator(c) && (y == [] || !IsSeparator(y[0]))
    ensures DropSeparators([c] + y) == y
  {
    assert ([c] + y)[1..] == y;
  }

  /** A single `_` or white-space character between two plain words becomes one hyphen. */
  lemma {:induction false} CollapseOneSeparator(x: string, c: char, y: string)
    requires NoSeparators(x) && NoSeparators(y) && IsSeparator(c)
    ensures CollapseSeparators(x + [c] + y) == x + "-" + y
    decreases |x|
  {
    if x == [] {
      assert x + [c] + y == [c] + y;
      CollapseAfterSeparator(c, y);
    } else {
      var rest := x[1..] + [c] + y;
      assert x + [c] + y == [x[0]] + rest;
      CollapseOneSeparator(x[1..], c, y);
      CollapseKeepsWordChar(x[0], rest);
      assert x + "-" + y == [x[0]] + (x[1..] + "-" + y);
    }
  }

  /** A separator in front of a plain word becomes one hyphen. */
  lemma CollapseAfterSeparator(c: char, y: string)
    requires NoSeparators(y) && IsSeparator(c)
    ensures CollapseSeparators([c] + y) == "-" + y
  {
    DropSeparatorsPlain(c, y);
    CollapsePlain(y);
  }

  /** A character that is not a separator is copied as it is. */
  lemma CollapseKeepsWordChar(h: char, rest: string)
    requires !IsSeparator(h)
    ensures CollapseSeparators([h] + rest) == [h] + CollapseSeparators(rest)
  {
    assert ([h] + rest)[0] == h && ([h] + rest)[1..] == rest;
  }

  /** `"top_right"`, `"Top Right"` and `"top-right"` all resolve to top-right. */
  lemma SpellingsOfTopRight(s: string)
    requires s == "top_right" || s == "Top Right" || s == "top-right"
    ensures ExtractAlignment(Some(s)) == Some(TopRight)
  {
    var key := "top-right";
    TopRightIsAKey(key);
    if s == "top-right" {
      NormalizePlain(s);
      ResolvesThroughKey(s, key);
    } else if s == "top_right" {
      assert s == "top" + ['_'] + "right";
      TopRightJoined(s, '_');
      ResolvesThroughKey(s, key);
    } else {
      var spaced := "top right";
      assert spaced == "top" + [' '] + "right";
      TopRightJoined(spaced, ' ');
      ResolvesThroughKey(spaced, key);
      CapitalisedTopRight(s, spaced);
      CaseDoesNotMatter(s, spaced);
    }
  }

  lemma CapitalisedTopRight(s: string, t: string)
    requires s == "Top Right" && t == "top right"
    ensures SameIgnoringCase(s, t)
  {
    forall i | 0 <= i < |s| ensures LowerChar(s[i]) == LowerChar(t[i]) {
      if i != 0 && i != 4 {
        assert s[i] == t[i];
      }
    }
  }

  /** A string that normalises to a key resolves to that key's alignment. */
  lemma ResolvesThroughKey(s: string, key: string)
    requires s != "" && Normalize(s) == key && AlignmentTable(key).Some?
    ensures ExtractAlignment(Some(s)) == AlignmentTable(key)
  {
  }

  lemma TopRightIsAKey(key: string)
    requires key == "top-right"
    ensures AlignmentTable(key) == Some(TopRight)
  {
    forall j | 0 <= j < 35 ensures Entry(j).0 != key {
      assert |key| == 9;
    }
    LookupFindsFirst(key, 0, 35);
  }

  /** `"top_right"` and `"top right"` both normalise to `"top-right"`. */
  lemma TopRightJoined(s: string, c: char)
    requires c == '_' || c == ' '
    requires s == "top" + [c] + "right"
    ensures Normalize(s) == "top-right"
  {
    NormalizeJoined("top", c, "right");
  }

  predicate LowerWord(s: string) {
    s != [] && forall i :: 0 <= i < |s| ==> 'a' <= s[i] <= 'z'
  }

  /** Two lower-case words joined by `_` or a space normalise to the hyphenated pair. */
  lemma NormalizeJoined(x: string, c: char, y: string)
    requires LowerWord(x) && LowerWord(y) && (c == '_' || c == ' ')
    ensures Normalize(x + [c] + y) == x + "-" + y
  {
    var s := x + [c] + y;
    JoinedIsPlain(x, c, y);
    TrimUnchanged(s);
    LowerUnchanged(s);
    CollapseOneSeparator(x, c, y);
  }

  lemma JoinedIsPlain(x: string, c: char, y: string)
    requires LowerWord(x) && LowerWord(y) && (c == '_' || c == ' ')
    ensures var s := x + [c] + y;
            !IsWhitespace(s[0]) && !IsWhitespace(s[|s| - 1])
            && (forall i :: 0 <= i < |s| ==> !('A' <= s[i] <= 'Z'))
            && NoSeparators(x) && NoSeparators(y)
  {
    var s := x + [c] + y;
    assert s[0] == x[0] && s[|s| - 1] == y[|y| - 1];
    forall i | 0 <= i < |s| ensures !('A' <= s[i] <= 'Z') {
      if i < |x| { assert s[i] == x[i]; }
      else if i > |x| { assert s[i] == y[i - |x| - 1]; }
    }
  }

  /** `trim` leaves a string alone when it neither starts nor ends with white space. */
  lemma TrimUnchanged(s: string)
    requires s != [] && !IsWhitespace(s[0]) && !IsWhitespace(s[|s| - 1])
    ensures Trim(s) == s
  {
    assert TrimStart(s) == s;
  }

  /** `toLowerCase` leaves a string without capitals alone. */
  lemma LowerUnchanged(s: string)
    requires forall i :: 0 <= i < |s| ==> !('A' <= s[i] <= 'Z')
    ensures ToLowerCase(s) == s
  {
  }

  predicate PlainText(s: string) {
    forall i :: 0 <= i < |s| ==> 'a' <= s[i] <= 'z' || s[i] == '-'
  }

  /** A string already in normal form is looked up as it is, then simplified. */
  lemma ResolvesPlain(s: string, simplified: string)
    requires s != "" && PlainText(s) && Simplify(s) == simplified
    ensures ExtractAlignment(Some(s)) ==
            (if AlignmentTable(s).Some? then AlignmentTable(s) else AlignmentTable(simplified))
  {
    NormalizePlain(s);
  }

  /** Without its hyphen, `"topright"` is not recognised. */
  lemma RunTogetherIsUnknown(s: string)
    requires s == "topright"
    ensures ExtractAlignment(Some(s)) == None
  {
    RunTogetherFacts(s);
    ResolvesPlain(s, s);
  }

  lemma RunTogetherIsNotAKey(s: string)
    requires s == "topright"
    ensures AlignmentTable(s) == None
  {
    forall j | 0 <= j < EntryCount ensures Entry(j).0 != s {
      assert s[3] == 'r' && s[4] == 'i';
    }
    LookupMisses(s, 0);
  }

  lemma RunTogetherFacts(s: string)
    requires s == "topright"
    ensures PlainText(s) && Simplify(s) == s && AlignmentTable(s) == None
  {
    RunTogetherIsNotAKey(s);
    assert s[1] == 'o' && s[6] == 'h';
    SimplifyUnchanged(s);
  }

  /** A trailing modifier is dropped: `"left-center-middle"` resolves through `"left-center"`. */
  lemma TrailingModifierDropped(s: string)
    requires s == "left-center-middle"
    ensures ExtractAlignment(Some(s)) == Some(Left)
  {
    var t := TrailingModifierFacts(s);
    ResolvesPlain(s, t);
    LeftCenterIsAKey(t);
  }

  lemma TrailingModifiersAreNotAKey(s: string)
    requires s == "left-center-middle"
    ensures AlignmentTable(s) == None
  {
    forall j | 0 <= j < EntryCount ensures Entry(j).0 != s {
      assert |s| == 18 && s[0] == 'l';
    }
    LookupMisses(s, 0);
  }

  lemma TrailingModifierFacts(s: string) returns (t: string)
    requires s == "left-center-middle"
    ensures PlainText(s) && AlignmentTable(s) == None
    ensures t == "left-center" && Simplify(s) == t
  {
    TrailingModifiersAreNotAKey(s);
    t := TrailingModifierStripped(s);
  }

  lemma TrailingModifierStripped(s: string) returns (t: string)
    requires s == "left-center-middle"
    ensures t == "left-center" && Simplify(s) == t
  {
    assert EndsWith(s, "-middle");
    t := s[..|s| - 7];
    assert t == "left-center";
    assert !StartsWith(t, "center-") && !StartsWith(t, "middle-") by {
      assert t[0] == 'l';
    }
  }

  lemma LeftCenterIsAKey(key: string)
    requires key == "left-center"
    ensures AlignmentTable(key) == Some(Left)
  {
    forall j | 0 <= j < 16 ensures Entry(j).0 != key {
      assert |key| == 11 && key[0] == 'l';
    }
    LookupFindsFirst(key, 0, 16);
  }

  /** Both modifiers dropped: `"middle-top-left-center"` resolves through `"top-left"`. */
  lemma ModifiersOnBothEnds(s: string)
    requires s == "middle-top-left-center"
    ensures ExtractAlignment(Some(s)) == Some(TopLeft)
  {
    var u := BothModifierFacts(s);
    ResolvesPlain(s, u);
    TopLeftIsAKey(u);
  }

  lemma BothModifiersAreNotAKey(s: string)
    requires s == "middle-top-left-center"
    ensures AlignmentTable(s) == None
  {
    forall j | 0 <= j < EntryCount ensures Entry(j).0 != s {
      assert |s| == 22;
    }
    LookupMisses(s, 0);
  }

  lemma BothModifierFacts(s: string) returns (u: string)
    requires s == "middle-top-left-center"
    ensures PlainText(s) && AlignmentTable(s) == None
    ensures u == "top-left" && Simplify(s) == u
  {
    BothModifiersAreNotAKey(s);
    assert EndsWith(s, "-center");
    var t := s[..|s| - 7];
    assert t == "middle-top-left";
    assert StartsWith(t, "middle-");
    u := t[7..];
  }

  lemma TopLeftIsAKey(key: string)
    requires key == "top-left"
    ensures AlignmentTable(key) == Some(TopLeft)
  {
    forall j | 0 <= j < 25 ensures Entry(j).0 != key {
      assert |key| == 8;
    }
    LookupFindsFirst(key, 0, 25);
  }

  // ---------------------------------------------------------------------
  // Properties of the anchor position

  /** The search returns the pick of the first candidate that has one. */
  lemma {:induction false} FirstPickedPointIs(candidates: seq<Option<PointFields>>, k: int)
    requires 0 <= k < |candidates| && PickPoint(candidates[k]).Some?
    requires forall j :: 0 <= j < k ==> PickPoint(candidates[j]).None?
    ensures FirstPickedPoint(candidates) == PickPoint(candidates[k])
  {
    if k > 0 {
      assert PickPoint(candidates[0]).None?;
      assert candidates[1..][k - 1] == candidates[k];
      FirstPickedPointIs(candidates[1..], k - 1);
    }
  }

  /**
   * The order of precedence of the anchor fields: the auto-size config's
   * `board_anchor.position`, `board_anchor_position` and `anchor_position`,
   * then the board's own `board_anchor_position` and `anchor_position`, then
   * its center. The first with finite coordinates is the anchor; with none,
   * the origin.
   */
  lemma PositionPrecedence(b: Board)
    ensures BoardAnchorPosition(Some(b)) ==
            if PickPoint(AutoAnchorPosition(b)).Some? then PickPoint(AutoAnchorPosition(b)).value
            else if PickPoint(ConfigBoardAnchorPosition(b)).Some? then PickPoint(ConfigBoardAnchorPosition(b)).value
            else if PickPoint(ConfigAnchorPosition(b)).Some? then PickPoint(ConfigAnchorPosition(b)).value
            else if PickPoint(b.boardAnchorPosition).Some? then PickPoint(b.boardAnchorPosition).value
            else if PickPoint(b.anchorPosition).Some? then PickPoint(b.anchorPosition).value
            else if PickPoint(b.center).Some? then PickPoint(b.center).value
            else Point(0.0, 0.0)
  {
    var c := AnchorCandidates(Some(b));
    if PickPoint(c[0]).Some? {
      FirstPickedPointIs(c, 0);
    } else if PickPoint(c[1]).Some? {
      FirstPickedPointIs(c, 1);
    } else if PickPoint(c[2]).Some? {
      FirstPickedPointIs(c, 2);
    } else if PickPoint(c[3]).Some? {
      FirstPickedPointIs(c, 3);
    } else if PickPoint(c[4]).Some? {
      FirstPickedPointIs(c, 4);
    } else if PickPoint(c[5]).Some? {
      FirstPickedPointIs(c, 5);
    }
  }

  /** With no board, or no candidate with finite coordinates, the anchor is the origin. */
  lemma PositionDefaultsToOrigin(board: Option<Board>)
    requires forall c :: c in AnchorCandidates(board) ==> PickPoint(c).None?
    ensures BoardAnchorPosition(board) == Point(0.0, 0.0)
  {
  }

  /** Without explicit anchor fields the anchor is the board's center. */
  lemma PositionFallsBackToCenter(board: Board, x: real, y: real)
    requires board.center == Some(PointFields(Some(Finite(x)), Some(Finite(y))))
    requires forall i :: 0 <= i < 5 ==> PickPoint(AnchorCandidates(Some(board))[i]).None?
    ensures BoardAnchorPosition(Some(board)) == Point(x, y)
  {
    FirstPickedPointIs(AnchorCandidates(Some(board)), 5);
  }

  function FinitePoint(x: real, y: real): Option<PointFields> {
    Some(PointFields(Some(Finite(x)), Some(Finite(y))))
  }

  function PlainBoard(center: Option<PointFields>, width: real, height: real): Board {
    Board(center, Some(Finite(width)), Some(Finite(height)), None, None, None, None, None)
  }

  /** The two anchor-position examples: the center fallback and the auto-size anchor. */
  lemma PositionExamples()
    ensures BoardAnchorPosition(Some(PlainBoard(FinitePoint(3.0, -2.0), 10.0, 5.0))) == Point(3.0, -2.0)
    ensures BoardAnchorPosition(Some(PlainBoard(FinitePoint(0.0, 0.0), 20.0, 10.0).(
              autoSizeConfig := Some(AutoSizeConfig(None, None, FinitePoint(5.0, 7.0), None, None)))))
            == Point(5.0, 7.0)
  {
    var b1 := PlainBoard(FinitePoint(3.0, -2.0), 10.0, 5.0);
    FirstPickedPointIs(AnchorCandidates(Some(b1)), 5);
    var b2 := PlainBoard(FinitePoint(0.0, 0.0), 20.0, 10.0).(
                autoSizeConfig := Some(AutoSizeConfig(None, None, FinitePoint(5.0, 7.0), None, None)));
    FirstPickedPointIs(AnchorCandidates(Some(b2)), 1);
  }

  // ---------------------------------------------------------------------
  // Properties of the alignment

  /** The search returns the alignment of the first candidate that resolves. */
  lemma FirstExtractedIs(candidates: seq<Option<string>>, k: int)
    requires 0 <= k < |candidates| && ExtractAlignment(candidates[k]).Some?
    requires forall j :: 0 <= j < k ==> ExtractAlignment(candidates[j]).None?
    ensures FirstExtracted(candidates) == ExtractAlignment(candidates[k])
  {
    FirstSomeIs(Extractions(candidates), k);
  }

  /** An explicit alignment in any candidate field beats geometric inference. */
  lemma ExplicitAlignmentWins(board: Option<Board>, k: int)
    requires 0 <= k < |AlignmentCandidates(board)|
    requires ExtractAlignment(AlignmentCandidates(board)[k]).Some?
    requires forall j :: 0 <= j < k ==> ExtractAlignment(AlignmentCandidates(board)[j]).None?
    ensures BoardAnchorAlignment(board) == ExtractAlignment(AlignmentCandidates(board)[k]).value
  {
    FirstExtractedIs(AlignmentCandidates(board), k);
  }

  /**
   * The order of precedence of the alignment fields: the auto-size config's
   * `board_anchor.alignment`, `board_anchor_alignment` and `anchor_alignment`,
   * then the board's own `board_anchor_alignment` and `anchor_alignment`.
   * The first that resolves is the alignment; with none, the alignment
   * inferred from the anchor position, and "center" when inference fails.
   */
  lemma AlignmentPrecedence(b: Board)
    ensures BoardAnchorAlignment(Some(b)) ==
            if ExtractAlignment(AutoAnchorAlignment(b)).Some? then ExtractAlignment(AutoAnchorAlignment(b)).value
            else if ExtractAlignment(ConfigBoardAnchorAlignment(b)).Some?
            then ExtractAlignment(ConfigBoardAnchorAlignment(b)).value
            else if ExtractAlignment(ConfigAnchorAlignment(b)).Some? then ExtractAlignment(ConfigAnchorAlignment(b)).value
            else if ExtractAlignment(b.boardAnchorAlignment).Some? then ExtractAlignment(b.boardAnchorAlignment).value
            else if ExtractAlignment(b.anchorAlignment).Some? then ExtractAlignment(b.anchorAlignment).value
            else if DeriveAlignmentFromBoard(Some(b), BoardAnchorPosition(Some(b))).Some?
            then DeriveAlignmentFromBoard(Some(b), BoardAnchorPosition(Some(b))).value
            else Center
  {
    var c := AlignmentCandidates(Some(b));
    var e := Extractions(c);
    FirstOfFive(e);
    assert e[0] == ExtractAlignment(AutoAnchorAlignment(b)) && e[1] == ExtractAlignment(ConfigBoardAnchorAlignment(b))
           && e[2] == ExtractAlignment(ConfigAnchorAlignment(b)) && e[3] == ExtractAlignment(b.boardAnchorAlignment)
           && e[4] == ExtractAlignment(b.anchorAlignment);
  }

  /** A scan of five results returns the first present one. */
  lemma FirstOfFive<T>(e: seq<Option<T>>)
    requires |e| == 5
    ensures FirstSome(e) == if e[0].Some? then e[0] else if e[1].Some? then e[1] else if e[2].Some? then e[2]
                            else if e[3].Some? then e[3] else e[4]
  {
    if e[0].Some? {
      FirstSomeIs(e, 0);
    } else if e[1].Some? {
      FirstSomeIs(e, 1);
    } else if e[2].Some? {
      FirstSomeIs(e, 2);
    } else if e[3].Some? {
      FirstSomeIs(e, 3);
    } else if e[4].Some? {
      FirstSomeIs(e, 4);
    }
  }

  /** The anchor point an alignment names on a box of the given half-sizes. */
  function AnchorFor(a: Alignment, center: Point, halfWidth: real, halfHeight: real): Point {
    var x := if a in {Left, TopLeft, BottomLeft} then center.x - halfWidth
             else if a in {Right, TopRight, BottomRight} then center.x + halfWidth
             else center.x;
    var y := if a in {Bottom, BottomLeft, BottomRight} then center.y - halfHeight
             else if a in {Top, TopLeft, TopRight} then center.y + halfHeight
             else center.y;
    Point(x, y)
  }

  /** A board whose center and size are finite numbers. */
  predicate MeasuredBoard(b: Board, center: Point) {
    b.center == FinitePoint(center.x, center.y) && IsFiniteNumber(b.width) && IsFiniteNumber(b.height)
  }

  /**
   * Inference inverts `AnchorFor`: an anchor exactly at the point an
   * alignment names is read back as that alignment, provided the half-sizes
   * exceed the tolerance (otherwise "center" wins the first comparison).
   */
  lemma InferenceFindsNamedAnchor(b: Board, center: Point, a: Alignment)
    requires MeasuredBoard(b, center)
    requires Abs(b.width.value.value / 2.0) > Tolerance && Abs(b.height.value.value / 2.0) > Tolerance
    ensures DeriveAlignmentFromBoard(Some(b), AnchorFor(a, center, b.width.value.value / 2.0, b.height.value.value / 2.0))
            == Some(a)
  {
  }

  /** Conversely, an inferred alignment places the anchor within the tolerance of the named point. */
  lemma InferredAnchorIsNear(b: Board, center: Point, anchor: Point)
    requires MeasuredBoard(b, center)
    requires DeriveAlignmentFromBoard(Some(b), anchor).Some?
    ensures var named := AnchorFor(DeriveAlignmentFromBoard(Some(b), anchor).value, center,
                                   b.width.value.value / 2.0, b.height.value.value / 2.0);
            ApproxEqual(anchor.x, named.x) && ApproxEqual(anchor.y, named.y)
  {
  }

  /** Inference fails without a center, with a non-finite size, or with an anchor off the named points on either axis. */
  lemma InferenceFailures(b: Board, anchor: Point)
    ensures b.center.None? ==> DeriveAlignmentFromBoard(Some(b), anchor).None?
    ensures !IsFiniteNumber(b.width) || !IsFiniteNumber(b.height) ==> DeriveAlignmentFromBoard(Some(b), anchor).None?
    ensures forall center: Point ::
              MeasuredBoard(b, center)
              && !ApproxEqual(center.x - anchor.x, 0.0)
              && !ApproxEqual(center.x - anchor.x, b.width.value.value / 2.0)
              && !ApproxEqual(center.x - anchor.x, -(b.width.value.value / 2.0))
              ==> DeriveAlignmentFromBoard(Some(b), anchor).None?
    ensures forall center: Point ::
              MeasuredBoard(b, center)
              && !ApproxEqual(center.y - anchor.y, 0.0)
              && !ApproxEqual(center.y - anchor.y, b.height.value.value / 2.0)
              && !ApproxEqual(center.y - anchor.y, -(b.height.value.value / 2.0))
              ==> DeriveAlignmentFromBoard(Some(b), anchor).None?
  {
  }

  /** With no explicit alignment and a failed inference, the alignment is "center". */
  lemma FallsBackToCenter(board: Option<Board>)
    requires FirstExtracted(AlignmentCandidates(board)).None?
    requires DeriveAlignmentFromBoard(board, BoardAnchorPosition(board)).None?
    ensures BoardAnchorAlignment(board) == Center
  {
  }

  /** With no alignment field and no anchor field, the alignment is "center". */
  lemma DefaultAlignmentIsCenter(b: Board)
    requires forall c :: c in AlignmentCandidates(Some(b)) ==> ExtractAlignment(c).None?
    requires forall i :: 0 <= i < 5 ==> PickPoint(AnchorCandidates(Some(b))[i]).None?
    ensures BoardAnchorAlignment(Some(b)) == Center
  {
    FirstExtractedNone(AlignmentCandidates(Some(b)));
    var anchor := BoardAnchorPosition(Some(b));
    if PickPoint(b.center).Some? {
      PositionFallsBackToCenter(b, b.center.value.x.value.value, b.center.value.y.value.value);
    } else {
      assert forall c :: c in AnchorCandidates(Some(b)) ==> PickPoint(c).None?;
      PositionDefaultsToOrigin(Some(b));
    }
  }

  /** A board with no alignment field has no explicit alignment. */
  lemma NoAlignmentFields(b: Board)
    requires b.anchorAlignment.None? && b.boardAnchorAlignment.None? && b.autoSizeConfig.None?
    ensures FirstExtracted(AlignmentCandidates(Some(b))) == None
  {
    var c := AlignmentCandidates(Some(b));
    assert forall i :: 0 <= i < |c| ==> c[i].None?;
    FirstExtractedNone(c);
  }

  /** The lower-left example: center (10, 5), size 20 x 10, anchor at the origin. */
  lemma LowerLeftExample(b: Board)
    requires b == PlainBoard(FinitePoint(10.0, 5.0), 20.0, 10.0).(boardAnchorPosition := FinitePoint(0.0, 0.0))
    ensures BoardAnchorAlignment(Some(b)) == BottomLeft
  {
    var anchor := Point(0.0, 0.0);
    assert FirstExtracted(AlignmentCandidates(Some(b))) == None by {
      NoAlignmentFields(b);
    }
    assert BoardAnchorPosition(Some(b)) == anchor by {
      FirstPickedPointIs(AnchorCandidates(Some(b)), 3);
    }
    assert DeriveAlignmentFromBoard(Some(b), anchor) == Some(BottomLeft) by {
      InferenceFindsNamedAnchor(b, Point(10.0, 5.0), BottomLeft);
      assert AnchorFor(BottomLeft, Point(10.0, 5.0), 10.0, 5.0) == anchor;
    }
    AlignmentIsInferred(b, anchor);
  }

  /** The upper-right example: center at the origin, size 20 x 10, anchor at (10, 5). */
  lemma UpperRightExample(b: Board)
    requires b == PlainBoard(FinitePoint(0.0, 0.0), 20.0, 10.0).(boardAnchorPosition := FinitePoint(10.0, 5.0))
    ensures BoardAnchorAlignment(Some(b)) == TopRight
  {
    var anchor := Point(10.0, 5.0);
    assert FirstExtracted(AlignmentCandidates(Some(b))) == None by {
      NoAlignmentFields(b);
    }
    assert BoardAnchorPosition(Some(b)) == anchor by {
      UpperRightPosition(b);
    }
    UpperRightIsTopRight(b, anchor);
    AlignmentIsInferred(b, anchor);
  }

  lemma UpperRightIsTopRight(b: Board, anchor: Point)
    requires b == PlainBoard(FinitePoint(0.0, 0.0), 20.0, 10.0).(boardAnchorPosition := FinitePoint(10.0, 5.0))
    requires anchor == Point(10.0, 5.0)
    ensures DeriveAlignmentFromBoard(Some(b), anchor) == Some(TopRight)
  {
    InferenceFindsNamedAnchor(b, Point(0.0, 0.0), TopRight);
    assert AnchorFor(TopRight, Point(0.0, 0.0), 10.0, 5.0) == anchor;
  }

  lemma UpperRightPosition(b: Board)
    requires b == PlainBoard(FinitePoint(0.0, 0.0), 20.0, 10.0).(boardAnchorPosition := FinitePoint(10.0, 5.0))
    ensures BoardAnchorPosition(Some(b)) == Point(10.0, 5.0)
  {
    FirstPickedPointIs(AnchorCandidates(Some(b)), 3);
  }

  /** Without an explicit alignment, the alignment is the one inferred from the anchor position. */
  lemma AlignmentIsInferred(b: Board, anchor: Point)
    requires FirstExtracted(AlignmentCandidates(Some(b))) == None
    requires BoardAnchorPosition(Some(b)) == anchor
    requires DeriveAlignmentFromBoard(Some(b), anchor).Some?
    ensures BoardAnchorAlignment(Some(b)) == DeriveAlignmentFromBoard(Some(b), anchor).value
  {
  }

  /** The explicit-configuration example: `board_anchor_alignment: "top-right"` in the auto-size config. */
  lemma ExplicitExample(b: Board)
    requires b.autoSizeConfig.Some? && b.autoSizeConfig.value.boardAnchor.None?
    requires b.autoSizeConfig.value.boardAnchorAlignment == Some("top-right")
    ensures BoardAnchorAlignment(Some(b)) == TopRight
  {
    var c := AlignmentCandidates(Some(b));
    assert c[0] == None && c[1] == Some("top-right");
    SpellingsOfTopRight(c[1].value);
    assert ExtractAlignment(AlignmentCandidates(Some(b))[1]).Some?;
    assert forall j :: 0 <= j < 1 ==> ExtractAlignment(AlignmentCandidates(Some(b))[j]).None?;
    ExplicitAlignmentWins(Some(b), 1);
  }

  lemma FirstExtractedAsWrittenIs(candidates: seq<Option<string>>, k: int)
    requires 0 <= k < |candidates| && ExtractAlignmentAsWritten(candidates[k]).Some?
    requires forall j :: 0 <= j < k ==> ExtractAlignmentAsWritten(candidates[j]).None?
    ensures FirstExtractedAsWritten(candidates) == ExtractAlignmentAsWritten(candidates[k])
  {
    FirstSomeIs(ExtractionsAsWritten(candidates), k);
  }

  /** The as-written resolver returns the inherited `Object` function for "constructor". */
  lemma ConstructorAsWritten(b: Board)
    requires b.anchorAlignment == Some("constructor")
    requires forall i :: 0 <= i < 4 ==> ExtractAlignmentAsWritten(AlignmentCandidates(Some(b))[i]).None?
    ensures BoardAnchorAlignmentAsWritten(Some(b)) == InheritedMember("constructor")
  {
    var c := AlignmentCandidates(Some(b));
    ConstructorIsNotAnAlignment(c[4].value);
    FirstExtractedAsWrittenIs(c, 4);
  }
}
