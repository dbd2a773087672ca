/**
 The annotation dictionaries the gliff client builds (Gliff.create_xypoint,
 create_brush_stroke, create_spline, create_bounding_box, create_annotation),
 the emptiness test Gliff.is_empty_annotation, and the rewrite that
 Gliff._update_annotation_item applies to an annotation item's content.
 */
module Annotations {
  import opened JsonValue

  /** The ToolboxType literal. */
  datatype Toolbox = Paintbrush | SplineTool | BoundingBoxTool

  function ToolboxName(t: Toolbox): string {
    match t
    case Paintbrush => "paintbrush"
    case SplineTool => "spline"
    case BoundingBoxTool => "boundingBox"
  }

  /** The default space-time info: first slice and first time point. */
  const FirstSliceAndTime: Json := Object(map["z" := Num(0.0), "t" := Num(0.0)])

  /** create_brush_stroke's default brush. */
  const DefaultBrush: Json :=
    Object(map["radius" := Num(0.5), "type" := Str("paint"),
               "color" := Str("rgba(170, 0, 0, 0.5)"), "is3D" := Bool(false)])

  /** create_annotation's default spline: no points, open. */
  const EmptySpline: Json :=
    Object(map["coordinates" := Array([]), "spaceTimeInfo" := FirstSliceAndTime,
               "isClosed" := Bool(false)])

  /** create_annotation's default bounding box: both corners unset. */
  const EmptyBoundingBox: Json :=
    Object(map["coordinates" := Object(map["topLeft" := Object(map["x" := Null, "y" := Null]),
                                           "bottomRight" := Object(map["x" := Null, "y" := Null])]),
               "spaceTimeInfo" := FirstSliceAndTime])

  const SplinePath: seq<string> := ["spline", "coordinates"]
  const CornerPath: seq<string> := ["boundingBox", "coordinates", "topLeft", "x"]

  /** create_xypoint: the point {"x": x, "y": y}. */
  function CreateXYPoint(x: Json, y: Json): (p: Json)
    ensures p.Object? && p.fields.Keys == {"x", "y"}
    ensures Get(p, "x") == Some(x) && Get(p, "y") == Some(y)
  {
    Object(map["x" := x, "y" := y])
  }

  /** create_brush_stroke: the stroke's points, slice/time and brush. */
  function CreateBrushStroke(coordinates: seq<Json>, spaceTimeInfo: Json := FirstSliceAndTime,
                             brush: Json := DefaultBrush): (stroke: Json)
    ensures stroke.Object? && stroke.fields.Keys == {"coordinates", "spaceTimeInfo", "brush"}
    ensures Get(stroke, "coordinates") == Some(Array(coordinates))
    ensures Get(stroke, "spaceTimeInfo") == Some(spaceTimeInfo) && Get(stroke, "brush") == Some(brush)
  {
    Object(map["coordinates" := Array(coordinates), "spaceTimeInfo" := spaceTimeInfo, "brush" := brush])
  }

  /** create_spline: the spline's points, slice/time and whether it is closed. */
  function CreateSpline(coordinates: seq<Json>, spaceTimeInfo: Json := FirstSliceAndTime,
                        isClosed: Json := Bool(false)): (spline: Json)
    ensures spline.Object? && spline.fields.Keys == {"coordinates", "spaceTimeInfo", "isClosed"}
    ensures Get(spline, "coordinates") == Some(Array(coordinates))
    ensures Get(spline, "spaceTimeInfo") == Some(spaceTimeInfo) && Get(spline, "isClosed") == Some(isClosed)
  {
    Object(map["coordinates" := Array(coordinates), "spaceTimeInfo" := spaceTimeInfo, "isClosed" := isClosed])
  }

  /** create_bounding_box: the two corners under "coordinates", and slice/time. */
  function CreateBoundingBox(topLeft: Json, bottomRight: Json,
                             spaceTimeInfo: Json := FirstSliceAndTime): (box: Json)
    ensures box.Object? && box.fields.Keys == {"coordinates", "spaceTimeInfo"}
    ensures GetPath(box, ["coordinates", "topLeft"]) == Some(topLeft)
    ensures GetPath(box, ["coordinates", "bottomRight"]) == Some(bottomRight)
    ensures Get(box, "spaceTimeInfo") == Some(spaceTimeInfo)
  {
    Object(map["coordinates" := Object(map["topLeft" := topLeft, "bottomRight" := bottomRight]),
               "spaceTimeInfo" := spaceTimeInfo])
  }

  /** create_annotation: an annotation dict; with every default it is empty
      (see DefaultAnnotationIsEmpty). The spline, bounding box, strokes and
      parameters are Optional in the source, so they are any JSON value. */
  function CreateAnnotation(toolbox: Toolbox, labels: seq<string> := [], spline: Json := EmptySpline,
                            boundingBox: Json := EmptyBoundingBox, brushStrokes: Json := Array([]),
                            parameters: Json := Object(map[])): (a: Json)
    ensures a.Object?
    ensures a.fields.Keys == {"toolbox", "labels", "spline", "boundingBox", "brushStrokes", "parameters"}
    ensures Get(a, "toolbox") == Some(Str(ToolboxName(toolbox))) && Get(a, "labels") == Some(Strings(labels))
    ensures Get(a, "spline") == Some(spline) && Get(a, "boundingBox") == Some(boundingBox)
    ensures Get(a, "brushStrokes") == Some(brushStrokes) && Get(a, "parameters") == Some(parameters)
  {
    Object(map["toolbox" := Str(ToolboxName(toolbox)), "labels" := Strings(labels), "spline" := spline,
               "boundingBox" := boundingBox, "brushStrokes" := brushStrokes, "parameters" := parameters])
  }

  /** is_empty_annotation: the spline has no points, there are no brush
      strokes and the bounding box's top-left x is None. The three tests are
      joined with `&`, so all three lookups run and any failing one raises. */
  function IsEmptyAnnotation(a: Json): (r: Result<bool>)
    ensures r.Ok? <==> LenAt(a, SplinePath).Some? && LenAt(a, ["brushStrokes"]).Some?
                       && GetPath(a, CornerPath).Some?
    ensures r == Ok(true) <==> LenAt(a, SplinePath) == Some(0) && LenAt(a, ["brushStrokes"]) == Some(0)
                               && GetPath(a, CornerPath) == Some(Null)
  {
    match (LenAt(a, SplinePath), LenAt(a, ["brushStrokes"]), GetPath(a, CornerPath))
    case (Some(points), Some(strokes), Some(x)) => Ok(points == 0 && strokes == 0 && x == Null)
    case _ => Raised
  }

  /** An annotation built from create_annotation's defaults is empty, whatever
      its toolbox, labels and parameters. */
  lemma DefaultAnnotationIsEmpty(toolbox: Toolbox, labels: seq<string>, parameters: Json)
    ensures IsEmptyAnnotation(CreateAnnotation(toolbox, labels, parameters := parameters)) == Ok(true)
  {
    var a := CreateAnnotation(toolbox, labels, parameters := parameters);
    assert GetPath(a, SplinePath) == Some(Array([]));
    assert GetPath(a, CornerPath) == Some(Null);
  }

  /** An annotation assembled from the constructors is empty exactly when its
      spline has no points, it has no brush strokes and the top-left corner's x
      is None. */
  lemma BuiltAnnotationEmptiness(toolbox: Toolbox, labels: seq<string>, points: seq<Json>, strokes: seq<Json>,
                                 x: Json, y: Json, bottomRight: Json, parameters: Json)
    ensures IsEmptyAnnotation(CreateAnnotation(toolbox, labels, CreateSpline(points),
                                               CreateBoundingBox(CreateXYPoint(x, y), bottomRight),
                                               Array(strokes), parameters))
            == Ok(points == [] && strokes == [] && x == Null)
  {
    var a := CreateAnnotation(toolbox, labels, CreateSpline(points),
                              CreateBoundingBox(CreateXYPoint(x, y), bottomRight), Array(strokes), parameters);
    assert GetPath(a, SplinePath) == Some(Array(points));
    assert GetPath(a, ["brushStrokes"]) == Some(Array(strokes));
    assert GetPath(a, CornerPath) == Some(x);
  }

  /** An annotation holding one brush stroke is not empty, whatever the
      stroke's points: is_empty_annotation counts strokes, not their points. */
  lemma BrushStrokeFillsAnnotation(toolbox: Toolbox, labels: seq<string>, coordinates: seq<Json>)
    ensures IsEmptyAnnotation(CreateAnnotation(toolbox, labels, brushStrokes := Array([CreateBrushStroke(coordinates)])))
            == Ok(false)
  {
    var a := CreateAnnotation(toolbox, labels, brushStrokes := Array([CreateBrushStroke(coordinates)]));
    assert LenAt(a, ["brushStrokes"]) == Some(1);
    DefaultAnnotationIsEmpty(toolbox, labels, Object(map[]));
  }

  /** The content that Gliff._update_annotation_item writes back, as written:
      `len(prev) > 0 & is_empty_annotation(prev[-1])` parses as
      `len(prev) > (0 & ...)`, and `0 & b` is 0, so the test is `len(prev) > 0`
      once the right operand has been evaluated. Evaluating it reads `prev[-1]`
      (an IndexError on an empty list, a KeyError on a dict, a TypeError from
      is_empty_annotation on a str) and runs is_empty_annotation on it. */
  function RewrittenContent(prev: Json, annotations: seq<Json>): (r: Result<seq<Json>>)
    ensures r.Ok? <==> prev.Array? && |prev.items| > 0 && IsEmptyAnnotation(prev.items[|prev.items| - 1]).Ok?
    ensures r.Ok? ==> r.value == prev.items[..|prev.items| - 1] + annotations
  {
    if prev.Array? && |prev.items| > 0 then
      var last := prev.items[|prev.items| - 1];
      var _ :- IsEmptyAnnotation(last);
      var kept := prev.items[..|prev.items| - 1];
      Ok(kept + annotations)
    else
      Raised
  }

  /** The rewrite the comment on _update_annotation_item describes ("if the
      last annotation is empty, remove it"), i.e. the test written with `and`,
      which short-circuits when `len(prev)` is 0; unpacking an empty dict or
      str then contributes nothing. */
  function IntendedContent(prev: Json, annotations: seq<Json>): (r: Result<seq<Json>>)
    ensures r.Ok? <==> || prev == Object(map[]) || prev == Str("")
                       || (prev.Array? && (|prev.items| > 0 ==> IsEmptyAnnotation(prev.items[|prev.items| - 1]).Ok?))
  {
    if prev == Object(map[]) || prev == Str("") then Ok(annotations)
    else if !prev.Array? then Raised
    else if |prev.items| == 0 then Ok(annotations)
    else
      var emptyLast :- IsEmptyAnnotation(prev.items[|prev.items| - 1]);
      if emptyLast then Ok(prev.items[..|prev.items| - 1] + annotations) else Ok(prev.items + annotations)
  }

  /** _update_annotation_item's rewrite as written, step by step: the test
      reads and checks the last annotation, then the list is popped whenever
      it is not empty, and the new annotations are appended. */
  method RewriteContent(prev: Json, annotations: seq<Json>) returns (r: Result<seq<Json>>)
    ensures r == RewrittenContent(prev, annotations)
  {
    if !prev.Array? || |prev.items| == 0 {
      return Raised;
    }
    var kept := prev.items;
    var emptyLast := IsEmptyAnnotation(kept[|kept| - 1]);
    if emptyLast.Raised? {
      return Raised;
    }
    // `0 & emptyLast` is 0, so the pop does not depend on emptyLast.
    kept := kept[..|kept| - 1];
    return Ok(kept + annotations);
  }

  /** The intended rewrite loses no annotation that is not empty: every
      previous annotation except an empty last one is kept in place, and the
      new annotations follow. */
  lemma IntendedContentKeepsFilledAnnotations(prev: seq<Json>, annotations: seq<Json>)
    requires |prev| > 0 ==> IsEmptyAnnotation(prev[|prev| - 1]).Ok?
    ensures IntendedContent(Array(prev), annotations).Ok?
    ensures var r := IntendedContent(Array(prev), annotations).value;
            if |prev| > 0 && IsEmptyAnnotation(prev[|prev| - 1]) == Ok(true)
            then r == prev[..|prev| - 1] + annotations
            else r == prev + annotations
    ensures forall i | 0 <= i < |prev| && IsEmptyAnnotation(prev[i]) == Ok(false) ::
              IntendedContent(Array(prev), annotations).value[i] == prev[i]
  {
    var r := IntendedContent(Array(prev), annotations).value;
    forall i | 0 <= i < |prev| && IsEmptyAnnotation(prev[i]) == Ok(false)
      ensures r[i] == prev[i]
    {
      if i == |prev| - 1 {
        assert r == prev + annotations;
      }
    }
  }

  /** The code as written and the intended rewrite agree exactly when there
      is a last previous annotation and it is empty. */
  lemma RewriteAgreesWhenLastIsEmpty(prev: seq<Json>, annotations: seq<Json>)
    requires |prev| > 0 ==> IsEmptyAnnotation(prev[|prev| - 1]).Ok?
    ensures RewrittenContent(Array(prev), annotations) == IntendedContent(Array(prev), annotations)
            <==> |prev| > 0 && IsEmptyAnnotation(prev[|prev| - 1]) == Ok(true)
  {
  }

  /** A spline annotation with one point: not empty. */
  function FilledAnnotation(): Json {
    CreateAnnotation(SplineTool, spline := CreateSpline([CreateXYPoint(Num(1.0), Num(2.0))]))
  }

  /** Counterexample to the comment on _update_annotation_item: an item
      holding one annotation that is not empty, updated with no new
      annotations, loses that annotation. */
  lemma PrecedenceDropsFilledAnnotation()
    ensures IsEmptyAnnotation(FilledAnnotation()) == Ok(false)
    ensures RewrittenContent(Array([FilledAnnotation()]), []) == Ok([])
    ensures IntendedContent(Array([FilledAnnotation()]), []) == Ok([FilledAnnotation()])
  {
    BuiltAnnotationEmptiness(SplineTool, [], [CreateXYPoint(Num(1.0), Num(2.0))], [],
                             Null, Null, CreateXYPoint(Null, Null), Object(map[]));
    assert CreateXYPoint(Null, Null) == Object(map["x" := Null, "y" := Null]);
    assert CreateBoundingBox(CreateXYPoint(Null, Null), CreateXYPoint(Null, Null)) == EmptyBoundingBox;
    assert [FilledAnnotation()] + [] == [FilledAnnotation()];
  }

  /** Counterexample: an annotation item whose content is the empty list (as
      _create_annotation_item writes when given no annotations) cannot be
      updated at all, because `prev[-1]` is evaluated. */
  lemma PrecedenceRaisesOnEmptyItem(annotations: seq<Json>)
    ensures RewrittenContent(Array([]), annotations) == Raised
    ensures IntendedContent(Array([]), annotations) == Ok(annotations)
  {
  }
}
