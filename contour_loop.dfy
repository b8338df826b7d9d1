/** The loop over the contours of one frame: each simplified outline is
    classified in turn, and every outline that gets a label has its text and
    its contour drawn on the frame, in contour order. */
module ContourLoop {
  import opened Geometry
  import opened ShapeClassifier

  /** One label drawn on the frame: the index of the contour it belongs to
      (the index drawContours is given) and the label itself. */
  datatype Annotation = Annotation(contour: nat, shape: Label)

  /** The label the decision block gives each outline. */
  function Labels(outlines: seq<Polygon>, circles: seq<Circle>): seq<Label>
    requires |outlines| == |circles|
  {
    seq(|outlines|, i requires 0 <= i < |outlines| => Classify(outlines[i], circles[i]))
  }

  /** The annotations drawn for the first n labels, in order. */
  function Annotations(labels: seq<Label>, n: nat): seq<Annotation>
    requires n <= |labels|
  {
    if n == 0 then []
    else Annotations(labels, n - 1) + (if labels[n - 1] == NoLabel then [] else [Annotation(n - 1, labels[n - 1])])
  }

  /** The contour loop. outlines[i] is what approxPolyDP returns for the i-th
      contour and circles[i] what minEnclosingCircle returns for it. */
  method AnnotateFrame(outlines: seq<Polygon>, circles: seq<Circle>) returns (notes: seq<Annotation>)
    requires |outlines| == |circles|
    ensures notes == Annotations(Labels(outlines, circles), |outlines|)
  {
    notes := [];
    var i := 0;
    while i < |outlines|
      invariant 0 <= i <= |outlines|
      invariant notes == Annotations(Labels(outlines, circles), i)
    {
      var shape := Classify(outlines[i], circles[i]);
      if shape != NoLabel {
        notes := notes + [Annotation(i, shape)];
      }
      i := i + 1;
    }
  }

  /** Every annotation belongs to one of the first n contours and carries
      the label that contour was given, never NoLabel. */
  lemma {:induction false} AnnotationsSound(labels: seq<Label>, n: nat)
    requires n <= |labels|
    ensures forall a :: a in Annotations(labels, n) ==>
              a.contour < n && a.shape != NoLabel && a.shape == labels[a.contour]
  {
    if n > 0 {
      AnnotationsSound(labels, n - 1);
    }
  }

  /** Every one of the first n contours that has a label is annotated with
      it. */
  lemma {:induction false} AnnotationsComplete(labels: seq<Label>, n: nat)
    requires n <= |labels|
    ensures forall i :: 0 <= i < n && labels[i] != NoLabel ==> Annotation(i, labels[i]) in Annotations(labels, n)
  {
    if n > 0 {
      AnnotationsComplete(labels, n - 1);
    }
  }

  /** Strictly increasing contour indices: no contour is annotated twice. */
  predicate InContourOrder(notes: seq<Annotation>) {
    forall j, k :: 0 <= j < k < |notes| ==> notes[j].contour < notes[k].contour
  }

  /** The annotations come in strictly increasing contour order. */
  lemma {:induction false} AnnotationsOrdered(labels: seq<Label>, n: nat)
    requires n <= |labels|
    ensures InContourOrder(Annotations(labels, n))
  {
    if n > 0 {
      AnnotationsOrdered(labels, n - 1);
      AnnotationsSound(labels, n - 1);
      var before, notes := Annotations(labels, n - 1), Annotations(labels, n);
      var added := if labels[n - 1] == NoLabel then [] else [Annotation(n - 1, labels[n - 1])];
      assert notes == before + added;
      forall j, k | 0 <= j < k < |notes|
        ensures notes[j].contour < notes[k].contour
      {
        assert notes[j] == before[j];
        if k < |before| {
          assert notes[k] == before[k];
          assert before[j].contour < before[k].contour;
        } else {
          assert before[j] in before;
          assert notes[k] == added[0];
          assert before[j].contour < n - 1;
        }
      }
    }
  }

  /** What the loop draws for a frame: exactly the outlines the decision
      block labels, each once, in contour order, with its own label. */
  lemma FrameAnnotations(outlines: seq<Polygon>, circles: seq<Circle>)
    requires |outlines| == |circles|
    ensures var notes := Annotations(Labels(outlines, circles), |outlines|);
            && (forall a :: a in notes ==>
                  a.contour < |outlines| && a.shape != NoLabel && a.shape == Classify(outlines[a.contour], circles[a.contour]))
            && (forall i :: 0 <= i < |outlines| && Classify(outlines[i], circles[i]) != NoLabel ==>
                  Annotation(i, Classify(outlines[i], circles[i])) in notes)
            && InContourOrder(notes)
  {
    var labels := Labels(outlines, circles);
    assert forall i :: 0 <= i < |outlines| ==> labels[i] == Classify(outlines[i], circles[i]);
    AnnotationsSound(labels, |outlines|);
    AnnotationsComplete(labels, |outlines|);
    AnnotationsOrdered(labels, |outlines|);
  }
}
