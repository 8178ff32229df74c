/**
 Conversion of one parsed VOC annotation into the labels of its YOLO label file.

 The XML document itself is not modelled: an `Annotation` is what the parser's
 `find`/`findall` calls yield, the image size read with `int(...)` and the objects
 in document order with their boxes read with `float(...)`. A label is the record
 that the script renders as one line `<class_id> <x> <y> <w> <h>`; the six-digit
 decimal rendering is not modelled.
 */
module Convert {
  import opened Geometry

  /** One `<object>` element: its class name and its `<bndbox>`. */
  datatype Obj = Obj(name: string, box: VocBox)

  /** One annotation document: image width and height, then its objects. */
  datatype Annotation = Annotation(width: int, height: int, objects: seq<Obj>)

  /** One line of a YOLO label file. */
  datatype Label = Label(classId: int, box: YoloBox)

  /** What converting one document leaves behind. The label file is opened for
      writing before the first object is looked at, so it exists either way:
      with the emitted labels, or empty when the first object of a known class
      raised ZeroDivisionError on a zero width or height. */
  datatype Conversion = Converted(labels: seq<Label>) | DivisionByZero

  /** The objects that yield a label, in document order: the positions of the
      objects whose class name the mapping knows. */
  function KnownIndices(objs: seq<Obj>, mapping: map<string, int>): (ks: seq<nat>)
    ensures forall k :: 0 <= k < |ks| ==> ks[k] < |objs| && objs[ks[k]].name in mapping
    ensures forall k, l :: 0 <= k < l < |ks| ==> ks[k] < ks[l]
    ensures forall i :: 0 <= i < |objs| && objs[i].name in mapping ==> i in ks
  {
    if |objs| == 0 then []
    else
      var n := |objs| - 1;
      var prefix := KnownIndices(objs[..n], mapping);
      if objs[n].name in mapping then prefix + [n] else prefix
  }

  /** Labels for the objects of one document, the loop of the conversion routine
      taken one object at a time: unknown class names are skipped, every known one
      appends the mapped id and the normalised box. The ensures say which labels
      come out, in terms of KnownIndices: one per known object, in document order,
      with the object's mapped id and normalised box; and that the division fails
      exactly when some known object meets a zero image side. */
  function ConvertObjects(objs: seq<Obj>, mapping: map<string, int>, w: int, h: int): (r: Conversion)
    ensures r.DivisionByZero? <==> (w == 0 || h == 0) && |KnownIndices(objs, mapping)| > 0
    ensures r.Converted? ==>
      var ks := KnownIndices(objs, mapping);
      && |r.labels| == |ks|
      && forall k :: 0 <= k < |ks| ==>
           r.labels[k] == Label(mapping[objs[ks[k]].name], Normalize(objs[ks[k]].box, w, h))
  {
    if |objs| == 0 then Converted([])
    else
      var n := |objs| - 1;
      var o := objs[n];
      match ConvertObjects(objs[..n], mapping, w, h)
      case DivisionByZero => DivisionByZero
      case Converted(labels) =>
        if o.name !in mapping then Converted(labels)
        else if w == 0 || h == 0 then DivisionByZero
        else Converted(labels + [Label(mapping[o.name], Normalize(o.box, w, h))])
  }

  /** Some object of the list has a class name the mapping knows. */
  predicate HasKnownObject(objs: seq<Obj>, mapping: map<string, int>)
  {
    exists i :: 0 <= i < |objs| && objs[i].name in mapping
  }

  /** Converting a whole document. It fails only through the division, and only
      when a known object meets a zero width or height; a document with no known
      object converts to an empty, but present, label file. */
  function ConvertAnnotation(a: Annotation, mapping: map<string, int>): (r: Conversion)
    ensures r.DivisionByZero? <==> (a.width == 0 || a.height == 0) && HasKnownObject(a.objects, mapping)
    ensures !HasKnownObject(a.objects, mapping) ==> r == Converted([])
    ensures r.Converted? ==> |r.labels| <= |a.objects|
  {
    var ks := KnownIndices(a.objects, mapping);
    assert HasKnownObject(a.objects, mapping) <==> |ks| > 0 by {
      if |ks| > 0 {
        assert a.objects[ks[0]].name in mapping;
      }
    }
    KnownIndicesBounded(a.objects, mapping);
    ConvertObjects(a.objects, mapping, a.width, a.height)
  }

  /** There are never more known positions than objects. */
  lemma {:induction false} KnownIndicesBounded(objs: seq<Obj>, mapping: map<string, int>)
    ensures |KnownIndices(objs, mapping)| <= |objs|
  {
    if |objs| > 0 {
      KnownIndicesBounded(objs[..|objs| - 1], mapping);
    }
  }

  /** Combines the results of two consecutive runs of the object loop: a division
      error in either one is the result, otherwise the labels are appended. */
  function AndThen(first: Conversion, second: Conversion): (r: Conversion)
    ensures r.DivisionByZero? <==> first.DivisionByZero? || second.DivisionByZero?
    ensures r.Converted? ==> r.labels == first.labels + second.labels
  {
    match first
    case DivisionByZero => DivisionByZero
    case Converted(a) =>
      match second
      case DivisionByZero => DivisionByZero
      case Converted(b) => Converted(a + b)
  }

  /** The object loop distributes over concatenation: converting `xs + ys` is
      converting `xs` and then `ys`, labels appended in order. */
  lemma {:induction false} ConvertObjectsAppend(xs: seq<Obj>, ys: seq<Obj>, mapping: map<string, int>, w: int, h: int)
    ensures ConvertObjects(xs + ys, mapping, w, h)
         == AndThen(ConvertObjects(xs, mapping, w, h), ConvertObjects(ys, mapping, w, h))
  {
    if |ys| == 0 {
      assert xs + ys == xs;
    } else {
      var n := |ys| - 1;
      var o := ys[n];
      assert (xs + ys)[..|xs + ys| - 1] == xs + ys[..n];
      assert (xs + ys)[|xs + ys| - 1] == o;
      ConvertObjectsAppend(xs, ys[..n], mapping, w, h);
      var a, b := ConvertObjects(xs, mapping, w, h), ConvertObjects(ys[..n], mapping, w, h);
      if a.Converted? && b.Converted? && o.name in mapping && w != 0 && h != 0 {
        var l := Label(mapping[o.name], Normalize(o.box, w, h));
        assert a.labels + b.labels + [l] == a.labels + (b.labels + [l]);
      }
    }
  }

  /** An object of unknown class contributes nothing and does not stop the
      objects after it: removing it anywhere leaves the result unchanged. */
  lemma UnknownObjectSkipped(xs: seq<Obj>, o: Obj, ys: seq<Obj>, mapping: map<string, int>, w: int, h: int)
    requires o.name !in mapping
    ensures ConvertObjects(xs + [o] + ys, mapping, w, h) == ConvertObjects(xs + ys, mapping, w, h)
  {
    ConvertObjectsAppend(xs + [o], ys, mapping, w, h);
    ConvertObjectsAppend(xs, [o], mapping, w, h);
    ConvertObjectsAppend(xs, ys, mapping, w, h);
    assert [o][..0] == [];
    var a := ConvertObjects(xs, mapping, w, h);
    if a.Converted? {
      assert a.labels + [] == a.labels;
    }
  }

  /** With a positive image size and every known object inside the image, every
      emitted label carries a mapped id and four values in [0, 1]. */
  lemma LabelsInUnitRange(a: Annotation, mapping: map<string, int>)
    requires a.width > 0 && a.height > 0
    requires forall i :: 0 <= i < |a.objects| && a.objects[i].name in mapping ==>
               InsideImage(a.objects[i].box, a.width, a.height)
    ensures ConvertAnnotation(a, mapping).Converted?
    ensures forall l :: l in ConvertAnnotation(a, mapping).labels ==>
              l.classId in mapping.Values && InUnitRange(l.box)
  {
    var r := ConvertAnnotation(a, mapping);
    var ks := KnownIndices(a.objects, mapping);
    forall l | l in r.labels
      ensures l.classId in mapping.Values && InUnitRange(l.box)
    {
      var k :| 0 <= k < |r.labels| && r.labels[k] == l;
      var o := a.objects[ks[k]];
      NormalizeInUnitRange(o.box, a.width, a.height);
    }
  }

  /** Every label of a converted document carries an id the mapping hands out. */
  lemma ConvertedIdsFromMapping(a: Annotation, mapping: map<string, int>)
    requires ConvertAnnotation(a, mapping).Converted?
    ensures forall k :: 0 <= k < |ConvertAnnotation(a, mapping).labels| ==>
              ConvertAnnotation(a, mapping).labels[k].classId in mapping.Values
  {
    var ks := KnownIndices(a.objects, mapping);
    var labels := ConvertAnnotation(a, mapping).labels;
    forall k | 0 <= k < |labels|
      ensures labels[k].classId in mapping.Values
    {
      assert labels[k].classId == mapping[a.objects[ks[k]].name];
    }
  }
}
