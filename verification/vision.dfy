/** What the vision provider returns and how the controller turns it into
    ingredient labels: one lowercased label per detected object that carries at
    least one tag, taken from its first tag, in object order. */
module Vision {
  import opened Text
  import opened Optional

  /** An object found in the image; only the names of its tags matter here. */
  datatype DetectedObject = DetectedObject(tags: seq<string>)

  /** The provider's analysis: its object collection may be absent (null). */
  datatype AnalysisResult = AnalysisResult(objects: Option<seq<DetectedObject>>)

  predicate Tagged(o: DetectedObject) {
    |o.tags| > 0
  }

  /** The label an object contributes: its first tag, lowercased. */
  function LabelOf(o: DetectedObject): string
    requires Tagged(o)
  {
    Lower(o.tags[0])
  }

  /** Labels of a sequence of objects, built the way the loop builds them: the
      last object adds its label, if it has one, after those of the objects
      before it. There are no more labels than objects, and every label is
      lowercase. */
  function LabelsOf(objs: seq<DetectedObject>): (labels: seq<string>)
    ensures |labels| <= |objs|
    ensures forall k :: 0 <= k < |labels| ==> IsLower(labels[k])
    decreases |objs|
  {
    if |objs| == 0 then []
    else
      var last := objs[|objs| - 1];
      var before := LabelsOf(objs[..|objs| - 1]);
      if Tagged(last) then before + [LabelOf(last)] else before
  }

  /** The labels of a provider result: an absent object collection gives none,
      and otherwise there are at most as many labels as objects, all lowercase. */
  function ExtractLabels(result: AnalysisResult): (labels: seq<string>)
    ensures result.objects.None? ==> labels == []
    ensures result.objects.Some? ==> |labels| <= |result.objects.value|
    ensures forall k :: 0 <= k < |labels| ==> IsLower(labels[k])
  {
    match result.objects
    case None => []
    case Some(objs) => LabelsOf(objs)
  }

  /** The controller's collection loop: walk the objects in order and append
      the lowercased first tag of each one that has tags. It yields exactly the
      labels `ExtractLabels` defines. */
  method CollectLabels(result: AnalysisResult) returns (labels: seq<string>)
    ensures labels == ExtractLabels(result)
  {
    labels := [];
    if result.objects.Some? && |result.objects.value| > 0 {
      var objs := result.objects.value;
      var i := 0;
      while i < |objs|
        invariant 0 <= i <= |objs|
        invariant labels == LabelsOf(objs[..i])
      {
        assert objs[..i + 1][..i] == objs[..i];
        if Tagged(objs[i]) {
          labels := labels + [Lower(objs[i].tags[0])];
        }
        i := i + 1;
      }
      assert objs[..|objs|] == objs;
    }
  }

  /** The positions of the tagged objects, in increasing order: the objects the
      label list is made from. */
  ghost function TaggedPositions(objs: seq<DetectedObject>): (ps: seq<nat>)
    ensures forall k :: 0 <= k < |ps| ==> ps[k] < |objs| && Tagged(objs[ps[k]])
    ensures forall k, m :: 0 <= k < m < |ps| ==> ps[k] < ps[m]
    ensures forall i :: 0 <= i < |objs| && Tagged(objs[i]) ==> i in ps
    decreases |objs|
  {
    if |objs| == 0 then []
    else
      var init := objs[..|objs| - 1];
      var before := TaggedPositions(init);
      assert forall i :: 0 <= i < |init| ==> init[i] == objs[i];
      if Tagged(objs[|objs| - 1]) then before + [|objs| - 1] else before
  }

  /** Exactly one label per tagged object, in object order: the k-th label is
      the lowercased first tag of the k-th tagged object. */
  lemma {:induction false} LabelsFollowTaggedObjects(objs: seq<DetectedObject>)
    ensures |LabelsOf(objs)| == |TaggedPositions(objs)|
    ensures forall k :: 0 <= k < |TaggedPositions(objs)| ==>
      LabelsOf(objs)[k] == LabelOf(objs[TaggedPositions(objs)[k]])
    decreases |objs|
  {
    if |objs| > 0 {
      var init := objs[..|objs| - 1];
      LabelsFollowTaggedObjects(init);
      assert forall i :: 0 <= i < |init| ==> init[i] == objs[i];
    }
  }

  /** A string is a label iff it is the lowercased first tag of some tagged
      object: nothing is invented and no tagged object is skipped. */
  lemma LabelsAreFirstTags(objs: seq<DetectedObject>, l: string)
    ensures l in LabelsOf(objs) <==> exists i :: 0 <= i < |objs| && Tagged(objs[i]) && l == LabelOf(objs[i])
  {
    var labels, ps := LabelsOf(objs), TaggedPositions(objs);
    LabelsFollowTaggedObjects(objs);
    if l in labels {
      var k :| 0 <= k < |labels| && labels[k] == l;
      assert Tagged(objs[ps[k]]) && l == LabelOf(objs[ps[k]]);
    }
    if i :| 0 <= i < |objs| && Tagged(objs[i]) && l == LabelOf(objs[i]) {
      var k :| 0 <= k < |ps| && ps[k] == i;
      assert labels[k] == l;
    }
  }

  /** Objects without tags contribute nothing: dropping them all leaves the
      label list unchanged. */
  lemma {:induction false} UntaggedObjectsContributeNothing(objs: seq<DetectedObject>)
    requires forall i :: 0 <= i < |objs| ==> !Tagged(objs[i])
    ensures LabelsOf(objs) == []
    decreases |objs|
  {
    if |objs| > 0 {
      var init := objs[..|objs| - 1];
      assert forall i :: 0 <= i < |init| ==> init[i] == objs[i];
      UntaggedObjectsContributeNothing(init);
    }
  }

  /** Changing the case of the tags changes no label: objects whose first tags
      agree up to case give identical label lists. */
  lemma {:induction false} TagCaseIsIrrelevant(objs: seq<DetectedObject>, objs': seq<DetectedObject>)
    requires |objs| == |objs'|
    requires forall i :: 0 <= i < |objs| ==> Tagged(objs[i]) == Tagged(objs'[i])
    requires forall i :: 0 <= i < |objs| && Tagged(objs[i]) && Tagged(objs'[i]) ==>
      SameModuloCase(objs[i].tags[0], objs'[i].tags[0])
    ensures LabelsOf(objs) == LabelsOf(objs')
    decreases |objs|
  {
    if |objs| > 0 {
      var n := |objs| - 1;
      assert forall i :: 0 <= i < n ==> objs[..n][i] == objs[i] && objs'[..n][i] == objs'[i];
      TagCaseIsIrrelevant(objs[..n], objs'[..n]);
    }
  }

  /** Labels of a concatenation are the labels of each part, concatenated: the
      extraction treats each object independently of the others. */
  lemma {:induction false} LabelsOfConcat(a: seq<DetectedObject>, b: seq<DetectedObject>)
    ensures LabelsOf(a + b) == LabelsOf(a) + LabelsOf(b)
    decreases |b|
  {
    if |b| > 0 {
      var n := |b| - 1;
      assert (a + b)[..|a + b| - 1] == a + b[..n];
      assert (a + b)[|a + b| - 1] == b[n];
      LabelsOfConcat(a, b[..n]);
    } else {
      assert a + b == a;
    }
  }
}
