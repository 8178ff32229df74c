/**
 The conversion run: walk the annotation directory's listing in the order given,
 convert every `.xml` entry, and write each result to its label file.

 The directory listing is a parameter (its order is whatever the filesystem
 reports). The parser's reading of each document is a map from entry name to
 `Annotation`; an `.xml` entry missing from it is one the parser rejects, which
 raises before the label file is opened. Neither exception is caught, so the
 first one ends the run. The files written are a map from label file name to
 its labels; writing a name again replaces the earlier contents.
 */
module Dataset {
  import opened Convert
  import opened Listing
  import ClassMap

  /** Parsed annotation documents, by directory entry name. */
  type Documents = map<string, Annotation>

  /** The exception that ended a run, with the entry being converted. */
  datatype Failure = Unparsable(entry: string) | ZeroDivision(entry: string)

  datatype Status = Completed | Aborted(failure: Failure)

  /** Label files written so far, and whether the run got to the end. */
  datatype RunResult = RunResult(written: map<string, seq<Label>>, status: Status)

  /** Converting entry `e` raises nothing: it is not an annotation, or it parses
      and its conversion does not divide by zero. */
  predicate Processed(e: string, docs: Documents, mapping: map<string, int>)
  {
    !IsAnnotationFile(e) || (e in docs && ConvertAnnotation(docs[e], mapping).Converted?)
  }

  /** Entry `j` is the first one whose conversion raises. */
  predicate FirstFailure(listing: seq<string>, docs: Documents, mapping: map<string, int>, j: int)
  {
    && 0 <= j < |listing|
    && !Processed(listing[j], docs, mapping)
    && forall i :: 0 <= i < j ==> Processed(listing[i], docs, mapping)
  }

  /** One iteration of the listing loop, on a run that has not failed yet. */
  function Step(written: map<string, seq<Label>>, e: string, docs: Documents, mapping: map<string, int>): RunResult
  {
    if !IsAnnotationFile(e) then RunResult(written, Completed)
    else if e !in docs then RunResult(written, Aborted(Unparsable(e)))
    else
      match ConvertAnnotation(docs[e], mapping)
      case Converted(labels) => RunResult(written[LabelName(e) := labels], Completed)
      case DivisionByZero => RunResult(written[LabelName(e) := []], Aborted(ZeroDivision(e)))
  }

  /** The listing loop over `listing`, starting from an empty label directory.
      Only annotation entries name files, and the run completes exactly when no
      entry raises. */
  function Run(listing: seq<string>, docs: Documents, mapping: map<string, int>): (r: RunResult)
    ensures forall key :: key in r.written ==>
              exists i :: 0 <= i < |listing| && IsAnnotationFile(listing[i]) && LabelName(listing[i]) == key
    ensures r.status.Completed? <==> forall i :: 0 <= i < |listing| ==> Processed(listing[i], docs, mapping)
  {
    if |listing| == 0 then RunResult(map[], Completed)
    else
      var n := |listing| - 1;
      var prev := Run(listing[..n], docs, mapping);
      assert forall i :: 0 <= i < n ==> listing[..n][i] == listing[i];
      if prev.status.Aborted? then prev
      else Step(prev.written, listing[n], docs, mapping)
  }

  /** A run that did not complete had a first raising entry. */
  lemma {:induction false} AbortedRunHasFirstFailure(listing: seq<string>, docs: Documents, mapping: map<string, int>)
    requires Run(listing, docs, mapping).status.Aborted?
    ensures exists j :: FirstFailure(listing, docs, mapping, j)
  {
    var n := |listing| - 1;
    var prefix := listing[..n];
    assert forall k :: 0 <= k < n ==> prefix[k] == listing[k];
    if Run(prefix, docs, mapping).status.Aborted? {
      AbortedRunHasFirstFailure(prefix, docs, mapping);
      var j :| FirstFailure(prefix, docs, mapping, j);
      assert FirstFailure(listing, docs, mapping, j);
    } else {
      assert FirstFailure(listing, docs, mapping, n);
    }
  }

  /** No later annotation entry than `i` is converted into the same label file. */
  predicate LastToName(listing: seq<string>, i: int)
    requires 0 <= i < |listing| && IsAnnotationFile(listing[i])
  {
    forall j :: i < j < |listing| && IsAnnotationFile(listing[j]) ==> LabelName(listing[j]) != LabelName(listing[i])
  }

  /** A completed run writes a label file for every annotation entry, even one
      with no object of a known class. */
  lemma {:induction false} RunWritesEveryAnnotation(listing: seq<string>, docs: Documents, mapping: map<string, int>)
    requires Run(listing, docs, mapping).status.Completed?
    ensures forall i :: 0 <= i < |listing| && IsAnnotationFile(listing[i]) ==>
              LabelName(listing[i]) in Run(listing, docs, mapping).written
  {
    if |listing| > 0 {
      var n := |listing| - 1;
      var prefix := listing[..n];
      assert forall i :: 0 <= i < n ==> prefix[i] == listing[i];
      var prev := Run(prefix, docs, mapping);
      assert prev.status.Completed?;
      RunWritesEveryAnnotation(prefix, docs, mapping);
      var r := Step(prev.written, listing[n], docs, mapping);
      assert Run(listing, docs, mapping) == r;
      assert prev.written.Keys <= r.written.Keys;
      assert IsAnnotationFile(listing[n]) ==> LabelName(listing[n]) in r.written;
    }
  }

  /** In a completed run, the label file of annotation entry `i` holds exactly the
      labels its document converts to, unless a later entry overwrote it. */
  lemma {:induction false} RunFileContents(listing: seq<string>, docs: Documents, mapping: map<string, int>, i: int)
    requires Run(listing, docs, mapping).status.Completed?
    requires 0 <= i < |listing| && IsAnnotationFile(listing[i]) && LastToName(listing, i)
    ensures listing[i] in docs
    ensures var written := Run(listing, docs, mapping).written;
            && LabelName(listing[i]) in written
            && written[LabelName(listing[i])] == ConvertAnnotation(docs[listing[i]], mapping).labels
  {
    assert Processed(listing[i], docs, mapping);
    var n := |listing| - 1;
    var prefix := listing[..n];
    assert forall k :: 0 <= k < n ==> prefix[k] == listing[k];
    var prev := Run(prefix, docs, mapping);
    assert prev.status.Completed?;
    var name := LabelName(listing[i]);
    if i < n {
      assert LastToName(prefix, i);
      RunFileContents(prefix, docs, mapping, i);
      assert IsAnnotationFile(listing[n]) ==> LabelName(listing[n]) != name;
      assert Run(listing, docs, mapping) == Step(prev.written, listing[n], docs, mapping);
    }
  }

  /** Once an entry raises, the entries after it are never looked at: the run
      over the whole listing is the run that ends with the failing entry. */
  lemma {:induction false} RunStopsAtFirstFailure(listing: seq<string>, docs: Documents, mapping: map<string, int>, j: int)
    requires FirstFailure(listing, docs, mapping, j)
    ensures Run(listing, docs, mapping) == Run(listing[..j + 1], docs, mapping)
  {
    var n := |listing| - 1;
    var prefix := listing[..n];
    assert forall k :: 0 <= k < n ==> prefix[k] == listing[k];
    if j < n {
      assert FirstFailure(prefix, docs, mapping, j);
      assert prefix[..j + 1] == listing[..j + 1];
      RunStopsAtFirstFailure(prefix, docs, mapping, j);
      assert !Processed(prefix[j], docs, mapping);
      assert Run(prefix, docs, mapping).status.Aborted?;
      assert Run(listing, docs, mapping) == Run(prefix, docs, mapping);
    } else {
      assert listing[..j + 1] == listing;
    }
  }

  /** How the run ends at its first raising entry. An unparsable document ends
      it before its label file is opened, so it leaves no file; a document that
      divides by zero leaves its label file present and empty, since the file was
      opened before the failing object. Nothing else changes. */
  lemma RunFailureLeavesBehind(listing: seq<string>, docs: Documents, mapping: map<string, int>, j: int)
    requires FirstFailure(listing, docs, mapping, j)
    ensures var r := Run(listing, docs, mapping);
            var before := Run(listing[..j], docs, mapping).written;
            && r.status == Aborted(if listing[j] in docs then ZeroDivision(listing[j]) else Unparsable(listing[j]))
            && (listing[j] in docs ==> r.written == before[LabelName(listing[j]) := []])
            && (listing[j] !in docs ==> r.written == before)
  {
    RunStopsAtFirstFailure(listing, docs, mapping, j);
    var upto := listing[..j + 1];
    assert upto[..j] == listing[..j];
    assert forall k :: 0 <= k < j ==> upto[k] == listing[k];
    assert Run(listing[..j], docs, mapping).status.Completed?;
  }

  /** The annotation entries of a listing, in listing order. */
  function AnnotationEntries(listing: seq<string>): (xs: seq<string>)
    ensures forall k :: 0 <= k < |xs| ==> IsAnnotationFile(xs[k])
  {
    if |listing| == 0 then []
    else
      var n := |listing| - 1;
      AnnotationEntries(listing[..n]) + (if IsAnnotationFile(listing[n]) then [listing[n]] else [])
  }

  /** Entries not ending in `.xml` are ignored: the run over a listing is the run
      over its annotation entries alone. */
  lemma {:induction false} RunIgnoresOtherEntries(listing: seq<string>, docs: Documents, mapping: map<string, int>)
    ensures Run(listing, docs, mapping) == Run(AnnotationEntries(listing), docs, mapping)
  {
    if |listing| > 0 {
      var n := |listing| - 1;
      var xs := AnnotationEntries(listing[..n]);
      RunIgnoresOtherEntries(listing[..n], docs, mapping);
      if IsAnnotationFile(listing[n]) {
        assert (xs + [listing[n]])[..|xs|] == xs;
      } else {
        assert xs + [] == xs;
      }
    }
  }

  /** For a listing as a directory yields it (no name twice) whose annotation
      names all have an extension, a completed run writes exactly one label file
      per annotation entry, `stem.txt`, holding that document's labels. */
  lemma RunOneFilePerAnnotation(listing: seq<string>, docs: Documents, mapping: map<string, int>)
    requires forall i, j :: 0 <= i < j < |listing| ==> listing[i] != listing[j]
    requires forall i :: 0 <= i < |listing| && IsAnnotationFile(listing[i]) ==> HasExtension(listing[i])
    requires Run(listing, docs, mapping).status.Completed?
    ensures var written := Run(listing, docs, mapping).written;
            && written.Keys == (set i | 0 <= i < |listing| && IsAnnotationFile(listing[i]) :: LabelName(listing[i]))
            && forall i :: 0 <= i < |listing| && IsAnnotationFile(listing[i]) ==>
                 listing[i] in docs && written[LabelName(listing[i])] == ConvertAnnotation(docs[listing[i]], mapping).labels
  {
    RunWritesEveryAnnotation(listing, docs, mapping);
    forall i | 0 <= i < |listing| && IsAnnotationFile(listing[i])
      ensures listing[i] in docs
      ensures Run(listing, docs, mapping).written[LabelName(listing[i])] == ConvertAnnotation(docs[listing[i]], mapping).labels
    {
      forall j | i < j < |listing| && IsAnnotationFile(listing[j])
        ensures LabelName(listing[j]) != LabelName(listing[i])
      {
        if LabelName(listing[j]) == LabelName(listing[i]) {
          LabelNameInjective(listing[j], listing[i]);
        }
      }
      RunFileContents(listing, docs, mapping, i);
    }
  }

  /** The script's run: this dataset's class table, inverted, over the listing. */
  function ConvertDataset(listing: seq<string>, docs: Documents): (r: RunResult)
    ensures forall key, k :: key in r.written && 0 <= k < |r.written[key]| ==> 0 <= r.written[key][k].classId < 11
  {
    var mapping := ClassMap.ClassMapping(ClassMap.Names);
    ClassMap.NamesMappingIdsInRange();
    RunLabelIdsFromMapping(listing, docs, mapping);
    Run(listing, docs, mapping)
  }

  /** Every label file a run writes holds only ids from the mapping. */
  predicate IdsFromMapping(written: map<string, seq<Label>>, mapping: map<string, int>)
  {
    forall key, k :: key in written && 0 <= k < |written[key]| ==> written[key][k].classId in mapping.Values
  }

  /** Every label a run writes carries an id from the mapping. */
  lemma {:induction false} RunLabelIdsFromMapping(listing: seq<string>, docs: Documents, mapping: map<string, int>)
    ensures IdsFromMapping(Run(listing, docs, mapping).written, mapping)
  {
    if |listing| > 0 {
      var n := |listing| - 1;
      var prev := Run(listing[..n], docs, mapping);
      RunLabelIdsFromMapping(listing[..n], docs, mapping);
      var e := listing[n];
      if prev.status.Completed? && IsAnnotationFile(e) && e in docs {
        var c := ConvertAnnotation(docs[e], mapping);
        var labels := if c.Converted? then c.labels else [];
        if c.Converted? {
          ConvertedIdsFromMapping(docs[e], mapping);
        }
        UpdateKeepsIdsFromMapping(prev.written, LabelName(e), labels, mapping);
        assert Run(listing, docs, mapping).written == prev.written[LabelName(e) := labels];
      }
    }
  }

  /** Writing a file whose ids come from the mapping keeps the property. */
  lemma UpdateKeepsIdsFromMapping(written: map<string, seq<Label>>, key: string, labels: seq<Label>, mapping: map<string, int>)
    requires IdsFromMapping(written, mapping)
    requires forall k :: 0 <= k < |labels| ==> labels[k].classId in mapping.Values
    ensures IdsFromMapping(written[key := labels], mapping)
  {
  }
}
