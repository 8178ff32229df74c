/**
 Which directory entries are annotations, and the label file each one names.

 An entry is an annotation when its name ends in `.xml` (a case-sensitive test).
 Its label file is the entry's stem followed by `.txt`, where the stem is what
 POSIX `os.path.splitext` leaves of the name. For a name ending in `.xml` that is
 the name without those four characters, unless every character of the base name
 (the part after the last `/`) before the final dot is itself a dot: such a name
 (`.xml`, `..xml`, `dir/...xml`) has no extension and is its own stem.
 */
module Listing {

  const AnnotationSuffix: string := ".xml"
  const LabelSuffix: string := ".txt"

  /** The entry's name ends in `.xml`. */
  predicate IsAnnotationFile(name: string)
  {
    |name| >= |AnnotationSuffix| && name[|name| - |AnnotationSuffix|..] == AnnotationSuffix
  }

  /** Where the base name starts: just after the last `/`, or at 0 when there is none. */
  function BaseStart(name: string): (k: nat)
    ensures k <= |name|
    ensures k == 0 || name[k - 1] == '/'
    ensures forall j :: k <= j < |name| ==> name[j] != '/'
  {
    if |name| == 0 then 0
    else if name[|name| - 1] == '/' then |name|
    else BaseStart(name[..|name| - 1])
  }

  /** The base name holds a character other than `.` before position `end`;
      splitext only splits off an extension when it does. */
  predicate HasNonDotBefore(name: string, end: int)
  {
    exists k :: BaseStart(name) <= k < end && k < |name| && name[k] != '.'
  }

  /** An annotation name from which splitext removes `.xml`. */
  predicate HasExtension(name: string)
  {
    IsAnnotationFile(name) && HasNonDotBefore(name, |name| - |AnnotationSuffix|)
  }

  /** The stem `os.path.splitext` yields for an annotation name: the name less its
      `.xml` when it has an extension, the whole name otherwise. */
  function Stem(name: string): (s: string)
    requires IsAnnotationFile(name)
    ensures HasExtension(name) ==> s + AnnotationSuffix == name
    ensures !HasExtension(name) ==> s == name
  {
    var dot := |name| - |AnnotationSuffix|;
    if HasNonDotBefore(name, dot) then
      assert name == name[..dot] + name[dot..];
      name[..dot]
    else name
  }

  /** The label file an annotation entry is converted into. */
  function LabelName(name: string): (l: string)
    requires IsAnnotationFile(name)
  {
    Stem(name) + LabelSuffix
  }

  /** Appending a suffix without `/` leaves the base name where it was. */
  lemma {:induction false} BaseStartAppend(t: string, suffix: string)
    requires forall j :: 0 <= j < |suffix| ==> suffix[j] != '/'
    ensures BaseStart(t + suffix) == BaseStart(t)
    decreases |suffix|
  {
    if |suffix| > 0 {
      var n := |suffix| - 1;
      assert (t + suffix)[..|t + suffix| - 1] == t + suffix[..n];
      BaseStartAppend(t, suffix[..n]);
    } else {
      assert t + suffix == t;
    }
  }

  /** Naming round trip: a stem whose base name is not all dots gains `.xml` and
      loses it again, so its annotation entry yields the label `stem.txt`. */
  lemma StemRoundTrip(t: string)
    requires HasNonDotBefore(t, |t|)
    ensures IsAnnotationFile(t + AnnotationSuffix)
    ensures Stem(t + AnnotationSuffix) == t
    ensures LabelName(t + AnnotationSuffix) == t + LabelSuffix
  {
    var name := t + AnnotationSuffix;
    assert name[|name| - |AnnotationSuffix|..] == AnnotationSuffix;
    BaseStartAppend(t, AnnotationSuffix);
    var k :| BaseStart(t) <= k < |t| && t[k] != '.';
    assert name[k] == t[k];
    assert name[..|t|] == t;
  }

  /** Two annotation entries with extensions and the same label name are the same
      entry, so distinct such entries never write the same label file. */
  lemma LabelNameInjective(a: string, b: string)
    requires HasExtension(a) && HasExtension(b)
    requires LabelName(a) == LabelName(b)
    ensures a == b
  {
    assert Stem(a) == LabelName(a)[..|LabelName(a)| - |LabelSuffix|];
    assert Stem(b) == LabelName(b)[..|LabelName(b)| - |LabelSuffix|];
  }

  /** An annotation entry without extension keeps its `.xml` in the label name:
      `..xml` is converted into `..xml.txt`. */
  lemma DotOnlyNameKeepsSuffix()
    ensures IsAnnotationFile("..xml") && LabelName("..xml") == "..xml.txt"
  {
    assert BaseStart("..xml") == 0 by {
      assert forall j :: 0 <= j < 5 ==> "..xml"[j] != '/';
    }
    assert !HasNonDotBefore("..xml", 1);
  }
}
