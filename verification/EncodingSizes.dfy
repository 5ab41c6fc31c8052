/**
 Which encoding size a project expects, and what a check concludes from the sizes of its uploads.
 Sizes are listed by provider, one for each upload row, and are unknown until the data was seen.
 */
module EncodingSizes {
  import opened Wrappers

  /** The size that the linkage schema asks for, if it does, and the bounds of the deployment. */
  datatype Limits = Limits(schemaSize: Option<nat>, minSize: nat, maxSize: nat)

  /** The size that is demanded of each upload: the one recorded for the project, or else the one in its schema. */
  function Demanded(project: Option<nat>, limits: Limits): Option<nat> {
    if project.Some? then project else limits.schemaSize
  }

  /** An upload on its own is within the bounds, and has the size demanded if there is one. */
  predicate Accepts(limits: Limits, demanded: Option<nat>, size: nat) {
    limits.minSize <= size <= limits.maxSize && (demanded.None? || size == demanded.value)
  }

  /** The first size that is known and not zero; failing that, whatever the first upload has. */
  function Preferred(project: Option<nat>, schema: Option<nat>, first: Option<nat>): Option<nat> {
    if project.Some? && project.value != 0 then project
    else if schema.Some? && schema.value != 0 then schema
    else first
  }

  /** The sizes of all rows, in the order of providers. */
  function AllSizes(sizes: seq<seq<Option<nat>>>): seq<Option<nat>> {
    if sizes == [] then [] else sizes[0] + AllSizes(sizes[1..])
  }

  function FirstSize(sizes: seq<seq<Option<nat>>>): Option<nat> {
    if AllSizes(sizes) == [] then None else AllSizes(sizes)[0]
  }

  /** The size that all encodings of the project should have. */
  function Expected(sizes: seq<seq<Option<nat>>>, project: Option<nat>, limits: Limits): Option<nat> {
    Preferred(project, Demanded(project, limits), FirstSize(sizes))
  }

  predicate Uniform(sizes: seq<Option<nat>>, size: Option<nat>) {
    forall x | x in sizes :: x == size
  }

  /** The first upload row has this size, or none as yet. */
  ghost predicate StartsWith(sizes: seq<seq<Option<nat>>>, size: Option<nat>) {
    exists d | 0 <= d < |sizes| ::
      sizes[d] != [] && sizes[d][0] == size && forall e | 0 <= e < d :: sizes[e] == []
  }

  /**
   The size that is asked of all rows: the one recorded for the project; if there is none, the one in
   the schema; and the one in the first row, if that size is missing or zero.
   */
  ghost predicate Asked(sizes: seq<seq<Option<nat>>>, project: Option<nat>, limits: Limits, size: Option<nat>) {
    match project
    case Some(n) => if n > 0 then size == Some(n) else StartsWith(sizes, size)
    case None =>
      match limits.schemaSize
      case Some(n) => if n > 0 then size == Some(n) else StartsWith(sizes, size)
      case None => StartsWith(sizes, size)
  }

  ghost predicate HaveSize(sizes: seq<seq<Option<nat>>>, size: Option<nat>) {
    forall d, i | 0 <= d < |sizes| && 0 <= i < |sizes[d]| :: sizes[d][i] == size
  }

  ghost predicate AnyRow(sizes: seq<seq<Option<nat>>>) {
    exists d | 0 <= d < |sizes| :: sizes[d] != []
  }

  ghost predicate AllUniform(sizes: seq<seq<Option<nat>>>, size: Option<nat>) {
    forall d | 0 <= d < |sizes| :: Uniform(sizes[d], size)
  }

  /** There are uploads, and all have the size that is asked, within its bounds and a multiple of eight. */
  ghost predicate Fit(sizes: seq<seq<Option<nat>>>, project: Option<nat>, limits: Limits) {
    && AnyRow(sizes)
    && exists n: nat | Asked(sizes, project, limits, Some(n)) ::
         HaveSize(sizes, Some(n)) && limits.minSize <= n <= limits.maxSize && n % 8 == 0
  }

  /** There are uploads, and one of them does not have the size that is asked. */
  ghost predicate Deviates(sizes: seq<seq<Option<nat>>>, project: Option<nat>, limits: Limits) {
    AnyRow(sizes) && exists size | Asked(sizes, project, limits, size) :: !HaveSize(sizes, size)
  }

  // ----- The check before runs are queued -----

  datatype SizeCheck = SizesAgree | Mismatch(dp: nat) | OutOfBounds | NotWholeWords | Crash

  /** The first provider with an upload of another size. */
  function FirstOther(sizes: seq<seq<Option<nat>>>, size: Option<nat>): (r: Option<nat>)
    ensures r.None? <==> AllUniform(sizes, size)
    ensures r.Some? ==> r.value < |sizes| && !Uniform(sizes[r.value], size) && AllUniform(sizes[..r.value], size)
  {
    if sizes == [] then None
    else if !Uniform(sizes[0], size) then Some(0)
    else match FirstOther(sizes[1..], size)
         case None => None
         case Some(d) => Some(d + 1)
  }

  function Verdict(sizes: seq<seq<Option<nat>>>, project: Option<nat>, limits: Limits): SizeCheck {
    var expected := Expected(sizes, project, limits);
    var other := FirstOther(sizes, expected);
    if AllSizes(sizes) == [] then Crash
    else if other.Some? then Mismatch(other.value)
    else if expected.None? then Crash
    else if !(limits.minSize <= expected.value <= limits.maxSize) then OutOfBounds
    else if expected.value % 8 != 0 then NotWholeWords
    else SizesAgree
  }

  /** The size that the check sets for the project, if it sets one. */
  function Recorded(sizes: seq<seq<Option<nat>>>, project: Option<nat>, limits: Limits): Option<nat> {
    if project.Some? || Verdict(sizes, project, limits).Mismatch? then None else Expected(sizes, project, limits)
  }

  /** The provider of each row. */
  function Owners(sizes: seq<seq<Option<nat>>>, first: nat): seq<nat> {
    if sizes == [] then [] else seq(|sizes[0]|, i => first) + Owners(sizes[1..], first + 1)
  }

  /** The providers whose uploads the check marks as invalid, one after the other. */
  function Invalid(sizes: seq<seq<Option<nat>>>, verdict: SizeCheck): seq<nat> {
    match verdict
    case Mismatch(dp) => [dp]
    case OutOfBounds => Owners(sizes, 0)
    case _ => []
  }

  lemma {:induction false} FirstSizeStarts(sizes: seq<seq<Option<nat>>>)
    ensures AllSizes(sizes) != [] <==> AnyRow(sizes)
    ensures AnyRow(sizes) ==> StartsWith(sizes, FirstSize(sizes))
  {
    if sizes != [] {
      FirstSizeStarts(sizes[1..]);
      if sizes[0] != [] {
        assert StartsWith(sizes, sizes[0][0]);
      } else if AnyRow(sizes) {
        var d :| 0 <= d < |sizes| && sizes[d] != [];
        assert sizes[1..][d - 1] == sizes[d];
        var e :| 0 <= e < |sizes[1..]| && sizes[1..][e] != [] && sizes[1..][e][0] == FirstSize(sizes[1..])
                 && forall k | 0 <= k < e :: sizes[1..][k] == [];
        LaterStart(sizes, e);
      }
    }
  }

  lemma {:induction false} LaterStart(sizes: seq<seq<Option<nat>>>, e: nat)
    requires sizes != [] && sizes[0] == [] && e < |sizes[1..]| && sizes[1..][e] != []
    requires forall k | 0 <= k < e :: sizes[1..][k] == []
    ensures StartsWith(sizes, sizes[1..][e][0])
  {
    assert sizes[e + 1] == sizes[1..][e];
    forall k | 0 <= k < e + 1 ensures sizes[k] == [] {
      assert k > 0 ==> sizes[1..][k - 1] == sizes[k];
    }
  }

  lemma {:induction false} OneStart(sizes: seq<seq<Option<nat>>>, x: Option<nat>, y: Option<nat>)
    requires StartsWith(sizes, x) && StartsWith(sizes, y)
    ensures x == y
  {}

  /** When there is a row, exactly one size is asked. */
  lemma {:induction false} AskedIsExpected(sizes: seq<seq<Option<nat>>>, project: Option<nat>, limits: Limits,
                                           size: Option<nat>)
    requires AnyRow(sizes)
    ensures Asked(sizes, project, limits, size) <==> size == Expected(sizes, project, limits)
  {
    FirstSizeStarts(sizes);
    if StartsWith(sizes, size) {
      OneStart(sizes, size, FirstSize(sizes));
    }
  }

  lemma {:induction false} RecordedIsAsked(sizes: seq<seq<Option<nat>>>, limits: Limits)
    ensures AnyRow(sizes) ==> Asked(sizes, None, limits, Expected(sizes, None, limits))
    ensures AnyRow(sizes) <==> AllSizes(sizes) != []
  {
    FirstSizeStarts(sizes);
    if AnyRow(sizes) {
      AskedIsExpected(sizes, None, limits, Expected(sizes, None, limits));
    }
  }

  lemma {:induction false} HaveSizeIff(sizes: seq<seq<Option<nat>>>, size: Option<nat>)
    ensures HaveSize(sizes, size) <==> AllUniform(sizes, size)
  {
    if AllUniform(sizes, size) {
      forall d, i | 0 <= d < |sizes| && 0 <= i < |sizes[d]| ensures sizes[d][i] == size {
        assert Uniform(sizes[d], size) && sizes[d][i] in sizes[d];
      }
    }
  }

  /**
   All rows have the size that is asked, or one does not: the check agrees exactly in the first case,
   if that size is in order, and finds a mismatch exactly in the second.
   */
  lemma {:induction false} AgreeIffFit(sizes: seq<seq<Option<nat>>>, project: Option<nat>, limits: Limits)
    ensures Verdict(sizes, project, limits).SizesAgree? <==> Fit(sizes, project, limits)
    ensures Verdict(sizes, project, limits).Mismatch? <==> Deviates(sizes, project, limits)
  {
    FirstSizeStarts(sizes);
    if AnyRow(sizes) {
      var expected := Expected(sizes, project, limits);
      AskedIsExpected(sizes, project, limits, expected);
      HaveSizeIff(sizes, expected);
      forall size | Asked(sizes, project, limits, size) ensures size == expected {
        AskedIsExpected(sizes, project, limits, size);
      }
    }
  }

  /** The mismatch found is that of the first provider with such a row. */
  lemma {:induction false} MismatchIsFirst(sizes: seq<seq<Option<nat>>>, project: Option<nat>, limits: Limits,
                                           size: Option<nat>)
    requires Verdict(sizes, project, limits).Mismatch? && Asked(sizes, project, limits, size)
    ensures var d := Verdict(sizes, project, limits).dp;
            && d < |sizes| && HaveSize(sizes[..d], size)
            && exists i :: 0 <= i < |sizes[d]| && sizes[d][i] != size
  {
    FirstSizeStarts(sizes);
    AskedIsExpected(sizes, project, limits, size);
    var d := Verdict(sizes, project, limits).dp;
    HaveSizeIff(sizes[..d], size);
    var x :| x in sizes[d] && x != size;
  }

  lemma {:induction false} ExpectedFits(sizes: seq<seq<Option<nat>>>, project: Option<nat>, limits: Limits)
    requires Fit(sizes, project, limits)
    ensures Expected(sizes, project, limits).Some? && AnyRow(sizes)
    ensures HaveSize(sizes, Expected(sizes, project, limits))
  {
    var n: nat :| Asked(sizes, project, limits, Some(n)) && HaveSize(sizes, Some(n));
    AskedIsExpected(sizes, project, limits, Some(n));
  }

  lemma {:induction false} FirstOfAll(sizes: seq<seq<Option<nat>>>, d: nat)
    requires d < |sizes| && sizes[d] != []
    ensures AllSizes(sizes) != []
    ensures AllSizes(sizes)[0] in AllSizes(sizes)
  {
    if d > 0 {
      assert sizes[1..][d - 1] == sizes[d];
      FirstOfAll(sizes[1..], d - 1);
    }
  }

  lemma {:induction false} InOneOfThem(sizes: seq<seq<Option<nat>>>, x: Option<nat>) returns (d: nat)
    requires x in AllSizes(sizes)
    ensures d < |sizes| && x in sizes[d]
  {
    if x in sizes[0] {
      d := 0;
    } else {
      d := InOneOfThem(sizes[1..], x);
      assert sizes[1..][d] == sizes[d + 1];
      d := d + 1;
    }
  }

  /** When the size is out of bounds, every provider with a row is invalid. */
  lemma {:induction false} OwnersHaveRows(sizes: seq<seq<Option<nat>>>, first: nat, d: nat)
    ensures d in Owners(sizes, first) <==> first <= d < first + |sizes| && sizes[d - first] != []
  {
    if sizes != [] {
      OwnersHaveRows(sizes[1..], first + 1, d);
      var own := seq(|sizes[0]|, i => first);
      if sizes[0] != [] {
        assert own[0] == first;
      }
    }
  }

  /** When there is a row and all sizes are known, the check reaches a conclusion. */
  lemma {:induction false} KnownSizesNeverCrash(sizes: seq<seq<Option<nat>>>, project: Option<nat>, limits: Limits,
                                                d: nat)
    requires d < |sizes| && sizes[d] != []
    requires forall e | 0 <= e < |sizes| :: None !in sizes[e]
    ensures !Verdict(sizes, project, limits).Crash?
  {
    FirstOfAll(sizes, d);
    var e := InOneOfThem(sizes, AllSizes(sizes)[0]);
    assert AllSizes(sizes)[0] != None;
  }

  /** Setting the size of the project to the one expected leaves the expectation as it is. */
  lemma {:induction false} RecordingKeepsExpected(sizes: seq<seq<Option<nat>>>, project: Option<nat>, limits: Limits)
    requires Expected(sizes, project, limits).Some?
    ensures Expected(sizes, Expected(sizes, project, limits), limits) == Expected(sizes, project, limits)
  {}
}
