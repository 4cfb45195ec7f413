/** The two chart builders of the dashboard: the generic pie chart with an
    optional pulled-out biggest slice, and the juridical-form page that
    normalises missing forms and pulls out the biggest non-NULL form. */
module Charts {
  import opened Frame
  import opened Selection
  import opened Pull

  /** Why a chart is not produced: the data frame library raises. */
  datatype Error =
    | EmptyArgMax      // idxmax over a series with no rows
    | FilterNotScalar  // a group of more than one row makes groupby(...).filter's test a non-scalar

  datatype Result<T> = Ok(value: T) | Err(error: Error)

  /** What is handed to the pie trace: labels, values, and the pull list when
      one was built (no pull list means no slice is offset). */
  datatype Pie = Pie(labels: seq<Option<string>>, values: seq<nat>, pull: Option<seq<real>>)

  /** The offset the juridical-form page gives its biggest slice. */
  const JuridicalPullSize: real := 0.2

  /** `pull` is the mask that offsets, by `size`, the first maximum of the
      eligible values. */
  ghost predicate PullsFirstMax(pull: seq<real>, values: seq<nat>, eligible: seq<bool>, size: real)
    requires |values| == |eligible|
  {
    exists k: nat :: IsFirstMax(values, eligible, k) && pull == Mask(|values|, k, size)
  }

  /** No two rows carry the same label, so grouping by label gives one-row groups. */
  predicate Distinct(ls: seq<Option<string>>)
  {
    forall i, j :: 0 <= i < j < |ls| ==> ls[i] != ls[j]
  }

  /** The rows the `form != "NULL"` filter keeps. */
  function NonSentinel(ls: seq<Option<string>>): (e: seq<bool>)
    ensures |e| == |ls|
  {
    seq(|ls|, i requires 0 <= i < |ls| => ls[i] != Some(Sentinel))
  }

  /** The pie chart built from a result set: the labels and values in query
      order and, when asked for, a pull list offsetting the first biggest
      value; with no rows the biggest value does not exist and the build
      fails. */
  function PieChart(rows: seq<Row>, pullBiggest: bool := false, pullSize: real := 0.2): (r: Result<Pie>)
    ensures r.Err? <==> pullBiggest && |rows| == 0
    ensures r.Err? ==> r.error == EmptyArgMax
    ensures r.Ok? ==> r.value.labels == Labels(rows) && r.value.values == Values(rows)
    ensures r.Ok? ==> (r.value.pull.Some? <==> pullBiggest)
    ensures r.Ok? && pullBiggest ==>
      PullsFirstMax(r.value.pull.value, Values(rows), AllEligible(|rows|), pullSize)
  {
    if !pullBiggest then Ok(Pie(Labels(rows), Values(rows), None))
    else
      match IdxMax(Values(rows))
      case None => Err(EmptyArgMax)
      case Some(k) =>
        assert IsFirstMax(Values(rows), AllEligible(|rows|), k);
        Ok(Pie(Labels(rows), Values(rows), Some(Mask(|rows|, k, pullSize))))
  }

  /** Builds the pie chart of a result set, allocating the pull list and
      setting the slot of the biggest value. */
  method MakePieChart(rows: seq<Row>, pullBiggest: bool := false, pullSize: real := 0.2) returns (r: Result<Pie>)
    ensures r == PieChart(rows, pullBiggest, pullSize)
  {
    var labels, values := Labels(rows), Values(rows);
    if !pullBiggest {
      return Ok(Pie(labels, values, None));
    }
    var ind := IdxMax(values);
    if ind.None? {
      return Err(EmptyArgMax);
    }
    var pull := BuildPull(|rows|, ind.value, pullSize);
    r := Ok(Pie(labels, values, Some(pull[..])));
  }

  /** The juridical-form chart: labels normalised, order kept, and the first
      biggest count among the non-NULL rows pulled out by 0.2. It fails when
      two rows share a normalised label (the group filter raises) and
      otherwise when no non-NULL row is left (idxmax raises). */
  function JuridicalFormPie(rows: seq<Row>): (r: Result<Pie>)
    ensures r == Err(FilterNotScalar) <==> !Distinct(Normalized(Labels(rows)))
    ensures r == Err(EmptyArgMax) <==>
      Distinct(Normalized(Labels(rows))) &&
      forall i :: 0 <= i < |rows| ==> StrForm(rows[i].category) in {"None", Sentinel}
    ensures r.Ok? ==>
      r.value.labels == Normalized(Labels(rows)) && r.value.values == Values(rows) && r.value.pull.Some?
    ensures r.Ok? ==>
      PullsFirstMax(r.value.pull.value, Values(rows), NonSentinel(r.value.labels), JuridicalPullSize)
  {
    var labels := Normalized(Labels(rows));
    if !Distinct(labels) then Err(FilterNotScalar)
    else
      var eligible := NonSentinel(labels);
      assert forall i :: 0 <= i < |rows| ==>
        (!eligible[i] <==> StrForm(rows[i].category) in {"None", Sentinel}) by {
        forall i | 0 <= i < |rows|
          ensures !eligible[i] <==> StrForm(rows[i].category) in {"None", Sentinel}
        {
          NormalizedSentinelRows(Labels(rows), i);
        }
      }
      match IdxMaxWhere(Values(rows), eligible)
      case None => Err(EmptyArgMax)
      case Some(k) => Ok(Pie(labels, Values(rows), Some(Mask(|rows|, k, JuridicalPullSize))))
  }

  /** The juridical-form page: copy the form column, overwrite missing forms
      in place, choose the slice, allocate the pull list and set its slot. */
  method GetJuridicalForm(rows: seq<Row>) returns (r: Result<Pie>)
    ensures r == JuridicalFormPie(rows)
  {
    var forms := new Option<string>[|rows|](i requires 0 <= i < |rows| => rows[i].category);
    assert forms[..] == Labels(rows);
    NormalizeInPlace(forms);
    var labels := forms[..];
    if !Distinct(labels) {
      return Err(FilterNotScalar);
    }
    var ind := IdxMaxWhere(Values(rows), NonSentinel(labels));
    if ind.None? {
      return Err(EmptyArgMax);
    }
    var pull := BuildPull(|rows|, ind.value, JuridicalPullSize);
    r := Ok(Pie(labels, Values(rows), Some(pull[..])));
  }

  /** A pulled slice of the juridical-form chart is never a NULL row, and
      exactly one slice is pulled, at a position of the full row list. */
  lemma JuridicalPullsOneNonNull(rows: seq<Row>)
    requires JuridicalFormPie(rows).Ok?
    ensures exists k :: 0 <= k < |rows| && Pulled(JuridicalFormPie(rows).value.pull.value) == {k}
    ensures forall i :: 0 <= i < |rows| && JuridicalFormPie(rows).value.labels[i] == Some(Sentinel) ==>
      JuridicalFormPie(rows).value.pull.value[i] == 0.0
  {
    var p := JuridicalFormPie(rows).value;
    var k: nat :| IsFirstMax(p.values, NonSentinel(p.labels), k) && p.pull.value == Mask(|rows|, k, JuridicalPullSize);
    MaskShape(|rows|, k, JuridicalPullSize);
  }

  /** With the flag off no pull list is produced and nothing can fail. */
  lemma NoPullWhenFlagOff(rows: seq<Row>, pullSize: real)
    ensures PieChart(rows, false, pullSize) == Ok(Pie(Labels(rows), Values(rows), None))
  {
  }

  /** The status and enterprise-type pages call the builder with its default
      arguments, so their charts always build and never pull a slice. */
  lemma DefaultCallersNeverPull(rows: seq<Row>)
    ensures PieChart(rows) == Ok(Pie(Labels(rows), Values(rows), None))
  {
    NoPullWhenFlagOff(rows, 0.2);
  }

  /** With the flag on and a non-zero size, exactly one slice is pulled:
      one holding a maximum value, the first such. */
  lemma PieChartPullsOneMax(rows: seq<Row>, pullSize: real)
    requires |rows| > 0 && pullSize != 0.0
    ensures PieChart(rows, true, pullSize).Ok?
    ensures exists k :: (0 <= k < |rows| && Pulled(PieChart(rows, true, pullSize).value.pull.value) == {k} &&
      (forall j :: 0 <= j < |rows| ==> rows[j].value <= rows[k].value) &&
      (forall j :: 0 <= j < k ==> rows[j].value < rows[k].value))
  {
    var p := PieChart(rows, true, pullSize).value;
    var k: nat :| IsFirstMax(p.values, AllEligible(|rows|), k) && p.pull.value == Mask(|rows|, k, pullSize);
    MaskShape(|rows|, k, pullSize);
    forall j | 0 <= j < |rows| ensures rows[j].value <= rows[k].value {
      assert AllEligible(|rows|)[j];
    }
    forall j | 0 <= j < k ensures rows[j].value < rows[k].value {
      assert AllEligible(|rows|)[j];
    }
    assert Pulled(p.pull.value) == {k};
  }

  /** The juridical-form page on a typical result: the missing form reads
      "NULL", the order is kept, and the biggest form, SA, is pulled out. */
  lemma JuridicalFormScenario()
    ensures JuridicalFormPie([Row(Some("SA"), 120000), Row(Some("SPRL"), 80000), Row(None, 5000), Row(Some("others"), 30000)])
         == Ok(Pie([Some("SA"), Some("SPRL"), Some("NULL"), Some("others")],
                   [120000, 80000, 5000, 30000],
                   Some([0.2, 0.0, 0.0, 0.0])))
  {
    var rows := [Row(Some("SA"), 120000), Row(Some("SPRL"), 80000), Row(None, 5000), Row(Some("others"), 30000)];
    var labels := [Some("SA"), Some("SPRL"), Some("NULL"), Some("others")];
    assert Labels(rows) == [Some("SA"), Some("SPRL"), None, Some("others")];
    assert Normalized(Labels(rows)) == labels;
    assert Values(rows) == [120000, 80000, 5000, 30000];
    assert Distinct(labels) by {
      assert "SA" != "SPRL" && "SA" != "NULL" && "SA" != "others";
      assert "SPRL" != "NULL" && "SPRL" != "others" && "NULL" != "others";
    }
    assert NonSentinel(labels) == [true, true, false, true];
    IdxMaxWhereIff([120000, 80000, 5000, 30000], [true, true, false, true], 0);
    assert Mask(4, 0, JuridicalPullSize) == [0.2, 0.0, 0.0, 0.0];
  }

  /** Every form missing or reading "None": nothing is left to pull and the
      page fails. */
  lemma AllNullFails()
    ensures JuridicalFormPie([Row(None, 5)]) == Err(EmptyArgMax)
    ensures JuridicalFormPie([Row(Some("None"), 7)]) == Err(EmptyArgMax)
  {
    assert Labels([Row(Some("None"), 7)]) == [Some("None")];
    assert Normalized([Some("None")]) == [Some(Sentinel)];
  }

  /** A missing form next to a literal "NULL" form gives a two-row group,
      and the group filter raises before any slice is chosen. */
  lemma MissingBesideLiteralNullFails()
    ensures JuridicalFormPie([Row(None, 1), Row(Some("NULL"), 2), Row(Some("SA"), 3)]) == Err(FilterNotScalar)
  {
    var rows := [Row(None, 1), Row(Some("NULL"), 2), Row(Some("SA"), 3)];
    assert Labels(rows)[..2] == [None, Some("NULL")];
    assert Normalized(Labels(rows))[0] == Normalized(Labels(rows))[1];
  }
}
