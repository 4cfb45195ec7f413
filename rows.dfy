/** Query result rows as the dashboard's data frames hold them, and the
    in-place normalisation of missing category labels. */
module Frame {

  datatype Option<+T> = None | Some(value: T)

  /** One row of a (label, value) aggregate query. The label column may be
      SQL NULL; the value is a COUNT(*) or a SUM of counts, hence a nat. */
  datatype Row = Row(category: Option<string>, value: nat)

  /** The display string written over missing labels. */
  const Sentinel: string := "NULL"

  /** A label as the frame's `astype(str)` renders it: a missing label reads "None". */
  function StrForm(lbl: Option<string>): string
  {
    match lbl
    case None => "None"
    case Some(s) => s
  }

  /** The label column of a result set, in query order. */
  function Labels(rows: seq<Row>): (ls: seq<Option<string>>)
    ensures |ls| == |rows|
  {
    seq(|rows|, i requires 0 <= i < |rows| => rows[i].category)
  }

  /** The value column of a result set, in query order. */
  function Values(rows: seq<Row>): (vs: seq<nat>)
    ensures |vs| == |rows|
  {
    seq(|rows|, i requires 0 <= i < |rows| => rows[i].value)
  }

  /** One label after normalisation: anything reading "None" becomes the sentinel. */
  function NormalizeLabel(lbl: Option<string>): Option<string>
  {
    if StrForm(lbl) == "None" then Some(Sentinel) else lbl
  }

  /** A label column after normalisation, position by position. */
  function Normalized(ls: seq<Option<string>>): (r: seq<Option<string>>)
    ensures |r| == |ls|
  {
    seq(|ls|, i requires 0 <= i < |ls| => NormalizeLabel(ls[i]))
  }

  /** Overwrites, in place, every label reading "None" with the sentinel. */
  method NormalizeInPlace(labels: array<Option<string>>)
    modifies labels
    ensures labels[..] == Normalized(old(labels[..]))
  {
    var i := 0;
    while i < labels.Length
      invariant 0 <= i <= labels.Length
      invariant forall j :: 0 <= j < i ==> labels[j] == NormalizeLabel(old(labels[j]))
      invariant forall j :: i <= j < labels.Length ==> labels[j] == old(labels[j])
    {
      if StrForm(labels[i]) == "None" {
        labels[i] := Some(Sentinel);
      }
      i := i + 1;
    }
  }

  /** Normalisation keeps length and order, and a label changes exactly when
      it reads "None" (a missing label or the literal string "None"); what it
      changes to is the sentinel. */
  lemma NormalizedChangesOnlyMissing(ls: seq<Option<string>>, i: nat)
    requires i < |ls|
    ensures |Normalized(ls)| == |ls|
    ensures Normalized(ls)[i] != ls[i] <==> StrForm(ls[i]) == "None"
    ensures StrForm(ls[i]) == "None" ==> Normalized(ls)[i] == Some(Sentinel)
  {
  }

  /** After normalisation no label is missing and none reads "None". */
  lemma NormalizedHasNoMissing(ls: seq<Option<string>>)
    ensures forall i :: 0 <= i < |ls| ==> Normalized(ls)[i].Some? && StrForm(Normalized(ls)[i]) != "None"
  {
  }

  /** Exactly the labels that equal the sentinel after normalisation are the
      ones that were missing, read "None", or were already "NULL". */
  lemma NormalizedSentinelRows(ls: seq<Option<string>>, i: nat)
    requires i < |ls|
    ensures Normalized(ls)[i] == Some(Sentinel) <==> StrForm(ls[i]) in {"None", Sentinel}
  {
  }
}
