/**
  Row assembly: each headline, in order, becomes a `(headline, emotion)`
  row, and each row is written as a two-field document under the record
  schema.
 */
module Rows {
  import opened Classifier

  /** One assembled row: the headline unchanged and the label its polarity earned. */
  datatype Row = Row(headline: string, emotion: Emotion)

  /** A record written under the schema: field name to string value. */
  type Document = map<string, string>

  /** The record schema's field names, in column order. */
  const Schema: seq<string> := ["headline", "emotion"]

  /**
    The row built for one headline under the scorer `polarity`: the
    headline unchanged, with a label whose rank counts the cutoffs its
    polarity reaches.
   */
  function RowFor(headline: string, polarity: string -> real): (row: Row)
    ensures row.headline == headline
    ensures row.emotion.Rank() == CutoffsReached(polarity(headline))
  {
    Row(headline, Classify(polarity(headline)))
  }

  /**
    The rows for `headlines`, built as the loop does: the rows of all
    but the last headline, then the last headline's row appended.
   */
  function BuildRows(headlines: seq<string>, polarity: string -> real): (rows: seq<Row>)
    ensures |rows| == |headlines|
    ensures forall i :: 0 <= i < |headlines| ==>
      rows[i].headline == headlines[i] && rows[i].emotion == Classify(polarity(headlines[i]))
  {
    if |headlines| == 0 then []
    else
      var n := |headlines| - 1;
      BuildRows(headlines[..n], polarity) + [RowFor(headlines[n], polarity)]
  }

  /** The loop of the source, accumulating rows into `data` one headline at a time. */
  method AssembleRows(headlines: seq<string>, polarity: string -> real) returns (data: seq<Row>)
    ensures data == BuildRows(headlines, polarity)
  {
    data := [];
    for i := 0 to |headlines|
      invariant data == BuildRows(headlines[..i], polarity)
    {
      var headline := headlines[i];
      var emotion := Classify(polarity(headline));
      assert headlines[..i + 1][..i] == headlines[..i];
      data := data + [Row(headline, emotion)];
    }
    assert headlines[..|headlines|] == headlines;
  }

  /** The headline column of `rows`. */
  function HeadlineColumn(rows: seq<Row>): (hs: seq<string>)
    ensures |hs| == |rows|
    ensures forall i :: 0 <= i < |rows| ==> hs[i] == rows[i].headline
  {
    if |rows| == 0 then [] else [rows[0].headline] + HeadlineColumn(rows[1..])
  }

  /** Row building keeps the headlines exactly: same ones, same order, unchanged. */
  lemma HeadlinesPreserved(headlines: seq<string>, polarity: string -> real)
    ensures HeadlineColumn(BuildRows(headlines, polarity)) == headlines
  {
  }

  /** Rows are built independently: the rows of a concatenation are the concatenated rows. */
  lemma BuildRowsAppend(a: seq<string>, b: seq<string>, polarity: string -> real)
    ensures BuildRows(a + b, polarity) == BuildRows(a, polarity) + BuildRows(b, polarity)
  {
  }

  /** Equal headlines receive equal labels, wherever they appear. */
  lemma SameHeadlineSameEmotion(headlines: seq<string>, polarity: string -> real, i: nat, j: nat)
    requires i < |headlines| && j < |headlines|
    requires headlines[i] == headlines[j]
    ensures BuildRows(headlines, polarity)[i].emotion == BuildRows(headlines, polarity)[j].emotion
  {
  }

  /** A row as the record written under the schema: exactly the schema's two fields. */
  function ToDocument(row: Row): (doc: Document)
    ensures doc.Keys == set f | f in Schema
    ensures doc[Schema[0]] == row.headline
    ensures doc[Schema[1]] == row.emotion.Label()
  {
    map["headline" := row.headline, "emotion" := row.emotion.Label()]
  }

  /** Distinct rows give distinct schema records: the record loses nothing. */
  lemma ToDocumentInjective(a: Row, b: Row)
    ensures ToDocument(a) == ToDocument(b) <==> a == b
  {
    if ToDocument(a) == ToDocument(b) {
      assert ToDocument(a)["headline"] == ToDocument(b)["headline"];
      assert ToDocument(a)["emotion"] == ToDocument(b)["emotion"];
      LabelInjective(a.emotion, b.emotion);
    }
  }

  /** The schema records for `rows`, in row order. */
  function Documents(rows: seq<Row>): (docs: seq<Document>)
    ensures |docs| == |rows|
    ensures forall i :: 0 <= i < |rows| ==> docs[i] == ToDocument(rows[i])
  {
    if |rows| == 0 then [] else [ToDocument(rows[0])] + Documents(rows[1..])
  }
}
