// The sequential body of the result writer: for every finished record, in
// the order the records arrive, one output line, preceded by the header
// line when headers are asked for. The loop is written over any record type
// with the header text and the per-record rendering as parameters; the
// prober's own records use Sites.Header and Sites.Line.
module Writer {
  import opened Sites

  /** One rendered line per record, in arrival order. */
  function Lines<R>(results: seq<R>, line: R -> string): (lines: seq<string>)
    ensures |lines| == |results|
  {
    if results == [] then [] else [line(results[0])] + Lines(results[1..], line)
  }

  /** The k-th line is the k-th record's. */
  lemma {:induction false} LinesAt<R>(results: seq<R>, line: R -> string, k: nat)
    requires k < |results|
    ensures Lines(results, line)[k] == line(results[k])
  {
    if k > 0 {
      LinesAt(results[1..], line, k - 1);
    }
  }

  /** One more record adds its line at the end and changes none before it. */
  lemma {:induction false} LinesSnoc<R>(rs: seq<R>, x: R, line: R -> string)
    ensures Lines(rs + [x], line) == Lines(rs, line) + [line(x)]
  {
    if rs != [] {
      LinesSnoc(rs[1..], x, line);
      assert (rs + [x])[1..] == rs[1..] + [x];
    }
  }

  /** Whether the header line is printed: headers are on and a record arrived. */
  predicate HeaderShown<R>(results: seq<R>, fields: bool)
  {
    fields && |results| > 0
  }

  /** What the writer prints for the records it receives. */
  function Output<R>(results: seq<R>, fields: bool, header: string, line: R -> string): seq<string>
  {
    (if HeaderShown(results, fields) then [header] else []) + Lines(results, line)
  }

  /** writer: a loop over the arriving records that prints the header before
    * the first one when `fields` is set, then the record itself. */
  method Emit<R>(results: seq<R>, fields: bool, header: string, line: R -> string) returns (out: seq<string>)
    ensures out == Output(results, fields, header, line)
  {
    var first := true;
    out := [];
    var i := 0;
    while i < |results|
      invariant 0 <= i <= |results|
      invariant first == !HeaderShown(results[..i], fields)
      invariant out == Output(results[..i], fields, header, line)
    {
      if fields && first {
        out := out + [header];
        first := false;
      }
      out := out + [line(results[i])];
      assert results[..i + 1] == results[..i] + [results[i]];
      LinesSnoc(results[..i], results[i], line);
      i := i + 1;
    }
    assert results[..i] == results;
  }

  /** The header comes first when shown, then exactly one line per record, in arrival order. */
  lemma OutputLayout<R>(results: seq<R>, fields: bool, header: string, line: R -> string)
    ensures var out := Output(results, fields, header, line);
      var skip := if HeaderShown(results, fields) then 1 else 0;
      && |out| == |results| + skip
      && (HeaderShown(results, fields) ==> out[0] == header)
      && forall k :: 0 <= k < |results| ==> out[skip + k] == line(results[k])
  {
    forall k | 0 <= k < |results| {
      LinesAt(results, line, k);
    }
  }

  /** When no record renders as the header, the header is exactly the first
    * line if shown, and no other line is ever the header. */
  lemma HeaderOnlyFirst<R>(results: seq<R>, fields: bool, header: string, line: R -> string)
    requires forall k :: 0 <= k < |results| ==> line(results[k]) != header
    ensures forall i :: 0 <= i < |Output(results, fields, header, line)| ==>
      (Output(results, fields, header, line)[i] == header <==> i == 0 && HeaderShown(results, fields))
  {
    var out := Output(results, fields, header, line);
    var skip := if HeaderShown(results, fields) then 1 else 0;
    forall i | 0 <= i < |out|
      ensures out[i] == header <==> i == 0 && HeaderShown(results, fields)
    {
      if i >= skip {
        LinesAt(results, line, i - skip);
      }
    }
  }

  /** For the prober's records, whatever their names, the header line appears
    * at most once, and only at the top. */
  lemma SiteHeaderOnlyFirst(results: seq<Record>, fields: bool)
    ensures forall i :: 0 <= i < |Output(results, fields, Header(), Line)| ==>
      (Output(results, fields, Header(), Line)[i] == Header() <==> i == 0 && HeaderShown(results, fields))
  {
    forall k | 0 <= k < |results|
      ensures Line(results[k]) != Header()
    {
      LineIsNotHeader(results[k]);
    }
    HeaderOnlyFirst(results, fields, Header(), Line);
  }
}
