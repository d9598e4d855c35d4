// The per-host capability record and its one-line serialisation.
module Sites {
  import opened Tristate
  import opened Strings

  /** A finished (or in-progress) site record, as a value: the DNS name, one
    * tri-state per probe stage, and the protocols the server advertised. */
  datatype Record = Record(
    name: string,
    resolves: Tri,
    port443Open: Tri,
    tlsWorks: Tri,
    httpsWorks: Tri,
    spdyAnnounced: Tri,
    http2Announced: Tri,
    spdyWorks: Tri,
    http2Works: Tri,
    npn: seq<string>)

  /** The record the dispatcher creates for an input line: only the name is set. */
  function Fresh(name: string): Record
  {
    Record(name, Unrun, Unrun, Unrun, Unrun, Unrun, Unrun, Unrun, Unrun, [])
  }

  /** The column names, in the order the record line gives them. */
  const FieldNames: seq<string> := ["name", "resolves", "port443Open", "tlsWorks", "httpsWorks",
                                   "spdyAnnounced", "http2Announced", "spdyWorks", "http2Works", "npn"]

  /** There are ten column names, none holds a comma, and each is at least three characters long. */
  lemma ColumnNames()
    ensures |FieldNames| == 10
    ensures forall j :: 0 <= j < |FieldNames| ==> ',' !in FieldNames[j] && |FieldNames[j]| >= 3
  {
  }

  /** site.fields: the fixed header line, the column names separated by commas. */
  function Header(): string
  {
    Join(FieldNames, ",")
  }

  /** The ten column values of a record line: the name, the eight stages in
    * declaration order, and the advertised protocols joined by one space. */
  function Columns(r: Record): seq<string>
  {
    [r.name, Render(r.resolves), Render(r.port443Open), Render(r.tlsWorks), Render(r.httpsWorks),
     Render(r.spdyAnnounced), Render(r.http2Announced), Render(r.spdyWorks), Render(r.http2Works),
     Join(r.npn, " ")]
  }

  /** site.String: a format with ten string verbs separated by commas, that is,
    * the ten columns joined by commas. */
  function Line(r: Record): string
  {
    Join(Columns(r), ",")
  }

  /** The header splits back into the column names. */
  lemma HeaderColumns()
    ensures Split(Header(), ',') == FieldNames
  {
    ColumnNames();
    SplitJoin(FieldNames, ',');
  }

  /** Names and protocol identifiers without commas make the line readable back into its columns. */
  lemma SplitLine(r: Record)
    requires ',' !in r.name
    requires forall k :: 0 <= k < |r.npn| ==> ',' !in r.npn[k]
    ensures Split(Line(r), ',') == Columns(r)
    ensures |Split(Line(r), ',')| == |FieldNames|
  {
    var c := Columns(r);
    assert ',' !in c[9];
    SplitJoin(c, ',');
  }

  /** With a comma-free name and protocol identifiers holding neither a space
    * nor a comma, the last column is empty when nothing was advertised, and
    * otherwise splits at spaces back into the advertised list. */
  lemma ProtocolsRecoverable(r: Record)
    requires ',' !in r.name
    requires forall k :: 0 <= k < |r.npn| ==> ',' !in r.npn[k] && ' ' !in r.npn[k]
    ensures var cols := Split(Line(r), ',');
      && |cols| == 10
      && (r.npn == [] ==> cols[9] == "")
      && (r.npn != [] ==> Split(cols[9], ' ') == r.npn)
  {
    SplitLine(r);
    if r.npn != [] {
      SplitJoin(r.npn, ' ');
    }
  }

  /** Whatever the name holds, the column right after the name's pieces is the
    * one-character rendering of `resolves`. */
  lemma ResolvesAfterName(r: Record)
    ensures var cols := Split(Line(r), ','); var k := |Split(r.name, ',')|;
      k < |cols| && cols[k] == Render(r.resolves)
  {
    var c := Columns(r);
    var tail := Join(c[1..], ",");
    assert Line(r) == r.name + [','] + tail;
    SplitAround(r.name, tail, ',');
    SplitJoinHead(c[1..], ',');
    assert Split(tail, ',')[0] == Render(r.resolves);
  }

  /** No record line is the header, whatever the name holds: the header's
    * columns are all longer than a tri-state symbol. */
  lemma LineIsNotHeader(r: Record)
    ensures Line(r) != Header()
  {
    ResolvesAfterName(r);
    HeaderColumns();
    var cols := Split(Line(r), ',');
    var k := |Split(r.name, ',')|;
    assert |cols[k]| == 1;
    ColumnNames();
    assert cols != Split(Header(), ',');
  }
}
