/** The export helpers: the closed set of file formats, their media types, the
    table that picks an exporter for a format, and the JSON exporter with its
    two-step protocol (load the data, then export it into a byte stream). */
module Exporter {
  import opened Wrappers
  import opened Values
  import opened Errors
  import Buffers
  type byte = Buffers.byte

  /** The five export formats. The enumeration also derives from `str`, so
      each tag is equal to its string value. */
  datatype FileFormat = Document | Excel | Pdf | Csv | Json

  /** The string value of each tag. */
  function Value(f: FileFormat): string
  {
    match f
    case Document => "docx"
    case Excel => "xlsx"
    case Pdf => "pdf"
    case Csv => "csv"
    case Json => "json"
  }

  /** `FileFormat(s)`: the tag whose value is `s`, or a ValueError when no tag
      has that value (for instance "tiff"). */
  function FromValue(s: string): (r: Result<FileFormat, Error>)
    ensures r.Success? ==> Value(r.value) == s
    ensures r.Failure? ==> r.error == ValueError && forall f :: Value(f) != s
  {
    if s == "docx" then Success(Document)
    else if s == "xlsx" then Success(Excel)
    else if s == "pdf" then Success(Pdf)
    else if s == "csv" then Success(Csv)
    else if s == "json" then Success(Json)
    else Failure(ValueError)
  }

  /** Every tag is found again from its value, so no two tags share a value. */
  lemma ValueRoundTrip(f: FileFormat)
    ensures FromValue(Value(f)) == Success(f)
    ensures forall g :: Value(g) == Value(f) ==> g == f
  {
  }

  /** The MIME type sent with an export of format `f`; defined for every tag.
      For PDF, CSV and JSON the subtype is the format's own value. */
  function MediaType(f: FileFormat): (m: string)
    ensures f in {Pdf, Csv, Json} ==> m == (if f == Pdf then "application/" else "text/") + Value(f)
  {
    match f
    case Document => "application/vnd.openxmlformats-officedocument.wordprocessingml.document"
    case Excel => "application/vnd.openxmlformats-officedocument.spreadsheetml.sheet"
    case Pdf => "application/pdf"
    case Csv => "text/csv"
    case Json => "text/json"
  }

  /** No two formats share a media type. */
  lemma MediaTypeInjective(f: FileFormat, g: FileFormat)
    ensures MediaType(f) == MediaType(g) ==> f == g
  {
  }

  /** The exporter classes the table can hand out. */
  datatype ExporterClass = JsonExporterClass

  /** `get_exporter_class`: a lookup in a table whose only entry is JSON; every
      other format is a KeyError. */
  function GetExporterClass(f: FileFormat): (r: Result<ExporterClass, Error>)
    ensures r.Success? <==> f == Json
    ensures r.Success? ==> r.value == JsonExporterClass
    ensures r.Failure? ==> r.error == KeyError
  {
    if f == Json then Success(JsonExporterClass) else Failure(KeyError)
  }

  /** The `metadata` field: a dictionary from names to scalars, or `None`. */
  type Metadata = Option<map<string, Scalar>>

  /** The record handed to an exporter. */
  datatype ExportData = ExportData(headers: seq<Scalar>, rows: seq<seq<Scalar>>, metadata: Metadata)

  /** The JSON exporter. `data` is `None` until `load_data` has set it.
      JSON text encoding (`dumps`) and text-to-bytes encoding (`utf8`) are
      library code and are taken as parameters. */
  class JsonExporter {
    var data: Option<ExportData>

    /** A new exporter has no data. */
    constructor ()
      ensures data == None
    {
      data := None;
    }

    /** `load_data(d)`: stores `d`, replacing whatever was loaded before. */
    method LoadData(d: ExportData)
      modifies this
      ensures data == Some(d)
    {
      data := Some(d);
    }

    /** `export()` as written: a fresh binary stream is made, the JSON text of
        the metadata alone is dumped into it and the stream is read from its
        current position. Before any `load_data` the access to `self.data`
        fails; after one, the first text chunk of the dump is refused by the
        binary stream. The exporter and its data are left unchanged. */
    method Export(dumps: Metadata -> string) returns (r: Result<seq<byte>, Error>)
      ensures data.None? ==> r == Failure(AttributeError)
      ensures data.Some? ==> r == Failure(TypeError)
    {
      var buffer := new Buffers.BytesBuffer();
      if data.None? {
        return Failure(AttributeError);
      }
      // an ExportData instance is always truthy, so `if self.data:` holds here
      var written := buffer.Write(Buffers.Text(dumps(data.value.metadata)));
      // the refusal propagates out of `json.dump`; the stream is never read
      match written
      case Failure(e) => r := Failure(e);
    }

    /** `export()` corrected: the JSON text is encoded to bytes before it is
        written and the stream is rewound before it is read, so the result is
        exactly the encoded metadata; headers and rows play no part. */
    method ExportFixed(dumps: Metadata -> string, utf8: string -> seq<byte>) returns (r: Result<seq<byte>, Error>)
      ensures data.None? ==> r == Failure(AttributeError)
      ensures data.Some? ==> r == Success(utf8(dumps(data.value.metadata)))
    {
      var buffer := new Buffers.BytesBuffer();
      if data.None? {
        return Failure(AttributeError);
      }
      var encoded := utf8(dumps(data.value.metadata));
      var written := buffer.Write(Buffers.Bytes(encoded));
      buffer.Rewind();
      var out := buffer.Read();
      Buffers.FreshWriteThenRead(encoded);
      r := Success(out);
    }
  }
}
