# Export helpers, spreadsheet layout and database URL of the class-biodata API

This project models the computational core of a small REST API that
manages schools, faculties, departments, classes and students and exports
class data. Everything else in that service is create/read/update/delete
over an ORM. Three pieces are modelled:

- **Export helpers** (`extras/exporter.py`):
  - `FileFormat` is a closed enumeration of five tags, each equal to its string value.
  - `get_media_type` is a total table from tag to MIME type.
  - `get_exporter_class` is a partial table whose only entry is JSON.
  - `JSONExporter` follows a two-step protocol. `load_data` stores an
    `ExportData`; `export` dumps the metadata as JSON into a binary stream
    and reads the stream back.
  - The stream (`io.BytesIO`) is modelled as a class holding a byte
    sequence and a cursor (module `Buffers`), so the read position is
    visible.
- **Spreadsheet layout** (`excel.py`, `export_to_excel`):
  - Heading k (0-based) goes to row 1, column k + 1.
  - Value j of fetched row i goes to row i + 2, column j + 1.
  - Row 1 is styled bold.
  - The sheet is a class holding a cell map and the set of bold rows. The
    export is a method whose nested loops fill it. Its result is tied to
    the function `Excel.Layout`, and lemmas characterise that function
    cell by cell.
- **Database URL** (`settings.py`, `Settings.get_database_url`): the
  connection string built from the settings fields, with the port written
  in decimal as Python renders an `int` (the interpreter's limit on the
  number of digits it converts is not modelled). The lemma
  `Settings.DatabaseUrlRoundTrip` reads every field back out of the string.

Modules: `Wrappers` (Option, Result), `Errors` (the Python exceptions raised),
`Values` (the scalar cell value),
`Buffers`, `Exporter`, `Excel`, `Settings`.

Facts about the export code that the model keeps:
- The JSON exporter dumps only `metadata`; headers and rows are never
  serialised.
- Calling `export` before `load_data` fails with Python's AttributeError.
- Exporters exist for JSON only. The CSV, PDF, XLSX and DOCX lookups fail
  with KeyError.
- Row widths are never checked against the headings.

## Model

| member | source | states |
|---|---|---|
| `Exporter.FromValue` | extras/exporter.py:9-14 | `FileFormat(s)` succeeds exactly when some tag has value `s`, and returns that tag; otherwise ValueError (e.g. "tiff") |
| `Exporter.ValueRoundTrip` | extras/exporter.py:9-14 | every tag is recovered from its string value, so the five values "docx", "xlsx", "pdf", "csv", "json" are distinct |
| `Exporter.MediaType` | extras/exporter.py:47-54 | total on the five tags; for PDF, CSV and JSON the media type is "application/" or "text/" followed by the format's own value |
| `Exporter.MediaTypeInjective` | extras/exporter.py:48-54 | no two formats share a media type |
| `Exporter.GetExporterClass` | extras/exporter.py:43-44 | the lookup succeeds if and only if the format is JSON, yielding the JSON exporter; every other format is a KeyError |
| `Exporter.JsonExporter.constructor` | extras/exporter.py:32 | a new JSON exporter has no data attribute yet |
| `Exporter.JsonExporter.LoadData` | extras/exporter.py:33-34 | after `load_data(d)` the stored data is exactly `d`, whatever was loaded before; nothing else changes |
| `Exporter.JsonExporter.Export` | extras/exporter.py:36-40 | as written: AttributeError when nothing was loaded; TypeError for every loaded exporter, because the JSON text is written into a binary stream; the exporter and its data are unchanged |
| `Exporter.JsonExporter.ExportFixed` | extras/exporter.py:36-40 | corrected export: AttributeError when nothing was loaded, else exactly the encoded JSON of `metadata`; headers and rows have no influence; nothing is mutated |
| `Buffers.Overwrite` | extras/exporter.py:39 | the stream contents after a write at the cursor: the prefix is kept, the written bytes sit at the cursor, and later bytes survive |
| `Buffers.FreshWriteThenRead` | extras/exporter.py:37-40 | after writing into a fresh stream, reading from the cursor yields nothing; reading after a rewind to 0 yields what was written |
| `Buffers.WriteThenReadWithoutRewind` | extras/exporter.py:37-40 | writing bytes into a new stream and then reading without a rewind, as the export does, returns nothing, whatever was written |
| `Buffers.BytesBuffer.constructor` | extras/exporter.py:37 | a fresh stream is empty with its cursor at 0 |
| `Buffers.BytesBuffer.Write` | extras/exporter.py:39 | a `str` is refused with TypeError and nothing changes; bytes are written at the cursor, which moves past them |
| `Buffers.BytesBuffer.Read` | extras/exporter.py:40 | returns the bytes from the cursor to the end and moves the cursor to the end |
| `Buffers.BytesBuffer.Rewind` | extras/exporter.py:37-40 | moves the cursor to 0 and keeps the contents (the step the code omits before reading) |
| `Excel.Sheet.constructor` | excel.py:6 | the active sheet of a new workbook has no cells and no styled rows |
| `Excel.Sheet.SetCell` | excel.py:26 | assigns one cell value and changes nothing else |
| `Excel.Sheet.SetRowBold` | excel.py:23 | marks one row bold and leaves the cells alone |
| `Excel.Workbook.constructor` | excel.py:5-8 | a fresh workbook whose active sheet is empty |
| `Excel.CreateSheet` | excel.py:10-12 | returns the workbook's active sheet |
| `Excel.ExportToExcel` | excel.py:16-33 | starting from a fresh workbook, the active sheet ends up holding exactly `Layout(headings, data)` and row 1 is its only bold row |
| `Excel.WriteRowAt` | excel.py:25-26 | writing a row adds exactly columns 1..len(values) of that row, value j at column j + 1, and leaves every other cell as it was |
| `Excel.WriteRowsAt` | excel.py:29-31 | writing the fetched rows adds exactly cells (i + 2, j + 1) for j < len(data[i]), each holding data[i][j], and leaves every other cell as it was |
| `Excel.LayoutDomain` | excel.py:25-31 | a cell is written if and only if it is in row 1 within the headings, or in a row 2..len(data)+1 within that fetched row's width; nothing lies outside rows 1..len(data)+1, and row widths are not checked against the headings |
| `Excel.HeadingCell` | excel.py:25-26 | heading k is in row 1, column k + 1, and no data value overwrites it |
| `Excel.DataCell` | excel.py:29-31 | value j of fetched row i is in row i + 2, column j + 1, and no other value overwrites it |
| `Excel.HeadingsReadBack` | excel.py:25-26 | reading row 1 left to right gives back the headings, and the row ends right after them |
| `Excel.DataRowReadBack` | excel.py:29-31 | reading sheet row r (r >= 2) gives back fetched row r - 2, and the row ends right after it, so sheet order is fetch order and a row is exactly as wide as fetched, shorter or longer than the headings |
| `Settings.NatDigits` | settings.py:24 | a non-negative integer renders as a non-empty string of decimal digits with no leading zero |
| `Settings.Decimal` | settings.py:13 | an `int` field renders as its digits, with a leading '-' exactly when it is negative |
| `Settings.DecimalRoundTrip` | settings.py:24 | the rendered port reads back as the port |
| `Settings.DatabaseUrl` | settings.py:20-25 | the URL starts with "postgresql+asyncpg://" and ends with "/" followed by the database name |
| `Settings.DatabaseUrlRoundTrip` | settings.py:22-24 | the URL is the scheme, then user, ":", password, "@", host, ":", decimal port, "/", database. Each field reads back out of it when the user and the host hold no ':' and the password holds no '@' |

## Left out

- `AbstractExporter` (extras/exporter.py:24-29): its methods are no-ops, and the lookup table never hands it out, so it is not modelled as a class of its own.
- JSON text encoding (`json.dump`) and the text-to-bytes encoding: these are library code, passed to the export methods as the function parameters `dumps` and `utf8`.
- Metadata is modelled as a map. The insertion order of the Python dict, which the JSON text follows, is not represented.
- `if self.data:` (extras/exporter.py:38) is always true for an `ExportData`, because the dataclass defines neither `__bool__` nor `__len__`. Passing a non-`ExportData` such as `None` to `load_data` is outside the declared types and is not modelled.
- The text is modelled as a single write. `json.dump` writes several chunks, but the first one is already refused, so the outcome is the same.
- CSV, PDF, XLSX and DOCX encoders: the code has none, and the class-export route is a stub.
- excel.py: the database cursor, the query and `fetchall` (excel.py:17-20) are not modelled; the fetched rows are an input. Saving the workbook to `path` (excel.py:7, excel.py:33) is file I/O and is left out. Of the openpyxl styling, only the bold flag of row 1 is kept.
- Excel.Sheet.SetCell: stores every value unchanged. openpyxl's string checks on cell assignment are not modelled. It cuts a string to its first 32,767 characters and raises IllegalCharacterError on control characters such as "\x01". So `Excel.ExportToExcel` and the lemmas about `Excel.Layout` (`Excel.HeadingCell`, `Excel.DataCell`, `Excel.HeadingsReadBack`, `Excel.DataRowReadBack`) describe the sheet only for strings that pass those checks unchanged. Nor is openpyxl's bound on row numbers modelled: a row above 1,048,576 raises ValueError (an .xlsx sheet has at most 1,048,576 rows), while `SetCell` accepts any row from 1 on.
- Excel.ExportToExcel: does not model the 1,048,576-row bound. With 1,048,576 or more fetched rows the code stops with ValueError at excel.py:31 when it reaches row 1,048,577, while the model still fills exactly `Excel.Layout(headings, data)`. The contract, and the lemmas `Excel.DataCell` and `Excel.DataRowReadBack`, describe the sheet only for at most 1,048,575 fetched rows.
- Cell and metadata values are null, booleans, integers and strings. Floats, dates and other driver types are not modelled.
- settings.py: loading the fields from the environment and the `.env` file (settings.py:12, settings.py:28) and pydantic's validation are not modelled. `APP_MODE` plays no part in the URL.
- Settings.Decimal: renders every `int`. Python 3.10.7 and later refuse, with ValueError, to convert an int of more than 4300 digits to a string, and that limit is not modelled. `Settings.DecimalRoundTrip` therefore covers ports the interpreter would refuse to render.
- Settings.DatabaseUrl: is total, while `f"{self.POSTGRES_PORT}"` (settings.py:24) raises ValueError for a port of more than 4300 digits under that same interpreter limit; the model does not capture that failure.
- Settings.DatabaseUrlRoundTrip: holds only for fields free of the separators they precede, because the code percent-encodes nothing.
- routers, models, utils, db, main, schemas and the migration: HTTP handlers, ORM persistence and app wiring, outside this model.

## Findings

| source | as written | input that shows it | evidently intended | confidence | as-written member | corrected member |
|---|---|---|---|---|---|---|
| extras/exporter.py:37-40 | `json.dump` writes `str` chunks into a `BytesIO`, which refuses them with TypeError. The stream is then read with `read()` and no `seek(0)`, so even a write that was accepted would return the empty remainder after the cursor | any loaded exporter, e.g. `load_data(ExportData([], [], None))` then `export()` | `export()` returns the JSON of the metadata as bytes | high, not executed | `Exporter.JsonExporter.Export`, `Buffers.WriteThenReadWithoutRewind` | `Exporter.JsonExporter.ExportFixed` |
