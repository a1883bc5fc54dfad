# msms wrapper: a Dafny model

The `msms` Python package wraps MSMS, an external program that computes molecular
surfaces. `run_msms` checks the atom coordinates and radii it is given and writes them as
`xyzr` rows. It then starts `msms` with a fixed argument list plus the caller's extra
options. The program writes a log and two tables: the `.vert` vertices and the `.face`
triangles. `MsmsOutput.from_files` reads those back into typed records, and
`MsmsOutput.params()` recovers the run's probe radius, density and hdensity from the log.

This project models the text-to-record layer and the pure set-up of the call:

- `wrappers.dfy`, module `Wrappers`: `Option` (Python `None`) and `Result` (raised exceptions).
- `text.dfy`, module `Text`: `str.isspace`, `str.startswith` and `str.split()` without an
  argument. It also holds `StringIO.readlines()` and the comment stripping and whitespace
  tokenising that `np.loadtxt` applies to a line.
- `schema.dfy`, module `Schema`: `FACE_DTYPES` and `VERT_DTYPES` as column lists, the face
  and vertex records, and `np.loadtxt(file, skiprows=3, dtype=...)` as a parser from a
  file's text to a record list.
- `surface.dfy`, module `Surface`: `SurfaceParams`, `MsmsOutput` as an immutable datatype,
  `from_files`, and `params()` as a scanning loop proved against a specification function.
- `invocation.dfy`, module `Invocation`: the shape checks, the `xyzr` rows (`np.hstack`),
  `os.path.join`, the `formatted_kwargs` loop and the final argument list of `run_msms`.

Numbers are kept abstract. A `Converters<F>` value holds one partial conversion from a
token to an integer and one to a floating-point value of an arbitrary type `F`. Every
statement about records says which converter result each field is. Arrays handed to
`run_msms` are modelled as numpy leaves them after `np.asarray`: a shape and the elements
in row-major order (`NdArray`).

Everything that `msms/wrapper.py` does is either modelled or listed under "Left out".

## Model

| member | source | states |
|---|---|---|
| `Text.IsSpace` | msms/wrapper.py:54 | the whitespace `line.split()` splits at: it includes the six ASCII whitespace characters and no printable ASCII character other than the blank |
| `Text.Split` | msms/wrapper.py:54 | `line.split()`: every token is non-empty and free of whitespace, and there are no tokens exactly when the line is all whitespace |
| `Text.SplitUnwords` | msms/wrapper.py:54 | splitting words joined by single spaces, with any trailing whitespace such as the line's `\n`, gives the words back |
| `Text.SplitSkipsSpace` | msms/wrapper.py:54 | leading whitespace never changes the tokens of a line |
| `Text.LineTokens` | msms/wrapper.py:41-42 | the tokens `np.loadtxt` reads from a line are whitespace-free words; a line without `#` gives exactly its `split()` tokens, and a line starting with `#` gives none |
| `Text.ReadLines` | msms/wrapper.py:43 | `readlines()` keeps the log verbatim: the lines concatenate to the text, no line is empty, every line but the last ends in `\n`, and no line holds a `\n` before its end |
| `Text.StripComment` | msms/wrapper.py:41-42 | the part of a line `np.loadtxt` reads: no `#`, a prefix of the line, the whole line when it has no `#`, and otherwise cut exactly at a `#` |
| `Schema.ColumnLayout` | msms/wrapper.py:13-31 | `FACE_DTYPES` is five distinct integer columns; `VERT_DTYPES` is nine distinct columns, six floats then three integers, the last being `face_type` as in the face table |
| `Schema.ConvertFields` | msms/wrapper.py:13-31 | a row converts exactly when every token converts under its column's type; each field is its token's conversion; otherwise the error names the first failing column and token |
| `Schema.ConvertRow` | msms/wrapper.py:41-42 | a row whose column count differs from the schema's is a `WrongColumnCount` failure, checked before any conversion |
| `Schema.ParseFace` | msms/wrapper.py:13-19 | a face line parses exactly when it has 5 integer tokens, and `i, j, k, face_type, face_number` are tokens 0 to 4 in that order |
| `Schema.ParseVertex` | msms/wrapper.py:21-31 | a vertex line parses exactly when it has 9 tokens, 6 floats then 3 integers, and `x, y, z, nx, ny, nz, vertex_type, closest_sphere, face_type` are tokens 0 to 8 in that order |
| `Schema.BodyLines` | msms/wrapper.py:41-42 | the first 3 lines are skipped unconditionally; a file of fewer than 3 lines has no body |
| `Schema.DataRows` | msms/wrapper.py:41-42 | at most one row per line, and no row without tokens |
| `Schema.ParseRows` | msms/wrapper.py:41-42 | the table parses exactly when every row parses, with one record per row in row order; otherwise the error is the first failing row's line number and problem |
| `Schema.DataRowsLineNumbers` | msms/wrapper.py:41-42 | every row carries the number of a line in the block it comes from |
| `Schema.TableRows` | msms/wrapper.py:41-42 | a table file has at most one data row per body line |
| `Schema.LoadTable` | msms/wrapper.py:41-42 | a file of no more than the 3 header lines gives no records; the table parses exactly when every data row parses, with record `k` the parse of row `k`; an error names its table and a line after the header |
| `Schema.LoadVertices` | msms/wrapper.py:41 | the vertex table parses exactly when every data row is a vertex line, record `k` being row `k`'s vertex; an error is tagged as the vertex table's |
| `Schema.LoadFaces` | msms/wrapper.py:42 | the face table parses exactly when every data row is a face line, record `k` being row `k`'s face; an error is tagged as the face table's |
| `Schema.DataRowsOnePerLine` | msms/wrapper.py:41-42 | when no line is blank, line `k` is row `k` |
| `Schema.DataRowsAppend` | msms/wrapper.py:41-42 | the rows of two blocks of lines are the rows of each block, with line numbers carried on |
| `Schema.DataRowsHasLine` | msms/wrapper.py:41-42 | every line with tokens is a row under its own line number |
| `Schema.BlankLineSkipped` | msms/wrapper.py:41-42 | a blank or comment-only line yields no record, and the lines after it keep their numbers |
| `Schema.ParseRowsPerLine` | msms/wrapper.py:41-42 | when no line is blank, a successful parse has one record per line, record `k` being line `k`'s parse |
| `Schema.TableRecordPerLine` | msms/wrapper.py:41-42 | for a table whose body has no blank line, the record count is the file's line count minus 3, and record `k` is the parse of body line `k` |
| `Schema.LoadTableRejectsBadLine` | msms/wrapper.py:41-42 | one non-blank body line that does not parse makes the whole table fail |
| `Surface.IsParamLine` | msms/wrapper.py:53 | a PARAM line is `PARAM` followed by the rest of the line; a line starting with whitespace is never one |
| `Surface.FloatToken` | msms/wrapper.py:55 | `float(elems[i])`: an index error when the token is missing, a value error naming the token when it does not convert, otherwise the converted value |
| `Surface.ParamsFromLine` | msms/wrapper.py:54-55 | the line gives parameters exactly when it has at least 7 tokens and tokens 2, 4 and 6 convert; these are `probe_radius`, `density` and `hdensity` in that order; fewer than 7 tokens is always an error; the first missing or non-numeric token, in Python's evaluation order, is the error, including a non-numeric token 6 |
| `Surface.ParamsOf` | msms/wrapper.py:50-56 | any outcome other than `None` comes from a line starting with `PARAM` with none before it, and is that line's outcome |
| `Surface.MsmsOutput.Params` | msms/wrapper.py:50-56 | the loop returns the outcome of the first log line that starts with `PARAM`, and `None` exactly when no line does |
| `Surface.ParamsFirstLineDecides` | msms/wrapper.py:51-56 | the first line starting with `PARAM` alone decides the result |
| `Surface.ParamsNoneIffNoParamLine` | msms/wrapper.py:50-56 | `params()` is `None` (no error) exactly when no log line starts with `PARAM` |
| `Surface.ParamsIgnoresLaterLines` | msms/wrapper.py:52-56 | lines after a `PARAM` line have no effect |
| `Surface.ParamsSkipsOtherLines` | msms/wrapper.py:52-53 | lines without the prefix before the first `PARAM` line have no effect |
| `Surface.ParamsOfOneLine` | msms/wrapper.py:9 | on a PARAM line with numbers at tokens 2, 4 and 6, the result is `SurfaceParams(probe_radius, density, hdensity)` built from them in that field order |
| `Surface.ExampleIsParamLine` | msms/wrapper.py:53 | a log line of the form `PARAM Probe_radius P density D hdensity H` passes the prefix test (a helper for `ParamsOfExampleLine`) |
| `Surface.ExampleSplitsIntoWords` | msms/wrapper.py:54 | that line, with its `\n`, splits into its seven words, so P, D and H are tokens 2, 4 and 6 |
| `Surface.ParamsOfExampleLine` | msms/wrapper.py:50-56 | a log holding that line gives `SurfaceParams(P, D, H)`, each converted, in that field order |
| `Surface.FromFiles` | msms/wrapper.py:40-48 | `from_files` succeeds exactly when both tables parse; the vertex table's error comes first; the result holds both record lists and the log verbatim, line by line |
| `Surface.FromFilesRecordPerLine` | msms/wrapper.py:41-42 | with no blank body line, there are line count − 3 vertex and face records, each the parse of its line, in file order |
| `Surface.FromFilesRejectsBadVertexLine` | msms/wrapper.py:41 | a vertex line with the wrong column count or an unparsable token makes `from_files` fail |
| `Surface.FromFilesRejectsBadFaceLine` | msms/wrapper.py:42 | a face line with the wrong column count or an unparsable token makes `from_files` fail |
| `Invocation.CoordinateArraySize` | msms/wrapper.py:62 | an array of shape (N, 3) holds 3·N elements (a helper for `XyzrRows`) |
| `Invocation.XyzrRows` | msms/wrapper.py:62-65 | `xyz` is rejected unless it is 2-D with 3 columns; only then is `radii` rejected unless its shape is (N,); when both pass there are N rows, row `i` being atom `i`'s x, y, z and radius |
| `Invocation.XyzrRowsRoundTrip` | msms/wrapper.py:69 | the xyzr rows lose nothing: their first three columns are the coordinates and their last column the radii |
| `Invocation.ColumnsOfPrefix` | msms/wrapper.py:69 | the same, for every prefix of the rows |
| `Invocation.JoinPath` | msms/wrapper.py:67-68 | `os.path.join`: an absolute name replaces the directory; otherwise the path is the directory, then one `/` only when the directory is non-empty and does not end in one, then the name |
| `Invocation.CallPrefix` | msms/wrapper.py:67-74 | the call starts `msms -if <input> -of <out>`, with both paths inside the working directory: each starts with it and ends in `input.xyzr` or `out`, joined by one `/` when the directory does not end in one |
| `Invocation.FlatKwargs` | msms/wrapper.py:71-73 | twice as many options as keyword arguments: option 2·i is `-key` and option 2·i+1 is the value of argument `i`, in insertion order |
| `Invocation.KwargsRoundTrip` | msms/wrapper.py:71-73 | the keyword arguments can be read back from the option list |
| `Invocation.FormatKwargs` | msms/wrapper.py:71-73 | the `extend` loop builds exactly `FlatKwargs` of the keyword arguments |
| `Invocation.Command` | msms/wrapper.py:74 | the call is `msms -if <xyzr> -of <out>`, then the positional args, then the flattened kwargs; its length is 5 + args + 2·kwargs; the args and kwargs can be read back from it |
| `Invocation.PrepareRun` | msms/wrapper.py:59-74 | a failed shape check is the whole outcome, before any other work; otherwise the run holds the xyzr rows, the argument list, and the working directory |

## Left out

- Starting the process (`subprocess.run`), the `RuntimeError` on a non-zero exit, and UTF-8 decoding of stdout (msms/wrapper.py:75-78). These are process I/O. The log enters the model as already-decoded text.
- `TemporaryDirectory`, `np.savetxt` and opening the `.vert` and `.face` files (msms/wrapper.py:66-70, 79-83). These are filesystem work and number formatting. The temporary directory is a parameter of `PrepareRun`. The files enter as their decoded text, after text-mode newline translation.
- Floating-point and integer parsing. Both are the abstract converters of `Converters<F>`, and `FloatToken` takes the float converter as a parameter.
- `np.asarray` is not modelled. Its result, a shape plus row-major elements, is the input. Some of its consequences are therefore not captured: a ragged list, and the fact that an empty list gets shape (0,) and so fails the first shape check.
- `str(k)` and `str(v)` of keyword arguments are not modelled. Keys and values enter as text.
- `Invocation.Command`: positional `*args` reach `subprocess.run` without any `str()`; the model takes them as strings already, so a non-string argument is not covered.
- `Invocation.XyzrRows`: does not model numpy's dtype promotion when coordinates and radii have different element types. Both share one type `T`.
- `Surface.FromFiles`: numpy's squeezing of a one-record table into a 0-d array is not modelled. Records are always a sequence.
- `np.loadtxt` options other than the ones this call uses are not modelled. The call passes `skiprows=3` and `dtype`, and uses the default `comments='#'` and whitespace delimiter.
- The tests in tests/test_wrapper.py run the real `msms` binary against golden files. They are not modelled.
- setup.py is packaging metadata and is not part of this model.
