# wrl_to_obj in Dafny

A model of `tools_misc/wrl_to_obj.py`, the converter that turns the `.wrl` error
geometry written by Tool (a VRML 1.0 subset) into an OBJ file for Blender, with
proofs about it. The model has three parts:

- **`WrlParser`**: the grammar (`tools_misc/wrl_to_obj.py:15-93`) as a
  recursive-descent PEG parser over the remaining text. It covers the header, the
  separators, the five optional blocks in their fixed order, comma lists with an
  optional trailing comma, `-1`-terminated index groups, and float tokens kept as
  text. `WrlPrinter` is the parser's partner: a printer, and the proof that the
  parser reads back every well-formed document it prints, with or without trailing
  commas. Separate lemmas show inputs the grammar rejects, among them every
  separator whose blocks are out of order. `WrlLayout` covers layouts other than
  the printer's single line: every token reads back after any whitespace, and
  points and index-group lists read back from any whitespace layout, including the
  exporter's wrapped index arrays with commas glued to the numbers (`:73-77`).
- **`Classifier`**: `infer_error_type` (`:101-167`). Each colour becomes a key
  and the key is looked up in the colour-name table. The names are collected in a
  set, and a first-match rule chain that depends on the binding picks a label. The
  sorted names follow the label in parentheses. The colour loop and the if-chain
  are methods proved equal to the functional specification. Lemmas cover the chain
  order, the `"unknown"` case, the suffix, the key encoding, and a worked example.
- **`ObjEmitter`**: `convert_wrl_to_obj` (`:169-201`), written as the source's
  loops, with the vertex counter, the `object_data` buffer and the output as a
  list of lines. It is proved equal to `Convert`, a functional reference. Lemmas
  over `Run`, the reference's fold over the separators, cover the rest:
  - when the run fails, and which failure it reports;
  - that the `v` lines are the points in document order;
  - that indices are shifted by one plus the number of earlier points;
  - the order of the buffered `o`/`f`/`l` lines.

`Outcome` lists the exceptions the converter lets escape. `Text` holds the
character classes, digit strings, Python's string order, `sorted()` and `join`.

Two crashes of the source are modelled as they happen, as error results:
- A separator without diffuse colours (no Material block, or an empty list)
  reaches `:167` with `color_info` never bound. This is `ColorInfoUnbound`.
- A separator without a `Coordinate3` block makes `:194` iterate `None`. This is
  `CoordsMissing`. It is raised after that separator's object, face and line
  entries were buffered, and after the earlier separators' `v` lines were written.

Where the code differs from what its comments and documentation suggest, the model
follows the code:
- Colour keys are the component strings exactly as written. They are not
  canonicalised, so `1.0 0.0 0.0` is not `red`.
- A face group with fewer than three indices, or a line group with fewer than two,
  makes `str.format` fail (`FaceTooShort`, `LineTooShort`). Extra indices are
  silently dropped.
- The three floats of a point need no whitespace between them. The grammar
  skips whitespace but does not require it, so `1.0-2.0-3.0` is a point.
- An index is never checked against its separator's point count (`:188`, `:192`).
  So an `f` or `l` line can refer to a point of a later separator, or past the last
  point. The bound of an emitted index by the total point count is therefore
  conditional: `ObjEmitter.GlobalIndex` places an index among all points only when
  it is below its own separator's point count.
- The header line is written before the input is parsed. A syntax error therefore
  leaves the header as the only output.

## Model

| member | source | states |
|---|---|---|
| WrlParser.Token | tools_misc/wrl_to_obj.py:20-23 | a literal matches exactly when it starts the text after the leading whitespace, and what is left is the text after it |
| WrlParser.FloatShapeIff | tools_misc/wrl_to_obj.py:91-92 | the float scanner accepts exactly an optional `-`, one or more digits, `.`, one or more digits (no fixed digit count) |
| WrlParser.FloatTok | tools_misc/wrl_to_obj.py:92 | a float read is a whole float token and input is consumed |
| Text.SkipWsPrefix | tools_misc/wrl_to_obj.py:20-22 | whitespace of any kind and length before a text is skipped entirely |
| WrlParser.SpaceBeforeToken | tools_misc/wrl_to_obj.py:20-22 | whitespace before a literal changes nothing it reads |
| WrlParser.SpaceBeforeFloat | tools_misc/wrl_to_obj.py:20-22 | whitespace before a float changes nothing it reads |
| WrlParser.SpaceBeforeIndex | tools_misc/wrl_to_obj.py:20-22 | whitespace before an index changes nothing it reads |
| WrlParser.FloatTokReads | tools_misc/wrl_to_obj.py:92 | a float read yields `(f, rest)` exactly when the text after the leading whitespace is a float `f` followed by text `rest` that does not start with a digit (greedy match, both directions) |
| WrlParser.IndexTokReads | tools_misc/wrl_to_obj.py:80 | an index read fails exactly when no digit starts the text after the leading whitespace; otherwise it yields the value of the whole leading digit run and the text after it |
| WrlParser.IndexTokReadsDigits | tools_misc/wrl_to_obj.py:80 | any digit string followed by text that does not start with a digit is read as its value |
| WrlParser.PointP | tools_misc/wrl_to_obj.py:84-85 | a point is three float tokens |
| WrlParser.IndexGroup | tools_misc/wrl_to_obj.py:79-80 | a decoded group holds at least one index and the `-1` is consumed |
| WrlParser.IndexGroups | tools_misc/wrl_to_obj.py:78 | every group of a group list is non-empty, trailing comma or not |
| WrlParser.Points | tools_misc/wrl_to_obj.py:83 | every element of a point list is a valid point |
| WrlParser.Floats | tools_misc/wrl_to_obj.py:89 | every element of a float list is a float token |
| WrlParser.BindingType | tools_misc/wrl_to_obj.py:71 | the binding word is read and consumed |
| WrlParser.CoordinateBlock | tools_misc/wrl_to_obj.py:31 | the `Coordinate3` block yields valid points |
| WrlParser.BindingBlock | tools_misc/wrl_to_obj.py:35 | the `MaterialBinding` block yields a binding and consumes input |
| WrlParser.MaterialBlock | tools_misc/wrl_to_obj.py:42-48 | the `Material` block yields valid colours and transparencies, lengths unrelated |
| WrlParser.IndexBlock | tools_misc/wrl_to_obj.py:52-65 | an index block yields non-empty groups |
| WrlParser.Optional | tools_misc/wrl_to_obj.py:31-65 | an optional block is present exactly when its parser succeeds; a present one leaves what its parser leaves, an absent one gives back all the input |
| WrlParser.SeparatorP | tools_misc/wrl_to_obj.py:26-67 | a separator read has valid points, materials and non-empty groups |
| WrlParser.Separators | tools_misc/wrl_to_obj.py:23 | the separators read form a well-formed document |
| WrlParser.Parse | tools_misc/wrl_to_obj.py:95-99 | a parsed document is well formed and the text began with the header |
| WrlPrinter.FloatRoundTrip | tools_misc/wrl_to_obj.py:92 | a printed float token reads back as itself, whatever follows that does not start with a digit |
| WrlPrinter.IndexRoundTrip | tools_misc/wrl_to_obj.py:80 | a printed index reads back as the same number (`int()` of its digits), whatever follows that does not start with a digit |
| WrlPrinter.PointRoundTrip | tools_misc/wrl_to_obj.py:85 | a printed point reads back as itself |
| WrlPrinter.GroupRoundTrip | tools_misc/wrl_to_obj.py:79-80 | a printed group reads back as exactly its indices; the `-1` is consumed and never stored |
| WrlPrinter.EmptyGroupRejected | tools_misc/wrl_to_obj.py:79 | a `-1` with no index before it is not a group |
| WrlPrinter.CommaListRoundTrip | tools_misc/wrl_to_obj.py:78 | `{ X ',' } [ X ]` reads back a printed list exactly, with or without the trailing comma |
| WrlPrinter.GroupsRoundTrip | tools_misc/wrl_to_obj.py:78-80 | a group list reads back exactly; a trailing comma adds no empty group |
| WrlPrinter.PointsRoundTrip | tools_misc/wrl_to_obj.py:83-85 | a point list reads back exactly, trailing comma or not |
| WrlPrinter.FloatsRoundTrip | tools_misc/wrl_to_obj.py:89 | a float list reads back exactly, trailing comma or not |
| WrlPrinter.CoordinateBlockRoundTrip | tools_misc/wrl_to_obj.py:31 | a printed `Coordinate3` block reads back |
| WrlPrinter.BindingTypeRoundTrip | tools_misc/wrl_to_obj.py:71 | both binding words read back as their binding |
| WrlPrinter.BindingBlockRoundTrip | tools_misc/wrl_to_obj.py:35 | a printed `MaterialBinding` block reads back |
| WrlPrinter.MaterialBlockRoundTrip | tools_misc/wrl_to_obj.py:42-48 | a printed `Material` block reads back, whatever the two list lengths |
| WrlPrinter.MaterialWithoutTransparencyRejected | tools_misc/wrl_to_obj.py:42-48 | a `Material` block without its `transparency[` list is not read |
| WrlPrinter.IndexBlockRoundTrip | tools_misc/wrl_to_obj.py:52-65 | a printed `IndexedLineSet`/`IndexedFaceSet` block reads back |
| WrlPrinter.SeparatorRoundTrip | tools_misc/wrl_to_obj.py:26-67 | a printed separator reads back as itself, whichever blocks are present |
| WrlPrinter.BindingIsNoMaterial | tools_misc/wrl_to_obj.py:35-48 | a `MaterialBinding` block is never read as a `Material` block, although one keyword is a prefix of the other |
| WrlPrinter.BlocksOutOfOrderRejected | tools_misc/wrl_to_obj.py:26-67 | blocks are accepted only in the grammar's order and each at most once: after any separator's blocks, a block keyword whose slot is not later than the last block's is a syntax error, whatever follows |
| WrlPrinter.CoordsAfterMaterialRejected | tools_misc/wrl_to_obj.py:26-67 | example: a `Coordinate3` block after a `Material` block is a syntax error |
| WrlPrinter.SeparatorsRoundTrip | tools_misc/wrl_to_obj.py:23 | printed separators read back as the same list |
| WrlPrinter.ParsePrintRoundTrip | tools_misc/wrl_to_obj.py:23 | parsing a printed well-formed document gives the document back (left inverse) |
| WrlPrinter.TrailingTextRejected | tools_misc/wrl_to_obj.py:23 | after the last separator, any text that starts no separator and is not all whitespace is a syntax error |
| WrlPrinter.StrayBraceRejected | tools_misc/wrl_to_obj.py:23 | example: a stray `}` after the last separator is a syntax error |
| WrlLayout.TokenReadsBack | tools_misc/wrl_to_obj.py:20-22 | a literal reads back after any whitespace |
| WrlLayout.FloatReadsBack | tools_misc/wrl_to_obj.py:92 | a float reads back after any whitespace, whatever follows that does not start with a digit |
| WrlLayout.IndexReadsBack | tools_misc/wrl_to_obj.py:80 | an index reads back as its number after any whitespace, whatever follows that does not start with a digit |
| WrlLayout.LaidPointRead | tools_misc/wrl_to_obj.py:84-85 | a point reads back from any whitespace layout in which each later float is set off by whitespace or its own minus sign |
| WrlLayout.LaidIndicesRead | tools_misc/wrl_to_obj.py:80 | `{ index ',' }` reads exactly the indices, with any whitespace before each index and each comma |
| WrlLayout.LaidGroupRead | tools_misc/wrl_to_obj.py:73-80 | an index group in any whitespace layout reads back as its indices; the `-1` is consumed |
| WrlLayout.LaidGroupsRead | tools_misc/wrl_to_obj.py:73-80 | a group list in any whitespace layout with a comma after every group, as the exporter wraps it over lines, reads back as the groups |
| WrlLayout.WrappedRowsExample | tools_misc/wrl_to_obj.py:73-80 | example: `0, 1, 2, -1,` then `3, 4, 5, -1,` on an indented line and `]` on its own line read as the two groups |
| Classifier.FoundColorsIff | tools_misc/wrl_to_obj.py:119-123 | a name is in the found set exactly when some colour of the list has that name |
| Classifier.CollectNames | tools_misc/wrl_to_obj.py:119-123 | the loop collects exactly the found set |
| Classifier.ColorKeyParts | tools_misc/wrl_to_obj.py:121 | a colour's key is `x + "," + y + "," + z` over the raw strings |
| Classifier.ColorKeyInjective | tools_misc/wrl_to_obj.py:121 | two parsed colours with the same key are the same colour |
| Classifier.NamedColor | tools_misc/wrl_to_obj.py:106-122 | a table name is reported exactly for the colour with that name's key; a colour keeps its key as its name exactly when the key is not in the table |
| Classifier.RedName | tools_misc/wrl_to_obj.py:107 | example: `1.000000 0.000000 0.000000` is named `red` |
| Classifier.GreenName | tools_misc/wrl_to_obj.py:108 | example: `0.000000 1.000000 0.000000` is named `green` |
| Classifier.SuffixListing | tools_misc/wrl_to_obj.py:124 | the suffix is `" ("`, the names in strictly ascending order each once, joined by `", "`, then `")"` |
| Classifier.FaceSteps | tools_misc/wrl_to_obj.py:126-136 | for `PER_FACE`: red and green, then red, then magenta, then the common steps |
| Classifier.VertexSteps | tools_misc/wrl_to_obj.py:137-147 | for `PER_VERTEX`: red, then magenta, then the common steps |
| Classifier.CommonSteps | tools_misc/wrl_to_obj.py:148-167 | cyan, green, yellow, orange, black, blue, else `unknown`, first match wins |
| Classifier.Chain | tools_misc/wrl_to_obj.py:126-167 | the if-chain returns the label of the rule chain for the binding |
| Classifier.UnknownIff | tools_misc/wrl_to_obj.py:126-167 | the label is `unknown` exactly when no deciding colour was found; red and magenta decide only with a binding |
| Classifier.Classify | tools_misc/wrl_to_obj.py:118-167 | the classification fails, with `ColorInfoUnbound`, exactly when the colour list is absent or empty |
| Classifier.ErrorType | tools_misc/wrl_to_obj.py:101-167 | the result string fails exactly when the colour list is absent or empty |
| Classifier.InferErrorType | tools_misc/wrl_to_obj.py:101-167 | the method returns the label text plus the suffix, or the unbound-suffix failure |
| Classifier.OrderIrrelevant | tools_misc/wrl_to_obj.py:119-124 | colour lists with the same colours give the same result, whatever the order and repetition |
| Classifier.CoplanarExample | tools_misc/wrl_to_obj.py:126-129 | example: `PER_FACE` with red and green gives `nearly coplanar surfaces (green, red)` |
| ObjEmitter.GroupRecord | tools_misc/wrl_to_obj.py:186-193 | a group fails, with its block's error, exactly when it has fewer indices than its format string needs; otherwise the record is an `f` for a face and an `l` for a line, holding the group's first three or two indices, each plus the counter |
| ObjEmitter.GroupRecordsSpec | tools_misc/wrl_to_obj.py:186-193 | a block's groups fail exactly when some group is too short; otherwise there is one record per group, in order |
| ObjEmitter.BlockRecordsOk | tools_misc/wrl_to_obj.py:186-193 | an index block goes through exactly when every group is long enough; otherwise it fails with the block's own error |
| ObjEmitter.SeparatorObjectsOk | tools_misc/wrl_to_obj.py:183-194 | a separator's buffered lines come out exactly when it has colours and long enough groups; the failure is the first failing check |
| ObjEmitter.SeparatorText | tools_misc/wrl_to_obj.py:183-193 | the buffered text is `"o Error geometry: "` plus `infer_error_type`'s string, then the faces, then the lines |
| ObjEmitter.SeparatorFace | tools_misc/wrl_to_obj.py:186-189 | face `j` sits right after the object line and earlier faces, its first three indices shifted by the counter |
| ObjEmitter.SeparatorSegment | tools_misc/wrl_to_obj.py:190-193 | line `j` sits after the object line, all faces and earlier lines, its first two indices shifted by the counter |
| ObjEmitter.StepOkShape | tools_misc/wrl_to_obj.py:182-197 | a separator that goes through appends its points and its buffered lines, and the counter rises by its point count |
| ObjEmitter.StepFailure | tools_misc/wrl_to_obj.py:182-197 | a separator's failure is the reference `FailureOf`, and a failing separator changes nothing else |
| ObjEmitter.VerticesSpec | tools_misc/wrl_to_obj.py:194-196 | one `v` line per point, in order |
| ObjEmitter.RunCounts | tools_misc/wrl_to_obj.py:177 | after a run without failure, the vertices are all points in order and the counter is one past their number |
| ObjEmitter.RunOkLast | tools_misc/wrl_to_obj.py:182-198 | a run goes through exactly when the run before the last separator did and the last separator goes through |
| ObjEmitter.SucceedsIff | tools_misc/wrl_to_obj.py:182-198 | the conversion goes through exactly when every separator does |
| ObjEmitter.OkAt | tools_misc/wrl_to_obj.py:182-198 | every separator of a successful run goes through |
| ObjEmitter.RunAfterFailure | tools_misc/wrl_to_obj.py:182-198 | once a separator has failed, the later separators change nothing |
| ObjEmitter.FirstFailure | tools_misc/wrl_to_obj.py:182-198 | the first failing separator decides the failure, and only the points before it are written |
| ObjEmitter.RunPrefix | tools_misc/wrl_to_obj.py:182-198 | a successful run's earlier buffered lines come first in the buffer |
| ObjEmitter.AllCoordsPrefix | tools_misc/wrl_to_obj.py:194-197 | the points of the first separators come first among all points |
| ObjEmitter.GlobalIndex | tools_misc/wrl_to_obj.py:186-197 | local index `i` of separator `k`, plus one plus the earlier point count, is the 1-based number of that separator's point `i` among all points |
| ObjEmitter.RunStepObjects | tools_misc/wrl_to_obj.py:183-197 | a separator that goes through adds its lines shifted by one plus the number of points before it |
| ObjEmitter.RunObjectsSlice | tools_misc/wrl_to_obj.py:182-198 | in a successful run, separator `k`'s shifted lines sit right after those of the separators before it |
| ObjEmitter.OutputSucceeds | tools_misc/wrl_to_obj.py:180-201 | when every separator goes through, all `v` lines are written, then all buffered lines |
| ObjEmitter.OutputFails | tools_misc/wrl_to_obj.py:182-198 | a run stopped by separator `k` writes only the points before it, no buffered line, and fails as `k` does |
| ObjEmitter.FormatGroups | tools_misc/wrl_to_obj.py:187-193 | the loop over a block's groups writes each group's record, or fails at the first short group |
| ObjEmitter.FormatBlock | tools_misc/wrl_to_obj.py:186-193 | an absent or empty block adds nothing; otherwise as the group loop |
| ObjEmitter.FormatPoints | tools_misc/wrl_to_obj.py:194-197 | the point loop writes the `v` line of every point |
| ObjEmitter.EmitSeparator | tools_misc/wrl_to_obj.py:183-197 | one separator's failure is `FailureOf`; on success its `v` lines and buffered lines are the rendered reference |
| ObjEmitter.EmitSeparators | tools_misc/wrl_to_obj.py:177-201 | the separator loop writes the reference output and fails with the reference failure |
| ObjEmitter.WriteAll | tools_misc/wrl_to_obj.py:199-201 | the buffered lines are written in order |
| ObjEmitter.ConvertWrlToObj | tools_misc/wrl_to_obj.py:169-201 | the lines written and the escaping failure are those of `Convert` |

## Left out

- The command-line block (`tools_misc/wrl_to_obj.py:203-218`): argument parsing, opening and closing the streams, and printing the error before re-raising it.
- Stream writing: output is a list of lines, and the input is the whole text that `input_stream.read()` returns.
- The parser generator's internals: only the grammar it compiles is modelled. Its keyword name guard, which refuses an alphanumeric literal followed directly by a name character, is not modelled: literals match as plain prefixes.
- `\d` matches only ASCII digits here, while Python's pattern also matches other Unicode decimal digits.
- The transparency values are parsed and checked but never used, as in the source.
- A repetition that matches nothing (`point [ ]`, `diffuseColor [ ]`, `coordIndex [ ]`) is modelled as an empty list. The value the parser generator builds for it is library behaviour that is not part of this model. An empty colour list is handled as `None` is (`if mtl_diffuse_colors:`, `:118`). An empty point list makes the loop at `:194` write nothing, where `None` would raise.
- A document with no separator (the header alone) is modelled as an empty list of separators, so it converts to the header line alone. What the parser generator's `start` rule returns when `{ @+:separator }*` matches nothing is not modelled. If it is not an empty list, the loop at `:182` would fail after the header is written.
- WrlParser.IndexTok: it yields the number the digits spell (`int()` at `:188`/`:192`) instead of the digit text, because the index text is used only through `int()`.
- ObjEmitter.Render: text is built only at rendering. An `o` line holds the classifier's verdict and is rendered with the same `Title` that `infer_error_type`'s string is built from.
- WrlPrinter.ParsePrintRoundTrip: the read-back of whole blocks and documents is proved for the printer's single-line layout with one space before every token. Other layouts are covered token by token and for points and index-group lists (`WrlLayout`), not for whole blocks and documents.
- Numbers of floats: coordinates and colours stay text, as in the source.
