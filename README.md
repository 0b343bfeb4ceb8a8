# PCB thermal analyzer: a model of its three working pages

The PCB thermal analyzer is a Streamlit application that builds and post-processes an
Ansys Icepak thermal simulation of a printed circuit board from an IDF 3.0 board file
(`.bdf`/`.emn`) and its library file (`.ldf`/`.emp`). This project models the rules of
its three working pages in Dafny and proves properties of them.

- **Boundary-conditions file** (`pages/01_Create_Boundary_Conditions_File.py`, module
  `BcFile` in `bc_file.dfy`):
  - reads the `.PLACEMENT` block of the board file and tokenises each component's name
    line with the pattern the code picks: `".+?` when `""` occurs after the start of the
    line, `".+?"` otherwise;
  - takes the placement side from the fifth field of the following line;
  - replaces commas in every field and writes the CSV header and rows;
  - reads that file back as `pd.read_csv` does, so quoted names lose their quotes, empty
    names become missing values and all-digit columns become integers;
  - classifies reference designators (U, R, C, L, else MISC), failing on a value that is
    not a string;
  - reads the `.ELECTRICAL` entries of the library file, drops `THOU` and converts
    heights from thousandths of an inch to millimetres;
  - keeps the edit policy of the grid that shows the table.
- **Simulation setup** (`pages/02_Simulate.py`, module `Simulate` in `simulate.dfy`):
  - the gate that starts a run;
  - reading the 13-column table, and `name_cleanup`;
  - the top and bottom component lists, and the monitor-point dictionary;
  - deleting filtered objects or making them non-model;
  - the volume-ordered priority list;
  - mesh multipliers and sizes, and the mesh levels of primitives and PCB layers;
  - assigning boundary conditions per row (block, network or hollow, plus material and
    monitor point);
  - the forced-convection inlet/outlet plan, and the natural-convection gravity table (with
    the ambient temperature each branch hands over) and outlets;
  - the missing monitor points;
  - the opening boundary properties;
  - the flow-regime choice.
- **Post-processing** (`pages/03_Postprocessing.py`, module `Postprocessing` in
  `postprocessing.dfy`):
  - grouping boundary conditions by type;
  - associating each boundary condition with its objects or face;
  - the solid/hollow split for maximum temperatures;
  - monitor and network report quantities;
  - the board-side face list and heat-flux expressions;
  - the column renames of every report.

Shared modules:
- `Text` (`text.dfy`) models the Python string primitives the pages rely on:
  - `str.strip(chars)` as a character set, and `str.split(sep)` and `join`;
  - `str.replace` of one character and `find('""')`;
  - ASCII `casefold`, `str()` of a natural number and `float()` of a plain decimal;
  - `re.findall` of the name-line patterns.
- `Csv` (`csv.dfy`) models `pd.read_csv` with its default settings: the C tokenizer's
  fields and quotes, the row widths it accepts, the default missing-value strings and the
  integer, float or string type of each column.
- `Lists` (`lists.dfy`) holds the list comprehension that filters by membership and
  `list.remove`.
- `Results` (`results.dfy`) holds `Result`/`Option` and the messages of the Python
  exceptions the code can raise.

The vendor API (pyaedt/AEDT), the file system and the user interface are not modelled as
code. What they return becomes a parameter: the lines of a file, the list of solid bodies,
a volume function, the faces touching a layer, a boundary's assignment. What the pages
send to them becomes a returned plan: the priority list, mesh levels, boundary-condition
actions, openings and report quantities.

## Model

| member | source | states |
|---|---|---|
| Text.StripSpec | pages/03_Postprocessing.py:89-91 | `strip(chars)` returns the contiguous middle of the input after every leading and trailing character of the set is dropped; what remains starts and ends outside the set |
| Text.StripIdempotent | pages/03_Postprocessing.py:89-91 | stripping a second time with the same characters changes nothing |
| Text.StripFrame | pages/03_Postprocessing.py:132 | a core whose two ends lie outside the set comes back unchanged from stripping a frame of set characters around it |
| Text.StripAll | pages/03_Postprocessing.py:309 | a string made only of set characters strips to the empty string |
| Text.Split | pages/01_Create_Boundary_Conditions_File.py:162 | `split(sep)` yields at least one piece and no piece contains the separator; empty pieces are kept |
| Text.JoinSplit | pages/01_Create_Boundary_Conditions_File.py:162 | joining the pieces of a split with the same separator rebuilds the input |
| Text.SplitJoin | pages/01_Create_Boundary_Conditions_File.py:178 | splitting a join of separator-free pieces gives back exactly those pieces |
| Text.ReplaceChar | pages/01_Create_Boundary_Conditions_File.py:167-169 | `replace` of one character keeps the length, puts the new character at every position that held the old one, keeps every other character, and leaves no old character behind |
| Text.FindEmptyQuotes | pages/01_Create_Boundary_Conditions_File.py:156 | `find('""')` gives the first position of two adjacent quotes at or after the start, or -1 exactly when there is none |
| Text.Lower | pages/02_Simulate.py:35-36 | `casefold` of ASCII text keeps the length, maps each upper-case letter to its lower-case letter and keeps every other character |
| Text.LowerIdempotent | pages/02_Simulate.py:35-36 | casefolding twice is casefolding once |
| Text.NatToStringValue | pages/02_Simulate.py:953 | the decimal digits `str()` writes for a face id read back as that number |
| Text.NatToStringInjective | pages/02_Simulate.py:953 | two face ids with the same decimal text are equal |
| Text.FindAll | pages/01_Create_Boundary_Conditions_File.py:157-159 | every token `re.findall` returns for the name-line pattern is non-empty and does not start with whitespace |
| Text.FindAllJoin | pages/01_Create_Boundary_Conditions_File.py:159 | the tokens of a line written as well-formed tokens joined by spaces are those tokens, in order |
| Text.ClosedAgreesWithoutEmptyQuotes | pages/01_Create_Boundary_Conditions_File.py:156-159 | on a line without `""`, the pattern the code uses there (`".+?"`) finds the same tokens as one that also accepts an empty quoted name |
| Text.LoneEmptyQuotesSkipped | pages/01_Create_Boundary_Conditions_File.py:158-159 | with the closed quoted alternative, a `""` followed by a space starts no token, so the line `"" U1` yields the single token `U1` |
| Lists.Without | pages/02_Simulate.py:709 | the comprehension keeps x exactly when x is in the list and not in the excluded list, and never grows the list |
| Lists.WithoutAppend | pages/02_Simulate.py:709 | filtering a concatenation is the concatenation of the filtered parts, so the order of kept elements is preserved |
| Lists.RemoveIfPresent | pages/03_Postprocessing.py:150-152 | guarded `remove`: an absent element leaves the list unchanged; a present one shortens it by one and removes one copy of that element from its multiset |
| Lists.RemoveDistinct | pages/03_Postprocessing.py:255-257 | on a list without duplicates, removing x keeps every other element and only those, and the result has no duplicates |
| BcFile.FirstTagged | pages/01_Create_Boundary_Conditions_File.py:144-146 | the index the scan for a tag stops at: every line before it differs from the tag, and it is either the end or a line equal to the tag |
| BcFile.SkipUntil | pages/01_Create_Boundary_Conditions_File.py:144-146 | the loop that skips up to `.PLACEMENT` stops at the first stripped line equal to the tag, or at the end |
| BcFile.CollectUntil | pages/01_Create_Boundary_Conditions_File.py:147-150 | the loop that collects lines after the tag returns exactly the lines from the start point up to the first `.END_PLACEMENT`, or up to the end |
| BcFile.ExtractPlacement | pages/01_Create_Boundary_Conditions_File.py:143-150 | the two loops over one file iterator give the placement block of the stripped file |
| BcFile.NoPlacementTag | pages/01_Create_Boundary_Conditions_File.py:143-150 | a file without `.PLACEMENT` yields no components |
| BcFile.PlacementBlockContents | pages/01_Create_Boundary_Conditions_File.py:143-150 | after the first `.PLACEMENT` the block is a contiguous run of lines without `.END_PLACEMENT`, followed by the end tag or the end of the file |
| BcFile.Evens | pages/01_Create_Boundary_Conditions_File.py:151 | `[::2]` has (n+1)/2 elements and its k-th is element 2k |
| BcFile.Odds | pages/01_Create_Boundary_Conditions_File.py:152 | `[1::2]` has n/2 elements and its k-th is element 2k+1 |
| BcFile.QuotedPackageSplit | pages/01_Create_Boundary_Conditions_File.py:156-159 | for a quoted package name of two or more characters followed by an empty part name, the corrected tokenizer returns the tokens as written, while the code's `".+?` branch cuts the package name after its first character |
| BcFile.EmptyPartNameOnlyRaises | pages/01_Create_Boundary_Conditions_File.py:156-161 | a name line `"" U1` (no package name, empty part name) has one token as the code reads it, so taking its second token raises an IndexError |
| BcFile.NameTokensAgree | pages/01_Create_Boundary_Conditions_File.py:156-159 | on a line without `""` the code's tokens are those of the corrected tokenizer |
| BcFile.NamedTokens | pages/01_Create_Boundary_Conditions_File.py:156-161 | with the tokens the code finds, it succeeds exactly when the line has at least two (otherwise `n[1]` raises IndexError); an empty part name `""` in second place becomes `NOPARTNAME` and every other token is kept |
| BcFile.PlacementSideOfFields | pages/01_Create_Boundary_Conditions_File.py:162-163 | on a placement line of five or more space-separated fields, the side is the fifth field |
| BcFile.ParseComponents | pages/01_Create_Boundary_Conditions_File.py:155-165 | one record per name line on success; any failure is an index error |
| BcFile.ParseComponentsOk | pages/01_Create_Boundary_Conditions_File.py:155-165 | parsing succeeds exactly when every name line has two tokens and its placement line has five fields |
| BcFile.ParseComponentsAt | pages/01_Create_Boundary_Conditions_File.py:155-165 | on success, record i is the name tokens of line pair i followed by its placement side |
| BcFile.ParseComponentsFails | pages/01_Create_Boundary_Conditions_File.py:155-165 | one name/placement pair that cannot be parsed makes the whole parse an index error |
| BcFile.ParseDesignators | pages/01_Create_Boundary_Conditions_File.py:154-165 | the designator loop gives the same result as the record parse, stopping at the first line pair that raises |
| BcFile.SanitizeRecord | pages/01_Create_Boundary_Conditions_File.py:167-169 | every field of a record has its commas replaced, and the number of fields is kept |
| BcFile.SanitizeAll | pages/01_Create_Boundary_Conditions_File.py:167-169 | every record of the list is sanitised, and the number of records is kept |
| BcFile.SanitizedRecord | pages/01_Create_Boundary_Conditions_File.py:167-169 | a sanitised field has no comma, has the original length, has `_` where commas were, and keeps every other character |
| BcFile.SanitizeInPlace | pages/01_Create_Boundary_Conditions_File.py:167-169 | the nested in-place loop leaves every record equal to its sanitised original |
| BcFile.RowDefaultsJoin | pages/01_Create_Boundary_Conditions_File.py:178 | the literal row tail is the six default values joined by commas |
| BcFile.EmitRowJoins | pages/01_Create_Boundary_Conditions_File.py:178 | a written row is `YES`, the record fields and the six defaults joined by commas, then a newline |
| BcFile.RowsTextLines | pages/01_Create_Boundary_Conditions_File.py:177-179 | the rows written after the header are, line by line, `YES`, the record's fields and the defaults joined by commas |
| BcFile.HeaderAndDefaultsPlain | pages/01_Create_Boundary_Conditions_File.py:174-178 | the eleven header names, `YES` and the six defaults hold no quote, comma or newline |
| BcFile.PlainUnquoted | pages/01_Create_Boundary_Conditions_File.py:182 | fields without quotes read back unchanged |
| BcFile.ReadWrittenFile | pages/01_Create_Boundary_Conditions_File.py:172-182 | reading the written file gives the eleven header names as columns, and as rows whatever the reader makes of the text after the header |
| BcFile.WrittenFieldsEncodable | pages/01_Create_Boundary_Conditions_File.py:178 | a record of plain or quoted fields is written as a line of plain or quoted fields, which reads back as `YES`, the fields without their quotes and the defaults |
| BcFile.ReadBackRecords | pages/01_Create_Boundary_Conditions_File.py:177-182 | a file of records whose fields are plain or quoted reads back as one record per written row, in order, quotes removed |
| BcFile.ReadBackFrame | pages/01_Create_Boundary_Conditions_File.py:172-182 | four-field records of plain or quoted fields read back as a frame with the header's columns and, per record, the typed values of its unquoted text |
| BcFile.Classify | pages/01_Create_Boundary_Conditions_File.py:185-199 | the type is MISC exactly when the designator does not start with U, R, C or L followed by a digit; otherwise the designator starts with that type's letter and a digit |
| BcFile.ClassifyByPrefix | pages/01_Create_Boundary_Conditions_File.py:185-199 | only the first two characters decide the type |
| BcFile.ClassifyExamples | pages/01_Create_Boundary_Conditions_File.py:185-199 | U3, R101, C7A and L2 get their types; XYZ1, U and UA1 are MISC |
| BcFile.LibraryEntries | pages/01_Create_Boundary_Conditions_File.py:204-214 | every entry read from the line after an `.ELECTRICAL` line has at least two tokens |
| BcFile.TagPositionsSpec | pages/01_Create_Boundary_Conditions_File.py:205-207 | the tag lines the loop acts on are increasing `.ELECTRICAL` lines, never adjacent, and every `.ELECTRICAL` line is one of them unless the line before it is one, since `next()` consumed it |
| BcFile.EntriesSkip | pages/01_Create_Boundary_Conditions_File.py:205-206 | a line that does not start with the tag is passed over |
| BcFile.EntriesTag | pages/01_Create_Boundary_Conditions_File.py:205-214 | a tag line followed by another line contributes the tokens of that line first, or makes the read fail |
| BcFile.EntriesFrom | pages/01_Create_Boundary_Conditions_File.py:204-214 | from any line on, the entries are those read after each tag position, and the read fails exactly when one of them cannot be read |
| BcFile.ReadAtAllCons | pages/01_Create_Boundary_Conditions_File.py:204-214 | reading at one more tag position in front adds its entry in front, and fails exactly when that entry or the rest fails |
| BcFile.LibraryEntriesSpec | pages/01_Create_Boundary_Conditions_File.py:204-214 | entry k is the named tokens of the line after the k-th `.ELECTRICAL` position; reading fails exactly when some such position is the last line (`next()` raises StopIteration) or its next line has fewer than two tokens |
| BcFile.RemoveFirst | pages/01_Create_Boundary_Conditions_File.py:216-217 | `remove('THOU')` shortens the entry by one and removes exactly one copy of `THOU` from its multiset |
| BcFile.RemoveThouInPlace | pages/01_Create_Boundary_Conditions_File.py:216-217 | the in-place loop succeeds exactly when every entry contains `THOU`, and then replaces each entry by that entry with its first `THOU` removed |
| BcFile.DropThou | pages/01_Create_Boundary_Conditions_File.py:216-217 | the removal succeeds exactly when every entry contains `THOU` (otherwise `remove` raises) and keeps the number of entries |
| BcFile.ApplyEntrySpec | pages/01_Create_Boundary_Conditions_File.py:226-228 | the inner loop for one entry fails exactly when it indexes past the entry or a matched height is not a float; otherwise a part is set to the converted height when it matches the entry's part name, and is kept when it does not |
| BcFile.HeightsFromSpec | pages/01_Create_Boundary_Conditions_File.py:225-228 | the outer loop succeeds exactly when every entry is usable, and each part then holds the height of the last entry naming it, or its earlier value |
| BcFile.HeightsSpec | pages/01_Create_Boundary_Conditions_File.py:224-228 | starting from zeros, each part's height is that of the last library entry whose name equals it, times 0.0254, or 0 when none does; a part name the frame does not hold as a string equals no library name |
| BcFile.ComponentHeights | pages/01_Create_Boundary_Conditions_File.py:224-228 | the array loop computes the heights of the specification, errors included |
| BcFile.BoardRecords | pages/01_Create_Boundary_Conditions_File.py:140-169 | the board side yields records of at least three fields (two name tokens and the side) when it succeeds, and otherwise an index error |
| BcFile.RecordsWidth | pages/01_Create_Boundary_Conditions_File.py:155-165 | every parsed record holds at least two name tokens and the side |
| BcFile.BoardFrame | pages/01_Create_Boundary_Conditions_File.py:172-182 | the frame read back has the eleven header columns and eleven values per row; it fails with an index error or a tokenizing error |
| BcFile.DesignatorTypes | pages/01_Create_Boundary_Conditions_File.py:183-199 | the designator loop succeeds exactly when every `Instance_Name` value is a string (`re.match` raises otherwise), and then gives each row the type of its instance name |
| BcFile.ClassifyDesignators | pages/01_Create_Boundary_Conditions_File.py:184-199 | the loop appending one type per value computes the designator types, errors included |
| BcFile.Key | pages/01_Create_Boundary_Conditions_File.py:227 | a frame value can equal a library part name exactly when it is a string |
| BcFile.TableRowOf | pages/01_Create_Boundary_Conditions_File.py:200-230 | a table row holds the eleven values read, the inserted designator type and the inserted height |
| BcFile.LibraryHeights | pages/01_Create_Boundary_Conditions_File.py:203-228 | the library side yields one height per part when it succeeds |
| BcFile.ReadBoard | pages/01_Create_Boundary_Conditions_File.py:140-169 | the loops over the board file compute the board records of the specification |
| BcFile.ReadLibraryHeights | pages/01_Create_Boundary_Conditions_File.py:203-228 | the loops over the library file compute the heights of the specification |
| BcFile.GenerateBoundaryConditions | pages/01_Create_Boundary_Conditions_File.py:138-230 | the whole Generate step, writing the file, reading it back, classifying and joining the heights, computes the table of the specification |
| BcFile.BuildTableRows | pages/01_Create_Boundary_Conditions_File.py:181-230 | every row of a generated table holds the values of one row of the frame read back, in order and one per frame row; its instance name is a string and decides its type |
| BcFile.BuildTableHeights | pages/01_Create_Boundary_Conditions_File.py:203-230 | each generated row's height is that of the last sanitised library entry naming its part, and 0 when the part name is not read back as a string |
| BcFile.BoardRecordsRows | pages/01_Create_Boundary_Conditions_File.py:140-169 | record i comes from name line 2i and placement line 2i+1 of the placement block: the sanitised name tokens followed by the sanitised side |
| BcFile.BoardFrameEncodable | pages/01_Create_Boundary_Conditions_File.py:172-182 | when every record has four plain or quoted fields, the frame holds per record the typed values of `YES`, its unquoted fields and the defaults |
| BcFile.BuildTableEncodable | pages/01_Create_Boundary_Conditions_File.py:172-201 | in that case the table has one row per record, holding those values, and a row's type is that of the record's unquoted instance name |
| BcFile.IntegerReadBackColumn | pages/01_Create_Boundary_Conditions_File.py:182 | when every part name, unquoted, reads as an integer, the read-back `Part_Name` column holds integers |
| BcFile.IntegerPartColumn | pages/01_Create_Boundary_Conditions_File.py:182 | so the frame's `Part_Name` column holds integers |
| BcFile.IntegerPartNamesGetNoHeight | pages/01_Create_Boundary_Conditions_File.py:182-228 | then no part name equals a library name, so every row's part is an integer and its height stays 0 |
| BcFile.SanitizedTokenEncodable | pages/01_Create_Boundary_Conditions_File.py:157-169 | a well-formed token (a word, or a quoted name without quotes inside) is written as a plain or quoted field once its commas are replaced |
| BcFile.SecondTokenNotEmptyQuoted | pages/01_Create_Boundary_Conditions_File.py:156-160 | on a line without `""` the second token is not `""` |
| BcFile.TokensAsWrittenOfJoin | pages/01_Create_Boundary_Conditions_File.py:156-159 | the code's tokenizer reads a line of well-formed tokens without `""` back as those tokens |
| BcFile.WellFormedNameLine | pages/01_Create_Boundary_Conditions_File.py:156-161 | a name line of well-formed tokens without `""` gives exactly those tokens |
| BcFile.QuotedDesignatorExample | pages/01_Create_Boundary_Conditions_File.py:182-199 | a quoted designator `"U3"` is written as a quoted field and read back as `U3`, an integrated circuit, where the written text itself would be MISC |
| BcFile.EditCell | pages/01_Create_Boundary_Conditions_File.py:244-267 | an edit never changes the number of cells |
| BcFile.EditsKeepPolicy | pages/01_Create_Boundary_Conditions_File.py:244-267 | after any edits, read-only columns hold their original values and dropdown columns that started with one of their choices still hold one of them |
| Csv.FieldRest | pages/01_Create_Boundary_Conditions_File.py:182 | a field's scan never grows the text; it consumes something unless the text ends, and leaves nothing after the end of the text |
| Csv.RecordOf | pages/01_Create_Boundary_Conditions_File.py:182 | a record has at least one field and consumes text; it fails only with a tokenizing error (end of text inside quotes) |
| Csv.FieldRestPlain | pages/01_Create_Boundary_Conditions_File.py:182 | a field without comma or newline, then a comma or a newline, reads as that field |
| Csv.FieldRestQuoted | pages/01_Create_Boundary_Conditions_File.py:182 | inside quotes, text without a quote followed by a closing quote and a comma or a newline reads as that text |
| Csv.FieldAtEncodable | pages/01_Create_Boundary_Conditions_File.py:182 | a plain or quoted field followed by a comma or a newline reads back as its unquoted text, and the rest follows |
| Csv.RecordOfEncodable | pages/01_Create_Boundary_Conditions_File.py:182 | plain or quoted fields joined by commas and ended by a newline read back as one record of their unquoted texts |
| Csv.RecordsOfLines | pages/01_Create_Boundary_Conditions_File.py:182 | lines of plain or quoted fields, none blank, read back as one record per line, quotes removed |
| Csv.LayOut | pages/01_Create_Boundary_Conditions_File.py:182 | laid-out rows have the header's width, one per data row; the only failure is a tokenizing error |
| Csv.LayOutSpec | pages/01_Create_Boundary_Conditions_File.py:182 | the layout fails exactly when a row is wider than the first data row and the header; otherwise value j of row i is field lead+j of that row, or empty past its end, where lead is how much wider than the header the first data row is (those fields form the index) |
| Csv.LayOutExact | pages/01_Create_Boundary_Conditions_File.py:182 | rows exactly as wide as the header come through unchanged |
| Csv.NaIsNotNumeric | pages/01_Create_Boundary_Conditions_File.py:182 | no default missing-value string reads as an integer |
| Csv.Convert | pages/01_Create_Boundary_Conditions_File.py:182 | a value is missing exactly when it is a missing-value string; a string value is the text itself and occurs only when its column's type does not read it as a number; an integer or float value occurs only in a column of that type and is the number the text spells |
| Csv.TextColumn | pages/01_Create_Boundary_Conditions_File.py:182 | one value that is neither missing nor a number makes the column a string column, where every value is its text or missing |
| Csv.IntColumn | pages/01_Create_Boundary_Conditions_File.py:182 | a column whose every value is an integer reads as integers, each the one its text spells |
| Csv.FrameOf | pages/01_Create_Boundary_Conditions_File.py:182 | the frame has the header as columns and one row of header width per data record, or a tokenizing error |
| Csv.ReadCsv | pages/01_Create_Boundary_Conditions_File.py:182 | every row of a frame read has one value per column; the errors are a tokenizing error or an empty file |
| Csv.ReadCsvAfterHeader | pages/01_Create_Boundary_Conditions_File.py:182 | a header line of plain or quoted names gives the unquoted names as columns and the records after it as rows |
| Simulate.NameCleanup | pages/02_Simulate.py:834-835 | `re.sub(r"\W", "_", name)` keeps the length, keeps word characters, puts `_` for every other character, and leaves only word characters |
| Simulate.NameCleanupKeepsWords | pages/02_Simulate.py:834-835 | a name made of word characters is unchanged |
| Simulate.NameCleanupIdempotent | pages/02_Simulate.py:834-835 | cleaning a cleaned name changes nothing |
| Simulate.RowRoundTrip | pages/02_Simulate.py:838-840 | a 13-field row and its named columns convert into each other both ways |
| Simulate.ReadRows | pages/02_Simulate.py:838-840 | the model loads the rows exactly when each has 13 fields, each loaded row holding the fields read; any other width is the column-count error (stricter than the page, see RowsAccepted) |
| Simulate.MaxWidth | pages/02_Simulate.py:840 | the width pandas lays the rows out at: no row is wider, some row has it, and it is 0 for no rows |
| Simulate.RowsAccepted | pages/02_Simulate.py:608-840 | the page gets past its row loops and the data frame exactly when every row has fields 0 and 3 (and 6 when it names a component) and at most 13 fields, with some row of 13 unless there are none; a row the loops cannot index is the IndexError, the rest the column-count error |
| Simulate.ReadRowsAccepted | pages/02_Simulate.py:608-840 | the model loads exactly the accepted row lists whose rows are all 13 wide |
| Simulate.PaddedRowRefused | pages/02_Simulate.py:840 | next to a full row, a shorter row the loops can index is padded and loaded by the page but refused by the model |
| Simulate.BlankLineRaises | pages/02_Simulate.py:610-611 | a blank line gives an empty row, on which the side loop raises IndexError before the data frame is built |
| Simulate.PartitionBySide | pages/02_Simulate.py:608-616 | the loop builds the cleaned names of the TOP rows and of the BOTTOM rows, in row order, skipping NOREFDES |
| Simulate.SideNamesAppend | pages/02_Simulate.py:608-616 | the side lists of concatenated rows are the concatenations of their side lists |
| Simulate.SideNamesMembers | pages/02_Simulate.py:610-616 | a name is in a side's list exactly when some row on that side, not NOREFDES, cleans to it |
| Simulate.SidesShareNoRow | pages/02_Simulate.py:613-616 | together the two lists are no longer than the rows, since no row goes to both |
| Simulate.Exclusions | pages/02_Simulate.py:656-664 | no more exclusions than rows, and each is a deletion exactly when `delete_filtered` is set (otherwise it makes the object non-model) |
| Simulate.ExclusionsMembers | pages/02_Simulate.py:656-659 | a name is excluded exactly when some row is `Include == NO`, is not NOREFDES, and cleans to that name |
| Simulate.ApplyExclusion | pages/02_Simulate.py:660-664 | excluding an object succeeds exactly when the model has it |
| Simulate.ExclusionsTouchNothingElse | pages/02_Simulate.py:656-664 | objects that no exclusion names keep their presence and their model flag |
| Simulate.ExclusionsEffect | pages/02_Simulate.py:661-664 | a deleted object is gone; an object only made non-model is still present with its model flag false |
| Simulate.ExclusionFailsOnMissing | pages/02_Simulate.py:660-662 | an exclusion naming an object the model lacks makes the step fail |
| Simulate.BodyKeys | pages/02_Simulate.py:667-670 | the volume dictionary's keys are the solid bodies other than Region, each once |
| Simulate.BodyVolumeKeys | pages/02_Simulate.py:667-670 | the loop that fills the dictionary computes those keys |
| Simulate.InsertPermutes | pages/02_Simulate.py:671 | inserting into the ordered list adds exactly the inserted element to its multiset |
| Simulate.SortByVolumePermutes | pages/02_Simulate.py:671 | the volume sort is a permutation of its input |
| Simulate.InsertKeepsOrder | pages/02_Simulate.py:671 | inserting into a list of non-increasing volume keeps it non-increasing |
| Simulate.SortByVolumeOrdered | pages/02_Simulate.py:671 | the sorted list has non-increasing volumes (`reverse=True`) |
| Simulate.InsertStable | pages/02_Simulate.py:671 | insertion puts a new element after every earlier element of equal volume |
| Simulate.SortByVolumeStable | pages/02_Simulate.py:671 | elements of equal volume keep their dictionary order, as Python's stable reverse sort does |
| Simulate.SortedKeysSkipRegion | pages/02_Simulate.py:678-679 | Region never reaches the priority list, so the test at the loop is always true |
| Simulate.PriorityList | pages/02_Simulate.py:672-689 | the k-th priority entry names the k-th body of the sorted list, as a 3D Object, with priority number k+2 |
| Simulate.PriorityOrder | pages/02_Simulate.py:667-689 | the priority order holds every non-Region solid body exactly once, largest volume first, with ties in dictionary order |
| Simulate.MultipliersByFidelity | pages/02_Simulate.py:735-743 | the xy and z multipliers strictly decrease from Coarse to Medium to Fine; any other value takes the Fine branch |
| Simulate.FirstArgMax | pages/02_Simulate.py:732-733 | the chosen bin has the largest count, and no earlier bin is as large, as `np.argmax` picks |
| Simulate.FirstMaxUnique | pages/02_Simulate.py:732-733 | that choice is unique |
| Simulate.MinOf | pages/02_Simulate.py:748 | `min` succeeds exactly on a non-empty list, returns an element no larger than any other, and raises on an empty list |
| Simulate.MeshSizing | pages/02_Simulate.py:746-748 | the sizes exist exactly when there are PCB layer heights; otherwise `min` raises |
| Simulate.MeshSizingSpec | pages/02_Simulate.py:746-748 | x and y are the multiplier times the sum of the modal bin's two edges, z is the z multiplier times the smallest layer height, and the global sizes are four times these (lines 811-813) |
| Simulate.PrimitiveObjects | pages/02_Simulate.py:705-709 | `remove('Region')` raises when Region is absent; otherwise the primitives are the model objects minus the first Region and the PCB layers, in order |
| Simulate.MeshLevels | pages/02_Simulate.py:798-807 | the mesh-level dictionary has exactly the given objects as keys, each at the given level |
| Simulate.ZeroReadsAsZero | pages/02_Simulate.py:856 | the default power text `0` reads as the number zero |
| Simulate.ZeroPowerBlockGetsSource | pages/02_Simulate.py:855-858 | as written, a block row with power `0` still gets a 0 W source block |
| Simulate.RowActionsSpec | pages/02_Simulate.py:853-884 | as the page performs it, a row gets a source exactly when it is a block or hollow, whatever its power; a material exactly when it is a block with a material; a network exactly when network; solve-inside off exactly when hollow; the error exactly for any other type; a monitor point exactly when `Monitor_Point == YES`; every action names the row's cleaned block |
| Simulate.ActionsSpec | pages/02_Simulate.py:853-884 | for either outcome of the block power test, which actions a row gets and that each names the row's cleaned block |
| Simulate.RowActionsIntendedSpec | pages/02_Simulate.py:855-858 | with the numeric test, a row gets a source exactly when it is a block whose power does not read as zero, or hollow; the other actions are unchanged |
| Simulate.RowActionsDiffer | pages/02_Simulate.py:856 | the code's actions and the numeric test's differ exactly for a block whose power reads as zero |
| Simulate.ZeroPowerBlockNoSource | pages/02_Simulate.py:855-858 | with the numeric test, a zero-power block gets no source |
| Simulate.DispatchAppend | pages/02_Simulate.py:853 | rows are processed in order, and the actions of concatenated rows are concatenated |
| Simulate.DispatchOnlySelected | pages/02_Simulate.py:842-843 | every action comes from a row with `Include == YES` that is not NOREFDES |
| Simulate.RowErrors | pages/02_Simulate.py:871-873 | a row reports one error exactly when its type is not block, network or hollow |
| Simulate.DispatchErrors | pages/02_Simulate.py:853-873 | the assignment reports as many errors as there are selected rows with an unknown type |
| Simulate.PointKeys | pages/02_Simulate.py:639-653 | with `all_points`, the dictionary holds `point_` plus the cleaned name of every row that is not NOREFDES, each once; without it, nothing |
| Simulate.PointNames | pages/02_Simulate.py:639-653 | the loop over the rows builds those keys |
| Simulate.MissingMonitors | pages/02_Simulate.py:956-960 | a point is created exactly when it is in the dictionary and has no monitor yet; since the dictionary's keys are distinct, no point is created twice |
| Simulate.OpeningPropsSpec | pages/02_Simulate.py:182-193 | a velocity opening carries faces, velocity inlet type, static pressure, the three velocities and temperature; any other kind carries faces, pressure inlet type, total pressure and temperature, with the given values |
| Simulate.ForcedConvectionSpec | pages/02_Simulate.py:886-946 | the inlet is on the face the flow enters and the outlet on the opposite face; the inlet carries the speed along the flow axis only, and the temperature in `cel`; the outlet is a pressure opening; the region is padded 100 along the flow axis and 50 elsewhere |
| Simulate.GravityBranchSpec | pages/02_Simulate.py:105-130 | each gravity branch hands the ambient temperature and its direction code to the Icepak settings and the region padding of its row of the table (250 on one side, 200 or 50 on the others), and puts the 0.00098 m/s initial drift on the gravity axis only, positive for a minus direction and negative for a plus one |
| Simulate.NaturalGravityChoices | pages/02_Simulate.py:105-130 | -X, -Y, -Z, +X, +Y, +Z select direction codes 0 to 5 once cased to lower case |
| Simulate.NaturalGravitySpec | pages/02_Simulate.py:104-130 | whatever the direction, the ambient temperature handed over is the page's air temperature (passed at lines 950-951) with the `cel` unit; the direction picks its branch after case folding and its case does not matter |
| Simulate.GravityChoice | pages/02_Simulate.py:105-130 | a direction of sign s and axis a selects code (0 for minus, 3 for plus) plus the axis offset |
| Simulate.NaturalOutletsSpec | pages/02_Simulate.py:952-954 | each outlet is on its own face, and distinct faces give distinct outlet names |
| Simulate.OutletAt | pages/02_Simulate.py:952-954 | outlet i is named `outlet_` plus its face id and is an ambient-pressure opening on that face |
| Simulate.PageFlowModel | pages/02_Simulate.py:35-44 | the page's `Turbulent` regime with the default model selects the zero-equation turbulence model |
| Simulate.ChooseFlowModelIgnoresCase | pages/02_Simulate.py:35-44 | the choice of flow model depends on the regime and the model name only up to letter case |
| Simulate.ConvectionSetupSpec | pages/02_Simulate.py:887-951 | a setup is made exactly for Forced or Natural; both are zero-equation turbulent; gravity and radiation are on exactly for Natural, sequential solve exactly for Forced, and the iteration limit exceeds 300 exactly for Natural |
| Postprocessing.GroupByType | pages/03_Postprocessing.py:27-38 | the loop that builds the dictionary by type computes the grouping |
| Postprocessing.GroupedSpec | pages/03_Postprocessing.py:27-38 | a type is a key exactly when some boundary has that type, and its list is the names of the boundaries of that type in order |
| Postprocessing.OfTypeMembers | pages/03_Postprocessing.py:30-37 | a name is in a type's list exactly when a boundary of that name has that type |
| Postprocessing.Associate | pages/03_Postprocessing.py:49-60 | `sheet[0]` raises exactly for a face-based boundary with no assignment; an object-based boundary maps each assigned id to its object name; a face-based one maps its first face; any other type has no objects |
| Postprocessing.AssociateAll | pages/03_Postprocessing.py:42-61 | the loop over boundaries computes the associations |
| Postprocessing.AssociationsSpec | pages/03_Postprocessing.py:42-61 | the associations succeed exactly when no face-based boundary is unassigned, and then entry i is the association of boundary i |
| Postprocessing.SplitBlocks | pages/03_Postprocessing.py:156-174 | the nested loops give the objects of Solid Block boundaries followed by the 3D component's parts, and the objects of Hollow Block boundaries |
| Postprocessing.CollectMembers | pages/03_Postprocessing.py:158-165 | an object is collected for a type exactly when a boundary of that type is associated with it |
| Postprocessing.MaxTemperatureSources | pages/03_Postprocessing.py:175-195 | a maximum-temperature expression exists exactly for each object of a solid or hollow block and each 3D component part |
| Postprocessing.ComponentsSpec | pages/03_Postprocessing.py:254-262 | with distinct model objects, the components are the objects other than Region and the PCB layers |
| Postprocessing.ComponentsInOrder | pages/03_Postprocessing.py:254-262 | when Region occurs at most once, removing it first and filtering the layers equals filtering both out, in order |
| Postprocessing.MonitorQuantities | pages/03_Postprocessing.py:66-70 | one quantity per monitor point, in order: the point name plus `.Temperature` |
| Postprocessing.NetworkQuantities | pages/03_Postprocessing.py:105-144 | without a Network type the page returns the no-network message; otherwise one quantity per network block, in order: its name plus `.Internal.Temperature` |
| Postprocessing.FaceId | pages/03_Postprocessing.py:274 | `split(' ')[1]` raises exactly when the face text has fewer than two words |
| Postprocessing.FaceIdOfWords | pages/03_Postprocessing.py:274 | for space-separated words the id is the second word |
| Postprocessing.HeatFluxEntryOf | pages/03_Postprocessing.py:266-289 | a component's entry fails exactly when it has no board-side face or the face text has no second word; otherwise it has that face id, the face list `comp_board_side` and the expression `comp_board_side_heat_flux` |
| Postprocessing.HeatFluxPlan | pages/03_Postprocessing.py:265-289 | the plan succeeds exactly when every component's entry does, and then holds those entries in component order |
| Postprocessing.RenameColumns | pages/03_Postprocessing.py:130-133 | each column is renamed in place and order |
| Postprocessing.RenamesAreStrips | pages/03_Postprocessing.py:88-92 | every rename is a fixed point of its own strip, and the object and heat-flux names start and end outside their stripped sets |
| Postprocessing.HeatFluxColumnRecovers | pages/03_Postprocessing.py:307-310 | a heat-flux column gives back the component name when the name's ends lie outside the stripped set |
| Postprocessing.HeatFluxRenameLosesTrailing | pages/03_Postprocessing.py:309 | as written, the column of a component named m plus a letter of the stripped set is renamed to m |
| Postprocessing.HeatFluxRenameExample | pages/03_Postprocessing.py:309 | as written, `R1a_board_side_heat_flux` is renamed to `R1` |
| Postprocessing.HeatFluxComponentRecovers | pages/03_Postprocessing.py:308-310 | with suffix removal, any space-free component name comes back from its heat-flux column, with or without a unit |
| Postprocessing.NetworkRenameLosesLeadingI | pages/03_Postprocessing.py:131-133 | as written, the column of a network block named `I` plus m is renamed to m |
| Postprocessing.NetworkRenameExample | pages/03_Postprocessing.py:132 | as written, `IC1.Internal.Temperature` is renamed to `C1` |
| Postprocessing.NetworkColumnRecovers | pages/03_Postprocessing.py:131-133 | with suffix removal, any space-free block name comes back from its column, with or without a unit |
| Postprocessing.StripPointPrefix | pages/03_Postprocessing.py:89 | stripping `point_` characters recovers a core whose ends lie outside that set |
| Postprocessing.StripTemperature | pages/03_Postprocessing.py:91 | stripping `.Temperature` characters recovers a name whose ends lie outside that set |
| Postprocessing.MonitorColumnRecoversAsWritten | pages/03_Postprocessing.py:88-92 | as written, a monitor column `point_` + name + `.Temperature` + unit gives back the name when its ends avoid the stripped sets |
| Postprocessing.MonitorRenameQuantity | pages/03_Postprocessing.py:89-91 | as written, stripping the point prefix and taking the first word leaves the quantity name, which the last strip then works on |
| Postprocessing.MonitorRenameLosesLeadingT | pages/03_Postprocessing.py:89-91 | as written, the column of a monitor point named `T` plus m is renamed to m |
| Postprocessing.MonitorRenameExample | pages/03_Postprocessing.py:89-91 | as written, `point_TP1.Temperature [cel]` is renamed to `P1` |
| Postprocessing.RemovePrefix | pages/03_Postprocessing.py:89 | removing a prefix the text starts with leaves what follows it; any other text is kept |
| Postprocessing.MonitorColumnRecovers | pages/03_Postprocessing.py:88-92 | with prefix and suffix removal, any space-free point name comes back from its column, with or without a unit |

## Left out

- The user interface is input: Streamlit widgets, the tkinter file dialogs, session state and messages. The page-04 contact page has no logic.
- The vendor API and process control are not modelled: every pyaedt/AEDT call, the launch and `quit_aedt`, and `os.kill`. What they return is a parameter; what they receive is a returned plan.
- File I/O is not modelled: opening, reading and writing files, material creation from the materials file, and report export. A file is its text or its lines. The `pd.read_csv` at pages/01_Create_Boundary_Conditions_File.py:182 is modelled by `Csv.ReadCsv` on the text written at lines 172-179. The final `to_csv` (line 232) and the read that displays the table (line 240) are not: the table is the frame the page holds in memory.
- The gap moves of pages/02_Simulate.py:618-636 are left out: they are arithmetic on face coordinates the vendor returns.
- The `top_components[0]`, `bottom_components[0]` and `pcb[0]` IndexErrors at pages/02_Simulate.py:618-622 are not modelled. The model starts after that point.
- The slack sizes and region box at pages/02_Simulate.py:751-795 are vendor calls on vendor data.
- The temperature contours at pages/03_Postprocessing.py:229-249 are vendor field plots. Their Region removal is the same guarded `remove` as `Lists.RemoveIfPresent`.
- `get_solution_name` (pages/03_Postprocessing.py:20-23) only reads a vendor value.
- The Region removal from `obj_list` at pages/03_Postprocessing.py:149-154 is not modelled: that list is never used afterwards.
- The `isinstance` branch at pages/03_Postprocessing.py:33-34 is left out: every value stored is already a list, so the branch never runs.
- Sorting `pcb_layers` by name is not modelled. The layer list is a parameter, taken as already sorted.
- `board_side_faces` is a dictionary, so a component listed twice would keep one face. The model keeps one entry per component in list order and assumes the components are distinct (they come from the model's object list).
- Boundary-condition names are taken as unique. They are keys in the vendor's tree and in `thermal_bcs`.
- Simulate.MeshSizing: the histogram (`np.histogram`, ten equal bins) is not computed. Its counts and edges are parameters, and the lemma assumes the modal bin and the minimum.
- Simulate.NameCleanup: `\W` is taken as ASCII. Python's `\W` on `str` also treats letters and digits of other scripts as word characters.
- BcFile.Classify: `\d` is taken as an ASCII digit. Python's `re` on `str` also matches decimal digits of other scripts.
- Text.Lower: `casefold` is modelled on ASCII letters only. That is enough for the literals it is applied to.
- Text.ParseDecimal: `float()` is modelled for plain decimals with an optional sign. Exponents, `inf`/`nan`, underscores and surrounding whitespace are not modelled.
- Simulate.ReadRows: refuses every row list with a row that is not 13 wide. The page is more lenient: pd.DataFrame (line 840) pads rows shorter than the widest with None, so a file with a full row and, say, a 7-field component row loads (`Simulate.PaddedRowRefused`). `Simulate.RowsAccepted` states exactly which row lists the page accepts. What the padded None cells do downstream is not modelled: a None type is reported as an unknown type, a None power raises TypeError at `+ "W"`, and a None material is assigned.
- Csv.ParseInt: integers are sign and digits; pandas' own range limits are not modelled, so a value beyond 64 bits reads as an integer here where pandas would not keep it as one.
- Csv.NumberText: a number is an integer or a plain decimal; exponents, `inf` and surrounding spaces are not read as numbers here.
- Csv.KindOf: the boolean type pandas infers for a column of `True`/`False` values is not modelled; such a column is a string column here.
- Csv.Records: a line holding only spaces is read as a record here, where pandas skips it as blank; every line the page writes starts with `YES`. A `\r` line ending is not modelled, since the page writes `\n` only.
- Csv.ReadCsv: pandas' error texts carry the line number and field counts; the model keeps only `Error tokenizing data`.
- Floating point is modelled as `real`, so the products at pages/01_Create_Boundary_Conditions_File.py:228 and pages/02_Simulate.py:746-748 are exact.
- The opening properties are a map. The order in which the dictionary lists them is not modelled.
- The grid's returned table (AgGrid's filtering and sorting) is not modelled, only the per-column edit policy.

## Findings

| source | as written | input that shows it | evidently intended | confidence | as-written member | corrected member |
|---|---|---|---|---|---|---|
| pages/02_Simulate.py:856 | `df3['power'][ind] != 0` compares the power text with the integer 0, which is always true, so every block gets a source | a `block` row with the default power `0` | no source block for zero power | not executed | Simulate.ZeroPowerBlockGetsSource | Simulate.ZeroPowerBlockNoSource |
| pages/03_Postprocessing.py:132 | `strip('.Internal.Temperature [cel]')` removes any of those characters from both ends, not the suffix | network block `IC1`: its column `IC1.Internal.Temperature` becomes `C1` | remove the suffix and keep the block name | not executed | Postprocessing.NetworkRenameLosesLeadingI | Postprocessing.NetworkColumnRecovers |
| pages/01_Create_Boundary_Conditions_File.py:156-159 | when `""` occurs after the start, the pattern `".+?` matches a quote and one character, so a quoted package name is cut (also lines 208-211); the page's pipeline uses this tokenizer | name line `"P1" "" U3` gives `"P`, `1"`, `""`, `U3` | the quoted names `"P1"`, `""`, `U3` | not executed | BcFile.QuotedPackageSplit | Text.FindAllJoin |
| pages/03_Postprocessing.py:89-91 | `strip('point_')` and `strip('.Temperature')` remove any of those characters from both ends, not the prefix and suffix | monitor point `TP1`: its column `point_TP1.Temperature [cel]` becomes `P1` | remove the prefix and the suffix and keep the point name | not executed | Postprocessing.MonitorRenameLosesLeadingT | Postprocessing.MonitorColumnRecovers |
| pages/03_Postprocessing.py:309 | `strip('_board_side_heat_flux []')` removes any of those characters from both ends, not the suffix | component `R1a`: its column `R1a_board_side_heat_flux` becomes `R1` | remove the suffix and keep the component name | not executed | Postprocessing.HeatFluxRenameLosesTrailing | Postprocessing.HeatFluxComponentRecovers |
