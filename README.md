# Semantic differential scales generator — core model

The script collects, for each named property (a semantic differential scale
such as "Warmth"), an average and a standard deviation per material, then
writes an error-bar chart and a CSV table per property. This project models
the deterministic core underneath the prompting and plotting:

- `PropertyTable` (`property.dfy`): the `Property` class. Its dictionary
  from material name to `[avg, std_dev]` is a `seq` of keys in insertion
  order plus a `map`, with Python's `dict.update` behaviour: a new name goes
  to the end, and a name already present keeps its place and gets the new
  pair. `gen_array` flattens the table into rows and names. The CSV table
  built by `gen_csv` is a `seq<seq<string>>` (header row, then one row per
  material). The session loop that adds every material of a property is
  modelled too, with the values passed in.
- `FilePaths` (`file_path.dfy`): `make_name_safe` turns each character of
  Python's `string.punctuation` into `-`. `add_extras` appends `-word` for
  each extra word, then `.` and the extension.
- `Prompts` (`prompts.dfy`): `y_or_n` and the out-of-range test of the
  value-entry loop.
- `Wrappers` (`wrappers.dfy`): `Option`, for `None` results.

Averages and standard deviations are `real`. A material is the `Material`
datatype, and its name is the key in a property's dictionary. The CSV cells take a number-to-string function as a
parameter, so no number format is fixed.

The CSV table has a header row and one row per material, with one exception.
A property with no material gets no table. In the script, numpy's `insert`
fails there, because the empty array has no second axis to take the names.
`GenCsv` returns `None` in that case.

## Model

| member | source | states |
|---|---|---|
| `PropertyTable.Property.constructor` | Semantic-differential-scales-generator.py:20-24 | a new property has its name, the fixed header row, no key and an empty dictionary |
| `PropertyTable.Property.AddAMaterial` | Semantic-differential-scales-generator.py:28-32 | the material's name maps to (avg, std_dev) and every other entry is unchanged; a new name is appended to the key order; an existing name keeps its place; each name stays listed once |
| `PropertyTable.Property.AddMaterials` | Semantic-differential-scales-generator.py:209-243 | adding the session's materials one by one leaves the keys in first-insertion order and the dictionary holding each name's last pair |
| `PropertyTable.Property.GenArray` | Semantic-differential-scales-generator.py:34-50 | names come back in insertion order; there are as many rows as names as materials; row i is [avg, std_dev] of name i |
| `PropertyTable.Property.GenCsv` | Semantic-differential-scales-generator.py:71-77 | with no material there is no table; otherwise it has one row more than there are materials, row 0 is the header, and row i+1 is name i followed by its rendered average and standard deviation |
| `PropertyTable.InsertKeyDistinct` | Semantic-differential-scales-generator.py:32 | a dictionary update keeps the key list free of repeats and adds exactly the updated name |
| `PropertyTable.KeyOrderNoDuplicates` | Semantic-differential-scales-generator.py:32 | whatever names a session enters, even repeated ones, no material is ever listed twice |
| `PropertyTable.KeyOrderMembers` | Semantic-differential-scales-generator.py:32 | after a session a name is listed exactly when it was listed before or was entered |
| `PropertyTable.KeyOrderExtends` | Semantic-differential-scales-generator.py:32 | names already listed keep their order at the front |
| `PropertyTable.KeyOrderFresh` | Semantic-differential-scales-generator.py:32 | new distinct names are listed after the old ones, in the order they were entered |
| `PropertyTable.StoredUntouched` | Semantic-differential-scales-generator.py:28-32 | a name no entry mentions keeps its pair, or stays absent |
| `PropertyTable.StoredLastWins` | Semantic-differential-scales-generator.py:28-32 | the last entry for a name decides its pair |
| `PropertyTable.FreshSessionRoundTrip` | Semantic-differential-scales-generator.py:209-243 | on a new property, distinct materials come back in the order entered, each with the pair entered for it |
| `FilePaths.PunctuationRanges` | Semantic-differential-scales-generator.py:98 | the punctuation test is membership in Python's 32-character `string.punctuation` |
| `FilePaths.SafeName` | Semantic-differential-scales-generator.py:95-100 | a safe name has the same length as the name; each punctuation character becomes `-`; every other character stays at its position |
| `FilePaths.Replace` | Semantic-differential-scales-generator.py:99 | `str.replace` of one character by another turns exactly the occurrences of the target into the replacement and keeps the length |
| `FilePaths.MakeNameSafe` | Semantic-differential-scales-generator.py:95-100 | the replace-all loop over the original characters produces exactly the safe name |
| `FilePaths.SafeNameIdempotent` | Semantic-differential-scales-generator.py:95-100 | sanitising a safe name changes nothing |
| `FilePaths.SafeNameOnlyDash` | Semantic-differential-scales-generator.py:95-100 | the only punctuation left in a safe name is `-` |
| `FilePaths.SafeNameFixedPoints` | Semantic-differential-scales-generator.py:95-100 | a name is unchanged by sanitising if and only if its only punctuation is `-` |
| `FilePaths.SafeNamesCollide` | Semantic-differential-scales-generator.py:95-100 | two different property names can share one safe name, so their files share names |
| `FilePaths.FilePath.constructor` | Semantic-differential-scales-generator.py:91-92 | the stored safe file name is the sanitised form of the given name |
| `FilePaths.FilePath.AddExtras` | Semantic-differential-scales-generator.py:106-113 | the result is the safe name, then `-` and each extra word in order, then `.` and the extension |
| `FilePaths.DashedAppend` | Semantic-differential-scales-generator.py:110-111 | one more extra word adds `-` and that word at the end |
| `FilePaths.DashedConcat` | Semantic-differential-scales-generator.py:110-111 | the suffix for two word lists is the suffix of the first followed by that of the second |
| `FilePaths.DashedLengthIs` | Semantic-differential-scales-generator.py:110-111 | each extra word adds its own length plus one |
| `FilePaths.ExtendedNameParts` | Semantic-differential-scales-generator.py:106-113 | the built name starts with the safe name, holds the dashed words next and ends with `.` and the extension; its length is the sum of the parts |
| `FilePaths.ChartAndTableNames` | Semantic-differential-scales-generator.py:251-252 | the chart is `<safe>.png` and the table `<safe>-csv-file.csv`, and the two names differ |
| `Prompts.YOrN` | Semantic-differential-scales-generator.py:115-123 | true exactly for "y", false exactly for "n", `None` for every other input |
| `Prompts.OnlyExactAnswersAccepted` | Semantic-differential-scales-generator.py:115-123 | an accepted answer is a single `y` or `n` character |
| `Prompts.OutOfRange` | Semantic-differential-scales-generator.py:229 | a pair is flagged exactly when the average or the standard deviation lies above the maximum or below the minimum |
| `PropertyTable.PropertyValues.Values` | Semantic-differential-scales-generator.py:80-87 | the stored pair as the two-element list [avg, std_dev], from which the pair is recovered |
| `Prompts.InRangeIffBothWithin` | Semantic-differential-scales-generator.py:229 | no warning if and only if both values lie in the closed range from minimum to maximum |
| `Prompts.InvertedLimitsFlagEverything` | Semantic-differential-scales-generator.py:229 | with the minimum above the maximum, every pair is flagged |
| `Prompts.PointRangeAcceptsOnlyThePoint` | Semantic-differential-scales-generator.py:229 | when minimum equals maximum, only the pair of that value passes |

## Left out

- `make_graph` (chart drawing through matplotlib) is a call into a foreign library.
- The `np.savetxt` write of the CSV file is left out, and so is numpy's float-to-string conversion. The rendering function is a parameter.
- `GenCsv` does not model numpy's fixed-width string array. That array can cut material names longer than the width numpy picks for the converted numbers.
- `FilePath.__init__`'s output folder (`os.getcwd`, `os.path.join`), `safe_file_path` and the directory creation are filesystem I/O.
- `FilePaths.FilePath.AddExtras`: extras are strings. The script applies `str()` to them, and it only ever passes strings.
- `y_n_loop`, `only_num` and `add_thing` are re-prompting loops over console input. `only_num` also parses floats.
- The full-random and jitter modes draw random numbers. `PropertyTable.Property.AddMaterials` therefore takes the values as parameters. It leaves out the range-warning re-entry loop around each pair. Only its test, `Prompts.OutOfRange`, is modelled.
- The rest of the interactive driver is left out: prompts, printing, and the lists of materials and properties. `Material` appears only through its name, which is what `str()` of it returns.
- `Prompts.OutOfRange`: values are reals, so Python float rounding and NaN are not modelled. `only_num` accepts "nan", and every comparison on line 229 is false for NaN. So in the script a NaN average or deviation passes without a warning, although it lies in no range.
- `Prompts.YOrN` does not model the reminder the script prints for an invalid answer.
