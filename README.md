# GraphQLBuilder in Dafny

This project models the query-building core of GraphQLBuilder, a small Python
helper that writes GraphQL text for a Hasura-style endpoint. The parts modelled:

- `get_path`, which walks a nested dict along a list of keys and, where it meets
  a non-empty list on the way, goes on from the list's first element;
- the two mutation-object builders:
  - the list builder writes `{key: value}` once per list item;
  - the dict builder applies a custom mapping, fills defaults, and then writes
    each field according to its declared or inferred type;
- the escaping of string values shared by both builders;
- `_prepare_dict`, which compiles a nested selection such as `name { a b }`;
- the search, insert and delete query templates.

Python values are the datatype `Values.Value`: `None`, bools, integers,
strings, lists and dicts. A dict is an insertion-ordered sequence of entries.
`Dicts.Put` models `d[k] = v`, where an existing key keeps its place, and
`Dicts.Update` models `dict.update`.

An exception that Python does not catch becomes `Err(AttributeError)` or
`Err(TypeError)`. An exception it catches becomes what the source does
in that case:
- the list builder gives `Joined("")` for the `except AttributeError` of lines 86-89;
- the dict builder skips the field, with `FieldLiteral` giving `None`, for the
  `except Exception` around `int(v)` at lines 184-190;
- the search builder gives `NoQuery` for the `except` of lines 276-278.

Each statement loop of the source except the one in `_prepare_dict` is a
`method` with loop invariants. Its
`ensures` ties the result to a specification function. The source's promises
are then proved as lemmas about that function:

| loop | method | specification function |
|---|---|---|
| `get_path` | `PathLookup.GetPath` | `ResolvePath` |
| list builder | `ListObjects.BuildObjectsFromList` | `ObjectsFromList` |
| dict builder, mapping phase | `DictObjects.ApplyMapping` | `MappedRecord` |
| dict builder, missing-field phase | `DictObjects.AppendIfMissing` | `FillMissing` |
| dict builder, emission phase | `DictObjects.EmitItems` | `EmitFields` |
| search, field loop | `Queries.BuildSearchQuery` | `SearchQuery` |

`_prepare_dict` and the three templates are pure functions. The statement loop
at line 253 is modelled as the recursive function `Selection.ChildTexts`,
because `_prepare_dict` recurses structurally. A template is modelled as its
sequence of GraphQL tokens: words fixed by the template (keywords, the operation
name, argument names), punctuators, and text built from what the caller
supplied. The whitespace between tokens is not modelled.

Paths below are relative to the repository root.

## Model

| member | source | states |
|---|---|---|
| PathLookup.GetPath | GraphQLBuilder/__init__.py:33-47 | the loop returns exactly `ResolvePath`: the fallback for an empty path or a non-dict source, the value at the end of the walk, the fallback at the first missing key, `None` or empty list, and `AttributeError` when `.get` meets a non-dict |
| PathLookup.WalkAppend | GraphQLBuilder/__init__.py:36-47 | walking `p + q` is walking `p` and then `q` from where `p` ended; a walk that stopped is never resumed |
| PathLookup.GetPathFallback | GraphQLBuilder/__init__.py:33-45 | an empty path or a non-dict source gives the fallback; a missing key on any prefix of the path gives the fallback; `None` is returned only when the fallback is `None` |
| PathLookup.GetPathNest | GraphQLBuilder/__init__.py:36-47 | in a dict built along a path, looking up that path finds the value stored there, also when each level below the top is a one-element list |
| PathLookup.GetPathTestLookups | tests/test_gqlbuilder.py:17-29 | the mock record of the tests gives `"test"` for `data.name`, `42` for `data.age`, and `"test"` for `list_data.first_element` |
| PathLookup.GetPathTestFallbacks | tests/test_gqlbuilder.py:31-37 | the fallback cases of the tests: a missing top key, a missing key below it, an empty path on a string, and an empty list |
| ListObjects.BuildObjectsFromList | GraphQLBuilder/__init__.py:65-94 | the loop returns exactly `ObjectsFromList`: the literals in item order, as a list or joined with `", "`; `""` on the first non-string item of the string path; `TypeError` from `%d` on a non-number |
| ListObjects.RenderItems | GraphQLBuilder/__init__.py:66-89 | one literal per item when the loop completes; only `Int` can raise; neither `Int` nor `Boolean` aborts |
| ListObjects.IntItems | GraphQLBuilder/__init__.py:67-68 | with integer items under `Int`, the i-th literal is `{key: n}` with n the decimal text of the i-th item, and nothing fails |
| ListObjects.BooleanItems | GraphQLBuilder/__init__.py:69-72 | with bools under `Boolean`, the i-th literal is `{key: "true"}` or `{key: "false"}` |
| ListObjects.StringPathAborts | GraphQLBuilder/__init__.py:73-89 | on the string path, one non-string item anywhere makes the call return `""`, whether or not a list was asked for |
| ListObjects.ItemLiteral | GraphQLBuilder/__init__.py:67-85 | the literal of one item; its contract is stated by `IntItems`, `BooleanItems`, `StringItems` and `StringPathAborts` |
| ListObjects.StringItems | GraphQLBuilder/__init__.py:73-85 | on the string path with string items, each literal holds the escaped item, and reading that text as a GraphQL string gives the item back |
| ListObjects.IntListExample | tests/test_gqlbuilder.py:43-51 | `[1, 2, 3, 4, 5]` under `Int` gives the five literals `{test: 1}` … `{test: 5}`, joined with `", "`, or as a list of five |
| ListObjects.BooleanListExample | tests/test_gqlbuilder.py:54-56 | `[True, False]` under `Boolean` gives the two literals `{test: "true"}` and `{test: "false"}` |
| ListObjects.WrongTypeExample | tests/test_gqlbuilder.py:59-61 | `["Test", True, False]` under `String` gives `""` |
| Escape.ListEscapeReadsBack | GraphQLBuilder/__init__.py:79-83 | the list builder's escape chain inverts the GraphQL string-value escapes: decoding the escaped text gives the original string |
| Escape.DictEscapeReadsBack | GraphQLBuilder/__init__.py:209-214 | decoding the dict builder's escaped text gives the original string with its 0x02 characters removed |
| Escape.ListEscapeSanitized | GraphQLBuilder/__init__.py:79-83 | the escaped text holds no raw newline, carriage return or tab, and every double quote in it follows a backslash |
| Escape.DictEscapeSanitized | GraphQLBuilder/__init__.py:209-214 | as above, and the escaped text holds no 0x02 |
| DictObjects.BuildObjectFromDict | GraphQLBuilder/__init__.py:128-224 | the three phases return exactly `DictObject`: the emitted `k: v` pairs joined with `", "` in braces, or the `AttributeError` that `get_path` raises |
| DictObjects.ApplyMapping | GraphQLBuilder/__init__.py:131-159 | the mapping phase gives exactly `MappedRecord`: the source when the mapping is empty; otherwise the merged mapping folded entry by entry, alone or laid over the source |
| DictObjects.AppendIfMissing | GraphQLBuilder/__init__.py:161-169 | the missing-field loop gives exactly `FillMissing` |
| DictObjects.EmitItems | GraphQLBuilder/__init__.py:171-222 | the emission loop gives exactly the texts of `EmitFields`: one `k: literal` per field that is not ignored and not skipped, in record order |
| DictObjects.MapFoldGet | GraphQLBuilder/__init__.py:136-153 | after the mapping loop, a key of the mapping holds its kept overwrite or its looked-up value, or keeps its earlier entry when the loop dropped it; other keys are untouched |
| DictObjects.MapFoldErr | GraphQLBuilder/__init__.py:143-149 | the mapping loop raises exactly when some entry is a non-overwrite string whose `get_path` lookup raises |
| DictObjects.MappedRecordGet | GraphQLBuilder/__init__.py:131-159 | after the mapping phase, each key holds `MappedValue`; with `append_other` an unmapped key keeps its source value |
| DictObjects.MappedRecordKeys | GraphQLBuilder/__init__.py:156-157 | without `append_other`, every key left is a key of the custom mapping or of the overwrites |
| DictObjects.MappedRecordErr | GraphQLBuilder/__init__.py:131-159 | the mapping phase raises exactly when a key of the custom mapping is unresolvable |
| DictObjects.MappedUnique | GraphQLBuilder/__init__.py:131-159 | the mapped record has no duplicate keys when the source has none |
| DictObjects.MappingPathJoins | GraphQLBuilder/__init__.py:143-149 | the path a mapping string names is `s.split(".")` for every string, with or without a dot; it joins back with `.` to the string; a string without a dot is a one-key path |
| DictObjects.FillMissingKeys | GraphQLBuilder/__init__.py:161-169 | the keys after filling are the old keys in order, followed by the new defaults in their order |
| DictObjects.FillMissingGet | GraphQLBuilder/__init__.py:164-169 | a default replaces a field exactly when the field is absent or `None`; every other field keeps its value |
| DictObjects.FillMissingUnique | GraphQLBuilder/__init__.py:161-169 | filling never duplicates a key |
| DictObjects.EmitFieldsAppend | GraphQLBuilder/__init__.py:171-172 | emission is field by field: the fields of `a + b` are those of `a` followed by those of `b` |
| DictObjects.EmitFieldsMember | GraphQLBuilder/__init__.py:171-222 | `(k, t)` is emitted exactly when the record has k, k is not ignored, and its literal is t |
| DictObjects.FieldLiteral | GraphQLBuilder/__init__.py:173-222 | the text of one field, or `None` for a skipped one; its contract is stated by the five `FieldLiteral…` lemmas below |
| DictObjects.FieldLiteralOverwrite | GraphQLBuilder/__init__.py:175-179 | an overwritten field is written with `str`: a string raw, a bool as `true` or `false`, an integer in decimal, `None` as `None` |
| DictObjects.FieldLiteralNull | GraphQLBuilder/__init__.py:182 | any other field holding `None` is skipped |
| DictObjects.FieldLiteralInt | GraphQLBuilder/__init__.py:183-190 | an `Int` field is skipped exactly when `int(v)` fails; otherwise the text reads back as `int(v)` |
| DictObjects.FieldLiteralBoolean | GraphQLBuilder/__init__.py:191-199 | a `Boolean` field is skipped exactly when it is the empty string; a bool becomes `true` or `false`; a string is lower-cased |
| DictObjects.FieldLiteralInferred | GraphQLBuilder/__init__.py:202-222 | an untyped field is skipped exactly when it is a list or dict; a string is quoted, sanitized, and reads back without its 0x02; a bool becomes `"True"` or `"False"`; an integer reads back as itself |
| DictObjects.MappingOnlyFields | GraphQLBuilder/__init__.py:131-172 | without `append_other`, an emitted field is not ignored and comes from the custom mapping, the overwrites or the defaults; unless it is a default, its mapped value exists and is not `None` |
| DictObjects.OverwriteEmitted | GraphQLBuilder/__init__.py:135-179 | with a custom mapping, a non-`None` overwrite that is not ignored is always emitted, written with `str` |
| DictObjects.MappingPathExample | tests/test_gqlbuilder.py:92 | the mapping `"data.name"` names the path `["data", "name"]` |
| DictObjects.IntNameSkippedExample | tests/test_gqlbuilder.py:113-123 | with `name` typed `Int`, its value `"test"` fails `int()` and the field is skipped |
| DictObjects.UntypedBoolExample | tests/test_gqlbuilder.py:73-98 | the untyped `has_bird: True` is written `"True"` |
| DictObjects.OverwriteBoolExample | tests/test_gqlbuilder.py:94-98 | the overwrite `has_cat: False` is written `false` |
| Dicts.Put | GraphQLBuilder/__init__.py:169 | `d[k] = v` keeps the key order (a new key goes last), stores v, and leaves every other key alone |
| Dicts.PutUnique | GraphQLBuilder/__init__.py:169 | `d[k] = v` never makes a key appear twice |
| Dicts.UpdateKeys | GraphQLBuilder/__init__.py:135 | `dict.update` keeps the first dict's key order and appends the new keys in the second dict's order |
| Dicts.UpdateGet | GraphQLBuilder/__init__.py:159 | after `dict.update`, the second dict's keys win and every other key keeps its value |
| Text.JoinSplit | GraphQLBuilder/__init__.py:144 | `str.split` on a character is undone by joining on that character |
| Text.SplitOnce | GraphQLBuilder/__init__.py:144 | a string with one separator splits into the pieces before and after it |
| Text.ParseIntToString | GraphQLBuilder/__init__.py:185 | the decimal text `%d` writes reads back as the same integer |
| Selection.PrepareDict | GraphQLBuilder/__init__.py:242-259 | the selection text of a nested dict; its contract is stated by `PrepareDictDefined` and `PrepareDictBalanced` |
| Selection.PrepareDictDefined | GraphQLBuilder/__init__.py:242-259 | `_prepare_dict` succeeds exactly on well-shaped dicts: one key at every level, holding a dict, a string, or a list of strings and well-shaped dicts |
| Selection.PrepareDictBalanced | GraphQLBuilder/__init__.py:253-259 | when no name holds a brace, the selection closes every brace it opens: it holds as many `}` as `{`, and no prefix of it holds more `}` than `{` |
| Selection.DictChildrenExample | tests/test_gqlbuilder.py:150 | `{"name": {"firstname": …, "lastname": …}}` selects the inner keys: `name { firstname lastname }` |
| Selection.ListChildrenExample | tests/test_gqlbuilder.py:165-180 | `{"name": ["firstname", "lastname"]}` (line 168) gives `name { firstname lastname }`, and `{"animals": ["has_bird", "has_dog"]}` (line 177) gives `animals { has_bird has_dog }` |
| Selection.DoubleNestedExample | tests/test_gqlbuilder.py:174-180 | `{"name": ["firstname", "lastname", {"animals": […]}]}` gives `name { firstname lastname animals { has_bird has_dog } }`, the inner selection inside the braces of `name` |
| Selection.TwoKeysExample | tests/test_gqlbuilder.py:186 | a dict with a second key is rejected |
| Queries.BuildSearchQuery | GraphQLBuilder/__init__.py:261-298 | the search returns exactly `SearchQuery`, from the loop over the returning fields with its `except` path |
| Queries.PrepareFieldsItems | GraphQLBuilder/__init__.py:268-275 | the field loop keeps the fields in order, replacing each dict by its selection text |
| Queries.PrepareFieldsCaught | GraphQLBuilder/__init__.py:271-278 | the loop is left through the `except` exactly when some field is a dict that `_prepare_dict` rejects |
| Queries.SearchNoQuery | GraphQLBuilder/__init__.py:261-278 | the search returns `""` exactly when the fields are empty or some field is a dict that is not well-shaped |
| Queries.SearchTypeError | GraphQLBuilder/__init__.py:268-298 | once every dict is accepted, the search raises exactly when a field is neither a string nor a dict, or the limit is not a number |
| Queries.SearchWhere | GraphQLBuilder/__init__.py:295-298 | a `where:` clause appears exactly when the filter is non-empty, and then once, carrying that filter |
| Queries.SearchSelection | GraphQLBuilder/__init__.py:281-298 | with string fields and an integer limit, the query selects the fields in order, space-separated, with the limit in decimal |
| Queries.PlainSearchExample | tests/test_gqlbuilder.py:127-144 | the fields `id`, `name`, `age` with limit 10 select `id name age`, with or without a filter |
| Queries.EmptyFieldsExample | tests/test_gqlbuilder.py:156-162 | no returning fields give `""` |
| Queries.NestedSearchExample | tests/test_gqlbuilder.py:147-153 | a nested dict among the fields is selected as `name { firstname lastname }` between `id` and `age` |
| Queries.TwoKeysSearchExample | tests/test_gqlbuilder.py:183-189 | a two-key dict among the fields gives `""` |
| Queries.InsertMutation | GraphQLBuilder/__init__.py:300-362 | the tokens of an insert mutation; its contract is stated by `InsertOnConflict` |
| Queries.InsertOnConflict | GraphQLBuilder/__init__.py:347-362 | `on_conflict` appears exactly when the constraint is truthy, then once, naming the constraint and the joined update columns |
| Queries.InsertExample | tests/test_gqlbuilder.py:216-224 | the insert of one object into `insert_test_endpoint`, with the constraint `id_primkey_contraint` and the update columns `name, age`, returning `id name age`, in 32 tokens |
| Queries.InsertNoConflictExample | tests/test_gqlbuilder.py:227-232 | the same insert without a constraint has no `on_conflict` clause, and returns `id name age` in 18 tokens |
| Queries.DeleteMutation | GraphQLBuilder/__init__.py:364-383 | the tokens of a delete mutation; its contract is stated by `DeleteWhere` |
| Queries.DeleteWhere | GraphQLBuilder/__init__.py:375-383 | the delete mutation has exactly one `where:` clause, holding the filter as `str` writes it: a string as itself, the default empty dict as `{}` |
| Queries.DeleteExample | tests/test_gqlbuilder.py:237-243 | the delete of the test targets `delete_test_endpoint` with the filter `{id: {_eq: 1}}` |

## Left out

- `execute_query` (HTTP transport, `requests`) and all logging: I/O the model does not need.
- `setup.py` and the test harness: packaging and test running. These test cases of `tests/test_gqlbuilder.py` are restated as the example lemmas above:
  - the `get_path` lookups and fallbacks of lines 27-37;
  - all four list-builder cases, lines 47-61. The joined string of line 47 is stated as `Join` of the five literals;
  - the search queries of lines 135, 144, 153, 162 and 189, each as its token sequence. The nested fields of the queries at lines 165-171 and 174-180 are stated for `_prepare_dict` alone, by `ListChildrenExample` and `DoubleNestedExample`; the queries around them are not restated;
  - the insert mutations of lines 224 and 232 at the level of tokens, with the mutation object as a parameter;
  - the delete mutation of line 243.

  The three whole objects of the dict-builder test (lines 98, 110 and 123) and the insert test's object (lines 209-214) are not restated. Only single fields of them are, by the `DictObjects` examples. The two class and `execute_query` tests (lines 10-12 and 245-323) are not restated.
- Default argument values are not modelled; every parameter is passed explicitly. In `GraphQLBuilder/__init__.py` these are `get_path`'s `fallback_return_value=None` (line 15); `return_as_list=False` (line 50); the dict builder's `{}` and `[]` defaults and `custom_mapping_append_other=False` (lines 100-104); `limit=10` (line 227); `update_constraint=None` and `update_field_list=[]` (lines 305-306); the delete filter `{}` (line 364).
- Dict keys are strings only: a `Value.Map` entry is a `(string, Value)` pair. In the source, `source_data` keys may be any hashable value, which `"%s" % k` writes.
- Floats: the `float` branch of line 221 and `int()` of a float are not modelled. `Value` has no floating-point case.
- `str.lower` is modelled for ASCII letters only, and `repr` writes non-ASCII characters verbatim. Unicode case mapping and printability tables are not modelled.
- `int()` of a string is modelled with ASCII whitespace, a sign, and digits with single underscores. Unicode digits and whitespace are not modelled.
- Template layout whitespace is not modelled. Each template is its token sequence.
- Aliasing is not modelled. The source mutates the caller's dicts:
  - `custom_mapping.update` (line 135);
  - `source_data.update` (line 159);
  - `source_data[k] = v` (line 169).

  The model works on values, so a caller cannot observe those mutations, and a repeated call is not affected by them.
- `Escape.StringValue` decodes the GraphQL escapes `\" \\ \/ \b \f \n \r \t`; `\u` escapes are not modelled. The builders never write them.
- `Queries.InsertMutation` takes the data objects, returning fields and update columns as strings. The `TypeError` that `", ".join` raises on a non-string is not modelled.
- `ListObjects.IntItems`: does not itself state that the literal reads back as the item; that is `Text.ParseIntToString`, which applies to the same `IntToString` text.
- Where the documented intent and the code differ, the model follows the code:
  - the delete template is balanced, with no extra closing `}`;
  - in the double-nested search of `tests/test_gqlbuilder.py` lines 174-180, the code puts `animals { has_bird has_dog }` inside the braces of `name`, where the expected text has it after them; the test passes because its `_cmp` (lines 6-7) compares letters only. `DoubleNestedExample` states what the code writes;
  - a list item that `%d` cannot format raises `TypeError` and is not caught, rather than giving `""`;
  - a custom-mapping value that is neither a string nor `None` is dropped silently, like `None`;
  - with an empty custom mapping, a field named in the overwrites is still written raw with `str` at emission (line 175), although no overwrite value was applied.
