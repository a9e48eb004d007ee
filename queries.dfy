/** The query templates: `build_search_qry` (`GraphQLBuilder/__init__.py` lines
    226-298), `build_insert_mutation_qry` (lines 300-362) and `build_delete_qry`
    (lines 364-383). A template is modelled as the sequence of its GraphQL tokens;
    the layout whitespace between them is not modelled. */
module Queries {
  import opened Values
  import opened Text
  import opened PyFormat
  import opened Selection

  /** A word fixed by the template (a GraphQL keyword, the operation name or an
      argument name), a punctuator, or text built from what the caller supplied
      (a type name, a filter, prepared fields). */
  datatype Token = Keyword(word: string) | Sym(c: char) | Fragment(text: string)

  /** A search query, or the `""` that `build_search_qry` returns instead. */
  datatype Search = NoQuery | Query(tokens: seq<Token>)

  /** The returning fields after the loop of lines 267-278: each dict compiled by
      `_prepare_dict`, or the loop left through the `except` of line 276. */
  datatype Prepared = Caught | Fields(items: seq<Value>)

  function PrepareFields(fields: seq<Value>): (r: Prepared)
    ensures r.Fields? ==> |r.items| == |fields|
  {
    if fields == [] then Fields([])
    else match PrepareFields(fields[..|fields| - 1])
      case Caught => Caught
      case Fields(items) =>
        var f := fields[|fields| - 1];
        if f.Map? then
          match PrepareDict(f)
          case None => Caught
          case Some(t) => Fields(items + [Str(t)])
        else Fields(items + [f])
  }

  predicate AllStr(items: seq<Value>)
  {
    forall k :: 0 <= k < |items| ==> items[k].Str?
  }

  function Strs(items: seq<Value>): seq<string>
    requires AllStr(items)
  {
    seq(|items|, k requires 0 <= k < |items| => items[k].s)
  }

  /** The tokens of the templates of lines 281-294. */
  function SearchTokens(typename: string, filter: string, limit: string, selection: string): seq<Token>
  {
    [Keyword("query"), Keyword("SearchQuery"), Sym('{'), Fragment(typename), Sym('('),
     Keyword("limit"), Sym(':'), Fragment(limit)]
    + (if filter != "" then [Sym(','), Keyword("where"), Sym(':'), Fragment(filter)] else [])
    + [Sym(')'), Sym('{'), Fragment(selection), Sym('}'), Sym('}')]
  }

  /** `build_search_qry(typename, qry_filter, returning_fields, limit)`: `""` for no
      fields or a dict `_prepare_dict` rejects; a `TypeError` when a prepared field
      is not a string (`" ".join`) or the limit is not a number (`%d`). */
  function SearchQuery(typename: string, filter: string, fields: seq<Value>, limit: Value): Result<Search>
  {
    if fields == [] then Ok(NoQuery)
    else match PrepareFields(fields)
      case Caught => Ok(NoQuery)
      case Fields(items) =>
        if !AllStr(items) then Err(TypeError)
        else match FormatD(limit)
          case None => Err(TypeError)
          case Some(l) => Ok(Query(SearchTokens(typename, filter, l, Join(Strs(items), " "))))
  }

  method BuildSearchQuery(typename: string, filter: string, fields: seq<Value>, limit: Value)
    returns (r: Result<Search>)
    ensures r == SearchQuery(typename, filter, fields, limit)
  {
    if |fields| == 0 {
      return Ok(NoQuery);
    }
    var prepared: seq<Value> := [];
    for i := 0 to |fields|
      invariant PrepareFields(fields[..i]) == Fields(prepared)
    {
      var f := fields[i];
      assert fields[..i + 1][..i] == fields[..i];
      if f.Map? {
        var t := PrepareDict(f);
        if t.None? {
          PrepareStuck(fields, i + 1);
          return Ok(NoQuery);
        }
        prepared := prepared + [Str(t.value)];
      } else {
        prepared := prepared + [f];
      }
    }
    assert fields[..|fields|] == fields;
    if !AllStr(prepared) {
      return Err(TypeError);
    }
    var l := FormatD(limit);
    if l.None? {
      return Err(TypeError);
    }
    return Ok(Query(SearchTokens(typename, filter, l.value, Join(Strs(prepared), " "))));
  }

  /** Once a dict is rejected the fields after it make no difference. */
  lemma {:induction false} PrepareStuck(fields: seq<Value>, j: nat)
    requires j <= |fields| && PrepareFields(fields[..j]).Caught?
    ensures PrepareFields(fields).Caught?
    decreases |fields|
  {
    if j < |fields| {
      var init := fields[..|fields| - 1];
      assert init[..j] == fields[..j];
      PrepareStuck(init, j);
    } else {
      assert fields[..j] == fields;
    }
  }

  /** The loop keeps the fields in order, each dict replaced by its selection text. */
  lemma {:induction false} PrepareFieldsItems(fields: seq<Value>, k: nat)
    requires PrepareFields(fields).Fields? && k < |fields|
    ensures fields[k].Map? ==> (PrepareDict(fields[k]).Some? &&
                                PrepareFields(fields).items[k] == Str(PrepareDict(fields[k]).value))
    ensures !fields[k].Map? ==> PrepareFields(fields).items[k] == fields[k]
    decreases |fields|
  {
    var init := fields[..|fields| - 1];
    if k < |fields| - 1 {
      assert init[k] == fields[k];
      PrepareFieldsItems(init, k);
    }
  }

  /** The loop is left through the `except` exactly when some returning field is a
      dict that `_prepare_dict` rejects. */
  lemma {:induction false} PrepareFieldsCaught(fields: seq<Value>)
    ensures PrepareFields(fields).Caught? <==>
              exists k :: 0 <= k < |fields| && fields[k].Map? && PrepareDict(fields[k]).None?
    decreases |fields|
  {
    if fields != [] {
      var init := fields[..|fields| - 1];
      PrepareFieldsCaught(init);
      if exists k :: 0 <= k < |fields| && fields[k].Map? && PrepareDict(fields[k]).None? {
        var k :| 0 <= k < |fields| && fields[k].Map? && PrepareDict(fields[k]).None?;
        if k < |init| {
          assert init[k] == fields[k];
        }
      }
      if exists k :: 0 <= k < |init| && init[k].Map? && PrepareDict(init[k]).None? {
        var k :| 0 <= k < |init| && init[k].Map? && PrepareDict(init[k]).None?;
        assert fields[k] == init[k];
      }
    }
  }

  /** `build_search_qry` returns `""` exactly when the returning fields are empty or
      one of them is a dict with a key count other than one at some depth, or with
      a sub-field that is neither a string nor such a dict (lines 261-278). */
  lemma SearchNoQuery(typename: string, filter: string, fields: seq<Value>, limit: Value)
    ensures SearchQuery(typename, filter, fields, limit) == Ok(NoQuery) <==>
              fields == [] || exists k :: 0 <= k < |fields| && fields[k].Map? && !WellShaped(fields[k])
  {
    PrepareFieldsCaught(fields);
    forall k | 0 <= k < |fields| && fields[k].Map?
      ensures PrepareDict(fields[k]).None? <==> !WellShaped(fields[k])
    {
      PrepareDictDefined(fields[k]);
    }
  }

  /** A search query raises `TypeError` exactly when, every dict being accepted, a
      returning field is neither a string nor a dict, or the limit is not a number. */
  lemma SearchTypeError(typename: string, filter: string, fields: seq<Value>, limit: Value)
    requires fields != [] && PrepareFields(fields).Fields?
    ensures SearchQuery(typename, filter, fields, limit).Err? <==>
              (exists k :: 0 <= k < |fields| && !fields[k].Map? && !fields[k].Str?) || FormatD(limit).None?
  {
    var items := PrepareFields(fields).items;
    forall k | 0 <= k < |fields|
      ensures items[k].Str? <==> fields[k].Map? || fields[k].Str?
    {
      PrepareFieldsItems(fields, k);
    }
  }

  /** A query holds a `where:` clause exactly when the filter is not empty, then
      exactly once and carrying the filter given (lines 295-298). */
  lemma SearchWhere(typename: string, filter: string, fields: seq<Value>, limit: Value)
    requires SearchQuery(typename, filter, fields, limit).Ok?
    requires SearchQuery(typename, filter, fields, limit).value.Query?
    ensures var t := SearchQuery(typename, filter, fields, limit).value.tokens;
            && (Keyword("where") in t <==> filter != "")
            && (filter != "" ==> t[9] == Keyword("where") && t[11] == Fragment(filter) &&
                                 forall i :: 0 <= i < |t| && t[i] == Keyword("where") ==> i == 9)
  {
  }

  /** A query whose returning fields are all strings and whose limit is a number
      selects those fields, in order, separated by spaces. */
  lemma SearchSelection(typename: string, filter: string, fields: seq<Value>, limit: int)
    requires fields != [] && AllStr(fields)
    ensures SearchQuery(typename, filter, fields, Int(limit)) ==
              Ok(Query(SearchTokens(typename, filter, IntToString(limit), Join(Strs(fields), " "))))
  {
    PrepareFieldsCaught(fields);
    var items := PrepareFields(fields).items;
    forall k | 0 <= k < |fields|
      ensures items[k] == fields[k]
    {
      PrepareFieldsItems(fields, k);
    }
    assert items == fields;
  }

  /** `not update_constraint`: Python's falsy `None` and `""`. */
  predicate Truthy(constraint: Option<string>)
  {
    constraint.Some? && constraint.value != ""
  }

  /** The tokens of `build_insert_mutation_qry` (lines 321-362): the templates of
      lines 321-331 and 332-345, which differ only in the `on_conflict` clause. */
  function InsertMutation(typename: string, objects: seq<string>, returning: seq<string>,
                          constraint: Option<string>, columns: seq<string>): seq<Token>
  {
    InsertHead(typename, objects)
    + (if Truthy(constraint) then OnConflict(constraint.value, columns) else [])
    + InsertTail(returning)
  }

  function InsertHead(typename: string, objects: seq<string>): seq<Token>
  {
    [Keyword("mutation"), Keyword("InsertInto"), Sym('{'), Fragment("insert_" + typename), Sym('('),
     Keyword("objects"), Sym(':'), Sym('['), Fragment(Join(objects, ", ")), Sym(']')]
  }

  function OnConflict(constraint: string, columns: seq<string>): seq<Token>
  {
    [Sym(','), Keyword("on_conflict"), Sym(':'), Sym('{'),
     Keyword("constraint"), Sym(':'), Fragment(constraint), Sym(','),
     Keyword("update_columns"), Sym(':'), Sym('['), Fragment(Join(columns, ", ")), Sym(']'), Sym('}')]
  }

  function InsertTail(returning: seq<string>): seq<Token>
  {
    [Sym(')'), Sym('{'), Keyword("returning"), Sym('{'), Fragment(Join(returning, " ")),
     Sym('}'), Sym('}'), Sym('}')]
  }

  lemma PiecesWithout(typename: string, objects: seq<string>, returning: seq<string>)
    ensures |InsertHead(typename, objects)| == 10 && |InsertTail(returning)| == 8
    ensures Keyword("on_conflict") !in InsertHead(typename, objects)
    ensures Keyword("on_conflict") !in InsertTail(returning)
  {
  }

  lemma OnConflictOnce(constraint: string, columns: seq<string>)
    ensures var c := OnConflict(constraint, columns);
            && |c| == 14 && c[1] == Keyword("on_conflict")
            && (forall i :: 0 <= i < |c| && c[i] == Keyword("on_conflict") ==> i == 1)
            && c[4] == Keyword("constraint") && c[6] == Fragment(constraint)
            && c[8] == Keyword("update_columns") && c[11] == Fragment(Join(columns, ", "))
  {
  }

  /** The `on_conflict` clause appears exactly once when a constraint is given and
      not at all otherwise; when it appears it names the constraint and the columns
      to update (lines 347-362). */
  lemma InsertOnConflict(typename: string, objects: seq<string>, returning: seq<string>,
                         constraint: Option<string>, columns: seq<string>)
    ensures var t := InsertMutation(typename, objects, returning, constraint, columns);
            && (Keyword("on_conflict") in t <==> Truthy(constraint))
            && (Truthy(constraint) ==>
                  && t[11] == Keyword("on_conflict")
                  && (forall i :: 0 <= i < |t| && t[i] == Keyword("on_conflict") ==> i == 11)
                  && t[14] == Keyword("constraint") && t[16] == Fragment(constraint.value)
                  && t[18] == Keyword("update_columns") && t[21] == Fragment(Join(columns, ", ")))
  {
    var h := InsertHead(typename, objects);
    var e := InsertTail(returning);
    var t := InsertMutation(typename, objects, returning, constraint, columns);
    PiecesWithout(typename, objects, returning);
    if Truthy(constraint) {
      var c := OnConflict(constraint.value, columns);
      OnConflictOnce(constraint.value, columns);
      assert t == h + c + e;
      forall i | 0 <= i < |t|
        ensures t[i] == if i < 10 then h[i] else if i < 24 then c[i - 10] else e[i - 24]
      {
      }
    } else {
      assert t == h + e;
      forall i | 0 <= i < |t|
        ensures t[i] == if i < 10 then h[i] else e[i - 10]
      {
      }
    }
  }

  /** The tokens of `build_delete_qry` (lines 375-383); the filter is formatted with
      `%s`, so its default, an empty dict, is written `{}`. */
  function DeleteMutation(typename: string, filter: Value): seq<Token>
  {
    [Keyword("mutation"), Keyword("deleteMutation"), Sym('{'), Fragment("delete_" + typename), Sym('('),
     Keyword("where"), Sym(':'), Fragment(PyStr(filter)), Sym(')'), Sym('{'), Keyword("affected_rows"),
     Sym('}'), Sym('}')]
  }

  /** A delete mutation always has exactly one `where:` clause, carrying the filter
      as `str` writes it: a string as it is, the default empty dict as `{}`. */
  lemma DeleteWhere(typename: string, filter: Value)
    ensures var t := DeleteMutation(typename, filter);
            && t[5] == Keyword("where") && t[7] == Fragment(PyStr(filter))
            && (forall i :: 0 <= i < |t| && t[i] == Keyword("where") ==> i == 5)
            && (filter.Str? ==> t[7] == Fragment(filter.s))
            && (filter == Map([]) ==> t[7] == Fragment("{}"))
  {
  }

  /** The three plain returning fields of tests/test_gqlbuilder.py lines 127-144,
      without and with a filter, select `id name age` with limit `10`. */
  lemma PlainSearchExample(filter: string)
    ensures SearchQuery("test_endpoint", filter, [Str("id"), Str("name"), Str("age")], Int(10))
            == Ok(Query(SearchTokens("test_endpoint", filter, "10", Join(["id", "name", "age"], " "))))
  {
    var fields := [Str("id"), Str("name"), Str("age")];
    SearchSelection("test_endpoint", filter, fields, 10);
    assert Strs(fields) == ["id", "name", "age"];
    assert IntToString(10) == "10";
  }

  /** No returning fields (tests/test_gqlbuilder.py lines 156-162) give `""`. */
  lemma EmptyFieldsExample()
    ensures SearchQuery("test_endpoint", "{id: {_eq: 1}}", [], Int(10)) == Ok(NoQuery)
  {
  }

  /** A nested dict among the returning fields (tests/test_gqlbuilder.py lines
      147-153) is written with its sub-fields in braces. */
  lemma NestedSearchExample()
    ensures SearchQuery("test_endpoint", "{id: {_eq: 1}}",
                        [Str("id"), Map([("name", Map([("firstname", Str("test")), ("lastname", Str("bar"))]))]), Str("age")],
                        Int(10))
            == Ok(Query(SearchTokens("test_endpoint", "{id: {_eq: 1}}", "10",
                                     Join(["id", "name { firstname lastname }", "age"], " "))))
  {
    var d := Map([("name", Map([("firstname", Str("test")), ("lastname", Str("bar"))]))]);
    var fields := [Str("id"), d, Str("age")];
    DictChildrenExample();
    assert [Str("id")][..0] == [];
    assert PrepareFields([Str("id")]) == Fields([Str("id")]);
    assert fields[..2][..1] == [Str("id")];
    assert fields[..2] == [Str("id"), d];
    assert PrepareDict(d) == Some("name { firstname lastname }");
    assert PrepareFields(fields[..2]) == Fields([Str("id"), Str("name { firstname lastname }")]);
    assert PrepareFields(fields) == Fields([Str("id"), Str("name { firstname lastname }"), Str("age")]);
    assert IntToString(10) == "10";
  }

  /** A dict with two keys among the returning fields (tests/test_gqlbuilder.py
      lines 183-189) gives `""`. */
  lemma TwoKeysSearchExample()
    ensures SearchQuery("test_endpoint", "{id: {_eq: 1}}",
                        [Str("id"), Map([("name", List([Str("firstname"), Str("lastname")])),
                                         ("second_not_allowed_field", Str(""))]), Str("age")],
                        Int(10))
            == Ok(NoQuery)
  {
    var fields := [Str("id"), Map([("name", List([Str("firstname"), Str("lastname")])),
                                   ("second_not_allowed_field", Str(""))]), Str("age")];
    SearchNoQuery("test_endpoint", "{id: {_eq: 1}}", fields, Int(10));
    assert fields[1].Map? && !WellShaped(fields[1]);
  }

  /** The insert mutation of tests/test_gqlbuilder.py lines 216-224, for one
      mutation object `obj`, with the constraint `id_primkey_contraint` and the
      update columns `name, age`. */
  lemma InsertExample(obj: string)
    ensures var t := InsertMutation("test_endpoint", [obj], ["id", "name", "age"],
                                    Some("id_primkey_contraint"), ["name", "age"]);
            && t[3] == Fragment("insert_test_endpoint") && t[8] == Fragment(obj)
            && t[16] == Fragment("id_primkey_contraint") && t[21] == Fragment(Join(["name", "age"], ", "))
            && |t| == 32 && t[26] == Keyword("returning") && t[28] == Fragment(Join(["id", "name", "age"], " "))
  {
    var h := InsertHead("test_endpoint", [obj]);
    var c := OnConflict("id_primkey_contraint", ["name", "age"]);
    var t := InsertMutation("test_endpoint", [obj], ["id", "name", "age"],
                            Some("id_primkey_contraint"), ["name", "age"]);
    var r := InsertTail(["id", "name", "age"]);
    assert t == h + c + r;
    assert t[3] == h[3] && t[8] == h[8] && t[16] == c[6] && t[21] == c[11];
    assert t[26] == r[2] && t[28] == r[4];
    assert "insert_" + "test_endpoint" == "insert_test_endpoint";
  }

  /** The same insert without a constraint (lines 227-232) has no `on_conflict`. */
  lemma InsertNoConflictExample(obj: string)
    ensures var t := InsertMutation("test_endpoint", [obj], ["id", "name", "age"], None, []);
            && t[3] == Fragment("insert_test_endpoint") && t[8] == Fragment(obj)
            && Keyword("on_conflict") !in t
            && |t| == 18 && t[12] == Keyword("returning") && t[14] == Fragment(Join(["id", "name", "age"], " "))
  {
    InsertOnConflict("test_endpoint", [obj], ["id", "name", "age"], None, []);
    var r := InsertTail(["id", "name", "age"]);
    var t := InsertMutation("test_endpoint", [obj], ["id", "name", "age"], None, []);
    assert t == InsertHead("test_endpoint", [obj]) + r;
    assert t[12] == r[2] && t[14] == r[4];
    assert "insert_" + "test_endpoint" == "insert_test_endpoint";
  }

  /** The delete mutation of tests/test_gqlbuilder.py lines 237-243 deletes from
      `delete_test_endpoint` where the filter given holds. */
  lemma DeleteExample()
    ensures var t := DeleteMutation("test_endpoint", Str("{id: {_eq: 1}}"));
            t[3] == Fragment("delete_test_endpoint") && t[7] == Fragment("{id: {_eq: 1}}")
  {
    DeleteWhere("test_endpoint", Str("{id: {_eq: 1}}"));
  }
}
