/** `build_graphQL_mutation_objects_from_list` (`GraphQLBuilder/__init__.py` lines
    49-94): one `{key: value}` object literal per list item. */
module ListObjects {
  import opened Values
  import opened Text
  import opened PyFormat
  import opened Escape

  /** What the Python function returns: the literals joined by `", "`, or (with
      `return_as_list`) the list of literals. */
  datatype ListOutput = Joined(text: string) | Objects(items: seq<string>)

  /** The fate of one item: its literal, the `AttributeError` of line 86 that makes
      the whole call return `""`, or the `TypeError` of `%d` at line 68, which is not
      caught. */
  datatype ItemOutcome = Rendered(text: string) | Abort | Raise

  /** The literals of the items processed so far, or how the loop was left. */
  datatype Rendering = Done(items: seq<string>) | Aborted | Raised

  /** The literal of one item (lines 67-85). */
  function ItemLiteral(key: string, itemtype: string, v: Value): ItemOutcome
  {
    if itemtype == "Int" then
      match FormatD(v)
      case Some(d) => Rendered("{" + key + ": " + d + "}")
      case None => Raise
    else if itemtype == "Boolean" then
      Rendered("{" + key + ": \"" + Lower(PyStr(v)) + "\"}")
    else if v.Str? then
      Rendered("{" + key + ": \"" + ListEscape(v.s) + "\"}")
    else
      Abort
  }

  /** The loop of lines 66-89 over `vs`, item by item. */
  function RenderItems(vs: seq<Value>, key: string, itemtype: string): (r: Rendering)
    ensures r.Done? ==> |r.items| == |vs|
    ensures itemtype != "Int" ==> !r.Raised?
    ensures itemtype == "Int" || itemtype == "Boolean" ==> !r.Aborted?
  {
    if vs == [] then Done([])
    else match RenderItems(vs[..|vs| - 1], key, itemtype)
      case Done(items) =>
        (match ItemLiteral(key, itemtype, vs[|vs| - 1])
         case Rendered(t) => Done(items + [t])
         case Abort => Aborted
         case Raise => Raised)
      case other => other
  }

  /** What the Python function returns, or the exception it raises. */
  function ObjectsFromList(vs: seq<Value>, key: string, itemtype: string, asList: bool): Result<ListOutput>
  {
    match RenderItems(vs, key, itemtype)
    case Raised => Err(TypeError)
    case Aborted => Ok(Joined(""))
    case Done(items) => Ok(if asList then Objects(items) else Joined(Join(items, ", ")))
  }

  method BuildObjectsFromList(vs: seq<Value>, key: string, itemtype: string, asList: bool)
    returns (r: Result<ListOutput>)
    ensures r == ObjectsFromList(vs, key, itemtype, asList)
  {
    var items: seq<string> := [];
    for i := 0 to |vs|
      invariant RenderItems(vs[..i], key, itemtype) == Done(items)
    {
      var v := vs[i];
      assert vs[..i + 1][..i] == vs[..i];
      if itemtype == "Int" {
        var d := FormatD(v);
        if d.None? {
          RenderStuck(vs, key, itemtype, i + 1);
          return Err(TypeError);
        }
        items := items + ["{" + key + ": " + d.value + "}"];
      } else if itemtype == "Boolean" {
        items := items + ["{" + key + ": \"" + Lower(PyStr(v)) + "\"}"];
      } else {
        if !v.Str? {
          RenderStuck(vs, key, itemtype, i + 1);
          return Ok(Joined(""));
        }
        items := items + ["{" + key + ": \"" + ListEscape(v.s) + "\"}"];
      }
    }
    assert vs[..|vs|] == vs;
    if asList {
      return Ok(Objects(items));
    }
    return Ok(Joined(Join(items, ", ")));
  }

  /** Once the loop is left, the items after it make no difference. */
  lemma {:induction false} RenderStuck(vs: seq<Value>, key: string, itemtype: string, j: nat)
    requires j <= |vs| && !RenderItems(vs[..j], key, itemtype).Done?
    ensures RenderItems(vs, key, itemtype) == RenderItems(vs[..j], key, itemtype)
    decreases |vs|
  {
    if j < |vs| {
      var init := vs[..|vs| - 1];
      assert init[..j] == vs[..j];
      RenderStuck(init, key, itemtype, j);
    } else {
      assert vs[..j] == vs;
    }
  }

  /** With item type `Int` and integer items the result is exactly one `{key: n}` per
      item, in the order of the items (the number reads back as the item by
      `Text.ParseIntToString`). */
  lemma {:induction false} IntItems(vs: seq<Value>, key: string)
    requires forall i :: 0 <= i < |vs| ==> vs[i].Int?
    ensures RenderItems(vs, key, "Int").Done?
    ensures var objs := RenderItems(vs, key, "Int").items;
            |objs| == |vs| &&
            forall i :: 0 <= i < |vs| ==>
              objs[i] == "{" + key + ": " + IntToString(vs[i].i) + "}"
  {
    if vs != [] {
      var init := vs[..|vs| - 1];
      var last := vs[|vs| - 1];
      assert forall i :: 0 <= i < |init| ==> init[i] == vs[i];
      IntItems(init, key);
      var items := RenderItems(init, key, "Int").items;
      var t := "{" + key + ": " + IntToString(last.i) + "}";
      assert ItemLiteral(key, "Int", last) == Rendered(t);
      assert RenderItems(vs, key, "Int") == Done(items + [t]);
      var objs := items + [t];
      forall i | 0 <= i < |vs|
        ensures objs[i] == "{" + key + ": " + IntToString(vs[i].i) + "}"
      {
        if i < |init| {
          assert objs[i] == items[i] && init[i] == vs[i];
        }
      }
    }
  }

  /** On the string path one item that is not a string makes the whole call return
      `""`, whether or not a list was asked for. */
  lemma {:induction false} StringPathAborts(vs: seq<Value>, key: string, itemtype: string, asList: bool, j: nat)
    requires itemtype != "Int" && itemtype != "Boolean"
    requires j < |vs| && !vs[j].Str?
    ensures ObjectsFromList(vs, key, itemtype, asList) == Ok(Joined(""))
  {
    RenderAborts(vs, key, itemtype, j);
  }

  lemma {:induction false} RenderAborts(vs: seq<Value>, key: string, itemtype: string, j: nat)
    requires itemtype != "Int" && itemtype != "Boolean"
    requires j < |vs| && !vs[j].Str?
    ensures RenderItems(vs, key, itemtype) == Aborted
  {
    var init := vs[..|vs| - 1];
    if j < |vs| - 1 {
      assert init[j] == vs[j];
      RenderAborts(init, key, itemtype, j);
    }
  }

  /** On the string path with string items every literal holds the item escaped, and
      reading that text as a GraphQL string gives back the item. */
  lemma {:induction false} StringItems(vs: seq<Value>, key: string, itemtype: string)
    requires itemtype != "Int" && itemtype != "Boolean"
    requires forall i :: 0 <= i < |vs| ==> vs[i].Str?
    ensures RenderItems(vs, key, itemtype).Done?
    ensures var objs := RenderItems(vs, key, itemtype).items;
            |objs| == |vs| &&
            forall i :: 0 <= i < |vs| ==>
              objs[i] == "{" + key + ": \"" + ListEscape(vs[i].s) + "\"}" &&
              StringValue(ListEscape(vs[i].s)) == Some(vs[i].s)
  {
    if vs != [] {
      StringItems(vs[..|vs| - 1], key, itemtype);
      forall i | 0 <= i < |vs| {
        ListEscapeReadsBack(vs[i].s);
      }
    }
  }

  /** With item type `Boolean` every item gives a literal, and a bool gives the
      quoted lower-case word. */
  lemma {:induction false} BooleanItems(vs: seq<Value>, key: string)
    requires forall i :: 0 <= i < |vs| ==> vs[i].Bool?
    ensures RenderItems(vs, key, "Boolean").Done?
    ensures var objs := RenderItems(vs, key, "Boolean").items;
            |objs| == |vs| &&
            forall i :: 0 <= i < |vs| ==>
              objs[i] == "{" + key + ": \"" + (if vs[i].b then "true" else "false") + "\"}"
  {
    if vs != [] {
      var init := vs[..|vs| - 1];
      var last := vs[|vs| - 1];
      assert forall i :: 0 <= i < |init| ==> init[i] == vs[i];
      BooleanItems(init, key);
      var items := RenderItems(init, key, "Boolean").items;
      var w := if last.b then "true" else "false";
      LowerBoolWord(last.b);
      var t := "{" + key + ": \"" + w + "\"}";
      assert ItemLiteral(key, "Boolean", last) == Rendered(t);
      assert RenderItems(vs, key, "Boolean") == Done(items + [t]);
      var objs := items + [t];
      forall i | 0 <= i < |vs|
        ensures objs[i] == "{" + key + ": \"" + (if vs[i].b then "true" else "false") + "\"}"
      {
        if i < |init| {
          assert objs[i] == items[i] && init[i] == vs[i];
        }
      }
    }
  }

  /** `str(b).lower()` is the GraphQL word for the bool. */
  lemma LowerBoolWord(b: bool)
    ensures Lower(PyStr(Bool(b))) == if b then "true" else "false"
  {
    var u := if b then "True" else "False";
    var w := if b then "true" else "false";
    assert PyStr(Bool(b)) == u;
    assert LowerChar(u[0]) == w[0];
    assert forall i :: 1 <= i < |u| ==> u[i] == w[i] && LowerChar(u[i]) == u[i];
  }

  /** The integer list of tests/test_gqlbuilder.py lines 43-51: five literals, joined
      by `", "`, or returned as the list itself. */
  lemma IntListExample()
    ensures ObjectsFromList([Int(1), Int(2), Int(3), Int(4), Int(5)], "test", "Int", false)
            == Ok(Joined(Join(["{test: 1}", "{test: 2}", "{test: 3}", "{test: 4}", "{test: 5}"], ", ")))
    ensures ObjectsFromList([Int(1), Int(2), Int(3), Int(4), Int(5)], "test", "Int", true)
            == Ok(Objects(["{test: 1}", "{test: 2}", "{test: 3}", "{test: 4}", "{test: 5}"]))
  {
    IntListItems();
  }

  lemma IntListItems()
    ensures RenderItems([Int(1), Int(2), Int(3), Int(4), Int(5)], "test", "Int")
            == Done(["{test: 1}", "{test: 2}", "{test: 3}", "{test: 4}", "{test: 5}"])
  {
    var vs := [Int(1), Int(2), Int(3), Int(4), Int(5)];
    IntItems(vs, "test");
    var objs := RenderItems(vs, "test", "Int").items;
    assert objs[0] == "{" + "test" + ": " + "1" + "}" == "{test: 1}" by {
      assert vs[0].i == 1 && IntToString(1) == "1";
    }
    assert objs[1] == "{" + "test" + ": " + "2" + "}" == "{test: 2}" by {
      assert vs[1].i == 2 && IntToString(2) == "2";
    }
    assert objs[2] == "{" + "test" + ": " + "3" + "}" == "{test: 3}" by {
      assert vs[2].i == 3 && IntToString(3) == "3";
    }
    assert objs[3] == "{" + "test" + ": " + "4" + "}" == "{test: 4}" by {
      assert vs[3].i == 4 && IntToString(4) == "4";
    }
    assert objs[4] == "{" + "test" + ": " + "5" + "}" == "{test: 5}" by {
      assert vs[4].i == 5 && IntToString(5) == "5";
    }
  }

  /** The bool list of tests/test_gqlbuilder.py lines 54-56 gives two literals. */
  lemma BooleanListExample()
    ensures ObjectsFromList([Bool(true), Bool(false)], "test", "Boolean", true)
            == Ok(Objects(["{test: \"true\"}", "{test: \"false\"}"]))
  {
    var vs := [Bool(true), Bool(false)];
    BooleanItems(vs, "test");
    var objs := RenderItems(vs, "test", "Boolean").items;
    assert objs[0] == "{" + "test" + ": \"" + "true" + "\"}" == "{test: \"true\"}" by {
      assert vs[0].b;
    }
    assert objs[1] == "{" + "test" + ": \"" + "false" + "\"}" == "{test: \"false\"}" by {
      assert !vs[1].b;
    }
    assert objs == ["{test: \"true\"}", "{test: \"false\"}"];
  }

  /** The mixed list of tests/test_gqlbuilder.py lines 59-61 gives `""`: its second
      item is not a string. */
  lemma WrongTypeExample()
    ensures ObjectsFromList([Str("Test"), Bool(true), Bool(false)], "test", "String", false) == Ok(Joined(""))
  {
    StringPathAborts([Str("Test"), Bool(true), Bool(false)], "test", "String", false, 1);
  }
}
