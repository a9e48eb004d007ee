/** `get_path` (`GraphQLBuilder/__init__.py` lines 15-47): walks a nested dict one
    key at a time, returning a fallback as soon as a key is missing. */
module PathLookup {
  import opened Values
  import opened Dicts

  /** Where a lookup has got to: a value found, a missing key (or `None`, or an empty
      list to unwrap) that ends the walk with the fallback, or an `AttributeError`
      from calling `.get` on something that is not a dict. */
  datatype Resolution = Found(value: Value) | Missing | Raised

  /** One step of the walk (lines 38-45): a list is first replaced by its first
      element, then the key is looked up as `tmp.get(knot, None)`. */
  function Step(node: Value, key: string): (r: Resolution)
    ensures r.Found? ==> r.value != Null
  {
    if node.List? && node.items == [] then Missing
    else
      var d := if node.List? then node.items[0] else node;
      if !d.Map? then Raised
      else match Get(d.entries, key)
        case None => Missing
        case Some(v) => if v == Null then Missing else Found(v)
  }

  /** The walk along the remaining `path` from `node`, stopping at the first step
      that does not find a value. */
  function Walk(path: seq<string>, node: Value): (r: Resolution)
    ensures r.Found? && path != [] ==> r.value != Null
  {
    if path == [] then Found(node)
    else match Step(node, path[0])
      case Found(next) => Walk(path[1..], next)
      case Missing => Missing
      case Raised => Raised
  }

  /** What `get_path(path, source, fallback)` returns, or the exception it raises. */
  function ResolvePath(path: seq<string>, source: Value, fallback: Value): Result<Value>
  {
    if |path| == 0 || !source.Map? then Ok(fallback)
    else match Walk(path, source)
      case Found(v) => Ok(v)
      case Missing => Ok(fallback)
      case Raised => Err(AttributeError)
  }

  /** The loop of lines 35-47. */
  method GetPath(path: seq<string>, source: Value, fallback: Value) returns (r: Result<Value>)
    ensures r == ResolvePath(path, source, fallback)
  {
    if |path| == 0 || !source.Map? {
      return Ok(fallback);
    }
    var tmp := source;
    for index := 0 to |path|
      invariant index < |path|
      invariant Walk(path[index..], tmp) == Walk(path, source)
    {
      var d := tmp;
      if tmp.List? {
        if tmp.items == [] {
          return Ok(fallback);
        }
        d := tmp.items[0];
      }
      if !d.Map? {
        return Err(AttributeError);
      }
      var got := Get(d.entries, path[index]);
      if got == None || got == Some(Null) {
        return Ok(fallback);
      }
      tmp := got.value;
      if index == |path| - 1 {
        return Ok(tmp);
      }
    }
    assert false;
  }

  /** The walk along `p + q` is the walk along `p` continued along `q`: once a key is
      missing the rest of the path is never looked at. */
  lemma {:induction false} WalkAppend(p: seq<string>, q: seq<string>, node: Value)
    ensures Walk(p + q, node) == match Walk(p, node)
                                 case Found(m) => Walk(q, m)
                                 case other => other
  {
    if p == [] {
      assert p + q == q;
    } else {
      assert (p + q)[0] == p[0] && (p + q)[1..] == p[1..] + q;
      match Step(node, p[0])
      case Found(next) => WalkAppend(p[1..], q, next);
      case Missing =>
      case Raised =>
    }
  }

  /** `get_path` returns the fallback when the path is empty or the source is not a
      dict, and whenever the walk along some prefix of the path meets a missing key,
      a `None` or an empty list; it never returns a `None` it found. */
  lemma GetPathFallback(path: seq<string>, source: Value, fallback: Value, i: nat)
    requires i <= |path|
    ensures |path| == 0 || !source.Map? ==> ResolvePath(path, source, fallback) == Ok(fallback)
    ensures source.Map? && Walk(path[..i], source) == Missing ==>
              ResolvePath(path, source, fallback) == Ok(fallback)
    ensures ResolvePath(path, source, fallback) == Ok(Null) ==> fallback == Null
  {
    WalkAppend(path[..i], path[i..], source);
    assert path[..i] + path[i..] == path;
  }

  /** The dict that holds `v` at `path`, an intermediate level wrapped in a
      one-element list when `wrap` is set. */
  function Nest(path: seq<string>, v: Value, wrap: bool): Value
    requires path != []
  {
    if |path| == 1 then Map([(path[0], v)])
    else
      var inner := Nest(path[1..], v, wrap);
      Map([(path[0], if wrap then List([inner]) else inner)])
  }

  /** Looking up `path` in the dict built along `path` finds the value put there,
      also when every level below the top is a one-element list. */
  lemma {:induction false} GetPathNest(path: seq<string>, v: Value, fallback: Value, wrap: bool)
    requires path != [] && v != Null
    ensures ResolvePath(path, Nest(path, v, wrap), fallback) == Ok(v)
  {
    WalkNest(path, v, wrap);
  }

  lemma {:induction false} WalkNest(path: seq<string>, v: Value, wrap: bool)
    requires path != [] && v != Null
    ensures Walk(path, Nest(path, v, wrap)) == Found(v)
    ensures wrap ==> Walk(path, List([Nest(path, v, wrap)])) == Found(v)
  {
    if |path| > 1 {
      WalkNest(path[1..], v, wrap);
    }
  }

  /** The dict of tests/test_gqlbuilder.py lines 17-24, with `list_data` given. */
  function TestSource(listData: seq<Value>): Value
  {
    Map([("id", Int(1)), ("data", Map([("name", Str("test")), ("age", Int(42))])),
         ("list_data", List(listData))])
  }

  /** The single steps the lookups of the tests take through the mock record. */
  lemma TestSourceSteps(m: Value, inner: Value)
    requires inner == Map([("first_element", Str("test"))])
    requires m == TestSource([inner])
    ensures Step(m, "data") == Found(Map([("name", Str("test")), ("age", Int(42))]))
    ensures Step(Map([("name", Str("test")), ("age", Int(42))]), "name") == Found(Str("test"))
    ensures Step(Map([("name", Str("test")), ("age", Int(42))]), "age") == Found(Int(42))
    ensures Step(m, "list_data") == Found(List([inner]))
    ensures Step(List([inner]), "first_element") == Found(Str("test"))
  {
    var data := Map([("name", Str("test")), ("age", Int(42))]);
    assert Get(m.entries, "data") == Some(data);
    assert data.entries[1..] == [("age", Int(42))];
    assert m.entries[1..][1..] == [("list_data", List([inner]))];
    assert Get(m.entries[1..], "list_data") == Some(List([inner]));
  }

  /** The lookups of tests/test_gqlbuilder.py lines 27-29: two nested keys, and a
      key under a one-element list. */
  lemma GetPathTestLookups()
    ensures ResolvePath(["data", "name"], TestSource([Map([("first_element", Str("test"))])]), Null) == Ok(Str("test"))
    ensures ResolvePath(["data", "age"], TestSource([Map([("first_element", Str("test"))])]), Null) == Ok(Int(42))
    ensures ResolvePath(["list_data", "first_element"], TestSource([Map([("first_element", Str("test"))])]), Null) == Ok(Str("test"))
  {
    var inner := Map([("first_element", Str("test"))]);
    TestSourceSteps(TestSource([inner]), inner);
    assert ["data", "name"][1..] == ["name"] && ["data", "age"][1..] == ["age"];
    assert ["list_data", "first_element"][1..] == ["first_element"];
  }

  /** The fallbacks of tests/test_gqlbuilder.py lines 32-37: a missing key at the
      top or below it, an empty path on a source that is not a dict, and an empty
      list where a dict was expected. */
  lemma GetPathTestFallbacks()
    ensures ResolvePath(["unknown"], TestSource([Map([("first_element", Str("test"))])]), Str("fallback"))
            == Ok(Str("fallback"))
    ensures ResolvePath(["data", "unknown"], TestSource([Map([("first_element", Str("test"))])]), Str("fallback"))
            == Ok(Str("fallback"))
    ensures ResolvePath([], Str("_mock_data"), Str("fallback")) == Ok(Str("fallback"))
    ensures ResolvePath(["list_data", "first_element"], TestSource([]), Str("fallback")) == Ok(Str("fallback"))
  {
    var inner := Map([("first_element", Str("test"))]);
    var full := TestSource([inner]);
    var data := Map([("name", Str("test")), ("age", Int(42))]);
    TestSourceSteps(full, inner);
    assert Step(full, "unknown") == Missing;
    assert Step(data, "unknown") == Missing;
    var m := TestSource([]);
    assert Step(m, "list_data") == Found(List([]));
    assert Step(List([]), "first_element") == Missing;
    assert ["data", "unknown"][1..] == ["unknown"] && ["list_data", "first_element"][1..] == ["first_element"];
  }
}
