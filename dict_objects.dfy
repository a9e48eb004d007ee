/** `build_graphQL_mutation_objects_from_dict` (`GraphQLBuilder/__init__.py` lines
    96-224): one GraphQL object literal `{k: v, ...}` from a source dict, in three
    phases: the custom mapping, the fields appended when missing, and the emission
    of each field by its type. */
module DictObjects {
  import opened Values
  import opened Dicts
  import opened Text
  import opened PyFormat
  import opened Escape
  import opened PathLookup

  /** A Python dict with string keys. */
  type Record = seq<(string, Value)>

  /** The path a mapping string names: its dot-separated parts (lines 143-145), or
      the string alone (lines 146-149). */
  function MappingPath(s: string): seq<string>
  {
    if '.' in s then Split(s, '.') else [s]
  }

  /** `get_path` on the source for a mapping string. */
  function Resolved(s: string, source: Record): Result<Value>
  {
    ResolvePath(MappingPath(s), Map(source), Null)
  }

  /** A mapping entry whose lookup in the source raises. */
  predicate Unresolvable(k: string, v: Value, ow: Record, source: Record)
  {
    k !in Keys(ow) && v.Str? && Resolved(v.s, source).Err?
  }

  /** One entry of the merged mapping (lines 138-153): an overwrite is kept unless
      it is `None`, a string is looked up in the source, anything else is dropped. */
  function MapEntry(tmp: Record, k: string, v: Value, ow: Record, source: Record): Result<Record>
  {
    if k in Keys(ow) then Ok(if v != Null then Put(tmp, k, v) else tmp)
    else if v.Str? then
      match Resolved(v.s, source)
      case Ok(found) => Ok(Put(tmp, k, found))
      case Err(e) => Err(e)
    else Ok(tmp)
  }

  /** The loop of lines 136-153 over the entries still to process. */
  function MapFold(tmp: Record, rest: Record, ow: Record, source: Record): Result<Record>
    decreases |rest|
  {
    if rest == [] then Ok(tmp)
    else match MapEntry(tmp, rest[0].0, rest[0].1, ow, source)
      case Ok(next) => MapFold(next, rest[1..], ow, source)
      case Err(e) => Err(e)
  }

  /** The record after the custom mapping (lines 131-159): the source itself when
      there is no mapping, else the mapped fields alone or laid over the source. */
  function MappedRecord(source: Record, cm: Record, appendOther: bool, ow: Record): Result<Record>
  {
    if cm == [] then Ok(source)
    else match MapFold([], Update(cm, ow), ow, source)
      case Ok(tmp) => Ok(if appendOther then Update(source, tmp) else tmp)
      case Err(e) => Err(e)
  }

  /** A field that `append_if_missing_fields` fills: absent or `None`. */
  predicate Missing(rec: Record, k: string)
  {
    Get(rec, k) == None || Get(rec, k) == Some(Null)
  }

  /** The loop of lines 161-169 over the defaults still to apply. */
  function FillMissing(rec: Record, aim: Record): Record
    decreases |aim|
  {
    if aim == [] then rec
    else FillMissing(if Missing(rec, aim[0].0) then Put(rec, aim[0].0, aim[0].1) else rec, aim[1..])
  }

  /** A bool overwritten or typed as `Boolean` is written as the word `true` or
      `false` (lines 177-178 and 195-196). */
  function Normalize(v: Value): Value
  {
    if v.Bool? then Str(if v.b then "true" else "false") else v
  }

  /** The text after `k: ` for one field, or `None` for a field that is skipped
      (lines 172-222). */
  function FieldLiteral(k: string, v: Value, schema: Record, ow: Record): Option<string>
  {
    if k in Keys(ow) then Some(PyStr(Normalize(v)))
    else if v == Null then None
    else if Get(schema, k) == Some(Str("Int")) then
      match PyInt(v)
      case Some(n) => Some(IntToString(n))
      case None => None
    else if Get(schema, k) == Some(Str("Boolean")) then
      if v == Str("") then None else Some(Lower(PyStr(Normalize(v))))
    else match v
      case Str(s) => Some("\"" + DictEscape(s) + "\"")
      case Bool(b) => Some(if b then "\"True\"" else "\"False\"")
      case Int(i) => Some(IntToString(i))
      case _ => None
  }

  /** The fields the loop of lines 171-222 emits from `rec`, in order. */
  function EmitFields(rec: Record, ignore: seq<string>, schema: Record, ow: Record): seq<(string, string)>
  {
    if rec == [] then []
    else
      var k := rec[|rec| - 1].0;
      EmitFields(rec[..|rec| - 1], ignore, schema, ow) +
        if k in ignore then []
        else match FieldLiteral(k, rec[|rec| - 1].1, schema, ow)
          case Some(t) => [(k, t)]
          case None => []
  }

  /** `"%s: %s" % (k, t)` for each field. */
  function FieldTexts(fs: seq<(string, string)>): seq<string>
  {
    seq(|fs|, i requires 0 <= i < |fs| => fs[i].0 + ": " + fs[i].1)
  }

  /** The fields of the object, or the exception that `get_path` raises. */
  function DictFields(source: Record, schema: Record, cm: Record, appendOther: bool, ow: Record,
                      ignore: seq<string>, aim: Record): Result<seq<(string, string)>>
  {
    match MappedRecord(source, cm, appendOther, ow)
    case Ok(rec) => Ok(EmitFields(FillMissing(rec, aim), ignore, schema, ow))
    case Err(e) => Err(e)
  }

  /** What the Python function returns (line 224), or the exception it raises. */
  function DictObject(source: Record, schema: Record, cm: Record, appendOther: bool, ow: Record,
                      ignore: seq<string>, aim: Record): Result<string>
  {
    match DictFields(source, schema, cm, appendOther, ow, ignore, aim)
    case Ok(fs) => Ok("{" + Join(FieldTexts(fs), ", ") + "}")
    case Err(e) => Err(e)
  }

  method BuildObjectFromDict(source: Record, schema: Record, cm: Record, appendOther: bool, ow: Record,
                             ignore: seq<string>, aim: Record) returns (r: Result<string>)
    ensures r == DictObject(source, schema, cm, appendOther, ow, ignore, aim)
  {
    var mapped := ApplyMapping(source, cm, appendOther, ow);
    if mapped.Err? {
      return Err(mapped.error);
    }
    var rec := AppendIfMissing(mapped.value, aim);
    var items := EmitItems(rec, ignore, schema, ow);
    return Ok("{" + Join(items, ", ") + "}");
  }

  /** Lines 131-159. */
  method ApplyMapping(source: Record, cm: Record, appendOther: bool, ow: Record) returns (r: Result<Record>)
    ensures r == MappedRecord(source, cm, appendOther, ow)
  {
    if cm == [] {
      return Ok(source);
    }
    var merged := Update(cm, ow);
    var tmp: Record := [];
    for i := 0 to |merged|
      invariant MapFold(tmp, merged[i..], ow, source) == MapFold([], merged, ow, source)
    {
      var k := merged[i].0;
      var v := merged[i].1;
      assert merged[i..][1..] == merged[i + 1..];
      if k in Keys(ow) {
        if v != Null {
          tmp := Put(tmp, k, v);
        }
      } else if v.Str? {
        var path := if '.' in v.s then Split(v.s, '.') else [v.s];
        var found := GetPath(path, Map(source), Null);
        if found.Err? {
          return Err(found.error);
        }
        tmp := Put(tmp, k, found.value);
      }
    }
    assert merged[|merged|..] == [];
    return Ok(if appendOther then Update(source, tmp) else tmp);
  }

  /** Lines 161-169. */
  method AppendIfMissing(rec0: Record, aim: Record) returns (rec: Record)
    ensures rec == FillMissing(rec0, aim)
  {
    rec := rec0;
    for i := 0 to |aim|
      invariant FillMissing(rec, aim[i..]) == FillMissing(rec0, aim)
    {
      var k := aim[i].0;
      assert aim[i..][1..] == aim[i + 1..];
      var got := Get(rec, k);
      if got == None || got == Some(Null) {
        rec := Put(rec, k, aim[i].1);
      }
    }
    assert aim[|aim|..] == [];
  }

  /** Lines 171-222. */
  method EmitItems(rec: Record, ignore: seq<string>, schema: Record, ow: Record) returns (items: seq<string>)
    ensures items == FieldTexts(EmitFields(rec, ignore, schema, ow))
  {
    items := [];
    for i := 0 to |rec|
      invariant items == FieldTexts(EmitFields(rec[..i], ignore, schema, ow))
    {
      var k := rec[i].0;
      var v := rec[i].1;
      assert rec[..i + 1][..i] == rec[..i];
      var text: Option<string> := None;
      if k !in ignore {
        if k in Keys(ow) {
          text := Some(PyStr(Normalize(v)));
        } else if v != Null {
          var kind := Get(schema, k);
          if kind == Some(Str("Int")) {
            var n := PyInt(v);
            if n.Some? {
              text := Some(IntToString(n.value));
            }
          } else if kind == Some(Str("Boolean")) {
            if v != Str("") {
              text := Some(Lower(PyStr(Normalize(v))));
            }
          } else if v.Str? {
            text := Some("\"" + DictEscape(v.s) + "\"");
          } else if v.Bool? {
            text := Some(if v.b then "\"True\"" else "\"False\"");
          } else if v.Int? {
            text := Some(IntToString(v.i));
          }
        }
      }
      assert k !in ignore ==> text == FieldLiteral(k, v, schema, ow);
      if text.Some? {
        items := items + [k + ": " + text.value];
      }
      FieldTextsStep(EmitFields(rec[..i], ignore, schema, ow), EmitFields(rec[..i + 1], ignore, schema, ow));
    }
    assert rec[..|rec|] == rec;
  }

  lemma FieldTextsStep(before: seq<(string, string)>, after: seq<(string, string)>)
    requires after == before || (|after| == |before| + 1 && after[..|before|] == before)
    ensures FieldTexts(after) == if after == before then FieldTexts(before)
                                 else FieldTexts(before) + [after[|before|].0 + ": " + after[|before|].1]
  {
  }

  // ---------------------------------------------------------------------------
  // The custom mapping

  /** Each key the mapping produces holds the overwrite given for it unless that is
      `None`, else the value its mapping string finds in the source; keys the
      mapping does not name keep what the record held before. */
  lemma {:induction false} MapFoldGet(tmp: Record, rest: Record, ow: Record, source: Record, k: string)
    requires UniqueKeys(rest)
    requires MapFold(tmp, rest, ow, source).Ok?
    ensures var r := MapFold(tmp, rest, ow, source).value;
            match Get(rest, k)
            case None => Get(r, k) == Get(tmp, k)
            case Some(v) =>
              if k in Keys(ow) then Get(r, k) == if v != Null then Some(v) else Get(tmp, k)
              else if v.Str? then Resolved(v.s, source).Ok? && Get(r, k) == Some(Resolved(v.s, source).value)
              else Get(r, k) == Get(tmp, k)
    decreases |rest|
  {
    if rest != [] {
      UniqueKeysTail(rest);
      assert Keys(rest) == [rest[0].0] + Keys(rest[1..]);
      var next := MapEntry(tmp, rest[0].0, rest[0].1, ow, source).value;
      MapFoldGet(next, rest[1..], ow, source, k);
    }
  }

  /** The mapping raises exactly when one of its strings leads `get_path` to
      something that is not a dict. */
  lemma {:induction false} MapFoldErr(tmp: Record, rest: Record, ow: Record, source: Record)
    ensures MapFold(tmp, rest, ow, source).Err? <==>
              exists i :: 0 <= i < |rest| && Unresolvable(rest[i].0, rest[i].1, ow, source)
    decreases |rest|
  {
    if rest != [] {
      if !Unresolvable(rest[0].0, rest[0].1, ow, source) {
        var next := MapEntry(tmp, rest[0].0, rest[0].1, ow, source).value;
        MapFoldErr(next, rest[1..], ow, source);
        if exists i :: 0 <= i < |rest| && Unresolvable(rest[i].0, rest[i].1, ow, source) {
          var i :| 0 <= i < |rest| && Unresolvable(rest[i].0, rest[i].1, ow, source);
          assert rest[1..][i - 1] == rest[i];
        }
        if exists i :: 0 <= i < |rest[1..]| && Unresolvable(rest[1..][i].0, rest[1..][i].1, ow, source) {
          var i :| 0 <= i < |rest[1..]| && Unresolvable(rest[1..][i].0, rest[1..][i].1, ow, source);
          assert rest[i + 1] == rest[1..][i];
        }
      }
    }
  }

  /** What the custom mapping makes of key `k`, read off the mapping itself: the
      overwrite unless it is `None`, else the value a mapping string finds. */
  function MappedValue(k: string, cm: Record, ow: Record, source: Record): Option<Value>
  {
    match Get(ow, k)
    case Some(v) => if v != Null then Some(v) else None
    case None =>
      var c := Get(cm, k);
      if c.Some? && c.value.Str? then
        match Resolved(c.value.s, source)
        case Ok(found) => Some(found)
        case Err(_) => None
      else None
  }

  /** With a custom mapping the record holds, under each key, what the mapping makes
      of it; the other source fields survive only with `custom_mapping_append_other`
      (lines 156-159). */
  lemma MappedRecordGet(source: Record, cm: Record, appendOther: bool, ow: Record, k: string)
    requires cm != [] && UniqueKeys(cm) && UniqueKeys(ow)
    requires MappedRecord(source, cm, appendOther, ow).Ok?
    ensures var rec := MappedRecord(source, cm, appendOther, ow).value;
            Get(rec, k) == if !appendOther || MappedValue(k, cm, ow, source).Some?
                           then MappedValue(k, cm, ow, source)
                           else Get(source, k)
  {
    var merged := Update(cm, ow);
    var tmp := MapFold([], merged, ow, source).value;
    MapFoldGet([], merged, ow, source, k);
    UpdateGet(cm, ow, k);
    assert Get(tmp, k) == MappedValue(k, cm, ow, source);
    MapFoldGetUnique([], merged, ow, source);
    if appendOther {
      UpdateGet(source, tmp, k);
    }
  }

  lemma {:induction false} MapFoldGetUnique(tmp: Record, rest: Record, ow: Record, source: Record)
    requires UniqueKeys(tmp) && MapFold(tmp, rest, ow, source).Ok?
    ensures UniqueKeys(MapFold(tmp, rest, ow, source).value)
    decreases |rest|
  {
    if rest != [] {
      var next := MapEntry(tmp, rest[0].0, rest[0].1, ow, source).value;
      MapFoldGetUnique(next, rest[1..], ow, source);
    }
  }

  /** Without `custom_mapping_append_other` every key of the record is one the
      custom mapping or the overwrites name. */
  lemma MappedRecordKeys(source: Record, cm: Record, ow: Record, k: string)
    requires cm != [] && UniqueKeys(cm) && UniqueKeys(ow)
    requires MappedRecord(source, cm, false, ow).Ok?
    requires k in Keys(MappedRecord(source, cm, false, ow).value)
    ensures k in Keys(cm) || k in Keys(ow)
  {
    MappedRecordGet(source, cm, false, ow, k);
  }

  /** The custom mapping raises exactly when a mapping string of a key without an
      overwrite leads `get_path` to something that is not a dict. */
  lemma MappedRecordErr(source: Record, cm: Record, appendOther: bool, ow: Record)
    requires cm != [] && UniqueKeys(cm) && UniqueKeys(ow)
    ensures MappedRecord(source, cm, appendOther, ow).Err? <==>
              exists k :: k in Keys(cm) && Unresolvable(k, Get(cm, k).value, ow, source)
  {
    var merged := Update(cm, ow);
    MapFoldErr([], merged, ow, source);
    if exists i :: 0 <= i < |merged| && Unresolvable(merged[i].0, merged[i].1, ow, source) {
      var i :| 0 <= i < |merged| && Unresolvable(merged[i].0, merged[i].1, ow, source);
      GetAt(merged, i);
      MergedUnresolvable(cm, ow, source, merged[i].0);
    }
    if exists k :: k in Keys(cm) && Unresolvable(k, Get(cm, k).value, ow, source) {
      var k :| k in Keys(cm) && Unresolvable(k, Get(cm, k).value, ow, source);
      var i :| 0 <= i < |merged| && Keys(merged)[i] == k;
      GetAt(merged, i);
      MergedUnresolvable(cm, ow, source, k);
    }
  }

  /** A key of the merged mapping is unresolvable exactly when it is a key of the
      custom mapping that is unresolvable there. */
  lemma MergedUnresolvable(cm: Record, ow: Record, source: Record, k: string)
    requires UniqueKeys(ow) && k in Keys(Update(cm, ow))
    ensures Unresolvable(k, Get(Update(cm, ow), k).value, ow, source) <==>
              k in Keys(cm) && Unresolvable(k, Get(cm, k).value, ow, source)
  {
    UpdateGet(cm, ow, k);
  }

  /** The two branches of lines 143-149 agree with `s.split(".")` on every string:
      a string without a dot is looked up as a single key, and the parts of the path
      joined by dots give back the string. */
  lemma MappingPathJoins(s: string)
    ensures MappingPath(s) == Split(s, '.')
    ensures Join(MappingPath(s), ".") == s
    ensures '.' !in s ==> MappingPath(s) == [s]
  {
    if '.' !in s {
      SplitWithout(s, '.');
    }
    JoinSplit(s, '.');
  }

  // ---------------------------------------------------------------------------
  // The defaults for missing fields

  /** Filling defaults keeps every key in place and appends the keys of the
      defaults that the record lacks, in the order of the defaults. */
  lemma {:induction false} FillMissingKeys(rec: Record, aim: Record)
    requires UniqueKeys(aim)
    ensures Keys(FillMissing(rec, aim)) == Keys(rec) + Fresh(Keys(aim), Keys(rec))
    decreases |aim|
  {
    if aim != [] {
      var k := aim[0].0;
      var rec' := if Missing(rec, k) then Put(rec, k, aim[0].1) else rec;
      UniqueKeysTail(aim);
      FillMissingKeys(rec', aim[1..]);
      UpdateKeysStep(Keys(rec), Keys(rec'), k, Keys(aim), Keys(aim[1..]));
    }
  }

  /** A field absent or `None` takes its default; every other field keeps its value. */
  lemma {:induction false} FillMissingGet(rec: Record, aim: Record, k: string)
    requires UniqueKeys(aim)
    ensures Get(FillMissing(rec, aim), k) ==
              if k in Keys(aim) && Missing(rec, k) then Get(aim, k) else Get(rec, k)
    decreases |aim|
  {
    if aim != [] {
      var k0 := aim[0].0;
      var rec' := if Missing(rec, k0) then Put(rec, k0, aim[0].1) else rec;
      UniqueKeysTail(aim);
      assert Keys(aim) == [k0] + Keys(aim[1..]);
      FillMissingGet(rec', aim[1..], k);
    }
  }

  lemma {:induction false} FillMissingUnique(rec: Record, aim: Record)
    requires UniqueKeys(rec)
    ensures UniqueKeys(FillMissing(rec, aim))
    decreases |aim|
  {
    if aim != [] {
      var rec' := if Missing(rec, aim[0].0) then Put(rec, aim[0].0, aim[0].1) else rec;
      PutUnique(rec, aim[0].0, aim[0].1);
      assert UniqueKeys(rec');
      FillMissingUnique(rec', aim[1..]);
    }
  }

  // ---------------------------------------------------------------------------
  // The emission of the fields

  /** Emitting is field by field: the fields of `a + b` are those of `a` followed by
      those of `b`, so a skipped field never stops the others. */
  lemma {:induction false} EmitFieldsAppend(a: Record, b: Record, ignore: seq<string>, schema: Record, ow: Record)
    ensures EmitFields(a + b, ignore, schema, ow) == EmitFields(a, ignore, schema, ow) + EmitFields(b, ignore, schema, ow)
    decreases |b|
  {
    if b == [] {
      assert a + b == a;
    } else {
      assert (a + b)[..|a + b| - 1] == a + b[..|b| - 1];
      assert (a + b)[|a + b| - 1] == b[|b| - 1];
      EmitFieldsAppend(a, b[..|b| - 1], ignore, schema, ow);
    }
  }

  /** A field `k: t` is emitted exactly when the record holds `k`, `k` is not an
      ignored field, and its value is written as `t`. */
  lemma {:induction false} EmitFieldsMember(rec: Record, ignore: seq<string>, schema: Record, ow: Record, k: string, t: string)
    ensures (k, t) in EmitFields(rec, ignore, schema, ow) <==>
              exists j :: 0 <= j < |rec| && rec[j].0 == k && k !in ignore &&
                          FieldLiteral(k, rec[j].1, schema, ow) == Some(t)
  {
    if rec != [] {
      var init := rec[..|rec| - 1];
      EmitFieldsMember(init, ignore, schema, ow, k, t);
      if exists j :: 0 <= j < |rec| && rec[j].0 == k && k !in ignore && FieldLiteral(k, rec[j].1, schema, ow) == Some(t) {
        var j :| 0 <= j < |rec| && rec[j].0 == k && k !in ignore && FieldLiteral(k, rec[j].1, schema, ow) == Some(t);
        if j < |rec| - 1 {
          assert init[j] == rec[j];
        }
      }
      if exists j :: 0 <= j < |init| && init[j].0 == k && k !in ignore && FieldLiteral(k, init[j].1, schema, ow) == Some(t) {
        var j :| 0 <= j < |init| && init[j].0 == k && k !in ignore && FieldLiteral(k, init[j].1, schema, ow) == Some(t);
        assert rec[j] == init[j];
      }
    }
  }

  /** An overwritten field is written with `str`, bools as `true`/`false` and
      strings as they are, without quotes or escaping (lines 175-179). */
  lemma FieldLiteralOverwrite(k: string, v: Value, schema: Record, ow: Record)
    requires k in Keys(ow)
    ensures v.Str? ==> FieldLiteral(k, v, schema, ow) == Some(v.s)
    ensures v.Bool? ==> FieldLiteral(k, v, schema, ow) == Some(if v.b then "true" else "false")
    ensures v.Int? ==> FieldLiteral(k, v, schema, ow) == Some(IntToString(v.i))
    ensures v == Null ==> FieldLiteral(k, v, schema, ow) == Some("None")
  {
  }

  /** Any other field holding `None` is skipped (line 182). */
  lemma FieldLiteralNull(k: string, schema: Record, ow: Record)
    requires k !in Keys(ow)
    ensures FieldLiteral(k, Null, schema, ow) == None
  {
  }

  /** A field typed `Int` is emitted exactly when `int(v)` succeeds, and its text
      reads back as that number (lines 183-190). */
  lemma FieldLiteralInt(k: string, v: Value, schema: Record, ow: Record)
    requires k !in Keys(ow) && v != Null && Get(schema, k) == Some(Str("Int"))
    ensures var r := FieldLiteral(k, v, schema, ow);
            (r.Some? <==> PyInt(v).Some?) && (r.Some? ==> ParseInt(r.value) == PyInt(v))
  {
    if PyInt(v).Some? {
      ParseIntToString(PyInt(v).value);
    }
  }

  /** A field typed `Boolean` is skipped when it is the empty string and otherwise
      written lower-case, a bool as `true` or `false` (lines 191-199). */
  lemma FieldLiteralBoolean(k: string, v: Value, schema: Record, ow: Record)
    requires k !in Keys(ow) && v != Null && Get(schema, k) == Some(Str("Boolean"))
    ensures FieldLiteral(k, v, schema, ow).None? <==> v == Str("")
    ensures v.Bool? ==> FieldLiteral(k, v, schema, ow) == Some(if v.b then "true" else "false")
    ensures v.Str? && v.s != "" ==> FieldLiteral(k, v, schema, ow) == Some(Lower(v.s))
  {
    assert "Boolean" != "Int" by { assert |"Boolean"| != |"Int"|; }
    if v.Bool? {
      NormalizedBoolLower(v.b);
    }
  }

  /** `str(v).lower()` of a bool already normalized is the word itself. */
  lemma NormalizedBoolLower(b: bool)
    ensures Lower(PyStr(Normalize(Bool(b)))) == if b then "true" else "false"
  {
    var w := if b then "true" else "false";
    assert Normalize(Bool(b)) == Str(w);
    LowerUnchanged(w);
  }

  /** A field of any other type is written by its Python type: a string quoted and
      escaped so that it reads back as the string less its STX characters and holds
      no raw line break, tab or unescaped quote; a bool as `"True"` or `"False"`; an
      integer as a number that reads back; a list or dict is skipped (lines
      202-222). */
  lemma FieldLiteralInferred(k: string, v: Value, schema: Record, ow: Record)
    requires k !in Keys(ow) && v != Null
    requires Get(schema, k) != Some(Str("Int")) && Get(schema, k) != Some(Str("Boolean"))
    ensures var r := FieldLiteral(k, v, schema, ow);
            && (r.None? <==> v.List? || v.Map?)
            && (v.Str? ==> exists e :: r == Some("\"" + e + "\"") && StringValue(e) == Some(RemoveChar(v.s, '\U{2}')) && Sanitized(e, true))
            && (v.Bool? ==> r == Some(if v.b then "\"True\"" else "\"False\""))
            && (v.Int? ==> ParseInt(r.value) == Some(v.i))
  {
    if v.Str? {
      DictEscapeReadsBack(v.s);
      DictEscapeSanitized(v.s);
      assert FieldLiteral(k, v, schema, ow) == Some("\"" + DictEscape(v.s) + "\"");
    }
    if v.Int? {
      ParseIntToString(v.i);
    }
  }

  // ---------------------------------------------------------------------------
  // The whole object

  /** Without `custom_mapping_append_other` every emitted field is one the defaults
      name, or one the custom mapping or the overwrites name and give a value other
      than `None`; it is never an ignored field. The other fields of the source are
      gone (lines 156-157). */
  lemma MappingOnlyFields(source: Record, schema: Record, cm: Record, ow: Record, ignore: seq<string>,
                          aim: Record, k: string, t: string)
    requires cm != [] && UniqueKeys(cm) && UniqueKeys(ow) && UniqueKeys(aim)
    requires DictFields(source, schema, cm, false, ow, ignore, aim).Ok?
    requires (k, t) in DictFields(source, schema, cm, false, ow, ignore, aim).value
    ensures k !in ignore
    ensures k in Keys(cm) || k in Keys(ow) || k in Keys(aim)
    ensures k !in Keys(aim) ==> MappedValue(k, cm, ow, source).Some? && MappedValue(k, cm, ow, source).value != Null
  {
    var filled := FillMissing(MappedRecord(source, cm, false, ow).value, aim);
    EmitFieldsMember(filled, ignore, schema, ow, k, t);
    var j :| 0 <= j < |filled| && filled[j].0 == k && k !in ignore && FieldLiteral(k, filled[j].1, schema, ow) == Some(t);
    if k !in Keys(aim) {
      MappedNotDefault(source, schema, cm, ow, aim, j);
    }
  }

  /** A written field of the filled record that no default names has a mapped value
      other than `None`, and the custom mapping or the overwrites name it. */
  lemma MappedNotDefault(source: Record, schema: Record, cm: Record, ow: Record, aim: Record, j: nat)
    requires cm != [] && UniqueKeys(cm) && UniqueKeys(ow) && UniqueKeys(aim)
    requires MappedRecord(source, cm, false, ow).Ok?
    requires var filled := FillMissing(MappedRecord(source, cm, false, ow).value, aim);
             j < |filled| && filled[j].0 !in Keys(aim) && FieldLiteral(filled[j].0, filled[j].1, schema, ow).Some?
    ensures var f := FillMissing(MappedRecord(source, cm, false, ow).value, aim)[j];
            && MappedValue(f.0, cm, ow, source).Some? && MappedValue(f.0, cm, ow, source).value != Null
            && (f.0 in Keys(cm) || f.0 in Keys(ow))
  {
    var rec := MappedRecord(source, cm, false, ow).value;
    var filled := FillMissing(rec, aim);
    var k := filled[j].0;
    var v := filled[j].1;
    MapFoldGetUnique([], Update(cm, ow), ow, source);
    FillMissingUnique(rec, aim);
    GetAt(filled, j);
    FillMissingGet(rec, aim, k);
    assert Get(rec, k) == Some(v);
    MappedRecordGet(source, cm, false, ow, k);
    MappedRecordKeys(source, cm, ow, k);
    assert MappedValue(k, cm, ow, source) == Some(v);
    if k in Keys(ow) {
      OverwriteNotNull(k, cm, ow, source);
    } else {
      FieldLiteralNull(k, schema, ow);
    }
  }

  /** An overwrite the mapping keeps is never `None`. */
  lemma OverwriteNotNull(k: string, cm: Record, ow: Record, source: Record)
    requires k in Keys(ow)
    ensures MappedValue(k, cm, ow, source).Some? ==> MappedValue(k, cm, ow, source).value != Null
  {
  }

  /** With a custom mapping an overwrite that is not `None` always appears in the
      object, written with `str`, unless its field is ignored (lines 175-179). */
  lemma OverwriteEmitted(source: Record, schema: Record, cm: Record, appendOther: bool, ow: Record,
                         ignore: seq<string>, aim: Record, k: string)
    requires cm != [] && UniqueKeys(source) && UniqueKeys(cm) && UniqueKeys(ow) && UniqueKeys(aim)
    requires DictFields(source, schema, cm, appendOther, ow, ignore, aim).Ok?
    requires k in Keys(ow) && Get(ow, k).value != Null && k !in ignore
    ensures (k, PyStr(Normalize(Get(ow, k).value))) in DictFields(source, schema, cm, appendOther, ow, ignore, aim).value
  {
    var v := Get(ow, k).value;
    var filled := FillMissing(MappedRecord(source, cm, appendOther, ow).value, aim);
    OverwriteFilled(source, cm, appendOther, ow, aim, k);
    var j :| 0 <= j < |filled| && Keys(filled)[j] == k;
    GetAt(filled, j);
    FieldLiteralOverwrite(k, v, schema, ow);
    EmitFieldsMember(filled, ignore, schema, ow, k, PyStr(Normalize(v)));
  }

  /** A non-`None` overwrite survives the mapping and the defaults, in a record
      without duplicate keys. */
  lemma OverwriteFilled(source: Record, cm: Record, appendOther: bool, ow: Record, aim: Record, k: string)
    requires cm != [] && UniqueKeys(source) && UniqueKeys(cm) && UniqueKeys(ow) && UniqueKeys(aim)
    requires MappedRecord(source, cm, appendOther, ow).Ok?
    requires k in Keys(ow) && Get(ow, k).value != Null
    ensures var filled := FillMissing(MappedRecord(source, cm, appendOther, ow).value, aim);
            UniqueKeys(filled) && Get(filled, k) == Get(ow, k)
  {
    var rec := MappedRecord(source, cm, appendOther, ow).value;
    MappedRecordGet(source, cm, appendOther, ow, k);
    FillMissingGet(rec, aim, k);
    MappedUnique(source, cm, appendOther, ow);
    FillMissingUnique(rec, aim);
  }

  lemma MappedUnique(source: Record, cm: Record, appendOther: bool, ow: Record)
    requires cm != [] && UniqueKeys(source)
    requires MappedRecord(source, cm, appendOther, ow).Ok?
    ensures UniqueKeys(MappedRecord(source, cm, appendOther, ow).value)
  {
    MapFoldGetUnique([], Update(cm, ow), ow, source);
  }

  // ---------------------------------------------------------------------------
  // Fields of tests/test_gqlbuilder.py lines 63-123

  /** The mapping `"name": "data.name"` looks up `data`, then `name`. */
  lemma MappingPathExample()
    ensures MappingPath("data.name") == ["data", "name"]
  {
    assert "data.name" == "data" + ['.'] + "name";
    SplitOnce("data", '.', "name");
  }

  /** With `name` typed `Int` (line 113), its value `"test"` fails `int()` and the
      field is skipped. */
  lemma IntNameSkippedExample(schema: Record, ow: Record)
    requires Get(schema, "name") == Some(Str("Int")) && "name" !in Keys(ow)
    ensures FieldLiteral("name", Str("test"), schema, ow) == None
  {
    assert StripLeft("test") == "test";
    assert StripRight("test") == "test";
    assert !IsDigit('t');
  }

  /** `has_bird` has no type (line 84), so its `True` is written as a quoted `"True"`. */
  lemma UntypedBoolExample(schema: Record, ow: Record)
    requires Get(schema, "has_bird") == Some(Null) && "has_bird" !in Keys(ow)
    ensures FieldLiteral("has_bird", Bool(true), schema, ow) == Some("\"True\"")
  {
  }

  /** `has_cat` is overwritten with `False` (line 94) and written as `false`. */
  lemma OverwriteBoolExample(schema: Record, ow: Record)
    requires "has_cat" in Keys(ow)
    ensures FieldLiteral("has_cat", Bool(false), schema, ow) == Some("false")
  {
    FieldLiteralOverwrite("has_cat", Bool(false), schema, ow);
  }
}
