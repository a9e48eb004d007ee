/** `_prepare_dict` (`GraphQLBuilder/__init__.py` lines 242-259): a one-key dict
    naming a field and its sub-fields becomes a GraphQL selection `name { a b }`. */
module Selection {
  import opened Values
  import opened Text

  /** The text of a sub-field, or `None` where Python raises: a nested dict goes
      through `_prepare_dict` again, a string stays as it is, anything else makes
      `" ".join` raise `TypeError`. */
  function ChildText(x: Value): Option<string>
    decreases x, 1
  {
    if x.Map? then PrepareDict(x) else if x.Str? then Some(x.s) else None
  }

  /** The texts of the sub-fields Python iterates over in `field_dict[name]` (lines
      253-257): the items of a list, the keys of a dict, the one-character strings
      of a string. */
  function ChildTexts(c: Value): seq<Option<string>>
    requires c.List? || c.Map? || c.Str?
    decreases c, 0
  {
    match c
    case List(items) => seq(|items|, k requires 0 <= k < |items| => assert items[k] in items; ChildText(items[k]))
    case Map(entries) => seq(|entries|, k requires 0 <= k < |entries| => Some(entries[k].0))
    case Str(s) => seq(|s|, k requires 0 <= k < |s| => Some([s[k]]))
  }

  /** The sub-field texts, one by one. */
  lemma ChildTextsAt(c: Value)
    requires c.List? || c.Map? || c.Str?
    ensures var r := ChildTexts(c);
            && (c.List? ==> |r| == |c.items| && forall k :: 0 <= k < |r| ==> r[k] == ChildText(c.items[k]))
            && (c.Map? ==> |r| == |c.entries| && forall k :: 0 <= k < |r| ==> r[k] == Some(c.entries[k].0))
            && (c.Str? ==> |r| == |c.s| && forall k :: 0 <= k < |r| ==> r[k] == Some([c.s[k]]))
  {
  }

  /** The texts of sub-fields that all have one. */
  function Texts(ps: seq<Option<string>>): seq<string>
    requires forall k :: 0 <= k < |ps| ==> ps[k].Some?
  {
    seq(|ps|, k requires 0 <= k < |ps| => ps[k].value)
  }

  /** `_prepare_dict(v)`, or `None` where it raises: a key count other than one
      (line 250), a value that cannot be iterated, or a sub-field that fails. */
  function PrepareDict(v: Value): Option<string>
    requires v.Map?
    decreases v, 0
  {
    if |v.entries| != 1 then None
    else
      assert v.entries[0] in v.entries;
      var c := v.entries[0].1;
      if !(c.List? || c.Map? || c.Str?) then None
      else
        var ps := ChildTexts(c);
        if forall k :: 0 <= k < |ps| ==> ps[k].Some? then
          Some(v.entries[0].0 + " { " + Join(Texts(ps), " ") + " }")
        else None
  }

  /** The shape `_prepare_dict` accepts: exactly one key, whose value is a dict, a
      string, or a list of strings and accepted dicts. */
  predicate WellShaped(v: Value)
    decreases v
  {
    && v.Map? && |v.entries| == 1
    && (assert v.entries[0] in v.entries;
        var c := v.entries[0].1;
        || c.Map? || c.Str?
        || (c.List? && forall k :: 0 <= k < |c.items| ==>
              c.items[k].Str? || (c.items[k].Map? && WellShaped(c.items[k]))))
  }

  /** `_prepare_dict` succeeds exactly on the well-shaped dicts: a missing or second
      key anywhere in the nesting makes it raise (line 250). */
  lemma {:induction false} PrepareDictDefined(v: Value)
    requires v.Map?
    ensures PrepareDict(v).Some? <==> WellShaped(v)
    decreases v
  {
    if |v.entries| == 1 {
      assert v.entries[0] in v.entries;
      var c := v.entries[0].1;
      if c.List? {
        forall k | 0 <= k < |c.items| && c.items[k].Map?
          ensures PrepareDict(c.items[k]).Some? <==> WellShaped(c.items[k])
        {
          assert c.items[k] in c.items;
          PrepareDictDefined(c.items[k]);
        }
        var ps := ChildTexts(c);
        ChildTextsAt(c);
        assert (forall k :: 0 <= k < |ps| ==> ps[k].Some?) <==>
               (forall k :: 0 <= k < |c.items| ==> c.items[k].Str? || (c.items[k].Map? && WellShaped(c.items[k])));
      }
    }
  }

  /** No name anywhere in the nesting holds a curly brace. */
  predicate NoBraces(v: Value)
    decreases v
  {
    match v
    case Null => true
    case Bool(_) => true
    case Int(_) => true
    case Str(s) => '{' !in s && '}' !in s
    case List(items) => forall k :: 0 <= k < |items| ==> NoBraces(items[k])
    case Map(entries) => forall k :: 0 <= k < |entries| ==>
                           '{' !in entries[k].0 && '}' !in entries[k].0 &&
                           (assert entries[k] in entries; NoBraces(entries[k].1))
  }

  /** The number of braces `s` leaves open: its `{` less its `}`. */
  function Depth(s: string): int
  {
    multiset(s)['{'] as int - multiset(s)['}'] as int
  }

  /** No prefix of `s` is nested less deeply than `d`. */
  predicate Above(s: string, d: int)
  {
    forall i :: 0 <= i <= |s| ==> Depth(s[..i]) >= d
  }

  lemma AboveAppend(a: string, b: string, d: int)
    requires Above(a, d) && Above(b, d - Depth(a))
    ensures Above(a + b, d) && Depth(a + b) == Depth(a) + Depth(b)
  {
    forall i | 0 <= i <= |a + b|
      ensures Depth((a + b)[..i]) >= d
    {
      if i <= |a| {
        assert (a + b)[..i] == a[..i];
      } else {
        assert (a + b)[..i] == a + b[..i - |a|];
        assert Depth(b[..i - |a|]) >= d - Depth(a);
      }
    }
    assert multiset(a + b) == multiset(a) + multiset(b);
  }

  /** A text without braces never opens or closes one. */
  lemma BracelessAbove(s: string)
    requires '{' !in s && '}' !in s
    ensures Above(s, 0) && Depth(s) == 0
  {
    forall i | 0 <= i <= |s|
      ensures Depth(s[..i]) == 0
    {
      assert '{' !in multiset(s[..i]) && '}' !in multiset(s[..i]);
    }
    assert s[..|s|] == s;
  }

  lemma {:induction false} JoinNested(parts: seq<string>, sep: string)
    requires forall k :: 0 <= k < |parts| ==> Above(parts[k], 0) && Depth(parts[k]) == 0
    requires '{' !in sep && '}' !in sep
    ensures Above(Join(parts, sep), 0) && Depth(Join(parts, sep)) == 0
  {
    if parts == [] {
      BracelessAbove("");
    } else if |parts| > 1 {
      JoinNested(parts[1..], sep);
      BracelessAbove(sep);
      AboveAppend(parts[0], sep, 0);
      AboveAppend(parts[0] + sep, Join(parts[1..], sep), 0);
      assert Join(parts, sep) == parts[0] + sep + Join(parts[1..], sep);
    }
  }

  /** The opening piece `_prepare_dict` writes before the sub-field texts. */
  lemma OpenDepth()
    ensures Above(" { ", 0) && Depth(" { ") == 1
  {
    var open := " { ";
    assert multiset(open[..0]) == multiset{};
    assert multiset(open[..1]) == multiset{' '};
    assert open[..2] == [' '] + ['{'];
    assert multiset(open[..2]) == multiset{' ', '{'};
    assert open[..3] == open[..2] + [' '];
    assert multiset(open) == multiset{' ', '{', ' '};
  }

  /** The closing piece written after them. */
  lemma CloseDepth()
    ensures Above(" }", -1) && Depth(" }") == -1
  {
    var close := " }";
    assert multiset(close[..0]) == multiset{};
    assert multiset(close[..1]) == multiset{' '};
    assert close[..2] == close && multiset(close) == multiset{' ', '}'};
  }

  /** A braceless name, then `" { "`, a nested text and `" }"`. */
  lemma WrapNested(name: string, inner: string)
    requires '{' !in name && '}' !in name
    requires Above(inner, 0) && Depth(inner) == 0
    ensures Above(name + " { " + inner + " }", 0) && Depth(name + " { " + inner + " }") == 0
  {
    BracelessAbove(name);
    var open := " { ";
    var close := " }";
    OpenDepth();
    CloseDepth();
    AboveAppend(name, open, 0);
    assert Above(inner, -1);
    AboveAppend(name + open, inner, 0);
    AboveAppend(name + open + inner, close, 0);
  }

  /** When no name holds a brace, the selection `_prepare_dict` writes closes every
      brace it opens: it holds as many `}` as `{`, and no prefix of it holds more
      `}` than `{`. */
  lemma {:induction false} PrepareDictBalanced(v: Value)
    requires v.Map? && NoBraces(v) && PrepareDict(v).Some?
    ensures multiset(PrepareDict(v).value)['{'] == multiset(PrepareDict(v).value)['}']
    ensures forall i :: 0 <= i <= |PrepareDict(v).value| ==>
              multiset(PrepareDict(v).value[..i])['}'] <= multiset(PrepareDict(v).value[..i])['{']
    decreases v
  {
    assert v.entries[0] in v.entries;
    var c := v.entries[0].1;
    assert NoBraces(c);
    var texts := Texts(ChildTexts(c));
    ChildTextsAt(c);
    forall k | 0 <= k < |texts|
      ensures Above(texts[k], 0) && Depth(texts[k]) == 0
    {
      if c.List? {
        assert c.items[k] in c.items;
        assert NoBraces(c.items[k]);
        if c.items[k].Map? {
          PrepareDictBalanced(c.items[k]);
          var t := texts[k];
          assert Above(t, 0) by {
            forall i | 0 <= i <= |t| ensures Depth(t[..i]) >= 0 { }
          }
        } else {
          BracelessAbove(texts[k]);
        }
      } else if c.Map? {
        assert texts[k] == c.entries[k].0;
        BracelessAbove(texts[k]);
      } else {
        assert texts[k] == [c.s[k]];
        BracelessAbove(texts[k]);
      }
    }
    JoinNested(texts, " ");
    WrapNested(v.entries[0].0, Join(texts, " "));
  }

  /** A one-key dict whose sub-fields have the texts `texts` is written as its key,
      then the texts between braces, separated by spaces. */
  lemma PrepareSingle(name: string, c: Value, texts: seq<string>)
    requires c.List? || c.Map? || c.Str?
    requires |ChildTexts(c)| == |texts|
    requires forall k :: 0 <= k < |texts| ==> ChildTexts(c)[k] == Some(texts[k])
    ensures PrepareDict(Map([(name, c)])) == Some(name + " { " + Join(texts, " ") + " }")
  {
    assert Texts(ChildTexts(c)) == texts;
  }

  /** `{"name": {"firstname": "test", "lastname": "bar"}}` selects the keys of the
      inner dict (tests/test_gqlbuilder.py line 150). */
  lemma DictChildrenExample()
    ensures PrepareDict(Map([("name", Map([("firstname", Str("test")), ("lastname", Str("bar"))]))]))
            == Some("name { firstname lastname }")
  {
    var c := Map([("firstname", Str("test")), ("lastname", Str("bar"))]);
    var texts := ["firstname", "lastname"];
    assert ChildTexts(c) == [Some("firstname"), Some("lastname")];
    PrepareSingle("name", c, texts);
    assert Join(texts, " ") == "firstname lastname" by {
      assert Join(texts[1..], " ") == "lastname";
    }
    assert "name" + " { " + "firstname lastname" + " }" == "name { firstname lastname }";
  }

  /** A one-key dict holding a list of two sub-field names. */
  lemma TwoNamesSelection(name: string, a: string, b: string)
    ensures PrepareDict(Map([(name, List([Str(a), Str(b)]))])) == Some(name + " { " + a + " " + b + " }")
  {
    var c := List([Str(a), Str(b)]);
    var texts := [a, b];
    ChildTextsAt(c);
    PrepareSingle(name, c, texts);
    assert Join(texts, " ") == a + " " + b by {
      assert Join(texts[1..], " ") == b;
    }
    assert name + " { " + (a + " " + b) + " }" == name + " { " + a + " " + b + " }";
  }

  /** The selection texts of the two lists of names below, spelled out. */
  lemma ListChildrenTexts()
    ensures "name" + " { " + "firstname" + " " + "lastname" + " }" == "name { firstname lastname }"
    ensures "animals" + " { " + "has_bird" + " " + "has_dog" + " }" == "animals { has_bird has_dog }"
  {
  }

  /** Lists of sub-field names: the nested field of tests/test_gqlbuilder.py line
      168, and the innermost dict of line 177. */
  lemma ListChildrenExample()
    ensures PrepareDict(Map([("name", List([Str("firstname"), Str("lastname")]))]))
            == Some("name { firstname lastname }")
    ensures PrepareDict(Map([("animals", List([Str("has_bird"), Str("has_dog")]))]))
            == Some("animals { has_bird has_dog }")
  {
    TwoNamesSelection("name", "firstname", "lastname");
    TwoNamesSelection("animals", "has_bird", "has_dog");
    ListChildrenTexts();
  }

  /** The sub-field texts of the outer list of tests/test_gqlbuilder.py line 177. */
  lemma DoubleNestedTexts(c: Value)
    requires c == List([Str("firstname"), Str("lastname"),
                        Map([("animals", List([Str("has_bird"), Str("has_dog")]))])])
    ensures ChildTexts(c) == [Some("firstname"), Some("lastname"), Some("animals { has_bird has_dog }")]
  {
    ListChildrenExample();
    ChildTextsAt(c);
  }

  /** Three texts joined with spaces. */
  lemma JoinThree(a: string, b: string, c: string)
    ensures Join([a, b, c], " ") == a + " " + b + " " + c
  {
    assert [a, b, c][1..] == [b, c];
    assert [b, c][1..] == [c];
    assert Join([b, c], " ") == b + " " + c;
    assert a + " " + (b + " " + c) == a + " " + b + " " + c;
  }

  /** The outer braces of the double nesting. */
  lemma NameBraces(inner: string)
    ensures "name" + " { " + ("firstname" + " " + "lastname" + " " + inner) + " }"
            == "name { firstname lastname " + inner + " }"
  {
    assert "name" + " { " + "firstname" + " " + "lastname" + " " == "name { firstname lastname ";
  }

  /** The double nesting of tests/test_gqlbuilder.py line 177: the inner
      `animals` selection stays inside the braces of `name`. */
  lemma DoubleNestedExample()
    ensures PrepareDict(Map([("name", List([Str("firstname"), Str("lastname"),
                                            Map([("animals", List([Str("has_bird"), Str("has_dog")]))])]))]))
            == Some("name { firstname lastname " + "animals { has_bird has_dog }" + " }")
  {
    var inner := "animals { has_bird has_dog }";
    var c := List([Str("firstname"), Str("lastname"),
                   Map([("animals", List([Str("has_bird"), Str("has_dog")]))])]);
    var texts := ["firstname", "lastname", inner];
    DoubleNestedTexts(c);
    PrepareSingle("name", c, texts);
    JoinThree("firstname", "lastname", inner);
    NameBraces(inner);
  }

  /** A second key makes the dict unusable (tests/test_gqlbuilder.py line 186). */
  lemma TwoKeysExample()
    ensures PrepareDict(Map([("name", List([Str("firstname"), Str("lastname")])),
                             ("second_not_allowed_field", Str(""))])).None?
  {
  }
}
