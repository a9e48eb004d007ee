/** The escape chains the builder applies to a string before quoting it
    (`GraphQLBuilder/__init__.py` lines 79-83 for list items, 209-214 for dict fields),
    and the GraphQL reading of a quoted string body that undoes them. */
module Escape {
  import opened Values

  /** `s.replace(c, t)` for a one-character pattern. */
  function ReplaceChar(s: string, c: char, t: string): string
  {
    if s == [] then "" else (if s[0] == c then t else [s[0]]) + ReplaceChar(s[1..], c, t)
  }

  /** The list builder's chain: backslash first, then newline, carriage return, tab,
      and the double quote last. */
  function ListEscape(s: string): string
  {
    ReplaceChar(ReplaceChar(ReplaceChar(ReplaceChar(ReplaceChar(
      s, '\\', "\\\\"), '\n', "\\n"), '\r', "\\r"), '\t', "\\t"), '"', "\\\"")
  }

  /** The dict builder's chain: as the list builder's, and the control character
      0x02 is removed before the double quote is escaped. */
  function DictEscape(s: string): string
  {
    ReplaceChar(ReplaceChar(ReplaceChar(ReplaceChar(ReplaceChar(ReplaceChar(
      s, '\\', "\\\\"), '\n', "\\n"), '\r', "\\r"), '\t', "\\t"), '\U{2}', ""), '"', "\\\"")
  }

  /** What either chain does to one character; `dropStx` selects the dict builder's. */
  function EscapeChar(c: char, dropStx: bool): string
  {
    if c == '\\' then "\\\\"
    else if c == '\n' then "\\n"
    else if c == '\r' then "\\r"
    else if c == '\t' then "\\t"
    else if c == '\U{2}' && dropStx then ""
    else if c == '"' then "\\\""
    else [c]
  }

  /** Escaping character by character, in one pass. */
  function EscapeEach(s: string, dropStx: bool): string
  {
    if s == [] then "" else EscapeChar(s[0], dropStx) + EscapeEach(s[1..], dropStx)
  }

  /** `s.replace(c, "")`. */
  function RemoveChar(s: string, c: char): string
  {
    ReplaceChar(s, c, "")
  }

  /** The character a GraphQL escape `\x` stands for (section 2.9.4, "String Value",
      of the GraphQL specification, October 2021); `\u` escapes are not modelled. */
  function EscapedCharacter(c: char): (r: Option<char>)
  {
    if c == '"' then Some('"')
    else if c == '\\' then Some('\\')
    else if c == '/' then Some('/')
    else if c == 'b' then Some('\U{8}')
    else if c == 'f' then Some('\U{c}')
    else if c == 'n' then Some('\n')
    else if c == 'r' then Some('\r')
    else if c == 't' then Some('\t')
    else None
  }

  /** The string value of the body of a GraphQL string literal: `None` when the body
      cannot stand between two double quotes (a bare `"`, a dangling or unknown escape,
      a line terminator). */
  function StringValue(body: string): Option<string>
  {
    if body == [] then Some([])
    else if body[0] == '\\' then
      if |body| >= 2 && EscapedCharacter(body[1]).Some? then
        match StringValue(body[2..])
        case Some(rest) => Some([EscapedCharacter(body[1]).value] + rest)
        case None => None
      else None
    else if body[0] == '"' || body[0] == '\n' || body[0] == '\r' then None
    else
      match StringValue(body[1..])
      case Some(rest) => Some([body[0]] + rest)
      case None => None
  }

  lemma {:induction false} ReplaceCharAppend(a: string, b: string, c: char, t: string)
    ensures ReplaceChar(a + b, c, t) == ReplaceChar(a, c, t) + ReplaceChar(b, c, t)
  {
    if a == [] {
      assert a + b == b;
    } else {
      assert (a + b)[1..] == a[1..] + b;
      ReplaceCharAppend(a[1..], b, c, t);
    }
  }

  lemma {:induction false} ReplaceCharAbsent(s: string, c: char, t: string)
    requires c !in s
    ensures ReplaceChar(s, c, t) == s
  {
    if s != [] {
      ReplaceCharAbsent(s[1..], c, t);
      assert [s[0]] + s[1..] == s;
    }
  }

  lemma ReplaceCharSingle(d: char, c: char, t: string)
    ensures ReplaceChar([d], c, t) == if d == c then t else [d]
  {
    assert [d][1..] == [];
  }

  /** The replacements after the first that changes a character leave its
      replacement text alone. */
  lemma ChainOne(c: char, dropStx: bool)
    ensures var s1 := ReplaceChar([c], '\\', "\\\\");
            var s2 := ReplaceChar(s1, '\n', "\\n");
            var s3 := ReplaceChar(s2, '\r', "\\r");
            var s4 := ReplaceChar(s3, '\t', "\\t");
            var s5 := if dropStx then ReplaceChar(s4, '\U{2}', "") else s4;
            ReplaceChar(s5, '"', "\\\"") == EscapeChar(c, dropStx)
  {
    ReplaceCharSingle(c, '\\', "\\\\");
    if c == '\\' {
      PastBackslashStep("\\\\", dropStx);
    } else {
      ReplaceCharSingle(c, '\n', "\\n");
      if c == '\n' {
        PastNewlineStep("\\n", dropStx);
      } else {
        ReplaceCharSingle(c, '\r', "\\r");
        if c == '\r' {
          PastReturnStep("\\r", dropStx);
        } else {
          ReplaceCharSingle(c, '\t', "\\t");
          if c == '\t' {
            PastTabStep("\\t", dropStx);
          } else {
            if dropStx {
              ReplaceCharSingle(c, '\U{2}', "");
            }
            if c == '\U{2}' && dropStx {
              ReplaceCharAbsent("", '"', "\\\"");
            } else {
              ReplaceCharSingle(c, '"', "\\\"");
            }
          }
        }
      }
    }
  }

  /** The replacement text of the tab step contains nothing the later steps
      replace, so it leaves the chain as it is; likewise for the three lemmas after
      this one, each for the step its name gives. */
  lemma PastTabStep(e: string, dropStx: bool)
    requires '\U{2}' !in e && '"' !in e
    ensures var s5 := if dropStx then ReplaceChar(e, '\U{2}', "") else e;
            ReplaceChar(s5, '"', "\\\"") == e
  {
    ReplaceCharAbsent(e, '\U{2}', "");
    ReplaceCharAbsent(e, '"', "\\\"");
  }

  lemma PastReturnStep(e: string, dropStx: bool)
    requires '\t' !in e && '\U{2}' !in e && '"' !in e
    ensures var s4 := ReplaceChar(e, '\t', "\\t");
            var s5 := if dropStx then ReplaceChar(s4, '\U{2}', "") else s4;
            ReplaceChar(s5, '"', "\\\"") == e
  {
    ReplaceCharAbsent(e, '\t', "\\t");
    PastTabStep(e, dropStx);
  }

  lemma PastNewlineStep(e: string, dropStx: bool)
    requires '\r' !in e && '\t' !in e && '\U{2}' !in e && '"' !in e
    ensures var s3 := ReplaceChar(e, '\r', "\\r");
            var s4 := ReplaceChar(s3, '\t', "\\t");
            var s5 := if dropStx then ReplaceChar(s4, '\U{2}', "") else s4;
            ReplaceChar(s5, '"', "\\\"") == e
  {
    ReplaceCharAbsent(e, '\r', "\\r");
    PastReturnStep(e, dropStx);
  }

  lemma PastBackslashStep(e: string, dropStx: bool)
    requires '\n' !in e && '\r' !in e && '\t' !in e && '\U{2}' !in e && '"' !in e
    ensures var s2 := ReplaceChar(e, '\n', "\\n");
            var s3 := ReplaceChar(s2, '\r', "\\r");
            var s4 := ReplaceChar(s3, '\t', "\\t");
            var s5 := if dropStx then ReplaceChar(s4, '\U{2}', "") else s4;
            ReplaceChar(s5, '"', "\\\"") == e
  {
    ReplaceCharAbsent(e, '\n', "\\n");
    PastNewlineStep(e, dropStx);
  }

  /** Either chain, spelled out step by step; `dropStx` selects the dict builder's. */
  function Chain(s: string, dropStx: bool): string
  {
    var s1 := ReplaceChar(s, '\\', "\\\\");
    var s2 := ReplaceChar(s1, '\n', "\\n");
    var s3 := ReplaceChar(s2, '\r', "\\r");
    var s4 := ReplaceChar(s3, '\t', "\\t");
    var s5 := if dropStx then ReplaceChar(s4, '\U{2}', "") else s4;
    ReplaceChar(s5, '"', "\\\"")
  }

  lemma ChainAppend(a: string, b: string, dropStx: bool)
    ensures Chain(a + b, dropStx) == Chain(a, dropStx) + Chain(b, dropStx)
  {
    var s1a, s1b := ReplaceChar(a, '\\', "\\\\"), ReplaceChar(b, '\\', "\\\\");
    ReplaceCharAppend(a, b, '\\', "\\\\");
    var s2a, s2b := ReplaceChar(s1a, '\n', "\\n"), ReplaceChar(s1b, '\n', "\\n");
    ReplaceCharAppend(s1a, s1b, '\n', "\\n");
    var s3a, s3b := ReplaceChar(s2a, '\r', "\\r"), ReplaceChar(s2b, '\r', "\\r");
    ReplaceCharAppend(s2a, s2b, '\r', "\\r");
    var s4a, s4b := ReplaceChar(s3a, '\t', "\\t"), ReplaceChar(s3b, '\t', "\\t");
    ReplaceCharAppend(s3a, s3b, '\t', "\\t");
    var s5a := if dropStx then ReplaceChar(s4a, '\U{2}', "") else s4a;
    var s5b := if dropStx then ReplaceChar(s4b, '\U{2}', "") else s4b;
    if dropStx {
      ReplaceCharAppend(s4a, s4b, '\U{2}', "");
    }
    ReplaceCharAppend(s5a, s5b, '"', "\\\"");
  }

  /** The chain of replacements at lines 79-83 escapes each character on its own:
      no replacement rewrites what an earlier one produced. */
  lemma {:induction false} ListEscapeEach(s: string)
    ensures ListEscape(s) == EscapeEach(s, false)
  {
    assert ListEscape(s) == Chain(s, false);
    if s != [] {
      assert s == [s[0]] + s[1..];
      ChainAppend([s[0]], s[1..], false);
      ChainOne(s[0], false);
      ListEscapeEach(s[1..]);
    }
  }

  /** Likewise for the chain at lines 209-214. */
  lemma {:induction false} DictEscapeEach(s: string)
    ensures DictEscape(s) == EscapeEach(s, true)
  {
    assert DictEscape(s) == Chain(s, true);
    if s != [] {
      assert s == [s[0]] + s[1..];
      ChainAppend([s[0]], s[1..], true);
      ChainOne(s[0], true);
      DictEscapeEach(s[1..]);
    }
  }

  lemma {:induction false} StringValueOfEscapeEach(s: string, dropStx: bool)
    ensures StringValue(EscapeEach(s, dropStx)) == Some(if dropStx then RemoveChar(s, '\U{2}') else s)
  {
    if s != [] {
      var e := EscapeChar(s[0], dropStx);
      var rest := EscapeEach(s[1..], dropStx);
      StringValueOfEscapeEach(s[1..], dropStx);
      assert EscapeEach(s, dropStx) == e + rest;
      StringValueOfEscaped(s[0], dropStx, rest);
      var want := if dropStx then RemoveChar(s, '\U{2}') else s;
      var wantRest := if dropStx then RemoveChar(s[1..], '\U{2}') else s[1..];
      if e == "" {
        assert want == wantRest;
      } else {
        assert want == [s[0]] + wantRest;
      }
    }
  }

  /** Reading back one escaped character in front of `rest`. */
  lemma StringValueOfEscaped(c: char, dropStx: bool, rest: string)
    ensures var e := EscapeChar(c, dropStx);
            StringValue(e + rest) ==
              if e == "" then StringValue(rest)
              else match StringValue(rest)
                case Some(r) => Some([c] + r)
                case None => None
  {
    var e := EscapeChar(c, dropStx);
    if |e| == 2 {
      assert (e + rest)[2..] == rest;
      assert (e + rest)[0] == '\\' && EscapedCharacter((e + rest)[1]) == Some(c);
    } else if |e| == 1 {
      assert (e + rest)[1..] == rest;
    } else {
      assert e + rest == rest;
    }
  }
  /** Reading the escaped text of a list item as a GraphQL string gives back the
      original string. */
  lemma ListEscapeReadsBack(s: string)
    ensures StringValue(ListEscape(s)) == Some(s)
  {
    ListEscapeEach(s);
    StringValueOfEscapeEach(s, false);
  }

  /** Reading the escaped text of a dict field as a GraphQL string gives back the
      original string without its 0x02 characters. */
  lemma DictEscapeReadsBack(s: string)
    ensures StringValue(DictEscape(s)) == Some(RemoveChar(s, '\U{2}'))
  {
    DictEscapeEach(s);
    StringValueOfEscapeEach(s, true);
  }

  /** No raw line break or tab (nor 0x02 when `dropStx`), and every double quote
      right after a backslash. */
  predicate Sanitized(r: string, dropStx: bool)
  {
    forall i {:trigger r[i]} :: 0 <= i < |r| ==>
      && r[i] != '\n' && r[i] != '\r' && r[i] != '\t'
      && (dropStx ==> r[i] != '\U{2}')
      && (r[i] == '"' ==> i > 0 && r[i - 1] == '\\')
  }

  lemma {:induction false} EscapeEachSanitized(s: string, dropStx: bool)
    ensures Sanitized(EscapeEach(s, dropStx), dropStx)
  {
    if s != [] {
      var e := EscapeChar(s[0], dropStx);
      var rest := EscapeEach(s[1..], dropStx);
      EscapeEachSanitized(s[1..], dropStx);
      assert Sanitized(e, dropStx);
      var r := e + rest;
      assert EscapeEach(s, dropStx) == r;
      forall i | 0 <= i < |r|
        ensures && r[i] != '\n' && r[i] != '\r' && r[i] != '\t'
                && (dropStx ==> r[i] != '\U{2}')
                && (r[i] == '"' ==> i > 0 && r[i - 1] == '\\')
      {
        if i < |e| {
          assert r[i] == e[i];
          if i > 0 {
            assert r[i - 1] == e[i - 1];
          }
        } else {
          var j := i - |e|;
          assert r[i] == rest[j];
          if j > 0 {
            assert r[i - 1] == rest[j - 1];
          }
        }
      }
    }
  }

  /** The escaped text of a list item holds no raw newline, carriage return or tab,
      and every double quote in it is escaped. */
  lemma ListEscapeSanitized(s: string)
    ensures Sanitized(ListEscape(s), false)
  {
    ListEscapeEach(s);
    EscapeEachSanitized(s, false);
  }

  /** The escaped text of a dict field holds, in addition, no 0x02. */
  lemma DictEscapeSanitized(s: string)
    ensures Sanitized(DictEscape(s), true)
  {
    DictEscapeEach(s);
    EscapeEachSanitized(s, true);
  }
}
