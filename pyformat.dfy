/** How Python turns a value into text or a number: `str(v)`, `repr(v)`,
    `"%d" % v` and `int(v)`. */
module PyFormat {
  import opened Values
  import opened Text

  function HexDigit(d: nat): char
    requires d < 16
  {
    if d < 10 then DigitChar(d) else ('a' as int + d - 10) as char
  }

  /** One character of a string inside `repr`, given the quote that delimits it.
      Non-ASCII characters are kept as they are. */
  function ReprChar(c: char, quote: char): string
  {
    if c == quote || c == '\\' then ['\\', c]
    else if c == '\t' then "\\t"
    else if c == '\n' then "\\n"
    else if c == '\r' then "\\r"
    else if c < ' ' || c == '\U{7f}' then ['\\', 'x', HexDigit(c as int / 16), HexDigit(c as int % 16)]
    else [c]
  }

  function ReprBody(s: string, quote: char): string
  {
    if s == [] then "" else ReprChar(s[0], quote) + ReprBody(s[1..], quote)
  }

  /** `repr(s)` for a string: single quotes unless the text holds a single quote and
      no double quote. */
  function ReprStr(s: string): string
  {
    var quote := if '\'' in s && '"' !in s then '"' else '\'';
    [quote] + ReprBody(s, quote) + [quote]
  }

  /** `repr(v)`. */
  function PyRepr(v: Value): string
    decreases v
  {
    match v
    case Null => "None"
    case Bool(b) => if b then "True" else "False"
    case Int(i) => IntToString(i)
    case Str(s) => ReprStr(s)
    case List(items) =>
      "[" + Join(seq(|items|, k requires 0 <= k < |items| => PyRepr(items[k])), ", ") + "]"
    case Map(entries) =>
      "{" + Join(seq(|entries|, k requires 0 <= k < |entries| =>
                   assert entries[k] in entries;
                   ReprStr(entries[k].0) + ": " + PyRepr(entries[k].1)), ", ") + "}"
  }

  /** `str(v)`: a string is its own text, anything else its `repr`. */
  function PyStr(v: Value): string
  {
    if v.Str? then v.s else PyRepr(v)
  }

  /** `"%d" % v`: `None` where Python raises `TypeError` (only numbers are accepted,
      and a bool counts as the number 0 or 1). */
  function FormatD(v: Value): Option<string>
  {
    match v
    case Int(i) => Some(IntToString(i))
    case Bool(b) => Some(if b then "1" else "0")
    case _ => None
  }

  /** `int(v)`: `None` where Python raises (`ValueError` for a string that is not a
      decimal numeral, `TypeError` for `None`, lists and dicts). */
  function PyInt(v: Value): Option<int>
  {
    match v
    case Int(i) => Some(i)
    case Bool(b) => Some(if b then 1 else 0)
    case Str(s) => ParseInt(s)
    case _ => None
  }
}
