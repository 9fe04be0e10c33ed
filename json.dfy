/**
 * JSON-like values, as the Python code holds a decoded request or response:
 * `None`, booleans, integers, strings, lists and dicts (`Object`).
 */
module Json {
  import opened PyStrings

  datatype Json =
    | JNull
    | JBool(b: bool)
    | JInt(i: int)
    | JStr(s: string)
    | JList(items: seq<Json>)
    | JObj(fields: map<string, Json>)

  /** A Python dict with string keys. */
  type Object = map<string, Json>

  /** `d.get(key, default)` */
  function Lookup(d: Object, key: string, default: Json): (v: Json)
    ensures key in d ==> v == d[key]
    ensures key !in d ==> v == default
  {
    if key in d then d[key] else default
  }

  /** Python truthiness, `bool(v)`. */
  predicate Truthy(v: Json) {
    match v
    case JNull => false
    case JBool(b) => b
    case JInt(i) => i != 0
    case JStr(s) => s != ""
    case JList(items) => items != []
    case JObj(fields) => fields != map[]
  }

  /** `type(v).__name__` */
  function TypeName(v: Json): string {
    match v
    case JNull => "NoneType"
    case JBool(_) => "bool"
    case JInt(_) => "int"
    case JStr(_) => "str"
    case JList(_) => "list"
    case JObj(_) => "dict"
  }

  /** `str(e)` of the AttributeError raised by `v.attribute` on a value whose type lacks it. */
  function AttributeErrorMessage(v: Json, attribute: string): string {
    "'" + TypeName(v) + "' object has no attribute '" + attribute + "'"
  }

  /**
   * `repr(v)`. A string is put in single quotes, or in double quotes when it
   * holds a single quote and no double quote, and its backslashes, its
   * newlines, returns and tabs, and the chosen quote are escaped. A dict
   * is abbreviated, since a map keeps no insertion order to print it in.
   */
  function Repr(v: Json): string
    decreases v, 1
  {
    match v
    case JNull => "None"
    case JBool(b) => if b then "True" else "False"
    case JInt(i) => IntToString(i)
    case JStr(s) => var q := QuoteFor(s); [q] + Escape(s, q) + [q]
    case JList(items) => "[" + ReprItems(items, v) + "]"
    case JObj(_) => "{...}"
  }

  /** The quote `repr` puts around a string. */
  function QuoteFor(s: string): (q: char)
    ensures q == '"' <==> '\'' in s && '"' !in s
    ensures q == '"' || q == '\''
  {
    if '\'' in s && '"' !in s then '"' else '\''
  }

  /** The characters of a string as `repr` writes them between `quote`s. */
  function Escape(s: string, quote: char): string {
    if s == [] then ""
    else EscapeChar(s[0], quote) + Escape(s[1..], quote)
  }

  function EscapeChar(c: char, quote: char): string {
    if c == '\\' then "\\\\"
    else if c == quote then ['\\', c]
    else if c == '\n' then "\\n"
    else if c == '\r' then "\\r"
    else if c == '\t' then "\\t"
    else [c]
  }

  /** A string with nothing to escape is its own text in single quotes. */
  lemma {:induction false} ReprPlainString(s: string)
    requires forall i :: 0 <= i < |s| ==> s[i] !in "'\\\n\r\t"
    ensures Repr(JStr(s)) == "'" + s + "'"
  {
    PlainEscape(s, '\'');
  }

  lemma {:induction false} PlainEscape(s: string, quote: char)
    requires forall i :: 0 <= i < |s| ==> s[i] != quote && s[i] !in "\\\n\r\t"
    ensures Escape(s, quote) == s
  {
    if s != [] {
      assert s[0] != quote && s[0] !in "\\\n\r\t";
      PlainEscape(s[1..], quote);
      assert s == [s[0]] + s[1..];
    }
  }

  /** A string holding a single quote and no double quote is printed in double quotes, its single quotes unescaped. */
  lemma {:induction false} ReprSingleQuoted(s: string)
    requires '\'' in s && '"' !in s
    requires forall i :: 0 <= i < |s| ==> s[i] !in "\\\n\r\t"
    ensures Repr(JStr(s)) == "\"" + s + "\""
  {
    PlainEscape(s, '"');
  }

  function ReprItems(items: seq<Json>, ghost whole: Json): string
    requires forall x :: x in items ==> x < whole
    decreases whole, 0, |items|
  {
    if items == [] then ""
    else
      assert items[0] in items;
      if |items| == 1 then Repr(items[0])
      else
        assert forall x :: x in items[1..] ==> x in items;
        Repr(items[0]) + ", " + ReprItems(items[1..], whole)
  }

  /** `str(v)`, also what `'%s' % v` and `'{}'.format(v)` insert: a string as it is, anything else as its repr. */
  function Str(v: Json): string {
    if v.JStr? then v.s else Repr(v)
  }
}
