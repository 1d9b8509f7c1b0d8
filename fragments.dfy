/** Statement fragments, driver outcomes and the text the error messages embed.
    A statement is the sequence of fragments a tagged template of the driver is made of:
    fixed text written in the source, identifiers the driver escapes, and bound parameters. */
module Fragments {

  /** A value the caller hands to the driver (string | string[] | number | boolean | null),
      and the `undefined` an absent option field stands for. Numbers are integers here. */
  datatype Value =
    | Text(s: string)
    | TextArray(items: seq<string>)
    | Number(n: int)
    | Boolean(b: bool)
    | Null
    | Undefined

  datatype Frag =
    | Kw(text: string)       // fixed statement text written in the source's template
    | Ident(name: string)    // a table or column name, escaped by the driver as an identifier
    | Param(value: Value)    // a value the driver binds as a parameter

  type Statement = seq<Frag>

  /** Every piece of fixed text any statement of the helper layer is made of. */
  const Keywords: set<string> := {
    "select * from", "where", "=",
    "SELECT * FROM", "WHERE", "ORDER BY id DESC", "ORDER BY id ASC", "LIMIT", ";",
    "SELECT COUNT(*) FROM", "ORDER BY id", "OFFSET",
    "update", "set", ",", "updated_at = now()", "returning *",
    "UPDATE", "SET", "RETURNING *",
    "delete from", "where id =",
    "INSERT INTO", "(", ")", "VALUES"
  }

  /** No caller-supplied string reaches the statement text: every fixed fragment is one of the
      source's own keywords, so names travel only as identifiers and data only as parameters. */
  predicate Safe(s: Statement) {
    forall f | f in s :: f.Kw? ==> f.text in Keywords
  }

  lemma SafeAppend(a: Statement, b: Statement)
    ensures Safe(a) && Safe(b) ==> Safe(a + b)
  {
    assert forall f | f in a + b :: f in a || f in b;
  }

  /** The identifier and parameter fragments of a statement, in order: what the driver
      escapes or binds, as opposed to the fixed text around them. */
  function Holes(s: Statement): Statement {
    if s == [] then []
    else (if s[0].Kw? then [] else [s[0]]) + Holes(s[1..])
  }

  /** Holes keeps exactly the identifier and parameter fragments: each of them is one of the
      statement's own fragments, and every non-keyword fragment of the statement is kept. */
  lemma {:induction false} HolesAreTheNonKeywords(s: Statement)
    ensures forall f | f in Holes(s) :: f in s && !f.Kw?
    ensures forall f | f in s && !f.Kw? :: f in Holes(s)
  {
    if s != [] {
      HolesAreTheNonKeywords(s[1..]);
      assert forall f | f in s :: f == s[0] || f in s[1..];
    }
  }

  lemma HolesAppend(a: Statement, b: Statement)
    ensures Holes(a + b) == Holes(a) + Holes(b)
  {
    if a == [] {
      assert a + b == b;
    } else {
      assert (a + b)[1..] == a[1..] + b;
      HolesAppend(a[1..], b);
    }
  }

  /** The splice of an array of fragments into an enclosing template: the parts, in order. */
  function Flatten(parts: seq<Statement>): (s: Statement)
    ensures (forall p | p in parts :: Safe(p)) ==> Safe(s)
  {
    if parts == [] then []
    else
      assert forall p | p in parts[..|parts| - 1] :: p in parts;
      SafeAppend(Flatten(parts[..|parts| - 1]), parts[|parts| - 1]);
      Flatten(parts[..|parts| - 1]) + parts[|parts| - 1]
  }

  lemma FlattenSnoc(parts: seq<Statement>, p: Statement)
    ensures Flatten(parts + [p]) == Flatten(parts) + p
  {
    assert (parts + [p])[..|parts|] == parts;
  }

  /** What the driver hands back for one statement: a fault it raised, or the rows it returned.
      The driver's `count` of a result is the number of rows in it. */
  datatype Outcome<Row> = Fault(message: string) | Rows(rows: seq<Row>)

  // ---- The text of values, as a template literal `${...}` renders them in an error message.

  function DigitText(d: nat): string
    requires d < 10
  {
    ["0123456789"[d]]
  }

  function NatText(n: nat): (t: string)
    ensures |t| >= 1
    decreases n
  {
    if n < 10 then DigitText(n) else NatText(n / 10) + DigitText(n % 10)
  }

  function IntText(n: int): string {
    if n < 0 then "-" + NatText(-n) else NatText(n)
  }

  /** `items.toString()`: the items joined by commas. */
  function JoinText(items: seq<string>): string {
    if items == [] then ""
    else if |items| == 1 then items[0]
    else items[0] + "," + JoinText(items[1..])
  }

  function ValueText(v: Value): string {
    match v
    case Text(s) => s
    case TextArray(items) => JoinText(items)
    case Number(n) => IntText(n)
    case Boolean(b) => if b then "true" else "false"
    case Null => "null"
    case Undefined => "undefined"
  }

  predicate StartsWith(s: string, prefix: string) {
    |prefix| <= |s| && s[..|prefix|] == prefix
  }

  /** `part` occurs somewhere in `s`. */
  ghost predicate Mentions(s: string, part: string) {
    exists i | 0 <= i <= |s| :: StartsWith(s[i..], part)
  }

  predicate EndsWith(s: string, suffix: string) {
    |suffix| <= |s| && s[|s| - |suffix|..] == suffix
  }

  lemma EndsWithAppend(prefix: string, suffix: string)
    ensures EndsWith(prefix + suffix, suffix)
  {
    assert (prefix + suffix)[|prefix|..] == suffix;
  }

  lemma MentionsMiddle(before: string, part: string, after: string)
    ensures Mentions(before + part + after, part)
  {
    var s := before + part + after;
    assert s[|before|..][..|part|] == part;
    assert StartsWith(s[|before|..], part);
  }
}
