/**
 * JavaScript values as the controllers see them: request bodies, query filters and
 * stored documents are all plain objects of this shape. Numbers are integers (the
 * handlers only count, compare and concatenate them); an absent property is JavaScript's
 * `undefined`, so an `Object` simply lacks the key.
 */
module Json {
  import opened Wrappers

  datatype Json =
    | Null
    | Bool(b: bool)
    | Num(n: int)
    | Str(s: string)
    | Arr(items: seq<Json>)
    | Obj(fields: map<string, Json>)

  /** A plain object: the request body, a filter, a document. */
  type Object = map<string, Json>

  /** JavaScript truthiness: `null`, `false`, `0` and `""` are falsy; arrays and objects never are. */
  predicate Truthy(v: Json) {
    match v
    case Null => false
    case Bool(b) => b
    case Num(n) => n != 0
    case Str(s) => s != ""
    case Arr(_) => true
    case Obj(_) => true
  }

  /** `if (o[k])`: the property is present and truthy (an absent property reads as `undefined`). */
  predicate TruthyAt(o: Object, k: string) {
    k in o && Truthy(o[k])
  }

  /** `o[k]`, with `None` for `undefined`. */
  function Lookup(o: Object, k: string): Option<Json> {
    if k in o then Some(o[k]) else None
  }

  /** `o[k] || fallback`: a truthy fallback makes the result truthy. */
  function OrElse(o: Object, k: string, fallback: Json): (r: Json)
    ensures TruthyAt(o, k) ==> r == o[k]
    ensures !TruthyAt(o, k) ==> r == fallback
    ensures Truthy(fallback) ==> Truthy(r)
  {
    if TruthyAt(o, k) then o[k] else fallback
  }

  /** `typeof v === 'object' && v !== null && !Array.isArray(v)`. */
  predicate IsPlainObject(v: Json) {
    v.Obj?
  }

  /** The decimal digit character for `d`. */
  function Digit(d: nat): (c: char)
    requires d < 10
    ensures '0' <= c <= '9' && c as int - '0' as int == d
  {
    ('0' as int + d) as char
  }

  /** `String(n)` for a non-negative integer. */
  function DecimalString(n: nat): (s: string)
    ensures 1 <= |s|
    ensures forall i :: 0 <= i < |s| ==> '0' <= s[i] <= '9'
    ensures s[0] == '0' ==> n == 0
    decreases n
  {
    if n < 10 then [Digit(n)] else DecimalString(n / 10) + [Digit(n % 10)]
  }

  /** `String(n)` for any integer. */
  function IntString(n: int): string {
    if n < 0 then "-" + DecimalString(-n) else DecimalString(n)
  }

  /**
   * `String(v)`: JavaScript's text of a value. An array is its items' texts joined with
   * "," (a null item counts as ""); every plain object is "[object Object]".
   */
  function Text(v: Json): (s: string)
    ensures v.Str? ==> s == v.s
    ensures v.Arr? && |v.items| == 1 && v.items[0].Str? ==> s == v.items[0].s
  {
    match v
    case Null => "null"
    case Bool(b) => if b then "true" else "false"
    case Num(n) => IntString(n)
    case Str(s) => s
    case Obj(_) => "[object Object]"
    case Arr(items) => Joined(seq(|items|, i requires 0 <= i < |items| => if items[i].Null? then "" else Text(items[i])))
  }

  /** `parts.join(",")`: one separator between each two parts. */
  function Joined(parts: seq<string>): (s: string)
    ensures |parts| == 1 ==> s == parts[0]
  {
    if parts == [] then ""
    else if |parts| == 1 then parts[0]
    else Joined(parts[..|parts| - 1]) + "," + parts[|parts| - 1]
  }

  /**
   * `v == s` for a string `s` that does not read as a number: a string equals it when it is
   * the same text, an array or object when its text is; `null`, booleans and numbers never
   * do (a number compares against `Number(s)`, which is `NaN`).
   */
  predicate LooselyEquals(v: Json, s: string) {
    (v.Str? || v.Arr? || v.Obj?) && Text(v) == s
  }

  /** The own properties of an array: its elements under the keys "0", "1", .... */
  function Indexed(xs: seq<Json>): Object
    decreases |xs|
  {
    if xs == [] then map[] else Indexed(xs[..|xs| - 1])[DecimalString(|xs| - 1) := xs[|xs| - 1]]
  }

  /** The one-character strings of `s`, which is what indexing a string yields. */
  function Chars(s: string): (cs: seq<Json>)
    ensures |cs| == |s|
  {
    seq(|s|, i requires 0 <= i < |s| => Str([s[i]]))
  }

  /**
   * The own enumerable properties of a value: what `{...v}` copies and what
   * `for (const k in v) if (v.hasOwnProperty(k))` visits. Strings and arrays expose
   * their indices; `null`, booleans and numbers expose nothing.
   */
  function OwnProps(v: Json): (m: Object)
    ensures v.Obj? ==> m == v.fields
    ensures v.Null? || v.Bool? || v.Num? ==> m == map[]
  {
    match v
    case Obj(fields) => fields
    case Arr(xs) => Indexed(xs)
    case Str(s) => Indexed(Chars(s))
    case _ => map[]
  }

  /** `{...o[k]}`: spreading `undefined` copies nothing. */
  function SpreadAt(o: Object, k: string): Object {
    if k in o then OwnProps(o[k]) else map[]
  }

  /** `Object.assign(target, source)` and `{...target, ...source}`: the source's properties win. */
  function Assign(target: Object, source: Object): (r: Object)
    ensures r.Keys == target.Keys + source.Keys
    ensures forall k :: k in source ==> r[k] == source[k]
    ensures forall k :: k in target && k !in source ==> r[k] == target[k]
  {
    target + source
  }

  /** Assigning the same properties twice has the effect of assigning them once. */
  lemma AssignIdempotent(target: Object, source: Object)
    ensures Assign(Assign(target, source), source) == Assign(target, source)
  {
  }
}
