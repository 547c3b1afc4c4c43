/** Python values as the pipeline sees them: span attributes, parsed JSON and the
    dictionaries the formatters build. A dictionary is an ordered list of entries,
    as Python dictionaries keep insertion order. */
module PyValues {

  datatype Option<+T> = None | Some(value: T)

  /** A Python object. `Float` carries the text `str()` gives for it, since float
      formatting is not modelled. `Other` is any object of a type that is not one of
      the JSON-native ones (an enum, a datetime, ...); `strText` is what `str()`
      returns for it, or `None` when its `__str__` raises. The entries of a `Dict`
      may repeat a key, which a Python dict cannot; lookups take the first. */
  datatype Value =
    | Null
    | Bool(b: bool)
    | Int(i: int)
    | Float(r: real, floatText: string)
    | Str(s: string)
    | List(items: seq<Value>)
    | Dict(entries: seq<(string, Value)>)
    | Other(strText: Option<string>)

  type Entries = seq<(string, Value)>

  /** Python truthiness. An object of another type is truthy (no `__bool__`/`__len__`). */
  predicate Truthy(v: Value) {
    match v
    case Null => false
    case Bool(b) => b
    case Int(i) => i != 0
    case Float(r, _) => r != 0.0
    case Str(s) => s != ""
    case List(items) => items != []
    case Dict(entries) => entries != []
    case Other(_) => true
  }

  /** Truthiness of an optional string (`None` and `""` are falsy). */
  predicate TruthyText(s: Option<string>) {
    s.Some? && s.value != ""
  }

  /** `a or b` on optional strings. */
  function OrText(a: Option<string>, b: Option<string>): (r: Option<string>)
    ensures TruthyText(a) ==> r == a
    ensures !TruthyText(a) ==> r == b
  {
    if TruthyText(a) then a else b
  }

  predicate HasKey(entries: Entries, k: string) {
    exists i :: 0 <= i < |entries| && entries[i].0 == k
  }

  /** `d[k]` on a dictionary: the value of the first entry with key `k`. */
  function Get(entries: Entries, k: string): (r: Option<Value>)
    ensures r.Some? <==> HasKey(entries, k)
    ensures r.Some? ==> exists i :: 0 <= i < |entries| && entries[i] == (k, r.value)
  {
    if entries == [] then None
    else if entries[0].0 == k then Some(entries[0].1)
    else
      var r := Get(entries[1..], k);
      assert forall i :: 0 < i < |entries| ==> entries[i] == entries[1..][i - 1];
      r
  }

  /** `d.get(k, default)`: a present key wins even when its value is falsy. */
  function GetOr(entries: Entries, k: string, default: Value): Value {
    match Get(entries, k)
    case Some(v) => v
    case None => default
  }

  /** `d.get(k)`: `None` when the key is absent. */
  function Attr(entries: Entries, k: string): Value {
    GetOr(entries, k, Null)
  }

  /** `a or b or ... or last`: the first truthy candidate, else the last operand. */
  function FirstTruthy(candidates: seq<Value>, last: Value): (r: Value)
    ensures Truthy(r) || r == last
    ensures r != last ==> exists i :: 0 <= i < |candidates| && r == candidates[i]
  {
    if candidates == [] then last
    else if Truthy(candidates[0]) then candidates[0]
    else FirstTruthy(candidates[1..], last)
  }

  /** `or` picks the first truthy operand, and the last operand only when no
      earlier one is truthy. */
  lemma {:induction false} FirstTruthyFirst(candidates: seq<Value>, last: Value, k: nat)
    requires k < |candidates| && Truthy(candidates[k])
    requires forall i :: 0 <= i < k ==> !Truthy(candidates[i])
    ensures FirstTruthy(candidates, last) == candidates[k]
    decreases k
  {
    if k > 0 {
      FirstTruthyFirst(candidates[1..], last, k - 1);
    }
  }

  lemma {:induction false} FirstTruthyNone(candidates: seq<Value>, last: Value)
    requires forall i :: 0 <= i < |candidates| ==> !Truthy(candidates[i])
    ensures FirstTruthy(candidates, last) == last
    decreases |candidates|
  {
    if candidates != [] {
      FirstTruthyNone(candidates[1..], last);
    }
  }

  /** Decimal text of an integer, as `str(int)`. */
  function IntText(i: int): string
    decreases if i < 0 then 1 - i else i
  {
    if i < 0 then "-" + IntText(-i)
    else if i < 10 then ["0123456789"[i]]
    else IntText(i / 10) + ["0123456789"[i % 10]]
  }

  /** `repr(v)`; `None` when it raises. Strings are quoted with `'` and not escaped. */
  function ReprOf(v: Value): Option<string>
    decreases v, 1
  {
    match v
    case Null => Some("None")
    case Bool(b) => Some(if b then "True" else "False")
    case Int(i) => Some(IntText(i))
    case Float(_, t) => Some(t)
    case Str(s) => Some("'" + s + "'")
    case List(items) =>
      (match ReprItems(items)
       case Some(t) => Some("[" + t + "]")
       case None => None)
    case Dict(_) =>
      (match ReprEntries(v, 0)
       case Some(t) => Some("{" + t + "}")
       case None => None)
    case Other(t) => t
  }

  function ReprItems(items: seq<Value>): Option<string>
    decreases items
  {
    if items == [] then Some("")
    else
      match (ReprOf(items[0]), ReprItems(items[1..]))
      case (Some(a), Some(b)) => Some(if |items| == 1 then a else a + ", " + b)
      case _ => None
  }

  function ReprEntries(d: Value, i: nat): Option<string>
    requires d.Dict? && i <= |d.entries|
    decreases d, 0, |d.entries| - i
  {
    if i == |d.entries| then Some("")
    else
      match (ReprOf(d.entries[i].1), ReprEntries(d, i + 1))
      case (Some(a), Some(b)) =>
        var entry := "'" + d.entries[i].0 + "': " + a;
        Some(if i + 1 == |d.entries| then entry else entry + ", " + b)
      case _ => None
  }

  /** `str(v)`; `None` when it raises. A string is its own text. */
  function StrOf(v: Value): (r: Option<string>)
    ensures v.Str? ==> r == Some(v.s)
    ensures v.Null? || v.Bool? || v.Int? || v.Float? ==> r.Some?
  {
    match v
    case Str(s) => Some(s)
    case Other(t) => t
    case _ => ReprOf(v)
  }

  /** Whether `json.dumps` accepts the value: nothing of another type anywhere inside. */
  predicate Dumpable(v: Value)
    decreases v, 1
  {
    match v
    case List(items) => forall i :: 0 <= i < |items| ==> Dumpable(items[i])
    case Dict(_) => EntriesDumpable(v, 0)
    case Other(_) => false
    case _ => true
  }

  predicate EntriesDumpable(d: Value, i: nat)
    requires d.Dict? && i <= |d.entries|
    decreases d, 0, |d.entries| - i
  {
    i == |d.entries| || (Dumpable(d.entries[i].1) && EntriesDumpable(d, i + 1))
  }

  /** `for x in v`: list items, the characters of a string or the keys of a
      dictionary; `None` (a TypeError) for anything else. */
  function Iterate(v: Value): (r: Option<seq<Value>>)
    ensures v.List? ==> r == Some(v.items)
  {
    match v
    case List(items) => Some(items)
    case Str(s) => Some(seq(|s|, i requires 0 <= i < |s| => Str([s[i]])))
    case Dict(entries) => Some(seq(|entries|, i requires 0 <= i < |entries| => Str(entries[i].0)))
    case _ => None
  }

  /** `len(v)`; `None` (a TypeError) for a value without a length. */
  function Len(v: Value): Option<nat> {
    match v
    case Str(s) => Some(|s|)
    case List(items) => Some(|items|)
    case Dict(entries) => Some(|entries|)
    case _ => None
  }

  /** The integer a bool or int stands for in arithmetic. */
  function AsInt(v: Value): int
    requires v.Int? || v.Bool?
  {
    if v.Int? then v.i else if v.b then 1 else 0
  }

  /** `a + b`; `None` for a TypeError. A float sum carries no `str()` text. */
  function Add(a: Value, b: Value): Option<Value> {
    if (a.Int? || a.Bool?) && (b.Int? || b.Bool?) then Some(Int(AsInt(a) + AsInt(b)))
    else if a.Float? && (b.Int? || b.Bool?) then Some(Float(a.r + AsInt(b) as real, ""))
    else if (a.Int? || a.Bool?) && b.Float? then Some(Float(AsInt(a) as real + b.r, ""))
    else if a.Float? && b.Float? then Some(Float(a.r + b.r, ""))
    else if a.Str? && b.Str? then Some(Str(a.s + b.s))
    else if a.List? && b.List? then Some(List(a.items + b.items))
    else None
  }

  /** `s[:n]`. */
  function Truncate(s: string, n: nat): (r: string)
    ensures |r| <= n && |r| <= |s|
    ensures r == s[..|r|]
    ensures |s| <= n ==> r == s
  {
    if |s| <= n then s else s[..n]
  }
}
