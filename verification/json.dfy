/** The loosely-typed JavaScript values the front-end works over, and the
    handful of language operations it applies to them: truthiness and `||`,
    property reads (plain and `?.`), `Object.entries`, object spread
    `{...a, ...b}`, `delete`, string conversion and `===`. */
module Json {
  import opened Wrappers
  import opened Strings

  /** A JavaScript value as `JSON.parse` builds it, plus `undefined` (what
      reading a missing property yields). Numbers are integers. Object fields
      are kept in key order. */
  datatype Json =
    | Undefined
    | Null
    | Bool(b: bool)
    | Num(n: int)
    | Str(s: string)
    | Arr(items: seq<Json>)
    | Obj(fields: seq<(string, Json)>)

  /** The own properties of an object, in key order. */
  type Fields<T> = seq<(string, T)>

  // ---------------------------------------------------------------------------
  // Truthiness and `||`

  /** JavaScript truthiness: `undefined`, `null`, `false`, `0` and `""` are
      falsy, every other value (including `[]` and `{}`) is truthy. */
  predicate Truthy(v: Json) {
    match v
    case Undefined => false
    case Null => false
    case Bool(b) => b
    case Num(n) => n != 0
    case Str(s) => s != ""
    case Arr(_) => true
    case Obj(_) => true
  }

  /** `v === null || v === undefined`, the test behind `?.` and `??`. */
  predicate IsNullish(v: Json) {
    v.Undefined? || v.Null?
  }

  /** `a || b`. */
  function Or(a: Json, b: Json): Json {
    if Truthy(a) then a else b
  }

  /** The value of `vs[0] || vs[1] || ... `, read as "the first truthy
      operand, or the last one when none is truthy". */
  function FirstTruthy(vs: seq<Json>): Json
    requires |vs| > 0
    decreases |vs|
  {
    if Truthy(vs[0]) || |vs| == 1 then vs[0] else FirstTruthy(vs[1..])
  }

  /** The position of the operand `FirstTruthy` selects. */
  function FirstTruthyIndex(vs: seq<Json>): (i: nat)
    requires |vs| > 0
    ensures i < |vs|
    ensures forall j :: 0 <= j < i ==> !Truthy(vs[j])
    ensures Truthy(vs[i]) || i == |vs| - 1
    ensures FirstTruthy(vs) == vs[i]
    decreases |vs|
  {
    if Truthy(vs[0]) || |vs| == 1 then 0 else 1 + FirstTruthyIndex(vs[1..])
  }

  /** `||` as JavaScript parses a chain of it: grouped to the left. */
  function OrChain(vs: seq<Json>): Json
    requires |vs| > 0
    decreases |vs|
  {
    if |vs| == 1 then vs[0] else Or(OrChain(vs[..|vs| - 1]), vs[|vs| - 1])
  }

  /** The first-truthy position is the only one meeting its description. */
  lemma FirstTruthyIndexUnique(vs: seq<Json>, i: nat)
    requires i < |vs|
    requires forall j :: 0 <= j < i ==> !Truthy(vs[j])
    requires Truthy(vs[i]) || i == |vs| - 1
    ensures FirstTruthyIndex(vs) == i
  {
  }

  /** Evaluating a left-grouped `||` chain selects the first truthy operand,
      or the last operand: the model writes every chain as `FirstTruthy`. */
  lemma {:induction false} OrChainIsFirstTruthy(vs: seq<Json>)
    requires |vs| > 0
    ensures OrChain(vs) == FirstTruthy(vs)
    decreases |vs|
  {
    if |vs| > 1 {
      var p := vs[..|vs| - 1];
      OrChainIsFirstTruthy(p);
      var k := FirstTruthyIndex(p);
      assert forall j :: 0 <= j < |p| ==> p[j] == vs[j];
      if Truthy(p[k]) {
        FirstTruthyIndexUnique(vs, k);
      } else {
        FirstTruthyIndexUnique(vs, |vs| - 1);
      }
    }
  }

  /** The short chains the front-end writes, as first-truthy selections. */
  lemma OrPairIsFirstTruthy(a: Json, b: Json)
    ensures Or(a, b) == FirstTruthy([a, b])
  {
    assert [a, b][1..] == [b];
  }

  lemma OrTripleIsFirstTruthy(a: Json, b: Json, c: Json)
    ensures Or(Or(a, b), c) == FirstTruthy([a, b, c])
  {
    assert [a, b, c][1..] == [b, c];
    OrPairIsFirstTruthy(b, c);
  }

  lemma OrQuadIsFirstTruthy(a: Json, b: Json, c: Json, d: Json)
    ensures Or(Or(Or(a, b), c), d) == FirstTruthy([a, b, c, d])
  {
    assert [a, b, c, d][1..] == [b, c, d];
    OrTripleIsFirstTruthy(b, c, d);
  }

  // ---------------------------------------------------------------------------
  // Ordered fields

  predicate HasKey<T>(fields: Fields<T>, k: string) {
    exists i :: 0 <= i < |fields| && fields[i].0 == k
  }

  /** An object never has the same key twice. */
  predicate DistinctKeys<T>(fields: Fields<T>) {
    forall i, j :: 0 <= i < j < |fields| ==> fields[i].0 != fields[j].0
  }

  /** Reading own property `k`. */
  function Lookup<T>(fields: Fields<T>, k: string): (r: Option<T>)
    ensures r.Some? <==> HasKey(fields, k)
    ensures r.Some? ==> (k, r.value) in fields
  {
    if |fields| == 0 then None
    else if fields[0].0 == k then Some(fields[0].1)
    else
      assert forall i :: 1 <= i < |fields| ==> fields[i] == fields[1..][i - 1];
      Lookup(fields[1..], k)
  }

  /** In an object with distinct keys, a key reads the value stored with it. */
  lemma {:induction false} LookupAt<T>(fields: Fields<T>, i: nat)
    requires i < |fields| && DistinctKeys(fields)
    ensures Lookup(fields, fields[i].0) == Some(fields[i].1)
    decreases i
  {
    if i > 0 {
      LookupAt(fields[1..], i - 1);
    }
  }

  /** `obj[k] = v`: an existing key keeps its position, a new key goes last. */
  function Assign<T>(fields: Fields<T>, k: string, v: T): (r: Fields<T>)
    ensures |fields| <= |r| <= |fields| + 1
    ensures forall i :: 0 <= i < |fields| ==> r[i].0 == fields[i].0
    ensures HasKey(fields, k) ==> |r| == |fields|
    ensures !HasKey(fields, k) ==> r == fields + [(k, v)]
  {
    if |fields| == 0 then [(k, v)]
    else if fields[0].0 == k then [(k, v)] + fields[1..]
    else [fields[0]] + Assign(fields[1..], k, v)
  }

  /** After `obj[k] = v`, `k` reads `v` and every other key reads as before. */
  lemma {:induction false} AssignLookup<T>(fields: Fields<T>, k: string, v: T, k': string)
    ensures Lookup(Assign(fields, k, v), k') == if k' == k then Some(v) else Lookup(fields, k')
    decreases |fields|
  {
    if |fields| > 0 {
      var r := Assign(fields, k, v);
      if fields[0].0 == k {
        assert r[1..] == fields[1..];
      } else {
        AssignLookup(fields[1..], k, v, k');
        assert r[1..] == Assign(fields[1..], k, v);
      }
    }
  }

  /** `{...a, ...b}`: the properties of `b` assigned, in order, over a copy of `a`. */
  function Spread<T>(a: Fields<T>, b: Fields<T>): (r: Fields<T>)
    ensures |a| <= |r| <= |a| + |b|
    ensures forall i :: 0 <= i < |a| ==> r[i].0 == a[i].0
    ensures DistinctKeys(a) ==> DistinctKeys(r)
    decreases |b|
  {
    if |b| == 0 then a
    else
      AssignKeepsDistinct(a, b[0].0, b[0].1);
      Spread(Assign(a, b[0].0, b[0].1), b[1..])
  }

  /** Assigning a property never makes a key appear twice. */
  lemma AssignKeepsDistinct<T>(a: Fields<T>, k: string, v: T)
    ensures DistinctKeys(a) ==> DistinctKeys(Assign(a, k, v))
  {
    var r := Assign(a, k, v);
    if DistinctKeys(a) && !HasKey(a, k) {
      forall i, j | 0 <= i < j < |r| ensures r[i].0 != r[j].0 {
        if j == |a| {
          assert r[i] == a[i];
        }
      }
    }
  }

  /** Dropping the first field of an object with distinct keys: the rest has
      distinct keys, lacks the first key, and reads every other key alike. */
  lemma DistinctTail<T>(b: Fields<T>, k: string)
    requires |b| > 0 && DistinctKeys(b)
    ensures DistinctKeys(b[1..])
    ensures !HasKey(b[1..], b[0].0)
    ensures k != b[0].0 ==> (HasKey(b, k) <==> HasKey(b[1..], k)) && Lookup(b, k) == Lookup(b[1..], k)
  {
    var tail := b[1..];
    assert forall i :: 0 <= i < |tail| ==> tail[i] == b[i + 1];
  }

  /** After a spread, a key of `b` reads `b`'s value and every other key
      reads `a`'s: later properties override earlier ones. */
  lemma {:induction false} SpreadLookup<T>(a: Fields<T>, b: Fields<T>, k: string)
    requires DistinctKeys(b)
    ensures Lookup(Spread(a, b), k) == if HasKey(b, k) then Lookup(b, k) else Lookup(a, k)
    decreases |b|
  {
    if |b| > 0 {
      DistinctTail(b, k);
      var a' := Assign(a, b[0].0, b[0].1);
      AssignLookup(a, b[0].0, b[0].1, k);
      assert Spread(a, b) == Spread(a', b[1..]);
      SpreadLookup(a', b[1..], k);
    }
  }

  /** Spreading two properties assigns them one after the other. */
  lemma SpreadPair<T>(a: Fields<T>, k1: string, v1: T, k2: string, v2: T)
    ensures Spread(a, [(k1, v1), (k2, v2)]) == Assign(Assign(a, k1, v1), k2, v2)
  {
    var b, c := [(k1, v1), (k2, v2)], [(k2, v2)];
    var a1 := Assign(a, k1, v1);
    assert b[1..] == c && c[1..] == [];
    assert Spread(a, b) == Spread(a1, c);
    assert Spread(a1, c) == Spread(Assign(a1, k2, v2), []);
  }

  /** Two assignments to different keys: each key reads its new value and
      every other key reads as before. */
  lemma AssignPairLookup<T>(a: Fields<T>, k1: string, v1: T, k2: string, v2: T, k: string)
    requires k1 != k2
    ensures Lookup(Assign(Assign(a, k1, v1), k2, v2), k) ==
              if k == k2 then Some(v2) else if k == k1 then Some(v1) else Lookup(a, k)
  {
    AssignLookup(a, k1, v1, k);
    AssignLookup(Assign(a, k1, v1), k2, v2, k);
  }

  lemma AssignPairKeeps<T>(a: Fields<T>, k1: string, v1: T, k2: string, v2: T)
    requires k1 != k2
    ensures forall k :: k != k1 && k != k2 ==> Lookup(Assign(Assign(a, k1, v1), k2, v2), k) == Lookup(a, k)
  {
    forall k | k != k1 && k != k2 ensures Lookup(Assign(Assign(a, k1, v1), k2, v2), k) == Lookup(a, k) {
      AssignPairLookup(a, k1, v1, k2, v2, k);
    }
  }

  /** `delete obj[k]`. */
  function Remove<T>(fields: Fields<T>, k: string): (r: Fields<T>)
    ensures !HasKey(r, k)
    ensures forall k' :: k' != k ==> Lookup(r, k') == Lookup(fields, k')
    ensures |r| <= |fields|
  {
    if |fields| == 0 then []
    else if fields[0].0 == k then Remove(fields[1..], k)
    else [fields[0]] + Remove(fields[1..], k)
  }

  // ---------------------------------------------------------------------------
  // Reading values

  /** `v.key` on a value that is not `null` or `undefined`: an object's own
      field, `undefined` when it has none and for every other kind of value
      (the model reads no index or `length` property through this). */
  function Get(v: Json, key: string): Json {
    match v
    case Obj(fields) =>
      (match Lookup(fields, key)
       case Some(x) => x
       case None => Undefined)
    case _ => Undefined
  }

  /** `v?.key`: `undefined` on a nullish value instead of a thrown TypeError. */
  function OptGet(v: Json, key: string): Json {
    if IsNullish(v) then Undefined else Get(v, key)
  }

  /** `v[0]` on a value that is not `null` or `undefined`. */
  function Index0(v: Json): Json {
    match v
    case Arr(items) => if |items| > 0 then items[0] else Undefined
    case Str(s) => if |s| > 0 then Str([s[0]]) else Undefined
    case Obj(_) => Get(v, "0")
    case _ => Undefined
  }

  /** `v?.[0]`. */
  function OptIndex0(v: Json): Json {
    if IsNullish(v) then Undefined else Index0(v)
  }

  /** `v.length` on a value that is not `null` or `undefined`. */
  function LengthOf(v: Json): Json {
    match v
    case Arr(items) => Num(|items|)
    case Str(s) => Num(|s|)
    case Obj(_) => Get(v, "length")
    case _ => Undefined
  }

  /** `Object.entries(v)` (and, through its first components,
      `Object.keys(v)`): an object's fields, or an array's or a string's
      indexed elements. */
  function OwnEntries(v: Json): Fields<Json> {
    match v
    case Obj(fields) => fields
    case Arr(items) => seq(|items|, i requires 0 <= i < |items| => (NatToString(i), items[i]))
    case Str(s) => seq(|s|, i requires 0 <= i < |s| => (NatToString(i), Str([s[i]])))
    case _ => []
  }

  /** `String(v)`, as a template literal `${v}` converts a value. Arrays join
      their elements with commas, writing `null` and `undefined` as nothing. */
  function ToJsString(v: Json): string {
    match v
    case Undefined => "undefined"
    case Null => "null"
    case Bool(b) => if b then "true" else "false"
    case Num(n) => IntToString(n)
    case Str(s) => s
    case Arr(items) =>
      Join(seq(|items|, i requires 0 <= i < |items| =>
                 if IsNullish(items[i]) then "" else ToJsString(items[i])), ",")
    case Obj(_) => "[object Object]"
  }

  /** `a === b` between values read from different places of a parsed
      document: primitives compare by value; two arrays or objects are never
      the same reference. */
  predicate StrictEquals(a: Json, b: Json) {
    !a.Arr? && !a.Obj? && a == b
  }
}
