/**
 * core/canonical.py: the normal form under every idempotency key, fingerprint and binding.
 * SHA-256 is the injective wrapper `Digest`; a Python value keeps of each dict key only `str(key)`,
 * which is all the code looks at.
 */
module Canonical {
  import opened Text
  import opened Json
  import opened Seqs
  import opened Wrappers

  datatype Py =
    | PyScalar(scalar: Scalar)
    | PyText(text: string)      // datetime, date, UUID, Decimal or any other object: its text
    | PyEnum(member: Scalar)    // an Enum member stands for its value
    | PyDict(items: seq<PyItem>)
    | PyList(elems: seq<Py>)
    | PyTuple(elems: seq<Py>)
    | PyModel(dump: Py)         // anything with model_dump

  datatype PyItem = PyItem(key: string, val: Py)

  const VOLATILE_KEYS: set<string> :=
    {"timestamp", "created_at", "updated_at", "approved_at", "iat", "exp", "latency_ms"}

  predicate Stripped(key: string, strip: bool) { strip && key in VOLATILE_KEYS }

  // ---- The normaliser -----------------------------------------------------

  /** `key=lambda x: str(x[0])`. */
  function ByName(): (Field, Field) -> bool { (f: Field, g: Field) => !StrLess(g.key, f.key) }

  function SortByName(fields: seq<Field>): seq<Field> { SortWith(ByName(), fields) }

  function NormalDict(fields: seq<Field>): seq<Field> { DictOf(SortByName(fields)) }

  function Normalize(v: Py, strip: bool): Json
    decreases v
  {
    match v
    case PyScalar(s) => Leaf(s)
    case PyText(t) => Leaf(Str(t))
    case PyEnum(s) => Leaf(s)
    case PyDict(items) => Obj(NormalDict(NormalizeItems(items, strip)))
    case PyList(elems) => Arr(NormalizeAll(elems, strip))
    case PyTuple(elems) => Arr(NormalizeAll(elems, strip))
    case PyModel(dump) => Normalize(dump, strip)
  }

  function NormalizeItems(items: seq<PyItem>, strip: bool): seq<Field>
    decreases items
  {
    if items == [] then []
    else
      (if Stripped(items[0].key, strip) then [] else [Field(items[0].key, Normalize(items[0].val, strip))])
      + NormalizeItems(items[1..], strip)
  }

  function NormalizeAll(elems: seq<Py>, strip: bool): (r: seq<Json>)
    ensures |r| == |elems|
    decreases elems
  {
    if elems == [] then [] else [Normalize(elems[0], strip)] + NormalizeAll(elems[1..], strip)
  }

  /** `sort_keys=True` has nothing left to reorder: `NormalizeIsCanonical`. */
  function CanonicalJson(v: Py, strip: bool): string { Print(Normalize(v, strip)) }

  datatype Digest = Sha256(text: string)

  function StableHash(v: Py): Digest { Sha256(CanonicalJson(v, true)) }

  // ---- Volatile keys do not show ------------------------------------------

  /** The value with every volatile member taken out, at any depth. */
  function WithoutVolatile(v: Py): Py
    decreases v
  {
    match v
    case PyDict(items) => PyDict(KeptItems(items))
    case PyList(elems) => PyList(KeptElems(elems))
    case PyTuple(elems) => PyTuple(KeptElems(elems))
    case PyModel(dump) => PyModel(WithoutVolatile(dump))
    case _ => v
  }

  function KeptItems(items: seq<PyItem>): seq<PyItem>
    decreases items
  {
    if items == [] then []
    else
      (if items[0].key in VOLATILE_KEYS then [] else [PyItem(items[0].key, WithoutVolatile(items[0].val))])
      + KeptItems(items[1..])
  }

  function KeptElems(elems: seq<Py>): (r: seq<Py>)
    ensures |r| == |elems|
    decreases elems
  {
    if elems == [] then [] else [WithoutVolatile(elems[0])] + KeptElems(elems[1..])
  }

  /** The stripped normal form sees nothing but what is left without the volatile members. */
  lemma {:induction false} VolatileUnseen(v: Py)
    ensures Normalize(WithoutVolatile(v), true) == Normalize(v, true)
    decreases v, 0
  {
    match v
    case PyDict(items) => VolatileItemsUnseen(items);
    case PyList(elems) => VolatileElemsUnseen(elems);
    case PyTuple(elems) => VolatileElemsUnseen(elems);
    case PyModel(dump) => VolatileUnseen(dump);
    case _ =>
  }

  lemma {:induction false} VolatileItemsUnseen(items: seq<PyItem>)
    ensures NormalizeItems(KeptItems(items), true) == NormalizeItems(items, true)
    decreases items, 1
  {
    hide Normalize, WithoutVolatile;
    if items != [] {
      VolatileUnseen(items[0].val);
      VolatileItemsUnseen(items[1..]);
      if items[0].key in VOLATILE_KEYS {
        assert KeptItems(items) == KeptItems(items[1..]);
      } else {
        assert KeptItems(items)[1..] == KeptItems(items[1..]);
      }
    }
  }

  lemma {:induction false} VolatileElemsUnseen(elems: seq<Py>)
    ensures NormalizeAll(KeptElems(elems), true) == NormalizeAll(elems, true)
    decreases elems, 1
  {
    hide Normalize, WithoutVolatile;
    if elems != [] {
      VolatileUnseen(elems[0]);
      VolatileElemsUnseen(elems[1..]);
      assert KeptElems(elems)[1..] == KeptElems(elems[1..]);
    }
  }

  lemma {:induction false} KeptConcat(xs: seq<PyItem>, ys: seq<PyItem>)
    ensures KeptItems(xs + ys) == KeptItems(xs) + KeptItems(ys)
  {
    hide WithoutVolatile;
    if xs == [] {
      assert xs + ys == ys;
    } else {
      assert (xs + ys)[1..] == xs[1..] + ys;
      KeptConcat(xs[1..], ys);
    }
  }

  // ---- Sorting and rebuilding a dict --------------------------------------

  predicate Ascending(fields: seq<Field>) {
    forall i, j | 0 <= i < j < |fields| :: StrLess(fields[i].key, fields[j].key)
  }

  /** Equal keys allowed, as after sorting and before the dict is rebuilt. */
  predicate Nondescending(fields: seq<Field>) {
    forall i, j | 0 <= i < j < |fields| :: !StrLess(fields[j].key, fields[i].key)
  }

  lemma NotLessTrans(a: string, b: string, c: string)
    requires !StrLess(b, a) && !StrLess(c, b)
    ensures !StrLess(c, a)
  {
    StrLessTotal(a, b);
    StrLessTotal(b, c);
    if StrLess(a, b) && StrLess(b, c) {
      StrLessTrans(a, b, c);
    }
    if StrLess(a, c) {
      StrLessAsym(a, c);
    }
  }

  lemma ByNamePreorder()
    ensures Preorder(ByName())
  {
    forall f: Field, g: Field ensures ByName()(f, g) || ByName()(g, f) {
      if StrLess(f.key, g.key) {
        StrLessAsym(f.key, g.key);
      }
    }
    forall f: Field, g: Field, h: Field | ByName()(f, g) && ByName()(g, h) ensures ByName()(f, h) {
      NotLessTrans(f.key, g.key, h.key);
    }
  }

  lemma SortSorts(fields: seq<Field>)
    ensures Nondescending(SortByName(fields))
    ensures multiset(SortByName(fields)) == multiset(fields)
  {
    ByNamePreorder();
    SortWithSorts(ByName(), fields);
    var r := SortByName(fields);
    forall i, j | 0 <= i < j < |r| ensures !StrLess(r[j].key, r[i].key) {
      assert ByName()(r[i], r[j]);
    }
  }

  lemma {:induction false} InsertGet(f: Field, s: seq<Field>, k: string)
    ensures Get(InsertWith(ByName(), f, s), k) == Get([f] + s, k)
  {
    if s == [] || !StrLess(s[0].key, f.key) {
    } else {
      InsertGet(f, s[1..], k);
      StrLessAsym(s[0].key, f.key);
      assert ([s[0]] + InsertWith(ByName(), f, s[1..]))[1..] == InsertWith(ByName(), f, s[1..]);
      assert ([f] + s[1..])[1..] == s[1..] && ([f] + s)[1..] == s;
    }
  }

  lemma {:induction false} SortGet(fields: seq<Field>, k: string)
    ensures Get(SortByName(fields), k) == Get(fields, k)
  {
    if fields != [] {
      var s := SortByName(fields[1..]);
      SortGet(fields[1..], k);
      InsertGet(fields[0], s, k);
      assert ([fields[0]] + s)[1..] == s;
    }
  }

  lemma {:induction false} WithoutGet(d: seq<Field>, key: string, k: string)
    ensures Get(Without(d, key), k) == if k == key then None else Get(d, k)
  {
    if d != [] {
      WithoutGet(d[1..], key, k);
      var r := Without(d[1..], key);
      assert ([d[0]] + r)[1..] == r;
    }
  }

  lemma {:induction false} DictGet(pairs: seq<Field>, k: string)
    ensures Get(DictOf(pairs), k) == Get(pairs, k)
  {
    if pairs != [] {
      var d, key := DictOf(pairs[1..]), pairs[0].key;
      DictGet(pairs[1..], k);
      DictGet(pairs[1..], key);
      if HasKey(d, key) {
        var r := Without(d, key);
        WithoutGet(d, key, k);
        assert ([Field(key, Get(d, key).value)] + r)[1..] == r;
      } else {
        assert ([pairs[0]] + d)[1..] == d;
      }
    }
  }

  lemma NormalDictGet(fields: seq<Field>, k: string)
    ensures Get(NormalDict(fields), k) == Get(fields, k)
  {
    SortGet(fields, k);
    DictGet(SortByName(fields), k);
  }

  /** Rebuilding a sorted list of pairs leaves each key once, in strictly ascending order. */
  lemma {:induction false} DictOfSorted(pairs: seq<Field>)
    requires Nondescending(pairs)
    ensures Ascending(DictOf(pairs))
    ensures pairs != [] ==> DictOf(pairs) != [] && DictOf(pairs)[0].key == pairs[0].key
  {
    if pairs != [] {
      var d, key := DictOf(pairs[1..]), pairs[0].key;
      DictOfSorted(pairs[1..]);
      if |pairs| > 1 {
        assert pairs[1] == pairs[1..][0];
        StrLessTotal(key, d[0].key);
        if d[0].key == key {
          WithoutFirst(d);
        } else {
          AscendingAbsent(d, key);
        }
      }
    }
  }

  lemma WithoutFirst(d: seq<Field>)
    requires d != [] && Ascending(d)
    ensures HasKey(d, d[0].key) && Without(d, d[0].key) == d[1..]
  {
    assert d[0] in d;
    forall f | f in d[1..] ensures f.key != d[0].key {
      var i :| 0 <= i < |d[1..]| && d[1..][i] == f;
      StrLessAsym(d[0].key, d[i + 1].key);
    }
    WithoutAbsent(d[1..], d[0].key);
  }

  lemma {:induction false} WithoutAbsent(d: seq<Field>, key: string)
    requires forall f | f in d :: f.key != key
    ensures Without(d, key) == d
  {
    if d != [] {
      WithoutAbsent(d[1..], key);
      assert d == [d[0]] + d[1..];
    }
  }

  lemma AscendingAbsent(d: seq<Field>, key: string)
    requires d != [] && Ascending(d) && StrLess(key, d[0].key)
    ensures !HasKey(d, key) && Ascending([Field(key, d[0].val)] + d)
    ensures forall v :: Ascending([Field(key, v)] + d)
  {
    forall i | 0 <= i < |d| ensures StrLess(key, d[i].key) && key != d[i].key {
      if i > 0 {
        StrLessTrans(key, d[0].key, d[i].key);
      }
      StrLessAsym(key, d[i].key);
    }
  }

  /** Strictly ascending member lists with the same lookups are the same list. */
  lemma {:induction false} AscendingExtensional(a: seq<Field>, b: seq<Field>)
    requires Ascending(a) && Ascending(b) && forall k :: Get(a, k) == Get(b, k)
    ensures a == b
  {
    if a != [] {
      FirstFound(a);
    }
    if b != [] {
      FirstFound(b);
    }
    if a != [] && b != [] {
      FirstKeyLeast(a, b);
      FirstKeyLeast(b, a);
      StrLessTotal(a[0].key, b[0].key);
      AscendingTail(a);
      AscendingTail(b);
      forall k ensures Get(a[1..], k) == Get(b[1..], k) {
        assert Get(a, k) == Get(b, k);
      }
      AscendingExtensional(a[1..], b[1..]);
      assert Get(a, a[0].key) == Get(b, a[0].key);
      assert a == [a[0]] + a[1..] && b == [b[0]] + b[1..];
    }
  }

  lemma FirstFound(a: seq<Field>)
    requires a != []
    ensures Get(a, a[0].key).Some?
  {
    assert a[0] in a && HasKey(a, a[0].key);
  }

  lemma AscendingTail(a: seq<Field>)
    requires a != [] && Ascending(a)
    ensures Ascending(a[1..]) && Get(a[1..], a[0].key).None?
  {
    if f :| f in a[1..] && f.key == a[0].key {
      var i :| 0 <= i < |a[1..]| && a[1..][i] == f;
      StrLessAsym(a[0].key, a[i + 1].key);
    }
  }

  lemma FirstKeyLeast(a: seq<Field>, b: seq<Field>)
    requires a != [] && b != [] && Ascending(b) && forall k :: Get(a, k) == Get(b, k)
    ensures !StrLess(a[0].key, b[0].key)
  {
    assert a[0] in a;
    assert Get(a, a[0].key).Some?;
    var f :| f in b && f.key == a[0].key;
    var i :| 0 <= i < |b| && b[i] == f;
    if i > 0 {
      StrLessAsym(b[0].key, b[i].key);
    } else {
      StrLessTotal(b[0].key, b[0].key);
      if StrLess(b[0].key, b[0].key) {
        StrLessAsym(b[0].key, b[0].key);
      }
    }
  }

  // ---- Normal trees -------------------------------------------------------

  /** Keys strictly ascending in every object, and no volatile key at any depth when stripping. */
  predicate CanonicalTree(j: Json, strip: bool)
    decreases j, 0
  {
    match j
    case Leaf(_) => true
    case Arr(items) => forall i | 0 <= i < |items| :: CanonicalTree(items[i], strip)
    case Obj(fields) => Ascending(fields) && CanonicalFields(fields, strip)
  }

  predicate CanonicalFields(fields: seq<Field>, strip: bool)
    decreases fields
  {
    forall i | 0 <= i < |fields| :: !Stripped(fields[i].key, strip) && CanonicalTree(fields[i].val, strip)
  }

  lemma {:induction false} GetCanonical(fields: seq<Field>, k: string, strip: bool)
    requires CanonicalFields(fields, strip) && Get(fields, k).Some?
    ensures !Stripped(k, strip) && CanonicalTree(Get(fields, k).value, strip)
  {
    if Get(fields[1..], k).Some? {
      GetCanonical(fields[1..], k, strip);
    }
  }

  lemma {:induction false} AscendingGet(d: seq<Field>, i: nat)
    requires i < |d| && Ascending(d)
    ensures Get(d, d[i].key) == Some(d[i].val)
  {
    if i == 0 {
      AscendingTail(d);
    } else {
      AscendingGet(d[1..], i - 1);
    }
  }

  lemma NormalDictCanonical(fields: seq<Field>, strip: bool)
    requires CanonicalFields(fields, strip)
    ensures CanonicalTree(Obj(NormalDict(fields)), strip)
  {
    var d := NormalDict(fields);
    SortSorts(fields);
    DictOfSorted(SortByName(fields));
    forall i | 0 <= i < |d| ensures !Stripped(d[i].key, strip) && CanonicalTree(d[i].val, strip) {
      AscendingGet(d, i);
      NormalDictGet(fields, d[i].key);
      GetCanonical(fields, d[i].key, strip);
    }
  }

  /** Every normal form is sorted at every depth and carries no volatile key when stripping. */
  lemma {:induction false} NormalizeIsCanonical(v: Py, strip: bool)
    ensures CanonicalTree(Normalize(v, strip), strip)
    decreases v
  {
    match v
    case PyDict(items) =>
      NormalizeItemsCanonical(items, strip);
      NormalDictCanonical(NormalizeItems(items, strip), strip);
    case PyList(elems) => NormalizeAllCanonical(elems, strip);
    case PyTuple(elems) => NormalizeAllCanonical(elems, strip);
    case PyModel(dump) => NormalizeIsCanonical(dump, strip);
    case _ =>
  }

  lemma {:induction false} NormalizeItemsCanonical(items: seq<PyItem>, strip: bool)
    ensures CanonicalFields(NormalizeItems(items, strip), strip)
    decreases items
  {
    if items != [] {
      NormalizeIsCanonical(items[0].val, strip);
      NormalizeItemsCanonical(items[1..], strip);
    }
  }

  lemma {:induction false} NormalizeAllCanonical(elems: seq<Py>, strip: bool)
    ensures forall i | 0 <= i < |elems| :: CanonicalTree(NormalizeAll(elems, strip)[i], strip)
    decreases elems
  {
    if elems != [] {
      NormalizeIsCanonical(elems[0], strip);
      NormalizeAllCanonical(elems[1..], strip);
    }
  }

  lemma {:induction false} CanonicalDistinct(j: Json, strip: bool)
    requires CanonicalTree(j, strip)
    ensures DistinctKeys(j)
    decreases j, 0
  {
    match j
    case Leaf(_) =>
    case Arr(items) =>
      forall i | 0 <= i < |items| ensures DistinctKeys(items[i]) {
        CanonicalDistinct(items[i], strip);
      }
    case Obj(fields) => CanonicalDistinctFields(fields, strip);
  }

  lemma {:induction false} CanonicalDistinctFields(fields: seq<Field>, strip: bool)
    requires Ascending(fields) && CanonicalFields(fields, strip)
    ensures DistinctFields(fields)
    decreases fields
  {
    if fields != [] {
      AscendingTail(fields);
      CanonicalDistinct(fields[0].val, strip);
      CanonicalDistinctFields(fields[1..], strip);
    }
  }

  // ---- Idempotence --------------------------------------------------------

  /** A JSON tree seen as the Python value `json.loads` returns. */
  function Embed(j: Json): Py
    decreases j
  {
    match j
    case Leaf(s) => PyScalar(s)
    case Arr(items) => PyList(EmbedAll(items))
    case Obj(fields) => PyDict(EmbedFields(fields))
  }

  function EmbedAll(items: seq<Json>): seq<Py>
    decreases items
  {
    if items == [] then [] else [Embed(items[0])] + EmbedAll(items[1..])
  }

  function EmbedFields(fields: seq<Field>): seq<PyItem>
    decreases fields
  {
    if fields == [] then [] else [PyItem(fields[0].key, Embed(fields[0].val))] + EmbedFields(fields[1..])
  }

  lemma {:induction false} NormalizeFixed(j: Json, strip: bool)
    requires CanonicalTree(j, strip)
    ensures Normalize(Embed(j), strip) == j
    decreases j, 0
  {
    match j
    case Leaf(_) =>
    case Arr(items) => NormalizeAllFixed(items, strip);
    case Obj(fields) =>
      NormalizeFieldsFixed(fields, strip);
      SortFixed(fields);
      CanonicalDistinctFields(fields, strip);
      DictOfDistinct(fields);
  }

  lemma {:induction false} NormalizeAllFixed(items: seq<Json>, strip: bool)
    requires forall i | 0 <= i < |items| :: CanonicalTree(items[i], strip)
    ensures NormalizeAll(EmbedAll(items), strip) == items
    decreases items
  {
    if items != [] {
      NormalizeFixed(items[0], strip);
      NormalizeAllFixed(items[1..], strip);
      assert EmbedAll(items)[1..] == EmbedAll(items[1..]);
    }
  }

  lemma {:induction false} NormalizeFieldsFixed(fields: seq<Field>, strip: bool)
    requires CanonicalFields(fields, strip)
    ensures NormalizeItems(EmbedFields(fields), strip) == fields
    decreases fields
  {
    if fields != [] {
      NormalizeFixed(fields[0].val, strip);
      NormalizeFieldsFixed(fields[1..], strip);
      assert EmbedFields(fields)[1..] == EmbedFields(fields[1..]);
    }
  }

  lemma SortFixed(fields: seq<Field>)
    requires Ascending(fields)
    ensures SortByName(fields) == fields
  {
    forall i | 0 < i < |fields| ensures ByName()(fields[i - 1], fields[i]) {
      StrLessAsym(fields[i - 1].key, fields[i].key);
    }
    SortWithFixed(ByName(), fields);
  }

  /** Normalising twice is normalising once. */
  lemma NormalizeIdempotent(v: Py, strip: bool)
    ensures Normalize(Embed(Normalize(v, strip)), strip) == Normalize(v, strip)
  {
    NormalizeIsCanonical(v, strip);
    NormalizeFixed(Normalize(v, strip), strip);
  }

  // ---- The text is a faithful name of the normal form ----------------------

  /** Reading canonical text back gives the normal form itself. */
  lemma CanonicalRoundTrip(v: Py, strip: bool)
    ensures Loads(CanonicalJson(v, strip)) == Some(Normalize(v, strip))
  {
    NormalizeIsCanonical(v, strip);
    CanonicalDistinct(Normalize(v, strip), strip);
    ParsePrint(Normalize(v, strip));
  }

  lemma SameTextSameTree(a: Py, b: Py, strip: bool)
    ensures CanonicalJson(a, strip) == CanonicalJson(b, strip) <==> Normalize(a, strip) == Normalize(b, strip)
  {
    CanonicalRoundTrip(a, strip);
    CanonicalRoundTrip(b, strip);
  }

  lemma SameHashSameTree(a: Py, b: Py)
    ensures StableHash(a) == StableHash(b) <==> Normalize(a, true) == Normalize(b, true)
  {
    SameTextSameTree(a, b, true);
  }

  /** tools/router.py `_canonical_params`. */
  function CanonicalParams(params: Option<seq<PyItem>>): (r: Option<Json>)
    ensures r.Some? && r.value.Obj? && CanonicalTree(r.value, false)
    ensures params.None? || params.value == [] ==> r == Some(Obj([]))
  {
    match params
    case None => Some(Obj([]))
    case Some(items) =>
      if items == [] then Some(Obj([]))
      else
        NormalizeIsCanonical(PyDict(items), false);
        CanonicalRoundTrip(PyDict(items), false);
        Loads(CanonicalJson(PyDict(items), false))
  }

  lemma CanonicalParamsIdempotent(params: Option<seq<PyItem>>)
    ensures var once := CanonicalParams(params).value;
            once.Obj? && CanonicalParams(Some(EmbedFields(once.fields))) == Some(once)
  {
    var once := CanonicalParams(params).value;
    if params.Some? && params.value != [] {
      CanonicalRoundTrip(PyDict(params.value), false);
      NormalizeIdempotent(PyDict(params.value), false);
    }
    if once.fields != [] {
      CanonicalRoundTrip(Embed(once), false);
    }
  }

  /** No parameter gets lost, volatile or not, and none is invented: each key keeps its normalised value. */
  lemma CanonicalParamsKeep(items: seq<PyItem>, i: nat)
    requires i < |items| && DistinctItems(items)
    ensures Get(CanonicalParams(Some(items)).value.fields, items[i].key) == Some(Normalize(items[i].val, false))
    ensures forall k :: HasKey(CanonicalParams(Some(items)).value.fields, k) <==> exists x | x in items :: x.key == k
  {
    hide Normalize, NormalDict, Get, HasKey, DistinctItems;
    var fields := NormalizeItems(items, false);
    CanonicalRoundTrip(PyDict(items), false);
    DictForm(items, false);
    NormalDictGet(fields, items[i].key);
    ItemsGet(items, false, i);
    forall k ensures HasKey(NormalDict(fields), k) <==> exists x | x in items :: x.key == k {
      NormalDictGet(fields, k);
      if x :| x in items && x.key == k {
        var j :| 0 <= j < |items| && items[j] == x;
        ItemsGet(items, false, j);
      } else {
        ItemsGetNone(items, false, k);
      }
    }
  }

  // ---- Dict order ---------------------------------------------------------

  predicate DistinctItems(items: seq<PyItem>) {
    forall i, j | 0 <= i < j < |items| :: items[i].key != items[j].key
  }

  /** Equal up to the order of dict members, at every depth; no dict repeats a key text. */
  ghost predicate SameUpToOrder(a: Py, b: Py)
    decreases a
  {
    match (a, b)
    case (PyDict(xs), PyDict(ys)) =>
      && DistinctItems(xs) && DistinctItems(ys)
      && (set x | x in xs :: x.key) == (set y | y in ys :: y.key)
      && forall i, j | 0 <= i < |xs| && 0 <= j < |ys| && xs[i].key == ys[j].key :: SameUpToOrder(xs[i].val, ys[j].val)
    case (PyList(xs), PyList(ys)) =>
      |xs| == |ys| && forall i | 0 <= i < |xs| :: SameUpToOrder(xs[i], ys[i])
    case (PyTuple(xs), PyTuple(ys)) =>
      |xs| == |ys| && forall i | 0 <= i < |xs| :: SameUpToOrder(xs[i], ys[i])
    case (PyModel(x), PyModel(y)) => SameUpToOrder(x, y)
    case _ => a == b
  }

  /** The normal form does not depend on the order in which dicts were filled. */
  lemma {:induction false} DictOrderIrrelevant(a: Py, b: Py, strip: bool)
    requires SameUpToOrder(a, b)
    ensures Normalize(a, strip) == Normalize(b, strip)
    decreases a
  {
    match (a, b)
    case (PyDict(xs), PyDict(ys)) =>
      forall i, j | 0 <= i < |xs| && 0 <= j < |ys| && xs[i].key == ys[j].key
        ensures Normalize(xs[i].val, strip) == Normalize(ys[j].val, strip)
      {
        DictOrderIrrelevant(xs[i].val, ys[j].val, strip);
      }
      var ks := set y | y in ys :: y.key;
      forall k ensures Get(NormalizeItems(xs, strip), k) == Get(NormalizeItems(ys, strip), k) {
        if k in ks {
          var i :| 0 <= i < |xs| && xs[i].key == k;
          var j :| 0 <= j < |ys| && ys[j].key == k;
          ItemsGet(xs, strip, i);
          ItemsGet(ys, strip, j);
        } else {
          ItemsGetNone(xs, strip, k);
          ItemsGetNone(ys, strip, k);
        }
      }
      SameLookups(NormalizeItems(xs, strip), NormalizeItems(ys, strip));
    case (PyList(xs), PyList(ys)) => ListOrder(xs, ys, strip);
    case (PyTuple(xs), PyTuple(ys)) => ListOrder(xs, ys, strip);
    case (PyModel(x), PyModel(y)) => DictOrderIrrelevant(x, y, strip);
    case _ =>
  }

  lemma {:induction false} ListOrder(xs: seq<Py>, ys: seq<Py>, strip: bool)
    requires |xs| == |ys| && forall i | 0 <= i < |xs| :: SameUpToOrder(xs[i], ys[i])
    ensures NormalizeAll(xs, strip) == NormalizeAll(ys, strip)
    decreases xs
  {
    if xs != [] {
      DictOrderIrrelevant(xs[0], ys[0], strip);
      ListOrder(xs[1..], ys[1..], strip);
    }
  }

  lemma SameLookups(fs: seq<Field>, gs: seq<Field>)
    requires forall k :: Get(fs, k) == Get(gs, k)
    ensures NormalDict(fs) == NormalDict(gs)
  {
    forall k ensures Get(NormalDict(fs), k) == Get(NormalDict(gs), k) {
      NormalDictGet(fs, k);
      NormalDictGet(gs, k);
    }
    SortSorts(fs);
    SortSorts(gs);
    DictOfSorted(SortByName(fs));
    DictOfSorted(SortByName(gs));
    AscendingExtensional(NormalDict(fs), NormalDict(gs));
  }

  /** The last member with a given key text wins; volatile members are dropped. */
  lemma ItemsGetStep(items: seq<PyItem>, strip: bool, k: string)
    requires items != []
    ensures Get(NormalizeItems(items, strip), k) ==
            var later := Get(NormalizeItems(items[1..], strip), k);
            if later.Some? then later
            else if items[0].key == k && !Stripped(k, strip) then Some(Normalize(items[0].val, strip))
            else None
  {
    hide Normalize;
    var tail := NormalizeItems(items[1..], strip);
    if Stripped(items[0].key, strip) {
      assert NormalizeItems(items, strip) == tail;
    } else {
      assert NormalizeItems(items, strip)[1..] == tail;
    }
  }

  lemma {:induction false} ItemsGetNone(items: seq<PyItem>, strip: bool, k: string)
    requires forall x | x in items :: x.key != k
    ensures Get(NormalizeItems(items, strip), k) == None
  {
    if items != [] {
      assert items[0] in items;
      ItemsGetNone(items[1..], strip, k);
      ItemsGetStep(items, strip, k);
    }
  }

  /** No two members with the same kept key text normalise differently. */
  predicate NoConflict(items: seq<PyItem>, strip: bool) {
    forall i, j | 0 <= i < j < |items| && items[i].key == items[j].key && !Stripped(items[i].key, strip) ::
      Normalize(items[i].val, strip) == Normalize(items[j].val, strip)
  }

  lemma {:induction false} ItemsGetSome(items: seq<PyItem>, strip: bool, i: nat)
    requires i < |items| && NoConflict(items, strip)
    ensures Get(NormalizeItems(items, strip), items[i].key)
         == if Stripped(items[i].key, strip) then None else Some(Normalize(items[i].val, strip))
  {
    hide Normalize, NormalizeItems, Get;
    var k := items[i].key;
    ItemsGetStep(items, strip, k);
    if i > 0 {
      ItemsGetSome(items[1..], strip, i - 1);
    } else if j :| 1 <= j < |items| && items[j].key == k {
      assert items[1..][j - 1] == items[j];
      ItemsGetSome(items[1..], strip, j - 1);
    } else {
      ItemsGetNone(items[1..], strip, k);
    }
  }

  lemma ItemsGet(items: seq<PyItem>, strip: bool, i: nat)
    requires i < |items| && DistinctItems(items)
    ensures Get(NormalizeItems(items, strip), items[i].key)
         == if Stripped(items[i].key, strip) then None else Some(Normalize(items[i].val, strip))
  {
    ItemsGetSome(items, strip, i);
  }

  /** A further member changes the stable hash exactly when its key is none of the seven volatile ones. */
  lemma MemberSeenExactly(items: seq<PyItem>, key: string, v: Py)
    requires forall x | x in items :: x.key != key
    ensures StableHash(PyDict([PyItem(key, v)] + items)) != StableHash(PyDict(items)) <==>
              key !in {"timestamp", "created_at", "updated_at", "approved_at", "iat", "exp", "latency_ms"}
  {
    hide Normalize, NormalDict, Get, StableHash;
    var more := [PyItem(key, v)] + items;
    assert more[1..] == items;
    if key in VOLATILE_KEYS {
      assert NormalizeItems(more, true) == NormalizeItems(items, true);
      SameDictSameHash(more, items);
    } else {
      ItemsGetStep(more, true, key);
      ItemsGetNone(items, true, key);
      NormalDictGet(NormalizeItems(more, true), key);
      NormalDictGet(NormalizeItems(items, true), key);
      if StableHash(PyDict(more)) == StableHash(PyDict(items)) {
        SameHashSameTree(PyDict(more), PyDict(items));
        DictForm(more, true);
        DictForm(items, true);
      }
    }
  }

  lemma SameDictSameHash(xs: seq<PyItem>, ys: seq<PyItem>)
    requires NormalizeItems(xs, true) == NormalizeItems(ys, true)
    ensures StableHash(PyDict(xs)) == StableHash(PyDict(ys))
  {
  }

  /** Texts, enum members, tuples and models count as their text, value, list and dump. */
  lemma AlikeKinds(text: string, member: Scalar, elems: seq<Py>, dump: Py, strip: bool)
    ensures Normalize(PyText(text), strip) == Normalize(PyScalar(Str(text)), strip) == Leaf(Str(text))
    ensures Normalize(PyEnum(member), strip) == Normalize(PyScalar(member), strip) == Leaf(member)
    ensures Normalize(PyTuple(elems), strip) == Normalize(PyList(elems), strip)
    ensures Normalize(PyModel(dump), strip) == Normalize(dump, strip)
  {
  }

  /** Filling the dict in the order `items` or `items'` gives the same normal form. */
  ghost predicate OrderFree(items: seq<PyItem>, strip: bool) {
    forall items': seq<PyItem> | multiset(items') == multiset(items) ::
      Normalize(PyDict(items'), strip) == Normalize(PyDict(items), strip)
  }

  /**
   * One dict, keys of any type: its normal form is independent of member order exactly when keys that
   * share a text (such as 1 and "1") hold values with one normal form.
   */
  lemma OrderFreeExactly(items: seq<PyItem>, strip: bool)
    ensures OrderFree(items, strip) <==> NoConflict(items, strip)
  {
    if NoConflict(items, strip) {
      forall items': seq<PyItem> | multiset(items') == multiset(items)
        ensures Normalize(PyDict(items'), strip) == Normalize(PyDict(items), strip)
      {
        PermutedLookups(items, items', strip);
        SameLookups(NormalizeItems(items, strip), NormalizeItems(items', strip));
      }
    }
    if OrderFree(items, strip) {
      forall i, j | 0 <= i < j < |items| && items[i].key == items[j].key && !Stripped(items[i].key, strip)
        ensures Normalize(items[i].val, strip) == Normalize(items[j].val, strip)
      {
        LastWins(items, strip, i);
        LastWins(items, strip, j);
      }
    }
  }

  lemma PermutedLookups(items: seq<PyItem>, items': seq<PyItem>, strip: bool)
    requires multiset(items') == multiset(items) && NoConflict(items, strip)
    ensures forall k :: Get(NormalizeItems(items, strip), k) == Get(NormalizeItems(items', strip), k)
  {
    forall x: PyItem ensures x in items <==> x in items' {
      assert x in items <==> x in multiset(items);
      assert x in items' <==> x in multiset(items');
    }
    forall i, j | 0 <= i < j < |items'| && items'[i].key == items'[j].key && !Stripped(items'[i].key, strip)
      ensures Normalize(items'[i].val, strip) == Normalize(items'[j].val, strip)
    {
      assert items'[i] in items && items'[j] in items;
      var p :| 0 <= p < |items| && items[p] == items'[i];
      var q :| 0 <= q < |items| && items[q] == items'[j];
    }
    forall k ensures Get(NormalizeItems(items, strip), k) == Get(NormalizeItems(items', strip), k) {
      if i :| 0 <= i < |items| && items[i].key == k {
        assert items[i] in items';
        var j :| 0 <= j < |items'| && items'[j] == items[i];
        ItemsGetSome(items, strip, i);
        ItemsGetSome(items', strip, j);
      } else {
        forall x | x in items ensures x.key != k {
          var i :| 0 <= i < |items| && items[i] == x;
        }
        ItemsGetNone(items, strip, k);
        ItemsGetNone(items', strip, k);
      }
    }
  }

  /** Moving member `i` to the end makes its value the one that is kept. */
  lemma LastWins(items: seq<PyItem>, strip: bool, i: nat)
    requires i < |items| && !Stripped(items[i].key, strip) && OrderFree(items, strip)
    ensures Get(NormalizeItems(items, strip), items[i].key) == Some(Normalize(items[i].val, strip))
  {
    hide Normalize, NormalizeItems, Get, NormalDict;
    var x := items[i];
    var front := items[..i] + items[i + 1..];
    assert items == items[..i] + [x] + items[i + 1..];
    assert multiset(front + [x]) == multiset(items);
    assert Normalize(PyDict(front + [x]), strip) == Normalize(PyDict(items), strip);
    DictForm(items, strip);
    DictForm(front + [x], strip);
    LastGet(front, x, strip);
    NormalDictGet(NormalizeItems(items, strip), x.key);
    NormalDictGet(NormalizeItems(front + [x], strip), x.key);
  }

  lemma DictForm(items: seq<PyItem>, strip: bool)
    ensures Normalize(PyDict(items), strip) == Obj(NormalDict(NormalizeItems(items, strip)))
  {
  }

  lemma {:induction false} LastGet(front: seq<PyItem>, x: PyItem, strip: bool)
    requires !Stripped(x.key, strip)
    ensures Get(NormalizeItems(front + [x], strip), x.key) == Some(Normalize(x.val, strip))
  {
    hide Normalize, NormalizeItems, Get;
    var all := front + [x];
    ItemsGetStep(all, strip, x.key);
    if front == [] {
      assert all[1..] == [];
      ItemsGetNone(all[1..], strip, x.key);
    } else {
      assert all[1..] == front[1..] + [x];
      LastGet(front[1..], x, strip);
    }
  }
}
