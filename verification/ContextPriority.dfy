/** core/context_priority.py: scoring context layers and dropping the cheapest until the budget fits. */
module ContextPriority {
  import opened Reals
  import opened Seqs

  /** One dict entry; a layer map is a list of entries with distinct keys, in insertion order. */
  datatype Layer = Layer(key: string, text: string)

  const GOVERNANCE_SOURCES: seq<string> := ["governance", "replay", "policy", "approval"]

  function BasePriority(key: string): real {
    match key
    case "l1" => 1.0
    case "l2" => 0.9
    case "l3" => 0.7
    case "l4" => 0.4
    case "l5" => 0.2
    case _ => 0.5
  }

  function Lower(s: string): string {
    seq(|s|, i requires 0 <= i < |s| => if 'A' <= s[i] <= 'Z' then (s[i] as int + 32) as char else s[i])
  }

  predicate Contains(s: string, word: string) { word <= s || (s != "" && Contains(s[1..], word)) }

  /** The composite of `score_layer`, replay relevance at its default 1.0. */
  function Composite(round4: real -> real, key: string, utilization: real, ageSeconds: int): real {
    var governed := exists g | g in GOVERNANCE_SOURCES :: Contains(Lower(key), g);
    var operational := if governed then 1.0 else BasePriority(key);
    var freshness := Max(0.1, 1.0 - Min(1.0, ageSeconds as real / 7200.0));
    var relevance := Max(0.2, 1.0 - utilization * 0.3);
    round4(relevance) * 0.3 + round4(freshness) * 0.2 + round4(1.0) * 0.25 + round4(operational) * 0.25
  }

  function Score(round4: real -> real, utilization: real, ageSeconds: int): Layer -> real {
    (l: Layer) => Composite(round4, l.key, utilization, ageSeconds)
  }

  function TotalLength(layers: seq<Layer>): nat {
    if layers == [] then 0 else |layers[0].text| + TotalLength(layers[1..])
  }

  function EstimateTokens(layers: seq<Layer>): nat {
    if TotalLength(layers) / 4 > 1 then TotalLength(layers) / 4 else 1
  }

  predicate Protected(l: Layer) { l.key == "l1" || l.key == "l2" }

  function Droppable(): Layer -> bool { (l: Layer) => !Protected(l) }

  function NotIn(dropped: seq<Layer>): Layer -> bool { (l: Layer) => l !in dropped }

  predicate DistinctLayers(layers: seq<Layer>) { forall i, j | 0 <= i < j < |layers| :: layers[i].key != layers[j].key }

  /** The layers left after dropping the first `m` of the drop order. */
  function Kept(layers: seq<Layer>, order: seq<Layer>, m: nat): seq<Layer>
    requires m <= |order|
  {
    Filter(NotIn(order[..m]), layers)
  }

  /** Unprotected layers, cheapest first, ties in dict order. */
  function DropOrder(layers: seq<Layer>, score: Layer -> real): seq<Layer> {
    Filter(Droppable(), SortBy(score, layers))
  }

  /** `m` drops: at least one if any is possible, and the first after which the rest fits. */
  predicate StopsAfter(layers: seq<Layer>, order: seq<Layer>, budget: int, m: nat) {
    && m <= |order| && (order != [] ==> m > 0)
    && (m < |order| ==> EstimateTokens(Kept(layers, order, m)) <= budget)
    && forall j | 0 < j < m :: EstimateTokens(Kept(layers, order, j)) > budget
  }

  /** `select_layers`. */
  method SelectLayers(round4: real -> real, layers: seq<Layer>, budget: int, estimatedTokens: int,
                      utilization: real, ageSeconds: int)
    returns (result: seq<Layer>)
    requires DistinctLayers(layers)
    ensures estimatedTokens <= budget ==> result == layers
    ensures estimatedTokens > budget ==>
              var order := DropOrder(layers, Score(round4, utilization, ageSeconds));
              exists m: nat :: StopsAfter(layers, order, budget, m) && result == Kept(layers, order, m)
  {
    hide *;
    if estimatedTokens <= budget {
      return layers;
    }
    var scored := SortBy(Score(round4, utilization, ageSeconds), layers);
    ghost var order := DropOrder(layers, Score(round4, utilization, ageSeconds));
    ghost var m := 0;
    result := layers;
    StartOrder(layers, Score(round4, utilization, ageSeconds), budget);
    for i := 0 to |scored|
      invariant m <= |order| && Dropping(layers, order, budget, m, scored[i..]) && result == Kept(layers, order, m)
    {
      assert scored[i..][0] == scored[i] && scored[i..][1..] == scored[i + 1..];
      DropNext(layers, order, budget, m, scored[i..]);
      if Protected(scored[i]) {
        continue;
      }
      m := m + 1;
      result := Filter(OtherKey(scored[i].key), result);
      if EstimateTokens(result) <= budget {
        return;
      }
    }
    assert scored[|scored|..] == [];
    AllDropped(layers, order, budget, m);
  }

  /** Loop state: `m` layers dropped and still over budget; `ahead` holds the rest of the drop order. */
  predicate Dropping(layers: seq<Layer>, order: seq<Layer>, budget: int, m: nat, ahead: seq<Layer>) {
    && m <= |order| && order[m..] == Filter(Droppable(), ahead)
    && DistinctLayers(layers) && (forall l | l in order :: l in layers)
    && forall j | 0 < j <= m :: EstimateTokens(Kept(layers, order, j)) > budget
  }

  lemma StartOrder(layers: seq<Layer>, score: Layer -> real, budget: int)
    requires DistinctLayers(layers)
    ensures var order := DropOrder(layers, score);
            Dropping(layers, order, budget, 0, SortBy(score, layers)[0..]) && Kept(layers, order, 0) == layers
  {
    var order := DropOrder(layers, score);
    assert order[..0] == [];
    FilterAll(NotIn([]), layers);
    assert SortBy(score, layers)[0..] == SortBy(score, layers);
  }

  lemma DropNext(layers: seq<Layer>, order: seq<Layer>, budget: int, m: nat, ahead: seq<Layer>)
    requires Dropping(layers, order, budget, m, ahead) && ahead != []
    ensures Protected(ahead[0]) ==> Dropping(layers, order, budget, m, ahead[1..])
    ensures !Protected(ahead[0]) ==>
              m < |order| &&
              var result := Filter(OtherKey(ahead[0].key), Kept(layers, order, m));
              && result == Kept(layers, order, m + 1)
              && (EstimateTokens(result) <= budget ==> StopsAfter(layers, order, budget, m + 1))
              && (EstimateTokens(result) > budget ==> Dropping(layers, order, budget, m + 1, ahead[1..]))
  {
    hide EstimateTokens, Kept;
    if !Protected(ahead[0]) {
      assert order[m..][0] == ahead[0] && order[m..][1..] == order[m + 1..];
      PopNext(layers, order, m);
    }
  }

  lemma AllDropped(layers: seq<Layer>, order: seq<Layer>, budget: int, m: nat)
    requires Dropping(layers, order, budget, m, [])
    ensures StopsAfter(layers, order, budget, m)
  {
  }

  function OtherKey(key: string): Layer -> bool { (l: Layer) => l.key != key }

  /** Popping the next key of the order drops exactly that layer. */
  lemma PopNext(layers: seq<Layer>, order: seq<Layer>, m: nat)
    requires m < |order| && DistinctLayers(layers) && forall l | l in order :: l in layers
    ensures Filter(OtherKey(order[m].key), Kept(layers, order, m)) == Kept(layers, order, m + 1)
  {
    assert order[m] in order && order[..m + 1] == order[..m] + [order[m]];
    forall l | l in layers ensures l.key == order[m].key <==> l == order[m] {
      var i :| 0 <= i < |layers| && layers[i] == l;
      var j :| 0 <= j < |layers| && layers[j] == order[m];
    }
    PopFilter(layers, order[..m], order[m]);
  }

  lemma {:induction false} PopFilter(layers: seq<Layer>, dropped: seq<Layer>, next: Layer)
    requires forall l | l in layers :: l.key == next.key <==> l == next
    ensures Filter(OtherKey(next.key), Filter(NotIn(dropped), layers)) == Filter(NotIn(dropped + [next]), layers)
  {
    if layers != [] {
      PopFilter(layers[1..], dropped, next);
      assert layers[0] in layers;
      if layers[0] !in dropped {
        assert Filter(NotIn(dropped), layers)[1..] == Filter(NotIn(dropped), layers[1..]);
      }
    }
  }

  // ---- What the drop achieves ---------------------------------------------

  /**
   * The result of dropping `m` layers: a submap in dict order that keeps L1 and L2, fits the budget or
   * has nothing droppable left, never drops a layer dearer than one it kept, and with two or more drops
   * would not fit if the last one were put back.
   */
  lemma DropsCheapestFirst(layers: seq<Layer>, score: Layer -> real, budget: int, m: nat)
    requires DistinctLayers(layers) && StopsAfter(layers, DropOrder(layers, score), budget, m)
    ensures var order := DropOrder(layers, score);
            var result := Kept(layers, order, m);
            && (forall l | l in layers && Protected(l) :: l in result)
            && (EstimateTokens(result) <= budget || forall l | l in result :: Protected(l))
            && (forall d, k | d in layers && d !in result && k in result && !Protected(k) :: score(d) <= score(k))
            && (m >= 2 ==> var putBack := Kept(layers, order, m - 1);
                           && EstimateTokens(putBack) > budget
                           && order[m - 1] !in result
                           && forall l :: l in putBack <==> l in result || l == order[m - 1])
  {
    hide EstimateTokens, DropOrder, Protected;
    var order := DropOrder(layers, score);
    OrderFacts(layers, score);
    assert order[..|order|] == order;
    var result := Kept(layers, order, m);
    forall d, k | d in layers && d !in result && k in result && !Protected(k) ensures score(d) <= score(k) {
      DearerKept(layers, score, order, m, d, k);
    }
    if m >= 2 {
      LastDropped(layers, order, m);
    }
  }

  /** A dropped layer stands before a kept one in the drop order. */
  lemma DearerKept(layers: seq<Layer>, score: Layer -> real, order: seq<Layer>, m: nat, d: Layer, k: Layer)
    requires m <= |order| && SortedBy(score, order) && k in order
    requires d in layers && d !in Kept(layers, order, m) && k in Kept(layers, order, m)
    ensures score(d) <= score(k)
  {
    assert d in order[..m] && k !in order[..m];
    var i :| 0 <= i < m && order[i] == d;
    var j :| 0 <= j < |order| && order[j] == k;
    assert j < m ==> order[..m][j] == k;
  }

  /** Putting the last dropped layer back undoes that one drop. */
  lemma LastDropped(layers: seq<Layer>, order: seq<Layer>, m: nat)
    requires 2 <= m <= |order| && DistinctLayers(order) && forall l | l in order :: l in layers
    ensures order[m - 1] !in Kept(layers, order, m)
    ensures forall l :: l in Kept(layers, order, m - 1) <==> l in Kept(layers, order, m) || l == order[m - 1]
  {
    assert order[..m] == order[..m - 1] + [order[m - 1]];
    assert order[m - 1] in order;
    var before := order[..m - 1];
    forall l | l in before ensures l != order[m - 1] {
      var i :| 0 <= i < m - 1 && before[i] == l;
      assert order[i].key != order[m - 1].key;
    }
  }

  /** The drop order lists exactly the droppable layers, each once, cheapest first. */
  lemma OrderFacts(layers: seq<Layer>, score: Layer -> real)
    requires DistinctLayers(layers)
    ensures var order := DropOrder(layers, score);
            && (forall l :: l in order <==> l in layers && !Protected(l))
            && SortedBy(score, order) && DistinctLayers(order)
  {
    SortBySorted(score, layers);
    FilterSorted(Droppable(), score, SortBy(score, layers));
    DistinctSort(score, layers);
    DistinctFilter(Droppable(), SortBy(score, layers));
  }

  lemma {:induction false} FilterSorted(p: Layer -> bool, score: Layer -> real, xs: seq<Layer>)
    requires SortedBy(score, xs)
    ensures SortedBy(score, Filter(p, xs))
  {
    if xs != [] {
      FilterSorted(p, score, xs[1..]);
      var f := Filter(p, xs[1..]);
      forall j | 0 <= j < |f| ensures score(xs[0]) <= score(f[j]) {
        assert f[j] in xs[1..];
        var i :| 0 <= i < |xs[1..]| && xs[1..][i] == f[j];
        assert xs[i + 1] == f[j];
      }
    }
  }

  lemma {:induction false} DistinctFilter(p: Layer -> bool, xs: seq<Layer>)
    requires DistinctLayers(xs)
    ensures DistinctLayers(Filter(p, xs))
  {
    if xs != [] {
      DistinctFilter(p, xs[1..]);
      var f := Filter(p, xs[1..]);
      forall j | 0 <= j < |f| ensures f[j].key != xs[0].key {
        assert f[j] in xs[1..];
        var i :| 0 <= i < |xs[1..]| && xs[1..][i] == f[j];
        assert xs[i + 1] == f[j];
      }
    }
  }

  lemma {:induction false} DistinctSort(score: Layer -> real, xs: seq<Layer>)
    requires DistinctLayers(xs)
    ensures DistinctLayers(SortBy(score, xs))
  {
    if xs != [] {
      DistinctSort(score, xs[1..]);
      var s := SortBy(score, xs[1..]);
      forall j | 0 <= j < |s| ensures s[j].key != xs[0].key {
        assert s[j] in xs[1..];
        var i :| 0 <= i < |xs[1..]| && xs[1..][i] == s[j];
        assert xs[i + 1] == s[j];
      }
      DistinctInsert(score, xs[0], s);
    }
  }

  lemma {:induction false} DistinctInsert(score: Layer -> real, x: Layer, s: seq<Layer>)
    requires DistinctLayers(s) && forall j | 0 <= j < |s| :: s[j].key != x.key
    ensures DistinctLayers(InsertWith(ByKey(score), x, s))
  {
    if s != [] && score(s[0]) < score(x) {
      DistinctInsert(score, x, s[1..]);
      var r := InsertWith(ByKey(score), x, s[1..]);
      forall j | 0 <= j < |r| ensures r[j].key != s[0].key {
        assert r[j] in r;
        if r[j] != x {
          var i :| 0 <= i < |s[1..]| && s[1..][i] == r[j];
          assert s[i + 1] == r[j];
        }
      }
    }
  }

  /** Whatever the utilization and age, the layers are dropped in the order L5, L4, L3. */
  lemma CompositeOrder(round4: real -> real, utilization: real, ageSeconds: int)
    requires forall x: real :: Nearest(x, round4(x), UNIT4)
    ensures var c := (k: string) => Composite(round4, k, utilization, ageSeconds);
            c("l5") < c("l4") < c("l3") < c("l2") < c("l1")
  {
    OnGrid(round4, 2000);
    OnGrid(round4, 4000);
    OnGrid(round4, 7000);
    OnGrid(round4, 9000);
    OnGrid(round4, 10000);
    forall k | k in ["l1", "l2", "l3", "l4", "l5"], g | g in GOVERNANCE_SOURCES ensures !Contains(Lower(k), g) {
      TooShort(Lower(k), g);
    }
  }

  predicate Occurs(word: string, s: string) { exists i | 0 <= i <= |s| :: word <= s[i..] }

  /** A key that names one of the governance sources, in any case. */
  predicate Governs(key: string) {
    exists word | word in {"governance", "replay", "policy", "approval"} :: Occurs(word, Lower(key))
  }

  lemma {:induction false} ContainsExactly(s: string, word: string)
    ensures Contains(s, word) <==> Occurs(word, s)
  {
    assert s[0..] == s;
    if s != "" {
      ContainsExactly(s[1..], word);
      if i :| 0 <= i <= |s[1..]| && word <= s[1..][i..] {
        assert s[1..][i..] == s[i + 1..];
      }
      if i :| 0 < i <= |s| && word <= s[i..] {
        assert s[1..][i - 1..] == s[i..];
      }
    }
  }

  lemma GovernsMeans(key: string)
    ensures Governs(key) <==> exists g | g in GOVERNANCE_SOURCES :: Contains(Lower(key), g)
  {
    hide Lower, Contains, Occurs;
    var words := {"governance", "replay", "policy", "approval"};
    assert forall i | 0 <= i < 4 :: GOVERNANCE_SOURCES[i] in words;
    if word :| word in words && Occurs(word, Lower(key)) {
      assert word in GOVERNANCE_SOURCES;
      ContainsExactly(Lower(key), word);
    }
    if g :| g in GOVERNANCE_SOURCES && Contains(Lower(key), g) {
      assert g in words;
      ContainsExactly(Lower(key), g);
    }
  }

  /** What a fully relevant, governed layer scores at this utilization and age. */
  function FullScore(round4: real -> real, utilization: real, ageSeconds: int): real {
    round4(if 0.3 * utilization <= 0.8 then 1.0 - 0.3 * utilization else 0.2) * 0.3
    + round4(if ageSeconds as real / 7200.0 <= 0.9 then 1.0 - ageSeconds as real / 7200.0 else 0.1) * 0.2 + 0.5
  }

  /** A quarter of the score is the base priority: what each layer loses against a governed one. */
  lemma PriorityCosts(round4: real -> real, key: string, utilization: real, ageSeconds: int)
    requires forall x: real :: Nearest(x, round4(x), UNIT4)
    ensures Composite(round4, key, utilization, ageSeconds) == FullScore(round4, utilization, ageSeconds)
              - (if Governs(key) || key == "l1" then 0.0 else if key == "l2" then 0.025 else if key == "l3" then 0.075
                 else if key == "l4" then 0.15 else if key == "l5" then 0.2 else 0.125)
  {
    hide Governs, Contains, Lower, Nearest;
    GovernsMeans(key);
    OnGrid(round4, 2000);
    OnGrid(round4, 4000);
    OnGrid(round4, 5000);
    OnGrid(round4, 7000);
    OnGrid(round4, 9000);
    OnGrid(round4, 10000);
  }

  lemma {:induction false} TooShort(s: string, word: string)
    requires |s| < |word|
    ensures !Contains(s, word)
  {
    if s != "" {
      TooShort(s[1..], word);
    }
  }

  lemma OnGrid(round4: real -> real, k: int)
    requires forall x: real :: Nearest(x, round4(x), UNIT4)
    ensures round4(Grid(k, UNIT4)) == Grid(k, UNIT4)
  {
    assert Nearest(Grid(k, UNIT4), round4(Grid(k, UNIT4)), UNIT4);
    NearestOnGrid(k, round4(Grid(k, UNIT4)), UNIT4);
  }
}
