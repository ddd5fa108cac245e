/** The firing-rate fitness of one simulation run and the driver that scores
    a run and builds the result record (src/init_batch.py). Rates are real
    numbers; the exponential is a parameter `exp`, and the lemmas that need
    its behaviour rely only on `ExpLaws(exp)`. */
module Fitness {
  import opened Results
  import opened Seqs
  import NetParams

  /** One population's tuning: the `{'target', 'width', 'min'}` dict. */
  datatype Tune = Tune(target: real, width: real, minRate: real)

  /** `pops`: an insertion-ordered dict from population name to its tuning. */
  type PopTable = seq<(string, Tune)>

  /** What stops a run from being scored. */
  datatype FitnessError =
    | MissingPopulation(name: string)  // KeyError on simData['popRates'][name]
    | ZeroWidth(name: string)          // ZeroDivisionError on the division by v['width']
    | EmptyMean                        // np.mean of an empty list: NaN, not a loss

  /** The laws of the exponential function the proofs rely on. */
  ghost predicate ExpLaws(exp: real -> real) {
    && exp(0.0) == 1.0
    && (forall x :: exp(x) > 0.0)
    && (forall x, y :: x < y ==> exp(x) < exp(y))
  }

  function Abs(x: real): real {
    if x < 0.0 then -x else x
  }

  /** Python's two-argument `min`: the first argument unless the second is smaller. */
  function Min(a: real, b: real): real {
    if b < a then b else a
  }

  /** The keys of a table, in order. */
  function Names(t: PopTable): (r: seq<string>)
    ensures |r| == |t| && forall i :: 0 <= i < |t| ==> r[i] == t[i].0
  {
    if t == [] then [] else [t[0].0] + Names(t[1..])
  }

  predicate Distinct(ks: seq<string>) {
    forall i, j :: 0 <= i < j < |ks| ==> ks[i] != ks[j]
  }

  // ---------------------------------------------------------------------
  // Building the `pops` table

  /** `t[k] = v` on an insertion-ordered dict: an existing key keeps its
      place, a new key goes to the end. */
  function Put(t: PopTable, k: string, v: Tune): (r: PopTable)
    ensures Names(r) == if k in Names(t) then Names(t) else Names(t) + [k]
    ensures k !in Names(t) ==> r == t + [(k, v)]
  {
    if t == [] then [(k, v)]
    else if t[0].0 == k then
      NamesCons((k, v), t[1..]);
      NamesCons(t[0], t[1..]);
      assert t == [t[0]] + t[1..];
      [(k, v)] + t[1..]
    else
      var rest := Put(t[1..], k, v);
      NamesCons(t[0], rest);
      NamesCons(t[0], t[1..]);
      assert t == [t[0]] + t[1..];
      assert k in Names(t) <==> k in Names(t[1..]);
      [t[0]] + rest
  }

  /** After `t[k] = v`, `k` holds `v` and every entry under another key is still there. */
  lemma {:induction false} PutMembers(t: PopTable, k: string, v: Tune)
    ensures (k, v) in Put(t, k, v)
    ensures forall e :: e in t && e.0 != k ==> e in Put(t, k, v)
  {
    if t != [] && t[0].0 != k {
      PutMembers(t[1..], k, v);
      assert forall e :: e in t ==> e == t[0] || e in t[1..];
    } else if t != [] {
      assert forall e :: e in t ==> e == t[0] || e in t[1..];
    }
  }

  /** Every entry after `t[k] = v` was in `t` or is `(k, v)`. */
  lemma {:induction false} PutFrom(t: PopTable, k: string, v: Tune)
    ensures forall e :: e in Put(t, k, v) ==> e in t || e == (k, v)
  {
    if t != [] && t[0].0 != k {
      PutFrom(t[1..], k, v);
      assert forall e :: e in Put(t, k, v) ==> e == t[0] || e in Put(t[1..], k, v);
    }
  }

  /** Assigning positive-width tunings keeps every width positive. */
  lemma {:induction false} PutAllWidths(t: PopTable, ks: seq<string>, v: Tune)
    requires v.width > 0.0 && forall e :: e in t ==> e.1.width > 0.0
    ensures forall e :: e in PutAll(t, ks, v) ==> e.1.width > 0.0
  {
    if ks != [] {
      PutAllWidths(t, ks[..|ks| - 1], v);
      PutFrom(PutAll(t, ks[..|ks| - 1], v), ks[|ks| - 1], v);
    }
  }

  lemma NamesCons(e: (string, Tune), t: PopTable)
    ensures Names([e] + t) == [e.0] + Names(t)
  {
    assert ([e] + t)[1..] == t;
  }

  /** A table whose keys are distinct keeps them distinct under `Put`. */
  lemma PutKeepsDistinct(t: PopTable, k: string, v: Tune)
    requires Distinct(Names(t))
    ensures Distinct(Names(Put(t, k, v)))
  {
  }

  /** The dict semantics of `t[k] = v`: `k` then holds `v`, every other key
      its old value. */
  lemma {:induction false} PutValues(t: PopTable, k: string, v: Tune)
    requires Distinct(Names(t))
    ensures forall j :: 0 <= j < |t| && t[j].0 != k ==> Put(t, k, v)[j] == t[j]
    ensures forall j :: 0 <= j < |Put(t, k, v)| && Put(t, k, v)[j].0 == k ==> Put(t, k, v)[j].1 == v
  {
    if t != [] {
      DistinctTail(t);
      if t[0].0 != k {
        PutValues(t[1..], k, v);
        assert Put(t, k, v) == [t[0]] + Put(t[1..], k, v);
      }
    }
  }

  /** The tail of a table with distinct names has distinct names, none of
      them the head's. */
  lemma DistinctTail(t: PopTable)
    requires t != [] && Distinct(Names(t))
    ensures Distinct(Names(t[1..]))
    ensures forall j :: 1 <= j < |t| ==> t[j].0 != t[0].0
  {
    forall i, j | 0 <= i < j < |t| - 1 ensures Names(t[1..])[i] != Names(t[1..])[j] {
      assert Names(t)[i + 1] == Names(t[1..])[i];
      assert Names(t)[j + 1] == Names(t[1..])[j];
    }
    forall j | 1 <= j < |t| ensures t[j].0 != t[0].0 {
      assert Names(t)[0] == t[0].0 && Names(t)[j] == t[j].0;
    }
  }

  /** `for pop in ks: t[pop] = v`. */
  function PutAll(t: PopTable, ks: seq<string>, v: Tune): PopTable {
    if ks == [] then t else Put(PutAll(t, ks[..|ks| - 1], v), ks[|ks| - 1], v)
  }

  /** After `for k in ks: t[k] = v` the table has exactly the old keys and
      `ks`, every `k` in `ks` holds `v`, and entries under other keys stay. */
  lemma {:induction false} PutAllMembers(t: PopTable, ks: seq<string>, v: Tune)
    ensures forall k :: k in Names(PutAll(t, ks, v)) <==> k in Names(t) || k in ks
    ensures forall k :: k in ks ==> (k, v) in PutAll(t, ks, v)
    ensures forall e :: e in t && e.0 !in ks ==> e in PutAll(t, ks, v)
  {
    if ks != [] {
      var front, k := ks[..|ks| - 1], ks[|ks| - 1];
      assert forall x :: x in ks <==> x in front || x == k;
      PutAllMembers(t, front, v);
      PutMembers(PutAll(t, front, v), k, v);
    }
  }

  /** `for k in ks: t[k] = v` never duplicates a key. */
  lemma {:induction false} PutAllKeepsDistinct(t: PopTable, ks: seq<string>, v: Tune)
    requires Distinct(Names(t))
    ensures Distinct(Names(PutAll(t, ks, v)))
  {
    if ks != [] {
      PutAllKeepsDistinct(t, ks[..|ks| - 1], v);
      PutKeepsDistinct(PutAll(t, ks[..|ks| - 1], v), ks[|ks| - 1], v);
    }
  }

  /** In a table with distinct names, two entries under one key are equal. */
  lemma DistinctEntries(t: PopTable, e1: (string, Tune), e2: (string, Tune))
    requires Distinct(Names(t)) && e1 in t && e2 in t && e1.0 == e2.0
    ensures e1 == e2
  {
    var i :| 0 <= i < |t| && t[i] == e1;
    var j :| 0 <= j < |t| && t[j] == e2;
    assert Names(t)[i] == Names(t)[j];
  }

  /** One entry per name, in order, each holding the tuning `v`. */
  function Fill(ks: seq<string>, v: Tune): (r: PopTable)
    ensures |r| == |ks| && forall i :: 0 <= i < |ks| ==> r[i] == (ks[i], v)
  {
    if ks == [] then [] else Fill(ks[..|ks| - 1], v) + [(ks[|ks| - 1], v)]
  }

  lemma NamesOfFill(ks: seq<string>, v: Tune)
    ensures Names(Fill(ks, v)) == ks
  {
    assert |Names(Fill(ks, v))| == |ks|;
    forall i | 0 <= i < |ks| ensures Names(Fill(ks, v))[i] == ks[i] { }
  }

  /** Filling a table with distinct new names appends one entry per name, in
      order, each holding the same tuning. */
  lemma {:induction false} PutAllFresh(t: PopTable, ks: seq<string>, v: Tune)
    requires Distinct(ks)
    requires forall i :: 0 <= i < |ks| ==> ks[i] !in Names(t)
    ensures PutAll(t, ks, v) == t + Fill(ks, v)
  {
    if ks != [] {
      var n := |ks| - 1;
      var front, k := ks[..n], ks[n];
      FrontStaysFresh(t, ks, front);
      PutAllFresh(t, front, v);
      FreshAfterFill(t, front, v, k);
      LastSplit(ks);
      AppendFresh(t, front, k, v);
    } else {
      assert Fill(ks, v) == [] && t + [] == t;
    }
  }

  lemma LastSplit(ks: seq<string>)
    requires |ks| > 0
    ensures ks == ks[..|ks| - 1] + [ks[|ks| - 1]]
  {
  }

  /** The step of `PutAllFresh`: one more fresh name is appended. */
  lemma AppendFresh(t: PopTable, front: seq<string>, k: string, v: Tune)
    requires PutAll(t, front, v) == t + Fill(front, v)
    requires k !in Names(t + Fill(front, v))
    ensures PutAll(t, front + [k], v) == t + Fill(front + [k], v)
  {
    var ks := front + [k];
    assert ks[..|ks| - 1] == front && ks[|ks| - 1] == k;
    var prev := t + Fill(front, v);
    assert PutAll(t, ks, v) == Put(prev, k, v) == prev + [(k, v)];
    FillSnoc(front, k, v);
    assert prev + [(k, v)] == t + (Fill(front, v) + [(k, v)]);
  }

  lemma FillSnoc(front: seq<string>, k: string, v: Tune)
    ensures Fill(front + [k], v) == Fill(front, v) + [(k, v)]
  {
  }

  lemma FrontStaysFresh(t: PopTable, ks: seq<string>, front: seq<string>)
    requires |ks| > 0 && front == ks[..|ks| - 1] && Distinct(ks)
    requires forall i :: 0 <= i < |ks| ==> ks[i] !in Names(t)
    ensures Distinct(front) && forall i :: 0 <= i < |front| ==> front[i] !in Names(t)
    ensures ks[|ks| - 1] !in Names(t) && ks[|ks| - 1] !in front
  {
    forall i, j | 0 <= i < j < |front| ensures front[i] != front[j] {
      assert front[i] == ks[i] && front[j] == ks[j];
    }
    forall i | 0 <= i < |front| ensures front[i] !in Names(t) {
      assert front[i] == ks[i];
    }
  }

  lemma FreshAfterFill(t: PopTable, front: seq<string>, v: Tune, k: string)
    requires k !in Names(t) && k !in front
    ensures k !in Names(t + Fill(front, v))
  {
    var prev := t + Fill(front, v);
    forall i | 0 <= i < |prev| ensures Names(prev)[i] != k {
      if i < |t| {
        assert prev[i] == t[i] && Names(t)[i] == t[i].0;
      } else {
        assert prev[i] == (front[i - |t|], v);
      }
    }
  }

  // ---------------------------------------------------------------------
  // Scoring

  /** The population's rate passes the floor and can be scored: it is
      present, and a rate above the floor meets a non-zero width. */
  predicate Scorable(rates: map<string, real>, e: (string, Tune)) {
    e.0 in rates && (rates[e.0] > e.1.minRate ==> e.1.width != 0.0)
  }

  function ErrorOf(rates: map<string, real>, e: (string, Tune)): FitnessError {
    if e.0 !in rates then MissingPopulation(e.0) else ZeroWidth(e.0)
  }

  /** The exponent `factor * abs(target - rate) / width`. */
  function Exponent(factor: real, t: Tune, rate: real): real
    requires t.width != 0.0
  {
    factor * Abs(t.target - rate) / t.width
  }

  /** The penalty of one population at rate `rate` under the global `factor`. */
  function Penalty(exp: real -> real, factor: real, t: Tune, rate: real, maxFitness: real): (r: real)
    requires rate > t.minRate ==> t.width != 0.0
    ensures r <= maxFitness
    ensures rate <= t.minRate ==> r == maxFitness
  {
    if rate > t.minRate then Min(exp(Exponent(factor, t, rate)), maxFitness)
    else maxFitness
  }

  /** The list comprehension `popFitness`, evaluated left to right: the first
      entry that cannot be scored raises. */
  function PopFitness(exp: real -> real, factor: real, rates: map<string, real>, pops: PopTable, maxFitness: real)
    : (r: Result<seq<real>, FitnessError>)
    ensures r.Ok? <==> forall i :: 0 <= i < |pops| ==> Scorable(rates, pops[i])
    ensures r.Ok? ==> |r.value| == |pops|
    ensures r.Ok? ==> forall i :: 0 <= i < |pops| ==>
      Scorable(rates, pops[i]) && r.value[i] == Penalty(exp, factor, pops[i].1, rates[pops[i].0], maxFitness)
    ensures r.Err? ==> exists i :: 0 <= i < |pops| && !Scorable(rates, pops[i]) && r.error == ErrorOf(rates, pops[i]) &&
                                (forall j :: 0 <= j < i ==> Scorable(rates, pops[j]))
  {
    if pops == [] then Ok([])
    else if !Scorable(rates, pops[0]) then Err(ErrorOf(rates, pops[0]))
    else
      var p := Penalty(exp, factor, pops[0].1, rates[pops[0].0], maxFitness);
      var rest := PopFitness(exp, factor, rates, pops[1..], maxFitness);
      if rest.Err? then
        ghost var i :| 0 <= i < |pops[1..]| && !Scorable(rates, pops[1..][i]) && rest.error == ErrorOf(rates, pops[1..][i])
          && forall j :: 0 <= j < i ==> Scorable(rates, pops[1..][j]);
        assert forall j :: 0 <= j < i + 1 ==> Scorable(rates, pops[j]) by {
          forall j | 0 <= j < i + 1 ensures Scorable(rates, pops[j]) {
            if j > 0 { assert pops[j] == pops[1..][j - 1]; }
          }
        }
        assert pops[i + 1] == pops[1..][i];
        Err(rest.error)
      else
        assert forall i :: 1 <= i < |pops| ==> pops[i] == pops[1..][i - 1];
        Ok([p] + rest.value)
  }

  function Sum(s: seq<real>): real {
    if s == [] then 0.0 else s[0] + Sum(s[1..])
  }

  /** `np.mean` of a non-empty list. */
  function Mean(s: seq<real>): (r: real)
    requires |s| > 0
    ensures MinOf(s) <= r <= MaxOf(s)
  {
    SumOverCountWithin(s, MinOf(s), MaxOf(s));
    Sum(s) / (|s| as real)
  }

  /** The sum over the count lies within any bounds of the values. */
  lemma SumOverCountWithin(s: seq<real>, lo: real, hi: real)
    requires |s| > 0
    requires forall i :: 0 <= i < |s| ==> lo <= s[i] <= hi
    ensures lo <= Sum(s) / (|s| as real) <= hi
  {
    SumWithin(s, lo, hi);
    var n := |s| as real;
    QuotientWithin(Sum(s), n, lo, hi);
  }

  lemma {:induction false} SumWithin(s: seq<real>, lo: real, hi: real)
    requires forall i :: 0 <= i < |s| ==> lo <= s[i] <= hi
    ensures (|s| as real) * lo <= Sum(s) <= (|s| as real) * hi
  {
    if s != [] {
      SumWithin(s[1..], lo, hi);
      var n := |s[1..]| as real;
      assert (|s| as real) * lo == lo + n * lo;
      assert (|s| as real) * hi == hi + n * hi;
    }
  }

  /** A mean lies within any bounds of the values it averages. */
  lemma MeanWithin(s: seq<real>, lo: real, hi: real)
    requires |s| > 0
    requires forall i :: 0 <= i < |s| ==> lo <= s[i] <= hi
    ensures lo <= Mean(s) <= hi
  {
    SumOverCountWithin(s, lo, hi);
  }

  /** Dividing bounds n * lo <= a <= n * hi by a positive n. */
  lemma QuotientWithin(a: real, n: real, lo: real, hi: real)
    requires n > 0.0 && n * lo <= a <= n * hi
    ensures lo <= a / n <= hi
  {
    assert a / n - lo == (a - n * lo) / n;
    assert hi - a / n == (n * hi - a) / n;
  }

  /** `simData['popRates'][name]`. */
  function Rate(rates: map<string, real>, name: string): Result<real, FitnessError> {
    if name in rates then Ok(rates[name]) else Err(MissingPopulation(name))
  }

  /** `rates[a] > rates[b]`, looking `a` up before `b`. */
  function Exceeds(rates: map<string, real>, a: string, b: string): (r: Result<bool, FitnessError>)
    ensures r.Ok? <==> a in rates && b in rates
    ensures r.Ok? ==> r.value == (rates[a] > rates[b])
    ensures a !in rates ==> r == Err(MissingPopulation(a))
    ensures a in rates && b !in rates ==> r == Err(MissingPopulation(b))
  {
    var x :- Rate(rates, a);
    var y :- Rate(rates, b);
    Ok(x > y)
  }

  /** `(rates[a1] > rates[b1]) and (rates[a2] > rates[b2])`: the second
      comparison, and its lookups, run only when the first holds. */
  function BothExceed(rates: map<string, real>, a1: string, b1: string, a2: string, b2: string)
    : (r: Result<bool, FitnessError>)
    ensures r.Ok? ==> a1 in rates && b1 in rates
    ensures a1 in rates && b1 in rates && rates[a1] <= rates[b1] ==> r == Ok(false)
    ensures a1 in rates && b1 in rates && rates[a1] > rates[b1] ==> r == Exceeds(rates, a2, b2)
    ensures !(a1 in rates && b1 in rates) ==> r == Exceeds(rates, a1, b1)
  {
    var c :- Exceeds(rates, a1, b1);
    if !c then Ok(false) else Exceeds(rates, a2, b2)
  }

  /** The populations the ten ordering conditions read. */
  const OrderingPops: seq<string> := ["IT2", "IT5A", "IT5B", "PT5B", "IT6", "CT6",
    "PV2", "SOM2", "PV5A", "SOM5A", "PV5B", "SOM5B", "PV6", "SOM6"]

  predicate AllIn(names: seq<string>, rates: map<string, real>) {
    forall p :: p in names ==> p in rates
  }

  /** Reference meaning of the ten conditions: I above E in each layer, E of
      L5 above L6 above L2/3, and PV above SOM in each layer. */
  function LayerOrdering(rates: map<string, real>): seq<bool>
    requires AllIn(OrderingPops, rates)
  {
    [ rates["PV2"] > rates["IT2"] && rates["SOM2"] > rates["IT2"],
      rates["PV5A"] > rates["IT5A"] && rates["SOM5A"] > rates["IT5A"],
      rates["PV5B"] > rates["IT5B"] && rates["SOM5B"] > rates["IT5B"],
      rates["PV6"] > rates["IT6"] && rates["SOM6"] > rates["IT6"],
      (rates["IT5A"] + rates["IT5B"] + rates["PT5B"]) / 3.0 > (rates["IT6"] + rates["CT6"]) / 2.0,
      (rates["IT6"] + rates["CT6"]) / 2.0 > rates["IT2"],
      rates["PV2"] > rates["SOM2"],
      rates["PV5A"] > rates["SOM5A"],
      rates["PV5B"] > rates["SOM5B"],
      rates["PV6"] > rates["SOM6"] ]
  }

  /** The four `condsIE_*` conditions: in each layer both PV and SOM fire
      above the layer's IT cells. Each is a short-circuit `and`, so a layer's
      SOM rate is read only when its PV comparison holds. */
  function IEConds(rates: map<string, real>): (r: Result<seq<bool>, FitnessError>)
    ensures AllIn(OrderingPops, rates) ==> r == Ok(LayerOrdering(rates)[..4])
    ensures r.Ok? ==> |r.value| == 4 && AllIn(["PV2", "IT2", "PV5A", "IT5A", "PV5B", "IT5B", "PV6", "IT6"], rates)
    ensures r.Err? ==> r.error.MissingPopulation? && r.error.name in OrderingPops && r.error.name !in rates
  {
    var ieL23 :- BothExceed(rates, "PV2", "IT2", "SOM2", "IT2");
    var ieL5A :- BothExceed(rates, "PV5A", "IT5A", "SOM5A", "IT5A");
    var ieL5B :- BothExceed(rates, "PV5B", "IT5B", "SOM5B", "IT5B");
    var ieL6 :- BothExceed(rates, "PV6", "IT6", "SOM6", "IT6");
    assert AllIn(OrderingPops, rates) ==> [ieL23, ieL5A, ieL5B, ieL6] == LayerOrdering(rates)[..4];
    Ok([ieL23, ieL5A, ieL5B, ieL6])
  }

  /** The four `condsPVSOM_*` conditions: PV fires above SOM in each layer. */
  function PVSOMConds(rates: map<string, real>): (r: Result<seq<bool>, FitnessError>)
    ensures r.Ok? <==> AllIn(["PV2", "SOM2", "PV5A", "SOM5A", "PV5B", "SOM5B", "PV6", "SOM6"], rates)
    ensures AllIn(OrderingPops, rates) ==> r == Ok(LayerOrdering(rates)[6..])
    ensures r.Err? ==> r.error.MissingPopulation? && r.error.name in OrderingPops && r.error.name !in rates
  {
    var pvSomL23 :- Exceeds(rates, "PV2", "SOM2");
    var pvSomL5A :- Exceeds(rates, "PV5A", "SOM5A");
    var pvSomL5B :- Exceeds(rates, "PV5B", "SOM5B");
    var pvSomL6 :- Exceeds(rates, "PV6", "SOM6");
    Ok([pvSomL23, pvSomL5A, pvSomL5B, pvSomL6])
  }

  /** The ten conditions as the source evaluates them, lookup by lookup:
      every one of the 14 populations is read, so any missing one fails. */
  function OrderingConds(rates: map<string, real>): (r: Result<seq<bool>, FitnessError>)
    ensures r.Ok? <==> AllIn(OrderingPops, rates)
    ensures AllIn(OrderingPops, rates) ==> r == Ok(LayerOrdering(rates))
    ensures r.Err? ==> r.error.MissingPopulation? && r.error.name in OrderingPops && r.error.name !in rates
  {
    var ie :- IEConds(rates);
    // IT5A, IT5B, IT6 and IT2 have been read by the conditions above
    var pt5b :- Rate(rates, "PT5B");
    var ct6 :- Rate(rates, "CT6");
    var it5a, it5b, it6, it2 := rates["IT5A"], rates["IT5B"], rates["IT6"], rates["IT2"];
    var pvSom :- PVSOMConds(rates);
    assert AllIn(OrderingPops, rates);
    var lo := LayerOrdering(rates);
    assert lo == lo[..4] + [lo[4], lo[5]] + lo[6..];
    Ok(ie + [(it5a + it5b + pt5b) / 3.0 > (it6 + ct6) / 2.0, (it6 + ct6) / 2.0 > it2] + pvSom)
  }

  predicate AllTrue(s: seq<bool>) {
    forall i :: 0 <= i < |s| ==> s[i]
  }

  /** The global penalty factor: 1.5 when the extra conditions are asked for
      and one of them fails, 1 otherwise. */
  function Factor(rates: map<string, real>, extraConds: bool): (r: Result<real, FitnessError>)
    ensures !extraConds ==> r == Ok(1.0)
    ensures extraConds && AllIn(OrderingPops, rates) ==>
      r == Ok(if AllTrue(LayerOrdering(rates)) then 1.0 else 1.5)
    ensures extraConds ==> (r.Ok? <==> AllIn(OrderingPops, rates))
    ensures r.Ok? ==> r.value == 1.0 || r.value == 1.5
    ensures r.Err? ==> r.error.MissingPopulation? && r.error.name in OrderingPops && r.error.name !in rates
  {
    if !extraConds then Ok(1.0)
    else
      var conds :- OrderingConds(rates);
      Ok(if AllTrue(conds) then 1.0 else 1.5)
  }

  /** `rateFitnessFunc`: the mean of the per-population penalties. */
  function RateFitness(exp: real -> real, rates: map<string, real>, pops: PopTable, maxFitness: real, extraConds: bool)
    : (r: Result<real, FitnessError>)
    ensures r.Ok? ==> forall i :: 0 <= i < |pops| ==> pops[i].0 in rates
    ensures r.Ok? ==> r.value <= maxFitness
    ensures !extraConds ==> (r.Ok? <==> |pops| > 0 && forall i :: 0 <= i < |pops| ==> Scorable(rates, pops[i]))
    ensures r.Err? && r.error.MissingPopulation? ==> r.error.name !in rates
    ensures r.Err? && r.error.ZeroWidth? ==> exists i :: 0 <= i < |pops| && pops[i].1.width == 0.0
    ensures r.Err? && r.error.EmptyMean? ==> |pops| == 0
  {
    var factor :- Factor(rates, extraConds);
    var pens :- PopFitness(exp, factor, rates, pops, maxFitness);
    if |pens| == 0 then Err(EmptyMean)
    else
      MeanWithin(pens, MinOf(pens), maxFitness);
      Ok(Mean(pens))
  }

  // ---------------------------------------------------------------------
  // Properties of the penalty and the loss

  /** The exponent is 0 on target. */
  lemma ExponentOnTarget(factor: real, t: Tune)
    requires t.width != 0.0
    ensures Exponent(factor, t, t.target) == 0.0
  {
    assert Abs(t.target - t.target) == 0.0;
  }

  /** With a positive width the exponent grows with the distance to the
      target and with the factor, and is never negative for a non-negative
      factor. */
  lemma ExponentMonotone(f1: real, f2: real, t: Tune, r1: real, r2: real)
    requires 0.0 <= f1 <= f2 && t.width > 0.0
    requires Abs(t.target - r1) <= Abs(t.target - r2)
    ensures 0.0 <= Exponent(f1, t, r1) <= Exponent(f2, t, r2)
  {
    var d1 := Abs(t.target - r1);
    var d2 := Abs(t.target - r2);
    ProductMonotone(f1, f2, d1, d2);
    QuotientMonotone(f1 * d1, f2 * d2, t.width);
  }

  lemma ProductMonotone(a: real, b: real, c: real, d: real)
    requires 0.0 <= a <= b && 0.0 <= c <= d
    ensures 0.0 <= a * c <= b * d
  {
    assert a * c <= a * d by {
      assert a * d - a * c == a * (d - c);
    }
    assert a * d <= b * d by {
      assert b * d - a * d == (b - a) * d;
    }
  }

  lemma QuotientMonotone(a: real, b: real, w: real)
    requires 0.0 <= a <= b && w > 0.0
    ensures 0.0 <= a / w <= b / w
  {
    assert b / w - a / w == (b - a) / w;
  }

  /** `exp` never decreases. */
  lemma ExpMonotone(exp: real -> real, x: real, y: real)
    requires ExpLaws(exp) && x <= y
    ensures exp(x) <= exp(y)
  {
    if x < y { assert exp(x) < exp(y); }
  }

  /** On target and above the floor, the penalty is exp(0) = 1 (clipped). */
  lemma PenaltyOnTarget(exp: real -> real, factor: real, t: Tune, maxFitness: real)
    requires ExpLaws(exp)
    requires t.target > t.minRate && t.width != 0.0
    ensures Penalty(exp, factor, t, t.target, maxFitness) == Min(1.0, maxFitness)
  {
    ExponentOnTarget(factor, t);
  }

  /** The penalty is never below min(1, maxFitness) once widths and the
      factor are non-negative: the exponent is never negative. */
  lemma PenaltyAtLeast(exp: real -> real, factor: real, t: Tune, rate: real, maxFitness: real)
    requires ExpLaws(exp)
    requires factor >= 0.0 && t.width > 0.0
    ensures Min(1.0, maxFitness) <= Penalty(exp, factor, t, rate, maxFitness)
  {
    if rate > t.minRate {
      ExponentOnTarget(factor, t);
      ExponentMonotone(factor, factor, t, t.target, rate);
      ExpMonotone(exp, 0.0, Exponent(factor, t, rate));
    }
  }

  /** Every penalty is positive when maxFitness is. */
  lemma PenaltyPositive(exp: real -> real, factor: real, t: Tune, rate: real, maxFitness: real)
    requires ExpLaws(exp)
    requires maxFitness > 0.0 && (rate > t.minRate ==> t.width != 0.0)
    ensures Penalty(exp, factor, t, rate, maxFitness) > 0.0
  {
    if rate > t.minRate {
      assert exp(Exponent(factor, t, rate)) > 0.0;
    }
  }

  /** Above the floor, with a positive width and a non-negative factor, the
      penalty does not decrease as the rate moves away from the target. */
  lemma PenaltyMonotone(exp: real -> real, factor: real, t: Tune, r1: real, r2: real, maxFitness: real)
    requires ExpLaws(exp)
    requires factor >= 0.0 && t.width > 0.0
    requires r1 > t.minRate && r2 > t.minRate
    requires Abs(t.target - r1) <= Abs(t.target - r2)
    ensures Penalty(exp, factor, t, r1, maxFitness) <= Penalty(exp, factor, t, r2, maxFitness)
  {
    ExponentMonotone(factor, factor, t, r1, r2);
    ExpMonotone(exp, Exponent(factor, t, r1), Exponent(factor, t, r2));
  }

  /** A larger global factor never lowers a penalty. */
  lemma PenaltyFactorMonotone(exp: real -> real, f1: real, f2: real, t: Tune, rate: real, maxFitness: real)
    requires ExpLaws(exp)
    requires 0.0 <= f1 <= f2 && t.width > 0.0
    ensures Penalty(exp, f1, t, rate, maxFitness) <= Penalty(exp, f2, t, rate, maxFitness)
  {
    if rate > t.minRate {
      ExponentMonotone(f1, f2, t, rate, rate);
      ExpMonotone(exp, Exponent(f1, t, rate), Exponent(f2, t, rate));
    }
  }

  /** The loss is the mean of the penalties, which lie in (0, maxFitness];
      hence so does the loss. */
  lemma LossIsMeanOfPenalties(exp: real -> real, rates: map<string, real>, pops: PopTable, maxFitness: real, extraConds: bool)
    requires ExpLaws(exp) && maxFitness > 0.0
    requires RateFitness(exp, rates, pops, maxFitness, extraConds).Ok?
    ensures Factor(rates, extraConds).Ok? && PopFitness(exp, Factor(rates, extraConds).value, rates, pops, maxFitness).Ok?
    ensures var pens := PopFitness(exp, Factor(rates, extraConds).value, rates, pops, maxFitness).value;
      |pens| == |pops| > 0 && RateFitness(exp, rates, pops, maxFitness, extraConds).value == Mean(pens)
      && forall i :: 0 <= i < |pens| ==> 0.0 < pens[i] <= maxFitness
    ensures 0.0 < RateFitness(exp, rates, pops, maxFitness, extraConds).value <= maxFitness
  {
    var factor := Factor(rates, extraConds).value;
    var pens := PopFitness(exp, factor, rates, pops, maxFitness).value;
    forall i | 0 <= i < |pens| ensures 0.0 < pens[i] <= maxFitness {
      PenaltyPositive(exp, factor, pops[i].1, rates[pops[i].0], maxFitness);
    }
    MeanWithin(pens, MinOf(pens), maxFitness);
  }


  /** With positive widths the loss is at least min(1, maxFitness): a
      perfectly tuned network scores 1. */
  lemma LossAtLeastOne(exp: real -> real, rates: map<string, real>, pops: PopTable, maxFitness: real, extraConds: bool)
    requires ExpLaws(exp)
    requires forall i :: 0 <= i < |pops| ==> pops[i].1.width > 0.0
    requires RateFitness(exp, rates, pops, maxFitness, extraConds).Ok?
    ensures Min(1.0, maxFitness) <= RateFitness(exp, rates, pops, maxFitness, extraConds).value
  {
    var factor := Factor(rates, extraConds).value;
    var pens := PopFitness(exp, factor, rates, pops, maxFitness).value;
    forall i | 0 <= i < |pens| ensures Min(1.0, maxFitness) <= pens[i] <= maxFitness {
      PenaltyAtLeast(exp, factor, pops[i].1, rates[pops[i].0], maxFitness);
    }
    MeanWithin(pens, Min(1.0, maxFitness), maxFitness);
  }

  // ---------------------------------------------------------------------
  // The driver

  const EPops: seq<string> := ["IT2", "IT4", "IT5A", "IT5B", "PT5B", "IT6", "CT6"]
  const ETune := Tune(5.0, 5.0, 0.5)
  /** The inhibitory list as the driver writes it, with PV4 and SOM4. */
  const IPopsAsWritten: seq<string> := ["PV2", "SOM2", "PV4", "SOM4", "PV5A", "SOM5A", "PV5B", "SOM5B", "PV6", "SOM6"]
  /** The inhibitory populations the network defines (L4 PV/SOM cells belong to PV2/SOM2). */
  const IPops: seq<string> := ["PV2", "SOM2", "PV5A", "SOM5A", "PV5B", "SOM5B", "PV6", "SOM6"]
  const ITune := Tune(10.0, 15.0, 0.25)
  const MaxFitness := 1000.0

  /** The two `for pop in ...: pops[pop] = tune` loops. */
  method BuildTuneTable(ePops: seq<string>, eTune: Tune, iPops: seq<string>, iTune: Tune) returns (pops: PopTable)
    ensures pops == PutAll(PutAll([], ePops, eTune), iPops, iTune)
  {
    pops := [];
    for i := 0 to |ePops|
      invariant pops == PutAll([], ePops[..i], eTune)
    {
      assert ePops[..i + 1][..i] == ePops[..i];
      pops := Put(pops, ePops[i], eTune);
    }
    assert ePops[..|ePops|] == ePops;
    ghost var eTable := pops;
    for j := 0 to |iPops|
      invariant pops == PutAll(eTable, iPops[..j], iTune)
    {
      assert iPops[..j + 1][..j] == iPops[..j];
      pops := Put(pops, iPops[j], iTune);
    }
    assert iPops[..|iPops|] == iPops;
  }

  /** The table the two loops build. */
  function TuneTable(ePops: seq<string>, eTune: Tune, iPops: seq<string>, iTune: Tune): (r: PopTable)
    ensures forall k :: k in Names(r) <==> k in ePops || k in iPops
    ensures forall k :: k in iPops ==> (k, iTune) in r
    ensures forall k :: k in ePops && k !in iPops ==> (k, eTune) in r
    ensures Distinct(Names(r))
    ensures forall e :: e in r ==> e.1 == if e.0 in iPops then iTune else eTune
  {
    PutAllMembers([], ePops, eTune);
    PutAllMembers(PutAll([], ePops, eTune), iPops, iTune);
    PutAllKeepsDistinct([], ePops, eTune);
    PutAllKeepsDistinct(PutAll([], ePops, eTune), iPops, iTune);
    TuneTableValues(ePops, eTune, iPops, iTune, PutAll(PutAll([], ePops, eTune), iPops, iTune));
    PutAll(PutAll([], ePops, eTune), iPops, iTune)
  }

  /** A table with distinct names that lists each I population with `iTune`,
      each other E population with `eTune`, and no other key, holds exactly
      that tuning in every entry. */
  lemma TuneTableValues(ePops: seq<string>, eTune: Tune, iPops: seq<string>, iTune: Tune, t: PopTable)
    requires Distinct(Names(t))
    requires forall k :: k in Names(t) <==> k in ePops || k in iPops
    requires forall k :: k in iPops ==> (k, iTune) in t
    requires forall k :: k in ePops && k !in iPops ==> (k, eTune) in t
    ensures forall e :: e in t ==> e.1 == if e.0 in iPops then iTune else eTune
  {
    forall e | e in t ensures e.1 == if e.0 in iPops then iTune else eTune {
      var j :| 0 <= j < |t| && t[j] == e;
      assert Names(t)[j] == e.0;
      if e.0 in iPops {
        DistinctEntries(t, e, (e.0, iTune));
      } else {
        DistinctEntries(t, e, (e.0, eTune));
      }
    }
  }

  /** With distinct names the table lists every E population with its tuning,
      then every I population with its tuning, in list order. */
  lemma TuneTableLayout(ePops: seq<string>, eTune: Tune, iPops: seq<string>, iTune: Tune)
    requires Distinct(ePops) && Distinct(iPops)
    requires forall i :: 0 <= i < |iPops| ==> iPops[i] !in ePops
    ensures TuneTable(ePops, eTune, iPops, iTune) == Fill(ePops, eTune) + Fill(iPops, iTune)
  {
    PutAllFresh([], ePops, eTune);
    var eTable := PutAll([], ePops, eTune);
    assert eTable == Fill(ePops, eTune);
    NamesOfFill(ePops, eTune);
    PutAllFresh(eTable, iPops, iTune);
  }

  /** The run's rates cover every population the network defines. */
  predicate CoversNetwork(rates: map<string, real>) {
    forall p :: p in NetParams.LocalPops ==> p in rates
  }

  /** Every population the driver scores, but PV4 and SOM4, is one the
      network defines. */
  lemma DriverPopsInNetwork()
    ensures forall p :: p in EPops ==> p in NetParams.LocalPops
    ensures forall p :: p in IPops ==> p in NetParams.LocalPops
  {
  }

  /** Scoring without extra conditions raises on the first population
      without a rate, once every population before it can be scored. */
  lemma {:induction false} FirstMissingRaises(exp: real -> real, rates: map<string, real>, pops: PopTable, maxFitness: real, i: nat)
    requires i < |pops| && pops[i].0 !in rates
    requires forall j :: 0 <= j < i ==> Scorable(rates, pops[j])
    ensures RateFitness(exp, rates, pops, maxFitness, false) == Err(MissingPopulation(pops[i].0))
  {
    var r := PopFitness(exp, 1.0, rates, pops, maxFitness);
    assert !Scorable(rates, pops[i]);
    var i' :| 0 <= i' < |pops| && !Scorable(rates, pops[i']) && r.error == ErrorOf(rates, pops[i']) &&
              (forall j :: 0 <= j < i' ==> Scorable(rates, pops[j]));
    assert i' == i;
  }

  lemma DriverListsDistinct()
    ensures Distinct(EPops) && Distinct(IPops) && Distinct(IPopsAsWritten)
    ensures forall i :: 0 <= i < |IPops| ==> IPops[i] !in EPops
    ensures forall i :: 0 <= i < |IPopsAsWritten| ==> IPopsAsWritten[i] !in EPops
  {
  }

  /** In the driver's table as written, PV4 comes tenth, after nine
      populations the network defines. */
  lemma AsWrittenTableLayout(rates: map<string, real>, pops: PopTable)
    requires CoversNetwork(rates)
    requires pops == Fill(EPops, ETune) + Fill(IPopsAsWritten, ITune)
    ensures |pops| > 9 && pops[9].0 == "PV4" && forall j :: 0 <= j < 9 ==> Scorable(rates, pops[j])
  {
    assert pops[9] == ("PV4", ITune);
    DriverPopsInNetwork();
    forall j | 0 <= j < 9 ensures Scorable(rates, pops[j]) {
      if j < 7 {
        assert pops[j].0 == EPops[j];
      } else {
        assert pops[j].0 == IPopsAsWritten[j - 7] == IPops[j - 7];
      }
    }
  }

  /** As written, the driver's table lists PV4: since no network population
      has that name, every run's scoring raises a KeyError on it. */
  lemma AsWrittenDriverFails(exp: real -> real, rates: map<string, real>)
    requires CoversNetwork(rates) && "PV4" !in rates
    ensures RateFitness(exp, rates, TuneTable(EPops, ETune, IPopsAsWritten, ITune), MaxFitness, false) == Err(MissingPopulation("PV4"))
  {
    DriverListsDistinct();
    TuneTableLayout(EPops, ETune, IPopsAsWritten, ITune);
    AsWrittenTableLayout(rates, TuneTable(EPops, ETune, IPopsAsWritten, ITune));
    FirstMissingRaises(exp, rates, TuneTable(EPops, ETune, IPopsAsWritten, ITune), MaxFitness, 9);
  }

  /** Every entry of the driver's table (with the network's populations)
      has a rate and a positive width. */
  lemma TableScorable(rates: map<string, real>, pops: PopTable)
    requires CoversNetwork(rates)
    requires pops == Fill(EPops, ETune) + Fill(IPops, ITune)
    ensures forall i :: 0 <= i < |pops| ==> Scorable(rates, pops[i]) && pops[i].1.width > 0.0
  {
    DriverPopsInNetwork();
    forall i | 0 <= i < |pops| ensures Scorable(rates, pops[i]) && pops[i].1.width > 0.0 {
      if i < 7 {
        assert pops[i].0 == EPops[i];
      } else {
        assert pops[i].0 == IPops[i - 7];
      }
    }
  }

  /** The driver's table, entry by entry. */
  lemma DriverTable()
    ensures TuneTable(EPops, ETune, IPops, ITune) == Fill(EPops, ETune) + Fill(IPops, ITune)
  {
    DriverListsDistinct();
    TuneTableLayout(EPops, ETune, IPops, ITune);
  }

  /** Whatever I list the driver is given, its table is non-empty and every
      width is positive, so scoring can only fail on a missing rate. */
  lemma TableWidths(iPops: seq<string>)
    ensures |TuneTable(EPops, ETune, iPops, ITune)| > 0
    ensures forall i :: 0 <= i < |TuneTable(EPops, ETune, iPops, ITune)| ==> TuneTable(EPops, ETune, iPops, ITune)[i].1.width > 0.0
  {
    var pops := TuneTable(EPops, ETune, iPops, ITune);
    assert "IT2" in EPops;
    assert "IT2" in Names(pops);
    PutAllWidths([], EPops, ETune);
    PutAllWidths(PutAll([], EPops, ETune), iPops, ITune);
    assert forall i :: 0 <= i < |pops| ==> pops[i] in pops;
  }

  /** With the populations the network does define, a run that produced a
      rate for each of them is scored, ... */
  lemma DriverScorable(exp: real -> real, rates: map<string, real>)
    requires CoversNetwork(rates)
    ensures RateFitness(exp, rates, TuneTable(EPops, ETune, IPops, ITune), MaxFitness, false).Ok?
  {
    DriverTable();
    TableScorable(rates, TuneTable(EPops, ETune, IPops, ITune));
  }

  /** ... with a loss in [1, 1000]. */
  lemma DriverScores(exp: real -> real, rates: map<string, real>)
    requires ExpLaws(exp) && CoversNetwork(rates)
    ensures RateFitness(exp, rates, TuneTable(EPops, ETune, IPops, ITune), MaxFitness, false).Ok?
    ensures 1.0 <= RateFitness(exp, rates, TuneTable(EPops, ETune, IPops, ITune), MaxFitness, false).value <= MaxFitness
  {
    DriverTable();
    TableScorable(rates, TuneTable(EPops, ETune, IPops, ITune));
    LossAtLeastOne(exp, rates, TuneTable(EPops, ETune, IPops, ITune), MaxFitness, false);
  }

  /** `results['loss'] = loss` followed by `{**inputs, **results}`: the
      result values win over the inputs, and the loss over both. */
  function Record(inputs: map<string, real>, rates: map<string, real>, loss: real): (r: map<string, real>)
    ensures r.Keys == inputs.Keys + rates.Keys + {"loss"}
    ensures r["loss"] == loss
    ensures forall k :: k in rates && k != "loss" ==> r[k] == rates[k]
    ensures forall k :: k in inputs && k !in rates && k != "loss" ==> r[k] == inputs[k]
  {
    inputs + rates["loss" := loss]
  }

  /** The driver: build the tuning table from the E list and the I list
      `iPops`, score the run with maxFitness 1000 and no extra conditions,
      store the loss into the rates dict and merge `{**inputs, **results}`.
      With `IPopsAsWritten` this is the driver as written, which raises on
      PV4; with `IPops` it is the corrected driver. */
  method ScoreTrial(exp: real -> real, inputs: map<string, real>, rates: map<string, real>, iPops: seq<string>)
    returns (out: Result<map<string, real>, FitnessError>)
    ensures out.Ok? <==> RateFitness(exp, rates, TuneTable(EPops, ETune, iPops, ITune), MaxFitness, false).Ok?
    ensures iPops == IPops && CoversNetwork(rates) ==> out.Ok?
    ensures iPops == IPopsAsWritten && CoversNetwork(rates) && "PV4" !in rates ==> out == Err(MissingPopulation("PV4"))
    ensures out.Ok? ==> out.value.Keys == inputs.Keys + rates.Keys + {"loss"}
    ensures out.Ok? ==> out.value["loss"] == RateFitness(exp, rates, TuneTable(EPops, ETune, iPops, ITune), MaxFitness, false).value
    ensures out.Ok? ==> forall k :: k in rates && k != "loss" ==> out.value[k] == rates[k]
    ensures out.Ok? ==> forall k :: k in inputs && k !in rates && k != "loss" ==> out.value[k] == inputs[k]
    ensures out.Err? ==> out.error.MissingPopulation? && out.error.name !in rates
  {
    var pops := BuildTuneTable(EPops, ETune, iPops, ITune);
    assert pops == TuneTable(EPops, ETune, iPops, ITune);
    TableWidths(iPops);
    if iPops == IPops && CoversNetwork(rates) {
      DriverScorable(exp, rates);
    }
    if iPops == IPopsAsWritten && CoversNetwork(rates) && "PV4" !in rates {
      AsWrittenDriverFails(exp, rates);
    }
    var loss := RateFitness(exp, rates, pops, MaxFitness, false);
    if loss.Err? {
      return Err(loss.error);
    }
    var record := Record(inputs, rates, loss.value);
    out := Ok(record);
  }
}
