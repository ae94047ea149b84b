/**
 * The inference statistics of the model-comparison panel
 * (`computeModelStats`, `computePillarStats`) and its two colour scales.
 * Counting is exact; rates are exact reals, not floating point.
 */
module ModelComparison {
  import opened Types

  /** How many matching responses were seen, and how many of them inferred the provider. */
  datatype Tally = Tally(inferred: nat, total: nat) {
    function Plus(other: Tally): Tally {
      Tally(inferred + other.inferred, total + other.total)
    }
  }

  // ------------------------------------------------------------ references

  /** The responses of a list of questions, question by question. */
  function Responses(qs: seq<QuestionDetail>): seq<UIResponse> {
    if |qs| == 0 then [] else Responses(qs[..|qs| - 1]) + qs[|qs| - 1].responses
  }

  /** Every response of every question of every pillar, in display order. */
  function AllResponses(ps: seq<PillarResult>): seq<UIResponse> {
    if |ps| == 0 then [] else AllResponses(ps[..|ps| - 1]) + Responses(ps[|ps| - 1].questions)
  }

  /** The tally of `model` over `rs`: its responses, and those of them flagged inferred. */
  function Count(rs: seq<UIResponse>, model: string): (t: Tally)
    ensures t.inferred <= t.total <= |rs|
  {
    if |rs| == 0 then Tally(0, 0)
    else
      var last := rs[|rs| - 1];
      var t := Count(rs[..|rs| - 1], model);
      if last.model != model then t
      else Tally(t.inferred + (if last.inferred then 1 else 0), t.total + 1)
  }

  /** The model of each response. */
  function ModelsOf(rs: seq<UIResponse>): (ms: seq<string>)
    ensures |ms| == |rs| && forall i :: 0 <= i < |rs| ==> ms[i] == rs[i].model
  {
    seq(|rs|, i requires 0 <= i < |rs| => rs[i].model)
  }

  /** The model of each response that inferred the provider. */
  function InferringModels(rs: seq<UIResponse>): seq<string> {
    if |rs| == 0 then []
    else InferringModels(rs[..|rs| - 1]) + (if rs[|rs| - 1].inferred then [rs[|rs| - 1].model] else [])
  }

  /** A tally is two multiplicities: of the model among all responses, and among the inferring ones. */
  lemma {:induction false} CountIsMultiplicity(rs: seq<UIResponse>, model: string)
    ensures Count(rs, model).total == multiset(ModelsOf(rs))[model]
    ensures Count(rs, model).inferred == multiset(InferringModels(rs))[model]
  {
    if |rs| > 0 {
      var front := rs[..|rs| - 1];
      CountIsMultiplicity(front, model);
      assert ModelsOf(rs) == ModelsOf(front) + [rs[|rs| - 1].model];
    }
  }

  /** Tallies add up over concatenation. */
  lemma {:induction false} CountAppend(a: seq<UIResponse>, b: seq<UIResponse>, model: string)
    ensures Count(a + b, model) == Count(a, model).Plus(Count(b, model))
  {
    if |b| == 0 {
      assert a + b == a;
    } else {
      var b' := b[..|b| - 1];
      CountAppend(a, b', model);
      assert (a + b)[..|a + b| - 1] == a + b';
    }
  }

  /** A response of another model is never counted, wherever it stands. */
  lemma OtherModelIgnored(a: seq<UIResponse>, x: UIResponse, b: seq<UIResponse>, model: string)
    requires x.model != model
    ensures Count(a + [x] + b, model) == Count(a + b, model)
  {
    CountAppend(a + [x], b, model);
    CountAppend(a, b, model);
    assert (a + [x])[..|a|] == a;
  }

  // ------------------------------------------------------------- counting

  /** The innermost loop: one question's responses. */
  method TallyResponses(rs: seq<UIResponse>, model: string) returns (t: Tally)
    ensures t == Count(rs, model)
  {
    t := Tally(0, 0);
    var k := 0;
    while k < |rs|
      invariant 0 <= k <= |rs|
      invariant t == Count(rs[..k], model)
    {
      assert rs[..k + 1][..k] == rs[..k];
      if rs[k].model == model {
        t := Tally(t.inferred + (if rs[k].inferred then 1 else 0), t.total + 1);
      }
      k := k + 1;
    }
    assert rs[..k] == rs;
  }

  /** The two inner loops: every response of every question of one pillar. */
  method TallyQuestions(qs: seq<QuestionDetail>, model: string) returns (t: Tally)
    ensures t == Count(Responses(qs), model)
  {
    t := Tally(0, 0);
    var j := 0;
    while j < |qs|
      invariant 0 <= j <= |qs|
      invariant t == Count(Responses(qs[..j]), model)
    {
      var u := TallyResponses(qs[j].responses, model);
      assert qs[..j + 1][..j] == qs[..j];
      CountAppend(Responses(qs[..j]), qs[j].responses, model);
      t := t.Plus(u);
      j := j + 1;
    }
    assert qs[..j] == qs;
  }

  /** All three loops of `computeModelStats` for one model. */
  method TallyPillars(ps: seq<PillarResult>, model: string) returns (t: Tally)
    ensures t == Count(AllResponses(ps), model)
  {
    t := Tally(0, 0);
    var i := 0;
    while i < |ps|
      invariant 0 <= i <= |ps|
      invariant t == Count(AllResponses(ps[..i]), model)
    {
      var u := TallyQuestions(ps[i].questions, model);
      assert ps[..i + 1][..i] == ps[..i];
      CountAppend(AllResponses(ps[..i]), Responses(ps[i].questions), model);
      t := t.Plus(u);
      i := i + 1;
    }
    assert ps[..i] == ps;
  }

  /** `(inferred / total) * 100`, or 0 when nothing was counted. */
  function Rate(t: Tally): (r: real)
    ensures t.total == 0 ==> r == 0.0
    ensures t.total > 0 ==> r * (t.total as real) == (t.inferred as real) * 100.0
    ensures t.inferred <= t.total ==> 0.0 <= r <= 100.0
  {
    if t.total > 0 then (t.inferred as real) / (t.total as real) * 100.0 else 0.0
  }

  /** One row of the overall table. */
  datatype ModelStats = ModelStats(model: string, inferred: nat, total: nat, rate: real)

  /** `computeModelStats`: one row per listed model, in the listed order. */
  method ComputeModelStats(models: seq<string>, pillars: seq<PillarResult>) returns (stats: seq<ModelStats>)
    ensures |stats| == |models|
    ensures forall i :: 0 <= i < |models| ==>
      && stats[i].model == models[i]
      && Tally(stats[i].inferred, stats[i].total) == Count(AllResponses(pillars), models[i])
      && stats[i].rate == Rate(Count(AllResponses(pillars), models[i]))
      && 0.0 <= stats[i].rate <= 100.0
  {
    stats := [];
    var i := 0;
    while i < |models|
      invariant 0 <= i <= |models|
      invariant |stats| == i
      invariant forall k :: 0 <= k < i ==>
        && stats[k].model == models[k]
        && Tally(stats[k].inferred, stats[k].total) == Count(AllResponses(pillars), models[k])
        && stats[k].rate == Rate(Count(AllResponses(pillars), models[k]))
    {
      var t := TallyPillars(pillars, models[i]);
      stats := stats + [ModelStats(models[i], t.inferred, t.total, Rate(t))];
      i := i + 1;
    }
  }

  /** One cell of the per-pillar table. */
  datatype PillarModelRate = PillarModelRate(pillarTitle: string, model: string, inferred: nat, total: nat, rate: real)

  /** One row of the per-pillar table: the pillar's title and a cell for every listed model. */
  datatype PillarRow = PillarRow(pillarTitle: string, modelRates: map<string, PillarModelRate>)

  /** The cell of `model` in a pillar row says what `Count` says about the pillar's responses. */
  predicate CellFor(p: PillarResult, model: string, cell: PillarModelRate) {
    var t := Count(Responses(p.questions), model);
    cell == PillarModelRate(p.title, model, t.inferred, t.total, Rate(t))
  }

  /** The per-model loop of `computePillarStats` for one pillar. */
  method PillarRowFor(models: seq<string>, p: PillarResult) returns (row: PillarRow)
    ensures row.pillarTitle == p.title
    ensures row.modelRates.Keys == set m | m in models
    ensures forall m :: m in row.modelRates ==> CellFor(p, m, row.modelRates[m])
  {
    var rates: map<string, PillarModelRate> := map[];
    var i := 0;
    while i < |models|
      invariant 0 <= i <= |models|
      invariant rates.Keys == set m | m in models[..i]
      invariant forall m :: m in rates ==> CellFor(p, m, rates[m])
    {
      var t := TallyQuestions(p.questions, models[i]);
      rates := rates[models[i] := PillarModelRate(p.title, models[i], t.inferred, t.total, Rate(t))];
      assert models[..i + 1] == models[..i] + [models[i]];
      i := i + 1;
    }
    assert models[..i] == models;
    row := PillarRow(p.title, rates);
  }

  /** `computePillarStats`: one row per pillar, in order. */
  method ComputePillarStats(models: seq<string>, pillars: seq<PillarResult>) returns (rows: seq<PillarRow>)
    ensures |rows| == |pillars|
    ensures forall i :: 0 <= i < |pillars| ==>
      && rows[i].pillarTitle == pillars[i].title
      && rows[i].modelRates.Keys == set m | m in models
      && forall m :: m in rows[i].modelRates ==> CellFor(pillars[i], m, rows[i].modelRates[m])
  {
    rows := [];
    var i := 0;
    while i < |pillars|
      invariant 0 <= i <= |pillars|
      invariant |rows| == i
      invariant forall k :: 0 <= k < i ==>
        && rows[k].pillarTitle == pillars[k].title
        && rows[k].modelRates.Keys == set m | m in models
        && forall m :: m in rows[k].modelRates ==> CellFor(pillars[k], m, rows[k].modelRates[m])
    {
      var row := PillarRowFor(models, pillars[i]);
      rows := rows + [row];
      i := i + 1;
    }
  }

  /** The sum of the per-pillar tallies of `model`. */
  function PillarSum(ps: seq<PillarResult>, model: string): Tally {
    if |ps| == 0 then Tally(0, 0)
    else PillarSum(ps[..|ps| - 1], model).Plus(Count(Responses(ps[|ps| - 1].questions), model))
  }

  /** The per-pillar cells of a model add up to its overall row. */
  lemma {:induction false} PillarTalliesSumToOverall(ps: seq<PillarResult>, model: string)
    ensures PillarSum(ps, model) == Count(AllResponses(ps), model)
  {
    if |ps| > 0 {
      PillarTalliesSumToOverall(ps[..|ps| - 1], model);
      CountAppend(AllResponses(ps[..|ps| - 1]), Responses(ps[|ps| - 1].questions), model);
    }
  }

  // -------------------------------------------------------------- colours

  /** `getRateColor` */
  function GetRateColor(rate: real): (c: string)
    ensures c == "bg-emerald-500" <==> rate >= 80.0
    ensures c == "bg-amber-500" <==> 50.0 <= rate < 80.0
    ensures c == "bg-rose-500" <==> rate < 50.0
  {
    if rate >= 80.0 then "bg-emerald-500"
    else if rate >= 50.0 then "bg-amber-500"
    else "bg-rose-500"
  }

  /** `rateColorValue` */
  function RateColorValue(rate: real): (c: string)
    ensures c == "#10b981" <==> rate >= 80.0
    ensures c == "#f59e0b" <==> 50.0 <= rate < 80.0
    ensures c == "#f43f5e" <==> rate < 50.0
  {
    if rate >= 80.0 then "#10b981"
    else if rate >= 50.0 then "#f59e0b"
    else "#f43f5e"
  }

  /** Both scales put every rate in the same band. */
  lemma ColoursAgree(rate: real)
    ensures GetRateColor(rate) == "bg-emerald-500" <==> RateColorValue(rate) == "#10b981"
    ensures GetRateColor(rate) == "bg-amber-500" <==> RateColorValue(rate) == "#f59e0b"
    ensures GetRateColor(rate) == "bg-rose-500" <==> RateColorValue(rate) == "#f43f5e"
  {
  }

  /** Multiplying by a positive number keeps a comparison. */
  lemma ScaleKeepsOrder(r: real, n: real, c: real)
    requires n > 0.0
    ensures r >= c <==> r * n >= c * n
  {
    assert (r - c) * n == r * n - c * n;
    if r < c {
      assert (c - r) * n > 0.0;
    }
  }

  /** A rate compared with a threshold is the tally compared without division. */
  lemma RateAtLeast(t: Tally, c: nat)
    requires t.total > 0
    ensures Rate(t) >= c as real <==> t.inferred * 100 >= c * t.total
  {
    var n := t.total as real;
    ScaleKeepsOrder(Rate(t), n, c as real);
    assert (t.inferred * 100) as real == (t.inferred as real) * 100.0;
    assert (c * t.total) as real == (c as real) * n;
  }

  /** The bands of a tally, stated without division. */
  lemma BandsOfTally(t: Tally)
    requires t.total > 0
    ensures GetRateColor(Rate(t)) == "bg-emerald-500" <==> t.inferred * 100 >= 80 * t.total
    ensures GetRateColor(Rate(t)) == "bg-amber-500" <==> 50 * t.total <= t.inferred * 100 < 80 * t.total
    ensures GetRateColor(Rate(t)) == "bg-rose-500" <==> t.inferred * 100 < 50 * t.total
  {
    RateAtLeast(t, 80);
    RateAtLeast(t, 50);
  }
}
