/** The decisions autogluon_log_parser makes once its regular expressions have run: which
    "Fitting model" blocks become model records, the inferred best model, the top-5 list of
    the summary, the summary's lines, and format_models.

    Every regular-expression search is an input: a field that is None when the pattern did not
    match. Float parsing and the `:.4f`/`:.2f` formatting of numbers are parameters (Formats). */
module LogParser {
  import opened Common

  /** How numbers are printed: `f"{x:.4f}"`, `f"{x:.2f}"` and `str(x)` of a float. */
  datatype Formats = Formats(fixed4: real -> string, fixed2: real -> string, show: real -> string)

  // ---------------------------------------------------------------------------------------
  // Model dicts and format_models

  /** The "resources" dict of a model: cpus, gpus and the two memory figures, each optional. */
  datatype Resources = Resources(cpus: Option<int>, gpus: Option<int>, memUsed: Option<real>, memAvail: Option<real>)

  /** A model dict as format_models and the summary read it. A None resources stands for a
      missing or empty dict; metric and weights count only when non-empty, as Python's `if`
      tests them. */
  datatype Entry = Entry(
    name: string,
    score: Option<real>,
    metric: Option<string>,
    trainRt: Option<real>,
    valRt: Option<real>,
    resources: Option<Resources>,
    weights: Option<string>)  // extra["ensemble_weights"]

  predicate NonEmpty(s: Option<string>) {
    s.Some? && s.value != ""
  }

  /** sep.join(parts). */
  function Join(parts: seq<string>, sep: string): (r: string)
    ensures parts == [] ==> r == ""
    ensures parts != [] ==> parts[0] <= r
  {
    if parts == [] then ""
    else if |parts| == 1 then parts[0]
    else parts[0] + sep + Join(parts[1..], sep)
  }

  /** The runtime pieces of a line: train, then val, each only when that runtime is a number. */
  function RuntimeParts(m: Entry, fm: Formats): (parts: seq<string>)
    ensures |parts| == (if m.trainRt.Some? then 1 else 0) + (if m.valRt.Some? then 1 else 0)
    ensures m.trainRt.Some? ==> parts[0] == "train " + fm.fixed2(m.trainRt.value) + "s"
    ensures m.valRt.Some? ==> parts[|parts| - 1] == "val " + fm.fixed2(m.valRt.value) + "s"
  {
    (if m.trainRt.Some? then ["train " + fm.fixed2(m.trainRt.value) + "s"] else []) +
    (if m.valRt.Some? then ["val " + fm.fixed2(m.valRt.value) + "s"] else [])
  }

  function MemText(used: real, avail: real, fm: Formats): string {
    "mem=" + fm.show(used) + "/" + fm.show(avail) + " GB"
  }

  /** The resource pieces: cpus, gpus, and the memory piece only when both figures are there. */
  function ResourceParts(r: Resources, fm: Formats): (parts: seq<string>)
    ensures |parts| == (if r.cpus.Some? then 1 else 0) + (if r.gpus.Some? then 1 else 0) +
                       (if r.memUsed.Some? && r.memAvail.Some? then 1 else 0)
    ensures (parts != [] && "mem=" <= parts[|parts| - 1]) <==> r.memUsed.Some? && r.memAvail.Some?
    ensures r.memUsed.Some? && r.memAvail.Some? ==>
              parts[|parts| - 1] == MemText(r.memUsed.value, r.memAvail.value, fm)
    ensures r.cpus.Some? ==> parts[0] == "cpus=" + IntToString(r.cpus.value)
  {
    var cpus := if r.cpus.Some? then ["cpus=" + IntToString(r.cpus.value)] else [];
    var gpus := if r.gpus.Some? then ["gpus=" + IntToString(r.gpus.value)] else [];
    if r.memUsed.Some? && r.memAvail.Some? then
      cpus + gpus + [MemText(r.memUsed.value, r.memAvail.value, fm)]
    else
      var parts := cpus + gpus;
      assert parts != [] ==> parts[|parts| - 1][0] in {'c', 'g'};
      parts
  }

  /** One "• name: ..." line of format_models. */
  function Line(m: Entry, fm: Formats): (line: string)
    ensures "• " + m.name + ": " <= line
  {
    "• " + m.name + ": " + Details(m, fm)
  }

  /** What follows the name: score, metric, then the runtime, resource and weights pieces,
      each behind " — " when it is not empty. */
  function Details(m: Entry, fm: Formats): string {
    var scoreText := if m.score.Some? then fm.fixed4(m.score.value) else "";
    var metricText := if NonEmpty(m.metric) then " (" + m.metric.value + ")" else "";
    var rt := Join(RuntimeParts(m, fm), ", ");
    var res := if m.resources.Some? then Join(ResourceParts(m.resources.value, fm), " ") else "";
    var extra := if NonEmpty(m.weights) then "weights=" + m.weights.value else "";
    scoreText + metricText +
      (if rt != "" then " — " + rt else "") +
      (if res != "" then " — " + res else "") +
      (if extra != "" then " — " + extra else "")
  }

  /** One line per model, in order. */
  function LineList(ms: seq<Entry>, fm: Formats): (r: seq<string>)
    ensures |r| == |ms|
    ensures forall i | 0 <= i < |ms| :: r[i] == Line(ms[i], fm)
  {
    seq(|ms|, i requires 0 <= i < |ms| => Line(ms[i], fm))
  }

  lemma LineListSnoc(ms: seq<Entry>, i: nat, fm: Formats)
    requires i < |ms|
    ensures LineList(ms[..i + 1], fm) == LineList(ms[..i], fm) + [Line(ms[i], fm)]
  {
    var a := LineList(ms[..i + 1], fm);
    var b := LineList(ms[..i], fm) + [Line(ms[i], fm)];
    assert |a| == |b|;
    forall j | 0 <= j < |a|
      ensures a[j] == b[j]
    {
      assert ms[..i + 1][j] == ms[j];
      if j < i {
        assert ms[..i][j] == ms[j];
      }
    }
  }

  /** "".join(parts). */
  function Concat(parts: seq<string>): string {
    if parts == [] then "" else parts[0] + Concat(parts[1..])
  }

  /** The models format_models keeps: the first `top` when top is a positive number, all of
      them otherwise. They are never reordered. */
  function Kept(ms: seq<Entry>, top: Option<int>): (r: seq<Entry>)
    ensures top.Some? && top.value > 0 ==> |r| == if top.value < |ms| then top.value else |ms|
    ensures !(top.Some? && top.value > 0) ==> r == ms
    ensures r <= ms
  {
    if top.Some? && top.value > 0 && top.value < |ms| then ms[..top.value] else ms
  }

  const Header := "Validation models:"

  /** What format_models returns. */
  function Formatted(ms: seq<Entry>, top: Option<int>, fm: Formats): string {
    if ms == [] then "" else Concat([Header] + LineList(Kept(ms, top), fm))
  }

  /** format_models: "" for no models; otherwise the header followed by one line per kept model,
      in input order, joined with no separator. */
  method FormatModels(ms: seq<Entry>, top: Option<int>, fm: Formats) returns (r: string)
    ensures r == Formatted(ms, top, fm)
    ensures ms == [] <==> r == ""
    ensures ms != [] ==> Header <= r
  {
    if ms == [] {
      return "";
    }
    var kept := ms;
    if top.Some? && top.value > 0 {
      kept := if top.value < |ms| then ms[..top.value] else ms;
    }
    var lines := [Header];
    for i := 0 to |kept|
      invariant lines == [Header] + LineList(kept[..i], fm)
    {
      LineListSnoc(kept, i, fm);
      lines := lines + [Line(kept[i], fm)];
    }
    assert kept[..|kept|] == kept;
    r := Concat(lines);
    assert Concat(lines) == Header + Concat(lines[1..]);
  }

  /** "".join of two lists is the join of the first followed by that of the second. */
  lemma {:induction false} ConcatAppend(a: seq<string>, b: seq<string>)
    ensures Concat(a + b) == Concat(a) + Concat(b)
  {
    if a == [] {
      assert a + b == b;
    } else {
      assert (a + b)[0] == a[0] && (a + b)[1..] == a[1..] + b;
      ConcatAppend(a[1..], b);
    }
  }

  /** Whatever the docstring says, nothing is sorted: without a limit, appending models
      appends their lines, so every model keeps its input position. */
  lemma FormattedKeepsOrder(a: seq<Entry>, b: seq<Entry>, fm: Formats)
    requires a != []
    ensures Formatted(a + b, None, fm) == Formatted(a, None, fm) + Concat(LineList(b, fm))
  {
    assert LineList(a + b, fm) == LineList(a, fm) + LineList(b, fm);
    assert [Header] + LineList(a + b, fm) == ([Header] + LineList(a, fm)) + LineList(b, fm);
    ConcatAppend([Header] + LineList(a, fm), LineList(b, fm));
  }

  /** With a positive limit, the output is that of the first `top` models alone. */
  lemma FormattedTruncates(ms: seq<Entry>, top: int, fm: Formats)
    requires 0 < top < |ms|
    ensures Formatted(ms, Some(top), fm) == Formatted(ms[..top], None, fm)
  {
  }

  /** As written, two scored models come out in input order even when the second scores
      higher, and the header and both lines run together with no line break between them. */
  lemma FormattedUnsortedOneLine(lo: Entry, hi: Entry, fm: Formats)
    requires lo.score == Some(1.0) && hi.score == Some(2.0)
    ensures Formatted([lo, hi], None, fm) == Header + Line(lo, fm) + Line(hi, fm)
  {
    var parts := [Header] + LineList([lo, hi], fm);
    assert parts == [Header, Line(lo, fm), Line(hi, fm)];
    ConcatThree(Header, Line(lo, fm), Line(hi, fm));
  }

  lemma ConcatThree(a: string, b: string, c: string)
    ensures Concat([a, b, c]) == a + b + c
  {
    assert [a, b, c][1..] == [b, c] && [b, c][1..] == [c] && [c][1..] == [];
    assert Concat([c]) == c;
  }

  /** The models without a score, in input order. */
  function Unscored(ms: seq<Entry>): (r: seq<Entry>)
    ensures forall i | 0 <= i < |r| :: r[i].score.None?
    ensures multiset(Scored(ms)) + multiset(r) == multiset(ms)
  {
    if ms == [] then []
    else
      assert ms == [ms[0]] + ms[1..];
      (if ms[0].score.None? then [ms[0]] else []) + Unscored(ms[1..])
  }

  /** The order format_models' docstring and comment describe: the scored models by score,
      highest first and ties in input order, then the unscored ones in input order. */
  function ByScore(ms: seq<Entry>): (r: seq<Entry>)
    ensures multiset(r) == multiset(ms)
  {
    SortDesc(Scored(ms)) + Unscored(ms)
  }

  /** No model comes after one it should precede: a scored model is preceded only by scored
      models whose score is at least as high. */
  predicate ScoreOrdered(ms: seq<Entry>) {
    forall i, j | 0 <= i < j < |ms| && ms[j].score.Some? ::
      ms[i].score.Some? && ms[i].score.value >= ms[j].score.value
  }

  /** format_models as its docstring describes it: sorted before `top` applies, and the
      header and each model on a line of its own. */
  function SortedFormatted(ms: seq<Entry>, top: Option<int>, fm: Formats): string {
    if ms == [] then "" else Join([Header] + LineList(Kept(ByScore(ms), top), fm), "\n")
  }

  lemma ByScoreOrdered(ms: seq<Entry>)
    ensures ScoreOrdered(ByScore(ms))
  {
    var sorted := SortDesc(Scored(ms));
    SortDescDescending(Scored(ms));
    var r := ByScore(ms);
    forall i, j | 0 <= i < j < |r| && r[j].score.Some?
      ensures r[i].score.Some? && r[i].score.value >= r[j].score.value
    {
      assert j < |sorted|;
      assert r[i] == sorted[i] && r[j] == sorted[j];
    }
  }

  /** A join of at least two parts starts with the first part and the separator. */
  lemma JoinHead(head: string, rest: seq<string>, sep: string)
    requires rest != []
    ensures head + sep <= Join([head] + rest, sep)
  {
    assert ([head] + rest)[1..] == rest;
  }

  /** The corrected format_models lists a selection of the models (all of them without a
      positive limit) in score order, puts the header on a line of its own, and returns ""
      exactly when there are no models. */
  lemma SortedFormattedIntended(ms: seq<Entry>, top: Option<int>, fm: Formats)
    ensures SortedFormatted(ms, top, fm) == "" <==> ms == []
    ensures ms != [] ==> Header + "\n" <= SortedFormatted(ms, top, fm)
    ensures ScoreOrdered(Kept(ByScore(ms), top))
    ensures multiset(Kept(ByScore(ms), top)) <= multiset(ms)
    ensures !(top.Some? && top.value > 0) ==> multiset(Kept(ByScore(ms), top)) == multiset(ms)
  {
    KeptByScore(ms, top);
    if ms != [] {
      var k := Kept(ByScore(ms), top);
      assert |k| > 0;
      JoinHead(Header, LineList(k, fm), "\n");
    }
  }

  lemma KeptByScore(ms: seq<Entry>, top: Option<int>)
    ensures ScoreOrdered(Kept(ByScore(ms), top))
    ensures multiset(Kept(ByScore(ms), top)) <= multiset(ms)
    ensures |Kept(ByScore(ms), top)| == 0 <==> ms == []
  {
    var r := ByScore(ms);
    var k := Kept(r, top);
    ByScoreOrdered(ms);
    assert |r| == |ms|;
    assert k == r[..|k|];
    PrefixScoreOrdered(r, |k|);
  }

  lemma PrefixScoreOrdered(r: seq<Entry>, n: nat)
    requires n <= |r| && ScoreOrdered(r)
    ensures ScoreOrdered(r[..n]) && multiset(r[..n]) <= multiset(r)
  {
    assert r == r[..n] + r[n..];
    assert multiset(r) == multiset(r[..n]) + multiset(r[n..]);
    forall i, j | 0 <= i < j < n && r[..n][j].score.Some?
      ensures r[..n][i].score.Some? && r[..n][i].score.value >= r[..n][j].score.value
    {
      assert r[..n][i] == r[i] && r[..n][j] == r[j];
    }
  }

  /** Corrected, the two models of FormattedUnsortedOneLine come out highest score first,
      each on its own line. */
  lemma SortedFormattedSorts(lo: Entry, hi: Entry, fm: Formats)
    requires lo.score == Some(1.0) && hi.score == Some(2.0)
    ensures SortedFormatted([lo, hi], None, fm) == Header + "\n" + Line(hi, fm) + "\n" + Line(lo, fm)
  {
    var lines := LineList(ByScore([lo, hi]), fm);
    SortedFormattedNoLimit([lo, hi], fm);
    assert lines == [Line(hi, fm), Line(lo, fm)] by {
      ByScorePair(lo, hi);
      LineListPair(hi, lo, fm);
    }
    JoinAfterHeader(lines, Line(hi, fm), Line(lo, fm));
  }

  lemma ByScorePair(lo: Entry, hi: Entry)
    requires lo.score == Some(1.0) && hi.score == Some(2.0)
    ensures ByScore([lo, hi]) == [hi, lo]
  {
    ScoredPair(lo, hi);
    SortDescPair(lo, hi);
  }

  lemma ScoredPair(lo: Entry, hi: Entry)
    requires lo.score.Some? && hi.score.Some?
    ensures Scored([lo, hi]) == [lo, hi] && Unscored([lo, hi]) == []
  {
    var ms := [lo, hi];
    assert ms[0] == lo && ms[1..] == [hi] && [hi][0] == hi && [hi][1..] == [];
  }

  lemma SortDescPair(lo: Entry, hi: Entry)
    requires lo.score == Some(1.0) && hi.score == Some(2.0)
    ensures SortDesc([lo, hi]) == [hi, lo]
  {
    var ms := [lo, hi];
    assert ms[0] == lo && ms[1..] == [hi] && [hi][0] == hi && [hi][1..] == [];
    assert SortDesc([hi]) == [hi];
    assert Insert(lo, [hi]) == [hi] + Insert(lo, []);
  }

  lemma JoinAfterHeader(lines: seq<string>, a: string, b: string)
    requires lines == [a, b]
    ensures Join([Header] + lines, "\n") == Header + "\n" + a + "\n" + b
  {
    var parts := [Header] + lines;
    assert parts[1..] == [a, b] && parts[1..][1..] == [b];
    assert Join([b], "\n") == b;
    assert Join([a, b], "\n") == a + "\n" + b;
  }

  lemma LineListPair(a: Entry, b: Entry, fm: Formats)
    ensures LineList([a, b], fm) == [Line(a, fm), Line(b, fm)]
  {
    var l := LineList([a, b], fm);
    assert |l| == 2 && l[0] == Line(a, fm) && l[1] == Line(b, fm);
  }

  lemma SortedFormattedNoLimit(ms: seq<Entry>, fm: Formats)
    requires ms != []
    ensures SortedFormatted(ms, None, fm) == Join([Header] + LineList(ByScore(ms), fm), "\n")
  {
  }

  // ---------------------------------------------------------------------------------------
  // one_is_none and the model-record filter

  /** one_is_none over values, None being Null. */
  method OneIsNone(values: seq<Value>) returns (b: bool)
    ensures b <==> exists i | 0 <= i < |values| :: values[i] == Null
  {
    for i := 0 to |values|
      invariant forall j | 0 <= j < i :: values[j] != Null
    {
      if values[i] == Null {
        return true;
      }
    }
    return false;
  }

  /** The captures of the "Fitting with cpus=..., gpus=...[, mem=.../... GB]" line. */
  datatype ResourceMatch = ResourceMatch(cpus: nat, gpus: nat, mem: Option<Mem>)
  datatype Mem = Mem(used: real, avail: real)

  /** The captures of "<score> = Validation score (<metric>)", the metric already stripped. */
  datatype Validation = Validation(score: real, metric: string)

  /** What the searches found in one "Fitting model: NAME ..." block. */
  datatype Block = Block(
    name: string,
    resources: Option<ResourceMatch>,
    validation: Option<Validation>,
    trainRt: Option<real>,
    valRt: Option<real>,
    weights: Option<string>)

  /** A float capture as the Python value one_is_none sees: a float, or None. */
  function FloatValue(x: Option<real>): (v: Value)
    ensures v == Null <==> x.None?
  {
    if x.Some? then Other("float", "", x.value != 0.0, true) else Null
  }

  /** A block becomes a model record only when its training runtime, score and metric were all
      found and its resources line was: the resources dict is empty exactly when that line is
      missing. The validation runtime may be missing. */
  predicate Recorded(b: Block) {
    b.trainRt.Some? && b.validation.Some? && b.resources.Some?
  }

  function ResourcesOf(r: ResourceMatch): Resources {
    match r.mem
    case Some(m) => Resources(Some(r.cpus), Some(r.gpus), Some(m.used), Some(m.avail))
    case None => Resources(Some(r.cpus), Some(r.gpus), None, None)
  }

  /** The dict a recorded block appends. */
  function RecordOf(b: Block): (e: Entry)
    requires Recorded(b)
    ensures e.name == b.name && e.score == Some(b.validation.value.score)
    ensures e.metric == Some(b.validation.value.metric) && e.trainRt == b.trainRt && e.valRt == b.valRt
    ensures e.resources.Some? && e.resources.value.cpus.Some? && e.resources.value.gpus.Some?
  {
    Entry(b.name, Some(b.validation.value.score), Some(b.validation.value.metric), b.trainRt, b.valRt,
          Some(ResourcesOf(b.resources.value)), b.weights)
  }

  /** data['models'] after the loop over the blocks. */
  function Records(bs: seq<Block>): (r: seq<Entry>)
    ensures |r| <= |bs|
    ensures forall i | 0 <= i < |r| :: r[i].score.Some? && r[i].metric.Some? && r[i].trainRt.Some?
  {
    if bs == [] then []
    else (if Recorded(bs[0]) then [RecordOf(bs[0])] else []) + Records(bs[1..])
  }

  /** The loop over the blocks keeps their order: the records of two runs of blocks are the
      records of the first followed by those of the second. */
  lemma {:induction false} RecordsAppend(a: seq<Block>, b: seq<Block>)
    ensures Records(a + b) == Records(a) + Records(b)
  {
    if a == [] {
      assert a + b == b;
    } else {
      assert (a + b)[0] == a[0] && (a + b)[1..] == a[1..] + b;
      RecordsAppend(a[1..], b);
    }
  }

  /** Exactly the blocks that pass the filter are recorded. */
  lemma RecordsOfOne(b: Block)
    ensures Records([b]) == if Recorded(b) then [RecordOf(b)] else []
  {
    assert [b][1..] == [];
  }

  /** The filter as written: `not one_is_none([train_rt, score, metric]) and resources != {}`. */
  method RecordBlock(models: seq<Entry>, b: Block) returns (models': seq<Entry>)
    ensures models' == models + Records([b])
  {
    RecordsOfOne(b);
    var score := FloatValue(if b.validation.Some? then Some(b.validation.value.score) else None);
    var metric := if b.validation.Some? then Str(b.validation.value.metric) else Null;
    var trainRt := FloatValue(b.trainRt);
    var missing := OneIsNone([trainRt, score, metric]);
    assert missing <==> !(b.trainRt.Some? && b.validation.Some?) by {
      var vs := [trainRt, score, metric];
      assert vs[0] == trainRt && vs[1] == score && vs[2] == metric;
    }
    if !missing && b.resources.Some? {
      models' := models + [RecordOf(b)];
    } else {
      models' := models;
    }
  }

  // ---------------------------------------------------------------------------------------
  // Best model and the top list

  /** The models with a score: `[m for m in models if m.get('score') is not None]`. */
  function Scored(ms: seq<Entry>): (r: seq<Entry>)
    ensures |r| <= |ms|
    ensures forall i | 0 <= i < |r| :: r[i].score.Some?
    ensures multiset(r) <= multiset(ms)
  {
    if ms == [] then []
    else
      assert ms == [ms[0]] + ms[1..];
      (if ms[0].score.Some? then [ms[0]] else []) + Scored(ms[1..])
  }

  predicate AllScored(ms: seq<Entry>) {
    forall i | 0 <= i < |ms| :: ms[i].score.Some?
  }

  function Score(m: Entry): real
    requires m.score.Some?
  {
    m.score.value
  }

  /** `max(scored, key=score)`: the first model whose score no other model exceeds. */
  function FirstMax(ms: seq<Entry>): (k: nat)
    requires ms != [] && AllScored(ms)
    ensures k < |ms|
    ensures forall i | 0 <= i < |ms| :: Score(ms[i]) <= Score(ms[k])
    ensures forall i | 0 <= i < k :: Score(ms[i]) < Score(ms[k])
  {
    if |ms| == 1 then 0
    else
      var k := FirstMax(ms[..|ms| - 1]);
      assert forall i | 0 <= i < |ms| - 1 :: ms[..|ms| - 1][i] == ms[i];
      if Score(ms[|ms| - 1]) > Score(ms[k]) then |ms| - 1 else k
  }

  /** data['best_model']: the name the "training complete" line reports, or an inferred one. */
  datatype BestModel = Reported(name: string) | Inferred(name: string, score: real)

  const InferredNote := "Best model inferred from available scores (training may be incomplete)."

  /** A stable sort on score, highest first: a model goes before every model whose score is not
      higher, so equal scores keep their order. */
  function Insert(m: Entry, ms: seq<Entry>): (r: seq<Entry>)
    requires m.score.Some? && AllScored(ms)
    ensures AllScored(r) && |r| == |ms| + 1
    ensures multiset(r) == multiset{m} + multiset(ms)
  {
    if ms == [] || Score(m) >= Score(ms[0]) then [m] + ms
    else
      assert ms == [ms[0]] + ms[1..];
      [ms[0]] + Insert(m, ms[1..])
  }

  function SortDesc(ms: seq<Entry>): (r: seq<Entry>)
    requires AllScored(ms)
    ensures AllScored(r) && |r| == |ms|
    ensures multiset(r) == multiset(ms)
  {
    if ms == [] then []
    else
      assert ms == [ms[0]] + ms[1..];
      Insert(ms[0], SortDesc(ms[1..]))
  }

  predicate Descending(ms: seq<Entry>)
    requires AllScored(ms)
  {
    forall i, j | 0 <= i < j < |ms| :: Score(ms[i]) >= Score(ms[j])
  }

  lemma {:induction false} InsertDescending(m: Entry, ms: seq<Entry>)
    requires m.score.Some? && AllScored(ms) && Descending(ms)
    ensures Descending(Insert(m, ms))
  {
    if ms != [] && Score(m) < Score(ms[0]) {
      InsertDescending(m, ms[1..]);
      var r := Insert(m, ms);
      assert r == [ms[0]] + Insert(m, ms[1..]);
      assert multiset(Insert(m, ms[1..])) == multiset{m} + multiset(ms[1..]);
      forall j | 1 <= j < |r|
        ensures Score(r[0]) >= Score(r[j])
      {
        assert r[j] in multiset(Insert(m, ms[1..]));
        assert r[j] == m || r[j] in ms[1..];
      }
    }
  }

  /** SortDesc orders by score, highest first. */
  lemma {:induction false} SortDescDescending(ms: seq<Entry>)
    requires AllScored(ms)
    ensures Descending(SortDesc(ms))
  {
    if ms != [] {
      SortDescDescending(ms[1..]);
      InsertDescending(ms[0], SortDesc(ms[1..]));
    }
  }

  /** The models of a list with a given score, in order. */
  function WithScore(ms: seq<Entry>, v: real): seq<Entry> {
    if ms == [] then []
    else (if ms[0].score == Some(v) then [ms[0]] else []) + WithScore(ms[1..], v)
  }

  lemma {:induction false} InsertKeepsTies(m: Entry, ms: seq<Entry>, v: real)
    requires m.score.Some? && AllScored(ms)
    ensures WithScore(Insert(m, ms), v) == WithScore([m] + ms, v)
  {
    if ms != [] && Score(m) < Score(ms[0]) {
      var rest := Insert(m, ms[1..]);
      InsertKeepsTies(m, ms[1..], v);
      var h0 := if ms[0].score == Some(v) then [ms[0]] else [];
      var hm := if m.score == Some(v) then [m] else [];
      assert h0 == [] || hm == [];
      var r := [ms[0]] + rest;
      assert r[0] == ms[0] && r[1..] == rest;
      assert WithScore(r, v) == h0 + WithScore(rest, v);
      assert ([m] + ms[1..])[0] == m && ([m] + ms[1..])[1..] == ms[1..];
      assert WithScore(rest, v) == hm + WithScore(ms[1..], v);
      assert ([m] + ms)[0] == m && ([m] + ms)[1..] == ms;
      assert WithScore([m] + ms, v) == hm + WithScore(ms, v);
      assert WithScore(ms, v) == h0 + WithScore(ms[1..], v);
    }
  }

  /** The sort is stable: the models that share a score come out in their input order. */
  lemma {:induction false} SortDescStable(ms: seq<Entry>, v: real)
    requires AllScored(ms)
    ensures WithScore(SortDesc(ms), v) == WithScore(ms, v)
  {
    if ms != [] {
      SortDescStable(ms[1..], v);
      InsertKeepsTies(ms[0], SortDesc(ms[1..]), v);
      assert ([ms[0]] + SortDesc(ms[1..]))[1..] == SortDesc(ms[1..]);
    }
  }

  /** The models the summary lists: the scored ones, highest score first, at most five. */
  function TopModels(ms: seq<Entry>): (r: seq<Entry>)
    ensures |r| <= 5 && AllScored(r)
    ensures |r| == if |Scored(ms)| < 5 then |Scored(ms)| else 5
  {
    var sorted := SortDesc(Scored(ms));
    if |sorted| <= 5 then sorted else sorted[..5]
  }

  /** The top list is in descending order of score and every model in it is one of the
      scored models; it holds all of them when there are at most five, and otherwise every
      scored model left off scores no higher than the last one listed. */
  lemma TopModelsOrdered(ms: seq<Entry>)
    ensures Descending(TopModels(ms))
    ensures multiset(TopModels(ms)) <= multiset(Scored(ms))
    ensures |Scored(ms)| <= 5 ==> multiset(TopModels(ms)) == multiset(Scored(ms))
    ensures TopModels(ms) != [] ==>
              forall m | m in multiset(Scored(ms)) - multiset(TopModels(ms)) ::
                m.score.Some? && m.score.value <= Score(TopModels(ms)[|TopModels(ms)| - 1])
  {
    var sorted := SortDesc(Scored(ms));
    SortDescDescending(Scored(ms));
    if |sorted| > 5 {
      PrefixOfSorted(sorted, 5);
      PrefixKeepsHighest(sorted, 5);
    }
  }

  lemma PrefixOfSorted(s: seq<Entry>, n: nat)
    requires n <= |s| && AllScored(s) && Descending(s)
    ensures AllScored(s[..n]) && Descending(s[..n])
    ensures multiset(s[..n]) <= multiset(s)
  {
    assert s == s[..n] + s[n..];
    assert multiset(s) == multiset(s[..n]) + multiset(s[n..]);
  }

  /** What a prefix of a descending list leaves off scores no higher than its last element. */
  lemma PrefixKeepsHighest(s: seq<Entry>, n: nat)
    requires 0 < n <= |s| && AllScored(s) && Descending(s)
    ensures forall m | m in multiset(s) - multiset(s[..n]) :: m.score.Some? && m.score.value <= Score(s[n - 1])
  {
    var tail := s[n..];
    assert s == s[..n] + tail;
    assert multiset(s) == multiset(s[..n]) + multiset(tail);
    forall m | m in multiset(s) - multiset(s[..n])
      ensures m.score.Some? && m.score.value <= Score(s[n - 1])
    {
      assert multiset(tail)[m] > 0;
      var k :| 0 <= k < |tail| && tail[k] == m;
      assert s[n + k] == m;
    }
  }

  /** One line of the summary's top list. */
  function TopLine(m: Entry, fm: Formats): string
    requires m.score.Some?
  {
    var metricText := if NonEmpty(m.metric) then " (" + m.metric.value + ")" else "";
    var trainText := if m.trainRt.Some? then ", train " + fm.show(m.trainRt.value) + "s" else "";
    var valText := if m.valRt.Some? then ", val " + fm.show(m.valRt.value) + "s" else "";
    "• " + m.name + ": " + fm.fixed4(Score(m)) + metricText + trainText + valText
  }

  function TopLines(ms: seq<Entry>, fm: Formats): (r: seq<string>)
    requires AllScored(ms)
    ensures |r| == |ms|
    ensures forall i | 0 <= i < |ms| :: r[i] == TopLine(ms[i], fm)
  {
    seq(|ms|, i requires 0 <= i < |ms| => TopLine(ms[i], fm))
  }

  // ---------------------------------------------------------------------------------------
  // parse_autogluon_log

  datatype Split = Split(holdoutFrac: real, trainRows: int, valRows: int)
  datatype Features = Features(original: int, processed: int)
  datatype Completion = Completion(totalRuntime: real, bestName: string, throughput: real, batchSize: int)

  /** What the searches found in the whole log (captures already stripped where the parser
      strips them). */
  datatype LogFacts = LogFacts(
    rows: Option<int>,
    cols: Option<int>,
    labelColumn: Option<string>,
    problemType: Option<string>,
    metric: Option<string>,
    split: Option<Split>,
    features: Option<Features>,
    processedMemMb: Option<real>,
    blocks: seq<Block>,
    completion: Option<Completion>,  // "training complete, total runtime = ... Best model: ..."
    modelDir: Option<string>,
    calibrationNote: Option<string>)   // the "Disabling decision threshold calibration" line

  /** What the parser returns, as far as this model follows it: "models" holds the text
      format_models made of the records, not the records themselves. */
  datatype ParseResult = ParseResult(models: string, bestModel: Option<BestModel>, notes: seq<string>, summary: string)

  /** The best model: the reported one when training completed; otherwise the first
      highest-scoring record, when any record has a score. */
  function Best(facts: LogFacts, records: seq<Entry>): Option<BestModel> {
    if facts.completion.Some? then Some(Reported(facts.completion.value.bestName))
    else
      var scored := Scored(records);
      if scored == [] then None
      else
        var k := FirstMax(scored);
        Some(Inferred(scored[k].name, Score(scored[k])))
  }

  /** data['notes']: the inference note when the best model was inferred, then the
      calibration note when the log has one. */
  function Notes(facts: LogFacts, records: seq<Entry>): seq<string> {
    (if facts.completion.None? && Scored(records) != [] then [InferredNote] else []) +
    (if facts.calibrationNote.Some? then [facts.calibrationNote.value] else [])
  }

  /** fmt(x): "?" for None. */
  function OrUnknown<T>(o: Option<T>, show: T -> string): string {
    if o.Some? then show(o.value) else "?"
  }

  function IntText(i: int): string { IntToString(i) }
  function Same(s: string): string { s }

  predicate TruthyInt(o: Option<int>) { o.Some? && o.value != 0 }

  const SummaryHeader := "AutoGluon Tabular run summary"

  function TopPart(lines: seq<string>): string {
    "- Validation scores (top):\n  " + Join(lines, "\n  ")
  }

  function Bulleted(notes: seq<string>): (r: seq<string>)
    ensures |r| == |notes|
  {
    seq(|notes|, i requires 0 <= i < |notes| => "• " + notes[i])
  }

  /** summary_parts, in order. */
  function SummaryParts(facts: LogFacts, records: seq<Entry>, fm: Formats): seq<string> {
    var best := Best(facts, records);
    var notes := Notes(facts, records);
    var trainRows := if facts.split.Some? then Some(facts.split.value.trainRows) else None;
    var valRows := if facts.split.Some? then Some(facts.split.value.valRows) else None;
    var top := TopModels(records);
    [SummaryHeader] +
    (if TruthyInt(facts.rows) || TruthyInt(facts.cols) || NonEmpty(facts.labelColumn) || NonEmpty(facts.problemType)
     then ["- Dataset: " + OrUnknown(facts.rows, IntText) + " rows, " + OrUnknown(facts.cols, IntText) +
           " cols | label='" + OrUnknown(facts.labelColumn, Same) + "' | problem=" + OrUnknown(facts.problemType, Same)]
     else []) +
    (if TruthyInt(trainRows) || TruthyInt(valRows) || NonEmpty(facts.metric)
     then ["- Split: train=" + OrUnknown(trainRows, IntText) + " | val=" + OrUnknown(valRows, IntText) +
           " | metric=" + OrUnknown(facts.metric, Same)]
     else []) +
    (if facts.features.Some?
     then ["- Features: " + IntToString(facts.features.value.original) + " → " +
           IntToString(facts.features.value.processed) + " processed" +
           (if facts.processedMemMb.Some? then ", processed mem ~" + fm.show(facts.processedMemMb.value) + " MB" else "")]
     else []) +
    (if top != [] then [TopPart(TopLines(top, fm))] else []) +
    (if best.Some? && best.value.name != "" then ["- Best model: " + best.value.name] else []) +
    (if facts.completion.Some? then ["- Total training runtime: " + fm.show(facts.completion.value.totalRuntime) + "s"] else []) +
    (if NonEmpty(facts.modelDir) then ["- Models saved to: " + facts.modelDir.value] else []) +
    (if facts.completion.Some?
     then ["- Inference throughput (est): " + fm.show(facts.completion.value.throughput) + " rows/s" +
           " @ batch " + IntToString(facts.completion.value.batchSize)]
     else []) +
    (if notes != [] then ["- Notes:\n  " + Join(Bulleted(notes), "\n  ")] else [])
  }

  function Parsed(facts: LogFacts, fm: Formats): ParseResult {
    var records := Records(facts.blocks);
    ParseResult(Formatted(records, None, fm), Best(facts, records), Notes(facts, records),
                Join(SummaryParts(facts, records, fm), "\n"))
  }

  /** parse_autogluon_log from the searches' results: the records are collected block by
      block, the best model and the notes are settled, the summary is built, and the records
      are replaced by their formatted text. */
  method ParseLog(facts: LogFacts, fm: Formats) returns (r: ParseResult)
    ensures r == Parsed(facts, fm)
  {
    var models: seq<Entry> := [];
    for i := 0 to |facts.blocks|
      invariant models == Records(facts.blocks[..i])
    {
      models := RecordBlock(models, facts.blocks[i]);
      RecordsAppend(facts.blocks[..i], [facts.blocks[i]]);
      assert facts.blocks[..i + 1] == facts.blocks[..i] + [facts.blocks[i]];
    }
    assert facts.blocks[..|facts.blocks|] == facts.blocks;
    var text := FormatModels(models, None, fm);
    r := ParseResult(text, Best(facts, models), Notes(facts, models), Join(SummaryParts(facts, models, fm), "\n"));
  }

  /** When training did not complete and some record has a score, the best model is the first
      record with the highest score, marked as inferred, and the inference note comes first;
      when no record has a score there is no best model and the notes hold at most the
      calibration note. */
  lemma BestModelFallback(facts: LogFacts, records: seq<Entry>)
    requires facts.completion.None?
    ensures Scored(records) == [] <==> Best(facts, records).None?
    ensures Scored(records) == [] ==> |Notes(facts, records)| <= 1
    ensures Scored(records) != [] ==>
              Notes(facts, records)[0] == InferredNote &&
              exists k | 0 <= k < |Scored(records)| ::
                Best(facts, records) == Some(Inferred(Scored(records)[k].name, Score(Scored(records)[k]))) &&
                (forall i | 0 <= i < |Scored(records)| :: Score(Scored(records)[i]) <= Score(Scored(records)[k])) &&
                (forall i | 0 <= i < k :: Score(Scored(records)[i]) < Score(Scored(records)[k]))
  {
    if Scored(records) != [] {
      var k := FirstMax(Scored(records));
      assert Best(facts, records) == Some(Inferred(Scored(records)[k].name, Score(Scored(records)[k])));
    }
  }

  /** When training completed, the reported name is the best model and no note is inferred. */
  lemma BestModelReported(facts: LogFacts, records: seq<Entry>)
    requires facts.completion.Some?
    ensures Best(facts, records) == Some(Reported(facts.completion.value.bestName))
    ensures InferredNote !in Notes(facts, records) || facts.calibrationNote == Some(InferredNote)
  {
  }

  /** The summary always starts with its title, and it has the top-list part whenever some
      record has a score; that part lists at most five models. */
  lemma SummaryShape(facts: LogFacts, fm: Formats)
    ensures SummaryHeader <= Parsed(facts, fm).summary
    ensures var records := Records(facts.blocks);
            Scored(records) != [] ==>
              TopPart(TopLines(TopModels(records), fm)) in SummaryParts(facts, records, fm) &&
              |TopLines(TopModels(records), fm)| <= 5
  {
  }
}
