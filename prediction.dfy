/** The shared prediction routine `predict_one` of src/main.rs: it terminates the
    text with a newline, asks the model, strips the `__label__` marker from every
    label and splits the answer into parallel label and probability lists. */
module PredictionService {
  import opened Types

  /** The marker fastText puts in front of every class label. */
  const LabelPrefix: string := "__label__"

  /** Rust's `str::ends_with('\n')`; false on the empty string. */
  predicate EndsWithNewline(s: string) {
    |s| > 0 && s[|s| - 1] == '\n'
  }

  /** The text handed to the model: the input itself when it already ends in a
      newline, otherwise a copy with one newline pushed on. */
  function NormalizeText(text: string): (r: string)
    ensures EndsWithNewline(r)
    ensures |text| <= |r| <= |text| + 1 && r[..|text|] == text
    ensures EndsWithNewline(text) ==> r == text
  {
    if EndsWithNewline(text) then text else text + "\n"
  }

  /** `k.unwrap_or(1)` and `threshold.unwrap_or(0.0)`, the defaults every
      front end applies: a supplied value is used as it is, with no clamping,
      and an absent one becomes the default. */
  function ApplyDefaults(k: Option<int>, threshold: Option<F32>): (r: (int, F32))
    ensures k == Some(r.0) || (k == None && r.0 == 1)
    ensures threshold == Some(r.1) || (threshold == None && r.1 == Zero)
  {
    (k.GetOr(1), threshold.GetOr(Zero))
  }

  /** `pat` written `n` times in a row. */
  function Repeat(pat: string, n: nat): string {
    if n == 0 then [] else pat + Repeat(pat, n - 1)
  }

  /** How many copies of `pat` stand at the start of `s`, counted the way
      `trim_left_matches` consumes them. */
  function LeadingRepeats(s: string, pat: string): nat
    decreases |s|
  {
    if pat != [] && pat <= s then 1 + LeadingRepeats(s[|pat|..], pat) else 0
  }

  /** Rust's `str::trim_left_matches(pat)`: removes every leading occurrence of
      `pat`, not just the first. What is left no longer starts with `pat` and is
      no longer than `s`; an empty pattern removes nothing. */
  function TrimLeftMatches(s: string, pat: string): (r: string)
    ensures pat != [] ==> !(pat <= r)
    ensures pat == [] ==> r == s
    ensures |r| <= |s|
    decreases |s|
  {
    if pat != [] && pat <= s then TrimLeftMatches(s[|pat|..], pat) else s
  }

  /** What trimming removes is exactly `LeadingRepeats(s, pat)` copies of `pat`. */
  lemma {:induction false} TrimLeftMatchesRemovesRepeats(s: string, pat: string)
    ensures s == Repeat(pat, LeadingRepeats(s, pat)) + TrimLeftMatches(s, pat)
    decreases |s|
  {
    if pat != [] && pat <= s {
      var rest := s[|pat|..];
      TrimLeftMatchesRemovesRepeats(rest, pat);
      var n := LeadingRepeats(rest, pat);
      assert s == pat + rest;
      assert Repeat(pat, 1 + n) == pat + Repeat(pat, n);
    }
  }

  /** The trimmed label is a suffix of the original one. */
  lemma TrimLeftMatchesIsSuffix(s: string, pat: string)
    ensures var r := TrimLeftMatches(s, pat); r == s[|s| - |r|..]
  {
    TrimLeftMatchesRemovesRepeats(s, pat);
    var prefix := Repeat(pat, LeadingRepeats(s, pat));
    assert s[|prefix|..] == TrimLeftMatches(s, pat);
  }

  /** The characterisation of `TrimLeftMatchesRemovesRepeats` determines the result: whenever `s` is `n`
      copies of `pat` followed by a `t` that does not start with `pat`, trimming
      yields exactly `t` and removes exactly `n` copies. */
  lemma {:induction false} TrimLeftMatchesUnique(s: string, pat: string, n: nat, t: string)
    requires pat != [] && s == Repeat(pat, n) + t && !(pat <= t)
    ensures TrimLeftMatches(s, pat) == t
    ensures LeadingRepeats(s, pat) == n
  {
    if n == 0 {
      assert s == t;
    } else {
      var tail := Repeat(pat, n - 1) + t;
      assert s == pat + tail;
      assert pat <= s;
      assert s[|pat|..] == tail;
      TrimLeftMatchesUnique(tail, pat, n - 1, t);
    }
  }

  /** Trimming twice is trimming once. */
  lemma TrimLeftMatchesIdempotent(s: string, pat: string)
    ensures TrimLeftMatches(TrimLeftMatches(s, pat), pat) == TrimLeftMatches(s, pat)
  {
  }

  /** A label as `predict_one` returns it. */
  function StripLabel(raw: string): string {
    TrimLeftMatches(raw, LabelPrefix)
  }

  /** What the `for pred in &preds` loop builds: one stripped label and one
      probability per model prediction, in model order. */
  function SplitPredictions(preds: seq<ModelPrediction>): LabelsProbs {
    (seq(|preds|, i requires 0 <= i < |preds| => StripLabel(preds[i].rawLabel)),
     seq(|preds|, i requires 0 <= i < |preds| => preds[i].prob))
  }

  /** `predict_one(model, text, k, threshold)`. The model sees the normalised
      text with `k` and `threshold` unchanged; every model prediction yields one
      label and one probability at the same index, and no label starts with the
      `__label__` marker. */
  function PredictOne(model: FastTextModel, text: string, k: int, threshold: F32): (r: LabelsProbs)
    ensures var preds := model(NormalizeText(text), k, threshold);
      && |r.0| == |preds| && |r.1| == |preds|
      && (forall i :: 0 <= i < |preds| ==> r.0[i] == StripLabel(preds[i].rawLabel))
      && (forall i :: 0 <= i < |preds| ==> r.1[i] == preds[i].prob)
    ensures forall i :: 0 <= i < |r.0| ==> !(LabelPrefix <= r.0[i])
  {
    SplitPredictions(model(NormalizeText(text), k, threshold))
  }

  /** Adding the newline by hand changes nothing: a text without a trailing
      newline predicts exactly as that text with one. */
  lemma NormalizationIdempotent(model: FastTextModel, text: string, k: int, threshold: F32)
    requires !EndsWithNewline(text)
    ensures PredictOne(model, text, k, threshold) == PredictOne(model, text + "\n", k, threshold)
  {
  }

  /** `predict_one` as the source writes it: a copy of the text is made only
      when a newline must be pushed, and the two result vectors are filled by
      `push` in one pass over the model's predictions. */
  method RunPredictOne(model: FastTextModel, text: string, k: int, threshold: F32)
    returns (labels: seq<string>, probs: seq<F32>)
    ensures (labels, probs) == PredictOne(model, text, k, threshold)
    ensures |labels| == |probs|
  {
    var preds: seq<ModelPrediction>;
    if EndsWithNewline(text) {
      preds := model(text, k, threshold);
    } else {
      var owned := text;
      owned := owned + ['\n'];
      preds := model(owned, k, threshold);
    }
    labels, probs := [], [];
    for i := 0 to |preds|
      invariant |labels| == i && |probs| == i
      invariant forall j :: 0 <= j < i ==> labels[j] == StripLabel(preds[j].rawLabel) && probs[j] == preds[j].prob
    {
      labels := labels + [TrimLeftMatches(preds[i].rawLabel, LabelPrefix)];
      probs := probs + [preds[i].prob];
    }
    assert labels == SplitPredictions(preds).0;
    assert probs == SplitPredictions(preds).1;
  }

  /** `texts.iter().map(|txt| predict_one(model, txt, k, threshold)).collect()`:
      one result per text, at the same index, all with the same `k` and
      `threshold`. */
  function PredictEach(model: FastTextModel, texts: seq<string>, k: int, threshold: F32): (r: seq<LabelsProbs>)
    ensures |r| == |texts|
    ensures forall i :: 0 <= i < |texts| ==> r[i] == PredictOne(model, texts[i], k, threshold)
  {
    if texts == [] then []
    else [PredictOne(model, texts[0], k, threshold)] + PredictEach(model, texts[1..], k, threshold)
  }

  /** The batch result depends on the model only through its answers on the
      batch's own normalised texts; in particular an empty batch never
      consults the model. */
  lemma PredictEachReadsOnlyBatch(m1: FastTextModel, m2: FastTextModel, texts: seq<string>, k: int, threshold: F32)
    requires forall i :: 0 <= i < |texts| ==>
      m1(NormalizeText(texts[i]), k, threshold) == m2(NormalizeText(texts[i]), k, threshold)
    ensures PredictEach(m1, texts, k, threshold) == PredictEach(m2, texts, k, threshold)
  {
    var r1, r2 := PredictEach(m1, texts, k, threshold), PredictEach(m2, texts, k, threshold);
    forall i | 0 <= i < |texts| ensures r1[i] == r2[i] {
      assert r1[i] == PredictOne(m1, texts[i], k, threshold);
    }
  }
}
