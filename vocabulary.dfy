/**
 * Vocabulary construction and lookup (onmt/inputters/vocabulary.py).
 *
 * A torchtext vocabulary is modelled by its index-to-token list `itos`, whose
 * tokens are distinct, and by its default index, the index returned for a
 * token that is not in `itos` once `set_default_index` has been called.
 */
module Vocabulary {
  import opened Results
  import opened Scores
  import opened Sorting

  const PadWord: string := "<blank>"
  const UnkWord: string := "<unk>"
  const BosWord: string := "<s>"
  const EosWord: string := "</s>"

  /** The special tokens put in front of the source and the target vocabulary. */
  const SrcSpecials: seq<string> := [UnkWord, PadWord, EosWord]
  const TgtSpecials: seq<string> := [UnkWord, PadWord, BosWord, EosWord]

  datatype Vocab = Vocab(itos: seq<string>, default: Option<nat>)

  /** One example of a dataset: its source tokens and its target tokens. */
  datatype Example = Example(src: seq<string>, tgt: seq<string>)

  /** The options `create_vocab` reads: the two size limits, which it never applies. */
  datatype VocabOptions = VocabOptions(srcVocabSize: int, tgtVocabSize: int)

  /** The `RuntimeError`s torchtext raises. */
  datatype VocabError =
    | TokenExists(token: string)
    | InsertIndexOutOfRange(index: nat)
    | NoDefaultIndex(token: string)

  /** A `collections.Counter`: each distinct token with its count, in insertion order. */
  type Counts = seq<(string, nat)>

  // ---------------------------------------------------------------------------
  // Counting

  /** The tokens of a counter, in its order. */
  function Keys(c: Counts): (ks: seq<string>)
    ensures |ks| == |c| && forall i :: 0 <= i < |c| ==> ks[i] == c[i].0
  {
    if c == [] then [] else [c[0].0] + Keys(c[1..])
  }

  /** Counting one more occurrence of `t`: an existing entry is incremented in place, a new token goes last. */
  function Tally(c: Counts, t: string): Counts {
    if c == [] then [(t, 1)]
    else if c[0].0 == t then [(t, c[0].1 + 1)] + c[1..]
    else [c[0]] + Tally(c[1..], t)
  }

  /** `Counter.update(ts)`: every token of `ts`, from left to right. */
  function Update(c: Counts, ts: seq<string>): Counts {
    if ts == [] then c else Tally(Update(c, ts[..|ts| - 1]), ts[|ts| - 1])
  }

  /** The distinct tokens of `ts` in order of first occurrence: the reference for a counter's order. */
  function Dedup(ts: seq<string>): seq<string> {
    if ts == [] then []
    else
      var d := Dedup(ts[..|ts| - 1]);
      if ts[|ts| - 1] in d then d else d + [ts[|ts| - 1]]
  }

  /** The number of occurrences of `t` in `ts`. */
  function Occurrences(ts: seq<string>, t: string): nat {
    multiset(ts)[t]
  }

  /** The counter is exact for `ts`: its tokens are those of `ts`, each once, in first-occurrence order, with their number of occurrences. */
  ghost predicate ExactCounter(c: Counts, ts: seq<string>) {
    && Keys(c) == Dedup(ts)
    && (forall i :: 0 <= i < |c| ==> c[i].1 == Occurrences(ts, c[i].0))
  }

  lemma {:induction false} DedupDistinct(ts: seq<string>)
    ensures Distinct(Dedup(ts))
    ensures forall t :: t in Dedup(ts) <==> t in ts
  {
    if ts != [] {
      var init := ts[..|ts| - 1];
      DedupDistinct(init);
      SplitLast(ts);
      forall t ensures t in ts <==> t in init || t == ts[|ts| - 1] {
        assert t in ts <==> t in multiset(ts);
      }
    }
  }

  /** Tallying `t` keeps the keys, or appends `t` when it is new. */
  lemma {:induction false} TallyKeys(c: Counts, t: string)
    ensures Keys(Tally(c, t)) == if t in Keys(c) then Keys(c) else Keys(c) + [t]
  {
    if c != [] {
      assert Keys(c) == [c[0].0] + Keys(c[1..]);
      if c[0].0 != t {
        TallyKeys(c[1..], t);
        assert Keys(Tally(c, t)) == [c[0].0] + Keys(Tally(c[1..], t));
        assert t in Keys(c) <==> t in Keys(c[1..]);
      } else {
        assert Keys(Tally(c, t)) == [t] + Keys(c[1..]);
      }
    }
  }

  /** Tallying `t` adds one to the count of `t` and to nothing else; a new `t` starts at one. */
  lemma {:induction false} TallyCounts(c: Counts, t: string)
    requires Distinct(Keys(c))
    ensures |Tally(c, t)| == if t in Keys(c) then |c| else |c| + 1
    ensures forall i :: 0 <= i < |c| ==> Tally(c, t)[i].1 == c[i].1 + (if c[i].0 == t then 1 else 0)
    ensures t !in Keys(c) ==> Tally(c, t)[|c|].1 == 1
  {
    TallyKeys(c, t);
    if c != [] {
      assert Keys(c) == [c[0].0] + Keys(c[1..]);
      if c[0].0 != t {
        TallyCounts(c[1..], t);
        var r := Tally(c[1..], t);
        assert Tally(c, t) == [c[0]] + r;
        forall i | 0 <= i < |c| ensures Tally(c, t)[i].1 == c[i].1 + (if c[i].0 == t then 1 else 0) {
          if i > 0 {
            assert Tally(c, t)[i] == r[i - 1];
            assert c[i] == c[1..][i - 1];
          }
        }
      } else {
        forall i | 0 < i < |c| ensures c[i].0 != t {
          assert Keys(c)[i] != Keys(c)[0];
        }
      }
    }
  }

  /** A counter built by `Update` from nothing is exact. */
  lemma {:induction false} UpdateCounts(ts: seq<string>)
    ensures ExactCounter(Update([], ts), ts)
  {
    if ts != [] {
      var init, t := ts[..|ts| - 1], ts[|ts| - 1];
      var c := Update([], init);
      UpdateCounts(init);
      SplitLast(ts);
      assert Update([], ts) == Tally(c, t);
      TallyKeys(c, t);
      UpdateCountsStep(c, init, t);
    }
  }

  lemma {:induction false} UpdateCountsStep(c: Counts, init: seq<string>, t: string)
    requires ExactCounter(c, init)
    ensures forall i :: 0 <= i < |Tally(c, t)| ==> Tally(c, t)[i].1 == Occurrences(init + [t], Tally(c, t)[i].0)
  {
    DedupDistinct(init);
    TallyCounts(c, t);
    TallyKeys(c, t);
    var c' := Tally(c, t);
    forall i | 0 <= i < |c'| ensures c'[i].1 == Occurrences(init + [t], c'[i].0) {
      var x := c'[i].0;
      OccurrencesAppend(init, t, x);
      if i < |c| {
        assert Keys(c')[i] == Keys(c)[i];
        assert x == c[i].0;
        assert c[i].1 == Occurrences(init, x);
        assert c'[i].1 == Occurrences(init, x) + (if x == t then 1 else 0);
      } else {
        assert Keys(c')[i] == t;
        assert t !in init;
        assert Occurrences(init, t) == 0;
        assert x == t && c'[i].1 == 1;
      }
    }
  }

  lemma {:induction false} OccurrencesAppend(ts: seq<string>, t: string, x: string)
    ensures Occurrences(ts + [t], x) == Occurrences(ts, x) + if x == t then 1 else 0
  {
    assert multiset(ts + [t]) == multiset(ts) + multiset{t};
  }

  /** `Update` is a left fold: updating with `a` and then `b` is updating with `a + b`. */
  lemma {:induction false} UpdateAppend(c: Counts, a: seq<string>, b: seq<string>)
    ensures Update(Update(c, a), b) == Update(c, a + b)
  {
    if b != [] {
      UpdateAppend(c, a, b[..|b| - 1]);
      assert (a + b)[..|a + b| - 1] == a + b[..|b| - 1];
    } else {
      assert a + b == a;
    }
  }

  // ---------------------------------------------------------------------------
  // Datasets

  /** The source tokens of the examples, in order. */
  function SrcTokens(examples: seq<Example>): seq<string> {
    if examples == [] then [] else SrcTokens(examples[..|examples| - 1]) + examples[|examples| - 1].src
  }

  function TgtTokens(examples: seq<Example>): seq<string> {
    if examples == [] then [] else TgtTokens(examples[..|examples| - 1]) + examples[|examples| - 1].tgt
  }

  /** The source tokens of every dataset, in order. */
  function AllSrcTokens(datasets: seq<seq<Example>>): seq<string> {
    if datasets == [] then [] else AllSrcTokens(datasets[..|datasets| - 1]) + SrcTokens(datasets[|datasets| - 1])
  }

  function AllTgtTokens(datasets: seq<seq<Example>>): seq<string> {
    if datasets == [] then [] else AllTgtTokens(datasets[..|datasets| - 1]) + TgtTokens(datasets[|datasets| - 1])
  }

  lemma {:induction false} SrcTokensStep(examples: seq<Example>, e: nat)
    requires e < |examples|
    ensures SrcTokens(examples[..e + 1]) == SrcTokens(examples[..e]) + examples[e].src
    ensures TgtTokens(examples[..e + 1]) == TgtTokens(examples[..e]) + examples[e].tgt
  {
    assert examples[..e + 1][..e] == examples[..e];
  }

  lemma {:induction false} AllTokensStep(datasets: seq<seq<Example>>, d: nat)
    requires d < |datasets|
    ensures AllSrcTokens(datasets[..d + 1]) == AllSrcTokens(datasets[..d]) + SrcTokens(datasets[d])
    ensures AllTgtTokens(datasets[..d + 1]) == AllTgtTokens(datasets[..d]) + TgtTokens(datasets[d])
  {
    assert datasets[..d + 1][..d] == datasets[..d];
  }

  /** Counts the examples of one dataset into the two counters (vocabulary.py:26-32). */
  method CountExamples(examples: seq<Example>, src0: Counts, tgt0: Counts) returns (src: Counts, tgt: Counts)
    ensures src == Update(src0, SrcTokens(examples))
    ensures tgt == Update(tgt0, TgtTokens(examples))
  {
    src, tgt := src0, tgt0;
    var e := 0;
    assert examples[..0] == [];
    while e < |examples|
      invariant e <= |examples|
      invariant src == Update(src0, SrcTokens(examples[..e]))
      invariant tgt == Update(tgt0, TgtTokens(examples[..e]))
    {
      SrcTokensStep(examples, e);
      UpdateAppend(src0, SrcTokens(examples[..e]), examples[e].src);
      UpdateAppend(tgt0, TgtTokens(examples[..e]), examples[e].tgt);
      src := Update(src, examples[e].src);
      tgt := Update(tgt, examples[e].tgt);
      e := e + 1;
    }
    assert examples[..e] == examples;
  }

  /**
   * The two `Counter.update` loops of `create_vocab`: every example of every
   * dataset, in order, source tokens into one counter and target tokens into
   * the other.
   */
  method CountDatasets(datasets: seq<seq<Example>>) returns (src: Counts, tgt: Counts)
    ensures src == Update([], AllSrcTokens(datasets))
    ensures tgt == Update([], AllTgtTokens(datasets))
  {
    src, tgt := [], [];
    var d := 0;
    assert datasets[..0] == [];
    while d < |datasets|
      invariant d <= |datasets|
      invariant src == Update([], AllSrcTokens(datasets[..d]))
      invariant tgt == Update([], AllTgtTokens(datasets[..d]))
    {
      AllTokensStep(datasets, d);
      UpdateAppend([], AllSrcTokens(datasets[..d]), SrcTokens(datasets[d]));
      UpdateAppend([], AllTgtTokens(datasets[..d]), TgtTokens(datasets[d]));
      src, tgt := CountExamples(datasets[d], src, tgt);
      d := d + 1;
    }
    assert datasets[..d] == datasets;
  }

  // ---------------------------------------------------------------------------
  // Frequency order

  function FreqKey(p: (string, nat)): ExtInt {
    Fin(p.1)
  }

  /** The counted tokens sorted by non-increasing frequency with a stable sort (vocabulary.py:33-38). */
  function FreqOrder(ts: seq<string>): seq<string> {
    Keys(SortDesc(Update([], ts), FreqKey))
  }

  /** The tokens of `s` that occur exactly `f` times in `ts`, in their order in `s`. */
  function WithCount(s: seq<string>, ts: seq<string>, f: nat): seq<string> {
    if s == [] then [] else (if Occurrences(ts, s[0]) == f then [s[0]] else []) + WithCount(s[1..], ts, f)
  }

  /** Every entry of the counter carries the true count of its token. */
  ghost predicate ExactCounts(c: Counts, ts: seq<string>) {
    forall i :: 0 <= i < |c| ==> c[i].1 == Occurrences(ts, c[i].0)
  }

  lemma {:induction false} KeysWithKey(c: Counts, ts: seq<string>, f: nat)
    requires ExactCounts(c, ts)
    ensures Keys(WithKey(c, FreqKey, Fin(f))) == WithCount(Keys(c), ts, f)
  {
    if c != [] {
      KeysWithKey(c[1..], ts, f);
      assert Keys(c)[1..] == Keys(c[1..]);
      var head := if FreqKey(c[0]) == Fin(f) then [c[0]] else [];
      assert Keys(head + WithKey(c[1..], FreqKey, Fin(f))) == Keys(head) + Keys(WithKey(c[1..], FreqKey, Fin(f)));
    }
  }

  lemma {:induction false} PermutationKeepsExactCounts(c: Counts, d: Counts, ts: seq<string>)
    requires ExactCounts(c, ts) && multiset(d) == multiset(c)
    ensures ExactCounts(d, ts)
  {
    forall i | 0 <= i < |d| ensures d[i].1 == Occurrences(ts, d[i].0) {
      assert d[i] in multiset(c);
    }
  }

  /** The counted tokens, sorted by frequency, carry their true counts. */
  lemma {:induction false} SortedCountsExact(ts: seq<string>)
    ensures ExactCounts(SortDesc(Update([], ts), FreqKey), ts)
  {
    UpdateCounts(ts);
    PermutationKeepsExactCounts(Update([], ts), SortDesc(Update([], ts), FreqKey), ts);
  }

  /** The non-special part of a vocabulary holds every token of `ts` and nothing else. */
  lemma {:induction false} FreqOrderTokens(ts: seq<string>)
    ensures forall t :: t in FreqOrder(ts) <==> t in ts
  {
    var c := Update([], ts);
    var sorted := SortDesc(c, FreqKey);
    UpdateCounts(ts);
    DedupDistinct(ts);
    assert Keys(c) == Dedup(ts);
    var r := FreqOrder(ts);
    forall t ensures t in r <==> t in Keys(c) {
      if t in r {
        var i :| 0 <= i < |r| && r[i] == t;
        assert sorted[i] in multiset(c);
      }
      if t in Keys(c) {
        var i :| 0 <= i < |c| && Keys(c)[i] == t;
        assert c[i] in multiset(sorted);
      }
    }
  }

  /** The non-special part of a vocabulary lists each token once. */
  lemma {:induction false} FreqOrderDistinct(ts: seq<string>)
    ensures Distinct(FreqOrder(ts))
  {
    var c := Update([], ts);
    var sorted := SortDesc(c, FreqKey);
    UpdateCounts(ts);
    DedupDistinct(ts);
    var r := FreqOrder(ts);
    forall i, j | 0 <= i < j < |r| ensures r[i] != r[j] {
      if r[i] == r[j] {
        // equal tokens with exact counts are equal pairs, which a permutation of a distinct counter cannot repeat
        SortedCountsExact(ts);
        assert sorted[i] == sorted[j];
        KeysDistinctPairs(c);
        MultisetKeepsDistinct(c, sorted);
        assert false;
      }
    }
  }

  /** The non-special part of a vocabulary lists its tokens by non-increasing frequency. */
  lemma {:induction false} FreqOrderByCount(ts: seq<string>)
    ensures forall i, j :: 0 <= i < j < |FreqOrder(ts)| ==> Occurrences(ts, FreqOrder(ts)[j]) <= Occurrences(ts, FreqOrder(ts)[i])
  {
    var sorted := SortDesc(Update([], ts), FreqKey);
    SortedCountsExact(ts);
    forall i, j | 0 <= i < j < |sorted|
      ensures Occurrences(ts, FreqOrder(ts)[j]) <= Occurrences(ts, FreqOrder(ts)[i])
    {
      assert Le(FreqKey(sorted[j]), FreqKey(sorted[i]));
    }
  }

  /** Tokens of equal frequency keep the order of their first occurrence in `ts`. */
  lemma {:induction false} FreqOrderStable(ts: seq<string>)
    ensures forall f: nat :: WithCount(FreqOrder(ts), ts, f) == WithCount(Dedup(ts), ts, f)
  {
    var c := Update([], ts);
    var sorted := SortDesc(c, FreqKey);
    UpdateCounts(ts);
    SortedCountsExact(ts);
    forall f: nat ensures WithCount(FreqOrder(ts), ts, f) == WithCount(Dedup(ts), ts, f) {
      SortDescStable(c, FreqKey, Fin(f));
      KeysWithKey(sorted, ts, f);
      KeysWithKey(c, ts, f);
    }
  }

  lemma {:induction false} KeysDistinctPairs(c: Counts)
    requires Distinct(Keys(c))
    ensures Distinct(c)
  {
    forall i, j | 0 <= i < j < |c| ensures c[i] != c[j] {
      assert Keys(c)[i] != Keys(c)[j];
    }
  }

  lemma {:induction false} DistinctCounts<T>(a: seq<T>)
    requires Distinct(a)
    ensures forall x :: multiset(a)[x] <= 1
  {
    if a != [] {
      DistinctCounts(a[1..]);
      assert a == [a[0]] + a[1..];
      assert a[0] !in a[1..];
      assert multiset(a[1..])[a[0]] == 0;
    }
  }

  lemma {:induction false} MultisetKeepsDistinct<T>(a: seq<T>, b: seq<T>)
    requires Distinct(a) && multiset(b) == multiset(a)
    ensures Distinct(b)
  {
    DistinctCounts(a);
    DistinctFromCounts(b);
  }

  // ---------------------------------------------------------------------------
  // Building the vocabularies

  /** torchtext `insert_token(t, i)`: refused when `t` is present or `i` is past the end. */
  function InsertToken(itos: seq<string>, t: string, i: nat): (r: Result<seq<string>, VocabError>)
    ensures r.Ok? <==> t !in itos && i <= |itos|
    ensures r.Ok? ==> |r.value| == |itos| + 1 && r.value[i] == t && r.value[..i] == itos[..i] && r.value[i + 1..] == itos[i..]
  {
    if t in itos then Err(TokenExists(t))
    else if i > |itos| then Err(InsertIndexOutOfRange(i))
    else Ok(itos[..i] + [t] + itos[i..])
  }

  /** The `enumerate` loops of vocabulary.py:40-43: `specials[k]` inserted at index `k`, in order. */
  method InsertSpecials(itos: seq<string>, specials: seq<string>) returns (r: Result<seq<string>, VocabError>)
    requires Distinct(specials)
    ensures r.Ok? <==> forall t :: t in specials ==> t !in itos
    ensures r.Ok? ==> r.value == specials + itos
  {
    var v := itos;
    var k := 0;
    while k < |specials|
      invariant k <= |specials|
      invariant v == specials[..k] + itos
      invariant forall m :: 0 <= m < k ==> specials[m] !in itos
    {
      var inserted := InsertToken(v, specials[k], k);
      if inserted.Err? {
        assert specials[k] in itos by {
          assert specials[k] in v;
          assert specials[k] !in specials[..k];
        }
        return Err(inserted.error);
      }
      assert specials[..k + 1] == specials[..k] + [specials[k]];
      v := inserted.value;
      k := k + 1;
    }
    assert specials[..k] == specials;
    return Ok(v);
  }

  lemma {:induction false} SpecialsDistinct()
    ensures Distinct(SrcSpecials) && Distinct(TgtSpecials)
  {
    assert UnkWord[1] == 'u' && PadWord[1] == 'b' && BosWord[1] == 's' && EosWord[1] == '/';
  }

  /** The index of `t` in `itos` (torchtext `vocab[t]` for a present token). */
  function IndexOf(itos: seq<string>, t: string): (i: nat)
    requires t in itos
    ensures i < |itos| && itos[i] == t && t !in itos[..i]
  {
    if itos[0] == t then 0 else 1 + IndexOf(itos[1..], t)
  }

  /**
   * `create_vocab`: count, sort by frequency, put the special tokens in
   * front, and make `<unk>` the default index. The size options are not
   * used. Fails as torchtext does when a special token already occurs in the
   * data.
   */
  method CreateVocab(opt: VocabOptions, datasets: seq<seq<Example>>) returns (r: Result<(Vocab, Vocab), VocabError>)
    ensures r.Ok? <==>
      (forall t :: t in SrcSpecials ==> t !in AllSrcTokens(datasets)) &&
      (forall t :: t in TgtSpecials ==> t !in AllTgtTokens(datasets))
    ensures r.Ok? ==> r.value.0 == Vocab(SrcSpecials + FreqOrder(AllSrcTokens(datasets)), Some(0))
    ensures r.Ok? ==> r.value.1 == Vocab(TgtSpecials + FreqOrder(AllTgtTokens(datasets)), Some(0))
  {
    var counterSrc, counterTgt := CountDatasets(datasets);
    var finalSrc := Keys(SortDesc(counterSrc, FreqKey));
    var finalTgt := Keys(SortDesc(counterTgt, FreqKey));
    assert finalSrc == FreqOrder(AllSrcTokens(datasets));
    assert finalTgt == FreqOrder(AllTgtTokens(datasets));
    FreqOrderTokens(AllSrcTokens(datasets));
    FreqOrderTokens(AllTgtTokens(datasets));
    FreqOrderDistinct(AllSrcTokens(datasets));
    FreqOrderDistinct(AllTgtTokens(datasets));
    SpecialsDistinct();
    var src := InsertSpecials(finalSrc, SrcSpecials);
    if src.Err? {
      return Err(src.error);
    }
    var tgt := InsertSpecials(finalTgt, TgtSpecials);
    if tgt.Err? {
      return Err(tgt.error);
    }
    assert src.value[0] == UnkWord && tgt.value[0] == UnkWord;
    var unkSrc := IndexOf(src.value, UnkWord);
    var unkTgt := IndexOf(tgt.value, UnkWord);
    return Ok((Vocab(src.value, Some(unkSrc)), Vocab(tgt.value, Some(unkTgt))));
  }

  // ---------------------------------------------------------------------------
  // Lookup

  /** `get_max_index`: one more than the vocabulary's length. */
  function GetMaxIndex(v: Vocab): nat {
    |v.itos| + 1
  }

  /** torchtext lookup of one token: its index, else the default index, else an error. */
  function LookupIndex(v: Vocab, t: string): (r: Result<nat, VocabError>)
    ensures r.Ok? <==> t in v.itos || v.default.Some?
    ensures r.Ok? && t in v.itos ==> r.value < |v.itos| && v.itos[r.value] == t
    ensures r.Ok? && t !in v.itos ==> r.value == v.default.value
  {
    if t in v.itos then Ok(IndexOf(v.itos, t))
    else if v.default.Some? then Ok(v.default.value)
    else Err(NoDefaultIndex(t))
  }

  /** `get_indices`: `lookup_indices` over the tokens of one example. */
  function GetIndices(v: Vocab, example: seq<string>): (r: Result<seq<nat>, VocabError>)
    ensures r.Ok? <==> v.default.Some? || forall t :: t in example ==> t in v.itos
    ensures r.Ok? ==> |r.value| == |example|
    ensures r.Ok? ==> forall k :: 0 <= k < |example| && example[k] in v.itos ==> r.value[k] < |v.itos| && v.itos[r.value[k]] == example[k]
    ensures r.Ok? ==> forall k :: 0 <= k < |example| && example[k] !in v.itos ==> r.value[k] == v.default.value
  {
    if example == [] then Ok([])
    else
      var rest := GetIndices(v, example[..|example| - 1]);
      var last := LookupIndex(v, example[|example| - 1]);
      assert example == example[..|example| - 1] + [example[|example| - 1]];
      if rest.Err? then Err(rest.error)
      else if last.Err? then Err(last.error)
      else Ok(rest.value + [last.value])
  }

  /** With an `<unk>` default inside the vocabulary, every index is a position of `itos`, below `get_max_index - 1`. */
  lemma {:induction false} IndicesBelowMaxIndex(v: Vocab, example: seq<string>)
    requires v.default.Some? && v.default.value < |v.itos|
    ensures GetIndices(v, example).Ok?
    ensures forall k :: 0 <= k < |example| ==> GetIndices(v, example).value[k] < GetMaxIndex(v) - 1
  {
  }
}
