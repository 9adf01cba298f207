/**
 * Turning the token ids a search produced into sentences
 * (onmt/translate/translation_wrapper.py, `TranslationBuilder`).
 *
 * The ids of a prediction are looked up in the target vocabulary up to the
 * first end token. Optionally each `<unk>` is then replaced by the source word
 * the decoder attended to most, skipping a fixed stoplist of punctuation,
 * digits and filler words. `from_batch` puts a batch's outputs back into
 * dataset order and builds one translation per example.
 *
 * Attention weights are floats in the source; only their order matters, so
 * they are `ExtInt` values here, as are the scores, which are only carried.
 */
module Translation {
  import opened Results
  import opened Scores
  import opened Sorting
  import opened Vocabulary

  /** The exceptions the builder raises. */
  datatype BuildError =
    | IdOutOfRange(id: nat)          // the bare `Exception` for an id outside the vocabulary
    | NoAttentionRow(position: nat)  // `attn[i]` for an `<unk>` past the last attention row
    | LengthMismatch                 // the assertion on gold scores and predictions
    | NothingToUnpack                // unpacking the sorted zip of an empty batch
    | IndexOutOfRange                // any other `IndexError`

  /** Source words never copied over an `<unk>` (`+` occurs twice in the source's list). */
  const Stoplist: seq<string> := [
    "mmm", "ppp", "0", "2", "1", "3", "4", "5", "6", "7", "8", "9", "`", ".", "@", "%", "&", "^",
    ":", ";", ",", "\\", "\"", ")", "}", "]", "+", "?", "/", "(", "[", "{", "+", "|", "=", "-",
    "_", "$", "<nl>", "a", "b", "c"]

  /**
   * A `TranslationBuilder`'s settings, which it never changes. `dataset[x]` is
   * the raw source words of dataset example `x` (the first item of its tuple).
   */
  datatype Builder = Builder(dataset: seq<seq<string>>, vocab: Vocab, nBest: nat, hasTgt: bool, replaceUnk: bool)

  // ---------------------------------------------------------------------------
  // Looking ids up (translation_wrapper.py:50-62)

  /** The words of `pred` before its first end token, or the error for an id outside `itos` met before it. */
  function Lookup(itos: seq<string>, pred: seq<nat>): (r: Result<seq<string>, BuildError>)
    ensures r.Ok? ==> |r.value| <= |pred| && EosWord !in r.value
  {
    if pred == [] then Ok([])
    else if pred[0] >= |itos| then Err(IdOutOfRange(pred[0]))
    else if itos[pred[0]] == EosWord then Ok([])
    else Prepend([itos[pred[0]]], Lookup(itos, pred[1..]))
  }

  function Prepend(ws: seq<string>, r: Result<seq<string>, BuildError>): Result<seq<string>, BuildError> {
    match r
    case Ok(rest) => Ok(ws + rest)
    case Err(e) => Err(e)
  }

  lemma {:induction false} PrependNothing(r: Result<seq<string>, BuildError>)
    ensures Prepend([], r) == r
  {
    if r.Ok? {
      assert [] + r.value == r.value;
    }
  }

  lemma {:induction false} PrependTwice(ws: seq<string>, vs: seq<string>, r: Result<seq<string>, BuildError>)
    ensures Prepend(ws, Prepend(vs, r)) == Prepend(ws + vs, r)
  {
    if r.Ok? {
      assert ws + (vs + r.value) == (ws + vs) + r.value;
    }
  }

  /**
   * A successful lookup is the word-by-word lookup of the ids before the
   * first end token: every id before the cut is in the vocabulary, and the
   * cut is the end of `pred` or an id whose word is the end token.
   */
  lemma {:induction false} LookupOk(itos: seq<string>, pred: seq<nat>)
    requires Lookup(itos, pred).Ok?
    ensures var ws := Lookup(itos, pred).value;
      && (forall p :: 0 <= p < |ws| ==> pred[p] < |itos| && ws[p] == itos[pred[p]])
      && (|ws| == |pred| || (pred[|ws|] < |itos| && itos[pred[|ws|]] == EosWord))
  {
    if pred != [] && itos[pred[0]] != EosWord {
      LookupOk(itos, pred[1..]);
    }
  }

  /** A failed lookup met an id outside the vocabulary, and no end token before it. */
  lemma {:induction false} LookupErr(itos: seq<string>, pred: seq<nat>) returns (p: nat)
    requires Lookup(itos, pred).Err?
    ensures p < |pred| && pred[p] >= |itos| && Lookup(itos, pred).error == IdOutOfRange(pred[p])
    ensures forall q :: 0 <= q < p ==> pred[q] < |itos| && itos[pred[q]] != EosWord
  {
    if pred[0] >= |itos| {
      p := 0;
    } else {
      var p' := LookupErr(itos, pred[1..]);
      p := p' + 1;
      forall q | 1 <= q < p ensures pred[q] < |itos| && itos[pred[q]] != EosWord {
        assert pred[q] == pred[1..][q - 1];
      }
    }
  }

  /** The first loop of `_build_target_tokens`: append each id's word, stop after the end token and drop it. */
  method LookupTokens(itos: seq<string>, pred: seq<nat>) returns (r: Result<seq<string>, BuildError>)
    ensures r == Lookup(itos, pred)
  {
    var tokens: seq<string> := [];
    var i := 0;
    assert pred[0..] == pred;
    PrependNothing(Lookup(itos, pred));
    while i < |pred|
      invariant i <= |pred|
      invariant Lookup(itos, pred) == Prepend(tokens, Lookup(itos, pred[i..]))
    {
      var index := pred[i];
      assert pred[i..][1..] == pred[i + 1..];
      if index < |itos| {
        PrependTwice(tokens, [itos[index]], Lookup(itos, pred[i + 1..]));
        tokens := tokens + [itos[index]];
      } else {
        return Err(IdOutOfRange(index));
      }
      if tokens[|tokens| - 1] == EosWord {
        tokens := tokens[..|tokens| - 1];
        assert tokens + [] == tokens;
        return Ok(tokens);
      }
      i := i + 1;
    }
    assert pred[i..] == [];
    assert tokens + [] == tokens;
    return Ok(tokens);
  }

  // ---------------------------------------------------------------------------
  // Replacing unknown words (translation_wrapper.py:63-70)

  /** Source position `j` may replace an `<unk>`: it holds a source word outside the stoplist. */
  predicate Eligible(srcRaw: seq<string>, j: nat) {
    j < |srcRaw| && srcRaw[j] !in Stoplist
  }

  /** The first eligible position in `order`. */
  function FirstEligible(srcRaw: seq<string>, order: seq<nat>): (j: Option<nat>)
    ensures j.Some? ==> Eligible(srcRaw, j.value)
  {
    if order == [] then None
    else if Eligible(srcRaw, order[0]) then Some(order[0])
    else FirstEligible(srcRaw, order[1..])
  }

  /** Where `FirstEligible` found its position: nothing before it in `order` is eligible. */
  lemma {:induction false} FirstEligibleAt(srcRaw: seq<string>, order: seq<nat>) returns (p: nat)
    ensures FirstEligible(srcRaw, order).Some? ==>
      && p < |order| && order[p] == FirstEligible(srcRaw, order).value
      && forall q :: 0 <= q < p ==> !Eligible(srcRaw, order[q])
    ensures FirstEligible(srcRaw, order).None? ==> forall q :: 0 <= q < |order| ==> !Eligible(srcRaw, order[q])
  {
    if order == [] || Eligible(srcRaw, order[0]) {
      p := 0;
    } else {
      var p' := FirstEligibleAt(srcRaw, order[1..]);
      p := p' + 1;
      forall q | 1 <= q < |order| ensures order[q] == order[1..][q - 1] {
      }
    }
  }

  /**
   * The source position copied over an `<unk>` whose attention row is `row`:
   * the first eligible one when the positions are ranked by attention
   * (`attn[i].topk(len(attn[i]))`).
   */
  function Replacement(srcRaw: seq<string>, row: seq<ExtInt>): (j: Option<nat>)
    ensures j.Some? ==> Eligible(srcRaw, j.value)
  {
    FirstEligible(srcRaw, Ranked(row))
  }

  /**
   * The replacement is the eligible attended position with the highest
   * attention, and there is none exactly when no attended position is
   * eligible.
   */
  lemma {:induction false} ReplacementIsBestEligible(srcRaw: seq<string>, row: seq<ExtInt>)
    ensures Replacement(srcRaw, row).Some? ==>
      var j := Replacement(srcRaw, row).value;
      && j < |row| && Eligible(srcRaw, j)
      && forall j' :: 0 <= j' < |row| && Eligible(srcRaw, j') ==> Le(row[j'], row[j])
    ensures Replacement(srcRaw, row).None? <==> forall j' :: 0 <= j' < |row| ==> !Eligible(srcRaw, j')
  {
    var order := Ranked(row);
    RankedIsPermutation(row);
    var p := FirstEligibleAt(srcRaw, order);
    forall j' | 0 <= j' < |row| && Eligible(srcRaw, j')
      ensures Replacement(srcRaw, row).Some? && p < |order| && Le(row[j'], row[order[p]])
    {
      assert j' in order;
      var q :| 0 <= q < |order| && order[q] == j';
      if q != p {
        assert Le(At(row, order[q]), At(row, order[p]));
      }
    }
  }

  /** The word an `<unk>` becomes: the chosen source word, or `<unk>` itself when none is eligible. */
  function ReplacedWord(srcRaw: seq<string>, row: seq<ExtInt>): string {
    match Replacement(srcRaw, row)
    case Some(j) => srcRaw[j]
    case None => UnkWord
  }

  /**
   * `tokens` once the `<unk>`s among its first `n` positions are replaced, or
   * the error for the first of them that has no attention row.
   */
  function ReplacedUpTo(tokens: seq<string>, srcRaw: seq<string>, attn: seq<seq<ExtInt>>, n: nat): (r: Result<seq<string>, BuildError>)
    requires n <= |tokens|
    ensures r.Ok? ==> |r.value| == |tokens| && forall i :: n <= i < |tokens| ==> r.value[i] == tokens[i]
  {
    if n == 0 then Ok(tokens)
    else match ReplacedUpTo(tokens, srcRaw, attn, n - 1)
      case Err(e) => Err(e)
      case Ok(ws) =>
        if ws[n - 1] != UnkWord then Ok(ws)
        else if n - 1 >= |attn| then Err(NoAttentionRow(n - 1))
        else Ok(ws[n - 1 := ReplacedWord(srcRaw, attn[n - 1])])
  }

  /** Once an `<unk>` without an attention row is met, the error stands. */
  lemma {:induction false} ReplacedUpToFailed(tokens: seq<string>, srcRaw: seq<string>, attn: seq<seq<ExtInt>>, n: nat, m: nat)
    requires n <= m <= |tokens|
    requires ReplacedUpTo(tokens, srcRaw, attn, n).Err?
    ensures ReplacedUpTo(tokens, srcRaw, attn, m) == ReplacedUpTo(tokens, srcRaw, attn, n)
  {
    if n < m {
      ReplacedUpToFailed(tokens, srcRaw, attn, n, m - 1);
    }
  }

  /** Replacement fails exactly when an `<unk>` lies past the last attention row. */
  lemma {:induction false} ReplacedUpToOk(tokens: seq<string>, srcRaw: seq<string>, attn: seq<seq<ExtInt>>, n: nat)
    requires n <= |tokens|
    ensures ReplacedUpTo(tokens, srcRaw, attn, n).Ok? <==> forall i :: 0 <= i < n && tokens[i] == UnkWord ==> i < |attn|
  {
    if n > 0 {
      ReplacedUpToOk(tokens, srcRaw, attn, n - 1);
    }
  }

  /** The error names an `<unk>` position that has no attention row. */
  lemma {:induction false} ReplacedUpToErr(tokens: seq<string>, srcRaw: seq<string>, attn: seq<seq<ExtInt>>, n: nat)
    requires n <= |tokens|
    requires ReplacedUpTo(tokens, srcRaw, attn, n).Err?
    ensures var e := ReplacedUpTo(tokens, srcRaw, attn, n).error;
      e.NoAttentionRow? && e.position < n && tokens[e.position] == UnkWord && e.position >= |attn|
  {
    if ReplacedUpTo(tokens, srcRaw, attn, n - 1).Err? {
      ReplacedUpToErr(tokens, srcRaw, attn, n - 1);
    }
  }

  /**
   * Replacement keeps the length and every word other than `<unk>`, and
   * turns each `<unk>` into its replacement word.
   */
  lemma {:induction false} ReplacedUpToWords(tokens: seq<string>, srcRaw: seq<string>, attn: seq<seq<ExtInt>>, n: nat)
    requires n <= |tokens|
    requires ReplacedUpTo(tokens, srcRaw, attn, n).Ok?
    ensures forall i :: 0 <= i < n ==> tokens[i] != UnkWord ==> ReplacedUpTo(tokens, srcRaw, attn, n).value[i] == tokens[i]
    ensures forall i :: 0 <= i < n ==> tokens[i] == UnkWord ==>
      i < |attn| && ReplacedUpTo(tokens, srcRaw, attn, n).value[i] == ReplacedWord(srcRaw, attn[i])
  {
    if n > 0 {
      var prev := ReplacedUpTo(tokens, srcRaw, attn, n - 1);
      assert prev.Ok?;
      ReplacedUpToWords(tokens, srcRaw, attn, n - 1);
    }
  }

  /** The second loop of `_build_target_tokens`: each `<unk>` gets the word its attention row picks. */
  method ReplaceUnk(tokens0: seq<string>, srcRaw: seq<string>, attn: seq<seq<ExtInt>>) returns (r: Result<seq<string>, BuildError>)
    ensures r == ReplacedUpTo(tokens0, srcRaw, attn, |tokens0|)
  {
    var tokens := tokens0;
    for i := 0 to |tokens0|
      invariant ReplacedUpTo(tokens0, srcRaw, attn, i) == Ok(tokens)
    {
      if tokens[i] == UnkWord {
        if i >= |attn| {
          ReplacedUpToFailed(tokens0, srcRaw, attn, i + 1, |tokens0|);
          return Err(NoAttentionRow(i));
        }
        var word := PickReplacement(srcRaw, attn[i]);
        tokens := tokens[i := word];
      }
    }
    return Ok(tokens);
  }

  /**
   * The inner loop: walk the positions by decreasing attention and take the
   * first eligible source word; `<unk>` stays when there is none.
   */
  method PickReplacement(srcRaw: seq<string>, row: seq<ExtInt>) returns (word: string)
    ensures word == ReplacedWord(srcRaw, row)
  {
    var maxIndex := Ranked(row);
    var q := 0;
    while q < |maxIndex|
      invariant q <= |maxIndex|
      invariant FirstEligible(srcRaw, maxIndex) == FirstEligible(srcRaw, maxIndex[q..])
    {
      var maxI := maxIndex[q];
      assert maxIndex[q..][1..] == maxIndex[q + 1..];
      if maxI < |srcRaw| && srcRaw[maxI] !in Stoplist {
        return srcRaw[maxI];
      }
      q := q + 1;
    }
    return UnkWord;
  }

  // ---------------------------------------------------------------------------
  // `_build_target_tokens` (translation_wrapper.py:49-71)

  /** The sentence for the ids `pred`: the lookup, with `<unk>`s replaced when asked to and attention is given. */
  function Built(builder: Builder, pred: seq<nat>, srcRaw: seq<string>, attn: Option<seq<seq<ExtInt>>>): (r: Result<seq<string>, BuildError>)
    ensures r.Ok? ==> Lookup(builder.vocab.itos, pred).Ok? && |r.value| == |Lookup(builder.vocab.itos, pred).value|
  {
    match Lookup(builder.vocab.itos, pred)
    case Err(e) => Err(e)
    case Ok(ws) => if builder.replaceUnk && attn.Some? then ReplacedUpTo(ws, srcRaw, attn.value, |ws|) else Ok(ws)
  }

  method BuildTargetTokens(builder: Builder, pred: seq<nat>, srcRaw: seq<string>, attn: Option<seq<seq<ExtInt>>>) returns (r: Result<seq<string>, BuildError>)
    ensures r == Built(builder, pred, srcRaw, attn)
    ensures !builder.replaceUnk || attn.None? ==> r == Lookup(builder.vocab.itos, pred)
  {
    r := LookupTokens(builder.vocab.itos, pred);
    if r.Ok? && builder.replaceUnk && attn.Some? {
      r := ReplaceUnk(r.value, srcRaw, attn.value);
    }
  }

  // ---------------------------------------------------------------------------
  // `from_batch` (translation_wrapper.py:73-107)

  /** What the search hands over for a batch, one entry per example in batch order. */
  datatype TranslationBatch = TranslationBatch(
    predictions: seq<seq<seq<nat>>>,        // each example's `n_best` id sequences
    scores: seq<seq<ExtInt>>,               // their scores
    attention: seq<seq<seq<seq<ExtInt>>>>,  // their attention rows
    goldScore: seq<ExtInt>,
    indexes: seq<nat>,                      // each example's position in the dataset
    srcBatch: seq<seq<nat>>,                // the source ids, one column per example
    tgtBatch: seq<seq<nat>>)                // the gold target ids, one column per example

  /** One tuple of `zip(predictions, scores, attention, gold_score, indexes)`. */
  datatype Entry = Entry(preds: seq<seq<nat>>, scores: seq<ExtInt>, attn: seq<seq<seq<ExtInt>>>, goldScore: ExtInt, index: nat)

  /** A `TranslationWrapper`. */
  datatype Translation = Translation(
    src: seq<nat>, srcRaw: seq<string>, predSents: seq<seq<string>>, attns: seq<seq<seq<ExtInt>>>,
    predScores: seq<ExtInt>, goldSent: Option<seq<string>>, goldScore: ExtInt)

  function Min(a: nat, b: nat): nat {
    if a <= b then a else b
  }

  /** `zip` stops at the shortest list. */
  function Zip(batch: TranslationBatch): (entries: seq<Entry>) {
    var n := Min(Min(Min(|batch.predictions|, |batch.scores|), Min(|batch.attention|, |batch.goldScore|)), |batch.indexes|);
    seq(n, i requires 0 <= i < n =>
      Entry(batch.predictions[i], batch.scores[i], batch.attention[i], batch.goldScore[i], batch.indexes[i]))
  }

  /**
   * `sorted(zip(...), key=lambda x: x[-1])`: the stable sort of the tuples
   * by dataset index, which is the tuples gathered along the ascending
   * permutation of their indexes.
   */
  function SortedEntries(batch: TranslationBatch): (entries: seq<Entry>)
    ensures |entries| == |Zip(batch)|
  {
    var zipped := Zip(batch);
    var keys := seq(|zipped|, i requires 0 <= i < |zipped| => zipped[i].index);
    Gather(zipped, Ascending(keys))
  }

  /** Every entry of `perm` names a column of `columns` (`index_select` raises otherwise). */
  predicate Selectable(perm: seq<nat>, columns: seq<seq<nat>>) {
    forall b :: 0 <= b < |perm| ==> perm[b] < |columns|
  }

  /** The checks `from_batch` passes before its loop. */
  predicate Prepared(builder: Builder, batch: TranslationBatch) {
    && |batch.goldScore| == |batch.predictions|
    && |Zip(batch)| > 0
    && Selectable(Ascending(batch.indexes), batch.srcBatch)
    && (builder.hasTgt ==> Selectable(Ascending(batch.indexes), batch.tgtBatch))
  }

  /** The first `n` predicted sentences of sorted entry `b`, or the first error building them. */
  function PredSents(builder: Builder, entries: seq<Entry>, b: nat, srcRaw: seq<string>, n: nat): (r: Result<seq<seq<string>>, BuildError>)
    ensures r.Ok? ==> |r.value| == n
  {
    if n == 0 then Ok([])
    else match PredSents(builder, entries, b, srcRaw, n - 1)
      case Err(e) => Err(e)
      case Ok(sents) =>
        if b >= |entries| || n - 1 >= |entries[b].preds| || n - 1 >= |entries[b].attn| then Err(IndexOutOfRange)
        else match Built(builder, entries[b].preds[n - 1], srcRaw, Some(entries[b].attn[n - 1]))
          case Err(e) => Err(e)
          case Ok(s) => Ok(sents + [s])
  }

  /** Once building a predicted sentence fails, the error stands. */
  lemma {:induction false} PredSentsFailed(builder: Builder, entries: seq<Entry>, b: nat, srcRaw: seq<string>, n: nat, m: nat)
    requires n <= m
    requires PredSents(builder, entries, b, srcRaw, n).Err?
    ensures PredSents(builder, entries, b, srcRaw, m) == PredSents(builder, entries, b, srcRaw, n)
  {
    if n < m {
      PredSentsFailed(builder, entries, b, srcRaw, n, m - 1);
    }
  }

  /** Each of the first `n` predicted sentences is built from that prediction's ids and attention. */
  lemma {:induction false} PredSentsSpec(builder: Builder, entries: seq<Entry>, b: nat, srcRaw: seq<string>, n: nat)
    requires PredSents(builder, entries, b, srcRaw, n).Ok?
    ensures n > 0 ==> b < |entries| && n <= |entries[b].preds| && n <= |entries[b].attn|
    ensures forall k :: 0 <= k < n ==>
      b < |entries| && k < |entries[b].preds| && k < |entries[b].attn| &&
      Built(builder, entries[b].preds[k], srcRaw, Some(entries[b].attn[k])) == Ok(PredSents(builder, entries, b, srcRaw, n).value[k])
  {
    if n > 0 {
      PredSentsSpec(builder, entries, b, srcRaw, n - 1);
    }
  }

  /** `tgt[1:, b]`: a gold column without its start token. */
  function Tail(column: seq<nat>): seq<nat> {
    if column == [] then [] else column[1..]
  }

  /** The gold sentence of the `b`-th example in dataset order, when the builder has targets. */
  function GoldSent(builder: Builder, batch: TranslationBatch, b: nat, srcRaw: seq<string>): (r: Result<Option<seq<string>>, BuildError>)
    requires b < |batch.indexes| && (builder.hasTgt ==> Selectable(Ascending(batch.indexes), batch.tgtBatch))
  {
    if !builder.hasTgt then Ok(None)
    else match Built(builder, Tail(batch.tgtBatch[Ascending(batch.indexes)[b]]), srcRaw, None)
      case Err(e) => Err(e)
      case Ok(s) => Ok(Some(s))
  }

  /** One turn of `from_batch`'s loop: the translation of the `b`-th example in dataset order. */
  function TranslationFor(builder: Builder, batch: TranslationBatch, b: nat): (r: Result<Translation, BuildError>)
    requires Prepared(builder, batch)
    ensures r.Ok? ==> |r.value.predSents| == builder.nBest
  {
    var perm := Ascending(batch.indexes);
    var entries := SortedEntries(batch);
    if b >= |perm| || batch.indexes[perm[b]] >= |builder.dataset| then Err(IndexOutOfRange)
    else
      var srcRaw := builder.dataset[batch.indexes[perm[b]]];
      match PredSents(builder, entries, b, srcRaw, builder.nBest)
      case Err(e) => Err(e)
      case Ok(sents) =>
        match GoldSent(builder, batch, b, srcRaw)
        case Err(e) => Err(e)
        case Ok(gold) =>
          if b >= |entries| then Err(IndexOutOfRange)
          else Ok(Translation(batch.srcBatch[perm[b]], srcRaw, sents, entries[b].attn, entries[b].scores, gold, entries[b].goldScore))
  }

  /** `[self._build_target_tokens(preds[b][n], src_raw, attn[b][n]) for n in range(self.n_best)]`. */
  method PredictionSentences(builder: Builder, entries: seq<Entry>, b: nat, srcRaw: seq<string>) returns (r: Result<seq<seq<string>>, BuildError>)
    ensures r == PredSents(builder, entries, b, srcRaw, builder.nBest)
  {
    var sents: seq<seq<string>> := [];
    for n := 0 to builder.nBest
      invariant PredSents(builder, entries, b, srcRaw, n) == Ok(sents)
    {
      if b >= |entries| || n >= |entries[b].preds| || n >= |entries[b].attn| {
        PredSentsFailed(builder, entries, b, srcRaw, n + 1, builder.nBest);
        return Err(IndexOutOfRange);
      }
      var sent := BuildTargetTokens(builder, entries[b].preds[n], srcRaw, Some(entries[b].attn[n]));
      if sent.Err? {
        PredSentsFailed(builder, entries, b, srcRaw, n + 1, builder.nBest);
        return Err(sent.error);
      }
      sents := sents + [sent.value];
    }
    return Ok(sents);
  }

  /** The loop body of `from_batch`. */
  method TranslateExample(builder: Builder, batch: TranslationBatch, entries: seq<Entry>, perm: seq<nat>, b: nat) returns (r: Result<Translation, BuildError>)
    requires Prepared(builder, batch)
    requires entries == SortedEntries(batch) && perm == Ascending(batch.indexes)
    ensures r == TranslationFor(builder, batch, b)
  {
    if b >= |perm| || batch.indexes[perm[b]] >= |builder.dataset| {
      return Err(IndexOutOfRange);
    }
    var srcRaw := builder.dataset[batch.indexes[perm[b]]];
    var sents := PredictionSentences(builder, entries, b, srcRaw);
    if sents.Err? {
      return Err(sents.error);
    }
    var gold: Option<seq<string>> := None;
    if builder.hasTgt {
      var g := BuildTargetTokens(builder, Tail(batch.tgtBatch[perm[b]]), srcRaw, None);
      if g.Err? {
        return Err(g.error);
      }
      gold := Some(g.value);
    }
    if b >= |entries| {
      return Err(IndexOutOfRange);
    }
    return Ok(Translation(batch.srcBatch[perm[b]], srcRaw, sents.value, entries[b].attn, entries[b].scores, gold, entries[b].goldScore));
  }

  /** The result of each of the first `n` examples in dataset order. */
  function TranslationResults(builder: Builder, batch: TranslationBatch, n: nat): (rs: seq<Result<Translation, BuildError>>)
    requires Prepared(builder, batch)
    ensures |rs| == n
  {
    seq(n, b requires 0 <= b < n => TranslationFor(builder, batch, b))
  }

  /** The values of `rs` in order, or the first error among them. */
  function Collect<T, E>(rs: seq<Result<T, E>>): Result<seq<T>, E> {
    if rs == [] then Ok([])
    else match Collect(rs[..|rs| - 1])
      case Err(e) => Err(e)
      case Ok(ts) =>
        match rs[|rs| - 1]
        case Err(e) => Err(e)
        case Ok(t) => Ok(ts + [t])
  }

  /**
   * Collecting succeeds exactly when every result does, and then holds their
   * values in order; otherwise it fails with the first error.
   */
  lemma {:induction false} CollectSpec<T, E>(rs: seq<Result<T, E>>)
    ensures Collect(rs).Ok? <==> forall b :: 0 <= b < |rs| ==> rs[b].Ok?
    ensures Collect(rs).Ok? ==> |Collect(rs).value| == |rs| && forall b :: 0 <= b < |rs| ==> rs[b] == Ok(Collect(rs).value[b])
    ensures Collect(rs).Err? ==> exists b :: 0 <= b < |rs| && rs[b] == Err(Collect(rs).error) && forall c :: 0 <= c < b ==> rs[c].Ok?
  {
    if rs != [] {
      var init := rs[..|rs| - 1];
      CollectSpec(init);
      assert forall b :: 0 <= b < |init| ==> init[b] == rs[b];
    }
  }

  /** Collecting one more successful result appends its value. */
  lemma {:induction false} CollectStep<T, E>(rs: seq<Result<T, E>>, n: nat, ts: seq<T>)
    requires n < |rs| && Collect(rs[..n]) == Ok(ts) && rs[n].Ok?
    ensures Collect(rs[..n + 1]) == Ok(ts + [rs[n].value])
  {
    assert rs[..n + 1][..n] == rs[..n];
  }

  /** Collecting fails with the error of the first failing result. */
  lemma {:induction false} CollectFailedAt<T, E>(rs: seq<Result<T, E>>, n: nat)
    requires n < |rs| && Collect(rs[..n]).Ok? && rs[n].Err?
    ensures Collect(rs) == Err(rs[n].error)
  {
    assert rs[..n + 1][..n] == rs[..n];
    CollectFailed(rs, n + 1);
  }

  /** Once a result fails, collecting a longer sequence fails the same way. */
  lemma {:induction false} CollectFailed<T, E>(rs: seq<Result<T, E>>, n: nat)
    requires n <= |rs| && Collect(rs[..n]).Err?
    ensures Collect(rs) == Collect(rs[..n])
  {
    if n < |rs| {
      assert rs[..|rs| - 1][..n] == rs[..n];
      CollectFailed(rs[..|rs| - 1], n);
    } else {
      assert rs[..n] == rs;
    }
  }

  /**
   * `from_batch`: the translations of the first `batch_size` examples in
   * dataset order, or the first exception raised on the way.
   */
  method FromBatch(builder: Builder, batch: TranslationBatch, batchSize: nat) returns (r: Result<seq<Translation>, BuildError>)
    ensures |batch.goldScore| != |batch.predictions| ==> r == Err(LengthMismatch)
    ensures |batch.goldScore| == |batch.predictions| && |Zip(batch)| == 0 ==> r == Err(NothingToUnpack)
    ensures !Prepared(builder, batch) ==> r.Err?
    ensures Prepared(builder, batch) ==> r == Collect(TranslationResults(builder, batch, batchSize))
  {
    if |batch.goldScore| != |batch.predictions| {
      return Err(LengthMismatch);
    }
    var entries := SortedEntries(batch);
    if |entries| == 0 {
      return Err(NothingToUnpack);
    }
    var perm := Ascending(batch.indexes);
    if exists b :: 0 <= b < |perm| && perm[b] >= |batch.srcBatch| {
      return Err(IndexOutOfRange);
    }
    if builder.hasTgt && exists b :: 0 <= b < |perm| && perm[b] >= |batch.tgtBatch| {
      return Err(IndexOutOfRange);
    }
    r := TranslateAll(builder, batch, entries, perm, batchSize);
  }

  /** The loop of `from_batch`, once its checks have passed. */
  method TranslateAll(builder: Builder, batch: TranslationBatch, entries: seq<Entry>, perm: seq<nat>, batchSize: nat) returns (r: Result<seq<Translation>, BuildError>)
    requires Prepared(builder, batch)
    requires entries == SortedEntries(batch) && perm == Ascending(batch.indexes)
    ensures r == Collect(TranslationResults(builder, batch, batchSize))
  {
    ghost var all := TranslationResults(builder, batch, batchSize);
    var translations: seq<Translation> := [];
    assert all[..0] == [];
    for b := 0 to batchSize
      invariant Collect(all[..b]) == Ok(translations)
    {
      var t := TranslateExample(builder, batch, entries, perm, b);
      assert all[b] == t;
      if t.Err? {
        CollectFailedAt(all, b);
        return Err(t.error);
      }
      CollectStep(all, b, translations);
      translations := translations + [t.value];
    }
    assert all[..batchSize] == all;
    return Ok(translations);
  }

  /**
   * When the five lists line up, the `b`-th translation belongs to the
   * example at position `perm[b]` of the batch, where `perm` orders the batch
   * by ascending dataset index: its source, raw words, attention, scores and
   * gold score are that example's, and each predicted sentence is built from
   * that example's prediction.
   */
  lemma {:induction false} TranslationCarriesExample(builder: Builder, batch: TranslationBatch, b: nat)
    requires Prepared(builder, batch)
    requires |batch.scores| == |batch.attention| == |batch.goldScore| == |batch.indexes| == |batch.predictions|
    requires TranslationFor(builder, batch, b).Ok?
    ensures var t := TranslationFor(builder, batch, b).value;
      var p := Ascending(batch.indexes)[b];
      && b < |batch.indexes| && p < |batch.indexes|
      && t.src == batch.srcBatch[p]
      && batch.indexes[p] < |builder.dataset| && t.srcRaw == builder.dataset[batch.indexes[p]]
      && t.attns == batch.attention[p] && t.predScores == batch.scores[p] && t.goldScore == batch.goldScore[p]
      && forall n :: 0 <= n < builder.nBest ==>
        n < |batch.predictions[p]| && n < |batch.attention[p]| &&
        Built(builder, batch.predictions[p][n], t.srcRaw, Some(batch.attention[p][n])) == Ok(t.predSents[n])
  {
    var perm := Ascending(batch.indexes);
    var entries := SortedEntries(batch);
    var zipped := Zip(batch);
    var keys := seq(|zipped|, i requires 0 <= i < |zipped| => zipped[i].index);
    assert keys == batch.indexes;
    var p := perm[b];
    assert entries[b] == zipped[p];
    var srcRaw := builder.dataset[batch.indexes[p]];
    PredSentsSpec(builder, entries, b, srcRaw, builder.nBest);
  }
}
