/**
 * The beam-search bookkeeping of `DiffTranslator.translate_batch`
 * (diff_trans.py:246-457).
 *
 * The neural network is a black box `Model`: given an example (its index in
 * the batch), the prefix a beam has produced so far and a candidate token, it
 * returns the log-probability of that token. Everything else is the index
 * arithmetic of the source: the `K * V` candidates of an example are numbered
 * `origin * V + token`, the best `K` are kept, each keeps its parent's row and
 * appends its token, finished rows are stored as hypotheses, and an example
 * retires once its top beam has finished and it holds `n_best` hypotheses.
 *
 * The source keeps the alive rows of all active examples in one flat tensor
 * of `active * K` rows and views it as `active x K` blocks; here the state is
 * kept in that blocked view (`beams[i][o]` is flat row `i * K + o`, see
 * `FlatRow`).
 */
module BeamSearch {
  import opened Scores
  import opened Sorting

  /** The step score given to the end token before `min_length` (diff_trans.py:343). */
  const EndSentinel: int := -100000000000000000000
  /** The running score of a beam that has just finished (diff_trans.py:384). */
  const FinishedScore: int := -10000000000

  /** The network's log-probability of a token after a prefix, for one example. */
  type Model = (nat, seq<nat>, nat) -> ExtInt

  datatype Config = Config(
    beamSize: nat,
    vocabSize: nat,
    startToken: nat,
    endToken: nat,
    minLength: nat,
    maxLength: nat,
    nBest: nat)

  /**
   * `topk` needs a beam and a vocabulary; the end token is indexed into the
   * step scores only while `step < min_length`.
   */
  predicate ValidConfig(cfg: Config) {
    && cfg.beamSize >= 1
    && cfg.vocabSize >= 1
    && (cfg.minLength > 0 ==> cfg.endToken < cfg.vocabSize)
  }

  /** A stored hypothesis: its score and its tokens without the start token. */
  datatype Hyp = Hyp(score: ExtInt, tokens: seq<nat>)

  // ---------------------------------------------------------------------------
  // Candidate numbering (diff_trans.py:351-361)

  /**
   * `k * v`, the number of candidates of `k` beams over `v` tokens, written as
   * `k` blocks of `v` so that the solver sees no multiplication.
   */
  function Width(k: nat, v: nat): nat {
    if k == 0 then 0 else Width(k - 1, v) + v
  }

  lemma {:induction false} WidthIsProduct(k: nat, v: nat)
    ensures Width(k, v) == k * v
  {
    if k > 0 {
      WidthIsProduct(k - 1, v);
      assert (k - 1) * v + v == k * v;
    }
  }

  lemma {:induction false} WidthAtLeast(k: nat, v: nat)
    requires v >= 1
    ensures Width(k, v) >= k
  {
    if k > 0 {
      WidthAtLeast(k - 1, v);
    }
  }

  /** The candidate number of `token` continuing beam `origin`: `origin * V + token`. */
  function FlatId(origin: nat, token: nat, v: nat): nat {
    Width(origin, v) + token
  }

  /** `topk_ids.div(vocab_size)`: the beam a candidate continues. */
  function Origin(c: nat, k: nat, v: nat): (o: nat)
    requires v >= 1 && c < Width(k, v)
    ensures o < k
    ensures FlatId(o, Token(c, v), v) == c
  {
    if c < v then 0 else Origin(c - v, k - 1, v) + 1
  }

  /** `topk_ids.fmod(vocab_size)`: the token a candidate appends. */
  function Token(c: nat, v: nat): (t: nat)
    requires v >= 1
    ensures t < v
  {
    if c < v then c else Token(c - v, v)
  }

  /** `Origin` and `Token` are the quotient and remainder of division by `V`. */
  lemma {:induction false} OriginTokenDivMod(c: nat, k: nat, v: nat)
    requires v >= 1 && c < Width(k, v)
    ensures Origin(c, k, v) == c / v && Token(c, v) == c % v
  {
    if c >= v {
      OriginTokenDivMod(c - v, k - 1, v);
      DivStep(c, v);
    }
  }

  lemma {:induction false} DivStep(c: nat, v: nat)
    requires v >= 1 && c >= v
    ensures c / v == (c - v) / v + 1 && c % v == (c - v) % v
  {
    var q, r := (c - v) / v, (c - v) % v;
    assert c - v == q * v + r;
    assert (q + 1) * v == q * v + v;
    DivModUnique(c, v, q + 1, r);
  }

  /** Euclidean division has one quotient and one remainder. */
  lemma {:induction false} DivModUnique(c: int, v: int, q: int, r: int)
    requires v >= 1 && 0 <= r < v && c == q * v + r
    ensures c / v == q && c % v == r
  {
    var q', r' := c / v, c % v;
    assert q' * v + r' == q * v + r;
    if q' > q {
      assert (q' - q) * v == q' * v - q * v;
      MulAtLeast(q' - q, v);
      assert false;
    } else if q' < q {
      assert (q - q') * v == q * v - q' * v;
      MulAtLeast(q - q', v);
      assert false;
    }
  }

  lemma {:induction false} MulAtLeast(x: int, v: int)
    requires x >= 1 && v >= 0
    ensures x * v >= v
  {
    assert x * v == (x - 1) * v + v;
  }

  /** Numbering candidates and splitting the numbers are inverse. */
  lemma {:induction false} SplitFlatId(o: nat, t: nat, k: nat, v: nat)
    requires o < k && t < v
    ensures FlatId(o, t, v) < Width(k, v)
    ensures Origin(FlatId(o, t, v), k, v) == o && Token(FlatId(o, t, v), v) == t
  {
    if o > 0 {
      SplitFlatId(o - 1, t, k - 1, v);
    }
  }

  // ---------------------------------------------------------------------------
  // One step of one example (diff_trans.py:335-370)

  /**
   * The step score of `token` after `prefix`: before `min_length` the end
   * token is overwritten with the sentinel, otherwise it is the model's.
   */
  function StepScore(model: Model, cfg: Config, step: nat, b: nat, prefix: seq<nat>, token: nat): ExtInt {
    if step < cfg.minLength && token == cfg.endToken then Fin(EndSentinel) else model(b, prefix, token)
  }

  /**
   * `curr_scores` for one example: the step score of every (beam, token) plus
   * the beam's running score, flattened beam by beam.
   */
  function Candidates(model: Model, cfg: Config, step: nat, b: nat, rows: seq<seq<nat>>, running: seq<ExtInt>): (cand: seq<ExtInt>)
    requires ValidConfig(cfg) && |rows| == cfg.beamSize && |running| == cfg.beamSize
    ensures |cand| == Width(cfg.beamSize, cfg.vocabSize) && |cand| >= cfg.beamSize
    ensures forall o, t :: 0 <= o < cfg.beamSize && 0 <= t < cfg.vocabSize ==>
      FlatId(o, t, cfg.vocabSize) < |cand| &&
      cand[FlatId(o, t, cfg.vocabSize)] == Add(StepScore(model, cfg, step, b, rows[o], t), running[o])
  {
    var k, v := cfg.beamSize, cfg.vocabSize;
    WidthAtLeast(k, v);
    var cand := seq(Width(k, v), c requires 0 <= c < Width(k, v) =>
      Add(StepScore(model, cfg, step, b, rows[Origin(c, k, v)], Token(c, v)), running[Origin(c, k, v)]));
    forall o, t | 0 <= o < k && 0 <= t < v
      ensures FlatId(o, t, v) < |cand| && cand[FlatId(o, t, v)] == Add(StepScore(model, cfg, step, b, rows[o], t), running[o])
    {
      SplitFlatId(o, t, k, v);
    }
    cand
  }

  /** The `K` continuations an example keeps after one step. */
  datatype Expansion = Expansion(ids: seq<nat>, rows: seq<seq<nat>>, scores: seq<ExtInt>)

  /**
   * The top-K selection of one step: the `K` best candidates, best first; each
   * new row is its parent row followed by its token, and its score is the
   * candidate's score.
   */
  function Expand(model: Model, cfg: Config, step: nat, b: nat, rows: seq<seq<nat>>, running: seq<ExtInt>): (e: Expansion)
    requires ValidConfig(cfg) && |rows| == cfg.beamSize && |running| == cfg.beamSize
    ensures e.ids == TopK(Candidates(model, cfg, step, b, rows, running), cfg.beamSize)
    ensures |e.ids| == cfg.beamSize && |e.rows| == cfg.beamSize && |e.scores| == cfg.beamSize
    ensures forall j :: 0 <= j < cfg.beamSize ==>
      && e.ids[j] < Width(cfg.beamSize, cfg.vocabSize)
      && var o, t := Origin(e.ids[j], cfg.beamSize, cfg.vocabSize), Token(e.ids[j], cfg.vocabSize);
      && e.rows[j] == rows[o] + [t]
      && e.scores[j] == Candidates(model, cfg, step, b, rows, running)[e.ids[j]]
      && e.scores[j] == Add(StepScore(model, cfg, step, b, rows[o], t), running[o])
  {
    var k, v := cfg.beamSize, cfg.vocabSize;
    var cand := Candidates(model, cfg, step, b, rows, running);
    var ids := TopK(cand, k);
    var e := Expansion(
      ids,
      seq(k, j requires 0 <= j < k => rows[Origin(ids[j], k, v)] + [Token(ids[j], v)]),
      seq(k, j requires 0 <= j < k => cand[ids[j]]));
    forall j | 0 <= j < k
      ensures e.scores[j] == Add(StepScore(model, cfg, step, b, rows[Origin(ids[j], k, v)], Token(ids[j], v)), running[Origin(ids[j], k, v)])
    {
      var o, t := Origin(ids[j], k, v), Token(ids[j], v);
      assert FlatId(o, t, v) == ids[j];
    }
    e
  }

  /**
   * The kept continuations are `K` different candidates, best first, and
   * every candidate left out scores no higher than any kept one.
   */
  lemma {:induction false} ExpandKeepsBest(model: Model, cfg: Config, step: nat, b: nat, rows: seq<seq<nat>>, running: seq<ExtInt>)
    requires ValidConfig(cfg) && |rows| == cfg.beamSize && |running| == cfg.beamSize
    ensures var e := Expand(model, cfg, step, b, rows, running);
      && Distinct(e.ids)
      && (forall i, j :: 0 <= i < j < cfg.beamSize ==> Le(e.scores[j], e.scores[i]))
      && (forall c, j :: 0 <= c < Width(cfg.beamSize, cfg.vocabSize) && c !in e.ids && 0 <= j < cfg.beamSize ==>
            Le(Candidates(model, cfg, step, b, rows, running)[c], e.scores[j]))
  {
  }

  /** A candidate finishes when it appends the end token or reaches `max_length` (diff_trans.py:380-382). */
  predicate IsFinished(cfg: Config, step: nat, token: nat) {
    token == cfg.endToken || step + 1 == cfg.maxLength
  }

  /**
   * Pigeonhole: if at least `k` candidates are strictly better than every
   * candidate in `worse`, the top `k` contain none of `worse`.
   */
  lemma {:induction false} TopKAvoidsWorse(scores: seq<ExtInt>, k: nat, better: set<nat>, worse: set<nat>)
    requires k <= |scores|
    requires |better| >= k
    requires forall g :: g in better ==> g < |scores|
    requires forall g, w :: g in better && w in worse && w < |scores| ==> Lt(scores[w], scores[g])
    ensures forall j :: 0 <= j < k ==> TopK(scores, k)[j] !in worse
  {
    forall j | 0 <= j < k ensures TopK(scores, k)[j] !in worse {
      if TopK(scores, k)[j] in worse {
        BetterAllSelected(scores, k, better, j);
        assert false;
      }
    }
  }

  /**
   * If every candidate in `better` beats the `j`-th selected one, they are all
   * selected besides it, which the pigeonhole principle forbids when there are
   * `k` of them.
   */
  lemma {:induction false} BetterAllSelected(scores: seq<ExtInt>, k: nat, better: set<nat>, j: nat)
    requires k <= |scores| && j < k
    requires forall g :: g in better ==> g < |scores|
    requires forall g :: g in better ==> Lt(scores[TopK(scores, k)[j]], scores[g])
    ensures |better| < k
  {
    var ids := TopK(scores, k);
    var selected := set x | x in ids;
    forall g | g in better ensures g in selected - {ids[j]} {
      assert !Le(scores[g], scores[ids[j]]);
    }
    SubsetSize(better, selected - {ids[j]});
    SeqSetSize(ids);
  }

  lemma {:induction false} SubsetSize<T>(a: set<T>, b: set<T>)
    requires a <= b
    ensures |a| <= |b|
  {
    if a != {} {
      var x :| x in a;
      SubsetSize(a - {x}, b - {x});
    }
  }

  /** A sequence has at most as many distinct elements as positions. */
  lemma {:induction false} SeqSetSize<T>(s: seq<T>)
    ensures |set x | x in s| <= |s|
  {
    if s != [] {
      var init := s[..|s| - 1];
      SeqSetSize(init);
      assert (set x | x in s) == (set x | x in init) + {s[|s| - 1]} by {
        SplitLast(s);
      }
    } else {
      assert (set x | x in s) == {};
    }
  }

  /**
   * While `step < min_length` the end token can only be chosen against the
   * sentinel: when `K` candidates that do not end the sentence beat every
   * candidate that does, no selected candidate appends the end token.
   */
  lemma {:induction false} EarlyEndNeverSelected(model: Model, cfg: Config, step: nat, b: nat, rows: seq<seq<nat>>, running: seq<ExtInt>, better: set<nat>)
    requires ValidConfig(cfg) && |rows| == cfg.beamSize && |running| == cfg.beamSize
    requires |better| >= cfg.beamSize
    requires forall g :: g in better ==> g < Width(cfg.beamSize, cfg.vocabSize)
    requires forall g, o :: g in better && 0 <= o < cfg.beamSize && cfg.endToken < cfg.vocabSize ==>
      Lt(Add(StepScore(model, cfg, step, b, rows[o], cfg.endToken), running[o]),
         Candidates(model, cfg, step, b, rows, running)[g])
    ensures forall j :: 0 <= j < cfg.beamSize ==> Token(Expand(model, cfg, step, b, rows, running).ids[j], cfg.vocabSize) != cfg.endToken
  {
    var k, v := cfg.beamSize, cfg.vocabSize;
    var cand := Candidates(model, cfg, step, b, rows, running);
    var worse := set c | 0 <= c < Width(k, v) && Token(c, v) == cfg.endToken;
    forall g, w | g in better && w in worse && w < |cand| ensures Lt(cand[w], cand[g]) {
      var o := Origin(w, k, v);
      assert FlatId(o, cfg.endToken, v) == w;
    }
    TopKAvoidsWorse(cand, k, better, worse);
  }

  /**
   * On the first step only beam 0 is alive (diff_trans.py:327): when the model
   * gives a finite score to at least `K` tokens, every kept candidate
   * continues beam 0.
   */
  lemma {:induction false} FirstStepUsesLiveBeam(model: Model, cfg: Config, b: nat, rows: seq<seq<nat>>, live: set<nat>)
    requires ValidConfig(cfg) && |rows| == cfg.beamSize
    requires |live| >= cfg.beamSize
    requires forall t :: t in live ==> t < cfg.vocabSize && StepScore(model, cfg, 0, b, rows[0], t).Fin?
    ensures forall j :: 0 <= j < cfg.beamSize ==>
      Origin(Expand(model, cfg, 0, b, rows, InitialRunning(cfg.beamSize)).ids[j], cfg.beamSize, cfg.vocabSize) == 0
  {
    var k := cfg.beamSize;
    FirstStepTopK(model, cfg, b, rows, live);
    assert Expand(model, cfg, 0, b, rows, InitialRunning(k)).ids == TopK(Candidates(model, cfg, 0, b, rows, InitialRunning(k)), k);
  }

  /** The selection step of `FirstStepUsesLiveBeam`: the `K` best first-step candidates all extend beam 0. */
  lemma {:induction false} FirstStepTopK(model: Model, cfg: Config, b: nat, rows: seq<seq<nat>>, live: set<nat>)
    requires ValidConfig(cfg) && |rows| == cfg.beamSize
    requires |live| >= cfg.beamSize
    requires forall t :: t in live ==> t < cfg.vocabSize && StepScore(model, cfg, 0, b, rows[0], t).Fin?
    ensures var cand := Candidates(model, cfg, 0, b, rows, InitialRunning(cfg.beamSize));
      forall j :: 0 <= j < cfg.beamSize ==> Origin(TopK(cand, cfg.beamSize)[j], cfg.beamSize, cfg.vocabSize) == 0
  {
    var k, v := cfg.beamSize, cfg.vocabSize;
    LiveCandidatesFinite(model, cfg, b, rows, live);
    DeadCandidatesNegInf(model, cfg, b, rows);
    TopKFromFirstBlock(Candidates(model, cfg, 0, b, rows, InitialRunning(k)), k, v, live);
  }

  /**
   * When at least `k` candidates of the first block are finite and every
   * candidate outside it is `-inf`, the top `k` all lie in the first block.
   */
  lemma {:induction false} TopKFromFirstBlock(cand: seq<ExtInt>, k: nat, v: nat, live: set<nat>)
    requires v >= 1 && |cand| == Width(k, v) && k <= |cand|
    requires |live| >= k
    requires forall t :: t in live ==> t < |cand| && cand[t].Fin?
    requires forall w :: 0 <= w < |cand| && Origin(w, k, v) != 0 ==> cand[w] == NegInf
    ensures forall j :: 0 <= j < k ==> Origin(TopK(cand, k)[j], k, v) == 0
  {
    var worse := set c | 0 <= c < Width(k, v) && Origin(c, k, v) != 0;
    forall g, w | g in live && w in worse && w < |cand| ensures Lt(cand[w], cand[g]) {
      assert cand[w] == NegInf && cand[g].Fin?;
    }
    TopKAvoidsWorse(cand, k, live, worse);
    var ids := TopK(cand, k);
    forall j | 0 <= j < k ensures Origin(ids[j], k, v) == 0 {
      assert ids[j] !in worse && ids[j] < Width(k, v);
    }
  }

  /**
   * On the first step, extending beam 0 by a token the model scores finitely
   * gives a finite candidate, numbered by the token itself.
   */
  lemma {:induction false} LiveCandidatesFinite(model: Model, cfg: Config, b: nat, rows: seq<seq<nat>>, live: set<nat>)
    requires ValidConfig(cfg) && |rows| == cfg.beamSize
    requires forall t :: t in live ==> t < cfg.vocabSize && StepScore(model, cfg, 0, b, rows[0], t).Fin?
    ensures var cand := Candidates(model, cfg, 0, b, rows, InitialRunning(cfg.beamSize));
      forall t :: t in live ==> t < |cand| && cand[t].Fin?
  {
    forall t | t in live ensures FlatId(0, t, cfg.vocabSize) == t { }
  }

  /** On the first step, every candidate extending a beam other than 0 scores `-inf`. */
  lemma {:induction false} DeadCandidatesNegInf(model: Model, cfg: Config, b: nat, rows: seq<seq<nat>>)
    requires ValidConfig(cfg) && |rows| == cfg.beamSize
    ensures var cand := Candidates(model, cfg, 0, b, rows, InitialRunning(cfg.beamSize));
      forall w :: 0 <= w < |cand| && Origin(w, cfg.beamSize, cfg.vocabSize) != 0 ==> cand[w] == NegInf
  {
    var k, v := cfg.beamSize, cfg.vocabSize;
    var cand := Candidates(model, cfg, 0, b, rows, InitialRunning(k));
    forall w | 0 <= w < |cand| && Origin(w, k, v) != 0 ensures cand[w] == NegInf {
      var o := Origin(w, k, v);
      assert FlatId(o, Token(w, v), v) == w;
    }
  }

  // ---------------------------------------------------------------------------
  // The initial beams (diff_trans.py:322-327)

  /** `[0] + [-inf] * (K - 1)`: one live beam and `K - 1` dead ones. */
  function InitialRunning(k: nat): (r: seq<ExtInt>)
    requires k >= 1
    ensures |r| == k && r[0] == Fin(0)
    ensures forall j :: 1 <= j < k ==> r[j] == NegInf
  {
    [Fin(0)] + seq(k - 1, _ => NegInf)
  }

  // ---------------------------------------------------------------------------
  // Storing finished hypotheses (diff_trans.py:398-415)

  /**
   * The hypotheses stored for one example in one step: each finished row,
   * without its start token, with its selected score, in beam order.
   */
  function FinishedHyps(rows: seq<seq<nat>>, scores: seq<ExtInt>, finished: seq<bool>): (hs: seq<Hyp>)
    requires |rows| == |scores| == |finished|
    requires forall j :: 0 <= j < |rows| ==> |rows[j]| >= 1
    ensures |hs| <= |finished|
    ensures (forall j :: 0 <= j < |finished| ==> finished[j]) ==> |hs| == |finished|
  {
    if finished == [] then []
    else
      var n := |finished| - 1;
      var init := FinishedHyps(rows[..n], scores[..n], finished[..n]);
      init + (if finished[n] then [Hyp(scores[n], rows[n][1..])] else [])
  }

  /** Every stored hypothesis is a finished row, without its start token, with that row's score. */
  lemma {:induction false} FinishedHypsFromRows(rows: seq<seq<nat>>, scores: seq<ExtInt>, finished: seq<bool>)
    requires |rows| == |scores| == |finished|
    requires forall j :: 0 <= j < |rows| ==> |rows[j]| >= 1
    ensures forall h :: h in FinishedHyps(rows, scores, finished) ==>
      exists j :: 0 <= j < |finished| && finished[j] && h == Hyp(scores[j], rows[j][1..])
  {
    if finished != [] {
      var n := |finished| - 1;
      FinishedHypsFromRows(rows[..n], scores[..n], finished[..n]);
      forall h | h in FinishedHyps(rows, scores, finished)
        ensures exists j :: 0 <= j < |finished| && finished[j] && h == Hyp(scores[j], rows[j][1..])
      {
        if h in FinishedHyps(rows[..n], scores[..n], finished[..n]) {
          var j :| 0 <= j < n && finished[..n][j] && h == Hyp(scores[..n][j], rows[..n][j][1..]);
          assert finished[j] && h == Hyp(scores[j], rows[j][1..]);
        } else {
          assert finished[n] && h == Hyp(scores[n], rows[n][1..]);
        }
      }
    }
  }

  function HypScore(h: Hyp): ExtInt {
    h.score
  }

  /** `sorted(hypotheses[b], key=score, reverse=True)[:n_best]`: the `n` best hypotheses, best first. */
  function Best(hs: seq<Hyp>, n: nat): (best: seq<Hyp>)
    requires n <= |hs|
    ensures |best| == n
  {
    SortDesc(hs, HypScore)[..n]
  }

  /** `Best` lists its hypotheses best first. */
  lemma {:induction false} BestOrdered(hs: seq<Hyp>, n: nat)
    requires n <= |hs|
    ensures forall i, j :: 0 <= i < j < n ==> Le(Best(hs, n)[j].score, Best(hs, n)[i].score)
  {
    var sorted := SortDesc(hs, HypScore);
    forall i, j | 0 <= i < j < n
      ensures Le(Best(hs, n)[j].score, Best(hs, n)[i].score)
    {
      assert Le(HypScore(sorted[j]), HypScore(sorted[i]));
    }
  }

  /** `Best` keeps hypotheses taken from `hs`, each at most as often as it occurs there. */
  lemma {:induction false} BestFromHyps(hs: seq<Hyp>, n: nat)
    requires n <= |hs|
    ensures multiset(Best(hs, n)) <= multiset(hs)
  {
    var sorted := SortDesc(hs, HypScore);
    assert sorted == sorted[..n] + sorted[n..];
    assert multiset(sorted) == multiset(sorted[..n]) + multiset(sorted[n..]);
  }

  /** Every hypothesis `Best` leaves out scores no higher than any kept one. */
  lemma {:induction false} BestLeavesWorse(hs: seq<Hyp>, n: nat)
    requires n <= |hs|
    ensures forall h, j :: h in multiset(hs) - multiset(Best(hs, n)) && 0 <= j < n ==> Le(h.score, Best(hs, n)[j].score)
  {
    var sorted := SortDesc(hs, HypScore);
    assert sorted == sorted[..n] + sorted[n..];
    assert multiset(sorted) == multiset(sorted[..n]) + multiset(sorted[n..]);
    forall h, j | h in multiset(hs) - multiset(sorted[..n]) && 0 <= j < n
      ensures Le(h.score, sorted[..n][j].score)
    {
      assert h in multiset(sorted[n..]);
      var m :| 0 <= m < |sorted[n..]| && sorted[n..][m] == h;
      assert Le(HypScore(sorted[n + m]), HypScore(sorted[j]));
    }
  }

  predicate StrictlyIncreasing(s: seq<nat>) {
    forall i, j :: 0 <= i < j < |s| ==> s[i] < s[j]
  }

  /** The retirement test of diff_trans.py:408. */
  predicate Retires(nBest: nat, topBeamFinished: bool, stored: seq<Hyp>) {
    topBeamFinished && |stored| >= nBest
  }

  /** What a retiring example adds to its results: its `n_best` best hypotheses. */
  function Retired(nBest: nat, topBeamFinished: bool, stored: seq<Hyp>): seq<Hyp> {
    if Retires(nBest, topBeamFinished, stored) then Best(stored, nBest) else []
  }

  /** The shapes `StoreFinished` relies on: one block of rows per active example, every row non-empty. */
  predicate Shaped(
    batchOffset: seq<nat>, rows: seq<seq<seq<nat>>>, scores: seq<seq<ExtInt>>, finished: seq<seq<bool>>,
    topBeamFinished: seq<bool>, hyps0: seq<seq<Hyp>>, results0: seq<seq<Hyp>>)
  {
    && |rows| == |batchOffset| && |scores| == |batchOffset| && |finished| == |batchOffset| && |topBeamFinished| == |batchOffset|
    && (forall i :: 0 <= i < |batchOffset| ==>
         |rows[i]| == |finished[i]| && |scores[i]| == |finished[i]| && forall j :: 0 <= j < |rows[i]| ==> |rows[i][j]| >= 1)
    && Scatterable(batchOffset, hyps0, results0)
  }

  /** Active examples are listed in increasing order and each names an example of the batch. */
  predicate Scatterable(batchOffset: seq<nat>, hyps0: seq<seq<Hyp>>, results0: seq<seq<Hyp>>) {
    && |hyps0| == |results0|
    && StrictlyIncreasing(batchOffset)
    && (forall i :: 0 <= i < |batchOffset| ==> batchOffset[i] < |hyps0|)
  }

  /** The bookkeeping the loop over active examples updates. */
  datatype Books = Books(hyps: seq<seq<Hyp>>, results: seq<seq<Hyp>>, nonFinished: seq<nat>)

  /**
   * The books after the loop over active examples has handled the first `i`
   * of them, given what each one ends up holding (`stored`), whether it
   * retires and what it then adds to its results (`kept`).
   */
  function Scatter(
    batchOffset: seq<nat>, stored: seq<seq<Hyp>>, retires: seq<bool>, kept: seq<seq<Hyp>>,
    hyps0: seq<seq<Hyp>>, results0: seq<seq<Hyp>>, i: nat): (r: Books)
    requires Scatterable(batchOffset, hyps0, results0)
    requires |stored| == |batchOffset| && |retires| == |batchOffset| && |kept| == |batchOffset|
    requires i <= |batchOffset|
    ensures |r.hyps| == |hyps0| && |r.results| == |results0|
  {
    if i == 0 then Books(hyps0, results0, [])
    else
      var prev := Scatter(batchOffset, stored, retires, kept, hyps0, results0, i - 1);
      var b := batchOffset[i - 1];
      Books(prev.hyps[b := stored[i - 1]],
            prev.results[b := prev.results[b] + kept[i - 1]],
            prev.nonFinished + (if retires[i - 1] then [] else [i - 1]))
  }

  /** An example not among the first `i` active ones keeps its hypotheses and results. */
  lemma {:induction false} ScatterElsewhere(
    batchOffset: seq<nat>, stored: seq<seq<Hyp>>, retires: seq<bool>, kept: seq<seq<Hyp>>,
    hyps0: seq<seq<Hyp>>, results0: seq<seq<Hyp>>, i: nat, b: nat)
    requires Scatterable(batchOffset, hyps0, results0)
    requires |stored| == |batchOffset| && |retires| == |batchOffset| && |kept| == |batchOffset|
    requires i <= |batchOffset| && b < |hyps0|
    requires forall k :: 0 <= k < i ==> batchOffset[k] != b
    ensures Scatter(batchOffset, stored, retires, kept, hyps0, results0, i).hyps[b] == hyps0[b]
    ensures Scatter(batchOffset, stored, retires, kept, hyps0, results0, i).results[b] == results0[b]
  {
    if i > 0 {
      ScatterElsewhere(batchOffset, stored, retires, kept, hyps0, results0, i - 1, b);
    }
  }

  /** Once the `k`-th active example has been handled, it holds what it stored and its results have gained what it kept. */
  lemma {:induction false} ScatterAt(
    batchOffset: seq<nat>, stored: seq<seq<Hyp>>, retires: seq<bool>, kept: seq<seq<Hyp>>,
    hyps0: seq<seq<Hyp>>, results0: seq<seq<Hyp>>, i: nat, k: nat)
    requires Scatterable(batchOffset, hyps0, results0)
    requires |stored| == |batchOffset| && |retires| == |batchOffset| && |kept| == |batchOffset|
    requires k < i <= |batchOffset|
    ensures Scatter(batchOffset, stored, retires, kept, hyps0, results0, i).hyps[batchOffset[k]] == stored[k]
    ensures Scatter(batchOffset, stored, retires, kept, hyps0, results0, i).results[batchOffset[k]] == results0[batchOffset[k]] + kept[k]
  {
    if k == i - 1 {
      ScatterElsewhere(batchOffset, stored, retires, kept, hyps0, results0, i - 1, batchOffset[k]);
    } else {
      ScatterAt(batchOffset, stored, retires, kept, hyps0, results0, i - 1, k);
      assert batchOffset[k] < batchOffset[i - 1];
    }
  }

  /** After `i` active examples, the examples kept active are the handled ones that did not retire, in order. */
  lemma {:induction false} ScatterSurvivors(
    batchOffset: seq<nat>, stored: seq<seq<Hyp>>, retires: seq<bool>, kept: seq<seq<Hyp>>,
    hyps0: seq<seq<Hyp>>, results0: seq<seq<Hyp>>, i: nat)
    requires Scatterable(batchOffset, hyps0, results0)
    requires |stored| == |batchOffset| && |retires| == |batchOffset| && |kept| == |batchOffset|
    requires i <= |batchOffset|
    ensures Scatter(batchOffset, stored, retires, kept, hyps0, results0, i).nonFinished == Survivors(retires[..i])
  {
    if i > 0 {
      ScatterSurvivors(batchOffset, stored, retires, kept, hyps0, results0, i - 1);
      assert retires[..i][..i - 1] == retires[..i - 1];
    }
  }

  /** What each active example holds once it has stored its finished rows. */
  function StoredAll(
    batchOffset: seq<nat>, rows: seq<seq<seq<nat>>>, scores: seq<seq<ExtInt>>, finished: seq<seq<bool>>,
    topBeamFinished: seq<bool>, hyps0: seq<seq<Hyp>>, results0: seq<seq<Hyp>>): (stored: seq<seq<Hyp>>)
    requires Shaped(batchOffset, rows, scores, finished, topBeamFinished, hyps0, results0)
    ensures |stored| == |batchOffset|
  {
    seq(|batchOffset|, k requires 0 <= k < |batchOffset| =>
      hyps0[batchOffset[k]] + FinishedHyps(rows[k], scores[k], finished[k]))
  }

  /** Whether each active example retires, given what it holds. */
  function RetiresAll(nBest: nat, topBeamFinished: seq<bool>, stored: seq<seq<Hyp>>): (flags: seq<bool>)
    requires |stored| == |topBeamFinished|
    ensures |flags| == |stored|
  {
    seq(|stored|, k requires 0 <= k < |stored| => Retires(nBest, topBeamFinished[k], stored[k]))
  }

  /** What each active example adds to its results. */
  function RetiredAll(nBest: nat, topBeamFinished: seq<bool>, stored: seq<seq<Hyp>>): (kept: seq<seq<Hyp>>)
    requires |stored| == |topBeamFinished|
    ensures |kept| == |stored|
  {
    seq(|stored|, k requires 0 <= k < |stored| => Retired(nBest, topBeamFinished[k], stored[k]))
  }

  /**
   * The loop over active examples (diff_trans.py:398-416): appends each
   * example's finished rows to its hypotheses; an example whose top beam has
   * finished and that holds `n_best` hypotheses gets its `n_best` best as
   * results, every other example is listed, in order, in `nonFinished`.
   */
  method StoreFinished(
    nBest: nat, batchOffset: seq<nat>,
    rows: seq<seq<seq<nat>>>, scores: seq<seq<ExtInt>>, finished: seq<seq<bool>>, topBeamFinished: seq<bool>,
    hyps0: seq<seq<Hyp>>, results0: seq<seq<Hyp>>)
    returns (hyps: seq<seq<Hyp>>, results: seq<seq<Hyp>>, nonFinished: seq<nat>)
    requires Shaped(batchOffset, rows, scores, finished, topBeamFinished, hyps0, results0)
    ensures var stored := StoredAll(batchOffset, rows, scores, finished, topBeamFinished, hyps0, results0);
      Books(hyps, results, nonFinished) ==
        Scatter(batchOffset, stored, RetiresAll(nBest, topBeamFinished, stored), RetiredAll(nBest, topBeamFinished, stored),
                hyps0, results0, |batchOffset|)
  {
    ghost var stored := StoredAll(batchOffset, rows, scores, finished, topBeamFinished, hyps0, results0);
    ghost var flags := RetiresAll(nBest, topBeamFinished, stored);
    ghost var keptAll := RetiredAll(nBest, topBeamFinished, stored);
    hyps, results, nonFinished := hyps0, results0, [];
    for i := 0 to |batchOffset|
      invariant Books(hyps, results, nonFinished) == Scatter(batchOffset, stored, flags, keptAll, hyps0, results0, i)
    {
      var b := batchOffset[i];
      ScatterElsewhere(batchOffset, stored, flags, keptAll, hyps0, results0, i, b);
      var st, kept, retires := StoreExample(nBest, topBeamFinished[i], hyps[b], rows[i], scores[i], finished[i]);
      assert st == stored[i] && retires == flags[i] && kept == keptAll[i];
      hyps := hyps[b := st];
      if retires {
        results := results[b := results[b] + kept];
      } else {
        assert results[b] + kept == results[b];
        nonFinished := nonFinished + [i];
      }
    }
  }

  /** The positions whose flag is false, in increasing order: the examples that stay active. */
  function Survivors(retired: seq<bool>): (s: seq<nat>)
    ensures StrictlyIncreasing(s)
    ensures forall k :: 0 <= k < |s| ==> s[k] < |retired|
    ensures forall i :: 0 <= i < |retired| ==> (i in s <==> !retired[i])
  {
    if retired == [] then []
    else
      var n := |retired| - 1;
      var init := Survivors(retired[..n]);
      assert forall i :: 0 <= i < n ==> retired[..n][i] == retired[i];
      init + (if retired[n] then [] else [n])
  }

  /**
   * The body of the loop over active examples for one example: stores its
   * finished rows and, when it retires, picks its `n_best` best hypotheses.
   */
  method StoreExample(nBest: nat, topBeamFinished: bool, stored0: seq<Hyp>, rows: seq<seq<nat>>, scores: seq<ExtInt>, finished: seq<bool>)
    returns (stored: seq<Hyp>, kept: seq<Hyp>, retires: bool)
    requires |rows| == |finished| && |scores| == |finished|
    requires forall j :: 0 <= j < |rows| ==> |rows[j]| >= 1
    ensures stored == stored0 + FinishedHyps(rows, scores, finished)
    ensures retires == Retires(nBest, topBeamFinished, stored)
    ensures kept == Retired(nBest, topBeamFinished, stored)
  {
    stored := StoreRows(stored0, rows, scores, finished);
    retires := topBeamFinished && |stored| >= nBest;
    kept := [];
    if retires {
      var best := SortDesc(stored, HypScore);
      var m := 0;
      while m < |best|
        invariant m <= nBest && m <= |best|
        invariant kept == best[..m]
      {
        if m >= nBest {
          break;
        }
        kept := kept + [best[m]];
        m := m + 1;
      }
    }
  }

  /** The inner loop over the finished beams of one example (diff_trans.py:401-405). */
  method StoreRows(stored0: seq<Hyp>, rows: seq<seq<nat>>, scores: seq<ExtInt>, finished: seq<bool>) returns (stored: seq<Hyp>)
    requires |rows| == |finished| && |scores| == |finished|
    requires forall j :: 0 <= j < |rows| ==> |rows[j]| >= 1
    ensures stored == stored0 + FinishedHyps(rows, scores, finished)
  {
    stored := stored0;
    for j := 0 to |finished|
      invariant stored == stored0 + FinishedHyps(rows[..j], scores[..j], finished[..j])
    {
      if finished[j] {
        stored := stored + [Hyp(scores[j], rows[j][1..])];
      }
      assert rows[..j + 1][..j] == rows[..j];
      assert scores[..j + 1][..j] == scores[..j];
      assert finished[..j + 1][..j] == finished[..j];
    }
    assert rows[..|finished|] == rows;
    assert scores[..|finished|] == scores;
    assert finished[..|finished|] == finished;
  }

  // ---------------------------------------------------------------------------
  // Compaction and the books across steps (diff_trans.py:418-429)

  /** An example is done when it holds `n_best` hypotheses and its results are the best `n_best` of them. */
  predicate Done(nBest: nat, hs: seq<Hyp>, rs: seq<Hyp>) {
    |hs| >= nBest && rs == Best(hs, nBest)
  }

  /**
   * What `batch_offset`, `hypotheses` and `results` say across steps: the
   * active examples, in increasing order, have no results yet, and every other
   * example is done.
   */
  predicate Ledger(nBest: nat, batchSize: nat, batchOffset: seq<nat>, hyps: seq<seq<Hyp>>, results: seq<seq<Hyp>>) {
    && |hyps| == batchSize && |results| == batchSize
    && StrictlyIncreasing(batchOffset)
    && (forall i :: 0 <= i < |batchOffset| ==> batchOffset[i] < batchSize)
    && (forall i :: 0 <= i < |batchOffset| ==> results[batchOffset[i]] == [])
    && (forall b :: 0 <= b < batchSize && b !in batchOffset ==> Done(nBest, hyps[b], results[b]))
  }

  /**
   * One pass of the loop over active examples keeps the ledger: the examples
   * listed in `nonFinished` stay active, every other one is done.
   */
  lemma {:induction false} ScatterKeepsLedger(nBest: nat, batchSize: nat, batchOffset: seq<nat>, stored: seq<seq<Hyp>>, retires: seq<bool>, kept: seq<seq<Hyp>>,
    hyps0: seq<seq<Hyp>>, results0: seq<seq<Hyp>>)
    requires Ledger(nBest, batchSize, batchOffset, hyps0, results0)
    requires |stored| == |batchOffset| && |retires| == |batchOffset| && |kept| == |batchOffset|
    requires forall k :: 0 <= k < |batchOffset| ==> (retires[k] ==> |stored[k]| >= nBest)
    requires forall k :: 0 <= k < |batchOffset| ==> kept[k] == if retires[k] then Best(stored[k], nBest) else []
    ensures var r := Scatter(batchOffset, stored, retires, kept, hyps0, results0, |batchOffset|);
      && (forall m :: 0 <= m < |r.nonFinished| ==> r.nonFinished[m] < |batchOffset|)
      && Ledger(nBest, batchSize, Gather(batchOffset, r.nonFinished), r.hyps, r.results)
  {
    var n := |batchOffset|;
    var r := Scatter(batchOffset, stored, retires, kept, hyps0, results0, n);
    assert r.nonFinished == Survivors(retires) by {
      ScatterSurvivors(batchOffset, stored, retires, kept, hyps0, results0, n);
      assert retires[..n] == retires;
    }
    var next := Gather(batchOffset, Survivors(retires));
    GatherIncreasing(batchOffset, Survivors(retires));
    ScatterActiveEmpty(nBest, batchSize, batchOffset, stored, retires, kept, hyps0, results0);
    ScatterDoneAll(nBest, batchSize, batchOffset, stored, retires, kept, hyps0, results0);
    assert Ledger(nBest, batchSize, next, r.hyps, r.results);
  }

  /** The examples a loop pass keeps active still have no results. */
  lemma {:induction false} ScatterActiveEmpty(nBest: nat, batchSize: nat, batchOffset: seq<nat>, stored: seq<seq<Hyp>>, retires: seq<bool>, kept: seq<seq<Hyp>>,
    hyps0: seq<seq<Hyp>>, results0: seq<seq<Hyp>>)
    requires Ledger(nBest, batchSize, batchOffset, hyps0, results0)
    requires |stored| == |batchOffset| && |retires| == |batchOffset| && |kept| == |batchOffset|
    requires forall k :: 0 <= k < |batchOffset| ==> (!retires[k] ==> kept[k] == [])
    ensures var r := Scatter(batchOffset, stored, retires, kept, hyps0, results0, |batchOffset|);
      forall m :: 0 <= m < |Survivors(retires)| ==> r.results[Gather(batchOffset, Survivors(retires))[m]] == []
  {
    var n := |batchOffset|;
    var survivors := Survivors(retires);
    forall m | 0 <= m < |survivors|
      ensures Scatter(batchOffset, stored, retires, kept, hyps0, results0, n).results[Gather(batchOffset, survivors)[m]] == []
    {
      var k := survivors[m];
      ScatterAt(batchOffset, stored, retires, kept, hyps0, results0, n, k);
      assert !retires[k] && kept[k] == [] && results0[batchOffset[k]] == [];
    }
  }

  /** Every example a loop pass does not keep active is done afterwards. */
  lemma {:induction false} ScatterDoneAll(nBest: nat, batchSize: nat, batchOffset: seq<nat>, stored: seq<seq<Hyp>>, retires: seq<bool>, kept: seq<seq<Hyp>>,
    hyps0: seq<seq<Hyp>>, results0: seq<seq<Hyp>>)
    requires Ledger(nBest, batchSize, batchOffset, hyps0, results0)
    requires |stored| == |batchOffset| && |retires| == |batchOffset| && |kept| == |batchOffset|
    requires forall k :: 0 <= k < |batchOffset| ==> (retires[k] ==> |stored[k]| >= nBest)
    requires forall k :: 0 <= k < |batchOffset| ==> kept[k] == if retires[k] then Best(stored[k], nBest) else []
    ensures var r := Scatter(batchOffset, stored, retires, kept, hyps0, results0, |batchOffset|);
      forall b :: 0 <= b < batchSize && b !in Gather(batchOffset, Survivors(retires)) ==> Done(nBest, r.hyps[b], r.results[b])
  {
    forall b | 0 <= b < batchSize && b !in Gather(batchOffset, Survivors(retires))
      ensures Done(nBest, Scatter(batchOffset, stored, retires, kept, hyps0, results0, |batchOffset|).hyps[b],
                   Scatter(batchOffset, stored, retires, kept, hyps0, results0, |batchOffset|).results[b])
    {
      ScatterRetires(nBest, batchSize, batchOffset, stored, retires, kept, hyps0, results0, b);
    }
  }

  /** Picking increasing positions of an increasing sequence gives an increasing sequence. */
  lemma {:induction false} GatherIncreasing(xs: seq<nat>, idx: seq<nat>)
    requires StrictlyIncreasing(xs) && StrictlyIncreasing(idx)
    requires forall m :: 0 <= m < |idx| ==> idx[m] < |xs|
    ensures StrictlyIncreasing(Gather(xs, idx))
  {
    forall i, j | 0 <= i < j < |idx| ensures Gather(xs, idx)[i] < Gather(xs, idx)[j] {
      assert idx[i] < idx[j];
    }
  }

  /** An example that a loop pass does not keep active is done afterwards. */
  lemma {:induction false} ScatterRetires(nBest: nat, batchSize: nat, batchOffset: seq<nat>, stored: seq<seq<Hyp>>, retires: seq<bool>, kept: seq<seq<Hyp>>,
    hyps0: seq<seq<Hyp>>, results0: seq<seq<Hyp>>, b: nat)
    requires Ledger(nBest, batchSize, batchOffset, hyps0, results0)
    requires |stored| == |batchOffset| && |retires| == |batchOffset| && |kept| == |batchOffset|
    requires forall k :: 0 <= k < |batchOffset| ==> (retires[k] ==> |stored[k]| >= nBest)
    requires forall k :: 0 <= k < |batchOffset| ==> kept[k] == if retires[k] then Best(stored[k], nBest) else []
    requires b < batchSize
    requires b !in Gather(batchOffset, Survivors(retires))
    ensures var r := Scatter(batchOffset, stored, retires, kept, hyps0, results0, |batchOffset|);
      Done(nBest, r.hyps[b], r.results[b])
  {
    var n := |batchOffset|;
    if k :| 0 <= k < n && batchOffset[k] == b {
      ScatterAt(batchOffset, stored, retires, kept, hyps0, results0, n, k);
      GatherHas(batchOffset, Survivors(retires), k);
      assert retires[k];
      assert results0[b] == [] && kept[k] == Best(stored[k], nBest);
    } else {
      ScatterElsewhere(batchOffset, stored, retires, kept, hyps0, results0, n, b);
      assert b !in batchOffset;
    }
  }

  lemma {:induction false} GatherHas<T>(xs: seq<T>, idx: seq<nat>, k: nat)
    requires forall m :: 0 <= m < |idx| ==> idx[m] < |xs|
    ensures k in idx ==> xs[k] in Gather(xs, idx)
  {
    if k in idx {
      var m :| 0 <= m < |idx| && idx[m] == k;
      assert Gather(xs, idx)[m] == xs[k];
    }
  }

  /** A finished hypothesis: it ends with the end token or has `max_length` tokens, all from the vocabulary. */
  predicate Complete(cfg: Config, h: Hyp) {
    && 1 <= |h.tokens| <= cfg.maxLength
    && (h.tokens[|h.tokens| - 1] == cfg.endToken || |h.tokens| == cfg.maxLength)
    && forall p :: 0 <= p < |h.tokens| ==> h.tokens[p] < cfg.vocabSize
  }

  predicate AllComplete(cfg: Config, hyps: seq<seq<Hyp>>) {
    forall b, h :: 0 <= b < |hyps| && h in hyps[b] ==> Complete(cfg, h)
  }

  /** A loop pass that stores only complete hypotheses leaves every stored hypothesis complete. */
  lemma {:induction false} ScatterKeepsComplete(
    cfg: Config, batchOffset: seq<nat>, stored: seq<seq<Hyp>>, retires: seq<bool>, kept: seq<seq<Hyp>>,
    hyps0: seq<seq<Hyp>>, results0: seq<seq<Hyp>>)
    requires Scatterable(batchOffset, hyps0, results0)
    requires |stored| == |batchOffset| && |retires| == |batchOffset| && |kept| == |batchOffset|
    requires AllComplete(cfg, hyps0)
    requires forall k, h :: 0 <= k < |batchOffset| && h in stored[k] ==> Complete(cfg, h)
    ensures AllComplete(cfg, Scatter(batchOffset, stored, retires, kept, hyps0, results0, |batchOffset|).hyps)
  {
    var n := |batchOffset|;
    var r := Scatter(batchOffset, stored, retires, kept, hyps0, results0, n);
    forall b, h | 0 <= b < |r.hyps| && h in r.hyps[b] ensures Complete(cfg, h) {
      if k :| 0 <= k < n && batchOffset[k] == b {
        ScatterAt(batchOffset, stored, retires, kept, hyps0, results0, n, k);
      } else {
        ScatterElsewhere(batchOffset, stored, retires, kept, hyps0, results0, n, b);
      }
    }
  }

  /** An alive row after `len - 1` steps: the start token, then `len - 1` vocabulary tokens. */
  predicate AliveRow(cfg: Config, len: nat, row: seq<nat>) {
    && |row| == len && len >= 1 && row[0] == cfg.startToken
    && forall p :: 1 <= p < len ==> row[p] < cfg.vocabSize
  }

  /** Appending a vocabulary token to a live row gives a live row one token longer. */
  lemma {:induction false} AliveRowExtend(cfg: Config, len: nat, row: seq<nat>, t: nat)
    requires AliveRow(cfg, len, row) && t < cfg.vocabSize
    ensures AliveRow(cfg, len + 1, row + [t])
  {
    forall p | 1 <= p < len + 1 ensures (row + [t])[p] < cfg.vocabSize {
      if p < len {
        assert (row + [t])[p] == row[p];
      }
    }
  }

  /** `alive_seq` and `topk_log_probs` in the blocked view: `K` rows and `K` running scores per active example. */
  predicate AliveBlocks(cfg: Config, len: nat, beams: seq<seq<seq<nat>>>, running: seq<seq<ExtInt>>) {
    && |running| == |beams|
    && (forall i :: 0 <= i < |beams| ==> |beams[i]| == cfg.beamSize && |running[i]| == cfg.beamSize)
    && (forall i, o :: 0 <= i < |beams| && 0 <= o < |beams[i]| ==> AliveRow(cfg, len, beams[i][o]))
  }

  /**
   * The hypotheses a step stores are complete: a finished row of `step + 2`
   * tokens, without its start token, ends with the end token or has reached
   * `max_length`.
   */
  lemma {:induction false} FinishedHypsComplete(cfg: Config, step: nat, rows: seq<seq<nat>>, scores: seq<ExtInt>, finished: seq<bool>)
    requires step < cfg.maxLength
    requires |rows| == |scores| == |finished|
    requires forall j :: 0 <= j < |rows| ==> |rows[j]| == step + 2 && AliveRow(cfg, step + 2, rows[j])
    requires forall j :: 0 <= j < |rows| ==> (finished[j] <==> IsFinished(cfg, step, Last(rows[j])))
    ensures forall h :: h in FinishedHyps(rows, scores, finished) ==> Complete(cfg, h)
  {
    FinishedHypsFromRows(rows, scores, finished);
  }

  function Last(row: seq<nat>): nat
    requires |row| >= 1
  {
    row[|row| - 1]
  }

  // ---------------------------------------------------------------------------
  // The decoding loop (diff_trans.py:320-429)

  /**
   * Whether each kept row of each active example has finished
   * (`topk_ids.eq(end_token)`, all of them at the last step).
   */
  function FinishedFlags(cfg: Config, step: nat, rows: seq<seq<seq<nat>>>): (finished: seq<seq<bool>>)
    requires forall i, j :: 0 <= i < |rows| && 0 <= j < |rows[i]| ==> |rows[i][j]| >= 1
    ensures |finished| == |rows|
    ensures forall i :: 0 <= i < |rows| ==> |finished[i]| == |rows[i]|
    ensures forall i, j :: 0 <= i < |rows| && 0 <= j < |rows[i]| ==> (finished[i][j] <==> IsFinished(cfg, step, Last(rows[i][j])))
  {
    seq(|rows|, i requires 0 <= i < |rows| =>
      seq(|rows[i]|, j requires 0 <= j < |rows[i]| => IsFinished(cfg, step, Last(rows[i][j]))))
  }

  predicate AnyFinished(finished: seq<seq<bool>>) {
    exists i, j :: 0 <= i < |finished| && 0 <= j < |finished[i]| && finished[i][j]
  }

  /** `topk_log_probs.masked_fill_(is_finished, -1e10)`. */
  function Mask(scores: seq<seq<ExtInt>>, finished: seq<seq<bool>>): (masked: seq<seq<ExtInt>>)
    requires |scores| == |finished| && forall i :: 0 <= i < |scores| ==> |scores[i]| == |finished[i]|
    ensures |masked| == |scores|
    ensures forall i :: 0 <= i < |scores| ==> |masked[i]| == |scores[i]|
    ensures forall i, j :: 0 <= i < |scores| && 0 <= j < |scores[i]| ==>
      masked[i][j] == if finished[i][j] then Fin(FinishedScore) else scores[i][j]
  {
    seq(|scores|, i requires 0 <= i < |scores| =>
      seq(|scores[i]|, j requires 0 <= j < |scores[i]| => if finished[i][j] then Fin(FinishedScore) else scores[i][j]))
  }

  /** When every active example retires, none stays active. */
  lemma {:induction false} NoSurvivors(retired: seq<bool>)
    requires forall k :: 0 <= k < |retired| ==> retired[k]
    ensures Survivors(retired) == []
  {
    if retired != [] {
      NoSurvivors(retired[..|retired| - 1]);
    }
  }

  /**
   * The top-K selection of every active example, each row extended by one
   * vocabulary token.
   */
  function ExpandAll(model: Model, cfg: Config, step: nat, batchOffset: seq<nat>, beams: seq<seq<seq<nat>>>, running: seq<seq<ExtInt>>): (exps: seq<Expansion>)
    requires ValidConfig(cfg) && |beams| == |batchOffset|
    requires AliveBlocks(cfg, step + 1, beams, running)
    ensures |exps| == |batchOffset|
    ensures forall i :: 0 <= i < |exps| ==> exps[i] == Expand(model, cfg, step, batchOffset[i], beams[i], running[i])
    ensures forall i :: 0 <= i < |exps| ==> |exps[i].rows| == cfg.beamSize && |exps[i].scores| == cfg.beamSize
    ensures forall i, j :: 0 <= i < |exps| && 0 <= j < cfg.beamSize ==> AliveRow(cfg, step + 2, exps[i].rows[j])
  {
    var exps := seq(|batchOffset|, i requires 0 <= i < |batchOffset| => Expand(model, cfg, step, batchOffset[i], beams[i], running[i]));
    forall i, j | 0 <= i < |exps| && 0 <= j < cfg.beamSize ensures AliveRow(cfg, step + 2, exps[i].rows[j]) {
      var e := Expand(model, cfg, step, batchOffset[i], beams[i], running[i]);
      var o, t := Origin(e.ids[j], cfg.beamSize, cfg.vocabSize), Token(e.ids[j], cfg.vocabSize);
      assert e.rows[j] == beams[i][o] + [t];
      AliveRowExtend(cfg, step + 1, beams[i][o], t);
    }
    exps
  }

  /** The kept rows of every active example (`alive_seq` after the append, blocked). */
  function KeptRows(exps: seq<Expansion>): (rows: seq<seq<seq<nat>>>)
    ensures |rows| == |exps|
    ensures forall i :: 0 <= i < |exps| ==> rows[i] == exps[i].rows
  {
    seq(|exps|, i requires 0 <= i < |exps| => exps[i].rows)
  }

  /** The kept scores of every active example (`topk_scores`). */
  function KeptScores(exps: seq<Expansion>): (scores: seq<seq<ExtInt>>)
    ensures |scores| == |exps|
    ensures forall i :: 0 <= i < |exps| ==> scores[i] == exps[i].scores
  {
    seq(|exps|, i requires 0 <= i < |exps| => exps[i].scores)
  }

  /** After a step every active example again has `K` alive rows, one token longer. */
  lemma {:induction false} ExpandAllAlive(model: Model, cfg: Config, step: nat, batchOffset: seq<nat>, beams: seq<seq<seq<nat>>>, running: seq<seq<ExtInt>>)
    requires ValidConfig(cfg) && |beams| == |batchOffset|
    requires AliveBlocks(cfg, step + 1, beams, running)
    ensures var exps := ExpandAll(model, cfg, step, batchOffset, beams, running);
      AliveBlocks(cfg, step + 2, KeptRows(exps), KeptScores(exps))
  {
  }

  /** Keeping some active examples keeps their alive rows. */
  lemma {:induction false} CompactAlive(cfg: Config, len: nat, beams: seq<seq<seq<nat>>>, running: seq<seq<ExtInt>>, keep: seq<nat>)
    requires AliveBlocks(cfg, len, beams, running)
    requires forall m :: 0 <= m < |keep| ==> keep[m] < |beams|
    ensures AliveBlocks(cfg, len, Gather(beams, keep), Gather(running, keep))
  {
  }

  /** The step's rows, scores and flags as `StoreFinished` receives them satisfy `StepRows`. */
  lemma {:induction false} StepRowsHold(model: Model, cfg: Config, step: nat, batchSize: nat, s: Search, topBeamFinished: seq<bool>)
    requires ValidConfig(cfg) && step < cfg.maxLength
    requires Searching(cfg, batchSize, step, s)
    requires var rows := KeptRows(ExpandAll(model, cfg, step, s.batchOffset, s.beams, s.running));
      && |topBeamFinished| == |s.batchOffset|
      && forall i :: 0 <= i < |s.batchOffset| ==> (FinishedFlags(cfg, step, rows)[i][0] ==> topBeamFinished[i])
    ensures var exps := ExpandAll(model, cfg, step, s.batchOffset, s.beams, s.running);
      StepRows(cfg, step, batchSize, s.batchOffset, KeptRows(exps), KeptScores(exps),
               FinishedFlags(cfg, step, KeptRows(exps)), topBeamFinished, s.hyps, s.results)
  {
  }

  /**
   * The loop state of `translate_batch`: `batch_offset`, `alive_seq` and
   * `topk_log_probs` (blocked), `top_beam_finished`, `hypotheses` and the
   * results.
   */
  datatype Search = Search(
    batchOffset: seq<nat>,
    beams: seq<seq<seq<nat>>>,
    running: seq<seq<ExtInt>>,
    topBeamFinished: seq<bool>,
    hyps: seq<seq<Hyp>>,
    results: seq<seq<Hyp>>)

  /** What holds before step `step`: `K` alive rows of `step + 1` tokens per active example, the ledger, complete hypotheses. */
  predicate Searching(cfg: Config, batchSize: nat, step: nat, s: Search) {
    && |s.beams| == |s.batchOffset| && |s.topBeamFinished| == |s.batchOffset|
    && AliveBlocks(cfg, step + 1, s.beams, s.running)
    && Ledger(cfg.nBest, batchSize, s.batchOffset, s.hyps, s.results)
    && AllComplete(cfg, s.hyps)
  }

  /**
   * The state before the first step (diff_trans.py:320-331): every example
   * active, `K` rows holding the start token, only beam 0 alive, nothing
   * stored.
   */
  function InitialSearch(cfg: Config, batchSize: nat): (s: Search)
    requires ValidConfig(cfg)
    ensures Searching(cfg, batchSize, 0, s)
    ensures s.batchOffset == Range(batchSize)
    ensures forall i :: 0 <= i < batchSize ==> s.running[i] == InitialRunning(cfg.beamSize)
  {
    var k := cfg.beamSize;
    var s := Search(
      Range(batchSize),
      seq(batchSize, _ => seq(k, _ => [cfg.startToken])),
      seq(batchSize, _ => InitialRunning(k)),
      seq(batchSize, _ => false),
      seq(batchSize, _ => []),
      seq(batchSize, _ => []));
    forall b | 0 <= b < batchSize ensures b in s.batchOffset {
      assert s.batchOffset[b] == b;
    }
    s
  }

  /**
   * One pass of the decoding loop (diff_trans.py:333-430) as a function of
   * the loop state: every active example is expanded; when no row finished
   * the new rows and scores simply replace the old ones, otherwise the
   * finished rows are stored and the survivors kept (`StepState`). The flag
   * is the `break` of diff_trans.py:420-421.
   */
  function Step(model: Model, cfg: Config, batchSize: nat, step: nat, s: Search): (r: (Search, bool))
    requires ValidConfig(cfg) && step < cfg.maxLength
    requires Searching(cfg, batchSize, step, s)
  {
    var exps := ExpandAll(model, cfg, step, s.batchOffset, s.beams, s.running);
    var rows, scores := KeptRows(exps), KeptScores(exps);
    var finished := FinishedFlags(cfg, step, rows);
    if !AnyFinished(finished) then
      (Search(s.batchOffset, rows, scores, s.topBeamFinished, s.hyps, s.results), false)
    else
      var topBeamFinished := TopBeamUpdate(s.topBeamFinished, finished);
      StepRowsHold(model, cfg, step, batchSize, s, topBeamFinished);
      StepState(cfg, step, batchSize, s.batchOffset, rows, scores, finished, topBeamFinished, s.hyps, s.results)
  }

  /**
   * The part of a step that runs when some row finished (diff_trans.py:384-430):
   * the books after storing and retiring, and the surviving examples with
   * their rows, masked running scores and top-beam flags; `stop` exactly when
   * no example survives.
   */
  function StepState(cfg: Config, step: nat, batchSize: nat, batchOffset: seq<nat>,
    rows: seq<seq<seq<nat>>>, scores: seq<seq<ExtInt>>, finished: seq<seq<bool>>, topBeamFinished: seq<bool>,
    hyps0: seq<seq<Hyp>>, results0: seq<seq<Hyp>>): (r: (Search, bool))
    requires StepRows(cfg, step, batchSize, batchOffset, rows, scores, finished, topBeamFinished, hyps0, results0)
    ensures r.1 <==> r.0.batchOffset == []
  {
    var books := StepBooks(cfg, step, batchSize, batchOffset, rows, scores, finished, topBeamFinished, hyps0, results0);
    var keep := books.nonFinished;
    if keep == [] then (Search([], [], [], [], books.hyps, books.results), true)
    else
      (Search(Gather(batchOffset, keep), Gather(rows, keep), Gather(Mask(scores, finished), keep),
              Gather(topBeamFinished, keep), books.hyps, books.results), false)
  }

  /**
   * The storing part of a step keeps the search invariant, and at the last
   * step with `n_best <= K` it retires every example.
   */
  lemma {:induction false} StepStateSearching(cfg: Config, step: nat, batchSize: nat, batchOffset: seq<nat>,
    rows: seq<seq<seq<nat>>>, scores: seq<seq<ExtInt>>, finished: seq<seq<bool>>, topBeamFinished: seq<bool>,
    hyps0: seq<seq<Hyp>>, results0: seq<seq<Hyp>>)
    requires StepRows(cfg, step, batchSize, batchOffset, rows, scores, finished, topBeamFinished, hyps0, results0)
    ensures Searching(cfg, batchSize, step + 1, StepState(cfg, step, batchSize, batchOffset, rows, scores, finished, topBeamFinished, hyps0, results0).0)
    ensures step + 1 == cfg.maxLength && cfg.nBest <= cfg.beamSize ==>
      StepState(cfg, step, batchSize, batchOffset, rows, scores, finished, topBeamFinished, hyps0, results0).1
  {
    var running := Mask(scores, finished);
    assert AliveBlocks(cfg, step + 2, rows, running);
    StepKeepsLedger(cfg, step, batchSize, batchOffset, rows, scores, finished, topBeamFinished, hyps0, results0);
    StepKeepsComplete(cfg, step, batchSize, batchOffset, rows, scores, finished, topBeamFinished, hyps0, results0);
    if step + 1 == cfg.maxLength && cfg.nBest <= cfg.beamSize {
      LastStepRetiresAll(cfg, step, batchSize, batchOffset, rows, scores, finished, topBeamFinished, hyps0, results0);
    }
    var books := StepBooks(cfg, step, batchSize, batchOffset, rows, scores, finished, topBeamFinished, hyps0, results0);
    if books.nonFinished == [] {
      assert Gather(batchOffset, books.nonFinished) == [];
    } else {
      CompactAlive(cfg, step + 2, rows, running, books.nonFinished);
    }
  }

  /**
   * A step keeps the search invariant. It stops only with no active example
   * left, and it stops whenever it leaves none of the examples it started
   * with; the last step with `n_best <= K` leaves none.
   */
  lemma {:induction false} StepSearching(model: Model, cfg: Config, batchSize: nat, step: nat, s: Search)
    requires ValidConfig(cfg) && step < cfg.maxLength
    requires Searching(cfg, batchSize, step, s)
    ensures var r := Step(model, cfg, batchSize, step, s);
      && Searching(cfg, batchSize, step + 1, r.0)
      && (r.1 ==> r.0.batchOffset == [])
      && (r.0.batchOffset == [] && s.batchOffset != [] ==> r.1)
    ensures step + 1 == cfg.maxLength && cfg.nBest <= cfg.beamSize ==> Step(model, cfg, batchSize, step, s).0.batchOffset == []
  {
    var exps := ExpandAll(model, cfg, step, s.batchOffset, s.beams, s.running);
    ExpandAllAlive(model, cfg, step, s.batchOffset, s.beams, s.running);
    var rows := KeptRows(exps);
    var finished := FinishedFlags(cfg, step, rows);
    if step + 1 == cfg.maxLength && |s.batchOffset| > 0 {
      assert finished[0][0];
    }
    if AnyFinished(finished) {
      var topBeamFinished := TopBeamUpdate(s.topBeamFinished, finished);
      StepRowsHold(model, cfg, step, batchSize, s, topBeamFinished);
      StepStateSearching(cfg, step, batchSize, s.batchOffset, rows, KeptScores(exps), finished, topBeamFinished, s.hyps, s.results);
    }
  }

  /**
   * The decoding loop `for step in range(max_length)` from step `step` on:
   * the state once a step stops it or the last step has run.
   */
  function Decode(model: Model, cfg: Config, batchSize: nat, step: nat, s: Search): Search
    requires ValidConfig(cfg) && step <= cfg.maxLength
    requires Searching(cfg, batchSize, step, s)
    decreases cfg.maxLength - step
  {
    if step == cfg.maxLength then s
    else
      StepSearching(model, cfg, batchSize, step, s);
      var r := Step(model, cfg, batchSize, step, s);
      if r.1 then r.0 else Decode(model, cfg, batchSize, step + 1, r.0)
  }

  /**
   * When decoding ends, every example still active has no results and every
   * other one is done (its results are the `n_best` best of the hypotheses
   * the search stored for it), and every stored hypothesis is complete.
   */
  lemma {:induction false} DecodeKeepsLedger(model: Model, cfg: Config, batchSize: nat, step: nat, s: Search)
    requires ValidConfig(cfg) && step <= cfg.maxLength
    requires Searching(cfg, batchSize, step, s)
    ensures var r := Decode(model, cfg, batchSize, step, s);
      Ledger(cfg.nBest, batchSize, r.batchOffset, r.hyps, r.results) && AllComplete(cfg, r.hyps)
    decreases cfg.maxLength - step
  {
    if step < cfg.maxLength {
      StepSearching(model, cfg, batchSize, step, s);
      var r := Step(model, cfg, batchSize, step, s);
      if r.1 {
        assert Decode(model, cfg, batchSize, step, s) == r.0;
      } else {
        assert Decode(model, cfg, batchSize, step, s) == Decode(model, cfg, batchSize, step + 1, r.0);
        DecodeKeepsLedger(model, cfg, batchSize, step + 1, r.0);
      }
    }
  }

  /** With at least one step to run and `n_best <= K`, decoding retires every example. */
  lemma {:induction false} DecodeRetiresAll(model: Model, cfg: Config, batchSize: nat, step: nat, s: Search)
    requires ValidConfig(cfg) && step < cfg.maxLength && cfg.nBest <= cfg.beamSize
    requires Searching(cfg, batchSize, step, s)
    ensures Decode(model, cfg, batchSize, step, s).batchOffset == []
    decreases cfg.maxLength - step
  {
    StepSearching(model, cfg, batchSize, step, s);
    var r := Step(model, cfg, batchSize, step, s);
    if !r.1 && step + 1 < cfg.maxLength {
      DecodeRetiresAll(model, cfg, batchSize, step + 1, r.0);
    }
  }

  /**
   * `translate_batch` (diff_trans.py:246-457) on a batch of `batchSize`
   * examples: the stored hypotheses and results are those of `Decode` from
   * the initial state. Every stored hypothesis is complete; each example's
   * results are empty or its `n_best` best stored hypotheses, and with at
   * least one step and `n_best <= K` every example gets them.
   */
  method TranslateBatch(model: Model, cfg: Config, batchSize: nat) returns (hyps: seq<seq<Hyp>>, results: seq<seq<Hyp>>)
    requires ValidConfig(cfg)
    ensures hyps == Decode(model, cfg, batchSize, 0, InitialSearch(cfg, batchSize)).hyps
    ensures results == Decode(model, cfg, batchSize, 0, InitialSearch(cfg, batchSize)).results
    ensures |hyps| == batchSize && |results| == batchSize
    ensures AllComplete(cfg, hyps)
    ensures forall b :: 0 <= b < batchSize ==> results[b] == [] || Done(cfg.nBest, hyps[b], results[b])
    ensures cfg.maxLength >= 1 && cfg.nBest <= cfg.beamSize ==>
      forall b :: 0 <= b < batchSize ==> Done(cfg.nBest, hyps[b], results[b])
  {
    ghost var final := Decode(model, cfg, batchSize, 0, InitialSearch(cfg, batchSize));
    DecodeResults(model, cfg, batchSize);
    var s := InitialSearch(cfg, batchSize);
    var step := 0;
    while step < cfg.maxLength
      invariant step <= cfg.maxLength
      invariant Searching(cfg, batchSize, step, s)
      invariant Decode(model, cfg, batchSize, step, s) == final
    {
      DecodeUnfold(model, cfg, batchSize, step, s);
      var next, stop := DecodeStep(model, cfg, batchSize, step, s);
      if stop {
        s := next;
        break;
      }
      s, step := next, step + 1;
    }
    assert s == final;
    hyps, results := s.hyps, s.results;
  }

  /** One step of `Decode`: the state after it, and decoding from there on unless it stopped. */
  lemma {:induction false} DecodeUnfold(model: Model, cfg: Config, batchSize: nat, step: nat, s: Search)
    requires ValidConfig(cfg) && step < cfg.maxLength
    requires Searching(cfg, batchSize, step, s)
    ensures var r := Step(model, cfg, batchSize, step, s);
      && Searching(cfg, batchSize, step + 1, r.0)
      && Decode(model, cfg, batchSize, step, s) == if r.1 then r.0 else Decode(model, cfg, batchSize, step + 1, r.0)
  {
    StepSearching(model, cfg, batchSize, step, s);
  }

  /**
   * The results of decoding a batch from the initial state: every stored
   * hypothesis is complete, each example's results are empty or its `n_best`
   * best stored hypotheses, and with at least one step and `n_best <= K`
   * every example gets them.
   */
  lemma {:induction false} DecodeResults(model: Model, cfg: Config, batchSize: nat)
    requires ValidConfig(cfg)
    ensures var r := Decode(model, cfg, batchSize, 0, InitialSearch(cfg, batchSize));
      && |r.hyps| == batchSize && |r.results| == batchSize
      && AllComplete(cfg, r.hyps)
      && (forall b :: 0 <= b < batchSize ==> r.results[b] == [] || Done(cfg.nBest, r.hyps[b], r.results[b]))
      && (cfg.maxLength >= 1 && cfg.nBest <= cfg.beamSize ==>
            forall b :: 0 <= b < batchSize ==> Done(cfg.nBest, r.hyps[b], r.results[b]))
  {
    DecodeKeepsLedger(model, cfg, batchSize, 0, InitialSearch(cfg, batchSize));
    if cfg.maxLength >= 1 && cfg.nBest <= cfg.beamSize {
      DecodeRetiresAll(model, cfg, batchSize, 0, InitialSearch(cfg, batchSize));
    }
  }

  /**
   * One pass of the decoding loop (diff_trans.py:333-430): expands every
   * active example, stores the rows that finished and compacts the active
   * examples; `stop` when none is left.
   */
  method DecodeStep(model: Model, cfg: Config, batchSize: nat, step: nat, s: Search) returns (next: Search, stop: bool)
    requires ValidConfig(cfg) && step < cfg.maxLength
    requires Searching(cfg, batchSize, step, s)
    ensures (next, stop) == Step(model, cfg, batchSize, step, s)
  {
    var exps := ExpandAll(model, cfg, step, s.batchOffset, s.beams, s.running);
    var rows, scores := KeptRows(exps), KeptScores(exps);
    var finished := FinishedFlags(cfg, step, rows);
    if !AnyFinished(finished) {
      return Search(s.batchOffset, rows, scores, s.topBeamFinished, s.hyps, s.results), false;
    }
    var topBeamFinished := TopBeamUpdate(s.topBeamFinished, finished);
    StepRowsHold(model, cfg, step, batchSize, s, topBeamFinished);
    next, stop := StoreAndCompact(cfg, step, batchSize, s.batchOffset, rows, scores, finished, topBeamFinished, s.hyps, s.results);
  }

  /**
   * The part of a step that runs when some row finished (diff_trans.py:384-430):
   * masks the finished rows' running scores, stores the finished rows, retires
   * examples and keeps the rest.
   */
  method StoreAndCompact(
    cfg: Config, step: nat, batchSize: nat, batchOffset: seq<nat>,
    rows: seq<seq<seq<nat>>>, scores: seq<seq<ExtInt>>, finished: seq<seq<bool>>, topBeamFinished: seq<bool>,
    hyps0: seq<seq<Hyp>>, results0: seq<seq<Hyp>>)
    returns (next: Search, stop: bool)
    requires StepRows(cfg, step, batchSize, batchOffset, rows, scores, finished, topBeamFinished, hyps0, results0)
    ensures (next, stop) == StepState(cfg, step, batchSize, batchOffset, rows, scores, finished, topBeamFinished, hyps0, results0)
    ensures Searching(cfg, batchSize, step + 1, next)
    ensures stop <==> next.batchOffset == []
    ensures step + 1 == cfg.maxLength && cfg.nBest <= cfg.beamSize ==> stop
  {
    StepStateSearching(cfg, step, batchSize, batchOffset, rows, scores, finished, topBeamFinished, hyps0, results0);
    var running := Mask(scores, finished);
    assert Shaped(batchOffset, rows, scores, finished, topBeamFinished, hyps0, results0);
    var hyps, results, nonFinished := StoreFinished(cfg.nBest, batchOffset, rows, scores, finished, topBeamFinished, hyps0, results0);
    assert Books(hyps, results, nonFinished) == StepBooks(cfg, step, batchSize, batchOffset, rows, scores, finished, topBeamFinished, hyps0, results0);
    if |nonFinished| == 0 {
      return Search([], [], [], [], hyps, results), true;
    }
    next := Search(
      Gather(batchOffset, nonFinished),
      Gather(rows, nonFinished),
      Gather(running, nonFinished),
      Gather(topBeamFinished, nonFinished),
      hyps, results);
    stop := false;
  }

  /** What the decoding loop knows about one step's kept rows when it stores the finished ones. */
  predicate StepRows(cfg: Config, step: nat, batchSize: nat, batchOffset: seq<nat>,
    rows: seq<seq<seq<nat>>>, scores: seq<seq<ExtInt>>, finished: seq<seq<bool>>, topBeamFinished: seq<bool>,
    hyps0: seq<seq<Hyp>>, results0: seq<seq<Hyp>>) {
    && ValidConfig(cfg) && step < cfg.maxLength
    && Ledger(cfg.nBest, batchSize, batchOffset, hyps0, results0) && AllComplete(cfg, hyps0)
    && |rows| == |batchOffset| && |scores| == |batchOffset| && |finished| == |batchOffset| && |topBeamFinished| == |batchOffset|
    && (forall i :: 0 <= i < |rows| ==> |rows[i]| == cfg.beamSize && |scores[i]| == cfg.beamSize && |finished[i]| == cfg.beamSize)
    && (forall i, j :: 0 <= i < |rows| && 0 <= j < cfg.beamSize ==> |rows[i][j]| == step + 2 && AliveRow(cfg, step + 2, rows[i][j]))
    && (forall i, j :: 0 <= i < |rows| && 0 <= j < cfg.beamSize ==> (finished[i][j] <==> IsFinished(cfg, step, Last(rows[i][j]))))
    && (forall i :: 0 <= i < |rows| ==> (finished[i][0] ==> topBeamFinished[i]))
  }

  /** The books after the loop over active examples, as `StoreFinished` leaves them. */
  function StepBooks(cfg: Config, step: nat, batchSize: nat, batchOffset: seq<nat>,
    rows: seq<seq<seq<nat>>>, scores: seq<seq<ExtInt>>, finished: seq<seq<bool>>, topBeamFinished: seq<bool>,
    hyps0: seq<seq<Hyp>>, results0: seq<seq<Hyp>>): (r: Books)
    requires StepRows(cfg, step, batchSize, batchOffset, rows, scores, finished, topBeamFinished, hyps0, results0)
    ensures forall m :: 0 <= m < |r.nonFinished| ==> r.nonFinished[m] < |batchOffset|
  {
    assert Shaped(batchOffset, rows, scores, finished, topBeamFinished, hyps0, results0);
    var stored := StoredAll(batchOffset, rows, scores, finished, topBeamFinished, hyps0, results0);
    var retires := RetiresAll(cfg.nBest, topBeamFinished, stored);
    ScatterSurvivors(batchOffset, stored, retires, RetiredAll(cfg.nBest, topBeamFinished, stored), hyps0, results0, |batchOffset|);
    Scatter(batchOffset, stored, RetiresAll(cfg.nBest, topBeamFinished, stored), RetiredAll(cfg.nBest, topBeamFinished, stored),
            hyps0, results0, |batchOffset|)
  }

  /** The ledger carries over to the compacted active examples. */
  lemma {:induction false} StepKeepsLedger(cfg: Config, step: nat, batchSize: nat, batchOffset: seq<nat>,
    rows: seq<seq<seq<nat>>>, scores: seq<seq<ExtInt>>, finished: seq<seq<bool>>, topBeamFinished: seq<bool>,
    hyps0: seq<seq<Hyp>>, results0: seq<seq<Hyp>>)
    requires StepRows(cfg, step, batchSize, batchOffset, rows, scores, finished, topBeamFinished, hyps0, results0)
    ensures var r := StepBooks(cfg, step, batchSize, batchOffset, rows, scores, finished, topBeamFinished, hyps0, results0);
      && (forall m :: 0 <= m < |r.nonFinished| ==> r.nonFinished[m] < |batchOffset|)
      && Ledger(cfg.nBest, batchSize, Gather(batchOffset, r.nonFinished), r.hyps, r.results)
  {
    assert Shaped(batchOffset, rows, scores, finished, topBeamFinished, hyps0, results0);
    var stored := StoredAll(batchOffset, rows, scores, finished, topBeamFinished, hyps0, results0);
    ScatterKeepsLedger(cfg.nBest, batchSize, batchOffset, stored,
      RetiresAll(cfg.nBest, topBeamFinished, stored), RetiredAll(cfg.nBest, topBeamFinished, stored), hyps0, results0);
  }

  /** Every hypothesis stored in a step is complete. */
  lemma {:induction false} StepKeepsComplete(cfg: Config, step: nat, batchSize: nat, batchOffset: seq<nat>,
    rows: seq<seq<seq<nat>>>, scores: seq<seq<ExtInt>>, finished: seq<seq<bool>>, topBeamFinished: seq<bool>,
    hyps0: seq<seq<Hyp>>, results0: seq<seq<Hyp>>)
    requires StepRows(cfg, step, batchSize, batchOffset, rows, scores, finished, topBeamFinished, hyps0, results0)
    ensures AllComplete(cfg, StepBooks(cfg, step, batchSize, batchOffset, rows, scores, finished, topBeamFinished, hyps0, results0).hyps)
  {
    assert Shaped(batchOffset, rows, scores, finished, topBeamFinished, hyps0, results0);
    var stored := StoredAll(batchOffset, rows, scores, finished, topBeamFinished, hyps0, results0);
    forall i, h | 0 <= i < |batchOffset| && h in stored[i] ensures Complete(cfg, h) {
      FinishedHypsComplete(cfg, step, rows[i], scores[i], finished[i]);
    }
    ScatterKeepsComplete(cfg, batchOffset, stored,
      RetiresAll(cfg.nBest, topBeamFinished, stored), RetiredAll(cfg.nBest, topBeamFinished, stored), hyps0, results0);
  }

  /** At the last step every row finishes, so with `n_best <= K` every active example retires. */
  lemma {:induction false} LastStepRetiresAll(cfg: Config, step: nat, batchSize: nat, batchOffset: seq<nat>,
    rows: seq<seq<seq<nat>>>, scores: seq<seq<ExtInt>>, finished: seq<seq<bool>>, topBeamFinished: seq<bool>,
    hyps0: seq<seq<Hyp>>, results0: seq<seq<Hyp>>)
    requires StepRows(cfg, step, batchSize, batchOffset, rows, scores, finished, topBeamFinished, hyps0, results0)
    requires step + 1 == cfg.maxLength && cfg.nBest <= cfg.beamSize
    ensures StepBooks(cfg, step, batchSize, batchOffset, rows, scores, finished, topBeamFinished, hyps0, results0).nonFinished == []
  {
    assert Shaped(batchOffset, rows, scores, finished, topBeamFinished, hyps0, results0);
    var stored := StoredAll(batchOffset, rows, scores, finished, topBeamFinished, hyps0, results0);
    var flags := RetiresAll(cfg.nBest, topBeamFinished, stored);
    forall i | 0 <= i < |batchOffset| ensures flags[i] {
      assert finished[i][0];
      assert |FinishedHyps(rows[i], scores[i], finished[i])| == cfg.beamSize;
    }
    ScatterSurvivors(batchOffset, stored, flags, RetiredAll(cfg.nBest, topBeamFinished, stored), hyps0, results0, |batchOffset|);
    assert flags[..|batchOffset|] == flags;
    NoSurvivors(flags);
  }

  // ---------------------------------------------------------------------------
  // The flat layout (diff_trans.py:322-323, 363-370)

  /** `alive_seq` as the source holds it: the blocks of all active examples, one after the other. */
  function Flatten<T>(blocks: seq<seq<T>>): (flat: seq<T>)
  {
    if blocks == [] then [] else Flatten(blocks[..|blocks| - 1]) + blocks[|blocks| - 1]
  }

  /** Blocks of `k` rows flatten to `|blocks| * k` rows. */
  lemma {:induction false} FlattenLength<T>(blocks: seq<seq<T>>, k: nat)
    requires forall i :: 0 <= i < |blocks| ==> |blocks[i]| == k
    ensures |Flatten(blocks)| == Width(|blocks|, k)
  {
    if blocks != [] {
      FlattenLength(blocks[..|blocks| - 1], k);
    }
  }

  /** Row `o` of the block of active example `i` is flat row `i * K + o`. */
  lemma {:induction false} FlatRow<T>(blocks: seq<seq<T>>, k: nat, i: nat, o: nat)
    requires forall b :: 0 <= b < |blocks| ==> |blocks[b]| == k
    requires i < |blocks| && o < k
    ensures Width(i, k) + o < |Flatten(blocks)|
    ensures Flatten(blocks)[Width(i, k) + o] == blocks[i][o]
  {
    var n := |blocks| - 1;
    var init := blocks[..n];
    FlattenLength(init, k);
    FlattenLength(blocks, k);
    if i < n {
      FlatRow(init, k, i, o);
      WidthMonotone(i + 1, n, k);
    }
  }

  lemma {:induction false} WidthMonotone(i: nat, j: nat, k: nat)
    requires i <= j
    ensures Width(i, k) <= Width(j, k)
  {
    if i < j {
      WidthMonotone(i, j - 1, k);
    }
  }

  /**
   * `batch_index = topk_beam_index + beam_offset[i]` then the append: when
   * row `j` of example `i`'s new block extends row `o` of its old block, the
   * new flat row `i * K + j` is the old flat row `i * K + o`, which lies in
   * example `i`'s own block `[i * K, (i + 1) * K)`, followed by the token.
   */
  lemma {:induction false} AppendToParent<T>(before: seq<seq<seq<T>>>, after: seq<seq<seq<T>>>, k: nat, i: nat, j: nat, o: nat, t: T)
    requires |before| == |after|
    requires forall b :: 0 <= b < |before| ==> |before[b]| == k && |after[b]| == k
    requires i < |before| && j < k && o < k
    requires after[i][j] == before[i][o] + [t]
    ensures Width(i, k) <= Width(i, k) + o < Width(i + 1, k)
    ensures Width(i, k) + o < |Flatten(before)| && Width(i, k) + j < |Flatten(after)|
    ensures Flatten(after)[Width(i, k) + j] == Flatten(before)[Width(i, k) + o] + [t]
  {
    FlatRow(before, k, i, o);
    FlatRow(after, k, i, j);
  }

  /** Each step's new `alive_seq` rows extend a parent row of the same example. */
  lemma {:induction false} ExpandAppendsToParent(model: Model, cfg: Config, step: nat, batchOffset: seq<nat>, beams: seq<seq<seq<nat>>>, running: seq<seq<ExtInt>>, i: nat, j: nat)
    requires ValidConfig(cfg) && |beams| == |batchOffset|
    requires AliveBlocks(cfg, step + 1, beams, running)
    requires i < |batchOffset| && j < cfg.beamSize
    ensures var e := ExpandAll(model, cfg, step, batchOffset, beams, running)[i];
      var o := Origin(e.ids[j], cfg.beamSize, cfg.vocabSize);
      e.rows[j] == beams[i][o] + [Token(e.ids[j], cfg.vocabSize)]
  {
    var e := ExpandAll(model, cfg, step, batchOffset, beams, running)[i];
    assert e == Expand(model, cfg, step, batchOffset[i], beams[i], running[i]);
  }

  /** `top_beam_finished |= is_finished[:, 0]`: once an example's top beam has finished it stays so. */
  function TopBeamUpdate(topBeamFinished: seq<bool>, finished: seq<seq<bool>>): (r: seq<bool>)
    requires |finished| == |topBeamFinished| && forall i :: 0 <= i < |finished| ==> |finished[i]| >= 1
    ensures |r| == |topBeamFinished|
    ensures forall i :: 0 <= i < |r| ==> (r[i] <==> topBeamFinished[i] || finished[i][0])
  {
    seq(|topBeamFinished|, i requires 0 <= i < |topBeamFinished| => topBeamFinished[i] || finished[i][0])
  }

  // ---------------------------------------------------------------------------
  // Sorting the batch by length and back (diff_trans.py:470-478)

  /** `src_lengths.sort(descending=True)`'s permutation `rank`: positions by non-increasing length. */
  function Rank(lengths: seq<nat>): (rank: seq<nat>)
    ensures |rank| == |lengths|
    ensures forall m :: 0 <= m < |rank| ==> rank[m] < |lengths|
    ensures Distinct(rank)
    ensures forall m, m' :: 0 <= m < m' < |rank| ==> lengths[rank[m']] <= lengths[rank[m]]
  {
    var keys := seq(|lengths|, i requires 0 <= i < |lengths| => Fin(lengths[i]));
    TopK(keys, |keys|)
  }

  /** `recover` inverts `rank`: the `m`-th position in `recover` holds the entry of `rank` equal to `m`. */
  lemma {:induction false} RecoverInvertsRank(lengths: seq<nat>)
    ensures var rank := Rank(lengths);
      forall m :: 0 <= m < |rank| ==> rank[Ascending(rank)[m]] == m
  {
    AscendingInvertsPermutation(Rank(lengths));
  }

  /** Sorting the positions of a permutation of `0 .. n - 1` by their entries yields its inverse. */
  lemma {:induction false} AscendingInvertsPermutation(perm: seq<nat>)
    requires forall m :: 0 <= m < |perm| ==> perm[m] < |perm|
    requires Distinct(perm)
    ensures forall m :: 0 <= m < |perm| ==> perm[Ascending(perm)[m]] == m
  {
    var inverse := Ascending(perm);
    AscendingSorted(perm);
    var values := seq(|inverse|, m requires 0 <= m < |inverse| => perm[inverse[m]]);
    forall m, m' | 0 <= m < m' < |values| ensures values[m] < values[m'] {
      DistinctAt(inverse, m, m');
      DistinctAt(perm, inverse[m], inverse[m']);
    }
    IncreasingBelowIsIdentity(values);
    forall m | 0 <= m < |perm| ensures perm[inverse[m]] == m {
      assert values[m] == m;
    }
  }

  lemma {:induction false} DistinctAt<T>(s: seq<T>, a: nat, b: nat)
    requires Distinct(s) && a < |s| && b < |s| && a != b
    ensures s[a] != s[b]
  {
    if b < a {
      assert s[b] != s[a];
    }
  }

  /** A strictly increasing sequence of `n` values below `n` is `0, 1, ..., n - 1`. */
  lemma {:induction false} IncreasingBelowIsIdentity(s: seq<nat>)
    requires forall m, m' :: 0 <= m < m' < |s| ==> s[m] < s[m']
    requires forall m :: 0 <= m < |s| ==> s[m] < |s|
    ensures forall m :: 0 <= m < |s| ==> s[m] == m
  {
    forall m | 0 <= m < |s| ensures s[m] == m {
      IncreasingGap(s, 0, m);
      IncreasingGap(s, m, |s| - 1);
    }
  }

  lemma {:induction false} IncreasingGap(s: seq<nat>, i: nat, j: nat)
    requires forall m, m' :: 0 <= m < m' < |s| ==> s[m] < s[m']
    requires i <= j < |s|
    ensures s[j] - s[i] >= j - i
  {
    if i < j {
      IncreasingGap(s, i, j - 1);
      assert s[j - 1] < s[j];
    }
  }

  /**
   * `src[:, rank]` then `[:, recover]`: reordering the batch by length and
   * back restores the original order.
   */
  lemma {:induction false} RankThenRecover<T>(xs: seq<T>, lengths: seq<nat>)
    requires |xs| == |lengths|
    ensures Gather(Gather(xs, Rank(lengths)), Ascending(Rank(lengths))) == xs
  {
    var rank := Rank(lengths);
    RecoverInvertsRank(lengths);
    var back := Gather(Gather(xs, rank), Ascending(rank));
    forall m | 0 <= m < |xs| ensures back[m] == xs[m] {
      assert back[m] == xs[rank[Ascending(rank)[m]]];
    }
  }
}
