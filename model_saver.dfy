/**
 * Checkpoint retention (onmt/helpers/model_saver.py).
 *
 * Writing and deleting files are recorded in a ghost log of effects instead
 * of being performed; the saver's own state is the queue of retained
 * checkpoint names, which `maybe_save` updates as a bounded FIFO.
 */
module ModelSaver {

  /** What the saver does to the file system. */
  datatype Effect<V> =
    | Saved(name: string, model: map<string, V>)
    | Removed(name: string)

  /** What one call of `maybe_save` did. */
  datatype SaveOutcome = Skipped | SavedAs(name: string) | DivisionByZero

  // ---------------------------------------------------------------------------
  // Checkpoint names: '%s_step_%d.pt' % (base_path, step)

  function DigitChar(d: nat): char
    requires d < 10
  {
    ('0' as int + d) as char
  }

  predicate IsDigits(s: string) {
    forall i :: 0 <= i < |s| ==> '0' <= s[i] <= '9'
  }

  /** Python's `%d` of a non-negative integer: its decimal digits, most significant first. */
  function NatToString(n: nat): (s: string)
    ensures |s| >= 1 && IsDigits(s)
  {
    if n < 10 then [DigitChar(n)] else NatToString(n / 10) + [DigitChar(n % 10)]
  }

  /** The value of a string of decimal digits. */
  function ParseNat(s: string): nat
    requires IsDigits(s)
  {
    if s == [] then 0 else 10 * ParseNat(s[..|s| - 1]) + (s[|s| - 1] as int - '0' as int)
  }

  lemma {:induction false} NatToStringRoundTrip(n: nat)
    ensures ParseNat(NatToString(n)) == n
  {
    if n >= 10 {
      NatToStringRoundTrip(n / 10);
      var s := NatToString(n);
      assert s[..|s| - 1] == NatToString(n / 10);
    }
  }

  /** Python's `%d`: a minus sign in front of a negative number. */
  function IntToString(i: int): (s: string)
    ensures |s| >= 1
  {
    if i < 0 then "-" + NatToString(-i) else NatToString(i)
  }

  /** The first character of `%d` is a minus sign exactly for negative numbers. */
  lemma {:induction false} SignOfIntToString(i: int)
    ensures IntToString(i)[0] == '-' <==> i < 0
  {
    if i >= 0 {
      assert '0' <= NatToString(i)[0] <= '9';
    }
  }

  /** The digits after the sign spell the magnitude. */
  lemma {:induction false} MagnitudeOfIntToString(i: int)
    ensures IsDigits(IntToString(i)[if i < 0 then 1 else 0..])
    ensures ParseNat(IntToString(i)[if i < 0 then 1 else 0..]) == if i < 0 then -i else i
  {
    if i < 0 {
      assert IntToString(i)[1..] == NatToString(-i);
      NatToStringRoundTrip(-i);
    } else {
      assert IntToString(i)[0..] == NatToString(i);
      NatToStringRoundTrip(i);
    }
  }

  lemma {:induction false} IntToStringInjective(a: int, b: int)
    requires IntToString(a) == IntToString(b)
    ensures a == b
  {
    SignOfIntToString(a);
    SignOfIntToString(b);
    MagnitudeOfIntToString(a);
    MagnitudeOfIntToString(b);
  }

  /** The file name `_save` writes a checkpoint to (model_saver.py:124). */
  function CheckpointName(basePath: string, step: int): (name: string)
    ensures |name| > |basePath| + 9
    ensures name[..|basePath|] == basePath
    ensures name[|name| - 3..] == ".pt"
  {
    basePath + "_step_" + IntToString(step) + ".pt"
  }

  /** Different steps give different checkpoint names, so a save never overwrites a retained checkpoint of another step. */
  lemma {:induction false} CheckpointNameInjective(basePath: string, a: int, b: int)
    requires CheckpointName(basePath, a) == CheckpointName(basePath, b)
    ensures a == b
  {
    var na, nb := CheckpointName(basePath, a), CheckpointName(basePath, b);
    assert |IntToString(a)| == |IntToString(b)|;
    var lo := |basePath| + 6;
    assert na[lo..|na| - 3] == IntToString(a);
    assert nb[lo..|nb| - 3] == IntToString(b);
    IntToStringInjective(a, b);
  }

  // ---------------------------------------------------------------------------
  // The model state saved in a checkpoint

  /** Python's `pat in s` on strings. */
  predicate Contains(s: string, pat: string) {
    if |s| < |pat| then false else s[..|pat|] == pat || Contains(s[1..], pat)
  }

  /** The `model` entry of a checkpoint: the state dict without the generator's entries (model_saver.py:110-112). */
  function WithoutGenerator<V>(state: map<string, V>): (m: map<string, V>)
    ensures m.Keys <= state.Keys
    ensures forall k :: k in state ==> (k in m <==> !Contains(k, "generator"))
    ensures forall k :: k in m ==> m[k] == state[k]
  {
    map k | k in state && !Contains(k, "generator") :: state[k]
  }

  // ---------------------------------------------------------------------------
  // Retention

  /** The last `n` elements of `s` (all of `s` when it is shorter). */
  function LastN<T>(s: seq<T>, n: nat): (r: seq<T>)
    ensures |r| <= n && |r| <= |s|
  {
    if |s| <= n then s else s[|s| - n..]
  }

  /**
   * A deque with `maxlen = n`: when it is full, the oldest element leaves
   * before the new one is appended, so it always holds the last `n` elements
   * appended.
   */
  lemma {:induction false} LastNAppend<T>(s: seq<T>, x: T, n: nat)
    requires n > 0
    ensures LastN(s + [x], n) == (if |LastN(s, n)| == n then LastN(s, n)[1..] else LastN(s, n)) + [x]
  {
    if |s| + 1 > n {
      assert |s| >= n;
      assert (s + [x])[|s| + 1 - n..] == s[|s| - n..][1..] + [x];
    }
  }

  /** The names removed by the effects, in order. */
  function RemovedNames<V>(effects: seq<Effect<V>>): seq<string> {
    if effects == [] then []
    else RemovedNames(effects[..|effects| - 1]) + (if effects[|effects| - 1].Removed? then [effects[|effects| - 1].name] else [])
  }

  lemma {:induction false} RemovedNamesAppend<V>(effects: seq<Effect<V>>, e: Effect<V>)
    ensures RemovedNames(effects + [e]) == RemovedNames(effects) + (if e.Removed? then [e.name] else [])
  {
    assert (effects + [e])[..|effects|] == effects;
  }

  /**
   * One save with a positive `keep_checkpoint` keeps the retention
   * invariant: the queue becomes the last `k` names saved, and the name
   * evicted from a full queue is the next one in saving order to be removed.
   */
  lemma {:induction false} RetentionStep<V>(saved: seq<string>, effects: seq<Effect<V>>, queue: seq<string>,
                         name: string, model: map<string, V>, k: int)
    requires k > 0
    requires queue == LastN(saved, k)
    requires RemovedNames(effects) == saved[..|saved| - |queue|]
    ensures var full := |queue| == k;
      var queue' := (if full then queue[1..] else queue) + [name];
      var effects' := effects + [Saved(name, model)] + (if full then [Removed(queue[0])] else []);
      && queue' == LastN(saved + [name], k)
      && RemovedNames(effects') == (saved + [name])[..|saved| + 1 - |queue'|]
  {
    LastNAppend(saved, name, k);
    RemovedNamesAppend(effects, Saved(name, model));
    if |queue| == k {
      RemovedNamesAppend(effects + [Saved(name, model)], Removed(queue[0]));
      assert queue[0] == saved[|saved| - k];
      assert saved[..|saved| - k] + [queue[0]] == (saved + [name])[..|saved| + 1 - k];
    } else {
      assert |saved| < k && queue == saved;
      assert effects + [Saved(name, model)] + [] == effects + [Saved(name, model)];
      assert RemovedNames(effects) == [] == (saved + [name])[..0];
    }
  }

  class ModelSaver<V> {
    const basePath: string
    const keepCheckpoint: int
    const saveCheckpointSteps: int
    /** The retained checkpoints, oldest first (the `checkpoint_queue` deque). */
    var checkpointQueue: seq<string>
    /** Every checkpoint name saved so far. */
    ghost var saved: seq<string>
    /** Every file system effect so far. */
    ghost var effects: seq<Effect<V>>

    /**
     * With a positive `keep_checkpoint`, the queue holds the last
     * `keep_checkpoint` saved names and every older one has been removed, in
     * the order they were saved; otherwise the queue stays empty and nothing
     * is ever removed.
     */
    ghost predicate Valid()
      reads this
    {
      if keepCheckpoint > 0 then
        && checkpointQueue == LastN(saved, keepCheckpoint)
        && RemovedNames(effects) == saved[..|saved| - |checkpointQueue|]
      else
        && checkpointQueue == []
        && RemovedNames(effects) == []
    }

    constructor (basePath: string, saveCheckpointSteps: int, keepCheckpoint: int)
      ensures Valid()
      ensures this.basePath == basePath && this.saveCheckpointSteps == saveCheckpointSteps
      ensures this.keepCheckpoint == keepCheckpoint
      ensures checkpointQueue == [] && saved == [] && effects == []
    {
      this.basePath := basePath;
      this.saveCheckpointSteps := saveCheckpointSteps;
      this.keepCheckpoint := keepCheckpoint;
      checkpointQueue := [];
      saved := [];
      effects := [];
    }

    /** `_save`: writes the checkpoint of `model` for `step` and returns its name. */
    method Save(step: int, model: map<string, V>) returns (name: string)
      modifies this`saved, this`effects
      ensures name == CheckpointName(basePath, step)
      ensures saved == old(saved) + [name]
      ensures effects == old(effects) + [Saved(name, WithoutGenerator(model))]
    {
      name := CheckpointName(basePath, step);
      saved := saved + [name];
      effects := effects + [Saved(name, WithoutGenerator(model))];
    }

    /** `_rm_checkpoint`: deletes the named checkpoint. */
    method RemoveCheckpoint(name: string)
      modifies this`effects
      ensures effects == old(effects) + [Removed(name)]
    {
      effects := effects + [Removed(name)];
    }

    /**
     * `maybe_save`: nothing when `keep_checkpoint` is 0 or `step` is not a
     * multiple of `save_checkpoint_steps` (Python's `%` raises on a zero
     * divisor); otherwise saves, and with a positive `keep_checkpoint` first
     * evicts the oldest retained name when the queue is full.
     */
    method MaybeSave(step: int, model: map<string, V>) returns (outcome: SaveOutcome)
      requires Valid()
      modifies this
      ensures Valid()
      ensures keepCheckpoint == 0 ==> outcome == Skipped
      ensures keepCheckpoint != 0 && saveCheckpointSteps == 0 ==> outcome == DivisionByZero
      ensures keepCheckpoint != 0 && saveCheckpointSteps != 0 ==>
        (outcome == Skipped <==> step % saveCheckpointSteps != 0)
      ensures !outcome.SavedAs? ==>
        checkpointQueue == old(checkpointQueue) && saved == old(saved) && effects == old(effects)
      ensures outcome.SavedAs? ==> outcome.name == CheckpointName(basePath, step) && saved == old(saved) + [outcome.name]
      ensures outcome.SavedAs? && keepCheckpoint > 0 ==>
        var full := |old(checkpointQueue)| == keepCheckpoint;
        && checkpointQueue == (if full then old(checkpointQueue)[1..] else old(checkpointQueue)) + [outcome.name]
        && effects == old(effects) + [Saved(outcome.name, WithoutGenerator(model))]
                                   + (if full then [Removed(old(checkpointQueue)[0])] else [])
      ensures outcome.SavedAs? && keepCheckpoint < 0 ==>
        checkpointQueue == [] && effects == old(effects) + [Saved(outcome.name, WithoutGenerator(model))]
    {
      if keepCheckpoint == 0 {
        return Skipped;
      }
      if saveCheckpointSteps == 0 {
        return DivisionByZero;
      }
      if step % saveCheckpointSteps != 0 {
        return Skipped;
      }
      ghost var oldSaved, oldEffects, oldQueue := saved, effects, checkpointQueue;
      var name := Save(step, model);
      if keepCheckpoint > 0 {
        RetentionStep(oldSaved, oldEffects, oldQueue, name, WithoutGenerator(model), keepCheckpoint);
        if |checkpointQueue| == keepCheckpoint {
          var toDelete := checkpointQueue[0];
          checkpointQueue := checkpointQueue[1..];
          RemoveCheckpoint(toDelete);
        }
        checkpointQueue := checkpointQueue + [name];
      } else {
        RemovedNamesAppend(oldEffects, Saved(name, WithoutGenerator(model)));
      }
      return SavedAs(name);
    }
  }
}
