/**
 * Cyclic advance of an index, shared by the rotating role word of the v1 and
 * v4 name displays (every 2 s the word fades out, and 400 ms later the next
 * one fades in) and by the auto-advance of the v1 carousel.
 */
module Rotation {
  import opened JsMath

  /** The role words' interval and fade, in ms. */
  const WordIntervalMs: nat := 2000
  const WordFadeMs: nat := 400

  /** `(prevIndex + 1) % length`: the next index, wrapping after the last. */
  function NextIndex(prevIndex: int, count: int): (r: int)
    requires count > 0 && 0 <= prevIndex < count
    ensures 0 <= r < count
    ensures r == if prevIndex == count - 1 then 0 else prevIndex + 1
  {
    assert JsRem(prevIndex + 1, count) == if prevIndex == count - 1 then 0 else prevIndex + 1 by {
      if prevIndex + 1 < count {
        ModUnique(prevIndex + 1, count, 0, prevIndex + 1);
      } else {
        ModUnique(prevIndex + 1, count, 1, 0);
      }
    }
    JsRem(prevIndex + 1, count)
  }

  /** The index after `ticks` advances. */
  function AfterTicks(start: int, ticks: nat, count: int): (r: int)
    requires count > 0 && 0 <= start < count
    ensures 0 <= r < count
  {
    if ticks == 0 then start else NextIndex(AfterTicks(start, ticks - 1, count), count)
  }

  /** The rotation is cyclic: after `ticks` advances from 0 the index is `ticks % count`. */
  lemma {:induction false} RotationIsCyclic(ticks: nat, count: int)
    requires count > 0
    ensures AfterTicks(0, ticks, count) == ticks % count
  {
    if ticks == 0 {
      ModUnique(0, count, 0, 0);
    } else {
      RotationIsCyclic(ticks - 1, count);
      ModSuccessor(ticks - 1, count);
    }
  }

  /** The residue of `t + 1` follows the residue of `t`, wrapping after `n - 1`. */
  lemma ModSuccessor(t: nat, n: int)
    requires n > 0
    ensures (t + 1) % n == if t % n == n - 1 then 0 else t % n + 1
  {
    var q, r := t / n, t % n;
    assert t == q * n + r;
    if r == n - 1 {
      assert (q + 1) * n == q * n + n;
      ModUnique(t + 1, n, q + 1, 0);
    } else {
      ModUnique(t + 1, n, q, r + 1);
    }
  }
}
