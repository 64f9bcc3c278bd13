/**
 * The character counter of src/components/CharacterCounter.tsx, shown under the
 * long text fields of the create page. From the current length and the maximum it
 * derives whether the text is over the limit, whether it is near it (at 80 per cent
 * or more), which colour the counter and its bar take, which of the two messages
 * shows, and how wide the bar is. The percentage is floating point in the source;
 * here every comparison with it is stated on integers.
 */
module CharacterCounter {
  import opened Text
  import opened CreatePage

  /** `current > max`. */
  predicate IsOverLimit(current: nat, max: nat)
  {
    current > max
  }

  /**
   * `(current / max) * 100 >= 80`. With `max` = 0 the quotient is +Infinity when
   * `current` > 0 (near) and NaN when `current` = 0 (not near).
   */
  predicate IsNearLimit(current: nat, max: nat)
  {
    if max == 0 then current > 0 else 100 * current >= 80 * max
  }

  /** `max - current`. */
  function Remaining(current: nat, max: nat): (r: int)
    ensures r < 0 <==> IsOverLimit(current, max)
  {
    max - current
  }

  /** The three colour tiers of the counter text and of the bar. */
  datatype Tier = Over | Near | Normal
  {
    function TextColor(): string
    {
      match this
      case Over => "text-red-600"
      case Near => "text-orange-600"
      case Normal => "text-slate-500"
    }

    function BarColor(): string
    {
      match this
      case Over => "bg-red-500"
      case Near => "bg-orange-500"
      case Normal => "bg-emerald-500"
    }

    /** 0, 1, 2 from the calmest tier up. */
    function Severity(): nat
    {
      match this
      case Normal => 0
      case Near => 1
      case Over => 2
    }
  }

  /** Red if over, else orange if near, else neutral. */
  function TierOf(current: nat, max: nat): (t: Tier)
    ensures t == Over <==> IsOverLimit(current, max)
    ensures t == Near <==> !IsOverLimit(current, max) && IsNearLimit(current, max)
    ensures t == Normal <==> !IsOverLimit(current, max) && !IsNearLimit(current, max)
  {
    if IsOverLimit(current, max) then Over
    else if IsNearLimit(current, max) then Near
    else Normal
  }

  /** The number in "N over limit!", shown only when over the limit. */
  function OverMessage(current: nat, max: nat): (n: Option<nat>)
    ensures n.Some? <==> IsOverLimit(current, max)
    ensures n.Some? ==> n.value > 0 && n.value == current - max
  {
    if IsOverLimit(current, max) then Some(-Remaining(current, max)) else None
  }

  /** The number in "N remaining", shown only when near the limit and not over it. */
  function RemainingMessage(current: nat, max: nat): (n: Option<nat>)
    ensures n.Some? <==> !IsOverLimit(current, max) && IsNearLimit(current, max)
    ensures n.Some? ==> n.value == max - current
  {
    if !IsOverLimit(current, max) && IsNearLimit(current, max) then Some(Remaining(current, max)) else None
  }

  /** The two messages never show together, and each shows exactly in its own tier. */
  lemma MessagesMatchTier(current: nat, max: nat)
    ensures !(OverMessage(current, max).Some? && RemainingMessage(current, max).Some?)
    ensures OverMessage(current, max).Some? <==> TierOf(current, max) == Over
    ensures RemainingMessage(current, max).Some? <==> TierOf(current, max) == Near
  {
  }

  /** Nearing the limit comes before passing it: an over-limit counter is also near. */
  lemma OverImpliesNear(current: nat, max: nat)
    requires IsOverLimit(current, max)
    ensures IsNearLimit(current, max)
  {
  }

  /** Typing more never calms the colour down. */
  lemma TierMonotone(c1: nat, c2: nat, max: nat)
    requires c1 <= c2
    ensures TierOf(c1, max).Severity() <= TierOf(c2, max).Severity()
  {
  }

  /** The 80 per cent threshold on a concrete limit: 4000 of 5000 is near, 3999 is not. */
  lemma NearThresholdExample()
    ensures IsNearLimit(4000, 5000) && !IsNearLimit(3999, 5000)
  {
  }

  /**
   * `Math.min(percentage, 100)` as a fraction `num / den` of per cent, or NaN when
   * both the length and the maximum are 0.
   */
  datatype Width = Percent(num: nat, den: nat) | NotANumber

  function BarWidth(current: nat, max: nat): (w: Width)
    ensures w.Percent? ==> w.den > 0 && w.num <= 100 * w.den
    ensures w.Percent? && max > 0 ==> w.den == max && (w.num == 100 * w.den <==> current >= max)
    ensures w.NotANumber? <==> current == 0 && max == 0
  {
    if max == 0 then
      (if current == 0 then NotANumber else Percent(100, 1))
    else if 100 * current <= 100 * max then Percent(100 * current, max)
    else Percent(100 * max, max)
  }

  /**
   * On the create page each counter is fed the stripped length of its field and
   * that field's limit, so its red tier and "over limit" number agree with the
   * error the create handler reports for the field.
   */
  lemma CounterAgreesWithValidation(form: FormState, f: LimitedField)
    ensures TierOf(TextLength(form, f), Limit(f)) == Over <==> OverLimit(form, f)
    ensures OverMessage(TextLength(form, f), Limit(f)).Some? ==>
      LengthError(f, OverMessage(TextLength(form, f), Limit(f)).value) in ExpectedErrors(form)
  {
    if OverLimit(form, f) {
      assert f == CheckOrder[Rank(f)];
      ErrorsForComplete(form, CheckOrder, f);
    }
  }
}
