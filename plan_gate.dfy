/**
 * The usage gate of the simulation pages (js/plan-gate.js): a free user gets
 * a fixed number of runs per calendar month, a pro user runs without limit,
 * and the header badge shows the runs left.
 */
module PlanGate {
  import opened Wrappers
  import opened JsString
  import opened Auth

  /** `FREE_LIMIT`: the allowance the badge is drawn against. */
  const FreeLimit := 3

  /** The plan badge in the page header, as far as its number goes. */
  datatype Badge = NoBadge | ProBadge | FreeBadge(remaining: Num)

  /** One gate call: whether the run may go ahead, and the month's count afterwards. */
  datatype Step = Step(allowed: bool, count: Num)

  /**
   * `checkUsageGate()` as a function of the plan and the stored count: pro
   * passes and counts nothing; free passes while the count is below the
   * allowance, and each pass counts one; otherwise it is refused.
   */
  function Gate(pro: bool, count: Num): (s: Step)
    ensures s.allowed <==> pro || (count.Int? && count.i < FreeUses)
    ensures s.allowed && !pro ==> count.Int? && s.count == Int(count.i + 1)
    ensures !(s.allowed && !pro) ==> s.count == count
  {
    if pro then Step(true, count)
    else if count.Int? && count.i < FreeUses then Step(true, Succ(count))
    else Step(false, count)
  }

  /** `Math.max(0, FREE_LIMIT - count)`: what the badge shows after a counted run. */
  function BadgeRemaining(count: int): (r: int)
    ensures r >= 0
    ensures count >= 0 ==> r <= FreeLimit
    ensures count <= FreeLimit ==> r == FreeLimit - count
  {
    Max(0, FreeLimit - count)
  }

  /** Whether each of `n` consecutive gate calls of a free user passes, starting from `count`. */
  function FreeOutcomes(count: Num, n: nat): (r: seq<bool>)
    ensures |r| == n
    decreases n
  {
    if n == 0 then []
    else
      var s := Gate(false, count);
      [s.allowed] + FreeOutcomes(s.count, n - 1)
  }

  /** From a count of `k`, exactly the first `3 - k` calls pass and every later one is refused. */
  lemma {:induction false} FreeOutcomesFrom(k: nat, n: nat)
    requires k <= FreeUses
    ensures forall i :: 0 <= i < n ==> FreeOutcomes(Int(k), n)[i] == (i < FreeUses - k)
    decreases n
  {
    if n > 0 {
      var s := Gate(false, Int(k));
      var rest := FreeOutcomes(s.count, n - 1);
      assert FreeOutcomes(Int(k), n) == [s.allowed] + rest;
      if k < FreeUses {
        FreeOutcomesFrom(k + 1, n - 1);
      } else {
        assert s.count == Int(k);
        FreeOutcomesFrom(k, n - 1);
      }
    }
  }

  /** A fresh month: exactly `FREE_LIMIT` calls pass, and every later one is refused. */
  lemma FreeMonth(n: nat)
    ensures forall i :: 0 <= i < n ==> FreeOutcomes(Int(0), n)[i] == (i < FreeLimit)
  {
    FreeOutcomesFrom(0, n);
  }

  /** The count after `n` consecutive calls of a user whose plan stays the same. */
  function CountAfter(pro: bool, count: Num, n: nat): Num
    decreases n
  {
    if n == 0 then count else CountAfter(pro, Gate(pro, count).count, n - 1)
  }

  /** However many times a pro user passes the gate, the count never moves. */
  lemma {:induction false} ProNeverCounts(count: Num, n: nat)
    ensures CountAfter(true, count, n) == count
  {
    if n > 0 {
      ProNeverCounts(count, n - 1);
    }
  }

  /** A free user's count never passes the allowance once it starts at or below it. */
  lemma {:induction false} FreeCountBounded(k: nat, n: nat)
    requires k <= FreeUses
    ensures CountAfter(false, Int(k), n).Int?
    ensures CountAfter(false, Int(k), n).i == Min(k + n, FreeUses)
    decreases n
  {
    if n > 0 {
      if k < FreeUses {
        FreeCountBounded(k + 1, n - 1);
      } else {
        FreeCountBounded(k, n - 1);
      }
    }
  }

  function Min(a: int, b: int): int {
    if a <= b then a else b
  }

  /** The page's own state: its header badge and the limit dialog. */
  class Page {
    var badge: Badge
    /** The reason of the dialog `showLimitModal` opened, if any. */
    var modal: Option<string>

    constructor ()
      ensures badge == NoBadge && modal == None
    {
      badge := NoBadge;
      modal := None;
    }

    /** `insertPlanBadge()`: with a header to put it in, a pro badge or the free runs left. */
    method InsertPlanBadge(auth: Entitlements, hasNav: bool, ym: YearMonth)
      modifies this`badge
      ensures !hasNav ==> badge == old(badge)
      ensures hasNav && auth.IsPro() ==> badge == ProBadge
      ensures hasNav && !auth.IsPro() ==> badge == FreeBadge(auth.RemainingUses(ym).left)
    {
      if !hasNav {
        return;
      }
      if GetPlan(auth.plan) == Pro {
        badge := ProBadge;
      } else {
        var remaining := auth.RemainingUses(ym);
        badge := FreeBadge(remaining.left);
      }
    }

    /** The badge update after a counted run: a free badge, if drawn, shows the runs left. */
    method RedrawFreeBadge(count: int)
      modifies this`badge
      ensures old(badge).FreeBadge? ==> badge == FreeBadge(Int(BadgeRemaining(count)))
      ensures !old(badge).FreeBadge? ==> badge == old(badge)
    {
      if badge.FreeBadge? {
        badge := FreeBadge(Int(BadgeRemaining(count)));
      }
    }

    /** `window.checkUsageGate()`. */
    method CheckUsageGate(auth: Entitlements, ym: YearMonth) returns (allowed: bool)
      modifies this`badge, this`modal, auth`storage
      ensures var g := Gate(old(auth.IsPro()), old(auth.UsageCount(ym)));
        allowed == g.allowed && auth.UsageCount(ym) == g.count
      ensures old(auth.IsPro()) || !allowed ==> auth.storage == old(auth.storage)
      ensures !old(auth.IsPro()) && allowed ==>
        auth.UsageCount(ym).Int? && auth.storage == old(auth.storage)[auth.UsageKey(ym) := NumToString(auth.UsageCount(ym))]
      ensures !old(auth.IsPro()) && allowed && old(badge).FreeBadge? ==>
        badge == FreeBadge(Int(BadgeRemaining(auth.UsageCount(ym).i)))
      ensures old(auth.IsPro()) || !allowed || !old(badge).FreeBadge? ==> badge == old(badge)
      ensures modal == if allowed then old(modal) else Some("limit")
    {
      ghost var count0 := auth.UsageCount(ym);
      if auth.IsPro() {
        assert Gate(true, count0) == Step(true, count0);
        return true;
      }
      if auth.CanUseService(ym) {
        assert count0.Int? && count0.i < FreeUses;
        assert Gate(false, count0) == Step(true, Int(count0.i + 1));
        var count := auth.IncrementUsage(ym);
        assert count == Int(count0.i + 1) && auth.UsageCount(ym) == count;
        RedrawFreeBadge(count.i);
        return true;
      }
      assert Gate(false, count0) == Step(false, count0);
      modal := Some("limit");
      allowed := false;
    }
  }
}
