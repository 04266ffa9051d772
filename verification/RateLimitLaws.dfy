/** Which checks count against each other, and that the limits refuse no one else
    (audit/ratelimit.py). */
module RateLimitLaws {
  import opened Prelude
  import opened RateLimit

  /** A group hits each of its rules once, in order, at the time of the check; a group
      without a value, or an address without a bucket, hits none. */
  lemma GroupHitsEachRule(g: Group, ipBucket: string -> string, now: nat)
    ensures var hits := GroupHits(g, ipBucket, now);
      if g.value == None || g.value == Some("") || (g.kind == "ip" && ipBucket(g.value.value) == "") then hits == []
      else |hits| == |g.rules| && forall i :: 0 <= i < |hits| ==> hits[i].rule == g.rules[i] && hits[i].at == now
  {
  }

  /** A check that nothing stops makes the hits of every group, and no others. */
  lemma {:induction false} CheckHitsEveryGroup(groups: seq<Group>, ipBucket: string -> string, now: nat, h: Hit)
    ensures h in AllHits(groups, ipBucket, now) <==> exists g :: 0 <= g < |groups| && h in GroupHits(groups[g], ipBucket, now)
    decreases |groups|
  {
    hide GroupHits;
    if groups != [] {
      var n := |groups| - 1;
      CheckHitsEveryGroup(groups[..n], ipBucket, now, h);
      if g :| 0 <= g < n && h in GroupHits(groups[g], ipBucket, now) {
        assert groups[..n][g] == groups[g];
      }
      if g :| 0 <= g < n && h in GroupHits(groups[..n][g], ipBucket, now) {
        assert groups[..n][g] == groups[g];
      }
    }
  }

  /** The same caller, as the limits see it: the same bucket for addresses, the same
      value for anything else. */
  predicate SameCaller(g: Group, h: Group, ipBucket: string -> string)
    requires g.value.Some? && h.value.Some?
  {
    g.kind == h.kind && if g.kind == "ip" then ipBucket(g.value.value) == ipBucket(h.value.value) else g.value == h.value
  }

  /** Both instants are in one window of whole seconds since the epoch. */
  predicate SameWindow(a: nat, b: nat, w: nat, v: nat)
    requires w > 0 && v > 0
  {
    a / 1_000_000 / w * w == b / 1_000_000 / v * v
  }

  /** Two hits share a counter exactly when they are of a rule of the same name, in the
      same window, by the same caller: two addresses of one bucket count together. */
  lemma CountersShared(g: Group, h: Group, ipBucket: string -> string, at: nat, later: nat, i: nat, j: nat)
    requires i < |GroupHits(g, ipBucket, at)| && j < |GroupHits(h, ipBucket, later)|
    requires g.rules[i].window > 0 && h.rules[j].window > 0
    ensures g.value.Some? && h.value.Some?
    ensures KeyOf(GroupHits(g, ipBucket, at)[i]) == KeyOf(GroupHits(h, ipBucket, later)[j]) <==>
      && g.rules[i].name == h.rules[j].name && SameCaller(g, h, ipBucket)
      && SameWindow(at, later, g.rules[i].window, h.rules[j].window)
  {
    var x, y := GroupHits(g, ipBucket, at)[i], GroupHits(h, ipBucket, later)[j];
    assert x == Hit(g.rules[i], SubjectOf(g, ipBucket), at) && y == Hit(h.rules[j], SubjectOf(h, ipBucket), later);
    assert SubjectOf(g, ipBucket) == SubjectOf(h, ipBucket) <==> SameCaller(g, h, ipBucket);
    assert WindowStart(at, x.rule.window) == WindowStart(later, y.rule.window)
      <==> SameWindow(at, later, x.rule.window, y.rule.window);
    hide *;
    KeysEqual(x, y);
  }

  lemma KeysEqual(x: Hit, y: Hit)
    requires WellFormed(x) && WellFormed(y)
    ensures KeyOf(x) == KeyOf(y) <==>
      x.rule.name == y.rule.name && x.subject == y.subject && WindowStart(x.at, x.rule.window) == WindowStart(y.at, y.rule.window)
  {
    hide WindowStart;
  }

  /** The counter of a key counts its hits. */
  lemma {:induction false} CountIsNumberOfHits(log: seq<Hit>, k: Key)
    requires Proper(log)
    ensures Count(log, k) == |set i: nat | i < |log| && KeyOf(log[i]) == k|
    decreases |log|
  {
    if log != [] {
      var n := |log| - 1;
      hide KeyOf;
      CountIsNumberOfHits(log[..n], k);
      var early := set i: nat | i < n && KeyOf(log[..n][i]) == k;
      assert (set i: nat | i < |log| && KeyOf(log[i]) == k) == early + if KeyOf(log[n]) == k then {n} else {};
    }
  }

  /** Exactly the first `limit` hits of a rule per caller and window are let through. */
  lemma {:induction false} AdmitsExactly(log: seq<Hit>, r: Rule, subject: Subject, start: nat)
    requires Proper(log) && NamesARule(log, r)
    ensures var n := Count(log, (r.name, subject, start));
      |AdmittedIn(log, r, subject, start)| == if n < r.limit then n else r.limit
    decreases |log|
  {
    if log != [] {
      var n := |log| - 1;
      AdmittedInStep(log, r, subject, start);
      AdmitsExactly(log[..n], r, subject, start);
      assert log[..n + 1] == log;
      assert KeyOf(log[n]) == (r.name, subject, start) ==> log[n].rule == r;
      hide KeyOf, AdmittedIn;
    }
  }

  /** No shorter wait in whole seconds would do. */
  lemma RetryAfterIsLeast(now: nat, window: nat, wait: nat)
    requires window > 0 && wait < RetryAfter(now, window)
    ensures WindowStart(now + wait * SECOND, window) == WindowStart(now, window)
  {
    var start := WindowStart(now, window);
    var end := (start + window) * SECOND;
    WindowHolds(now / SECOND, window);
    assert now + wait * SECOND < end by {
      assert wait <= (end - now + SECOND - 1) / SECOND - 1 || wait == 0;
    }
    SameWindowStart(now / SECOND, (now + wait * SECOND) / SECOND, window);
  }

  lemma SameWindowStart(a: nat, b: nat, w: nat)
    requires w > 0 && a <= b < a / w * w + w
    ensures b / w * w == a / w * w
  {
    WindowHolds(a, w);
    WindowHolds(b, w);
    if a / w < b / w {
      MultiplesApart(a / w, b / w, w);
    } else if b / w < a / w {
      MultiplesApart(b / w, a / w, w);
    }
  }
}
