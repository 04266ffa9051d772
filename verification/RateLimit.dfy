/** Fixed-window rate limits (audit/ratelimit.py). Time is in microseconds since
    the epoch; a rule's window is a whole number of seconds. A keyed subject hash
    is modelled by the value it hashes. */
module RateLimit {
  import opened Prelude

  datatype Rule = Rule(name: string, limit: nat, window: nat)

  datatype Subject = Subject(kind: string, value: string)

  /** `value` is `None` where the command has none; such a group is skipped. */
  datatype Group = Group(kind: string, value: Option<string>, rules: seq<Rule>)

  datatype Verdict = Allowed | Refused(rule: string, retryAfter: int, firstBlock: bool)

  datatype Hit = Hit(rule: Rule, subject: Subject, at: nat)

  /** A counter row's unique key. */
  type Key = (string, Subject, nat)

  const SECOND: nat := 1_000_000

  /** The start, in seconds, of the window that holds `now`. */
  function WindowStart(now: nat, window: nat): nat
    requires window > 0
  {
    now / SECOND / window * window
  }

  predicate WellFormed(h: Hit)
  {
    h.rule.window > 0
  }

  function KeyOf(h: Hit): Key
    requires WellFormed(h)
  {
    (h.rule.name, h.subject, WindowStart(h.at, h.rule.window))
  }

  ghost predicate Proper(log: seq<Hit>)
  {
    forall i :: 0 <= i < |log| ==> WellFormed(log[i])
  }

  /** How many hits of the log fall on a key. */
  ghost function Count(log: seq<Hit>, k: Key): nat
    requires Proper(log)
  {
    if log == [] then 0
    else Count(log[..|log| - 1], k) + if KeyOf(log[|log| - 1]) == k then 1 else 0
  }

  /** The count the database returned for hit `i`. */
  ghost function CountAt(log: seq<Hit>, i: nat): nat
    requires Proper(log) && i < |log|
  {
    Count(log[..i + 1], KeyOf(log[i]))
  }

  ghost predicate Admitted(log: seq<Hit>, i: nat)
    requires Proper(log) && i < |log|
  {
    CountAt(log, i) <= log[i].rule.limit
  }

  ghost predicate FirstBlock(log: seq<Hit>, i: nat)
    requires Proper(log) && i < |log|
  {
    CountAt(log, i) == log[i].rule.limit + 1
  }

  // --- the checks as they run ---------------------------------------------------

  function Max(a: int, b: int): int
  {
    if a < b then b else a
  }

  /** Whole seconds, rounded up and at least one, until the window ends. */
  function RetryAfter(now: nat, window: nat): int
    requires window > 0
  {
    Max(1, ((WindowStart(now, window) + window) * SECOND - now + SECOND - 1) / SECOND)
  }

  function Skipped(g: Group, ipBucket: string -> string): bool
  {
    g.value.None? || g.value.value == "" || (g.kind == "ip" && ipBucket(g.value.value) == "")
  }

  function SubjectOf(g: Group, ipBucket: string -> string): Subject
    requires !Skipped(g, ipBucket)
  {
    Subject(g.kind, if g.kind == "ip" then ipBucket(g.value.value) else g.value.value)
  }

  function GroupHits(g: Group, ipBucket: string -> string, now: nat): (r: seq<Hit>)
    ensures |r| == if Skipped(g, ipBucket) then 0 else |g.rules|
  {
    if Skipped(g, ipBucket) then []
    else seq(|g.rules|, i requires 0 <= i < |g.rules| => Hit(g.rules[i], SubjectOf(g, ipBucket), now))
  }

  /** Every hit a check makes when nothing stops it. */
  function AllHits(groups: seq<Group>, ipBucket: string -> string, now: nat): seq<Hit>
  {
    if groups == [] then []
    else AllHits(groups[..|groups| - 1], ipBucket, now) + GroupHits(groups[|groups| - 1], ipBucket, now)
  }

  predicate WindowsPositive(groups: seq<Group>)
  {
    forall i :: 0 <= i < |groups| ==> forall j :: 0 <= j < |groups[i].rules| ==> groups[i].rules[j].window > 0
  }

  lemma {:induction false} AllHitsPrefix(groups: seq<Group>, n: nat, ipBucket: string -> string, now: nat)
    requires n <= |groups|
    ensures AllHits(groups[..n], ipBucket, now) <= AllHits(groups, ipBucket, now)
    decreases |groups|
  {
    if n == |groups| {
      assert groups[..n] == groups;
    } else {
      hide GroupHits;
      var front := groups[..|groups| - 1];
      assert front[..n] == groups[..n];
      AllHitsPrefix(front, n, ipBucket, now);
    }
  }

  ghost predicate AllAdmitted(log: seq<Hit>, from: nat)
    requires Proper(log)
  {
    forall i :: from <= i < |log| ==> Admitted(log, i)
  }

  /** The verdict `v` and the hits it added to the log: all of `all`, each admitted;
      or those up to and including the first that was over its limit. */
  ghost predicate Explains(before: seq<Hit>, log: seq<Hit>, all: seq<Hit>, v: Verdict)
    requires Proper(log)
  {
    match v
    case Allowed => log == before + all && AllAdmitted(log, |before|)
    case Refused(rule, wait, first) =>
      && |before| < |log| <= |before| + |all|
      && log == before + all[..|log| - |before|]
      && AllAdmitted(log[..|log| - 1], |before|)
      && var last := |log| - 1;
         && !Admitted(log, last) && rule == log[last].rule.name
         && wait == RetryAfter(log[last].at, log[last].rule.window) && first == FirstBlock(log, last)
  }

  /** Earlier counts do not depend on later hits. */
  lemma PrefixAdmitted(mid: seq<Hit>, log: seq<Hit>, from: nat)
    requires Proper(log) && mid <= log && from <= |mid| && Proper(mid)
    requires AllAdmitted(mid, from) && AllAdmitted(log, |mid|)
    ensures AllAdmitted(log, from)
  {
    forall i | from <= i < |log| ensures Admitted(log, i) {
      if i < |mid| {
        assert log[..i + 1] == mid[..i + 1];
        assert Admitted(mid, i);
      }
    }
  }

  class Limiter {
    var counters: map<Key, nat>
    ghost var log: seq<Hit>

    /** Each counter row counts the hits on its key; a missing row counts none. */
    ghost predicate Valid()
      reads this
    {
      && Proper(log)
      && forall k :: (if k in counters then counters[k] else 0) == Count(log, k)
    }

    constructor ()
      ensures Valid() && log == []
    {
      counters := map[];
      log := [];
    }

    /** One increment of the counter row, returning its new count. */
    method RecordHit(h: Hit) returns (count: nat)
      requires Valid() && WellFormed(h)
      modifies this
      ensures Valid() && log == old(log) + [h]
      ensures count == CountAt(log, |log| - 1)
    {
      hide KeyOf;
      var k := KeyOf(h);
      count := (if k in counters then counters[k] else 0) + 1;
      counters := counters[k := count];
      log := log + [h];
      assert log[..|log| - 1] == old(log) && log[..|log|] == log;
    }

    method CheckGroup(g: Group, ipBucket: string -> string, now: nat) returns (v: Verdict)
      requires Valid() && !Skipped(g, ipBucket)
      requires forall r :: 0 <= r < |g.rules| ==> g.rules[r].window > 0
      modifies this
      ensures Valid()
      ensures Explains(old(log), log, GroupHits(g, ipBucket, now), v)
    {
      hide CountAt, Skipped, RetryAfter;
      ghost var all := GroupHits(g, ipBucket, now);
      var subject := SubjectOf(g, ipBucket);
      for r := 0 to |g.rules|
        invariant Valid() && log == old(log) + all[..r]
        invariant AllAdmitted(log, |old(log)|)
      {
        var rule := g.rules[r];
        ghost var mid := log;
        var count := RecordHit(Hit(rule, subject, now));
        assert log == old(log) + all[..r + 1];
        if count > rule.limit {
          assert log[..|log| - 1] == mid;
          return Refused(rule.name, RetryAfter(now, rule.window), count == rule.limit + 1);
        }
        PrefixAdmitted(mid, log, |old(log)|);
      }
      assert all[..|g.rules|] == all;
      return Allowed;
    }

    method Check(groups: seq<Group>, ipBucket: string -> string, now: nat) returns (v: Verdict)
      requires Valid() && WindowsPositive(groups)
      modifies this
      ensures Valid()
      ensures Explains(old(log), log, AllHits(groups, ipBucket, now), v)
    {
      hide CountAt, Skipped, RetryAfter, GroupHits;
      for g := 0 to |groups|
        invariant Valid() && log == old(log) + AllHits(groups[..g], ipBucket, now)
        invariant AllAdmitted(log, |old(log)|)
      {
        ghost var mid := log;
        assert groups[..g + 1][..g] == groups[..g];
        if !Skipped(groups[g], ipBucket) {
          v := CheckGroup(groups[g], ipBucket, now);
          if v.Refused? {
            RefusalJoins(old(log), mid, log, groups, g, ipBucket, now, v);
            return;
          }
          PrefixAdmitted(mid, log, |old(log)|);
        } else {
          SkippedMakesNoHits(groups[g], ipBucket, now);
        }
      }
      assert groups[..|groups|] == groups;
      return Allowed;
    }
  }

  lemma SkippedMakesNoHits(g: Group, ipBucket: string -> string, now: nat)
    requires Skipped(g, ipBucket)
    ensures GroupHits(g, ipBucket, now) == []
  {
  }

  lemma RefusalJoins(before: seq<Hit>, mid: seq<Hit>, log: seq<Hit>, groups: seq<Group>, g: nat,
                     ipBucket: string -> string, now: nat, v: Verdict)
    requires Proper(log) && Proper(mid) && g < |groups| && v.Refused?
    requires mid == before + AllHits(groups[..g], ipBucket, now) && AllAdmitted(mid, |before|)
    requires Explains(mid, log, GroupHits(groups[g], ipBucket, now), v)
    ensures Explains(before, log, AllHits(groups, ipBucket, now), v)
  {
    hide Admitted, GroupHits, RetryAfter, FirstBlock;
    var all := AllHits(groups, ipBucket, now);
    AllHitsPrefix(groups, g + 1, ipBucket, now);
    assert groups[..g + 1][..g] == groups[..g];
    assert AllHits(groups[..g + 1], ipBucket, now)
        == AllHits(groups[..g], ipBucket, now) + GroupHits(groups[g], ipBucket, now);
    assert log == before + all[..|log| - |before|];
    PrefixAdmitted(mid, log[..|log| - 1], |before|);
  }

  // --- bounds over every log of hits -------------------------------------------------

  /** The hits of rule `r` on `subject` in one window that were let through. */
  ghost function AdmittedIn(log: seq<Hit>, r: Rule, subject: Subject, start: nat): set<nat>
    requires Proper(log)
  {
    set i: nat | i < |log| && log[i].rule == r && KeyOf(log[i]) == (r.name, subject, start) && Admitted(log, i)
  }

  lemma AdmittedInStep(log: seq<Hit>, r: Rule, subject: Subject, start: nat)
    requires Proper(log) && log != []
    ensures Proper(log[..|log| - 1])
    ensures var n := |log| - 1;
      AdmittedIn(log, r, subject, start)
        == AdmittedIn(log[..n], r, subject, start)
           + if log[n].rule == r && KeyOf(log[n]) == (r.name, subject, start) && Admitted(log, n) then {n} else {}
  {
    var n := |log| - 1;
    hide KeyOf, Count;
    forall i: nat | i < n ensures Admitted(log, i) == Admitted(log[..n], i) {
      assert log[..n][..i + 1] == log[..i + 1];
    }
  }

  /** At most `limit` hits of a rule per subject and window are admitted, even
      when several rules share the name. */
  lemma {:induction false} AdmitsAtMostLimit(log: seq<Hit>, r: Rule, subject: Subject, start: nat)
    requires Proper(log)
    ensures |AdmittedIn(log, r, subject, start)| <= r.limit
    ensures |AdmittedIn(log, r, subject, start)| <= Count(log, (r.name, subject, start))
    decreases |log|
  {
    if log != [] {
      var n := |log| - 1;
      AdmittedInStep(log, r, subject, start);
      AdmitsAtMostLimit(log[..n], r, subject, start);
      assert log[..n + 1] == log;
      hide KeyOf, AdmittedIn;
    }
  }

  lemma WindowHolds(s: nat, window: nat)
    requires window > 0
    ensures s / window * window <= s < s / window * window + window
  {
  }

  lemma MultiplesApart(p: nat, q: nat, w: nat)
    requires p < q
    ensures p * w + w <= q * w
  {
    assert (q - p - 1) * w >= 0;
    assert q * w == (q - p - 1) * w + p * w + w;
  }

  lemma DivisionSteps(a: nat, b: nat, w: nat)
    requires w > 0 && a <= b <= a + w
    ensures a / w <= b / w <= a / w + 1
  {
    var p, q := a / w, b / w;
    WindowHolds(a, w);
    WindowHolds(b, w);
    if q < p {
      MultiplesApart(q, p, w);
    } else if p + 1 < q {
      MultiplesApart(p + 1, q, w);
    }
  }

  /** An instant up to one window after `now` is in the same window or the next. */
  lemma NextWindow(now: nat, later: nat, window: nat)
    requires window > 0 && now <= later <= now + window * SECOND
    ensures WindowStart(later, window) in {WindowStart(now, window), WindowStart(now, window) + window}
  {
    var a, b := now / SECOND, later / SECOND;
    DivisionSteps(a, b, window);
    var q := a / window;
    assert (q + 1) * window == q * window + window;
  }

  ghost function AdmittedBetween(log: seq<Hit>, r: Rule, subject: Subject, from: nat): set<nat>
    requires Proper(log)
  {
    set i: nat | i < |log| && log[i].rule == r && log[i].subject == subject
      && from <= log[i].at <= from + r.window * SECOND && Admitted(log, i)
  }

  lemma CoverSize<T>(a: set<T>, b: set<T>, c: set<T>)
    requires forall x :: x in a ==> x in b || x in c
    ensures |a| <= |b| + |c|
  {
    SubsetSize(a, b + c);
    assert b + c == b + (c - b);
    SubsetSize(c - b, c);
  }

  lemma BetweenIsInTwoWindows(log: seq<Hit>, r: Rule, subject: Subject, from: nat, i: nat)
    requires Proper(log) && r.window > 0 && i in AdmittedBetween(log, r, subject, from)
    ensures var w := WindowStart(from, r.window);
      i in AdmittedIn(log, r, subject, w) || i in AdmittedIn(log, r, subject, w + r.window)
  {
    hide Admitted;
    NextWindow(from, log[i].at, r.window);
  }

  /** At most twice the limit is admitted in any interval of one window's length. */
  lemma AdmitsAtMostTwiceLimit(log: seq<Hit>, r: Rule, subject: Subject, from: nat)
    requires Proper(log) && r.window > 0
    ensures |AdmittedBetween(log, r, subject, from)| <= 2 * r.limit
  {
    var w := WindowStart(from, r.window);
    AdmitsAtMostLimit(log, r, subject, w);
    AdmitsAtMostLimit(log, r, subject, w + r.window);
    hide *;
    var between := AdmittedBetween(log, r, subject, from);
    var first, second := AdmittedIn(log, r, subject, w), AdmittedIn(log, r, subject, w + r.window);
    forall i | i in between ensures i in first || i in second {
      BetweenIsInTwoWindows(log, r, subject, from, i);
    }
    CoverSize(between, first, second);
  }

  /** Rule names identify rules. */
  ghost predicate NamesARule(log: seq<Hit>, r: Rule)
  {
    forall i :: 0 <= i < |log| && log[i].rule.name == r.name ==> log[i].rule == r
  }

  ghost function FirstBlocksIn(log: seq<Hit>, k: Key): set<nat>
    requires Proper(log)
  {
    set i: nat | i < |log| && KeyOf(log[i]) == k && FirstBlock(log, i)
  }

  lemma FirstBlocksStep(log: seq<Hit>, k: Key)
    requires Proper(log) && log != []
    ensures Proper(log[..|log| - 1])
    ensures var n := |log| - 1;
      FirstBlocksIn(log, k) == FirstBlocksIn(log[..n], k) + if KeyOf(log[n]) == k && FirstBlock(log, n) then {n} else {}
  {
    var n := |log| - 1;
    hide KeyOf, Count;
    forall i: nat | i < n ensures FirstBlock(log, i) == FirstBlock(log[..n], i) {
      assert log[..n][..i + 1] == log[..i + 1];
    }
  }

  /** `first_block` is true on exactly one hit of each window that goes over its
      limit, and on none of any other. */
  lemma {:induction false} FirstBlockOnce(log: seq<Hit>, r: Rule, subject: Subject, start: nat)
    requires Proper(log) && NamesARule(log, r)
    ensures var k := (r.name, subject, start);
      |FirstBlocksIn(log, k)| == if Count(log, k) > r.limit then 1 else 0
    decreases |log|
  {
    if log != [] {
      var n := |log| - 1;
      FirstBlocksStep(log, (r.name, subject, start));
      FirstBlockOnce(log[..n], r, subject, start);
      assert log[..n + 1] == log;
      assert KeyOf(log[n]) == (r.name, subject, start) ==> log[n].rule == r;
      hide KeyOf, FirstBlocksIn;
    }
  }

  /** The wait is between one second and the window's length, and waiting it out
      lands in a later window. */
  lemma RetryAfterLandsLater(now: nat, window: nat)
    requires window > 0
    ensures 1 <= RetryAfter(now, window) <= window
    ensures WindowStart(now + RetryAfter(now, window) * SECOND, window) > WindowStart(now, window)
  {
  }
}
