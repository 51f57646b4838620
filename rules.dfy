/** A validator written as a list of rules. Each rule pairs the condition under
    which it is violated with the report it then makes; running the validator
    collects the reports of the violated rules, in rule order, and never stops
    at the first one. */
module Rules {

  datatype Rule<T> = Rule(violated: bool, report: T)

  function Violations<T>(rules: seq<Rule<T>>): (r: seq<T>)
    ensures |r| <= |rules|
    decreases |rules|
  {
    if |rules| == 0 then []
    else (if rules[0].violated then [rules[0].report] else []) + Violations(rules[1..])
  }

  /** No two rules make the same report. */
  predicate DistinctReports<T(==)>(rules: seq<Rule<T>>) {
    forall a, b :: 0 <= a < b < |rules| ==> rules[a].report != rules[b].report
  }

  lemma {:induction false} ViolationsAppend<T>(r1: seq<Rule<T>>, r2: seq<Rule<T>>)
    ensures Violations(r1 + r2) == Violations(r1) + Violations(r2)
    decreases |r1|
  {
    if |r1| == 0 {
      assert r1 + r2 == r2;
    } else {
      var r := r1 + r2;
      var head := if r1[0].violated then [r1[0].report] else [];
      assert r[0] == r1[0];
      assert r[1..] == r1[1..] + r2;
      assert Violations(r) == head + Violations(r1[1..] + r2);
      ViolationsAppend(r1[1..], r2);
      assert Violations(r1) == head + Violations(r1[1..]);
      assert head + (Violations(r1[1..]) + Violations(r2)) == (head + Violations(r1[1..])) + Violations(r2);
    }
  }

  predicate NoneViolated<T>(rules: seq<Rule<T>>) {
    forall k :: 0 <= k < |rules| ==> !rules[k].violated
  }

  lemma NoneViolatedAppend<T>(r1: seq<Rule<T>>, r2: seq<Rule<T>>)
    ensures NoneViolated(r1 + r2) <==> NoneViolated(r1) && NoneViolated(r2)
  {
    if NoneViolated(r1) && NoneViolated(r2) {
      forall k | 0 <= k < |r1 + r2| ensures !(r1 + r2)[k].violated {
        if k >= |r1| {
          assert (r1 + r2)[k] == r2[k - |r1|];
        }
      }
    }
    if NoneViolated(r1 + r2) {
      forall k | 0 <= k < |r1| ensures !r1[k].violated {
        assert (r1 + r2)[k] == r1[k];
      }
      forall k | 0 <= k < |r2| ensures !r2[k].violated {
        assert (r1 + r2)[|r1| + k] == r2[k];
      }
    }
  }

  /** Nothing is reported exactly when no rule is violated. */
  lemma {:induction false} ViolationsEmpty<T>(rules: seq<Rule<T>>)
    ensures Violations(rules) == [] <==> NoneViolated(rules)
    decreases |rules|
  {
    if |rules| > 0 {
      ViolationsEmpty(rules[1..]);
      assert forall k :: 1 <= k < |rules| ==> rules[k] == rules[1..][k - 1];
      assert NoneViolated(rules) <==> !rules[0].violated && NoneViolated(rules[1..]);
    }
  }

  /** A report is made exactly when some rule making it is violated. */
  lemma {:induction false} ViolationsMember<T>(rules: seq<Rule<T>>, x: T)
    ensures x in Violations(rules) <==> exists k :: 0 <= k < |rules| && rules[k].violated && rules[k].report == x
    decreases |rules|
  {
    if |rules| > 0 {
      ViolationsMember(rules[1..], x);
      if x in Violations(rules[1..]) {
        var k :| 0 <= k < |rules[1..]| && rules[1..][k].violated && rules[1..][k].report == x;
        assert rules[k + 1] == rules[1..][k];
      }
      if exists k :: 0 <= k < |rules| && rules[k].violated && rules[k].report == x {
        var k :| 0 <= k < |rules| && rules[k].violated && rules[k].report == x;
        if k > 0 {
          assert rules[1..][k - 1] == rules[k];
        }
      }
    }
  }

  /** A report no rule makes is never made. */
  lemma {:induction false} ViolationsAbsent<T>(rules: seq<Rule<T>>, x: T)
    requires forall k :: 0 <= k < |rules| ==> rules[k].report != x
    ensures multiset(Violations(rules))[x] == 0
    decreases |rules|
  {
    if |rules| > 0 {
      assert forall k :: 0 <= k < |rules[1..]| ==> rules[1..][k] == rules[k + 1];
      ViolationsAbsent(rules[1..], x);
    }
  }

  /** When reports are distinct, a rule's report is made once if the rule is
      violated and not at all otherwise. */
  lemma {:induction false} ViolationsCount<T>(rules: seq<Rule<T>>, k: nat)
    requires DistinctReports(rules)
    requires k < |rules|
    ensures multiset(Violations(rules))[rules[k].report] == if rules[k].violated then 1 else 0
    decreases |rules|
  {
    var rest := rules[1..];
    assert forall j :: 0 <= j < |rest| ==> rest[j] == rules[j + 1];
    if k == 0 {
      ViolationsAbsent(rest, rules[0].report);
    } else {
      ViolationsCount(rest, k - 1);
      assert rules[0].report != rules[k].report;
    }
  }

  /** Distinct reports in two lists that share none stay distinct when the lists are joined. */
  lemma DistinctReportsAppend<T>(r1: seq<Rule<T>>, r2: seq<Rule<T>>)
    requires DistinctReports(r1) && DistinctReports(r2)
    requires forall a, b :: 0 <= a < |r1| && 0 <= b < |r2| ==> r1[a].report != r2[b].report
    ensures DistinctReports(r1 + r2)
  {
    var r := r1 + r2;
    forall a, b | 0 <= a < b < |r| ensures r[a].report != r[b].report {
      if b < |r1| {
      } else if a < |r1| {
        assert r[b] == r2[b - |r1|];
      } else {
        assert r[a] == r2[a - |r1|] && r[b] == r2[b - |r1|];
      }
    }
  }

  /** A property every report of two rule lists has, every report of the joined list has. */
  lemma ReportsAppend<T>(r1: seq<Rule<T>>, r2: seq<Rule<T>>, p: T -> bool)
    requires forall k :: 0 <= k < |r1| ==> p(r1[k].report)
    requires forall k :: 0 <= k < |r2| ==> p(r2[k].report)
    ensures forall k :: 0 <= k < |r1 + r2| ==> p((r1 + r2)[k].report)
  {
    forall k | 0 <= k < |r1 + r2| ensures p((r1 + r2)[k].report) {
      if k >= |r1| {
        assert (r1 + r2)[k] == r2[k - |r1|];
      }
    }
  }
}
