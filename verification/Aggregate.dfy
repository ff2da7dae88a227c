/** The platform summary as an algebra on lists of service statuses. */
module Aggregate {
  predicate IsDown(s: string) { s == "down" || s == "error" }

  predicate IsBad(s: string) { IsDown(s) || s == "degraded" }

  /** The documented meaning of the summary: nothing registered, everything down,
      something wrong, or nothing wrong. */
  function SummaryOf(ss: seq<string>): string {
    if ss == [] then "unknown"
    else if forall s | s in ss :: IsDown(s) then "down"
    else if exists s | s in ss :: IsBad(s) then "degraded"
    else "ok"
  }

  /** How the summaries of two halves of a platform combine. */
  function Combine(a: string, b: string): string {
    if a == "unknown" then b
    else if b == "unknown" then a
    else if a == b then a
    else "degraded"
  }

  lemma SummaryIsHomomorphism(a: seq<string>, b: seq<string>)
    ensures SummaryOf(a + b) == Combine(SummaryOf(a), SummaryOf(b))
  {
    var c := a + b;
    assert forall s :: s in c <==> s in a || s in b;
    if a == [] {
      assert c == b;
    } else if b == [] {
      assert c == a;
    } else {
      assert a[0] in a && b[0] in b && a[0] in c && b[0] in c;
    }
  }

  /** Summaries form a commutative idempotent monoid under Combine, so a platform may be
      summarised piecewise, in any grouping and any order. */
  lemma CombineIsMonoid(a: seq<string>, b: seq<string>, c: seq<string>)
    ensures Combine(SummaryOf(a), SummaryOf(b)) == Combine(SummaryOf(b), SummaryOf(a))
    ensures Combine(SummaryOf(a), SummaryOf(a)) == SummaryOf(a)
    ensures Combine(Combine(SummaryOf(a), SummaryOf(b)), SummaryOf(c))
         == Combine(SummaryOf(a), Combine(SummaryOf(b), SummaryOf(c)))
  {
  }

  lemma SummaryIgnoresOrder(a: seq<string>, b: seq<string>)
    requires multiset(a) == multiset(b)
    ensures SummaryOf(a) == SummaryOf(b)
  {
    forall s ensures s in a <==> s in b {
      assert s in a <==> s in multiset(a);
      assert s in b <==> s in multiset(b);
    }
    assert |a| == |multiset(a)| && |b| == |multiset(b)|;
  }

  function Severity(s: string): nat {
    if IsDown(s) then 2 else if s == "degraded" then 1 else 0
  }

  /** If no service is better off, the platform is not better off. */
  lemma SummaryIsMonotone(a: seq<string>, b: seq<string>)
    requires |a| == |b|
    requires forall i | 0 <= i < |a| :: Severity(a[i]) <= Severity(b[i])
    ensures Severity(SummaryOf(a)) <= Severity(SummaryOf(b))
  {
    if a != [] {
      if forall s | s in a :: IsDown(s) {
        forall s | s in b ensures IsDown(s) {
          var i :| 0 <= i < |b| && b[i] == s;
          assert a[i] in a && Severity(a[i]) <= Severity(b[i]);
        }
      } else if exists s | s in a :: IsBad(s) {
        var s :| s in a && IsBad(s);
        var i :| 0 <= i < |a| && a[i] == s;
        assert b[i] in b && IsBad(b[i]);
      }
    }
  }

  /** The four values are told apart by exactly these facts about the list. */
  lemma SummaryMeaning(ss: seq<string>)
    ensures SummaryOf(ss) == "unknown" <==> ss == []
    ensures SummaryOf(ss) == "down" <==> ss != [] && forall s | s in ss :: IsDown(s)
    ensures SummaryOf(ss) == "ok" <==> ss != [] && forall s | s in ss :: !IsBad(s)
    ensures SummaryOf(ss) in {"unknown", "down", "degraded", "ok"}
  {
    if ss != [] {
      assert ss[0] in ss;
    }
  }

  /** And, by the texts a service can show: the platform is down when every service says down
      or error, and ok when none says down, error or degraded. */
  lemma SummaryByTexts(ss: seq<string>)
    ensures SummaryOf(ss) == "down" <==> ss != [] && forall i | 0 <= i < |ss| :: ss[i] in {"down", "error"}
    ensures SummaryOf(ss) == "ok" <==> ss != [] && forall i | 0 <= i < |ss| :: ss[i] !in {"down", "error", "degraded"}
    ensures SummaryOf(ss) == "unknown" <==> ss == []
    ensures SummaryOf(ss) in {"unknown", "down", "degraded", "ok"}
    ensures Severity("ok") < Severity("degraded") < Severity("down") == Severity("error")
  {
    SummaryMeaning(ss);
    assert forall i | 0 <= i < |ss| :: ss[i] in ss;
  }
}
