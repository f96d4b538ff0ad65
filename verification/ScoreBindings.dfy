/** The score-binding fixpoint of `tools/l2_analyzer.py`. */
module ScoreBindings {
  /** An assignment: the name it binds, whether the text of its value mentions a score
      term, and the identifiers in that text. */
  datatype Candidate = Candidate(binding: string, mentionsTerm: bool, identifiers: set<string>)

  /** `_score_terms` finds something in the candidate's value. */
  predicate Scored(candidate: Candidate, bindings: set<string>) {
    candidate.mentionsTerm || candidate.identifiers * bindings != {}
  }

  /** Every named candidate with a scored value is bound. */
  ghost predicate Closed(candidates: seq<Candidate>, bindings: set<string>) {
    forall c :: c in candidates && c.binding != "" && Scored(c, bindings) ==> c.binding in bindings
  }

  ghost predicate IsLeast(candidates: seq<Candidate>, bindings: set<string>) {
    Closed(candidates, bindings) && forall other :: Closed(candidates, other) ==> bindings <= other
  }

  function Names(candidates: seq<Candidate>): set<string> {
    set c | c in candidates :: c.binding
  }

  /** The source's loop: passes over the candidates until a pass binds nothing new. */
  method DeriveScoreBindings(candidates: seq<Candidate>) returns (bindings: set<string>)
    ensures IsLeast(candidates, bindings)
  {
    bindings := {};
    var changed := true;
    while changed
      invariant bindings <= Names(candidates)
      invariant forall other :: Closed(candidates, other) ==> bindings <= other
      invariant !changed ==> Closed(candidates, bindings)
      decreases Names(candidates) - bindings, changed
    {
      changed := false;
      ghost var before := bindings;
      for k := 0 to |candidates|
        invariant before <= bindings <= Names(candidates)
        invariant forall other :: Closed(candidates, other) ==> bindings <= other
        invariant if changed then before < bindings else before == bindings
        invariant !changed ==> forall j :: 0 <= j < k ==>
          candidates[j].binding == "" || !Scored(candidates[j], bindings) || candidates[j].binding in bindings
      {
        var candidate := candidates[k];
        if candidate.binding != "" && candidate.binding !in bindings && Scored(candidate, bindings) {
          forall other | Closed(candidates, other) ensures candidate.binding in other {
            ScoredGrows(candidate, bindings, other);
            assert candidate in candidates;
          }
          assert candidate.binding in Names(candidates);
          bindings := bindings + {candidate.binding};
          changed := true;
        }
      }
      assert changed ==> Names(candidates) - bindings < Names(candidates) - before by {
        if changed {
          var name :| name in bindings && name !in before;
          assert name in Names(candidates) - before && name !in Names(candidates) - bindings;
        }
      }
    }
  }

  lemma ScoredGrows(candidate: Candidate, bindings: set<string>, other: set<string>)
    requires bindings <= other && Scored(candidate, bindings)
    ensures Scored(candidate, other)
  {
    if !candidate.mentionsTerm {
      var name :| name in candidate.identifiers * bindings;
      assert name in candidate.identifiers * other;
    }
  }

  /** The bindings depend on which candidates there are, not on their order. */
  lemma OrderIndependent(a: seq<Candidate>, b: seq<Candidate>, left: set<string>, right: set<string>)
    requires forall c :: c in a <==> c in b
    requires IsLeast(a, left) && IsLeast(b, right)
    ensures left == right
  {
    assert Closed(b, left) && Closed(a, right);
  }

  /** A chain of at most `depth` assignments carries a score term to `name`. */
  ghost predicate Derived(candidates: seq<Candidate>, name: string, depth: nat)
    decreases depth
  {
    depth > 0 && exists c :: c in candidates && Derives(candidates, c, name, depth)
  }

  ghost predicate Derives(candidates: seq<Candidate>, c: Candidate, name: string, depth: nat)
    requires depth > 0
    decreases depth, 0
  {
    && c.binding == name != ""
    && (c.mentionsTerm || exists other :: other in c.identifiers && Derived(candidates, other, depth - 1))
  }

  ghost predicate IsDerived(candidates: seq<Candidate>, name: string) {
    exists depth: nat :: Derived(candidates, name, depth)
  }

  lemma {:induction false} DerivedIsBound(candidates: seq<Candidate>, name: string, depth: nat, bindings: set<string>)
    requires Closed(candidates, bindings) && Derived(candidates, name, depth)
    ensures name in bindings
    decreases depth
  {
    var c :| c in candidates && Derives(candidates, c, name, depth);
    if !c.mentionsTerm {
      var other :| other in c.identifiers && Derived(candidates, other, depth - 1);
      DerivedIsBound(candidates, other, depth - 1, bindings);
      assert other in c.identifiers * bindings;
    }
  }

  lemma DerivedAreClosed(candidates: seq<Candidate>, bindings: set<string>, derived: set<string>)
    requires Closed(candidates, bindings) && derived <= bindings
    requires forall name :: name in bindings ==> (name in derived <==> IsDerived(candidates, name))
    ensures Closed(candidates, derived)
  {
    forall c | c in candidates && c.binding != "" && Scored(c, derived) ensures c.binding in derived {
      ScoredGrows(c, derived, bindings);
      if c.mentionsTerm {
        assert Derives(candidates, c, c.binding, 1);
        assert Derived(candidates, c.binding, 1);
      } else {
        var other :| other in c.identifiers * derived;
        var depth: nat :| Derived(candidates, other, depth);
        assert Derives(candidates, c, c.binding, depth + 1);
        assert Derived(candidates, c.binding, depth + 1);
      }
    }
  }

  /** The bound names are exactly those a chain of assignments reaches from a score term:
      nothing is bound by mutual mention alone. */
  lemma BoundIffDerived(candidates: seq<Candidate>, bindings: set<string>, name: string)
    requires IsLeast(candidates, bindings)
    ensures name in bindings <==> IsDerived(candidates, name)
  {
    if depth: nat :| Derived(candidates, name, depth) {
      DerivedIsBound(candidates, name, depth, bindings);
    }
    var derived := set n | n in bindings && IsDerived(candidates, n);
    DerivedAreClosed(candidates, bindings, derived);
  }
}
