/** The plan catalog of redisapi/plans.py and its filter by the names listed
    in the REDIS_API_PLANS variable. Decoding that variable's JSON text is
    not modelled: Active receives the decoded list, or None when the
    variable is unset. */
module Plans {
  import opened Wrappers

  datatype Plan = Plan(name: string, description: string)

  /** The fixed catalog, in the order the service lists it. */
  const Catalog: seq<Plan> := [
    Plan("development", "Is a shared instance."),
    Plan("basic", "Is a dedicated instance. With 1GB of memory."),
    Plan("plus", "Is 2 dedicated instances. With 1GB of memory and HA and failover support via redis-sentinel.")
  ]

  /** The entries of `plans` whose name is listed in `names`, in the order of
      `plans`; defined on the last entry, the order the loop grows it in. */
  function Selected(plans: seq<Plan>, names: seq<string>): seq<Plan>
  {
    if plans == [] then []
    else
      var last := plans[|plans| - 1];
      Selected(plans[..|plans| - 1], names) + (if last.name in names then [last] else [])
  }

  /** `a` is `b` with some entries dropped and the rest kept in order. */
  ghost predicate IsSubsequence(a: seq<Plan>, b: seq<Plan>)
  {
    if a == [] then true
    else if b == [] then false
    else (a[|a| - 1] == b[|b| - 1] && IsSubsequence(a[..|a| - 1], b[..|b| - 1]))
         || IsSubsequence(a, b[..|b| - 1])
  }

  ghost predicate Distinct(s: seq<Plan>)
  {
    forall i, j :: 0 <= i < j < |s| ==> s[i] != s[j]
  }

  /** active(): walks the catalog and keeps each plan whose name is active.
      `setting` is the decoded REDIS_API_PLANS list; None stands for an unset
      variable, whose default text "[]" decodes to the empty list. */
  method Active(setting: Option<seq<string>>) returns (activePlans: seq<Plan>)
    ensures activePlans == Selected(Catalog, if setting.Some? then setting.value else [])
    ensures forall p :: p in activePlans <==>
      p in Catalog && setting.Some? && p.name in setting.value
  {
    var names := if setting.Some? then setting.value else [];
    activePlans := [];
    var i := 0;
    while i < |Catalog|
      invariant 0 <= i <= |Catalog|
      invariant activePlans == Selected(Catalog[..i], names)
    {
      var plan := Catalog[i];
      assert Catalog[..i + 1][..i] == Catalog[..i];
      if plan.name in names {
        activePlans := activePlans + [plan];
      }
      i := i + 1;
    }
    assert Catalog[..i] == Catalog;
    forall p ensures p in activePlans <==> p in Catalog && p.name in names {
      SelectedMembers(Catalog, names, p);
    }
  }

  /** A plan is selected exactly when it is in the catalog and its name is
      listed; names that match no plan select nothing. */
  lemma {:induction false} SelectedMembers(plans: seq<Plan>, names: seq<string>, p: Plan)
    ensures p in Selected(plans, names) <==> p in plans && p.name in names
  {
    if plans != [] {
      var init := plans[..|plans| - 1];
      assert plans == init + [plans[|plans| - 1]];
      SelectedMembers(init, names, p);
    }
  }

  /** The selection keeps the order of the catalog. */
  lemma {:induction false} SelectedIsSubsequence(plans: seq<Plan>, names: seq<string>)
    ensures IsSubsequence(Selected(plans, names), plans)
  {
    if plans != [] {
      var init := plans[..|plans| - 1];
      var last := plans[|plans| - 1];
      SelectedIsSubsequence(init, names);
      var s := Selected(init, names);
      if last.name in names {
        assert (s + [last])[..|s|] == s;
      } else {
        assert Selected(plans, names) == s;
        SubsequenceOfLonger(s, init, last);
      }
    }
  }

  lemma {:induction false} SubsequenceOfLonger(a: seq<Plan>, b: seq<Plan>, x: Plan)
    requires IsSubsequence(a, b)
    ensures IsSubsequence(a, b + [x])
  {
    assert (b + [x])[..|b|] == b;
  }

  /** Listing more names never drops a selected plan, nor reorders them. */
  lemma {:induction false} SelectedMonotonic(plans: seq<Plan>, fewer: seq<string>, more: seq<string>)
    requires forall n :: n in fewer ==> n in more
    ensures IsSubsequence(Selected(plans, fewer), Selected(plans, more))
  {
    if plans != [] {
      var init := plans[..|plans| - 1];
      var last := plans[|plans| - 1];
      SelectedMonotonic(init, fewer, more);
      var a, b := Selected(init, fewer), Selected(init, more);
      if last.name in fewer {
        assert (a + [last])[..|a|] == a;
        assert (b + [last])[..|b|] == b;
      } else if last.name in more {
        assert Selected(plans, fewer) == a && Selected(plans, more) == b + [last];
        SubsequenceOfLonger(a, b, last);
      } else {
        assert Selected(plans, fewer) == a && Selected(plans, more) == b;
      }
    }
  }

  /** Listing a name that no plan carries changes nothing. */
  lemma {:induction false} SelectedIgnoresUnknown(plans: seq<Plan>, names: seq<string>, unknown: string)
    requires forall p :: p in plans ==> p.name != unknown
    ensures Selected(plans, names + [unknown]) == Selected(plans, names)
  {
    if plans != [] {
      var init := plans[..|plans| - 1];
      assert plans[|plans| - 1] in plans;
      assert forall p :: p in init ==> p in plans;
      SelectedIgnoresUnknown(init, names, unknown);
    }
  }

  /** A catalog without repeats gives a selection without repeats, however
      often a name is listed, and the selection is never longer. */
  lemma {:induction false} SelectedDistinct(plans: seq<Plan>, names: seq<string>)
    requires Distinct(plans)
    ensures Distinct(Selected(plans, names))
    ensures |Selected(plans, names)| <= |plans|
  {
    if plans != [] {
      var init := plans[..|plans| - 1];
      var last := plans[|plans| - 1];
      SelectedDistinct(init, names);
      if last.name in names {
        var s := Selected(init, names);
        SelectedMembers(init, names, last);
        assert last !in init;
        forall i | 0 <= i < |s| ensures (s + [last])[i] != last {
          assert s[i] in s;
        }
      }
    }
  }

  /** Every name being listed selects the whole catalog. */
  lemma {:induction false} SelectedAll(plans: seq<Plan>, names: seq<string>)
    requires forall p :: p in plans ==> p.name in names
    ensures Selected(plans, names) == plans
  {
    if plans != [] {
      var init := plans[..|plans| - 1];
      SelectedAll(init, names);
      assert plans == init + [plans[|plans| - 1]];
    }
  }

  /** An empty list selects nothing. */
  lemma {:induction false} SelectedNone(plans: seq<Plan>)
    ensures Selected(plans, []) == []
  {
    if plans != [] {
      SelectedNone(plans[..|plans| - 1]);
    }
  }

  /** The catalog's names, in order, and its entries are distinct. */
  lemma CatalogShape()
    ensures |Catalog| == 3
    ensures Catalog[0].name == "development" && Catalog[1].name == "basic" && Catalog[2].name == "plus"
    ensures Distinct(Catalog)
  {
  }

  /** With REDIS_API_PLANS unset the service offers no plan; with all three
      names it offers the whole catalog; the offer never exceeds three plans
      and never repeats one. */
  lemma ActiveFacts(names: seq<string>)
    ensures Selected(Catalog, []) == []
    ensures (forall n :: n in ["development", "basic", "plus"] ==> n in names) ==>
              Selected(Catalog, names) == Catalog
    ensures Distinct(Selected(Catalog, names)) && |Selected(Catalog, names)| <= 3
  {
    SelectedNone(Catalog);
    CatalogShape();
    if forall n :: n in ["development", "basic", "plus"] ==> n in names {
      assert "development" in ["development", "basic", "plus"];
      assert "basic" in ["development", "basic", "plus"];
      assert "plus" in ["development", "basic", "plus"];
      SelectedAll(Catalog, names);
    }
    SelectedDistinct(Catalog, names);
  }
}
