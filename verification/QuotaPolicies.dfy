/** Hard storage policies: normalizing a snapshot and checking a write against it. */
module QuotaPolicies {
  import opened Wrappers

  datatype Scope = Organization(id: nat) | Project(id: nat)

  datatype Policy = Policy(id: nat, scope: Scope, limit: nat)

  // The order of the scope's type name and id, which is also the order of the lock names
  predicate Below(a: Scope, b: Scope) {
    (a.Organization? && b.Project?) || (a.Organization? == b.Organization? && a.id < b.id)
  }

  predicate PolicyBefore(a: Policy, b: Policy) {
    Below(a.scope, b.scope) || (a.scope == b.scope && a.id <= b.id)
  }

  predicate Ordered(ps: seq<Policy>) {
    forall i, j :: 0 <= i < j < |ps| ==> PolicyBefore(ps[i], ps[j])
  }

  datatype SnapshotError = Invalid | DuplicateId

  predicate DistinctIds(ps: seq<Policy>) {
    forall i, j :: 0 <= i < j < |ps| ==> ps[i].id != ps[j].id
  }

  method InsertOrdered(ps: seq<Policy>, p: Policy) returns (r: seq<Policy>)
    requires Ordered(ps)
    ensures Ordered(r) && multiset(r) == multiset(ps) + multiset{p}
  {
    var i := 0;
    while i < |ps| && PolicyBefore(ps[i], p)
      invariant i <= |ps| && forall j :: 0 <= j < i ==> PolicyBefore(ps[j], p)
    {
      i := i + 1;
    }
    InsertKeeps(ps, p, i);
    r := ps[..i] + [p] + ps[i..];
  }

  lemma InsertKeeps(ps: seq<Policy>, p: Policy, i: nat)
    requires Ordered(ps) && i <= |ps|
    requires (forall j :: 0 <= j < i ==> PolicyBefore(ps[j], p)) && (i < |ps| ==> !PolicyBefore(ps[i], p))
    ensures Ordered(ps[..i] + [p] + ps[i..]) && multiset(ps[..i] + [p] + ps[i..]) == multiset(ps) + multiset{p}
  {
    assert multiset(ps[..i] + [p] + ps[i..]) == multiset(ps) + multiset{p} by {
      assert ps == ps[..i] + ps[i..];
    }
    var r := ps[..i] + [p] + ps[i..];
    forall j | i < j < |r| ensures r[j] == ps[j - 1] && PolicyBefore(p, r[j]) {
      BeforeTotal(ps[i], p);
      if j > i + 1 {
        BeforeTrans(p, ps[i], ps[j - 1]);
      }
    }
    hide PolicyBefore;
    forall a, b | 0 <= a < b < |r| ensures PolicyBefore(r[a], r[b]) {
      if a < i && b < i {
        assert r[a] == ps[a] && r[b] == ps[b];
      } else if a < i && b > i {
        assert r[a] == ps[a] && r[b] == ps[b - 1];
      } else if a > i {
        assert r[a] == ps[a - 1] && r[b] == ps[b - 1];
      }
    }
  }

  lemma BeforeTotal(a: Policy, b: Policy)
    ensures PolicyBefore(a, b) || PolicyBefore(b, a)
  {
  }

  lemma BeforeTrans(a: Policy, b: Policy, c: Policy)
    requires PolicyBefore(a, b) && PolicyBefore(b, c)
    ensures PolicyBefore(a, c)
  {
  }

  /** `_normalized_snapshot_policies`: every limit positive, no id twice, and the policies in lock order. */
  method Normalize(raw: seq<Policy>) returns (r: Result<seq<Policy>, SnapshotError>)
    ensures r.Success? <==> DistinctIds(raw) && forall p :: p in raw ==> p.limit > 0
    ensures r.Success? ==> Ordered(r.value) && multiset(r.value) == multiset(raw)
  {
    var seen: set<nat>, policies: seq<Policy> := {}, [];
    for n := 0 to |raw|
      invariant DistinctIds(raw[..n]) && forall p :: p in raw[..n] ==> p.limit > 0
      invariant seen == set p | p in raw[..n] :: p.id
      invariant Ordered(policies) && multiset(policies) == multiset(raw[..n])
    {
      var p := raw[n];
      assert raw[..n + 1] == raw[..n] + [p];
      if p.limit == 0 {
        assert p in raw;
        return Failure(Invalid);
      }
      if p.id in seen {
        var q :| q in raw[..n] && q.id == p.id;
        var i :| 0 <= i < n && raw[i] == q;
        assert !DistinctIds(raw);
        return Failure(DuplicateId);
      }
      assert forall i :: 0 <= i < n ==> raw[..n][i] in raw[..n];
      seen := seen + {p.id};
      policies := InsertOrdered(policies, p);
    }
    assert raw[..|raw|] == raw;
    r := Success(policies);
  }

  predicate Increasing(scopes: seq<Scope>) {
    forall i, j :: 0 <= i < j < |scopes| ==> Below(scopes[i], scopes[j])
  }

  /** The locks a write takes, in order: each scope of its policies once. */
  function Resources(ps: seq<Policy>): (r: seq<Scope>)
    requires Ordered(ps)
    ensures Increasing(r) && (forall s :: s in r <==> exists p :: p in ps && p.scope == s)
    ensures r != [] ==> ps != [] && r[|r| - 1] == ps[|ps| - 1].scope
    ensures ps != [] ==> r != []
  {
    if ps == [] then [] else
    var rest, last := Resources(ps[..|ps| - 1]), ps[|ps| - 1];
    assert ps == ps[..|ps| - 1] + [last];
    assert forall s :: s in rest ==> s == last.scope || Below(s, last.scope);
    if rest != [] && rest[|rest| - 1] == last.scope then rest
    else rest + [last.scope]
  }

  /****** counting ******/

  function Sum(stored: map<nat, nat>, projects: seq<nat>): nat {
    if projects == [] then 0 else Sum(stored, projects[..|projects| - 1]) + Count(stored, projects[|projects| - 1])
  }

  function Count(stored: map<nat, nat>, project: nat): nat {
    if project in stored then stored[project] else 0
  }

  predicate NoneTwice(projects: seq<nat>) {
    forall i, j :: 0 <= i < j < |projects| ==> projects[i] != projects[j]
  }

  /** The projects a scope counts; `members` lists those of an organization, each once. */
  function Projects(members: nat -> seq<nat>, s: Scope): seq<nat> {
    if s.Project? then [s.id] else members(s.id)
  }

  function Used(stored: map<nat, nat>, members: nat -> seq<nat>, s: Scope): nat {
    Sum(stored, Projects(members, s))
  }

  lemma OneProject(stored: map<nat, nat>, project: nat)
    ensures Sum(stored, [project]) == if project in stored then stored[project] else 0
  {
    assert [project][..0] == [];
  }

  datatype Exceeded = Exceeded(policy: Policy, used: nat, selected: nat)

  predicate Fits(stored: map<nat, nat>, members: nat -> seq<nat>, p: Policy, selected: nat) {
    Used(stored, members, p.scope) + selected <= p.limit
  }

  predicate MemoOk(memo: map<nat, nat>, stored: map<nat, nat>) {
    forall p :: p in memo ==> memo[p] == Count(stored, p)
  }

  // `project_count`: look the count up once per project
  method CountOnce(stored: map<nat, nat>, project: nat, memo: map<nat, nat>) returns (n: nat, memo': map<nat, nat>)
    requires MemoOk(memo, stored)
    ensures n == Count(stored, project) && MemoOk(memo', stored)
  {
    memo' := memo;
    if project !in memo {
      memo' := memo[project := Count(stored, project)];
    }
    n := memo'[project];
  }

  /** The check: success exactly when every policy fits, otherwise the first policy that does not, with its numbers. */
  method Check(ps: seq<Policy>, stored: map<nat, nat>, members: nat -> seq<nat>, selected: nat)
    returns (r: Result<(), Exceeded>)
    ensures r.Success? <==> forall p :: p in ps ==> Fits(stored, members, p, selected)
    ensures r.Failure? ==>
              exists i :: 0 <= i < |ps| && !Fits(stored, members, ps[i], selected)
                          && (forall j :: 0 <= j < i ==> Fits(stored, members, ps[j], selected))
                          && r.error == Exceeded(ps[i], Used(stored, members, ps[i].scope), selected)
  {
    var memo: map<nat, nat> := map[];
    for n := 0 to |ps|
      invariant forall j :: 0 <= j < n ==> Fits(stored, members, ps[j], selected)
      invariant MemoOk(memo, stored)
    {
      var projects := Projects(members, ps[n].scope);
      var used := 0;
      for k := 0 to |projects|
        invariant used == Sum(stored, projects[..k]) && MemoOk(memo, stored)
      {
        assert projects[..k + 1][..k] == projects[..k];
        var count;
        count, memo := CountOnce(stored, projects[k], memo);
        used := used + count;
      }
      assert projects[..|projects|] == projects;
      if used + selected > ps[n].limit {
        assert ps[n] in ps;
        return Failure(Exceeded(ps[n], used, selected));
      }
    }
    r := Success(());
  }
}
