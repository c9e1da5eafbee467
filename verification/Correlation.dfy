/** Meta-cases and their children (app/cases/correlation.py). */
module Correlation {
  import opened Types

  datatype MetaStatus =
    | CandidateEvent | ActiveEvent | InvestigatingEvent | MonitoringRecovery | Stabilized
    | Split | Merged | MetaResolved | MetaClosed

  predicate Over(s: MetaStatus) {
    s.Split? || s.Merged? || s.MetaResolved? || s.MetaClosed?
  }

  /** One row of the case table: a meta-case or an atomic child. */
  datatype Row =
    | Meta(status: MetaStatus, children: seq<string>, affected: seq<string>)
    | Child(metaId: string, covered: bool, independent: bool, resource: string)

  type Table = map<string, Row>

  datatype Failure = NotFound | AlreadyAttached
  datatype Outcome = Done(table: Table) | Refused(failure: Failure)

  function Listed(list: seq<string>, id: string): seq<string> {
    if id in list then list else list + [id]
  }

  function Without(list: seq<string>, id: string): seq<string> {
    if list == [] then []
    else if list[0] == id then Without(list[1..], id)
    else [list[0]] + Without(list[1..], id)
  }

  predicate AttachedElsewhere(t: Table, metaId: string, child: Row)
    requires child.Child?
  {
    child.metaId != "" && child.metaId != metaId
    && child.metaId in t && t[child.metaId].Meta? && !Over(t[child.metaId].status)
  }

  function Attach(t: Table, metaId: string, childId: string, independent: bool): Outcome {
    if metaId !in t || childId !in t || !t[metaId].Meta? || !t[childId].Child? then Refused(NotFound)
    else
      var meta, child := t[metaId], t[childId];
      if AttachedElsewhere(t, metaId, child) then Refused(AlreadyAttached)
      else
        Done(t[metaId := meta.(children := Listed(meta.children, childId),
                               affected := if child.resource == "" then meta.affected
                                   else Listed(meta.affected, child.resource))]
              [childId := child.(metaId := metaId, covered := !independent, independent := independent)])
  }

  function Detach(t: Table, metaId: string, childId: string): Outcome {
    if metaId !in t || childId !in t || !t[metaId].Meta? || !t[childId].Child? then Refused(NotFound)
    else
      var meta, child := t[metaId], t[childId];
      Done(t[metaId := meta.(children := Without(meta.children, childId))]
            [childId := if child.metaId == metaId then child.(metaId := "", covered := false) else child])
  }

  function SetIndependent(t: Table, childId: string, required: bool): Outcome {
    if childId !in t || !t[childId].Child? then Refused(NotFound)
    else
      var child := t[childId].(independent := required);
      Done(t[childId := if required then child.(covered := false)
                        else if child.metaId != "" then child.(covered := true)
                        else child])
  }

  predicate Distinct(list: seq<string>) {
    forall i, j :: 0 <= i < j < |list| ==> list[i] != list[j]
  }

  predicate ListsChild(t: Table, metaId: string, childId: string) {
    metaId in t && t[metaId].Meta? && childId in t[metaId].children
  }

  ghost predicate AttachmentsListed(t: Table) {
    forall c :: c in t && t[c].Child? && t[c].metaId != "" ==> ListsChild(t, t[c].metaId, c)
  }

  ghost predicate ListsDistinct(t: Table) {
    forall m :: m in t && t[m].Meta? ==> Distinct(t[m].children)
  }

  ghost predicate ActiveListsOwn(t: Table) {
    forall m, c :: ListsChild(t, m, c) && !Over(t[m].status) ==> c in t && t[c].Child? && t[c].metaId == m
  }

  /** A child is covered exactly while it is attached and needs no action of its own. */
  ghost predicate CoverageSound(t: Table) {
    forall c :: c in t && t[c].Child? ==> (t[c].covered <==> t[c].metaId != "" && !t[c].independent)
  }

  /** The relation the service maintains. The empty id names no row. */
  ghost predicate Consistent(t: Table) {
    "" !in t && AttachmentsListed(t) && ListsDistinct(t) && ActiveListsOwn(t) && CoverageSound(t)
  }

  lemma {:induction false} WithoutMembers(list: seq<string>, id: string)
    ensures forall x :: x in Without(list, id) <==> x in list && x != id
    ensures Distinct(list) ==> Distinct(Without(list, id))
  {
    if list != [] {
      WithoutMembers(list[1..], id);
      assert list == [list[0]] + list[1..];
      if Distinct(list) && list[0] != id {
        var rest := Without(list[1..], id);
        assert list[0] !in list[1..];
        assert list[0] !in rest;
        assert Without(list, id) == [list[0]] + rest;
      }
    }
  }

  lemma {:induction false} WithoutAbsent(list: seq<string>, id: string)
    requires id !in list
    ensures Without(list + [id], id) == list
  {
    if list == [] {
      assert [id][1..] == [];
      assert Without([id], id) == Without([id][1..], id);
      assert list + [id] == [id];
    } else {
      assert (list + [id])[1..] == list[1..] + [id];
      WithoutAbsent(list[1..], id);
    }
  }

  lemma ListedMembers(list: seq<string>, id: string)
    ensures forall x :: x in Listed(list, id) <==> x in list || x == id
    ensures Distinct(list) ==> Distinct(Listed(list, id))
  {
  }

  lemma AttachKeeps(t: Table, metaId: string, childId: string, independent: bool)
    requires Consistent(t) && Attach(t, metaId, childId, independent).Done?
    ensures Consistent(Attach(t, metaId, childId, independent).table)
  {
    var t' := Attach(t, metaId, childId, independent).table;
    ListedMembers(t[metaId].children, childId);
    forall m, c | ListsChild(t', m, c) && !Over(t'[m].status)
      ensures c in t' && t'[c].Child? && t'[c].metaId == m
    {
      if m != metaId {
        assert ListsChild(t, m, c);
      } else if c != childId {
        assert ListsChild(t, m, c);
      }
    }
    forall c | c in t' && t'[c].Child? && t'[c].metaId != ""
      ensures ListsChild(t', t'[c].metaId, c)
    {
      if c != childId {
        assert ListsChild(t, t[c].metaId, c);
      }
    }
  }

  lemma DetachKeeps(t: Table, metaId: string, childId: string)
    requires Consistent(t) && Detach(t, metaId, childId).Done?
    ensures Consistent(Detach(t, metaId, childId).table)
  {
    var t' := Detach(t, metaId, childId).table;
    WithoutMembers(t[metaId].children, childId);
    forall m, c | ListsChild(t', m, c) && !Over(t'[m].status)
      ensures c in t' && t'[c].Child? && t'[c].metaId == m
    {
      assert ListsChild(t, m, c);
    }
    forall c | c in t' && t'[c].Child? && t'[c].metaId != ""
      ensures ListsChild(t', t'[c].metaId, c)
    {
      assert ListsChild(t, t[c].metaId, c);
    }
  }

  lemma SetIndependentKeeps(t: Table, childId: string, required: bool)
    requires Consistent(t) && SetIndependent(t, childId, required).Done?
    ensures Consistent(SetIndependent(t, childId, required).table)
  {
    var t' := SetIndependent(t, childId, required).table;
    forall m, c | ListsChild(t', m, c) && !Over(t'[m].status)
      ensures c in t' && t'[c].Child? && t'[c].metaId == m
    {
      assert ListsChild(t, m, c);
    }
    forall c | c in t' && t'[c].Child? && t'[c].metaId != ""
      ensures ListsChild(t', t'[c].metaId, c)
    {
      assert ListsChild(t, t[c].metaId, c);
    }
  }

  /** Everything that writes the relation. Opening rows and moving a meta-case's
      status are done elsewhere; a status never leaves the terminal ones. */
  datatype Op =
    | OpenMeta(id: string, status: MetaStatus)
    | OpenChild(id: string, resource: string)
    | MoveMeta(id: string, status: MetaStatus)
    | AttachOp(metaId: string, childId: string, independentAction: bool)
    | DetachOp(metaId: string, childId: string)
    | IndependentOp(childId: string, required: bool)

  function Written(t: Table, o: Outcome): Table {
    if o.Done? then o.table else t
  }

  function Apply(t: Table, op: Op): Table {
    match op
    case OpenMeta(id, status) => if id == "" || id in t then t else t[id := Meta(status, [], [])]
    case OpenChild(id, resource) => if id == "" || id in t then t else t[id := Child("", false, false, resource)]
    case MoveMeta(id, status) =>
      if id in t && t[id].Meta? && (Over(t[id].status) ==> Over(status)) then t[id := t[id].(status := status)] else t
    case AttachOp(m, c, independent) => Written(t, Attach(t, m, c, independent))
    case DetachOp(m, c) => Written(t, Detach(t, m, c))
    case IndependentOp(c, required) => Written(t, SetIndependent(t, c, required))
  }

  function Run(t: Table, ops: seq<Op>): Table {
    if ops == [] then t else Apply(Run(t, ops[..|ops| - 1]), ops[|ops| - 1])
  }

  lemma MoveKeeps(t: Table, id: string, status: MetaStatus)
    requires Consistent(t)
    ensures Consistent(Apply(t, MoveMeta(id, status)))
  {
    var t' := Apply(t, MoveMeta(id, status));
    forall m, c | ListsChild(t', m, c) && !Over(t'[m].status)
      ensures c in t' && t'[c].Child? && t'[c].metaId == m
    {
      assert ListsChild(t, m, c);
    }
    forall c | c in t' && t'[c].Child? && t'[c].metaId != ""
      ensures ListsChild(t', t'[c].metaId, c)
    {
      assert ListsChild(t, t[c].metaId, c);
    }
  }

  lemma OpenKeeps(t: Table, id: string, row: Row)
    requires Consistent(t) && id != "" && id !in t
    requires (row.Meta? && row.children == []) || (row.Child? && row.metaId == "" && !row.covered)
    ensures Consistent(t[id := row])
  {
    var t' := t[id := row];
    forall m, c | ListsChild(t', m, c) && !Over(t'[m].status)
      ensures c in t' && t'[c].Child? && t'[c].metaId == m
    {
      assert ListsChild(t, m, c);
    }
    forall c | c in t' && t'[c].Child? && t'[c].metaId != ""
      ensures ListsChild(t', t'[c].metaId, c)
    {
      assert ListsChild(t, t[c].metaId, c);
    }
  }

  lemma ApplyKeeps(t: Table, op: Op)
    requires Consistent(t)
    ensures Consistent(Apply(t, op))
  {
    match op
    case OpenMeta(id, status) => if id != "" && id !in t { OpenKeeps(t, id, Meta(status, [], [])); }
    case OpenChild(id, resource) => if id != "" && id !in t { OpenKeeps(t, id, Child("", false, false, resource)); }
    case MoveMeta(id, status) => MoveKeeps(t, id, status);
    case AttachOp(m, c, i) => if Attach(t, m, c, i).Done? { AttachKeeps(t, m, c, i); }
    case DetachOp(m, c) => if Detach(t, m, c).Done? { DetachKeeps(t, m, c); }
    case IndependentOp(c, r) => if SetIndependent(t, c, r).Done? { SetIndependentKeeps(t, c, r); }
  }

  /** After any sequence of operations from an empty table the relation is consistent. */
  lemma {:induction false} RunConsistent(ops: seq<Op>)
    ensures Consistent(Run(map[], ops))
  {
    if ops != [] {
      RunConsistent(ops[..|ops| - 1]);
      ApplyKeeps(Run(map[], ops[..|ops| - 1]), ops[|ops| - 1]);
    }
  }

  /** A meta-case that was split, merged, resolved or closed. */
  predicate Ended(t: Table, m: string) {
    m in t && t[m].Meta? && t[m].status in {Split, Merged, MetaResolved, MetaClosed}
  }

  /** At most one meta-case that is not over lists a given child. */
  lemma OneActiveOwner(ops: seq<Op>, m: string, n: string, c: string)
    requires ListsChild(Run(map[], ops), m, c) && ListsChild(Run(map[], ops), n, c)
    requires !Ended(Run(map[], ops), m) && !Ended(Run(map[], ops), n)
    ensures m == n
  {
    RunConsistent(ops);
  }

  /** Attaching is refused exactly when a row is missing or another meta-case
      that is not over lists the child. */
  lemma AttachRefusedIff(t: Table, metaId: string, childId: string, independent: bool)
    requires Consistent(t) && metaId in t && t[metaId].Meta? && childId in t && t[childId].Child?
    ensures Attach(t, metaId, childId, independent).Refused?
       <==> exists m :: m != metaId && ListsChild(t, m, childId) && !Ended(t, m)
  {
    if AttachedElsewhere(t, metaId, t[childId]) {
      assert ListsChild(t, t[childId].metaId, childId);
    }
  }

  /** Detaching a freshly attached child restores the child list and frees the
      child; only the independence flag set by the attachment remains. */
  lemma DetachUndoesAttach(t: Table, metaId: string, childId: string, independent: bool)
    requires Consistent(t) && Attach(t, metaId, childId, independent).Done?
    requires t[childId].metaId == "" && childId !in t[metaId].children
    ensures Detach(Attach(t, metaId, childId, independent).table, metaId, childId).Done?
    ensures var back := Detach(Attach(t, metaId, childId, independent).table, metaId, childId).table;
            && back.Keys == t.Keys
            && back[metaId].children == t[metaId].children
            && back[childId] == t[childId].(independent := independent)
            && forall x :: x in t && x != metaId && x != childId ==> back[x] == t[x]
  {
    WithoutAbsent(t[metaId].children, childId);
  }

  /** An attachment lists the child, and its resource if it has one, after what was listed,
      and covers the child unless it needs action of its own. */
  lemma AttachDoes(t: Table, metaId: string, childId: string, independent: bool)
    requires Attach(t, metaId, childId, independent).Done?
    ensures var u := Attach(t, metaId, childId, independent).table;
            && u.Keys == t.Keys && (forall x :: x in t && x != metaId && x != childId ==> u[x] == t[x])
            && u[childId] == Child(metaId, !independent, independent, t[childId].resource)
            && u[metaId].Meta? && u[metaId].status == t[metaId].status
            && u[metaId].children == t[metaId].children + (if childId in t[metaId].children then [] else [childId])
            && u[metaId].affected == t[metaId].affected
                 + (if t[childId].resource == "" || t[childId].resource in t[metaId].affected then []
                    else [t[childId].resource])
  {
  }

  /** A detachment takes the child off the list, in order, and frees it if it was attached
      here; a child of another meta-case stays attached there, and what was affected stays. */
  lemma DetachDoes(t: Table, metaId: string, childId: string)
    requires Detach(t, metaId, childId).Done?
    ensures var u := Detach(t, metaId, childId).table;
            && u.Keys == t.Keys && (forall x :: x in t && x != metaId && x != childId ==> u[x] == t[x])
            && u[metaId].Meta? && u[metaId].status == t[metaId].status && u[metaId].affected == t[metaId].affected
            && (forall x :: x in u[metaId].children <==> x in t[metaId].children && x != childId)
            && (Distinct(t[metaId].children) ==> Distinct(u[metaId].children))
            && (t[childId].metaId == metaId ==>
                  u[childId] == Child("", false, t[childId].independent, t[childId].resource))
            && (t[childId].metaId != metaId ==> u[childId] == t[childId])
  {
    WithoutMembers(t[metaId].children, childId);
  }

  /** The mark alone decides whether an attached child is covered; a free one never is. */
  lemma IndependentDoes(t: Table, childId: string, required: bool)
    requires CoverageSound(t) && SetIndependent(t, childId, required).Done?
    ensures var u, c := SetIndependent(t, childId, required).table, t[childId];
            && u == t[childId := Child(c.metaId, c.metaId != "" && !required, required, c.resource)]
  {
  }

  /** The list comprehension of a detach. */
  method Remaining(list: seq<string>, id: string) returns (kept: seq<string>)
    ensures kept == Without(list, id)
  {
    kept := [];
    for i := 0 to |list|
      invariant kept + Without(list[i..], id) == Without(list, id)
    {
      assert list[i..][1..] == list[i + 1..];
      if list[i] != id {
        kept := kept + [list[i]];
      }
    }
    assert list[|list|..] == [];
  }

  /** The service over the case table. Each method runs inside the write guards
      of the rows it touches, so it is one atomic step. */
  class CorrelationService {
    var cases: Table

    constructor ()
      ensures cases == map[]
    {
      cases := map[];
    }

    method AttachChild(metaId: string, childId: string, independent: bool) returns (refusal: Option<Failure>)
      modifies this
      ensures var o := Attach(old(cases), metaId, childId, independent);
              && cases == Written(old(cases), o)
              && refusal == (if o.Refused? then Some(o.failure) else None)
      ensures old(Consistent(cases)) ==> Consistent(cases)
    {
      if old(Consistent(cases)) { ApplyKeeps(cases, AttachOp(metaId, childId, independent)); }
      if metaId !in cases || childId !in cases || !cases[metaId].Meta? || !cases[childId].Child? {
        return Some(NotFound);
      }
      var meta, child := cases[metaId], cases[childId];
      if child.metaId != "" && child.metaId != metaId {
        if child.metaId in cases {
          var other := cases[child.metaId];
          if other.Meta? && !Over(other.status) {
            return Some(AlreadyAttached);
          }
        }
      }
      if childId !in meta.children {
        meta := meta.(children := meta.children + [childId]);
      }
      if child.resource != "" && child.resource !in meta.affected {
        meta := meta.(affected := meta.affected + [child.resource]);
      }
      child := child.(metaId := metaId, covered := !independent, independent := independent);
      cases := cases[metaId := meta];
      cases := cases[childId := child];
      refusal := None;
    }

    method DetachChild(metaId: string, childId: string) returns (refusal: Option<Failure>)
      modifies this
      ensures var o := Detach(old(cases), metaId, childId);
              && cases == Written(old(cases), o)
              && refusal == (if o.Refused? then Some(o.failure) else None)
      ensures old(Consistent(cases)) ==> Consistent(cases)
    {
      if old(Consistent(cases)) { ApplyKeeps(cases, DetachOp(metaId, childId)); }
      if metaId !in cases || childId !in cases || !cases[metaId].Meta? || !cases[childId].Child? {
        return Some(NotFound);
      }
      var meta, child := cases[metaId], cases[childId];
      var kept := Remaining(meta.children, childId);
      meta := meta.(children := kept);
      if child.metaId == metaId {
        child := child.(metaId := "", covered := false);
      }
      cases := cases[metaId := meta];
      cases := cases[childId := child];
      refusal := None;
    }

    method MarkIndependentActionRequired(childId: string, required: bool) returns (refusal: Option<Failure>)
      modifies this
      ensures var o := SetIndependent(old(cases), childId, required);
              && cases == Written(old(cases), o)
              && refusal == (if o.Refused? then Some(o.failure) else None)
      ensures old(Consistent(cases)) ==> Consistent(cases)
    {
      if old(Consistent(cases)) { ApplyKeeps(cases, IndependentOp(childId, required)); }
      if childId !in cases || !cases[childId].Child? {
        return Some(NotFound);
      }
      var child := cases[childId].(independent := required);
      if required {
        child := child.(covered := false);
      } else if child.metaId != "" {
        child := child.(covered := true);
      }
      cases := cases[childId := child];
      refusal := None;
    }
  }
}
