/** Workspaces and their members: the requests that change them, one at a time. */
module Membership {
  import opened Options

  type ProjectId = nat
  type EmployeeId = nat
  type Key = (ProjectId, EmployeeId)

  datatype Role = Viewer | Contributor | Editor | Admin

  datatype Org = Org(
    projects: set<ProjectId>,
    employees: set<EmployeeId>,
    systemAdmins: set<EmployeeId>,
    members: map<Key, Role>)

  /** `role` is `None` when the text sent is no role; `failing` are positions whose insert the database refuses. */
  datatype Request =
    | Create(project: ProjectId, validType: bool)
    | DeleteProject(project: ProjectId)
    | Add(project: ProjectId, employee: EmployeeId, role: Option<Role>)
    | BulkAdd(project: ProjectId, ids: seq<string>, role: Option<Role>, failing: set<nat>)
    | RemoveMember(project: ProjectId, employee: EmployeeId)
    | UpdateMember(project: ProjectId, employee: EmployeeId, role: Option<Role>)

  datatype Outcome = Added | Duplicate | AlreadyMember(role: Role) | InvalidId | NotFound | InsertFailed {
    predicate Skipped() { Duplicate? || AlreadyMember? }

    predicate Errored() { InvalidId? || NotFound? || InsertFailed? }
  }

  datatype ItemResult = ItemResult(id: string, outcome: Outcome)

  /** The variables of the bulk loop. */
  datatype Batch = Batch(members: map<Key, Role>, seen: set<string>, results: seq<ItemResult>, added: nat, skipped: nat, errored: nat)

  function AdminsOf(members: map<Key, Role>, p: ProjectId): set<EmployeeId> {
    set k | k in members && k.0 == p && members[k] == Admin :: k.1
  }

  predicate Manages(s: Org, actor: EmployeeId, p: ProjectId) {
    actor in s.systemAdmins || ((p, actor) in s.members && s.members[(p, actor)] == Admin)
  }

  // ----- bulk add -----

  /** What happens to one id of the request. */
  function Judge(b: Batch, s: Org, p: ProjectId, parse: string -> Option<EmployeeId>, id: string, fails: bool): Outcome {
    if id in b.seen then Duplicate
    else if parse(id).None? then InvalidId
    else if parse(id).value !in s.employees then NotFound
    else if (p, parse(id).value) in b.members then AlreadyMember(b.members[(p, parse(id).value)])
    else if fails then InsertFailed
    else Added
  }

  function BulkStep(b: Batch, s: Org, p: ProjectId, role: Role, parse: string -> Option<EmployeeId>, id: string, fails: bool): Batch {
    var o := Judge(b, s, p, parse, id, fails);
    Batch(
      if o == Added then b.members[(p, parse(id).value) := role] else b.members,
      b.seen + {id},
      b.results + [ItemResult(id, o)],
      b.added + if o == Added then 1 else 0,
      b.skipped + if o.Skipped() then 1 else 0,
      b.errored + if o.Errored() then 1 else 0)
  }

  function Bulk(s: Org, p: ProjectId, role: Role, parse: string -> Option<EmployeeId>, ids: seq<string>, failing: set<nat>): Batch {
    if ids == [] then Batch(s.members, {}, [], 0, 0, 0)
    else
      var n := |ids| - 1;
      BulkStep(Bulk(s, p, role, parse, ids[..n], failing), s, p, role, parse, ids[n], n in failing)
  }

  /** One result per id, in order, and every id counted exactly once. */
  ghost predicate Reported(b: Batch, ids: seq<string>) {
    && |b.results| == |ids|
    && (forall i | 0 <= i < |ids| :: b.results[i].id == ids[i])
    && b.added + b.skipped + b.errored == |ids|
    && (forall id :: id in b.seen <==> id in ids)
  }

  lemma {:induction false} BulkReported(s: Org, p: ProjectId, role: Role, parse: string -> Option<EmployeeId>, ids: seq<string>, failing: set<nat>)
    ensures Reported(Bulk(s, p, role, parse, ids, failing), ids)
  {
    if ids != [] {
      var n := |ids| - 1;
      BulkReported(s, p, role, parse, ids[..n], failing);
      assert ids == ids[..n] + [ids[n]];
      hide Judge;
    }
  }

  datatype Tally = AsAdded | AsSkipped | AsErrored

  function TallyOf(o: Outcome): Tally {
    match o
    case Added => AsAdded
    case Duplicate => AsSkipped
    case AlreadyMember(_) => AsSkipped
    case InvalidId => AsErrored
    case NotFound => AsErrored
    case InsertFailed => AsErrored
  }

  /** The positions whose result is of this kind. */
  function Tallied(results: seq<ItemResult>, t: Tally): set<nat> {
    set i: nat | i < |results| && TallyOf(results[i].outcome) == t
  }

  lemma TalliedSnoc(results: seq<ItemResult>, r: ItemResult, t: Tally)
    ensures |Tallied(results + [r], t)| == |Tallied(results, t)| + if TallyOf(r.outcome) == t then 1 else 0
  {
    hide TallyOf;
    var added := if TallyOf(r.outcome) == t then {|results|} else {};
    assert Tallied(results + [r], t) == Tallied(results, t) + added;
  }

  lemma NoneTallied(t: Tally)
    ensures |Tallied([], t)| == 0
  {
    assert Tallied([], t) == {};
  }

  /** Each counter is the number of results of its kind. */
  lemma {:induction false} BulkCounted(s: Org, p: ProjectId, role: Role, parse: string -> Option<EmployeeId>, ids: seq<string>, failing: set<nat>)
    ensures var b := Bulk(s, p, role, parse, ids, failing);
            b.added == |Tallied(b.results, AsAdded)| && b.skipped == |Tallied(b.results, AsSkipped)| && b.errored == |Tallied(b.results, AsErrored)|
  {
    hide Judge, Tallied;
    if ids == [] {
      NoneTallied(AsAdded);
      NoneTallied(AsSkipped);
      NoneTallied(AsErrored);
    } else {
      var n := |ids| - 1;
      var b := Bulk(s, p, role, parse, ids[..n], failing);
      BulkCounted(s, p, role, parse, ids[..n], failing);
      var r := ItemResult(ids[n], Judge(b, s, p, parse, ids[n], n in failing));
      TalliedSnoc(b.results, r, AsAdded);
      TalliedSnoc(b.results, r, AsSkipped);
      TalliedSnoc(b.results, r, AsErrored);
    }
  }

  /** The employees reported as added, in order. */
  function Newcomers(results: seq<ItemResult>, parse: string -> Option<EmployeeId>): seq<EmployeeId> {
    if results == [] then []
    else
      var last := results[|results| - 1];
      Newcomers(results[..|results| - 1], parse)
      + if last.outcome == Added && parse(last.id).Some? then [parse(last.id).value] else []
  }

  ghost predicate Distinct(s: seq<EmployeeId>) {
    forall i, k | 0 <= i < k < |s| :: s[i] != s[k]
  }

  /** Old memberships are untouched, and the new ones are exactly the reported newcomers, none of them twice. */
  ghost predicate AddedExactly(b: Batch, before: map<Key, Role>, p: ProjectId, role: Role, parse: string -> Option<EmployeeId>) {
    var joined := Newcomers(b.results, parse);
    |joined| == b.added && Joined(b.members, before, p, role, joined)
  }

  ghost predicate Joined(members: map<Key, Role>, before: map<Key, Role>, p: ProjectId, role: Role, joined: seq<EmployeeId>) {
    && Distinct(joined)
    && (forall e | e in joined :: (p, e) !in before)
    && (forall k :: k in members <==> k in before || (k.0 == p && k.1 in joined))
    && (forall k | k in members :: members[k] == if k in before then before[k] else role)
  }

  lemma JoinOne(members: map<Key, Role>, before: map<Key, Role>, p: ProjectId, role: Role, joined: seq<EmployeeId>, e: EmployeeId)
    requires Joined(members, before, p, role, joined) && (p, e) !in members
    ensures Joined(members[(p, e) := role], before, p, role, joined + [e])
  {
    assert e !in joined by { assert (p, e).0 == p && (p, e).1 == e; }
    assert forall f :: f in joined + [e] <==> f in joined || f == e;
  }

  lemma NewcomersSnoc(results: seq<ItemResult>, r: ItemResult, parse: string -> Option<EmployeeId>)
    ensures Newcomers(results + [r], parse) ==
            Newcomers(results, parse) + if r.outcome == Added && parse(r.id).Some? then [parse(r.id).value] else []
  {
    assert (results + [r])[..|results|] == results;
  }

  lemma BulkStepExact(b: Batch, s: Org, before: map<Key, Role>, p: ProjectId, role: Role, parse: string -> Option<EmployeeId>, id: string, fails: bool)
    requires AddedExactly(b, before, p, role, parse)
    ensures AddedExactly(BulkStep(b, s, p, role, parse, id, fails), before, p, role, parse)
  {
    var o := Judge(b, s, p, parse, id, fails);
    NewcomersSnoc(b.results, ItemResult(id, o), parse);
    if o == Added { JoinOne(b.members, before, p, role, Newcomers(b.results, parse), parse(id).value); }
    hide Judge, Newcomers, Joined;
    assert Newcomers(b.results, parse) + [] == Newcomers(b.results, parse);
  }

  lemma {:induction false} BulkAddsExactly(s: Org, p: ProjectId, role: Role, parse: string -> Option<EmployeeId>, ids: seq<string>, failing: set<nat>)
    ensures AddedExactly(Bulk(s, p, role, parse, ids, failing), s.members, p, role, parse)
  {
    if ids != [] {
      var n := |ids| - 1;
      BulkAddsExactly(s, p, role, parse, ids[..n], failing);
      BulkStepExact(Bulk(s, p, role, parse, ids[..n], failing), s, s.members, p, role, parse, ids[n], n in failing);
      hide AddedExactly, BulkStep;
    }
  }

  lemma {:induction false} NewcomersIff(results: seq<ItemResult>, parse: string -> Option<EmployeeId>, e: EmployeeId)
    ensures e in Newcomers(results, parse) <==>
              exists k | 0 <= k < |results| :: results[k].outcome == Added && parse(results[k].id) == Some(e)
  {
    if results != [] {
      var init, last := results[..|results| - 1], results[|results| - 1];
      NewcomersIff(init, parse, e);
      assert results == init + [last];
    }
  }

  /** An employee's role when position `i` is reached: the one from before the request, or the one added on the way. */
  ghost function RoleBy(s: Org, p: ProjectId, role: Role, parse: string -> Option<EmployeeId>, results: seq<ItemResult>, i: nat, e: EmployeeId): Option<Role>
    requires i <= |results|
  {
    if (p, e) in s.members then Some(s.members[(p, e)])
    else if exists k | 0 <= k < i :: results[k].outcome == Added && parse(results[k].id) == Some(e) then Some(role)
    else None
  }

  /** What is reported of position `i`: the first of the reasons not to add, or the addition. */
  ghost predicate Fits(s: Org, p: ProjectId, role: Role, parse: string -> Option<EmployeeId>, failing: set<nat>, results: seq<ItemResult>, i: nat)
    requires i < |results|
  {
    var id, o := results[i].id, results[i].outcome;
    if exists k | 0 <= k < i :: results[k].id == id then o == Duplicate
    else
      match parse(id)
      case None => o == InvalidId
      case Some(e) =>
        if e !in s.employees then o == NotFound
        else
          match RoleBy(s, p, role, parse, results, i, e)
          case Some(r) => o == AlreadyMember(r)
          case None => o == if i in failing then InsertFailed else Added
  }

  lemma FitsSnoc(s: Org, p: ProjectId, role: Role, parse: string -> Option<EmployeeId>, failing: set<nat>, results: seq<ItemResult>, r: ItemResult, i: nat)
    requires i < |results| && Fits(s, p, role, parse, failing, results, i)
    ensures Fits(s, p, role, parse, failing, results + [r], i)
  {
    var all := results + [r];
    assert forall k | 0 <= k <= i :: all[k] == results[k];
    if parse(results[i].id).Some? {
      var e := parse(results[i].id).value;
      assert RoleBy(s, p, role, parse, all, i, e) == RoleBy(s, p, role, parse, results, i, e);
    }
    hide RoleBy;
  }

  lemma FitsLast(b: Batch, s: Org, p: ProjectId, role: Role, parse: string -> Option<EmployeeId>, failing: set<nat>, ids: seq<string>, id: string)
    requires Reported(b, ids) && AddedExactly(b, s.members, p, role, parse)
    ensures var o := Judge(b, s, p, parse, id, |ids| in failing);
            Fits(s, p, role, parse, failing, b.results + [ItemResult(id, o)], |ids|)
  {
    var n, all := |ids|, b.results + [ItemResult(id, Judge(b, s, p, parse, id, |ids| in failing))];
    assert forall k | 0 <= k < n :: all[k] == b.results[k] && all[k].id == ids[k];
    assert (exists k | 0 <= k < n :: all[k].id == id) <==> id in b.seen;
    if parse(id).Some? {
      var e := parse(id).value;
      NewcomersIff(b.results, parse, e);
      assert (exists k | 0 <= k < n :: all[k].outcome == Added && parse(all[k].id) == Some(e)) <==> e in Newcomers(b.results, parse);
      hide Newcomers;
      assert RoleBy(s, p, role, parse, all, n, e) == if (p, e) in b.members then Some(b.members[(p, e)]) else None;
    }
  }

  lemma BulkLast(s: Org, p: ProjectId, role: Role, parse: string -> Option<EmployeeId>, ids: seq<string>, failing: set<nat>)
    requires ids != []
    ensures var n := |ids| - 1;
            var b := Bulk(s, p, role, parse, ids[..n], failing);
            Bulk(s, p, role, parse, ids, failing).results == b.results + [ItemResult(ids[n], Judge(b, s, p, parse, ids[n], n in failing))]
  {
    hide Judge;
  }

  /** Every result of a bulk request is the right one. */
  lemma {:induction false} ResultsFit(s: Org, p: ProjectId, role: Role, parse: string -> Option<EmployeeId>, ids: seq<string>, failing: set<nat>)
    ensures var results := Bulk(s, p, role, parse, ids, failing).results;
            |results| == |ids| && forall i | 0 <= i < |results| :: Fits(s, p, role, parse, failing, results, i)
  {
    hide Fits, Judge, AddedExactly, Bulk;
    BulkReported(s, p, role, parse, ids, failing);
    if ids != [] {
      var n := |ids| - 1;
      var b := Bulk(s, p, role, parse, ids[..n], failing);
      ResultsFit(s, p, role, parse, ids[..n], failing);
      BulkReported(s, p, role, parse, ids[..n], failing);
      BulkAddsExactly(s, p, role, parse, ids[..n], failing);
      FitsLast(b, s, p, role, parse, failing, ids[..n], ids[n]);
      var r := ItemResult(ids[n], Judge(b, s, p, parse, ids[n], n in failing));
      forall i | 0 <= i < n ensures Fits(s, p, role, parse, failing, b.results + [r], i) {
        FitsSnoc(s, p, role, parse, failing, b.results, r, i);
      }
      BulkLast(s, p, role, parse, ids, failing);
    }
  }

  // ----- requests -----

  predicate Allowed(s: Org, actor: EmployeeId, r: Request) {
    match r
    case Create(p, validType) => actor in s.systemAdmins && validType && p !in s.projects
    case DeleteProject(p) => actor in s.systemAdmins && p in s.projects
    case Add(p, e, role) => p in s.projects && Manages(s, actor, p) && e in s.employees && (p, e) !in s.members && role.Some?
    case BulkAdd(p, _, role, _) => p in s.projects && Manages(s, actor, p) && role.Some?
    case RemoveMember(p, e) =>
      && Manages(s, actor, p) && (p, e) in s.members
      && (s.members[(p, e)] == Admin ==> |AdminsOf(s.members, p)| > 1)
    case UpdateMember(p, e, role) =>
      && Manages(s, actor, p) && (p, e) in s.members && role.Some?
      && (s.members[(p, e)] == Admin && role.value != Admin ==> |AdminsOf(s.members, p)| > 1)
  }

  /** A request that is not allowed changes nothing. */
  function Apply(s: Org, parse: string -> Option<EmployeeId>, actor: EmployeeId, r: Request): Org {
    if !Allowed(s, actor, r) then s
    else
      match r
      case Create(p, _) => s.(projects := s.projects + {p}, members := s.members[(p, actor) := Admin])
      case DeleteProject(p) =>
        s.(projects := s.projects - {p}, members := map k | k in s.members && k.0 != p :: s.members[k])
      case Add(p, e, role) => s.(members := s.members[(p, e) := role.value])
      case BulkAdd(p, ids, role, failing) => s.(members := Bulk(s, p, role.value, parse, ids, failing).members)
      case RemoveMember(p, e) => s.(members := map k | k in s.members && k != (p, e) :: s.members[k])
      case UpdateMember(p, e, role) => s.(members := s.members[(p, e) := role.value])
  }

  /** What an allowed request makes of one membership: its own as asked, every other one as it was. */
  lemma RolesAfter(s: Org, parse: string -> Option<EmployeeId>, actor: EmployeeId, r: Request, k: Key)
    requires Allowed(s, actor, r) && !r.BulkAdd?
    ensures var after := Apply(s, parse, actor, r).members;
            match r
            case Create(p, _) => k == (p, actor) ==> k in after && after[k] == Admin
            case Add(p, e, role) => k == (p, e) ==> k in after && Some(after[k]) == role
            case UpdateMember(p, e, role) => k == (p, e) ==> k in after && Some(after[k]) == role
            case RemoveMember(p, e) => k == (p, e) ==> k !in after
            case DeleteProject(p) => k.0 == p ==> k !in after
            case BulkAdd(_, _, _, _) => true
    ensures var own := match r
                       case Create(p, _) => k == (p, actor)
                       case Add(p, e, _) => k == (p, e)
                       case UpdateMember(p, e, _) => k == (p, e)
                       case RemoveMember(p, e) => k == (p, e)
                       case DeleteProject(p) => k.0 == p
                       case BulkAdd(_, _, _, _) => true;
            !own ==>
              && (k in Apply(s, parse, actor, r).members <==> k in s.members)
              && (k in s.members ==> Apply(s, parse, actor, r).members[k] == s.members[k])
    ensures Apply(s, parse, actor, r).projects ==
              if r.Create? then s.projects + {r.project} else if r.DeleteProject? then s.projects - {r.project} else s.projects
  {
    hide Bulk;
  }

  /** Another member of the workspace is an admin. */
  ghost predicate OtherAdmin(s: Org, p: ProjectId, e: EmployeeId) {
    exists a :: a != e && (p, a) in s.members && s.members[(p, a)] == Admin
  }

  lemma OtherAdminIff(s: Org, p: ProjectId, e: EmployeeId)
    requires (p, e) in s.members && s.members[(p, e)] == Admin
    ensures OtherAdmin(s, p, e) <==> |AdminsOf(s.members, p)| > 1
  {
    var admins := AdminsOf(s.members, p);
    assert (p, e).0 == p && (p, e).1 == e && e in admins;
    if OtherAdmin(s, p, e) {
      var a :| a != e && (p, a) in s.members && s.members[(p, a)] == Admin;
      assert (p, a).0 == p && (p, a).1 == a && a in admins;
      assert |admins| == |admins - {e}| + 1 && a in admins - {e};
    } else {
      assert admins == {e};
    }
  }

  /**
   A request changes something exactly if who sends it may send it and what it asks for is possible: workspaces come
   and go by system administrators, members by them and by the workspace's own admins, and the last admin stays one.
   */
  lemma ChangesIff(s: Org, parse: string -> Option<EmployeeId>, actor: EmployeeId, r: Request)
    requires !r.BulkAdd?
    ensures var root, admin := actor in s.systemAdmins, (r.project, actor) in s.members && s.members[(r.project, actor)] == Admin;
            Apply(s, parse, actor, r) != s <==>
              match r
              case Create(p, validType) => root && validType && p !in s.projects
              case DeleteProject(p) => root && p in s.projects
              case Add(p, e, role) => (root || admin) && p in s.projects && e in s.employees && (p, e) !in s.members && role.Some?
              case BulkAdd(_, _, _, _) => true
              case RemoveMember(p, e) => (root || admin) && (p, e) in s.members && (s.members[(p, e)] == Admin ==> OtherAdmin(s, p, e))
              case UpdateMember(p, e, role) =>
                && (root || admin) && (p, e) in s.members && role.Some? && role.value != s.members[(p, e)]
                && (s.members[(p, e)] == Admin ==> OtherAdmin(s, p, e))
  {
    if (r.RemoveMember? || r.UpdateMember?) && (r.project, r.employee) in s.members && s.members[(r.project, r.employee)] == Admin {
      OtherAdminIff(s, r.project, r.employee);
    }
    hide Bulk, AdminsOf, OtherAdmin;
    match r
    case RemoveMember(p, e) => assert (p, e) !in (map k | k in s.members && k != (p, e) :: s.members[k]);
    case DeleteProject(p) => assert p !in s.projects - {p};
    case Create(p, _) => assert p in s.projects + {p};
    case _ =>
  }

  /** A bulk request of someone who may add members has the effect proved of the batch, any other has none. */
  lemma BulkTakesEffect(s: Org, parse: string -> Option<EmployeeId>, actor: EmployeeId, p: ProjectId, ids: seq<string>, role: Option<Role>, failing: set<nat>)
    ensures var after, admin := Apply(s, parse, actor, BulkAdd(p, ids, role, failing)), (p, actor) in s.members && s.members[(p, actor)] == Admin;
            if p in s.projects && (actor in s.systemAdmins || admin) && role.Some? then
              var b := Bulk(s, p, role.value, parse, ids, failing);
              after == s.(members := after.members) && Joined(after.members, s.members, p, role.value, Newcomers(b.results, parse))
            else after == s
  {
    if role.Some? { BulkAddsExactly(s, p, role.value, parse, ids, failing); }
    hide Joined, Bulk, Newcomers;
  }

  function Serve(s: Org, parse: string -> Option<EmployeeId>, requests: seq<(EmployeeId, Request)>): Org {
    if requests == [] then s
    else
      var last := requests[|requests| - 1];
      Apply(Serve(s, parse, requests[..|requests| - 1]), parse, last.0, last.1)
  }

  lemma ServeLast(s: Org, parse: string -> Option<EmployeeId>, requests: seq<(EmployeeId, Request)>, actor: EmployeeId, r: Request)
    ensures Serve(s, parse, requests + [(actor, r)]) == Apply(Serve(s, parse, requests), parse, actor, r)
  {
    assert (requests + [(actor, r)])[..|requests|] == requests;
  }

  ghost predicate SameIn(s: Org, after: Org, p: ProjectId) {
    && after.systemAdmins == s.systemAdmins && (p in after.projects <==> p in s.projects)
    && forall e :: ((p, e) in after.members <==> (p, e) in s.members) && ((p, e) in s.members ==> after.members[(p, e)] == s.members[(p, e)])
  }

  lemma OutsiderStep(s: Org, parse: string -> Option<EmployeeId>, actor: EmployeeId, r: Request, p: ProjectId)
    requires actor !in s.systemAdmins && !((p, actor) in s.members && s.members[(p, actor)] == Admin)
    ensures SameIn(s, Apply(s, parse, actor, r), p)
  {
    if r.BulkAdd? {
      BulkTakesEffect(s, parse, actor, r.project, r.ids, r.role, r.failing);
    } else if Allowed(s, actor, r) {
      forall e: EmployeeId ensures ((p, e) in Apply(s, parse, actor, r).members <==> (p, e) in s.members)
                    && ((p, e) in s.members ==> Apply(s, parse, actor, r).members[(p, e)] == s.members[(p, e)]) {
        RolesAfter(s, parse, actor, r, (p, e));
      }
    }
    hide Bulk, Newcomers, AdminsOf;
  }

  /** Whatever people who are no admins of a workspace send, its memberships stay as they are. */
  lemma {:induction false} OutsidersChangeNothing(s: Org, parse: string -> Option<EmployeeId>, requests: seq<(EmployeeId, Request)>, p: ProjectId)
    requires forall x | x in requests :: x.0 !in s.systemAdmins && !((p, x.0) in s.members && s.members[(p, x.0)] == Admin)
    ensures SameIn(s, Serve(s, parse, requests), p)
  {
    if requests != [] {
      var init, last := requests[..|requests| - 1], requests[|requests| - 1];
      OutsidersChangeNothing(s, parse, init, p);
      OutsiderStep(Serve(s, parse, init), parse, last.0, last.1, p);
      hide Apply;
    }
  }

  ghost predicate EveryProjectManaged(s: Org) {
    forall p | p in s.projects :: AdminsOf(s.members, p) != {}
  }

  lemma AdminsAfter(before: map<Key, Role>, after: map<Key, Role>, p: ProjectId)
    requires forall e :: ((p, e) in before && before[(p, e)] == Admin) ==> ((p, e) in after && after[(p, e)] == Admin)
    ensures AdminsOf(before, p) <= AdminsOf(after, p)
  {}

  lemma AdminsWithout(before: map<Key, Role>, after: map<Key, Role>, p: ProjectId, e: EmployeeId)
    requires forall f | f != e :: ((p, f) in before && before[(p, f)] == Admin) <==> ((p, f) in after && after[(p, f)] == Admin)
    requires !((p, e) in after && after[(p, e)] == Admin)
    ensures AdminsOf(after, p) == AdminsOf(before, p) - {e}
  {}

  lemma OthersRemain(members: map<Key, Role>, p: ProjectId, e: EmployeeId)
    requires (p, e) in members && members[(p, e)] == Admin
    ensures AdminsOf(members, p) - {e} != {} <==> |AdminsOf(members, p)| > 1
  {
    var admins := AdminsOf(members, p);
    assert e in admins by { assert (p, e) in members; }
    assert |admins - {e}| == |admins| - 1;
  }

  lemma AddingKeeps(s: Org, parse: string -> Option<EmployeeId>, actor: EmployeeId, r: Request)
    requires EveryProjectManaged(s) && Allowed(s, actor, r) && (r.Add? || r.BulkAdd? || r.Create? || r.DeleteProject?)
    ensures EveryProjectManaged(Apply(s, parse, actor, r))
  {
    var after := Apply(s, parse, actor, r);
    if r.BulkAdd? { BulkAddsExactly(s, r.project, r.role.value, parse, r.ids, r.failing); }
    forall p | p in after.projects ensures AdminsOf(after.members, p) != {} {
      if r.Create? && p == r.project {
        assert (p, actor) in after.members;
        assert actor in AdminsOf(after.members, p);
      } else {
        AdminsAfter(s.members, after.members, p);
      }
    }
    hide Bulk;
  }

  lemma GuardedKeeps(s: Org, parse: string -> Option<EmployeeId>, actor: EmployeeId, r: Request)
    requires EveryProjectManaged(s) && Allowed(s, actor, r) && (r.RemoveMember? || r.UpdateMember?)
    ensures EveryProjectManaged(Apply(s, parse, actor, r))
  {
    var after, e := Apply(s, parse, actor, r), r.employee;
    hide Bulk;
    forall p | p in after.projects ensures AdminsOf(after.members, p) != {} {
      if p == r.project && s.members[(p, e)] == Admin && !((p, e) in after.members && after.members[(p, e)] == Admin) {
        AdminsWithout(s.members, after.members, p, e);
        OthersRemain(s.members, p, e);
      } else {
        AdminsAfter(s.members, after.members, p);
      }
    }
  }

  lemma ApplyKeepsAdmins(s: Org, parse: string -> Option<EmployeeId>, actor: EmployeeId, r: Request)
    requires EveryProjectManaged(s)
    ensures EveryProjectManaged(Apply(s, parse, actor, r))
  {
    hide EveryProjectManaged, Allowed, Bulk;
    if Allowed(s, actor, r) {
      if r.RemoveMember? || r.UpdateMember? { GuardedKeeps(s, parse, actor, r); } else { AddingKeeps(s, parse, actor, r); }
    }
  }

  /** Across any serial run of requests every workspace keeps an admin. */
  lemma {:induction false} ServeKeepsAdmins(s: Org, parse: string -> Option<EmployeeId>, requests: seq<(EmployeeId, Request)>)
    requires EveryProjectManaged(s)
    ensures EveryProjectManaged(Serve(s, parse, requests))
  {
    if requests != [] {
      var init, last := requests[..|requests| - 1], requests[|requests| - 1];
      ServeKeepsAdmins(s, parse, init);
      ApplyKeepsAdmins(Serve(s, parse, init), parse, last.0, last.1);
      hide EveryProjectManaged, Allowed;
    }
  }

  /** The removal guard refuses exactly the removals that would leave the workspace without an admin. */
  lemma RemovalGuardExact(s: Org, actor: EmployeeId, p: ProjectId, e: EmployeeId)
    requires EveryProjectManaged(s) && p in s.projects && Manages(s, actor, p) && (p, e) in s.members
    ensures Allowed(s, actor, RemoveMember(p, e)) <==>
              AdminsOf(map k | k in s.members && k != (p, e) :: s.members[k], p) != {}
  {
    var after := map k | k in s.members && k != (p, e) :: s.members[k];
    AdminsWithout(s.members, after, p, e);
    if s.members[(p, e)] == Admin {
      OthersRemain(s.members, p, e);
    } else {
      assert e !in AdminsOf(s.members, p);
    }
  }

  /** Likewise for the role change. */
  lemma DemotionGuardExact(s: Org, actor: EmployeeId, p: ProjectId, e: EmployeeId, role: Role)
    requires EveryProjectManaged(s) && p in s.projects && Manages(s, actor, p) && (p, e) in s.members
    ensures Allowed(s, actor, UpdateMember(p, e, Some(role))) <==> AdminsOf(s.members[(p, e) := role], p) != {}
  {
    var after := s.members[(p, e) := role];
    if role == Admin {
      assert (p, e) in after;
      assert e in AdminsOf(after, p);
    } else {
      AdminsWithout(s.members, after, p, e);
      if s.members[(p, e)] == Admin {
        OthersRemain(s.members, p, e);
      } else {
        assert e !in AdminsOf(s.members, p);
      }
    }
  }

  /** The guards only hold one request at a time: checked together, two admins can remove each other. */
  lemma ConcurrentRemovals(s: Org, p: ProjectId, a: EmployeeId, b: EmployeeId)
    requires a != b && AdminsOf(s.members, p) == {a, b}
    ensures Allowed(s, a, RemoveMember(p, b)) && Allowed(s, b, RemoveMember(p, a))
    ensures AdminsOf(map k | k in s.members && k != (p, a) && k != (p, b) :: s.members[k], p) == {}
  {
    var admins := AdminsOf(s.members, p);
    assert a in admins && b in admins;
    var both := map k | k in s.members && k != (p, a) && k != (p, b) :: s.members[k];
    assert forall e | e in AdminsOf(both, p) :: (p, e) in both && e in admins;
  }

  /** Takes a member out of workspace `p` or makes it no admin. */
  predicate Takes(r: Request, p: ProjectId) {
    (r.RemoveMember? && r.project == p) || (r.UpdateMember? && r.project == p && r.role.Some? && r.role.value != Admin)
  }

  /** What such a request writes once its checks have passed, whoever has written in between. */
  function Effect(members: map<Key, Role>, p: ProjectId, r: Request): map<Key, Role>
    requires Takes(r, p)
  {
    if (p, r.employee) !in members then members
    else if r.RemoveMember? then map k | k in members && k != (p, r.employee) :: members[k]
    else members[(p, r.employee) := r.role.value]
  }

  function Effects(members: map<Key, Role>, p: ProjectId, rs: seq<Request>): map<Key, Role>
    requires forall r | r in rs :: Takes(r, p)
  {
    if rs == [] then members else Effect(Effects(members, p, rs[..|rs| - 1]), p, rs[|rs| - 1])
  }

  function Targets(p: ProjectId, rs: seq<Request>): set<EmployeeId>
    requires forall r | r in rs :: Takes(r, p)
  {
    set r | r in rs && Takes(r, p) :: r.employee
  }

  lemma EffectIsApply(s: Org, parse: string -> Option<EmployeeId>, actor: EmployeeId, r: Request)
    requires Takes(r, r.project) && Allowed(s, actor, r)
    ensures Apply(s, parse, actor, r) == s.(members := Effect(s.members, r.project, r))
  {}

  lemma {:induction false} EffectsAdmins(members: map<Key, Role>, rs: seq<Request>, p: ProjectId)
    requires forall r | r in rs :: Takes(r, p)
    ensures AdminsOf(Effects(members, p, rs), p) == AdminsOf(members, p) - Targets(p, rs)
  {
    if rs != [] {
      var init, r := rs[..|rs| - 1], rs[|rs| - 1];
      assert rs == init + [r];
      assert forall q :: q in rs <==> q in init || q == r;
      assert Takes(r, p);
      EffectsAdmins(members, init, p);
      assert Targets(p, rs) == Targets(p, init) + {r.employee};
      AdminsWithout(Effects(members, p, init), Effects(members, p, rs), p, r.employee);
    }
  }

  /**
   Any number of removals and demotions, all checked before any of them is written, leave the workspace
   without an admin exactly if every admin is the target of one.
   */
  lemma ConcurrentLossIff(s: Org, rs: seq<Request>, p: ProjectId)
    requires forall r | r in rs :: Takes(r, p)
    ensures AdminsOf(Effects(s.members, p, rs), p) == {} <==> AdminsOf(s.members, p) <= Targets(p, rs)
  {
    EffectsAdmins(s.members, rs, p);
    hide AdminsOf, Targets, Effects;
    var admins, targets := AdminsOf(s.members, p), Targets(p, rs);
    assert forall e | e in admins && e !in targets :: e in admins - targets;
  }

  lemma TakenAdmin(s: Org, actor: EmployeeId, r: Request)
    requires Takes(r, r.project) && Allowed(s, actor, r)
    ensures r.employee in AdminsOf(s.members, r.project) ==> |AdminsOf(s.members, r.project)| > 1
  {}

  /**
   For two allowed ones: each alone does what the serial step does, and the second, writing what it would have
   written, leaves no admin exactly if the two targets are all the admins there are.
   */
  lemma ConcurrentPairIff(s: Org, parse: string -> Option<EmployeeId>, p: ProjectId, x: EmployeeId, q: Request, y: EmployeeId, r: Request)
    requires EveryProjectManaged(s) && p in s.projects
    requires Takes(q, p) && Takes(r, p) && Allowed(s, x, q) && Allowed(s, y, r)
    ensures Apply(s, parse, x, q).members == Effect(s.members, p, q) && Apply(s, parse, y, r).members == Effect(s.members, p, r)
    ensures AdminsOf(Effect(Effect(s.members, p, q), p, r), p) == {} <==> AdminsOf(s.members, p) == {q.employee, r.employee}
  {
    var admins, a, b := AdminsOf(s.members, p), q.employee, r.employee;
    ConcurrentLossIff(s, [q, r], p);
    assert Targets(p, [q, r]) == {a, b} by { assert [q, r][0] == q && [q, r][1] == r; }
    assert [q, r][..1] == [q] && [q][..0] == [];
    assert Effects(s.members, p, []) == s.members;
    assert Effects(s.members, p, [q]) == Effect(s.members, p, q);
    TakenAdmin(s, x, q);
    TakenAdmin(s, y, r);
    EffectIsApply(s, parse, x, q);
    EffectIsApply(s, parse, y, r);
    hide Apply, AdminsOf, Effect, Effects, Targets, Allowed;
    if admins <= {a, b} {
      if a !in admins { assert admins <= {b}; Alone(admins, b); }
      if b !in admins { assert admins <= {a}; Alone(admins, a); }
    }
  }

  lemma Alone(admins: set<EmployeeId>, e: EmployeeId)
    requires admins <= {e} && admins != {}
    ensures admins == {e} && |admins| == 1
  {}

  // ----- the tables, updated in place -----

  class Workspaces {
    const parse: string -> Option<EmployeeId>
    var projects: set<ProjectId>
    var employees: set<EmployeeId>
    var systemAdmins: set<EmployeeId>
    var members: map<Key, Role>

    function View(): Org
      reads this
    {
      Org(projects, employees, systemAdmins, members)
    }

    /** No workspace is without an admin. */
    ghost predicate Valid()
      reads this
    {
      EveryProjectManaged(View())
    }

    constructor (parse: string -> Option<EmployeeId>, employees: set<EmployeeId>, systemAdmins: set<EmployeeId>)
      ensures View() == Org({}, employees, systemAdmins, map[]) && Valid() && this.parse == parse
    {
      this.parse := parse;
      projects := {};
      this.employees := employees;
      this.systemAdmins := systemAdmins;
      members := map[];
    }

    method CreateProject(actor: EmployeeId, p: ProjectId, validType: bool) returns (ok: bool)
      requires Valid() && p !in projects
      modifies this`projects, this`members
      ensures Valid()
      ensures View() == Apply(old(View()), parse, actor, Create(p, validType))
      ensures ok <==> Allowed(old(View()), actor, Create(p, validType))
    {
      hide EveryProjectManaged;
      ApplyKeepsAdmins(View(), parse, actor, Create(p, validType));
      if actor !in systemAdmins { return false; }
      if !validType { return false; }
      projects := projects + {p};
      members := members[(p, actor) := Admin];
      return true;
    }

    method RemoveProject(actor: EmployeeId, p: ProjectId) returns (ok: bool)
      requires Valid()
      modifies this`projects, this`members
      ensures Valid()
      ensures View() == Apply(old(View()), parse, actor, DeleteProject(p))
      ensures ok <==> Allowed(old(View()), actor, DeleteProject(p))
    {
      hide EveryProjectManaged;
      ApplyKeepsAdmins(View(), parse, actor, DeleteProject(p));
      if actor !in systemAdmins { return false; }
      if p !in projects { return false; }
      projects := projects - {p};
      members := map k | k in members && k.0 != p :: members[k];
      return true;
    }

    method AddMember(actor: EmployeeId, p: ProjectId, e: EmployeeId, role: Option<Role>) returns (ok: bool)
      requires Valid()
      modifies this`members
      ensures Valid()
      ensures View() == Apply(old(View()), parse, actor, Add(p, e, role))
      ensures ok <==> Allowed(old(View()), actor, Add(p, e, role))
    {
      hide EveryProjectManaged;
      ApplyKeepsAdmins(View(), parse, actor, Add(p, e, role));
      if p !in projects { return false; }
      if !Manages(View(), actor, p) { return false; }
      if e !in employees { return false; }
      if (p, e) in members { return false; }
      if role.None? { return false; }
      members := members[(p, e) := role.value];
      return true;
    }

    method BulkAddMembers(actor: EmployeeId, p: ProjectId, ids: seq<string>, role: Option<Role>, failing: set<nat>)
      returns (results: seq<ItemResult>, added: nat, skipped: nat, errored: nat)
      requires Valid()
      modifies this`members
      ensures Valid()
      ensures View() == Apply(old(View()), parse, actor, BulkAdd(p, ids, role, failing))
      ensures Allowed(old(View()), actor, BulkAdd(p, ids, role, failing)) ==>
                && |results| == |ids| && (forall i | 0 <= i < |ids| :: results[i].id == ids[i])
                && added + skipped + errored == |ids|
                && Batch(members, (set id | id in ids), results, added, skipped, errored) == Bulk(old(View()), p, role.value, parse, ids, failing)
    {
      hide EveryProjectManaged;
      ApplyKeepsAdmins(View(), parse, actor, BulkAdd(p, ids, role, failing));
      results, added, skipped, errored := [], 0, 0, 0;
      if p !in projects || !Manages(View(), actor, p) || role.None? { return; }
      var seen: set<string> := {};
      ghost var start := View();
      for i := 0 to |ids|
        invariant Batch(members, seen, results, added, skipped, errored) == Bulk(start, p, role.value, parse, ids[..i], failing)
      {
        ghost var b := Bulk(start, p, role.value, parse, ids[..i], failing);
        assert ids[..i + 1][..i] == ids[..i];
        assert Bulk(start, p, role.value, parse, ids[..i + 1], failing) == BulkStep(b, start, p, role.value, parse, ids[i], i in failing);
        hide Bulk;
        var id := ids[i];
        if id in seen {
          results, skipped := results + [ItemResult(id, Duplicate)], skipped + 1;
          assert seen + {id} == seen;
          continue;
        }
        seen := seen + {id};
        var parsed := parse(id);
        if parsed.None? {
          results, errored := results + [ItemResult(id, InvalidId)], errored + 1;
          continue;
        }
        if parsed.value !in employees {
          results, errored := results + [ItemResult(id, NotFound)], errored + 1;
          continue;
        }
        if (p, parsed.value) in members {
          results, skipped := results + [ItemResult(id, AlreadyMember(members[(p, parsed.value)]))], skipped + 1;
          continue;
        }
        if i in failing {
          results, errored := results + [ItemResult(id, InsertFailed)], errored + 1;
        } else {
          members := members[(p, parsed.value) := role.value];
          results, added := results + [ItemResult(id, Added)], added + 1;
        }
      }
      assert ids[..|ids|] == ids;
      BulkReported(start, p, role.value, parse, ids, failing);
      assert seen == (set id | id in ids);
    }

    method RemoveMember(actor: EmployeeId, p: ProjectId, e: EmployeeId) returns (ok: bool)
      requires Valid()
      modifies this`members
      ensures Valid()
      ensures View() == Apply(old(View()), parse, actor, Request.RemoveMember(p, e))
      ensures ok <==> Allowed(old(View()), actor, Request.RemoveMember(p, e))
    {
      hide EveryProjectManaged;
      ApplyKeepsAdmins(View(), parse, actor, Request.RemoveMember(p, e));
      if !Manages(View(), actor, p) { return false; }
      if (p, e) !in members { return false; }
      if members[(p, e)] == Admin && |AdminsOf(members, p)| <= 1 { return false; }
      members := map k | k in members && k != (p, e) :: members[k];
      return true;
    }

    method UpdateMember(actor: EmployeeId, p: ProjectId, e: EmployeeId, role: Option<Role>) returns (ok: bool)
      requires Valid()
      modifies this`members
      ensures Valid()
      ensures View() == Apply(old(View()), parse, actor, Request.UpdateMember(p, e, role))
      ensures ok <==> Allowed(old(View()), actor, Request.UpdateMember(p, e, role))
    {
      hide EveryProjectManaged;
      ApplyKeepsAdmins(View(), parse, actor, Request.UpdateMember(p, e, role));
      if !Manages(View(), actor, p) { return false; }
      if (p, e) !in members { return false; }
      if role.None? { return false; }
      if members[(p, e)] == Admin && role.value != Admin && |AdminsOf(members, p)| <= 1 { return false; }
      members := members[(p, e) := role.value];
      return true;
    }
  }
}
