/**
 * The on-change rule "Update 'Remaining effort' on change of subissues":
 * its guard, and its action, which recomputes a cleared value from the
 * issue's own sub-issues and then brings every parent the issue had before
 * or has after the transaction up to date, but only a parent whose value is
 * empty or still equals its sub-issues' sum from before the transaction.
 */
module EffortRule {
  import opened Wrappers
  import opened Durations
  import opened NullSum
  import opened Issues
  import opened SubtaskSum

  /**
   * The rule runs when the issue's 'subtask of' links changed or its own
   * 'Remaining effort' changed; a change to its sub-issues alone does not
   * trigger it.
   */
  function Guard(issue: Issue): (r: bool)
    ensures issue.parents.Consistent() ==>
      (r <==> issue.parents.added != [] || issue.parents.removed != [] || issue.effortChanged)
  {
    issue.parents.isChanged || issue.effortChanged
  }

  /**
   * The value setRemainingEffort stores for a minute count: null for null,
   * otherwise the period of that many minutes, which reads back as the same
   * minutes under any calendar.
   */
  function EffortFor(minutes: Option<int>): (r: Option<Period>)
    ensures forall project :: HasWorkingDay(project) ==> PeriodToMinutes(r, project) == minutes
  {
    match minutes
    case None => None
    case Some(m) =>
      WholeMinutes(m);
      Some(ToPeriod(m * 60 * 1000))
  }

  /** setRemainingEffort: writes the issue's 'Remaining effort' and nothing else. */
  method SetRemainingEffort(issue: Issue, minutes: Option<int>)
    modifies issue`effort
    ensures issue.effort == EffortFor(minutes)
  {
    if minutes.None? {
      issue.effort := None;
    } else {
      issue.effort := Some(ToPeriod(minutes.value * 60 * 1000));
    }
  }

  /**
   * A parent may be overwritten when its current value is null or, in
   * minutes, equals the sum of its sub-issues' values before the transaction.
   */
  predicate InSync(current: Option<Period>, sum: TimeSum, project: Project)
    requires HasWorkingDay(project)
  {
    var previous := PeriodToMinutes(current, project);
    previous.None? || previous == sum.oldMinutes
  }

  /**
   * What a parent's value becomes: the new sub-issue sum when it was in
   * sync, and its current value otherwise.
   */
  function ParentTarget(current: Option<Period>, sum: TimeSum, project: Project): (r: Option<Period>)
    requires HasWorkingDay(project)
    ensures InSync(current, sum, project) ==> PeriodToMinutes(r, project) == sum.newMinutes
    ensures !InSync(current, sum, project) ==> r == current
  {
    if InSync(current, sum, project) then EffortFor(sum.newMinutes) else current
  }

  /** parentUpdateFunction applied to a snapshot of the current values. */
  ghost function Step(s: Store, parent: Issue, project: Project): (r: Store)
    requires HasWorkingDay(project)
    requires parent in s && ChildrenIn(s, parent)
    ensures r.Keys == s.Keys
  {
    s[parent := ParentTarget(s[parent], TimeSumIn(s, parent, project), project)]
  }

  /** The snapshot holds every parent of `ps` and every current sub-issue of each. */
  ghost predicate ParentsCovered(s: Store, ps: seq<Issue>)
  {
    forall p :: p in ps ==> p in s && ChildrenIn(s, p)
  }

  /** The parents of `ps` updated one after the other, each seeing the values the earlier ones wrote. */
  ghost function UpdateParents(s: Store, ps: seq<Issue>, project: Project): (r: Store)
    requires HasWorkingDay(project)
    requires ParentsCovered(s, ps)
    ensures r.Keys == s.Keys
    decreases |ps|
  {
    if ps == [] then s
    else
      var init := ps[..|ps| - 1];
      var last := ps[|ps| - 1];
      assert ParentsCovered(s, init);
      var before := UpdateParents(s, init, project);
      Step(before, last, project)
  }

  /** The parents the action visits: those removed during the transaction, then the current ones. */
  ghost function Visited(issue: Issue): seq<Issue>
  {
    issue.parents.removed + issue.parents.current
  }

  /**
   * Self-recompute on clear: when the issue's own value changed and is now
   * null, it becomes the sum of its own sub-issues' current values.
   */
  ghost function SelfRecompute(s: Store, issue: Issue, project: Project): (r: Store)
    requires HasWorkingDay(project)
    requires issue in s && ChildrenIn(s, issue)
    ensures r.Keys == s.Keys
    ensures ActionCovered(s, issue) ==> ActionCovered(r, issue)
  {
    if issue.effortChanged && s[issue].None?
    then s[issue := EffortFor(TimeSumIn(s, issue, project).newMinutes)]
    else s
  }

  /** The snapshot holds everything the action reads. */
  ghost predicate ActionCovered(s: Store, issue: Issue)
  {
    issue in s && ChildrenIn(s, issue) && ParentsCovered(s, Visited(issue))
  }

  /** The values after the action, given those before it. */
  ghost function ActionSpec(s: Store, issue: Issue, project: Project): (r: Store)
    requires HasWorkingDay(project)
    requires ActionCovered(s, issue)
    ensures r.Keys == s.Keys
  {
    UpdateParents(SelfRecompute(s, issue, project), Visited(issue), project)
  }

  /** The issues whose values the action reads or writes. */
  ghost function Scope(issue: Issue): (u: set<Issue>)
  {
    {issue} + Elems(issue.children.current) + Elems(Visited(issue))
    + (set p, c | p in Visited(issue) && c in p.children.current :: c)
  }

  /** The write at the end of parentUpdateFunction, given the sums it computed. */
  method WriteIfInSync(parent: Issue, timeSum: TimeSum, project: Project, ghost u: set<Issue>)
    requires HasWorkingDay(project)
    requires parent in u
    modifies parent`effort
    ensures Efforts(u) == old(Efforts(u))[parent := ParentTarget(old(parent.effort), timeSum, project)]
  {
    ghost var s := Efforts(u);
    if InSync(parent.effort, timeSum, project) {
      SetRemainingEffort(parent, timeSum.newMinutes);
    }
    assert forall x :: x in u ==> Efforts(u)[x] == s[parent := parent.effort][x];
  }

  /** parentUpdateFunction: overwrite the parent's value with the new sum only if it was in sync. */
  method ParentUpdate(parent: Issue, project: Project, ghost u: set<Issue>)
    requires HasWorkingDay(project)
    requires parent in u && forall c :: c in parent.children.current ==> c in u
    modifies parent`effort
    ensures Efforts(u) == Step(old(Efforts(u)), parent, project)
  {
    var timeSum := SumTime(parent, project, u);
    WriteIfInSync(parent, timeSum, project, u);
  }

  /** An issue that is not among the updated parents keeps its value. */
  lemma {:induction false} UpdateParentsOutside(s: Store, ps: seq<Issue>, project: Project, x: Issue)
    requires HasWorkingDay(project)
    requires ParentsCovered(s, ps)
    requires x in s && x !in ps
    ensures UpdateParents(s, ps, project)[x] == s[x]
    decreases |ps|
  {
    if ps != [] {
      var init := ps[..|ps| - 1];
      assert ParentsCovered(s, init);
      UpdateParentsOutside(s, init, project, x);
    }
  }

  /**
   * A parent visited once, none of whose current sub-issues was updated
   * before it, ends with parentUpdateFunction's outcome on the values as
   * they were before the updates.
   */
  lemma {:induction false} UpdateParentsAt(s: Store, ps: seq<Issue>, project: Project, i: int)
    requires HasWorkingDay(project)
    requires ParentsCovered(s, ps)
    requires 0 <= i < |ps|
    requires forall j :: 0 <= j < |ps| && j != i ==> ps[j] != ps[i]
    requires forall j :: 0 <= j < i ==> ps[j] !in ps[i].children.current
    ensures UpdateParents(s, ps, project)[ps[i]] == ParentTarget(s[ps[i]], TimeSumIn(s, ps[i], project), project)
    decreases |ps|
  {
    var init := ps[..|ps| - 1];
    assert ParentsCovered(s, init);
    var before := UpdateParents(s, init, project);
    if i == |ps| - 1 {
      UpdateParentsOutside(s, init, project, ps[i]);
      forall c | c in ps[i].children.current
        ensures before[c] == s[c]
      {
        UpdateParentsOutside(s, init, project, c);
      }
      TimeSumLocal(before, s, ps[i], project);
    } else {
      UpdateParentsAt(s, init, project, i);
    }
  }

  /** Coverage of a list of parents holds for each part of it. */
  lemma CoveredSplit(s: Store, ps: seq<Issue>, qs: seq<Issue>)
    requires ParentsCovered(s, ps + qs)
    ensures ParentsCovered(s, ps) && ParentsCovered(s, qs)
  {
    assert forall p :: p in ps ==> p in ps + qs;
    assert forall p :: p in qs ==> p in ps + qs;
  }

  /** Coverage depends only on which issues the snapshot holds. */
  lemma CoveredSameKeys(s: Store, t: Store, ps: seq<Issue>)
    requires s.Keys == t.Keys && ParentsCovered(s, ps)
    ensures ParentsCovered(t, ps)
  {
  }

  /** UpdateParents on a non-empty list is its last parent's step after the others. */
  lemma UpdateParentsLast(s: Store, ps: seq<Issue>, project: Project)
    requires HasWorkingDay(project)
    requires ParentsCovered(s, ps) && ps != []
    ensures ParentsCovered(s, ps[..|ps| - 1])
    ensures ParentsCovered(UpdateParents(s, ps[..|ps| - 1], project), [ps[|ps| - 1]])
    ensures UpdateParents(s, ps, project)
            == Step(UpdateParents(s, ps[..|ps| - 1], project), ps[|ps| - 1], project)
  {
    CoveredSplit(s, ps[..|ps| - 1], [ps[|ps| - 1]]);
    assert ps == ps[..|ps| - 1] + [ps[|ps| - 1]];
    CoveredSameKeys(s, UpdateParents(s, ps[..|ps| - 1], project), [ps[|ps| - 1]]);
  }

  /** Applying UpdateParents to a concatenation applies it to each part in turn. */
  lemma {:induction false} UpdateParentsAppend(s: Store, ps: seq<Issue>, qs: seq<Issue>, project: Project)
    requires HasWorkingDay(project)
    requires ParentsCovered(s, ps + qs)
    ensures ParentsCovered(s, ps) && ParentsCovered(UpdateParents(s, ps, project), qs)
    ensures UpdateParents(s, ps + qs, project) == UpdateParents(UpdateParents(s, ps, project), qs, project)
    decreases |qs|
  {
    CoveredSplit(s, ps, qs);
    var mid := UpdateParents(s, ps, project);
    CoveredSameKeys(s, mid, qs);
    if qs == [] {
      assert ps + qs == ps;
    } else {
      var n := ps + qs;
      var init := qs[..|qs| - 1];
      var last := qs[|qs| - 1];
      assert n[..|n| - 1] == ps + init && n[|n| - 1] == last;
      UpdateParentsLast(s, n, project);
      UpdateParentsAppend(s, ps, init, project);
      UpdateParentsLast(mid, qs, project);
    }
  }

  /** forEach(parentUpdateFunction) over one list of parents. */
  method UpdateEach(ps: seq<Issue>, project: Project, ghost u: set<Issue>)
    requires HasWorkingDay(project)
    requires forall p :: p in ps ==> p in u && forall c :: c in p.children.current ==> c in u
    modifies Elems(ps)`effort
    ensures ParentsCovered(old(Efforts(u)), ps)
    ensures Efforts(u) == UpdateParents(old(Efforts(u)), ps, project)
  {
    ghost var s := Efforts(u);
    for i := 0 to |ps|
      invariant ParentsCovered(s, ps[..i])
      invariant Efforts(u) == UpdateParents(s, ps[..i], project)
    {
      assert ps[..i + 1][..i] == ps[..i];
      ParentUpdate(ps[i], project, u);
    }
    assert ps[..|ps|] == ps;
  }

  /** The self-recompute on clear, as the action performs it. */
  method RecomputeIfCleared(issue: Issue, project: Project, ghost u: set<Issue>)
    requires HasWorkingDay(project)
    requires issue in u && forall c :: c in issue.children.current ==> c in u
    modifies issue`effort
    ensures Efforts(u) == SelfRecompute(old(Efforts(u)), issue, project)
  {
    if issue.effortChanged && issue.effort.None? {
      ghost var s := Efforts(u);
      var timeSum := SumTime(issue, project, u);
      SetRemainingEffort(issue, timeSum.newMinutes);
      assert forall x :: x in u ==> Efforts(u)[x] == s[issue := issue.effort][x];
    }
  }

  /**
   * The rule's action on the issue that changed: the self-recompute on
   * clear, then parentUpdateFunction on each removed parent and then on each
   * current parent. Only 'Remaining effort' of the issue and of those
   * parents is written.
   */
  method Action(issue: Issue)
    requires HasWorkingDay(issue.project)
    modifies issue`effort, Elems(Visited(issue))`effort
    ensures ActionCovered(old(Efforts(Scope(issue))), issue)
    ensures Efforts(Scope(issue)) == ActionSpec(old(Efforts(Scope(issue))), issue, issue.project)
  {
    var project := issue.project;
    var parents := issue.parents;
    ghost var u := Scope(issue);
    ghost var s0 := Efforts(u);
    RecomputeIfCleared(issue, project, u);
    ghost var s1 := Efforts(u);
    UpdateEach(parents.removed, project, u);
    UpdateEach(parents.current, project, u);
    UpdateParentsAppend(s1, parents.removed, parents.current, project);
  }

  /**
   * Frame: the action changes no issue other than the issue itself and the
   * parents it visits.
   */
  lemma ActionFrame(s: Store, issue: Issue, project: Project, x: Issue)
    requires HasWorkingDay(project)
    requires ActionCovered(s, issue)
    requires x in s && x != issue && x !in Visited(issue)
    ensures ActionSpec(s, issue, project)[x] == s[x]
  {
    UpdateParentsOutside(SelfRecompute(s, issue, project), Visited(issue), project, x);
  }

  /**
   * Self-recompute on clear: an issue whose value was just cleared, and
   * that is not its own parent, ends with the null-preserving sum of its
   * sub-issues' current values; an issue whose value is set or unchanged
   * keeps it.
   */
  lemma SelfRecomputeOnClear(s: Store, issue: Issue, project: Project)
    requires HasWorkingDay(project)
    requires ActionCovered(s, issue)
    requires issue !in Visited(issue)
    ensures issue.effortChanged && s[issue].None? ==>
      PeriodToMinutes(ActionSpec(s, issue, project)[issue], project)
      == SumOf(CurrentMinutes(s, issue.children.current, project))
    ensures !(issue.effortChanged && s[issue].None?) ==> ActionSpec(s, issue, project)[issue] == s[issue]
  {
    UpdateParentsOutside(SelfRecompute(s, issue, project), Visited(issue), project, issue);
  }

  /**
   * Write-if-synchronised: a parent the action visits once, that is not the
   * issue itself and none of whose current sub-issues is a parent visited
   * before it, takes the new sum of its sub-issues when its current value
   * is null or equals, in minutes, their sum before the transaction, and
   * keeps its value otherwise. The sums see the issue's own value after the
   * self-recompute.
   */
  lemma WriteIfSynchronised(s: Store, issue: Issue, project: Project, i: int)
    requires HasWorkingDay(project)
    requires ActionCovered(s, issue)
    requires 0 <= i < |Visited(issue)|
    requires Visited(issue)[i] != issue
    requires forall j :: 0 <= j < |Visited(issue)| && j != i ==> Visited(issue)[j] != Visited(issue)[i]
    requires forall j :: 0 <= j < i ==> Visited(issue)[j] !in Visited(issue)[i].children.current
    ensures var p := Visited(issue)[i];
            var sum := TimeSumIn(SelfRecompute(s, issue, project), p, project);
            (InSync(s[p], sum, project) ==> PeriodToMinutes(ActionSpec(s, issue, project)[p], project) == sum.newMinutes)
            && (!InSync(s[p], sum, project) ==> ActionSpec(s, issue, project)[p] == s[p])
  {
    var ps := Visited(issue);
    var s1 := SelfRecompute(s, issue, project);
    assert ParentsCovered(s1, ps);
    UpdateParentsAt(s1, ps, project, i);
  }
}
