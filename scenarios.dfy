/**
 * The repository's test cases, replayed against the model: a parent
 * XYZ-0 with sub-issues XYZ-1 and XYZ-2 under the tests' calendar of
 * 8-hour days and 5-day weeks, the action run on the issue named in each
 * test, and the parent's value compared with the expected minutes.
 */
module RuleScenarios {
  import opened Wrappers
  import opened Durations
  import opened NullSum
  import opened Issues
  import opened SubtaskSum
  import opened EffortRule

  /** A value of fewer than 60 minutes, as the tests build it. */
  function Mins(k: int): Option<Period> {
    Some(Period(0, 0, 0, k))
  }

  /** The sum over two sub-issues known before the transaction. */
  lemma OldSumOfTwo(m: map<string, Option<int>>, a: string, b: string, x: int, y: int)
    requires a != b && m == map[a := Some(x), b := Some(y)]
    ensures SumMap(m) == Some(x + y)
  {
    SumMapPick(m, a);
    var rest := m - {a};
    assert rest == map[b := Some(y)];
    SumMapPick(rest, b);
    assert rest - {b} == map[];
  }

  /** The sum over one sub-issue known before the transaction. */
  lemma OldSumOfOne(m: map<string, Option<int>>, a: string, x: int)
    requires m == map[a := Some(x)]
    ensures SumMap(m) == Some(x)
  {
    SumMapPick(m, a);
    assert m - {a} == map[];
  }

  /** A null-preserving sum of two values, unfolded. */
  lemma SumOfTwo(x: Option<int>, y: Option<int>)
    ensures SumOf([x, y]) == AddPreservingNull(AddPreservingNull(None, x), y)
  {
    assert [x, y][..1] == [x];
    assert [x][..0] == [];
  }

  /** Sub-issues a and b, neither added nor removed: both were sub-issues before the transaction. */
  lemma BeforeUnchanged(links: LinkSet, a: Issue, b: Issue)
    requires a.id != b.id && links == LinkSet([a, b], [], [], false)
    ensures PreTransactionChildren(links) == map[a.id := a, b.id := b]
  {
    assert Ids([a, b]) == {a.id, b.id};
    assert Ids([]) == {};
  }

  /** Sub-issue a removed, b kept: both were sub-issues before the transaction. */
  lemma BeforeRemoved(links: LinkSet, a: Issue, b: Issue)
    requires a.id != b.id && links == LinkSet([b], [], [a], true)
    ensures PreTransactionChildren(links) == map[a.id := a, b.id := b]
  {
    assert Ids([a]) == {a.id};
    assert Ids([b]) == {b.id};
    assert Ids([]) == {};
  }

  /** Sub-issue a added, b kept: only b was a sub-issue before the transaction. */
  lemma BeforeAdded(links: LinkSet, a: Issue, b: Issue)
    requires a.id != b.id && links == LinkSet([a, b], [a], [], true)
    ensures PreTransactionChildren(links) == map[b.id := b]
  {
    assert Ids([a, b]) == {a.id, b.id};
    assert Ids([a]) == {a.id};
    assert Ids([]) == {};
  }

  /** The sums a parent with two current sub-issues a and b sees. */
  lemma SumsOverTwo(s: Store, parent: Issue, a: Issue, b: Issue, before: map<string, Issue>)
    requires a in s && b in s && parent.children.current == [a, b]
    requires PreTransactionChildren(parent.children) == before
    ensures TimeSumIn(s, parent, TestCalendar)
            == TimeSum(SumOf([PeriodToMinutes(s[a], TestCalendar), PeriodToMinutes(s[b], TestCalendar)]),
                       SumMap(OldMinutesById(before, TestCalendar)))
  {
    assert CurrentMinutes(s, [a, b], TestCalendar)
           == [PeriodToMinutes(s[a], TestCalendar), PeriodToMinutes(s[b], TestCalendar)];
  }

  /** The sums a parent with one current sub-issue b sees. */
  lemma SumsOverOne(s: Store, parent: Issue, b: Issue, before: map<string, Issue>)
    requires b in s && parent.children.current == [b]
    requires PreTransactionChildren(parent.children) == before
    ensures TimeSumIn(s, parent, TestCalendar)
            == TimeSum(SumOf([PeriodToMinutes(s[b], TestCalendar)]), SumMap(OldMinutesById(before, TestCalendar)))
  {
    assert CurrentMinutes(s, [b], TestCalendar) == [PeriodToMinutes(s[b], TestCalendar)];
  }

  /** A null-preserving sum of one value. */
  lemma SumOfOne(x: Option<int>)
    ensures SumOf([x]) == x
  {
    assert [x][..0] == [];
  }

  /** The sum over two sub-issues before the transaction, one of them without a value. */
  lemma OldSumOfValueAndNull(m: map<string, Option<int>>, a: string, b: string, x: int)
    requires a != b && m == map[a := Some(x), b := None]
    ensures SumMap(m) == Some(x)
  {
    SumMapPick(m, a);
    var rest := m - {a};
    assert rest == map[b := None];
    SumMapPick(rest, b);
    assert rest - {b} == map[];
  }

  /** The family the tests build: a parent and two sub-issues with their ids. */
  predicate Family(parent: Issue, child: Issue, sibling: Issue) {
    parent.id == "XYZ-0" && child.id == "XYZ-1" && sibling.id == "XYZ-2"
    && parent.project == TestCalendar && child.project == TestCalendar
    && child.children == LinkSet([], [], [], false)
  }

  /**
   * The tests' answer to "has 'Remaining effort' changed?": whether the
   * value now differs from the value before the transaction.
   */
  predicate ChangedByValue(issue: Issue)
    reads issue
  {
    issue.effortChanged <==> issue.effort != issue.oldEffort
  }

  /**
   * The guard table, row by row, for an issue without parents whose change
   * flag is derived from its values: nothing set, so the rule does not run;
   * its value differs from the old one, so it runs; its value equals the
   * old one, so it does not run; a sub-issue was added to it while its own
   * value stayed the same, so it does not run (the rule is triggered on the
   * issue that gains a parent instead).
   */
  lemma GuardScenarios(issue: Issue)
    requires issue.parents == LinkSet([], [], [], false)
    requires ChangedByValue(issue)
    ensures (issue.children == LinkSet([], [], [], false) && issue.effort == None && issue.oldEffort == None)
            ==> !Guard(issue)
    ensures issue.effort != issue.oldEffort ==> Guard(issue)
    ensures issue.effort == issue.oldEffort ==> !Guard(issue)
    ensures (issue.children.added != [] && issue.children.isChanged && issue.effort == issue.oldEffort)
            ==> !Guard(issue)
  {
  }

  /**
   * An issue whose self-recompute changes nothing and that has exactly one
   * parent to visit leaves that parent with parentUpdateFunction's outcome
   * on the values before the action.
   */
  lemma SingleParent(s: Store, issue: Issue, parent: Issue, project: Project)
    requires HasWorkingDay(project)
    requires ActionCovered(s, issue)
    requires Visited(issue) == [parent] && parent != issue
    requires SelfRecompute(s, issue, project) == s
    ensures ActionSpec(s, issue, project)[parent] == ParentTarget(s[parent], TimeSumIn(s, parent, project), project)
  {
    UpdateParentsAt(s, Visited(issue), project, 0);
  }

  /** The two sub-issues of the tests where XYZ-1's value went from 2 to 4 and XYZ-2 stayed at 3. */
  lemma ChildValueChangeSums(s: Store, parent: Issue, child: Issue, sibling: Issue)
    requires Family(parent, child, sibling)
    requires parent.children == LinkSet([child, sibling], [], [], false)
    requires child.oldEffort == Mins(2) && sibling.oldEffort == Mins(3)
    requires child in s && sibling in s && s[child] == Mins(4) && s[sibling] == Mins(3)
    ensures TimeSumIn(s, parent, TestCalendar) == TimeSum(Some(7), Some(5))
  {
    var before := map["XYZ-1" := child, "XYZ-2" := sibling];
    var olds := OldMinutesById(before, TestCalendar);
    assert olds == map["XYZ-1" := Some(2), "XYZ-2" := Some(3)];
    OldSumOfTwo(olds, "XYZ-1", "XYZ-2", 2, 3);
    SumOfTwo(Some(4), Some(3));
    assert PeriodToMinutes(s[child], TestCalendar) == Some(4);
    assert PeriodToMinutes(s[sibling], TestCalendar) == Some(3);
    BeforeUnchanged(parent.children, child, sibling);
    SumsOverTwo(s, parent, child, sibling, before);
  }

  /** The tests' links when XYZ-1's own value changes: it stays a sub-issue of XYZ-0. */
  predicate ChildValueLinks(parent: Issue, child: Issue, sibling: Issue) {
    Family(parent, child, sibling)
    && parent.children == LinkSet([child, sibling], [], [], false)
    && child.parents == LinkSet([parent], [], [], false) && child.effortChanged
    && child.oldEffort == Mins(2) && sibling.oldEffort == Mins(3)
  }

  /** "update remaining effort of parent if previously synchronized": 5 = 2 + 3 before, so it becomes 4 + 3. */
  lemma UpdatesSynchronisedParent(parent: Issue, child: Issue, sibling: Issue)
    requires ChildValueLinks(parent, child, sibling)
    ensures Guard(child)
    ensures var s := map[parent := Mins(5), child := Mins(4), sibling := Mins(3)];
            PeriodToMinutes(ActionSpec(s, child, TestCalendar)[parent], TestCalendar) == Some(7)
  {
    var s := map[parent := Mins(5), child := Mins(4), sibling := Mins(3)];
    assert InSync(Mins(5), TimeSum(Some(7), Some(5)), TestCalendar);
    ChildValueChangeSums(s, parent, child, sibling);
    assert SelfRecompute(s, child, TestCalendar) == s;
    SingleParent(s, child, parent, TestCalendar);
  }

  /** "do not update remaining effort of parent if not previously synchronized": 10 is not 2 + 3. */
  lemma KeepsUnsynchronisedParent(parent: Issue, child: Issue, sibling: Issue)
    requires ChildValueLinks(parent, child, sibling)
    ensures Guard(child)
    ensures var s := map[parent := Mins(10), child := Mins(4), sibling := Mins(3)];
            ActionSpec(s, child, TestCalendar)[parent] == Mins(10)
  {
    var s := map[parent := Mins(10), child := Mins(4), sibling := Mins(3)];
    assert !InSync(Mins(10), TimeSum(Some(7), Some(5)), TestCalendar);
    ChildValueChangeSums(s, parent, child, sibling);
    assert SelfRecompute(s, child, TestCalendar) == s;
    SingleParent(s, child, parent, TestCalendar);
  }

  /** "set remaining effort of parent if it was previously null". */
  lemma FillsNullParent(parent: Issue, child: Issue, sibling: Issue)
    requires ChildValueLinks(parent, child, sibling)
    ensures Guard(child)
    ensures var s := map[parent := None, child := Mins(4), sibling := Mins(3)];
            PeriodToMinutes(ActionSpec(s, child, TestCalendar)[parent], TestCalendar) == Some(7)
  {
    var s := map[parent := None, child := Mins(4), sibling := Mins(3)];
    assert InSync(None, TimeSum(Some(7), Some(5)), TestCalendar);
    ChildValueChangeSums(s, parent, child, sibling);
    assert SelfRecompute(s, child, TestCalendar) == s;
    SingleParent(s, child, parent, TestCalendar);
  }

  /** "recompute when set to null": XYZ-0's value is cleared and becomes 2 + 3 from its sub-issues. */
  lemma RecomputesClearedValue(parent: Issue, a: Issue, b: Issue)
    requires parent.id == "XYZ-0" && a.id == "XYZ-1" && b.id == "XYZ-2" && parent.project == TestCalendar
    requires parent.children == LinkSet([a, b], [], [], false)
    requires parent.parents == LinkSet([], [], [], false) && parent.effortChanged
    ensures Guard(parent)
    ensures var s := map[parent := None, a := Mins(2), b := Mins(3)];
            PeriodToMinutes(ActionSpec(s, parent, TestCalendar)[parent], TestCalendar) == Some(5)
  {
    var s := map[parent := None, a := Mins(2), b := Mins(3)];
    SumOfTwo(Some(2), Some(3));
    assert CurrentMinutes(s, [a, b], TestCalendar) == [Some(2), Some(3)];
    SelfRecomputeOnClear(s, parent, TestCalendar);
  }

  /**
   * "set remaining effort of parent to null if previously synchronized and
   * all subissues become null": XYZ-1 is cleared (2 before), XYZ-2 stays
   * null, and XYZ-0 held 2.
   */
  lemma ClearsSynchronisedParent(parent: Issue, child: Issue, sibling: Issue)
    requires Family(parent, child, sibling)
    requires parent.children == LinkSet([child, sibling], [], [], false)
    requires child.parents == LinkSet([parent], [], [], false) && child.effortChanged
    requires child.oldEffort == Mins(2) && sibling.oldEffort == None
    ensures Guard(child)
    ensures var s := map[parent := Mins(2), child := None, sibling := None];
            ActionSpec(s, child, TestCalendar)[parent] == None
  {
    var s := map[parent := Mins(2), child := None, sibling := None];
    assert InSync(Mins(2), TimeSum(None, Some(2)), TestCalendar);
    ClearedSums(s, parent, child, sibling);
    NothingToRecompute(s, child);
    SingleParent(s, child, parent, TestCalendar);
  }

  /** The sums XYZ-0 sees when both sub-issues are now null and were 2 and null before. */
  lemma ClearedSums(s: Store, parent: Issue, child: Issue, sibling: Issue)
    requires Family(parent, child, sibling)
    requires parent.children == LinkSet([child, sibling], [], [], false)
    requires child.oldEffort == Mins(2) && sibling.oldEffort == None
    requires child in s && sibling in s && s[child] == None && s[sibling] == None
    ensures TimeSumIn(s, parent, TestCalendar) == TimeSum(None, Some(2))
  {
    var before := map["XYZ-1" := child, "XYZ-2" := sibling];
    var olds := OldMinutesById(before, TestCalendar);
    assert olds == map["XYZ-1" := Some(2), "XYZ-2" := None];
    OldSumOfValueAndNull(olds, "XYZ-1", "XYZ-2", 2);
    SumOfTwo(None, None);
    BeforeUnchanged(parent.children, child, sibling);
    SumsOverTwo(s, parent, child, sibling, before);
  }

  /** Clearing an issue without sub-issues recomputes it to null, which changes nothing. */
  lemma NothingToRecompute(s: Store, issue: Issue)
    requires issue in s && s[issue] == None && issue.children.current == []
    ensures SelfRecompute(s, issue, TestCalendar) == s
  {
    assert CurrentMinutes(s, [], TestCalendar) == [];
  }

  /** The tests' links when XYZ-1 stops being a sub-issue of XYZ-0 during the transaction. */
  predicate RemovedLinks(parent: Issue, child: Issue, sibling: Issue) {
    Family(parent, child, sibling)
    && parent.children == LinkSet([sibling], [], [child], true)
    && child.parents == LinkSet([], [], [parent], true) && !child.effortChanged
    && child.oldEffort == Mins(2) && sibling.oldEffort == Mins(3)
  }

  /** The sums XYZ-0 sees once XYZ-1 (2) is removed and XYZ-2 (3) stays. */
  lemma RemovedSums(s: Store, parent: Issue, child: Issue, sibling: Issue)
    requires RemovedLinks(parent, child, sibling)
    requires sibling in s && s[sibling] == Mins(3)
    ensures TimeSumIn(s, parent, TestCalendar) == TimeSum(Some(3), Some(5))
  {
    var before := map["XYZ-1" := child, "XYZ-2" := sibling];
    var olds := OldMinutesById(before, TestCalendar);
    assert olds == map["XYZ-1" := Some(2), "XYZ-2" := Some(3)];
    OldSumOfTwo(olds, "XYZ-1", "XYZ-2", 2, 3);
    SumOfOne(Some(3));
    assert PeriodToMinutes(s[sibling], TestCalendar) == Some(3);
    BeforeRemoved(parent.children, child, sibling);
    SumsOverOne(s, parent, sibling, before);
  }

  /** "recompute when subissue removed and previously synchronized": 5 = 2 + 3 becomes 3. */
  lemma RemovalUpdatesSynchronisedParent(parent: Issue, child: Issue, sibling: Issue)
    requires RemovedLinks(parent, child, sibling)
    ensures Guard(child)
    ensures var s := map[parent := Mins(5), child := Mins(2), sibling := Mins(3)];
            PeriodToMinutes(ActionSpec(s, child, TestCalendar)[parent], TestCalendar) == Some(3)
  {
    var s := map[parent := Mins(5), child := Mins(2), sibling := Mins(3)];
    assert InSync(Mins(5), TimeSum(Some(3), Some(5)), TestCalendar);
    RemovedSums(s, parent, child, sibling);
    assert SelfRecompute(s, child, TestCalendar) == s;
    SingleParent(s, child, parent, TestCalendar);
  }

  /** "recompute when subissue removed and not previously synchronized": 10 stays. */
  lemma RemovalKeepsUnsynchronisedParent(parent: Issue, child: Issue, sibling: Issue)
    requires RemovedLinks(parent, child, sibling)
    ensures Guard(child)
    ensures var s := map[parent := Mins(10), child := Mins(2), sibling := Mins(3)];
            ActionSpec(s, child, TestCalendar)[parent] == Mins(10)
  {
    var s := map[parent := Mins(10), child := Mins(2), sibling := Mins(3)];
    assert !InSync(Mins(10), TimeSum(Some(3), Some(5)), TestCalendar);
    RemovedSums(s, parent, child, sibling);
    assert SelfRecompute(s, child, TestCalendar) == s;
    SingleParent(s, child, parent, TestCalendar);
  }

  /**
   * "recompute when subissue added and previously synchronized": XYZ-1 (2)
   * joins XYZ-0, which held 3 = XYZ-2's value, and becomes 2 + 3.
   */
  lemma AdditionUpdatesSynchronisedParent(parent: Issue, child: Issue, sibling: Issue)
    requires Family(parent, child, sibling)
    requires parent.children == LinkSet([child, sibling], [child], [], true)
    requires child.parents == LinkSet([parent], [parent], [], true) && !child.effortChanged
    requires sibling.oldEffort == Mins(3)
    ensures Guard(child)
    ensures var s := map[parent := Mins(3), child := Mins(2), sibling := Mins(3)];
            PeriodToMinutes(ActionSpec(s, child, TestCalendar)[parent], TestCalendar) == Some(5)
  {
    var s := map[parent := Mins(3), child := Mins(2), sibling := Mins(3)];
    assert InSync(Mins(3), TimeSum(Some(5), Some(3)), TestCalendar);
    AddedSums(s, parent, child, sibling);
    assert SelfRecompute(s, child, TestCalendar) == s;
    SingleParent(s, child, parent, TestCalendar);
  }

  /** The sums XYZ-0 sees once XYZ-1 (2) joins XYZ-2 (3, which was there before). */
  lemma AddedSums(s: Store, parent: Issue, child: Issue, sibling: Issue)
    requires Family(parent, child, sibling)
    requires parent.children == LinkSet([child, sibling], [child], [], true)
    requires sibling.oldEffort == Mins(3)
    requires child in s && sibling in s && s[child] == Mins(2) && s[sibling] == Mins(3)
    ensures TimeSumIn(s, parent, TestCalendar) == TimeSum(Some(5), Some(3))
  {
    var before := map["XYZ-2" := sibling];
    var olds := OldMinutesById(before, TestCalendar);
    assert olds == map["XYZ-2" := Some(3)];
    OldSumOfOne(olds, "XYZ-2", 3);
    SumOfTwo(Some(2), Some(3));
    assert PeriodToMinutes(s[child], TestCalendar) == Some(2);
    assert PeriodToMinutes(s[sibling], TestCalendar) == Some(3);
    BeforeAdded(parent.children, child, sibling);
    SumsOverTwo(s, parent, child, sibling, before);
  }
}
