/**
 * The subtree aggregator (sumTime): the null-preserving sum of the
 * sub-issues' 'Remaining effort' after the transaction, over the current
 * sub-issues and their current values, and before it, over the sub-issues
 * the parent had before the transaction (rebuilt from the current ones and
 * the added/removed deltas) and their old values.
 */
module SubtaskSum {
  import opened Wrappers
  import opened Durations
  import opened NullSum
  import opened Issues

  /** The two sums sumTime returns. */
  datatype TimeSum = TimeSum(newMinutes: Option<int>, oldMinutes: Option<int>)

  /** The ids of some issues. */
  function Ids(cs: seq<Issue>): set<string> {
    set c | c in cs :: c.id
  }

  /**
   * The dictionary after `dict[c.id] = c` for each issue `c` of `cs` in
   * turn: every id of `cs` is present and holds an issue of `cs` with that id.
   */
  function Enter(m: map<string, Issue>, cs: seq<Issue>): (r: map<string, Issue>)
    ensures r.Keys == m.Keys + Ids(cs)
    ensures forall k :: k in r ==> (k in Ids(cs) && r[k].id == k && r[k] in cs) || (k !in Ids(cs) && r[k] == m[k])
  {
    if cs == [] then m
    else
      var last := cs[|cs| - 1];
      assert cs == cs[..|cs| - 1] + [last];
      Enter(m, cs[..|cs| - 1])[last.id := last]
  }

  /** The dictionary after `delete dict[c.id]` for each issue `c` of `cs`: those ids are gone, the rest is kept. */
  function Delete(m: map<string, Issue>, cs: seq<Issue>): (r: map<string, Issue>)
    ensures r.Keys == m.Keys - Ids(cs)
    ensures forall k :: k in r ==> r[k] == m[k]
  {
    if cs == [] then m
    else
      var last := cs[|cs| - 1];
      assert cs == cs[..|cs| - 1] + [last];
      Delete(m, cs[..|cs| - 1]) - {last.id}
  }

  /** When the ids are distinct, each entered issue is found under its own id. */
  lemma {:induction false} EnterFinds(m: map<string, Issue>, cs: seq<Issue>, c: Issue)
    requires forall i, j :: 0 <= i < j < |cs| ==> cs[i].id != cs[j].id
    requires c in cs
    ensures c.id in Enter(m, cs) && Enter(m, cs)[c.id] == c
  {
    var last := cs[|cs| - 1];
    var init := cs[..|cs| - 1];
    assert cs == init + [last];
    if c != last {
      assert c in init;
      EnterFinds(m, init, c);
    }
  }

  /**
   * The sub-issues before the transaction, keyed by id, rebuilt as the rule
   * does: enter the current ones, delete those added during the
   * transaction, enter those removed during it.
   */
  function PreTransactionChildren(links: LinkSet): (m: map<string, Issue>)
    ensures forall k :: k in m <==> (k in Ids(links.current) && k !in Ids(links.added)) || k in Ids(links.removed)
    ensures forall k :: k in m ==> m[k].id == k && (m[k] in links.current || m[k] in links.removed)
  {
    Enter(Delete(Enter(map[], links.current), links.added), links.removed)
  }

  /**
   * A sub-issue added during the transaction was not a sub-issue before it,
   * unless it was also removed (which the host does not do).
   */
  lemma AddedChildNotCountedBefore(links: LinkSet, c: Issue)
    requires c in links.added
    requires Ids(links.added) !! Ids(links.removed)
    ensures c.id !in PreTransactionChildren(links)
  {
  }

  /** A sub-issue removed during the transaction was one before it, with its own old value. */
  lemma RemovedChildCountedBefore(links: LinkSet, c: Issue)
    requires c in links.removed
    requires forall i, j :: 0 <= i < j < |links.removed| ==> links.removed[i].id != links.removed[j].id
    ensures c.id in PreTransactionChildren(links) && PreTransactionChildren(links)[c.id] == c
  {
    EnterFinds(Delete(Enter(map[], links.current), links.added), links.removed, c);
  }

  /** The minutes of each issue's value in the store. */
  function CurrentMinutes(s: Store, cs: seq<Issue>, project: Project): (r: seq<Option<int>>)
    requires HasWorkingDay(project)
    requires forall c :: c in cs ==> c in s
    ensures |r| == |cs|
    ensures forall i :: 0 <= i < |cs| ==> r[i] == PeriodToMinutes(s[cs[i]], project)
  {
    if cs == [] then []
    else CurrentMinutes(s, cs[..|cs| - 1], project) + [PeriodToMinutes(s[cs[|cs| - 1]], project)]
  }

  /** The minutes of each issue's value before the transaction, by id. */
  function OldMinutesById(m: map<string, Issue>, project: Project): (r: map<string, Option<int>>)
    requires HasWorkingDay(project)
    ensures r.Keys == m.Keys
  {
    map k | k in m :: PeriodToMinutes(m[k].oldEffort, project)
  }

  /** What sumTime(parent) computes when the current values are those of the store. */
  ghost function TimeSumIn(s: Store, parent: Issue, project: Project): TimeSum
    requires HasWorkingDay(project)
    requires ChildrenIn(s, parent)
  {
    TimeSum(SumOf(CurrentMinutes(s, parent.children.current, project)),
            SumMap(OldMinutesById(PreTransactionChildren(parent.children), project)))
  }

  /** TimeSumIn reads the store only at the parent's current sub-issues. */
  lemma TimeSumLocal(s: Store, t: Store, parent: Issue, project: Project)
    requires HasWorkingDay(project)
    requires ChildrenIn(s, parent) && ChildrenIn(t, parent)
    requires forall c :: c in parent.children.current ==> s[c] == t[c]
    ensures TimeSumIn(s, parent, project) == TimeSumIn(t, parent, project)
  {
    assert CurrentMinutes(s, parent.children.current, project) == CurrentMinutes(t, parent.children.current, project);
  }

  /**
   * Either sum is null exactly when every value it adds up is null: the new
   * one when every current sub-issue's value is, the old one when every
   * pre-transaction sub-issue's old value is.
   */
  lemma TimeSumAbsent(s: Store, parent: Issue, project: Project)
    requires HasWorkingDay(project)
    requires ChildrenIn(s, parent)
    ensures TimeSumIn(s, parent, project).newMinutes.None?
            <==> forall c :: c in parent.children.current ==> s[c].None?
    ensures var before := PreTransactionChildren(parent.children);
            TimeSumIn(s, parent, project).oldMinutes.None?
            <==> forall k :: k in before ==> before[k].oldEffort.None?
  {
    var current := parent.children.current;
    var minutes := CurrentMinutes(s, current, project);
    assert AllAbsent(minutes) <==> forall c :: c in current ==> s[c].None? by {
      if AllAbsent(minutes) {
        forall c | c in current ensures s[c].None? {
          var i :| 0 <= i < |current| && current[i] == c;
          assert minutes[i].None?;
        }
      }
    }
    var before := PreTransactionChildren(parent.children);
    SumMapAbsent(OldMinutesById(before, project));
  }

  /** The restriction of a map to some keys. */
  function Restrict(m: map<string, Option<int>>, keys: set<string>): (r: map<string, Option<int>>)
    ensures r.Keys == m.Keys * keys
  {
    map k | k in m && k in keys :: m[k]
  }

  /** Restricting to all of a map's keys keeps the map. */
  lemma RestrictToAll(m: map<string, Option<int>>)
    ensures Restrict(m, m.Keys) == m
  {
  }

  /** Restricting to no keys leaves nothing. */
  lemma RestrictToNone(m: map<string, Option<int>>)
    ensures Restrict(m, {}) == map[]
  {
  }

  /** Folding one more value onto a prefix. */
  lemma SumOfSnoc(vs: seq<Option<int>>, n: nat)
    requires n < |vs|
    ensures SumOf(vs[..n + 1]) == AddPreservingNull(SumOf(vs[..n]), vs[n])
  {
    assert vs[..n + 1][..n] == vs[..n];
  }

  /** One step of the loop over the dictionary's keys keeps the running sum on track. */
  lemma SumOldStep(acc: Option<int>, olds: map<string, Option<int>>, keys: set<string>, id: string)
    requires id in keys && keys <= olds.Keys
    ensures AddPreservingNull(acc, SumMap(Restrict(olds, keys)))
         == AddPreservingNull(AddPreservingNull(acc, olds[id]), SumMap(Restrict(olds, keys - {id})))
  {
    var rest := Restrict(olds, keys);
    SumMapPick(rest, id);
    assert rest - {id} == Restrict(olds, keys - {id});
    AddPreservingNullAssociates(acc, olds[id], SumMap(rest - {id}));
  }

  /** `dict[c.id] = c` for each issue of `cs`, in order. */
  method EnterEach(dict: map<string, Issue>, cs: seq<Issue>) returns (r: map<string, Issue>)
    ensures r == Enter(dict, cs)
  {
    r := dict;
    for i := 0 to |cs|
      invariant r == Enter(dict, cs[..i])
    {
      assert cs[..i + 1][..i] == cs[..i];
      r := r[cs[i].id := cs[i]];
    }
    assert cs[..|cs|] == cs;
  }

  /** `delete dict[c.id]` for each issue of `cs`, in order. */
  method DeleteEach(dict: map<string, Issue>, cs: seq<Issue>) returns (r: map<string, Issue>)
    ensures r == Delete(dict, cs)
  {
    r := dict;
    for i := 0 to |cs|
      invariant r == Delete(dict, cs[..i])
    {
      assert cs[..i + 1][..i] == cs[..i];
      r := r - {cs[i].id};
    }
    assert cs[..|cs|] == cs;
  }

  /**
   * The loop over the dictionary's keys, in whatever order they come,
   * adding up the old values' minutes without losing null.
   */
  method SumOldValues(dict: map<string, Issue>, project: Project) returns (oldMinutes: Option<int>)
    requires HasWorkingDay(project)
    ensures oldMinutes == SumMap(OldMinutesById(dict, project))
  {
    ghost var olds := OldMinutesById(dict, project);
    oldMinutes := None;
    var keys := dict.Keys;
    RestrictToAll(olds);
    while keys != {}
      invariant keys <= dict.Keys
      invariant AddPreservingNull(oldMinutes, SumMap(Restrict(olds, keys))) == SumMap(olds)
      decreases keys
    {
      var id :| id in keys;
      var child := dict[id];
      SumOldStep(oldMinutes, olds, keys, id);
      oldMinutes := AddPreservingNull(oldMinutes, PeriodToMinutes(child.oldEffort, project));
      keys := keys - {id};
    }
    RestrictToNone(olds);
  }

  /**
   * The forEach over the current sub-issues: the running null-preserving
   * sum of their current values, and each entered in the dictionary by id.
   */
  method SumCurrent(cs: seq<Issue>, project: Project, ghost u: set<Issue>)
    returns (newMinutes: Option<int>, dict: map<string, Issue>)
    requires HasWorkingDay(project)
    requires forall c :: c in cs ==> c in u
    ensures newMinutes == SumOf(CurrentMinutes(Efforts(u), cs, project))
    ensures dict == Enter(map[], cs)
  {
    ghost var s := Efforts(u);
    ghost var minutes := CurrentMinutes(s, cs, project);
    newMinutes, dict := None, map[];
    for i := 0 to |cs|
      invariant newMinutes == SumOf(minutes[..i])
      invariant dict == Enter(map[], cs[..i])
    {
      var child := cs[i];
      assert s[child] == child.effort;
      assert minutes[i] == PeriodToMinutes(child.effort, project);
      SumOfSnoc(minutes, i);
      assert cs[..i + 1][..i] == cs[..i];
      newMinutes := AddPreservingNull(newMinutes, PeriodToMinutes(child.effort, project));
      dict := dict[child.id := child];
    }
    assert cs[..|cs|] == cs;
    assert minutes[..|minutes|] == minutes;
  }

  /**
   * sumTime: newMinutes over the current sub-issues' current values;
   * oldMinutes over the pre-transaction sub-issues, each id once, and their
   * old values. `u` is any set of issues holding the current sub-issues.
   */
  method SumTime(parent: Issue, project: Project, ghost u: set<Issue>) returns (r: TimeSum)
    requires HasWorkingDay(project)
    requires forall c :: c in parent.children.current ==> c in u
    ensures r == TimeSumIn(Efforts(u), parent, project)
  {
    var children := parent.children;
    var newMinutes, oldSubtasks := SumCurrent(children.current, project, u);
    oldSubtasks := DeleteEach(oldSubtasks, children.added);
    oldSubtasks := EnterEach(oldSubtasks, children.removed);
    var oldMinutes := SumOldValues(oldSubtasks, project);
    r := TimeSum(newMinutes, oldMinutes);
  }
}
