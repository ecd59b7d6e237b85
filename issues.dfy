/**
 * The host's issues as far as the rule sees them: an issue's 'Remaining
 * effort' field (the one thing the rule writes), that field's value before
 * the transaction and whether it changed, and the two link sets
 * 'parent for' (children) and 'subtask of' (parents) with their
 * per-transaction deltas.
 */
module Issues {
  import opened Wrappers
  import opened Durations

  /**
   * A multi-valued link of one issue in the current transaction: the
   * current members, the members added and removed during the transaction,
   * and the host's isChanged flag.
   */
  datatype LinkSet = LinkSet(current: seq<Issue>, added: seq<Issue>, removed: seq<Issue>, isChanged: bool) {

    /** The host reports a change exactly when something was added or removed. */
    predicate Consistent() {
      isChanged <==> added != [] || removed != []
    }
  }

  class Issue {
    const id: string
    /** The issue's project; when the rule is triggered on this issue, its calendar interprets every period the rule reads, the sub-issues' and parents' included. */
    const project: Project
    /** fields['Remaining effort']: written by the rule. */
    var effort: Option<Period>
    /** fields.oldValue('Remaining effort'): the value before the transaction. */
    const oldEffort: Option<Period>
    /** fields.isChanged('Remaining effort'), as the host answers it when the rule is invoked. */
    const effortChanged: bool
    /** links['parent for']: the sub-issues; the rule reads the links and never writes them. */
    const children: LinkSet
    /** links['subtask of']: the parent issues. */
    const parents: LinkSet

    constructor (id: string, project: Project, effort: Option<Period>, oldEffort: Option<Period>, effortChanged: bool,
                 children: LinkSet, parents: LinkSet)
      ensures this.id == id && this.project == project
      ensures this.effort == effort && this.oldEffort == oldEffort && this.effortChanged == effortChanged
      ensures this.children == children && this.parents == parents
    {
      this.id := id;
      this.project := project;
      this.effort := effort;
      this.oldEffort := oldEffort;
      this.effortChanged := effortChanged;
      this.children := children;
      this.parents := parents;
    }
  }

  /** A snapshot of the current 'Remaining effort' of some issues. */
  type Store = map<Issue, Option<Period>>

  /** The elements of a sequence of issues, as a set. */
  function Elems(s: seq<Issue>): set<Issue> {
    set x | x in s
  }

  /** The current 'Remaining effort' of every issue in `u`. */
  ghost function Efforts(u: set<Issue>): (s: Store)
    reads u`effort
    ensures s.Keys == u
  {
    map x | x in u :: x.effort
  }

  /** The store holds every current child of `parent`. */
  ghost predicate ChildrenIn(s: Store, parent: Issue)
  {
    forall c :: c in parent.children.current ==> c in s
  }
}
