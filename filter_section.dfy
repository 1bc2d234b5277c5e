/**
 * The filter panel of the console: the cascading tenant selector (a
 * selection path, one list of options per dropdown level, and the tenant
 * value it writes into the filter form) and the search handler that turns
 * the form into the filter object handed to the task list.
 *
 * The walk that resolves a selection path is modelled as the code runs it:
 * level 0 offers the root node itself, but the walk matches the first path
 * entry against the root's children.
 */
module FilterSection {
  import opened Types
  import opened Sequences
  import opened Api
  import Db

  /** `children.find(node => node.id === id)`: the first child with that id. */
  function FindChild(children: seq<TenantNode>, id: string): (r: Option<TenantNode>)
    ensures r.None? <==> forall k :: 0 <= k < |children| ==> children[k].id != id
    ensures r.Some? ==> r.value in children && r.value.id == id
    ensures forall k :: (0 <= k < |children| && children[k].id == id &&
                         forall j :: 0 <= j < k ==> children[j].id != id) ==> r == Some(children[k])
  {
    if children == [] then None
    else if children[0].id == id then Some(children[0])
    else
      var r := FindChild(children[1..], id);
      assert forall k :: 1 <= k < |children| ==> children[k] == children[1..][k - 1];
      r
  }

  /** One step of the walk: `current?.children?.find(...)`. */
  function Step(current: Option<TenantNode>, id: string): Option<TenantNode>
  {
    if current.Some? && current.value.children.Some? then FindChild(current.value.children.value, id)
    else None
  }

  /** The node a selection path resolves to, starting from `start`: each entry is matched among the children of the node reached so far. */
  function Resolve(start: Option<TenantNode>, path: seq<string>): Option<TenantNode>
    decreases |path|
  {
    if path == [] then start else Resolve(Step(start, path[0]), path[1..])
  }

  /** Once a step misses, no later entry can revive the walk. */
  lemma {:induction false} ResolveFromNothing(path: seq<string>)
    ensures Resolve(None, path) == None
  {
    if path != [] {
      ResolveFromNothing(path[1..]);
    }
  }

  /** Extending a path by one entry takes one more step from where the shorter path led. */
  lemma {:induction false} ResolveSnoc(start: Option<TenantNode>, path: seq<string>, id: string)
    ensures Resolve(start, path + [id]) == Step(Resolve(start, path), id)
    decreases |path|
  {
    if path == [] {
      assert [] + [id] == [id];
    } else {
      assert (path + [id])[1..] == path[1..] + [id];
      ResolveSnoc(Step(start, path[0]), path[1..], id);
    }
  }

  /** If a prefix of the path resolves to nothing, so does the whole path. */
  lemma {:induction false} ResolveMissIsFinal(start: Option<TenantNode>, path: seq<string>, k: nat)
    requires k <= |path| && Resolve(start, path[..k]) == None
    ensures Resolve(start, path) == None
  {
    ResolveSplit(start, path[..k], path[k..]);
    assert path[..k] + path[k..] == path;
    ResolveFromNothing(path[k..]);
  }

  lemma {:induction false} ResolveSplit(start: Option<TenantNode>, p: seq<string>, q: seq<string>)
    ensures Resolve(start, p + q) == Resolve(Resolve(start, p), q)
    decreases |p|
  {
    if p != [] {
      assert (p + q)[1..] == p[1..] + q;
      ResolveSplit(Step(start, p[0]), p[1..], q);
    } else {
      assert p + q == q;
    }
  }

  /** A successful resolution ends at a node whose id is the path's last entry, reached only through successful steps. */
  lemma {:induction false} ResolvedNode(start: Option<TenantNode>, path: seq<string>)
    requires path != [] && Resolve(start, path).Some?
    ensures Resolve(start, path).value.id == path[|path| - 1]
    ensures forall k :: 0 <= k <= |path| ==> Resolve(start, path[..k]).Some?
  {
    var init := path[..|path| - 1];
    assert path == init + [path[|path| - 1]];
    ResolveSnoc(start, init, path[|path| - 1]);
    forall k | 0 <= k <= |path| ensures Resolve(start, path[..k]).Some? {
      if Resolve(start, path[..k]).None? {
        ResolveMissIsFinal(start, path, k);
      }
    }
  }

  /** The `for` loop of the select handler that walks the tree from the root along the path, with its early `break`. */
  method Walk(root: Option<TenantNode>, path: seq<string>) returns (current: Option<TenantNode>)
    ensures current == Resolve(root, path)
  {
    current := root;
    var i := 0;
    while i < |path|
      invariant 0 <= i <= |path|
      invariant Resolve(current, path[i..]) == Resolve(root, path)
    {
      assert path[i..][1..] == path[i + 1..];
      current := Step(current, path[i]);
      if current.None? {
        ResolveFromNothing(path[i + 1..]);
        break;
      }
      i := i + 1;
    }
  }

  /** The new selection path: the old one cut to `level` entries, then the chosen id. */
  function SelectPath(path: seq<string>, level: nat, nodeId: string): (r: seq<string>)
    ensures |r| == Min(level, |path|) + 1
    ensures forall k :: 0 <= k < |r| - 1 ==> r[k] == path[k]
    ensures r[|r| - 1] == nodeId
  {
    path[..Min(level, |path|)] + [nodeId]
  }

  /** A node offers a further dropdown level when it has a non-empty list of children. */
  predicate HasChildLevel(node: Option<TenantNode>)
  {
    node.Some? && node.value.children.Some? && |node.value.children.value| > 0
  }

  /**
   * The option levels after a selection at `level` that resolved to `node`:
   * copy the levels, write the node's children at `level + 1`, keep
   * `level + 2` levels; or, with nothing to drill into, keep `level + 1`.
   */
  function NextOptions(options: seq<seq<TenantNode>>, level: nat, node: Option<TenantNode>): (r: seq<seq<TenantNode>>)
    requires level < |options|
    ensures HasChildLevel(node) ==>
              |r| == level + 2 && r[..level + 1] == options[..level + 1] && r[level + 1] == node.value.children.value
    ensures !HasChildLevel(node) ==> r == options[..level + 1]
  {
    if HasChildLevel(node) then
      var copy := if level + 1 < |options| then options[level + 1 := node.value.children.value]
                  else options + [node.value.children.value];
      copy[..level + 2]
    else
      options[..level + 1]
  }

  /** The search handler: the "all" sentinel of the two dropdowns becomes "no constraint"; other fields pass unchanged. */
  function Normalise(form: TaskFilter): TaskFilter
  {
    form.(status := if form.status == Some("all") then None else form.status,
          scriptType := if form.scriptType == Some("all") then None else form.scriptType)
  }

  predicate IsSentinelKey(k: FilterKey)
  {
    k == StatusKey || k == ScriptTypeKey
  }

  /** Only status and script type drop the literal "all"; every other field, an owner "all" included, passes verbatim. */
  lemma NormaliseFields(form: TaskFilter, k: FilterKey)
    ensures Get(Normalise(form), k) == if IsSentinelKey(k) && Get(form, k) == Some("all") then None else Get(form, k)
    ensures IsSentinelKey(k) ==> Get(Normalise(form), k) != Some("all")
  {
  }

  /**
   * The query a search sends: a parameter is present exactly when its form
   * field is non-empty and, for status and script type, not the sentinel.
   */
  lemma {:induction false} SearchQuery(form: TaskFilter, k: FilterKey, value: string)
    ensures (KeyName(k), value) in Query(Entries(Normalise(form))) <==>
              Get(form, k) == Some(value) && value != "" && !(IsSentinelKey(k) && value == "all")
  {
    FilterQueryMember(Normalise(form), k, value);
    NormaliseFields(form, k);
  }

  /** The panel's state: the loaded tree, the selection path, the option levels and the eight form fields. */
  class FilterPanel {
    var hierarchy: Option<TenantNode>
    var path: seq<string>
    var options: seq<seq<TenantNode>>
    var form: TaskFilter

    /** There is at most one level more than selections, and level 0 offers exactly the root once it is loaded. */
    ghost predicate Valid()
      reads this
    {
      && |options| <= |path| + 1
      && (options != [] ==> hierarchy.Some? && options[0] == [hierarchy.value])
    }

    constructor ()
      ensures Valid()
      ensures hierarchy == None && path == [] && options == [] && form == NoFilter
    {
      hierarchy, path, options, form := None, [], [], NoFilter;
    }

    /** The mount effect: store the fetched tree and, when there is one, offer the root as the only level-0 option. */
    method LoadHierarchy(tree: Option<TenantNode>)
      requires Valid() && hierarchy == None && options == []
      modifies this
      ensures Valid()
      ensures hierarchy == tree
      ensures options == if tree.Some? then [[tree.value]] else []
      ensures path == old(path) && form == old(form)
    {
      hierarchy := tree;
      if tree.Some? {
        options := [[tree.value]];
      }
    }

    /** A form input or dropdown other than the tenant selector changes its field to the entered value. */
    method SetInput(k: FilterKey, value: string)
      requires Valid() && k != TenantKey
      modifies this
      ensures Valid()
      ensures Get(form, k) == Some(value)
      ensures forall j :: j != k ==> Get(form, j) == Get(old(form), j)
      ensures hierarchy == old(hierarchy) && path == old(path) && options == old(options)
    {
      match k
      case StatusKey => form := form.(status := Some(value));
      case OwnerKey => form := form.(owner := Some(value));
      case TaskIdKey => form := form.(taskId := Some(value));
      case UniqueNameKey => form := form.(uniqueName := Some(value));
      case RuleIdKey => form := form.(ruleId := Some(value));
      case RuleUniqueNameKey => form := form.(ruleUniqueName := Some(value));
      case ScriptTypeKey => form := form.(scriptType := Some(value));
    }

    /**
     * Choosing `nodeId` in the dropdown at `level`: cut the path and append
     * the id, walk the tree along the new path, rebuild the option levels,
     * and put the resolved node's name (never its id) into the tenant
     * field, keeping the previous value when the walk found nothing.
     */
    method SelectAtLevel(level: nat, nodeId: string)
      requires Valid() && level < |options|
      modifies this
      ensures Valid()
      ensures path == SelectPath(old(path), level, nodeId) && |path| == level + 1
      ensures options == NextOptions(old(options), level, Resolve(hierarchy, path))
      ensures options[..level + 1] == old(options)[..level + 1]
      ensures form == if Resolve(hierarchy, path).Some? then old(form).(tenant := Some(Resolve(hierarchy, path).value.name))
                      else old(form)
      ensures hierarchy == old(hierarchy)
    {
      var newPath := path[..Min(level, |path|)] + [nodeId];
      path := newPath;
      var current := Walk(hierarchy, newPath);
      if current.Some? && current.value.children.Some? && |current.value.children.value| > 0 {
        var next := options;
        if level + 1 < |next| {
          next := next[level + 1 := current.value.children.value];
        } else {
          next := next + [current.value.children.value];
        }
        options := next[..level + 2];
      } else {
        options := options[..level + 1];
      }
      if current.Some? {
        form := form.(tenant := Some(current.value.name));
      }
    }
  }

  /**
   * With the tree the backend ships, picking the root (the only level-0
   * option) resolves nothing: one level stays and the tenant field stays
   * unset, so the tenant filter can never be set from this tree.
   */
  method ShippedRootSelection() returns (levels: nat, tenant: Option<string>)
    ensures levels == 1 && tenant == None
  {
    var panel := new FilterPanel();
    panel.LoadHierarchy(Some(Db.TenantHierarchy));
    assert panel.options[0] == [Db.TenantHierarchy];
    panel.SelectAtLevel(0, Db.TenantHierarchy.id);
    assert Resolve(Some(Db.TenantHierarchy), ["root"]) == None by {
      assert "root" != "dept1" && "root" != "dept2";
    }
    levels := |panel.options|;
    tenant := panel.form.tenant;
  }

  /** The tree `root`/Acme with children t1/TeamA (no children) and t2/TeamB (children absent). */
  const AcmeTree :=
    TenantNode("root", "Acme", Some([TenantNode("t1", "TeamA", Some([])), TenantNode("t2", "TeamB", None)]))

  /**
   * Selecting "root" at level 0 of the Acme tree resolves nothing and leaves
   * one level, so a second-level dropdown is never offered; selecting "t1"
   * at level 0 (an id the dropdown does not offer) would set "TeamA" with
   * one level, since t1 has no children.
   */
  method AcmeSelections() returns (rootLevels: nat, rootTenant: Option<string>, t1Levels: nat, t1Tenant: Option<string>)
    ensures rootLevels == 1 && rootTenant == None
    ensures t1Levels == 1 && t1Tenant == Some("TeamA")
  {
    var panel := new FilterPanel();
    panel.LoadHierarchy(Some(AcmeTree));
    panel.SelectAtLevel(0, "root");
    assert Resolve(Some(AcmeTree), ["root"]) == None by {
      assert "root" != "t1" && "root" != "t2";
    }
    rootLevels, rootTenant := |panel.options|, panel.form.tenant;
    panel.SelectAtLevel(0, "t1");
    assert Resolve(Some(AcmeTree), ["t1"]) == Some(AcmeTree.children.value[0]);
    t1Levels, t1Tenant := |panel.options|, panel.form.tenant;
  }

  /** A search with status "all", owner "bob" and script type "all" sends only the owner. */
  lemma SearchExample()
    ensures Query(Entries(Normalise(NoFilter.(status := Some("all"), owner := Some("bob"), scriptType := Some("all")))))
            == [("owner", "bob")]
  {
    var es := Entries(NoFilter.(owner := Some("bob")));
    assert es == [("status", None), ("tenant", None), ("owner", Some("bob")), ("task_id", None),
                  ("unique_name", None), ("rule_id", None), ("rule_unique_name", None), ("script_type", None)];
    assert Query(es[7..]) == [];
    assert Query(es[6..]) == [];
    assert Query(es[5..]) == [];
    assert Query(es[4..]) == [];
    assert Query(es[3..]) == [];
    assert Query(es[2..]) == [("owner", "bob")];
    assert Query(es[1..]) == [("owner", "bob")];
  }
}
