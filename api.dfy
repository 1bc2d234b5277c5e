/**
 * The frontend's HTTP wrapper for the task list: how a filter object becomes
 * the query string of `GET /api/tasks`, and how a non-success response
 * becomes a failure. Percent-encoding and the request itself are not modelled;
 * a query is the sequence of (key, value) pairs appended to it.
 */
module Api {
  import opened Types
  import opened Sequences

  /** The filter object handed to `fetchTasks`: every field optional. */
  datatype TaskFilter = TaskFilter(
    status: Option<string>,
    tenant: Option<string>,
    owner: Option<string>,
    taskId: Option<string>,
    uniqueName: Option<string>,
    ruleId: Option<string>,
    ruleUniqueName: Option<string>,
    scriptType: Option<string>)

  const NoFilter := TaskFilter(None, None, None, None, None, None, None, None)

  datatype FilterKey = StatusKey | TenantKey | OwnerKey | TaskIdKey
                     | UniqueNameKey | RuleIdKey | RuleUniqueNameKey | ScriptTypeKey

  /** The property name the key has in the filter object, which is also the query parameter name. */
  function KeyName(k: FilterKey): string
  {
    match k
    case StatusKey => "status"
    case TenantKey => "tenant"
    case OwnerKey => "owner"
    case TaskIdKey => "task_id"
    case UniqueNameKey => "unique_name"
    case RuleIdKey => "rule_id"
    case RuleUniqueNameKey => "rule_unique_name"
    case ScriptTypeKey => "script_type"
  }

  function Get(f: TaskFilter, k: FilterKey): Option<string>
  {
    match k
    case StatusKey => f.status
    case TenantKey => f.tenant
    case OwnerKey => f.owner
    case TaskIdKey => f.taskId
    case UniqueNameKey => f.uniqueName
    case RuleIdKey => f.ruleId
    case RuleUniqueNameKey => f.ruleUniqueName
    case ScriptTypeKey => f.scriptType
  }

  /** The order in which the search handler's object literal declares its properties. */
  const KeyOrder: seq<FilterKey> :=
    [StatusKey, TenantKey, OwnerKey, TaskIdKey, UniqueNameKey, RuleIdKey, RuleUniqueNameKey, ScriptTypeKey]

  /** `Object.entries` of such a filter object: every property, undefined ones included, in declaration order. */
  function Entries(f: TaskFilter): seq<(string, Option<string>)>
  {
    seq(|KeyOrder|, i requires 0 <= i < |KeyOrder| => (KeyName(KeyOrder[i]), Get(f, KeyOrder[i])))
  }

  /** The pairs a query built from `entries` holds: the truthy entries, in their order. */
  function Query(entries: seq<(string, Option<string>)>): seq<(string, string)>
  {
    if entries == [] then []
    else
      (if Present(entries[0].1) then [(entries[0].0, entries[0].1.value)] else [])
      + Query(entries[1..])
  }

  /** The `forEach` over the filter's entries that appends each truthy one to the query. */
  method BuildParams(entries: seq<(string, Option<string>)>) returns (params: seq<(string, string)>)
    ensures params == Query(entries)
  {
    params := [];
    var i := 0;
    while i < |entries|
      invariant 0 <= i <= |entries|
      invariant params + Query(entries[i..]) == Query(entries)
    {
      var (key, value) := entries[i];
      assert entries[i..][1..] == entries[i + 1..];
      if value.Some? && value.value != "" {
        params := params + [(key, value.value)];
      }
      i := i + 1;
    }
    assert entries[i..] == [];
  }

  /** A pair is in the query exactly when the filter has that entry with a non-empty value. */
  lemma {:induction false} QueryMember(entries: seq<(string, Option<string>)>, key: string, value: string)
    ensures (key, value) in Query(entries) <==> (key, Some(value)) in entries && value != ""
  {
    if entries != [] {
      QueryMember(entries[1..], key, value);
      assert entries == [entries[0]] + entries[1..];
    }
  }

  /** The query's keys appear in the same relative order as in the filter's entries. */
  lemma {:induction false} QueryKeysInOrder(entries: seq<(string, Option<string>)>)
    ensures Subsequence(Firsts(Query(entries)), Firsts(entries))
  {
    if entries == [] {
    } else {
      QueryKeysInOrder(entries[1..]);
      var rest := Query(entries[1..]);
      assert Firsts(entries)[1..] == Firsts(entries[1..]);
      if Present(entries[0].1) {
        assert Firsts(Query(entries)) == [entries[0].0] + Firsts(rest);
        assert Firsts(Query(entries))[1..] == Firsts(rest);
      } else {
        assert Query(entries) == rest;
      }
    }
  }

  /** An empty filter object, or one whose fields are all undefined or empty, gives an empty query. */
  lemma {:induction false} QueryEmpty(entries: seq<(string, Option<string>)>)
    requires forall i :: 0 <= i < |entries| ==> !Present(entries[i].1)
    ensures Query(entries) == []
  {
    if entries != [] {
      QueryEmpty(entries[1..]);
    }
  }

  /**
   * The entries of a filter object hold every property under its own name
   * with its value, undefined ones included, and no name twice: eight
   * entries for the eight properties.
   */
  lemma EntriesCover(f: TaskFilter)
    ensures forall k :: (KeyName(k), Get(f, k)) in Entries(f)
    ensures Distinct(Firsts(Entries(f)))
    ensures |Entries(f)| == 8
  {
    var es := Entries(f);
    forall k ensures (KeyName(k), Get(f, k)) in es {
      var i := KeyIndex(k);
      assert es[i] == (KeyName(k), Get(f, k));
    }
  }

  /** The position of a key in the object literal. */
  function KeyIndex(k: FilterKey): (i: nat)
    ensures i < |KeyOrder| && KeyOrder[i] == k
  {
    match k
    case StatusKey => 0 case TenantKey => 1 case OwnerKey => 2 case TaskIdKey => 3
    case UniqueNameKey => 4 case RuleIdKey => 5 case RuleUniqueNameKey => 6 case ScriptTypeKey => 7
  }

  /**
   * For a filter object of the search form, every parameter name occurs at
   * most once, and the names come in declaration order.
   */
  lemma FilterQueryKeys(f: TaskFilter)
    ensures Distinct(Firsts(Query(Entries(f))))
    ensures Subsequence(Firsts(Query(Entries(f))), Firsts(Entries(NoFilter)))
  {
    QueryKeysInOrder(Entries(f));
    EntriesCover(f);
    assert Firsts(Entries(f)) == Firsts(Entries(NoFilter));
    SubsequenceDistinct(Firsts(Query(Entries(f))), Firsts(Entries(f)));
  }

  /** A field of the search form reaches the query under its own name, verbatim, exactly when it is truthy. */
  lemma FilterQueryMember(f: TaskFilter, k: FilterKey, value: string)
    ensures (KeyName(k), value) in Query(Entries(f)) <==> Get(f, k) == Some(value) && value != ""
  {
    QueryMember(Entries(f), KeyName(k), value);
    var es := Entries(f);
    if (KeyName(k), Some(value)) in es {
      var i :| 0 <= i < |es| && es[i] == (KeyName(k), Some(value));
      assert KeyName(KeyOrder[i]) == KeyName(k);
      assert KeyOrder[i] == k;
    }
    if Get(f, k) == Some(value) {
      EntriesCover(f);
    }
  }

  /** The outcome of a `fetch`: its `ok` flag and the already-decoded body. */
  datatype Response = Response(ok: bool, body: seq<Task>)

  const FetchTasksError := "Failed to fetch tasks"

  /** A non-success response becomes a failure carrying the operation's message, never a task list. */
  function FetchTasksResult(response: Response): (r: Result<seq<Task>, string>)
    ensures r.Failure? <==> !response.ok
    ensures r.Failure? ==> r.error == FetchTasksError
    ensures r.Success? ==> r.value == response.body
  {
    if !response.ok then Failure(FetchTasksError) else Success(response.body)
  }
}
