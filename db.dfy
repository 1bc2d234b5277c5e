/**
 * The backend's in-memory task store: a dictionary from task id to task,
 * iterated in insertion order, with the list query, lookup, create, partial
 * update and the analyze status machine; and the tenant tree it serves.
 */
module Db {
  import opened Types
  import opened Sequences

  /** The tenant tree the backend ships: a root, two departments, two teams under each. */
  const TenantHierarchy: TenantNode :=
    TenantNode("root", "总公司", Some([
      TenantNode("dept1", "电商部门1", Some([
        TenantNode("team1", "团队1", Some([])),
        TenantNode("team2", "团队2", Some([]))])),
      TenantNode("dept2", "电商部门2", Some([
        TenantNode("team3", "团队3", Some([])),
        TenantNode("team4", "团队4", Some([]))]))]))

  // ---------------------------------------------------------------------------
  // The list query
  // ---------------------------------------------------------------------------

  /** The list query's optional parameters. */
  datatype TaskQuery = TaskQuery(
    status: Option<TaskStatus>,
    tenant: Option<string>,
    owner: Option<string>,
    taskId: Option<string>,
    uniqueName: Option<string>,
    ruleId: Option<string>,
    ruleUniqueName: Option<string>,
    scriptType: Option<string>)

  /** One filtering stage of the list query. */
  datatype Criterion =
    | ByStatus(status: TaskStatus)
    | ByTenant(tenant: string)
    | ByOwner(owner: string)
    | ById(id: string)
    | ByUniqueName(uniqueName: string)
    | ByRuleId(ruleId: string)
    | ByRuleUniqueName(ruleUniqueName: string)
    | ByScriptType(scriptType: string)

  /** Case-insensitive substring test, `needle.lower() in hay.lower()`. */
  predicate ContainsIgnoringCase(hay: string, needle: string)
  {
    Contains(Lower(hay), Lower(needle))
  }

  /** The condition each stage's list comprehension keeps a task under. */
  predicate Holds(c: Criterion, t: Task)
  {
    match c
    case ByStatus(s) => t.status == s
    case ByTenant(name) => name in t.tenantPath
    case ByOwner(q) => ContainsIgnoringCase(t.owner, q)
    case ById(q) => ContainsIgnoringCase(t.id, q)
    case ByUniqueName(q) => ContainsIgnoringCase(t.uniqueName, q)
    case ByRuleId(q) => Present(t.ruleId) && ContainsIgnoringCase(t.ruleId.value, q)
    case ByRuleUniqueName(q) => Present(t.ruleUniqueName) && ContainsIgnoringCase(t.ruleUniqueName.value, q)
    case ByScriptType(q) => Present(t.scriptType) && q == t.scriptType.value
  }

  /** A stage that runs only when its parameter is given. */
  function StageIf(given: bool, c: Criterion): seq<Criterion>
  {
    if given then [c] else []
  }

  /** The parameter's text, the empty string when it is absent. */
  function OrEmpty(v: Option<string>): string
  {
    if v.Some? then v.value else ""
  }

  /** The stages the query runs, in the order the code applies them: one per given, non-empty parameter. */
  function Criteria(q: TaskQuery): seq<Criterion>
  {
    StageIf(q.status.Some?, ByStatus(if q.status.Some? then q.status.value else Draft))
    + StageIf(Present(q.tenant), ByTenant(OrEmpty(q.tenant)))
    + StageIf(Present(q.owner), ByOwner(OrEmpty(q.owner)))
    + StageIf(Present(q.taskId), ById(OrEmpty(q.taskId)))
    + StageIf(Present(q.uniqueName), ByUniqueName(OrEmpty(q.uniqueName)))
    + StageIf(Present(q.ruleId), ByRuleId(OrEmpty(q.ruleId)))
    + StageIf(Present(q.ruleUniqueName), ByRuleUniqueName(OrEmpty(q.ruleUniqueName)))
    + StageIf(Present(q.scriptType), ByScriptType(OrEmpty(q.scriptType)))
  }

  /** One stage: `[t for t in ts if <condition>]`. */
  function Keep(ts: seq<Task>, c: Criterion): seq<Task>
  {
    if ts == [] then []
    else (if Holds(c, ts[0]) then [ts[0]] else []) + Keep(ts[1..], c)
  }

  /** The chain of reassignments of `filtered_tasks`, one stage after another. */
  function ApplyAll(ts: seq<Task>, cs: seq<Criterion>): seq<Task>
    decreases |cs|
  {
    if cs == [] then ts else ApplyAll(Keep(ts, cs[0]), cs[1..])
  }

  predicate AllHold(cs: seq<Criterion>, t: Task)
  {
    forall c :: c in cs ==> Holds(c, t)
  }

  /** A single pass keeping what satisfies every stage at once. */
  function KeepAll(ts: seq<Task>, cs: seq<Criterion>): seq<Task>
  {
    if ts == [] then []
    else (if AllHold(cs, ts[0]) then [ts[0]] else []) + KeepAll(ts[1..], cs)
  }

  /**
   * What the list query promises of a task, stated field by field: equal
   * status; tenant is an entry of the tenant path, so a department's name
   * matches its teams' tasks; owner, id and unique name contain the
   * parameter ignoring case; rule id and rule unique name are present and
   * contain it; script type is present and equal.
   */
  predicate Matches(q: TaskQuery, t: Task)
  {
    && (q.status.Some? ==> t.status == q.status.value)
    && (Present(q.tenant) ==> q.tenant.value in t.tenantPath)
    && (Present(q.owner) ==> ContainsIgnoringCase(t.owner, q.owner.value))
    && (Present(q.taskId) ==> ContainsIgnoringCase(t.id, q.taskId.value))
    && (Present(q.uniqueName) ==> ContainsIgnoringCase(t.uniqueName, q.uniqueName.value))
    && (Present(q.ruleId) ==> Present(t.ruleId) && ContainsIgnoringCase(t.ruleId.value, q.ruleId.value))
    && (Present(q.ruleUniqueName) ==>
          Present(t.ruleUniqueName) && ContainsIgnoringCase(t.ruleUniqueName.value, q.ruleUniqueName.value))
    && (Present(q.scriptType) ==> Present(t.scriptType) && q.scriptType.value == t.scriptType.value)
  }

  /** No parameter constrains anything: all absent or empty. */
  predicate Unconstrained(q: TaskQuery)
  {
    q.status.None? && !Present(q.tenant) && !Present(q.owner) && !Present(q.taskId) && !Present(q.uniqueName)
    && !Present(q.ruleId) && !Present(q.ruleUniqueName) && !Present(q.scriptType)
  }

  lemma AllHoldConcat(a: seq<Criterion>, b: seq<Criterion>, t: Task)
    ensures AllHold(a + b, t) <==> AllHold(a, t) && AllHold(b, t)
  {
    assert forall c :: c in a + b <==> c in a || c in b;
  }

  lemma AllHoldStageIf(given: bool, c: Criterion, t: Task)
    ensures AllHold(StageIf(given, c), t) <==> (given ==> Holds(c, t))
  {
    assert c in [c];
  }

  /** Every stage of the query accepts a task exactly when each stage on its own does. */
  lemma CriteriaSplit(q: TaskQuery, t: Task)
    ensures AllHold(Criteria(q), t) <==>
      && AllHold(StageIf(q.status.Some?, ByStatus(if q.status.Some? then q.status.value else Draft)), t)
      && AllHold(StageIf(Present(q.tenant), ByTenant(OrEmpty(q.tenant))), t)
      && AllHold(StageIf(Present(q.owner), ByOwner(OrEmpty(q.owner))), t)
      && AllHold(StageIf(Present(q.taskId), ById(OrEmpty(q.taskId))), t)
      && AllHold(StageIf(Present(q.uniqueName), ByUniqueName(OrEmpty(q.uniqueName))), t)
      && AllHold(StageIf(Present(q.ruleId), ByRuleId(OrEmpty(q.ruleId))), t)
      && AllHold(StageIf(Present(q.ruleUniqueName), ByRuleUniqueName(OrEmpty(q.ruleUniqueName))), t)
      && AllHold(StageIf(Present(q.scriptType), ByScriptType(OrEmpty(q.scriptType))), t)
  {
    var p1 := StageIf(q.status.Some?, ByStatus(if q.status.Some? then q.status.value else Draft));
    var p2 := StageIf(Present(q.tenant), ByTenant(OrEmpty(q.tenant)));
    var p3 := StageIf(Present(q.owner), ByOwner(OrEmpty(q.owner)));
    var p4 := StageIf(Present(q.taskId), ById(OrEmpty(q.taskId)));
    var p5 := StageIf(Present(q.uniqueName), ByUniqueName(OrEmpty(q.uniqueName)));
    var p6 := StageIf(Present(q.ruleId), ByRuleId(OrEmpty(q.ruleId)));
    var p7 := StageIf(Present(q.ruleUniqueName), ByRuleUniqueName(OrEmpty(q.ruleUniqueName)));
    var p8 := StageIf(Present(q.scriptType), ByScriptType(OrEmpty(q.scriptType)));
    AllHoldConcat(p1, p2, t);
    AllHoldConcat(p1 + p2, p3, t);
    AllHoldConcat(p1 + p2 + p3, p4, t);
    AllHoldConcat(p1 + p2 + p3 + p4, p5, t);
    AllHoldConcat(p1 + p2 + p3 + p4 + p5, p6, t);
    AllHoldConcat(p1 + p2 + p3 + p4 + p5 + p6, p7, t);
    AllHoldConcat(p1 + p2 + p3 + p4 + p5 + p6 + p7, p8, t);
  }

  /** The stages the code runs keep a task exactly when it matches the query. */
  lemma CriteriaMeanMatches(q: TaskQuery, t: Task)
    ensures AllHold(Criteria(q), t) <==> Matches(q, t)
  {
    var p1 := StageIf(q.status.Some?, ByStatus(if q.status.Some? then q.status.value else Draft));
    var p2 := StageIf(Present(q.tenant), ByTenant(OrEmpty(q.tenant)));
    var p3 := StageIf(Present(q.owner), ByOwner(OrEmpty(q.owner)));
    var p4 := StageIf(Present(q.taskId), ById(OrEmpty(q.taskId)));
    var p5 := StageIf(Present(q.uniqueName), ByUniqueName(OrEmpty(q.uniqueName)));
    var p6 := StageIf(Present(q.ruleId), ByRuleId(OrEmpty(q.ruleId)));
    var p7 := StageIf(Present(q.ruleUniqueName), ByRuleUniqueName(OrEmpty(q.ruleUniqueName)));
    var p8 := StageIf(Present(q.scriptType), ByScriptType(OrEmpty(q.scriptType)));
    CriteriaSplit(q, t);
    assert AllHold(p1, t) <==> (q.status.Some? ==> t.status == q.status.value) by {
      AllHoldStageIf(q.status.Some?, ByStatus(if q.status.Some? then q.status.value else Draft), t);
    }
    assert AllHold(p2, t) <==> (Present(q.tenant) ==> q.tenant.value in t.tenantPath) by {
      AllHoldStageIf(Present(q.tenant), ByTenant(OrEmpty(q.tenant)), t);
    }
    assert AllHold(p3, t) <==> (Present(q.owner) ==> ContainsIgnoringCase(t.owner, q.owner.value)) by {
      AllHoldStageIf(Present(q.owner), ByOwner(OrEmpty(q.owner)), t);
    }
    assert AllHold(p4, t) <==> (Present(q.taskId) ==> ContainsIgnoringCase(t.id, q.taskId.value)) by {
      AllHoldStageIf(Present(q.taskId), ById(OrEmpty(q.taskId)), t);
    }
    assert AllHold(p5, t) <==> (Present(q.uniqueName) ==> ContainsIgnoringCase(t.uniqueName, q.uniqueName.value)) by {
      AllHoldStageIf(Present(q.uniqueName), ByUniqueName(OrEmpty(q.uniqueName)), t);
    }
    assert AllHold(p6, t) <==>
        (Present(q.ruleId) ==> Present(t.ruleId) && ContainsIgnoringCase(t.ruleId.value, q.ruleId.value)) by {
      AllHoldStageIf(Present(q.ruleId), ByRuleId(OrEmpty(q.ruleId)), t);
    }
    assert AllHold(p7, t) <==>
        (Present(q.ruleUniqueName) ==>
           Present(t.ruleUniqueName) && ContainsIgnoringCase(t.ruleUniqueName.value, q.ruleUniqueName.value)) by {
      AllHoldStageIf(Present(q.ruleUniqueName), ByRuleUniqueName(OrEmpty(q.ruleUniqueName)), t);
    }
    assert AllHold(p8, t) <==>
        (Present(q.scriptType) ==> Present(t.scriptType) && q.scriptType.value == t.scriptType.value) by {
      AllHoldStageIf(Present(q.scriptType), ByScriptType(OrEmpty(q.scriptType)), t);
    }
  }

  /** With no parameter given or all empty, the code runs no stage at all. */
  lemma UnconstrainedRunsNoStage(q: TaskQuery)
    ensures Unconstrained(q) <==> Criteria(q) == []
  {
  }

  lemma {:induction false} KeepAllNothing(ts: seq<Task>)
    ensures KeepAll(ts, []) == ts
  {
    if ts != [] {
      KeepAllNothing(ts[1..]);
    }
  }

  /** Running one stage and then the others is one pass under all of them. */
  lemma {:induction false} KeepThenKeepAll(ts: seq<Task>, c: Criterion, cs: seq<Criterion>)
    ensures KeepAll(Keep(ts, c), cs) == KeepAll(ts, [c] + cs)
    decreases |ts|
  {
    if ts != [] {
      KeepThenKeepAll(ts[1..], c, cs);
      AllHoldConcat([c], cs, ts[0]);
      assert AllHold([c], ts[0]) <==> Holds(c, ts[0]) by {
        assert c in [c];
      }
      var rest := Keep(ts[1..], c);
      if Holds(c, ts[0]) {
        var kept := [ts[0]] + rest;
        assert Keep(ts, c) == kept;
        assert kept[0] == ts[0] && kept[1..] == rest;
        assert KeepAll(kept, cs) == (if AllHold(cs, ts[0]) then [ts[0]] else []) + KeepAll(rest, cs);
      } else {
        assert Keep(ts, c) == rest;
      }
    }
  }

  /** The chain of stages keeps exactly what one conjunctive pass keeps. */
  lemma {:induction false} StagesAreConjunction(ts: seq<Task>, cs: seq<Criterion>)
    ensures ApplyAll(ts, cs) == KeepAll(ts, cs)
    decreases |cs|
  {
    if cs == [] {
      KeepAllNothing(ts);
    } else {
      StagesAreConjunction(Keep(ts, cs[0]), cs[1..]);
      KeepThenKeepAll(ts, cs[0], cs[1..]);
      assert [cs[0]] + cs[1..] == cs;
    }
  }

  lemma {:induction false} KeepAllIsSubsequence(ts: seq<Task>, cs: seq<Criterion>)
    ensures Subsequence(KeepAll(ts, cs), ts)
  {
    if ts != [] {
      KeepAllIsSubsequence(ts[1..], cs);
      var rest := KeepAll(ts[1..], cs);
      if AllHold(cs, ts[0]) {
        var kept := [ts[0]] + rest;
        assert KeepAll(ts, cs) == kept;
        assert kept[0] == ts[0] && kept[1..] == rest;
      } else {
        assert KeepAll(ts, cs) == rest;
      }
    }
  }

  lemma {:induction false} KeepAllMembers(ts: seq<Task>, cs: seq<Criterion>)
    ensures forall t :: t in KeepAll(ts, cs) <==> t in ts && AllHold(cs, t)
  {
    if ts != [] {
      KeepAllMembers(ts[1..], cs);
      assert ts == [ts[0]] + ts[1..];
    }
  }

  // ---------------------------------------------------------------------------
  // The partial update
  // ---------------------------------------------------------------------------

  /** The keys an update may carry: every task field except the id. */
  datatype Field = NameField | OwnerField | UniqueNameField | StatusField | TenantField
                 | TenantPathField | RuleIdField | RuleUniqueNameField | ScriptTypeField | DetailsField

  datatype Value = Text(text: string) | StatusValue(status: TaskStatus)
                 | PathValue(path: seq<string>) | DetailsValue(details: Details)

  /** The value's kind is the field's type, as the request model's validation ensures. */
  predicate WellTyped(f: Field, v: Value)
  {
    match f
    case StatusField => v.StatusValue?
    case TenantPathField => v.PathValue?
    case DetailsField => v.DetailsValue?
    case _ => v.Text?
  }

  /** The value a task holds for a field, `None` for an unset optional one. */
  function FieldOf(t: Task, f: Field): Option<Value>
  {
    match f
    case NameField => Some(Text(t.name))
    case OwnerField => Some(Text(t.owner))
    case UniqueNameField => Some(Text(t.uniqueName))
    case StatusField => Some(StatusValue(t.status))
    case TenantField => Some(Text(t.tenant))
    case TenantPathField => Some(PathValue(t.tenantPath))
    case RuleIdField => if t.ruleId.Some? then Some(Text(t.ruleId.value)) else None
    case RuleUniqueNameField => if t.ruleUniqueName.Some? then Some(Text(t.ruleUniqueName.value)) else None
    case ScriptTypeField => if t.scriptType.Some? then Some(Text(t.scriptType.value)) else None
    case DetailsField => if t.details.Some? then Some(DetailsValue(t.details.value)) else None
  }

  /** A task is its id together with its fields. */
  lemma TaskDeterminedByFields(a: Task, b: Task)
    requires a.id == b.id && forall f :: FieldOf(a, f) == FieldOf(b, f)
    ensures a == b
  {
    assert FieldOf(a, NameField) == FieldOf(b, NameField);
    assert FieldOf(a, OwnerField) == FieldOf(b, OwnerField);
    assert FieldOf(a, UniqueNameField) == FieldOf(b, UniqueNameField);
    assert FieldOf(a, StatusField) == FieldOf(b, StatusField);
    assert FieldOf(a, TenantField) == FieldOf(b, TenantField);
    assert FieldOf(a, TenantPathField) == FieldOf(b, TenantPathField);
    assert FieldOf(a, RuleIdField) == FieldOf(b, RuleIdField);
    assert FieldOf(a, RuleUniqueNameField) == FieldOf(b, RuleUniqueNameField);
    assert FieldOf(a, ScriptTypeField) == FieldOf(b, ScriptTypeField);
    assert FieldOf(a, DetailsField) == FieldOf(b, DetailsField);
  }

  /** `updated_data[key] = value`: that field takes the value, nothing else changes. */
  function SetField(t: Task, f: Field, v: Value): (r: Task)
    requires WellTyped(f, v)
    ensures FieldOf(r, f) == Some(v)
    ensures forall g :: g != f ==> FieldOf(r, g) == FieldOf(t, g)
    ensures r.id == t.id
  {
    match f
    case NameField => t.(name := v.text)
    case OwnerField => t.(owner := v.text)
    case UniqueNameField => t.(uniqueName := v.text)
    case StatusField => t.(status := v.status)
    case TenantField => t.(tenant := v.text)
    case TenantPathField => t.(tenantPath := v.path)
    case RuleIdField => t.(ruleId := Some(v.text))
    case RuleUniqueNameField => t.(ruleUniqueName := Some(v.text))
    case ScriptTypeField => t.(scriptType := Some(v.text))
    case DetailsField => t.(details := Some(v.details))
  }

  /** The update body: the keys the client set, each with its value or an explicit null (`None`). */
  type Update = seq<(Field, Option<Value>)>

  predicate WellTypedUpdate(u: Update)
  {
    forall i :: 0 <= i < |u| && u[i].1.Some? ==> WellTyped(u[i].0, u[i].1.value)
  }

  /** A dictionary: each key once, each value of its field's type. */
  predicate ValidUpdate(u: Update)
  {
    Distinct(Firsts(u)) && WellTypedUpdate(u)
  }

  /** The loop over the update's items: a `None` value is skipped, any other value overwrites. */
  function Merge(t: Task, u: Update): (r: Task)
    requires WellTypedUpdate(u)
    ensures r.id == t.id
    decreases |u|
  {
    if u == [] then t
    else
      assert WellTypedUpdate(u[1..]) by {
        forall i | 0 <= i < |u[1..]| && u[1..][i].1.Some? ensures WellTyped(u[1..][i].0, u[1..][i].1.value) {
          assert u[1..][i] == u[i + 1];
        }
      }
      var next := if u[0].1.Some? then SetField(t, u[0].0, u[0].1.value) else t;
      Merge(next, u[1..])
  }

  /** The entry an update holds for a field, if it has one. */
  function Lookup(u: Update, f: Field): Option<Option<Value>>
  {
    if u == [] then None else if u[0].0 == f then Some(u[0].1) else Lookup(u[1..], f)
  }

  lemma {:induction false} LookupAbsent(u: Update, f: Field)
    requires forall i :: 0 <= i < |u| ==> u[i].0 != f
    ensures Lookup(u, f) == None
  {
    if u != [] {
      LookupAbsent(u[1..], f);
    }
  }

  /**
   * After a merge, a field holds the update's value when the update gives it
   * a non-null one (an empty string included), and its old value otherwise:
   * a null cannot clear an optional field, and the id never changes.
   */
  lemma {:induction false} MergeFields(t: Task, u: Update, f: Field)
    requires ValidUpdate(u)
    ensures Merge(t, u).id == t.id
    ensures FieldOf(Merge(t, u), f) ==
              if Lookup(u, f).Some? && Lookup(u, f).value.Some? then Lookup(u, f).value else FieldOf(t, f)
    decreases |u|
  {
    if u != [] {
      var rest := u[1..];
      assert ValidUpdate(rest) by {
        assert Firsts(rest) == Firsts(u)[1..];
        forall i | 0 <= i < |rest| && rest[i].1.Some? ensures WellTyped(rest[i].0, rest[i].1.value) {
          assert rest[i] == u[i + 1];
        }
      }
      var next := if u[0].1.Some? then SetField(t, u[0].0, u[0].1.value) else t;
      assert Merge(t, u) == Merge(next, rest);
      MergeFields(next, rest, f);
      if u[0].0 == f {
        assert forall i :: 0 <= i < |rest| ==> rest[i].0 != f by {
          forall i | 0 <= i < |rest| ensures rest[i].0 != f {
            assert Firsts(u)[0] != Firsts(u)[i + 1];
          }
        }
        LookupAbsent(rest, f);
      }
    }
  }

  /** An update whose values are all null leaves the task as it was. */
  lemma {:induction false} MergeOfNulls(t: Task, u: Update)
    requires forall i :: 0 <= i < |u| ==> u[i].1.None?
    ensures Merge(t, u) == t
  {
    if u != [] {
      MergeOfNulls(t, u[1..]);
    }
  }

  /** The merge is the one task with the old id whose every field is as `MergeFields` gives it. */
  lemma MergeIsFieldwise(t: Task, u: Update, r: Task)
    requires ValidUpdate(u) && r.id == t.id
    requires forall f :: FieldOf(r, f) ==
               if Lookup(u, f).Some? && Lookup(u, f).value.Some? then Lookup(u, f).value else FieldOf(t, f)
    ensures Merge(t, u) == r
  {
    forall f ensures FieldOf(Merge(t, u), f) == FieldOf(r, f) {
      MergeFields(t, u, f);
    }
    MergeFields(t, u, NameField);
    TaskDeterminedByFields(Merge(t, u), r);
  }

  // ---------------------------------------------------------------------------
  // The analyze status machine
  // ---------------------------------------------------------------------------

  /** DRAFT becomes ANALYZING, ANALYZING becomes COMPLETED, anything else stays. */
  function NextStatus(s: TaskStatus): TaskStatus
  {
    if s == Draft then Analyzing else if s == Analyzing then Completed else s
  }

  /** The status after `n` analyze calls. */
  function AnalyzeTimes(s: TaskStatus, n: nat): TaskStatus
    decreases n
  {
    if n == 0 then s else AnalyzeTimes(NextStatus(s), n - 1)
  }

  lemma AnalyzeStep(s: TaskStatus)
    ensures NextStatus(s) != Draft
    ensures NextStatus(s) == Error <==> s == Error
    ensures s == Completed || s == Error <==> NextStatus(s) == s
  {
  }

  /** From any state but ERROR, two calls reach COMPLETED and further calls keep it there. */
  lemma {:induction false} AnalyzeConverges(s: TaskStatus, n: nat)
    requires s != Error && n >= 2
    ensures AnalyzeTimes(s, n) == Completed
    decreases n
  {
    if n > 2 {
      AnalyzeConverges(NextStatus(s), n - 1);
    } else {
      assert AnalyzeTimes(s, 2) == NextStatus(NextStatus(s));
    }
  }

  /** Analysis never produces DRAFT, and produces ERROR only from ERROR. */
  lemma {:induction false} AnalyzeNeverRegresses(s: TaskStatus, n: nat)
    requires n >= 1
    ensures AnalyzeTimes(s, n) != Draft
    ensures AnalyzeTimes(s, n) == Error <==> s == Error
    decreases n
  {
    if n > 1 {
      AnalyzeNeverRegresses(NextStatus(s), n - 1);
    }
  }

  lemma DraftNeedsTwoCalls()
    ensures AnalyzeTimes(Draft, 1) == Analyzing && AnalyzeTimes(Draft, 2) == Completed
  {
  }

  // ---------------------------------------------------------------------------
  // The store
  // ---------------------------------------------------------------------------

  /** `list(tasks.values())`: the stored tasks in key order. */
  function InOrder(keys: seq<string>, store: map<string, Task>): seq<Task>
    requires forall k :: k in keys ==> k in store
  {
    seq(|keys|, i requires 0 <= i < |keys| => store[keys[i]])
  }

  /**
   * When the keys list every stored id once and each task is stored under its
   * own id, the listing holds every stored task, nothing else, and no id twice.
   */
  lemma InOrderListsStore(keys: seq<string>, store: map<string, Task>)
    requires Distinct(keys) && (forall k :: k in keys <==> k in store)
    requires forall k :: k in store ==> store[k].id == k
    ensures forall k :: k in store ==> store[k] in InOrder(keys, store)
    ensures forall t :: t in InOrder(keys, store) ==> t.id in store && store[t.id] == t
    ensures forall i, j :: 0 <= i < j < |InOrder(keys, store)| ==> InOrder(keys, store)[i].id != InOrder(keys, store)[j].id
  {
    var vs := InOrder(keys, store);
    forall k | k in store ensures store[k] in vs {
      var i :| 0 <= i < |keys| && keys[i] == k;
      assert vs[i] == store[k];
    }
  }

  /** `Task(id=task_id, **task_data)`. */
  function WithId(id: string, d: TaskCreate): Task
  {
    Task(id, d.name, d.owner, d.uniqueName, d.status, d.tenant, d.tenantPath,
         d.ruleId, d.ruleUniqueName, d.scriptType, d.details)
  }

  /** The module-level `tasks` dictionary: its keys in insertion order and its contents. */
  class TaskStore {
    var keys: seq<string>
    var store: map<string, Task>

    /** Keys are listed once each, exactly the stored ones, and each task is stored under its own id. */
    ghost predicate Valid()
      reads this
    {
      && Distinct(keys)
      && (forall k :: k in keys <==> k in store)
      && (forall k :: k in store ==> store[k].id == k)
    }

    constructor ()
      ensures Valid() && keys == [] && store == map[]
    {
      keys, store := [], map[];
    }

    function Tasks(): seq<Task>
      reads this
      requires Valid()
    {
      InOrder(keys, store)
    }

    /**
     * The list query: the stored tasks that satisfy every given parameter, in
     * insertion order; all of them when no parameter is given.
     */
    function GetTasks(q: TaskQuery): (r: seq<Task>)
      reads this
      requires Valid()
      ensures Subsequence(r, Tasks())
      ensures forall t :: t in r <==> t in Tasks() && Matches(q, t)
      ensures Unconstrained(q) ==> r == Tasks()
    {
      var all := Tasks();
      StagesAreConjunction(all, Criteria(q));
      KeepAllIsSubsequence(all, Criteria(q));
      KeepAllMembers(all, Criteria(q));
      assert forall t :: AllHold(Criteria(q), t) <==> Matches(q, t) by {
        forall t ensures AllHold(Criteria(q), t) <==> Matches(q, t) {
          CriteriaMeanMatches(q, t);
        }
      }
      if Unconstrained(q) then
        UnconstrainedRunsNoStage(q);
        ApplyAll(all, Criteria(q))
      else
        ApplyAll(all, Criteria(q))
    }

    /** `tasks.get(task_id)`. */
    function GetTask(id: string): (r: Option<Task>)
      reads this
      requires Valid()
      ensures r.Some? <==> id in keys
      ensures r.Some? ==> r.value == store[id] && r.value.id == id
    {
      if id in store then Some(store[id]) else None
    }

    /**
     * Insert a task built from `data` under the supplied `id`. A new id is
     * appended to the order; an existing one is silently overwritten in place.
     */
    method CreateTask(id: string, data: TaskCreate) returns (t: Task)
      requires Valid()
      modifies this
      ensures Valid()
      ensures t == WithId(id, data)
      ensures store == old(store)[id := t]
      ensures keys == if id in old(store) then old(keys) else old(keys) + [id]
      ensures GetTask(id) == Some(t)
      ensures forall k :: k != id ==> GetTask(k) == old(GetTask(k))
    {
      t := WithId(id, data);
      if id !in store {
        keys := keys + [id];
      }
      store := store[id := t];
    }

    /**
     * The partial update: nothing happens for an unknown id; otherwise the
     * task becomes its merge with the update, in place, and is returned.
     */
    method UpdateTask(id: string, data: Update) returns (r: Option<Task>)
      requires Valid() && ValidUpdate(data)
      modifies this
      ensures Valid()
      ensures keys == old(keys)
      ensures id !in old(store) ==> r == None && store == old(store)
      ensures id in old(store) ==> r == Some(Merge(old(store)[id], data)) && store == old(store)[id := r.value]
    {
      if id !in store {
        return None;
      }
      var updated := store[id];
      var i := 0;
      while i < |data|
        invariant 0 <= i <= |data|
        invariant WellTypedUpdate(data[i..])
        invariant Merge(updated, data[i..]) == Merge(store[id], data)
      {
        var (key, value) := data[i];
        assert data[i..][0] == data[i] && data[i..][1..] == data[i + 1..];
        if value.Some? {
          updated := SetField(updated, key, value.value);
        }
        i := i + 1;
      }
      assert data[i..] == [];
      store := store[id := updated];
      r := Some(updated);
    }

    /** Advance the task's status one step in place; an unknown id gives `None`. */
    method AnalyzeTask(id: string) returns (r: Option<Task>)
      requires Valid()
      modifies this
      ensures Valid()
      ensures keys == old(keys)
      ensures id !in old(store) ==> r == None && store == old(store)
      ensures id in old(store) ==>
                r == Some(old(store)[id].(status := NextStatus(old(store)[id].status)))
                && store == old(store)[id := r.value]
    {
      if id !in store {
        return None;
      }
      var task := store[id];
      if task.status == Draft {
        task := task.(status := Analyzing);
      } else if task.status == Analyzing {
        task := task.(status := Completed);
      }
      store := store[id := task];
      r := Some(task);
    }
  }
}
