/**
 * The edit drawer's working copy: seeded from the selected task, changed one
 * field at a time, and submitted as a whole to the update endpoint, after
 * which the outcome decides whether the table refreshes and the drawer
 * closes.
 */
module TaskEdit {
  import opened Types

  /** The fields the drawer shows as text inputs. */
  datatype TextField = IdText | NameText | OwnerText | UniqueNameText | TenantText
                     | RuleIdText | RuleUniqueNameText | ScriptTypeText

  /** The text a field holds, `None` for an undefined optional one. */
  function TextOf(t: Task, f: TextField): Option<string>
  {
    match f
    case IdText => Some(t.id)
    case NameText => Some(t.name)
    case OwnerText => Some(t.owner)
    case UniqueNameText => Some(t.uniqueName)
    case TenantText => Some(t.tenant)
    case RuleIdText => t.ruleId
    case RuleUniqueNameText => t.ruleUniqueName
    case ScriptTypeText => t.scriptType
  }

  /** `{ ...prev, [field]: value }`: the field takes the text, every other field keeps its value. */
  function WithText(t: Task, f: TextField, v: string): (r: Task)
    ensures TextOf(r, f) == Some(v)
    ensures forall g :: g != f ==> TextOf(r, g) == TextOf(t, g)
    ensures r.status == t.status && r.tenantPath == t.tenantPath && r.details == t.details
  {
    match f
    case IdText => t.(id := v)
    case NameText => t.(name := v)
    case OwnerText => t.(owner := v)
    case UniqueNameText => t.(uniqueName := v)
    case TenantText => t.(tenant := v)
    case RuleIdText => t.(ruleId := Some(v))
    case RuleUniqueNameText => t.(ruleUniqueName := Some(v))
    case ScriptTypeText => t.(scriptType := Some(v))
  }

  /** Typing the text a field already holds leaves the task as it was. */
  lemma WithTextUnchanged(t: Task, f: TextField)
    requires TextOf(t, f).Some?
    ensures WithText(t, f, TextOf(t, f).value) == t
  {
  }

  /** Of two edits to one field only the later one counts. */
  lemma WithTextOverwrites(t: Task, f: TextField, a: string, b: string)
    ensures WithText(WithText(t, f, a), f, b) == WithText(t, f, b)
  {
  }

  /** Edits to different fields do not interfere. */
  lemma WithTextCommutes(t: Task, f: TextField, g: TextField, a: string, b: string)
    requires f != g
    ensures WithText(WithText(t, f, a), g, b) == WithText(WithText(t, g, b), f, a)
  {
  }

  /**
   * The inputs the drawer lets the user type into: never the id, whose input
   * is disabled, and an optional field only when the copy defines it.
   */
  predicate Editable(t: Task, f: TextField)
  {
    f != IdText && TextOf(t, f).Some?
  }

  /** Edits made through the drawer's inputs keep the copy's id and the set of defined fields. */
  lemma EditKeepsIdAndShape(t: Task, f: TextField, v: string)
    requires Editable(t, f)
    ensures WithText(t, f, v).id == t.id
    ensures forall g :: Editable(WithText(t, f, v), g) <==> Editable(t, g)
  {
  }

  /** What a submit does beyond the request: a toast, then the callbacks. */
  datatype Effect = Toast(title: string) | Refresh | Close

  const UpdatedTitle := "更新成功"
  const UpdateFailedTitle := "更新失败"

  /** The request a submit sends, addressed by id, and the effects that follow its outcome. */
  datatype Outcome = Outcome(request: Option<(string, Task)>, effects: seq<Effect>)

  /**
   * Submitting a working copy: nothing at all without one; otherwise the whole
   * copy is sent under its own id, and a success toasts, refreshes and then
   * closes, while a failure only toasts.
   */
  function SubmitOutcome(copy: Option<Task>, ok: bool): (r: Outcome)
    ensures copy.None? ==> r.request.None? && r.effects == []
    ensures copy.Some? ==> r.request == Some((copy.value.id, copy.value))
    ensures copy.Some? && ok ==> r.effects == [Toast(UpdatedTitle), Refresh, Close]
    ensures copy.Some? && !ok ==> Refresh !in r.effects && Close !in r.effects
    ensures copy.Some? && !ok ==> r.effects == [Toast(UpdateFailedTitle)]
  {
    if copy.None? then Outcome(None, [])
    else if ok then Outcome(Some((copy.value.id, copy.value)), [Toast(UpdatedTitle), Refresh, Close])
    else Outcome(Some((copy.value.id, copy.value)), [Toast(UpdateFailedTitle)])
  }

  /** The drawer's state: the working copy and the submitting flag. */
  class TaskEditor {
    var edited: Option<Task>
    var submitting: bool

    constructor ()
      ensures edited == None && !submitting
    {
      edited, submitting := None, false;
    }

    /** A new selected task replaces the copy with a copy of it; a null one leaves the copy alone. */
    method Seed(task: Option<Task>)
      modifies this
      ensures edited == if task.Some? then task else old(edited)
      ensures submitting == old(submitting)
    {
      if task.Some? {
        edited := Some(task.value);
      }
    }

    /** One input changed: exactly that field of the copy takes the text; without a copy nothing happens. */
    method InputChange(f: TextField, v: string)
      modifies this
      ensures edited == if old(edited).Some? then Some(WithText(old(edited).value, f, v)) else None
      ensures submitting == old(submitting)
    {
      if edited.Some? {
        edited := Some(WithText(edited.value, f, v));
      }
    }

    /** The status select changed: only the copy's status changes. */
    method StatusChange(s: TaskStatus)
      modifies this
      ensures edited == if old(edited).Some? then Some(old(edited).value.(status := s)) else None
      ensures submitting == old(submitting)
    {
      if edited.Some? {
        edited := Some(edited.value.(status := s));
      }
    }

    /**
     * Submit with `ok` the outcome of the update request: the copy itself is
     * never changed, and the flag is down again once the request settles.
     */
    method Submit(ok: bool) returns (r: Outcome)
      modifies this
      ensures r == SubmitOutcome(old(edited), ok)
      ensures edited == old(edited)
      ensures old(edited).Some? ==> !submitting
      ensures old(edited).None? ==> submitting == old(submitting)
    {
      if edited.None? {
        return Outcome(None, []);
      }
      submitting := true;
      var copy := edited.value;
      var effects;
      if ok {
        effects := [Toast(UpdatedTitle), Refresh, Close];
      } else {
        effects := [Toast(UpdateFailedTitle)];
      }
      submitting := false;
      r := Outcome(Some((copy.id, copy)), effects);
    }
  }
}
