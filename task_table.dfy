/**
 * The task table's own logic: the badge colour of a status, and the set of
 * task ids whose analyze request is in flight, which disables their
 * buttons. The table rows themselves are presentation and are not modelled.
 */
module TaskTable {
  import opened Types

  const DraftColor := "bg-gray-200 text-gray-800"
  const AnalyzingColor := "bg-blue-200 text-blue-800"
  const CompletedColor := "bg-green-200 text-green-800"
  const ErrorColor := "bg-red-200 text-red-800"

  /** The colour of a status, given as the string the row holds; an unknown string falls back to gray. */
  function StatusColor(raw: string): string
  {
    if raw == StatusLabel(Draft) then DraftColor
    else if raw == StatusLabel(Analyzing) then AnalyzingColor
    else if raw == StatusLabel(Completed) then CompletedColor
    else if raw == StatusLabel(Error) then ErrorColor
    else DraftColor
  }

  /** The four statuses get four different colours. */
  lemma StatusColorsDistinct(a: TaskStatus, b: TaskStatus)
    ensures StatusColor(StatusLabel(a)) == StatusColor(StatusLabel(b)) <==> a == b
  {
  }

  /** A string that is no status label is shown like a draft. */
  lemma StatusColorFallback(raw: string)
    requires forall s: TaskStatus :: raw != StatusLabel(s)
    ensures StatusColor(raw) == StatusColor(StatusLabel(Draft))
  {
  }

  /** `new Set(prev).add(taskId)`. */
  function WithAnalyzing(prev: set<string>, id: string): (r: set<string>)
    ensures id in r
    ensures forall x :: x != id ==> (x in r <==> x in prev)
  {
    prev + {id}
  }

  /** A copy of the set with `taskId` deleted. */
  function WithoutAnalyzing(prev: set<string>, id: string): (r: set<string>)
    ensures id !in r
    ensures forall x :: x != id ==> (x in r <==> x in prev)
  {
    prev - {id}
  }

  /** One analyze request starting, or finishing with the request's outcome. */
  datatype AnalyzeEvent = Begin(id: string) | End(id: string, ok: bool)

  /** The in-flight set after a run of events, from the empty set the table starts with. */
  function Replay(events: seq<AnalyzeEvent>): set<string>
  {
    if events == [] then {}
    else
      var prev := Replay(events[..|events| - 1]);
      match events[|events| - 1]
      case Begin(id) => WithAnalyzing(prev, id)
      case End(id, _) => WithoutAnalyzing(prev, id)
  }

  /** The last event about one task id, if there is any. */
  function LastAbout(events: seq<AnalyzeEvent>, x: string): Option<AnalyzeEvent>
  {
    if events == [] then None
    else if events[|events| - 1].id == x then Some(events[|events| - 1])
    else LastAbout(events[..|events| - 1], x)
  }

  /** A task id is in flight exactly when the latest event about it is a start. */
  lemma {:induction false} ReplayInFlight(events: seq<AnalyzeEvent>, x: string)
    ensures x in Replay(events) <==> LastAbout(events, x) == Some(Begin(x))
  {
    if events != [] {
      ReplayInFlight(events[..|events| - 1], x);
    }
  }

  /** The component's `analyzingTaskIds` state. */
  class AnalyzeTracker {
    var analyzing: set<string>

    constructor ()
      ensures analyzing == {}
    {
      analyzing := {};
    }

    /** The analyze button of the row for `id` is disabled. */
    predicate Disabled(id: string)
      reads this
    {
      id in analyzing
    }

    /** The request for `id` starts: the id joins the set. */
    method Begin(id: string)
      modifies this
      ensures analyzing == WithAnalyzing(old(analyzing), id)
      ensures Disabled(id)
      ensures forall x :: x != id ==> (Disabled(x) <==> old(Disabled(x)))
    {
      analyzing := WithAnalyzing(analyzing, id);
    }

    /**
     * The request for `id` settles: a refresh is asked for only when it
     * succeeded, and either way the id leaves the set.
     */
    method End(id: string, ok: bool) returns (refresh: bool)
      modifies this
      ensures refresh == ok
      ensures analyzing == WithoutAnalyzing(old(analyzing), id)
      ensures !Disabled(id)
      ensures forall x :: x != id ==> (Disabled(x) <==> old(Disabled(x)))
    {
      refresh := ok;
      analyzing := WithoutAnalyzing(analyzing, id);
    }
  }
}
