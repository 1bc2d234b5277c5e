/**
 * The records shared by the backend store and the browser console: the task
 * status enumeration, the tenant tree node and the task record, as the
 * backend's pydantic models and the frontend's TypeScript interfaces declare
 * them. They carry no behaviour of their own.
 */
module Types {

  datatype Option<+T> = None | Some(value: T)

  datatype Result<+R, +E> = Success(value: R) | Failure(error: E)

  /**
   * Truthiness of an optional string, on which Python and JavaScript agree:
   * present and not empty.
   */
  predicate Present(v: Option<string>)
  {
    v.Some? && v.value != ""
  }

  /** The four task states; the wire value of each is its Chinese label. */
  datatype TaskStatus = Draft | Analyzing | Completed | Error

  /** The string a status travels as over HTTP and is displayed as. */
  function StatusLabel(s: TaskStatus): string
  {
    match s
    case Draft => "草稿"
    case Analyzing => "分析中"
    case Completed => "完成"
    case Error => "运行出错"
  }

  /** A tenant: `children` is absent (`None`) for a node declared without any. */
  datatype TenantNode = TenantNode(id: string, name: string, children: Option<seq<TenantNode>>)

  /** The free-form `details` dictionary, kept as its serialised JSON text and never inspected. */
  datatype Details = Details(json: string)

  datatype Task = Task(
    id: string,
    name: string,
    owner: string,
    uniqueName: string,
    status: TaskStatus,
    tenant: string,
    tenantPath: seq<string>,
    ruleId: Option<string>,
    ruleUniqueName: Option<string>,
    scriptType: Option<string>,
    details: Option<Details>)

  /** The body of a create request: every task field except the id. */
  datatype TaskCreate = TaskCreate(
    name: string,
    owner: string,
    uniqueName: string,
    status: TaskStatus,
    tenant: string,
    tenantPath: seq<string>,
    ruleId: Option<string>,
    ruleUniqueName: Option<string>,
    scriptType: Option<string>,
    details: Option<Details>)
}
