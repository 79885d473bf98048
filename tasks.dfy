/** The web task list: the fetch on mount, the status badge (its style and
    its label) and deletion after a confirmation. The token, the
    confirmation answer and what each request settles with are inputs. */
module Tasks {
  import opened Js
  import opened JsText
  import opened Domain

  datatype Task = Task(
    id: int,
    title: string,
    description: string,
    status: TaskStatus,
    dueDate: string,
    greenhouseId: int,
    greenhouseName: string)

  /** The badge colours `getStatusStyle` spreads over the base badge style;
      `NoStyle` is the empty object of its `default` branch. */
  datatype BadgeStyle = BadgeStyle(backgroundColor: string, color: string) | NoStyle

  /** `getStatusStyle`, a `switch` on the status string. */
  function StatusStyle(status: string): (r: BadgeStyle)
    ensures status == "pending" ==> r == BadgeStyle("#FFF3CD", "#856404")
    ensures status == "in_progress" ==> r == BadgeStyle("#CCE5FF", "#004085")
    ensures status == "completed" ==> r == BadgeStyle("#D4EDDA", "#155724")
    ensures r == NoStyle <==> !IsTaskStatusName(status)
  {
    match status
    case "pending" => BadgeStyle("#FFF3CD", "#856404")
    case "in_progress" => BadgeStyle("#CCE5FF", "#004085")
    case "completed" => BadgeStyle("#D4EDDA", "#155724")
    case _ => NoStyle
  }

  /** Every task status gets a style of its own, and the empty style of the
      `default` branch is never used for one. */
  lemma {:induction false} StatusStylesDistinct(a: TaskStatus, b: TaskStatus)
    ensures StatusStyle(a.Name()).BadgeStyle?
    ensures StatusStyle(a.Name()) == StatusStyle(b.Name()) ==> a == b
    ensures StatusStyle(a.Name()).backgroundColor == StatusStyle(b.Name()).backgroundColor ==> a == b
  {
  }

  /** `status.replace('_', ' ').toUpperCase()`. */
  function StatusLabel(status: string): (r: string)
    ensures |r| == |status|
  {
    ToUpperCase(ReplaceFirst(status, '_', ' '))
  }

  /** The label of `in_progress` has its underscore turned into a space;
      with two underscores, only the first one is. */
  lemma {:induction false} UnderscoreLabels()
    ensures StatusLabel(InProgress.Name()) == "IN PROGRESS"
    ensures StatusLabel("a_b_c") == "A B_C"
  {
    assert ReplaceFirst("in_progress", '_', ' ') == "in progress";
    assert ReplaceFirst("a_b_c", '_', ' ') == "a b_c";
  }

  /** The labels of the two statuses without an underscore are their
      names in upper case. */
  lemma {:induction false} PlainLabels()
    ensures StatusLabel(Pending.Name()) == "PENDING"
    ensures StatusLabel(Completed.Name()) == "COMPLETED"
  {
    LabelWithoutUnderscore(Pending.Name());
    LabelWithoutUnderscore(Completed.Name());
  }

  /** A status string without an underscore is only upper-cased. */
  lemma {:induction false} LabelWithoutUnderscore(status: string)
    requires forall k | 0 <= k < |status| :: status[k] != '_'
    ensures StatusLabel(status) == ToUpperCase(status)
  {
  }

  /** The label keeps the first underscore's position as a space and
      upper-cases every other position. */
  lemma {:induction false} StatusLabelSpec(status: string, i: int)
    requires 0 <= i < |status|
    ensures i == IndexOf(status, '_') ==> StatusLabel(status)[i] == ' '
    ensures i != IndexOf(status, '_') ==> StatusLabel(status)[i] == UpperChar(status[i])
  {
  }

  /** `tasks.filter(task => task.id !== id)`. */
  function RemoveById(tasks: seq<Task>, id: int): (r: seq<Task>)
    ensures |r| <= |tasks|
  {
    if tasks == [] then []
    else (if tasks[0].id == id then [] else [tasks[0]]) + RemoveById(tasks[1..], id)
  }

  /** The filter acts on each task on its own and keeps the survivors in
      their order: it maps a concatenation to the concatenation of the
      results. */
  lemma {:induction false} RemoveByIdConcat(a: seq<Task>, b: seq<Task>, id: int)
    ensures RemoveById(a + b, id) == RemoveById(a, id) + RemoveById(b, id)
  {
    if a != [] {
      assert (a + b)[1..] == a[1..] + b;
      RemoveByIdConcat(a[1..], b, id);
    } else {
      assert a + b == b;
    }
  }

  /** Exactly the tasks with the id are removed: each task survives as many
      times as it occurs when its id differs, and not at all otherwise. */
  lemma {:induction false} RemoveByIdCounts(tasks: seq<Task>, id: int, t: Task)
    ensures multiset(RemoveById(tasks, id))[t] == if t.id == id then 0 else multiset(tasks)[t]
  {
    if tasks != [] {
      RemoveByIdCounts(tasks[1..], id, t);
      assert tasks == [tasks[0]] + tasks[1..];
    }
  }

  /** No task with the id is left. */
  lemma {:induction false} RemoveByIdRemovesAll(tasks: seq<Task>, id: int)
    ensures forall k | 0 <= k < |RemoveById(tasks, id)| :: RemoveById(tasks, id)[k].id != id
  {
    if tasks != [] {
      RemoveByIdRemovesAll(tasks[1..], id);
    }
  }

  /** A list holding no task with the id is unchanged. */
  lemma {:induction false} RemoveByIdAbsent(tasks: seq<Task>, id: int)
    requires forall k | 0 <= k < |tasks| :: tasks[k].id != id
    ensures RemoveById(tasks, id) == tasks
  {
    if tasks != [] {
      RemoveByIdAbsent(tasks[1..], id);
      assert tasks == [tasks[0]] + tasks[1..];
    }
  }

  /** Deleting the same id twice is deleting it once. */
  lemma {:induction false} RemoveByIdIdempotent(tasks: seq<Task>, id: int)
    ensures RemoveById(RemoveById(tasks, id), id) == RemoveById(tasks, id)
  {
    RemoveByIdRemovesAll(tasks, id);
    RemoveByIdAbsent(RemoveById(tasks, id), id);
  }

  class TasksScreen {
    var tasks: seq<Task>
    var loading: bool

    constructor ()
      ensures tasks == [] && loading
    {
      tasks := [];
      loading := true;
    }

    /** The fetch on mount: without a token the page goes to `/`; an OK
        reply replaces the list, anything else keeps it; `loading` ends
        false on every path. */
    method FetchTasks(token: Option<string>, reply: Reply<seq<Task>>) returns (redirected: bool, requested: bool)
      modifies this`tasks, this`loading
      ensures !loading
      ensures redirected <==> !Truthy(token)
      ensures requested <==> Truthy(token)
      ensures tasks == if requested && reply.IsOk() then reply.data else old(tasks)
    {
      redirected, requested := false, false;
      if !Truthy(token) {
        redirected := true;
      } else {
        requested := true;
        if reply.IsOk() {
          tasks := reply.data;
        }
      }
      loading := false;
    }

    /** `handleDeleteTask(id)`. `confirmed` is the answer to the `confirm`
        dialog and `reply` how the DELETE settles; the request is sent with
        whatever token is stored, without checking it. */
    method HandleDeleteTask(id: int, confirmed: bool, reply: Reply<()>) returns (requested: bool)
      modifies this`tasks
      ensures requested == confirmed
      ensures tasks == if confirmed && reply.IsOk() then RemoveById(old(tasks), id) else old(tasks)
    {
      requested := false;
      if !confirmed {
        return;
      }
      requested := true;
      if reply.IsOk() {
        tasks := RemoveById(tasks, id);
      }
    }
  }
}
