/** The task board (`src/pages/Tasks.tsx`): completing, deleting, creating and
    moving tasks, the four status columns, and the "completed today" count. */
module Tasks {
  import opened Text
  import opened Seqs
  import opened Schema

  /** The create-task dialog's fields, all as the inputs hold them. */
  datatype TaskForm = TaskForm(
    title: string,
    description: string,
    priority: Priority,
    status: TaskStatus,
    dueDate: string,
    linkedChallengeId: string)

  /** The form as it starts and as it is reset after a create. */
  const EmptyForm := TaskForm("", "", Medium, Today, "", "")

  /** `value || undefined` for a text field: the empty string becomes absent. */
  function Present(s: string): (r: Option<string>)
    ensures r == None <==> s == ""
    ensures r.Some? ==> r.value == s
  {
    if s == "" then None else Some(s)
  }

  /** The list after `handleCompleteTask(id)`: each task with that id is
      completed and stamped; nothing else about any task changes. */
  function CompleteIn(tasks: seq<Task>, id: string, now: Instant): (r: seq<Task>)
    ensures |r| == |tasks|
    ensures forall i :: 0 <= i < |r| && tasks[i].id != id ==> r[i] == tasks[i]
    ensures forall i :: 0 <= i < |r| && tasks[i].id == id ==>
      r[i].status == TaskStatus.Completed && r[i].completedAt == Some(now) &&
      r[i].(status := tasks[i].status, completedAt := tasks[i].completedAt) == tasks[i]
  {
    seq(|tasks|, i requires 0 <= i < |tasks| =>
      if tasks[i].id == id then tasks[i].(status := TaskStatus.Completed, completedAt := Some(now))
      else tasks[i])
  }

  /** The list after `moveTask(id, status)`: only the status of the matching
      tasks changes. */
  function MoveIn(tasks: seq<Task>, id: string, status: TaskStatus): (r: seq<Task>)
    ensures |r| == |tasks|
    ensures forall i :: 0 <= i < |r| && tasks[i].id != id ==> r[i] == tasks[i]
    ensures forall i :: 0 <= i < |r| && tasks[i].id == id ==>
      r[i].status == status && r[i].(status := tasks[i].status) == tasks[i]
  {
    seq(|tasks|, i requires 0 <= i < |tasks| =>
      if tasks[i].id == id then tasks[i].(status := status) else tasks[i])
  }

  /** Completing or moving keeps every task's id in its place. */
  lemma UpdatesKeepIds(tasks: seq<Task>, id: string, now: Instant, status: TaskStatus)
    ensures forall i :: 0 <= i < |tasks| ==>
      CompleteIn(tasks, id, now)[i].id == tasks[i].id && MoveIn(tasks, id, status)[i].id == tasks[i].id
  {
  }

  /** The filters the page applies, as predicates on a task. */
  function IdIsNot(id: string): Task -> bool {
    (t: Task) => t.id != id
  }

  function IdIs(id: string): Task -> bool {
    (t: Task) => t.id == id
  }

  function HasStatus(status: TaskStatus): Task -> bool {
    (t: Task) => t.status == status
  }

  /** The list after `handleDeleteTask(id)`. */
  function DeleteFrom(tasks: seq<Task>, id: string): (r: seq<Task>)
    ensures forall i :: 0 <= i < |r| ==> r[i].id != id && r[i] in tasks
    ensures forall i :: 0 <= i < |tasks| && tasks[i].id != id ==> tasks[i] in r
  {
    Filter(IdIsNot(id), tasks)
  }

  /** The tasks carrying a given id. */
  function WithId(tasks: seq<Task>, id: string): (r: seq<Task>)
    ensures forall i :: 0 <= i < |r| ==> r[i].id == id
  {
    Filter(IdIs(id), tasks)
  }

  /** Deleting removes exactly the tasks with that id: what is left and what
      is taken out add up to the whole list. */
  lemma DeleteCount(tasks: seq<Task>, id: string)
    ensures |DeleteFrom(tasks, id)| + |WithId(tasks, id)| == |tasks|
    ensures multiset(DeleteFrom(tasks, id)) + multiset(WithId(tasks, id)) == multiset(tasks)
  {
    var all := (t: Task) => true;
    FilterDisjointUnion(IdIsNot(id), IdIs(id), all, tasks);
    FilterAll(all, tasks);
  }

  /** Deleting keeps the remaining tasks in their original order: it works
      part by part on a concatenation, and leaves a part without the id as
      it is. */
  lemma DeleteKeepsOrder(a: seq<Task>, b: seq<Task>, id: string)
    ensures DeleteFrom(a + b, id) == DeleteFrom(a, id) + DeleteFrom(b, id)
    ensures (forall i :: 0 <= i < |a| ==> a[i].id != id) ==> DeleteFrom(a, id) == a
  {
    FilterConcat(IdIsNot(id), a, b);
    if forall i :: 0 <= i < |a| ==> a[i].id != id {
      FilterAll(IdIsNot(id), a);
    }
  }

  /** The task a valid create appends: filed under the current user, with
      the form's title, priority and status, empty text fields absent, and
      not yet completed. */
  function TaskFromForm(form: TaskForm, now: Instant): (t: Task)
    ensures t.userId == CurrentUserId && t.title == form.title
    ensures t.priority == form.priority && t.status == form.status
    ensures t.id == "task-" + DecimalText(now)
    ensures t.description == Present(form.description) && t.dueDate == Present(form.dueDate) &&
            t.linkedChallengeId == Present(form.linkedChallengeId)
    ensures t.createdAt == now && t.completedAt == None
  {
    Task("task-" + DecimalText(now), CurrentUserId, form.title, Present(form.description),
         Present(form.dueDate), form.priority, form.status, Present(form.linkedChallengeId),
         now, None)
  }

  /** One status column of `tasksByStatus`. */
  function Bucket(tasks: seq<Task>, status: TaskStatus): (r: seq<Task>)
    ensures forall i :: 0 <= i < |r| ==> r[i].status == status
  {
    Filter(HasStatus(status), tasks)
  }

  /** Every task sits in the column of its own status and in no other. */
  lemma BucketOf(tasks: seq<Task>, i: nat, status: TaskStatus)
    requires i < |tasks|
    ensures tasks[i] in Bucket(tasks, status) <==> tasks[i].status == status
  {
  }

  function HasEither(s1: TaskStatus, s2: TaskStatus): Task -> bool {
    (t: Task) => t.status == s1 || t.status == s2
  }

  /** Two different columns together hold the tasks of either status. */
  lemma TwoBuckets(tasks: seq<Task>, s1: TaskStatus, s2: TaskStatus)
    requires s1 != s2
    ensures multiset(Bucket(tasks, s1)) + multiset(Bucket(tasks, s2)) ==
            multiset(Filter(HasEither(s1, s2), tasks))
  {
    FilterDisjointUnion(HasStatus(s1), HasStatus(s2), HasEither(s1, s2), tasks);
  }

  /** The four columns partition the list: together they hold each task
      exactly as often as the list does. */
  lemma BucketsPartition(tasks: seq<Task>)
    ensures multiset(Bucket(tasks, Today)) + multiset(Bucket(tasks, ThisWeek)) +
            multiset(Bucket(tasks, Later)) + multiset(Bucket(tasks, TaskStatus.Completed)) == multiset(tasks)
  {
    var early, late := HasEither(Today, ThisWeek), HasEither(Later, TaskStatus.Completed);
    var all := (t: Task) => true;
    TwoBuckets(tasks, Today, ThisWeek);
    TwoBuckets(tasks, Later, TaskStatus.Completed);
    FilterDisjointUnion(early, late, all, tasks);
    FilterAll(all, tasks);
  }

  /** So the column sizes add up to the number of tasks. */
  lemma BucketSizes(tasks: seq<Task>)
    ensures |Bucket(tasks, Today)| + |Bucket(tasks, ThisWeek)| +
            |Bucket(tasks, Later)| + |Bucket(tasks, TaskStatus.Completed)| == |tasks|
  {
    BucketsPartition(tasks);
    assert |multiset(tasks)| == |tasks|;
  }

  /** Whether a task counts towards "completed today". */
  predicate CompletedOnDay(t: Task, today: int, dayOf: Instant -> int) {
    t.status == TaskStatus.Completed && t.completedAt.Some? && dayOf(t.completedAt.value) == today
  }

  /** `completedToday`, with the calendar day of a clock reading given by
      `dayOf` and today's day by `today`. Only completed tasks count, so the
      figure never exceeds the size of the completed column, whatever the
      calendar. */
  function CompletedToday(tasks: seq<Task>, today: int, dayOf: Instant -> int): (n: nat)
    ensures n <= |Bucket(tasks, TaskStatus.Completed)|
  {
    FilterWeaker((t: Task) => CompletedOnDay(t, today, dayOf), HasStatus(TaskStatus.Completed), tasks);
    |Filter((t: Task) => CompletedOnDay(t, today, dayOf), tasks)|
  }

  // ---- The page state -------------------------------------------------

  class TaskBoard {
    var tasks: seq<Task>
    var newTask: TaskForm
    var isDialogOpen: bool

    constructor (initial: seq<Task>)
      ensures tasks == initial && newTask == EmptyForm && !isDialogOpen
    {
      tasks, newTask, isDialogOpen := initial, EmptyForm, false;
    }

    /** The dialog inputs' change handlers, each writing its field. */
    method EditForm(form: TaskForm)
      modifies this`newTask
      ensures newTask == form
    {
      newTask := form;
    }

    method Complete(id: string, now: Instant)
      modifies this`tasks
      ensures tasks == CompleteIn(old(tasks), id, now)
    {
      tasks := CompleteIn(tasks, id, now);
    }

    method Delete(id: string)
      modifies this`tasks
      ensures tasks == DeleteFrom(old(tasks), id)
    {
      tasks := DeleteFrom(tasks, id);
    }

    method Move(id: string, status: TaskStatus)
      modifies this`tasks
      ensures tasks == MoveIn(old(tasks), id, status)
    {
      tasks := MoveIn(tasks, id, status);
    }

    /** A blank title changes nothing; otherwise one task is appended at the
        end, the form is reset and the dialog closes. */
    method Create(now: Instant) returns (created: bool)
      modifies this
      ensures created <==> !IsBlank(old(newTask.title))
      ensures !created ==>
        tasks == old(tasks) && newTask == old(newTask) && isDialogOpen == old(isDialogOpen)
      ensures created ==>
        tasks == old(tasks) + [TaskFromForm(old(newTask), now)] &&
        newTask == EmptyForm && !isDialogOpen
    {
      if IsBlank(newTask.title) {
        return false;
      }
      tasks := tasks + [TaskFromForm(newTask, now)];
      newTask := EmptyForm;
      isDialogOpen := false;
      created := true;
    }
  }
}
