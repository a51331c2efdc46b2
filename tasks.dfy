/**
 * The task list of `loadContest` (src/extension.ts): each row of the contest's
 * task table, reduced to the text and href of the link in its first cell,
 * becomes a task when both are present. The imperative loop that builds the
 * list is `Sidebar.SidebarProvider.LoadContest`.
 */
module Tasks {
  import opened JsText

  /** The link in a table row's first cell: its text, and its href attribute if it has one. */
  datatype TaskRow = TaskRow(title: string, href: Option<string>)

  /** TaskData in src/types.ts; `title` is its `label`. */
  datatype Task = Task(title: string, url: string)

  const Origin: string := "https://atcoder.jp"

  /** The task-list page fetched for a contest number. */
  function ContestTasksUrl(contestId: string): string {
    Origin + "/contests/abc" + contestId + "/tasks"
  }

  /** `label && href`: both truthy, so neither missing nor empty. */
  predicate Listed(row: TaskRow) {
    row.title != "" && row.href.Some? && row.href.value != ""
  }

  function TaskOf(row: TaskRow): Task
    requires Listed(row)
  {
    Task(row.title, Origin + row.href.value)
  }

  /** The tasks built from the rows scanned so far, in row order. */
  function KeptTasks(rows: seq<TaskRow>): seq<Task> {
    if rows == [] then []
    else
      var last := rows[|rows| - 1];
      KeptTasks(rows[..|rows| - 1]) + (if Listed(last) then [TaskOf(last)] else [])
  }

  /** A task's url is the site origin followed by the row's non-empty href, which it gives back. */
  lemma TaskUrlRoundTrip(row: TaskRow)
    requires Listed(row)
    ensures StartsWith(TaskOf(row).url, Origin)
    ensures TaskOf(row).url[|Origin|..] == row.href.value
    ensures |TaskOf(row).url| > |Origin|
  {
    var u := TaskOf(row).url;
    assert u[..|Origin|] == Origin;
  }

  /** Building the list commutes with splitting the table, so row order is kept. */
  lemma {:induction false} KeptTasksAppend(a: seq<TaskRow>, b: seq<TaskRow>)
    ensures KeptTasks(a + b) == KeptTasks(a) + KeptTasks(b)
    decreases |b|
  {
    if b == [] {
      assert a + b == a;
    } else {
      var c := a + b;
      assert c[..|c| - 1] == a + b[..|b| - 1];
      assert c[|c| - 1] == b[|b| - 1];
      KeptTasksAppend(a, b[..|b| - 1]);
    }
  }

  /**
   * Exactly the listed rows become tasks: every task comes from a listed row
   * (title kept, url the origin plus href), and every listed row gives one.
   */
  lemma {:induction false} KeptTasksSpec(rows: seq<TaskRow>)
    ensures |KeptTasks(rows)| <= |rows|
    ensures forall t :: t in KeptTasks(rows) ==> exists j :: 0 <= j < |rows| && Listed(rows[j]) && t == TaskOf(rows[j])
    ensures forall j :: 0 <= j < |rows| && Listed(rows[j]) ==> TaskOf(rows[j]) in KeptTasks(rows)
    decreases |rows|
  {
    if rows != [] {
      var init := rows[..|rows| - 1];
      var last := rows[|rows| - 1];
      KeptTasksSpec(init);
      var r := KeptTasks(rows);
      assert r == KeptTasks(init) + (if Listed(last) then [TaskOf(last)] else []);
      forall t | t in r
        ensures exists j :: 0 <= j < |rows| && Listed(rows[j]) && t == TaskOf(rows[j])
      {
        if t in KeptTasks(init) {
          var j :| 0 <= j < |init| && Listed(init[j]) && t == TaskOf(init[j]);
          assert rows[j] == init[j];
        } else {
          assert t == TaskOf(rows[|rows| - 1]);
        }
      }
      forall j | 0 <= j < |rows| && Listed(rows[j])
        ensures TaskOf(rows[j]) in r
      {
        if j < |init| {
          assert rows[j] == init[j];
        }
      }
    }
  }
}
