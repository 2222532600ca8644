/**
 * The task helpers of includes/functions.php. Every SQL query is replaced
 * by its result: a sequence of rows (or None when the query failed), or,
 * for the manager assignments, the table's (user, manager) pairs. Dates
 * are 'Y-m-d' strings; "today" and the days of a period are inputs.
 */
module TaskFunctions {
  import opened Common
  import opened Php
  import opened Auth

  // ---------------------------------------------------------------------------
  // Status classes and deadlines

  /** `getStatusClass`: the Bootstrap colour of a status. */
  function GetStatusClass(status: string): (c: string)
    ensures status == "Pending" ==> c == "warning"
    ensures status == "In Progress" ==> c == "info"
    ensures status == "Completed" ==> c == "success"
    ensures c == "secondary" <==> status !in {"Pending", "In Progress", "Completed"}
  {
    match status
    case "Pending" => "warning"
    case "In Progress" => "info"
    case "Completed" => "success"
    case _ => "secondary"
  }

  /** A live task has no colour of its own. */
  lemma LiveIsSecondary()
    ensures GetStatusClass("Live") == "secondary"
  {
  }

  /** PHP's `<` on two strings that are not both numeric: byte-wise lexicographic order. */
  predicate StrLess(a: string, b: string) {
    if |b| == 0 then false
    else if |a| == 0 then true
    else if a[0] != b[0] then a[0] < b[0]
    else StrLess(a[1..], b[1..])
  }

  /** `isOverdue`: the deadline comes before today; a null deadline compares as "". */
  function IsOverdue(deadline: Option<string>, today: string): (b: bool)
    ensures b ==> deadline != Some(today)
    ensures deadline.None? ==> (b <==> today != "")
  {
    StrLessIrreflexive(today);
    StrLess(deadline.GetOr(""), today)
  }

  /** No string is before itself. */
  lemma {:induction false} StrLessIrreflexive(a: string)
    ensures !StrLess(a, a)
  {
    if |a| > 0 {
      StrLessIrreflexive(a[1..]);
    }
  }

  /** A deadline of today is not overdue, and a missing deadline is overdue on any day. */
  lemma OverdueEdges(today: string)
    ensures !IsOverdue(Some(today), today)
    ensures today != "" ==> IsOverdue(None, today)
  {
    StrLessIrreflexive(today);
  }

  // ---------------------------------------------------------------------------
  // getTaskStats

  /** One row of the user's tasks: its status and deadline. */
  datatype TaskRow = TaskRow(status: string, deadline: Option<string>)

  datatype Stats = Stats(total: nat, pending: nat, inProgress: nat, completed: nat, overdue: nat, live: nat)

  /** A task counts as overdue when its deadline has passed and it is neither Completed nor Live. */
  predicate OverdueRow(row: TaskRow, today: string) {
    IsOverdue(row.deadline, today) && row.status != "Completed" && row.status != "Live"
  }

  /** The number of rows with the given status. */
  function CountStatus(rows: seq<TaskRow>, status: string): (n: nat)
    ensures n <= |rows|
  {
    if |rows| == 0 then 0
    else CountStatus(rows[..|rows| - 1], status) + (if rows[|rows| - 1].status == status then 1 else 0)
  }

  /** The number of overdue rows. */
  function CountOverdue(rows: seq<TaskRow>, today: string): (n: nat)
    ensures n <= |rows|
  {
    if |rows| == 0 then 0
    else CountOverdue(rows[..|rows| - 1], today) + (if OverdueRow(rows[|rows| - 1], today) then 1 else 0)
  }

  /** `getTaskStats`: one pass over the rows, bumping the matching counters. */
  method GetTaskStats(rows: seq<TaskRow>, today: string) returns (stats: Stats)
    ensures stats.total == |rows|
    ensures stats.pending == CountStatus(rows, "Pending")
    ensures stats.inProgress == CountStatus(rows, "In Progress")
    ensures stats.completed == CountStatus(rows, "Completed")
    ensures stats.live == CountStatus(rows, "Live")
    ensures stats.overdue == CountOverdue(rows, today)
  {
    stats := Stats(0, 0, 0, 0, 0, 0);
    var i := 0;
    while i < |rows|
      invariant 0 <= i <= |rows|
      invariant stats.total == i
      invariant stats.pending == CountStatus(rows[..i], "Pending")
      invariant stats.inProgress == CountStatus(rows[..i], "In Progress")
      invariant stats.completed == CountStatus(rows[..i], "Completed")
      invariant stats.live == CountStatus(rows[..i], "Live")
      invariant stats.overdue == CountOverdue(rows[..i], today)
    {
      var row := rows[i];
      CountStatusStep(rows, i, "Pending");
      CountStatusStep(rows, i, "In Progress");
      CountStatusStep(rows, i, "Live");
      CountStatusStep(rows, i, "Completed");
      CountOverdueStep(rows, i, today);
      stats := stats.(total := stats.total + 1);
      if row.status == "Pending" {
        stats := stats.(pending := stats.pending + 1);
      } else if row.status == "In Progress" {
        stats := stats.(inProgress := stats.inProgress + 1);
      } else if row.status == "Live" {
        stats := stats.(live := stats.live + 1);
      } else if row.status == "Completed" {
        stats := stats.(completed := stats.completed + 1);
      }
      if IsOverdue(row.deadline, today) && row.status !in ["Completed", "Live"] {
        stats := stats.(overdue := stats.overdue + 1);
      }
      i := i + 1;
    }
    assert rows[..i] == rows;
  }

  /** Extending the counted prefix by one row counts that row once if it has the status. */
  lemma CountStatusStep(rows: seq<TaskRow>, i: nat, status: string)
    requires i < |rows|
    ensures CountStatus(rows[..i + 1], status)
      == CountStatus(rows[..i], status) + (if rows[i].status == status then 1 else 0)
  {
    assert rows[..i + 1][..i] == rows[..i];
  }

  /** Extending the counted prefix by one row counts that row once if it is overdue. */
  lemma CountOverdueStep(rows: seq<TaskRow>, i: nat, today: string)
    requires i < |rows|
    ensures CountOverdue(rows[..i + 1], today)
      == CountOverdue(rows[..i], today) + (if OverdueRow(rows[i], today) then 1 else 0)
  {
    assert rows[..i + 1][..i] == rows[..i];
  }

  /**
   * Each row lands in at most one status counter, and an overdue row is
   * neither Completed nor Live, so these sums never exceed the total.
   */
  lemma {:induction false} StatsBounded(rows: seq<TaskRow>, today: string)
    ensures CountStatus(rows, "Pending") + CountStatus(rows, "In Progress")
          + CountStatus(rows, "Live") + CountStatus(rows, "Completed") <= |rows|
    ensures CountOverdue(rows, today) + CountStatus(rows, "Live") + CountStatus(rows, "Completed") <= |rows|
  {
    if |rows| > 0 {
      StatsBounded(rows[..|rows| - 1], today);
    }
  }

  // ---------------------------------------------------------------------------
  // getDailyTaskData

  /** A day of the period: its 'Y-m-d' key and its 'd M' caption. */
  datatype Day = Day(key: string, caption: string)

  /** A row of the grouped query: a creation date, a status and how many tasks share both. */
  datatype DayCount = DayCount(taskDate: string, status: string, count: nat)

  datatype Daily = Daily(days: seq<string>, completed: seq<int>, created: seq<int>)

  /** The tasks created on `day`: the sum of the counts of its rows. */
  function CreatedOn(rows: seq<DayCount>, day: string): nat {
    if |rows| == 0 then 0
    else CreatedOn(rows[..|rows| - 1], day) + (if rows[|rows| - 1].taskDate == day then rows[|rows| - 1].count else 0)
  }

  /** The completed tasks of `day`: the count of its last Completed row (later rows overwrite), else 0. */
  function CompletedOn(rows: seq<DayCount>, day: string): nat {
    if |rows| == 0 then 0
    else
      var last := rows[|rows| - 1];
      if last.status == "Completed" && last.taskDate == day then last.count
      else CompletedOn(rows[..|rows| - 1], day)
  }

  /** The keys of the period's days. */
  function DayKeys(period: seq<Day>): (ks: set<string>)
    ensures forall i :: 0 <= i < |period| ==> period[i].key in ks
    ensures forall k :: k in ks ==> exists i :: 0 <= i < |period| && period[i].key == k
  {
    set i | 0 <= i < |period| :: period[i].key
  }

  /** The first loop of `getDailyTaskData`: the labels, and 0 for every day of the period. */
  method StartDays(period: seq<Day>) returns (days: seq<string>, zeros: map<string, int>)
    ensures |days| == |period| && forall j :: 0 <= j < |period| ==> days[j] == period[j].caption
    ensures zeros.Keys == DayKeys(period)
    ensures forall k :: k in zeros ==> zeros[k] == 0
  {
    days := [];
    zeros := map[];
    var i := 0;
    while i < |period|
      invariant 0 <= i <= |period|
      invariant |days| == i && forall j :: 0 <= j < i ==> days[j] == period[j].caption
      invariant zeros.Keys == DayKeys(period[..i])
      invariant forall k :: k in zeros ==> zeros[k] == 0
    {
      assert period[..i + 1] == period[..i] + [period[i]];
      days := days + [period[i].caption];
      zeros := zeros[period[i].key := 0];
      i := i + 1;
    }
    assert period[..i] == period;
  }

  /** The row loop of `getDailyTaskData`, over maps that start at 0 on the given days. */
  method TallyRows(rows: seq<DayCount>, start: map<string, int>)
    returns (createdMap: map<string, int>, completedMap: map<string, int>)
    requires forall k :: k in start ==> start[k] == 0
    ensures createdMap.Keys == completedMap.Keys == start.Keys
    ensures forall k :: k in createdMap ==> createdMap[k] == CreatedOn(rows, k)
    ensures forall k :: k in completedMap ==> completedMap[k] == CompletedOn(rows, k)
  {
    createdMap, completedMap := start, start;
    var r := 0;
    while r < |rows|
      invariant 0 <= r <= |rows|
      invariant createdMap.Keys == completedMap.Keys == start.Keys
      invariant forall k :: k in createdMap ==> createdMap[k] == CreatedOn(rows[..r], k)
      invariant forall k :: k in completedMap ==> completedMap[k] == CompletedOn(rows[..r], k)
    {
      var row := rows[r];
      assert rows[..r + 1][..r] == rows[..r];
      assert rows[..r + 1][r] == row;
      if row.taskDate in createdMap {
        createdMap := createdMap[row.taskDate := createdMap[row.taskDate] + row.count];
      }
      if row.status == "Completed" && row.taskDate in completedMap {
        completedMap := completedMap[row.taskDate := row.count];
      }
      r := r + 1;
    }
    assert rows[..r] == rows;
  }

  /** The read-back loop of `getDailyTaskData`: each day's figure from each map, in period order. */
  method ReadBack(period: seq<Day>, createdMap: map<string, int>, completedMap: map<string, int>)
    returns (completed: seq<int>, created: seq<int>)
    requires forall j :: 0 <= j < |period| ==> period[j].key in createdMap && period[j].key in completedMap
    ensures |completed| == |created| == |period|
    ensures forall j :: 0 <= j < |period| ==> created[j] == createdMap[period[j].key]
    ensures forall j :: 0 <= j < |period| ==> completed[j] == completedMap[period[j].key]
  {
    completed, created := [], [];
    var i := 0;
    while i < |period|
      invariant 0 <= i <= |period|
      invariant |completed| == |created| == i
      invariant forall j :: 0 <= j < i ==> created[j] == createdMap[period[j].key]
      invariant forall j :: 0 <= j < i ==> completed[j] == completedMap[period[j].key]
    {
      completed := completed + [completedMap[period[i].key]];
      created := created + [createdMap[period[i].key]];
      i := i + 1;
    }
  }

  /**
   * `getDailyTaskData`: both maps start at 0 for every day of the period,
   * the rows add to `created` and overwrite `completed` for days of the
   * period only, and both are read back in period order.
   */
  method GetDailyTaskData(period: seq<Day>, rows: seq<DayCount>) returns (d: Daily)
    ensures |d.days| == |d.completed| == |d.created| == |period|
    ensures forall i :: 0 <= i < |period| ==> d.days[i] == period[i].caption
    ensures forall i :: 0 <= i < |period| ==> d.created[i] == CreatedOn(rows, period[i].key)
    ensures forall i :: 0 <= i < |period| ==> d.completed[i] == CompletedOn(rows, period[i].key)
  {
    var days, zeros := StartDays(period);
    var createdMap, completedMap := TallyRows(rows, zeros);
    var completed, created := ReadBack(period, createdMap, completedMap);
    d := Daily(days, completed, created);
  }

  /** A day's completed figure is one of the counts summed into its created figure. */
  lemma {:induction false} CompletedWithinCreated(rows: seq<DayCount>, day: string)
    ensures CompletedOn(rows, day) <= CreatedOn(rows, day)
  {
    if |rows| > 0 {
      CompletedWithinCreated(rows[..|rows| - 1], day);
    }
  }

  /** A row dated on no day of the period changes none of the figures. */
  lemma OutsideRowIgnored(rows: seq<DayCount>, row: DayCount, period: seq<Day>)
    requires row.taskDate !in DayKeys(period)
    ensures forall i :: 0 <= i < |period| ==>
      CreatedOn(rows + [row], period[i].key) == CreatedOn(rows, period[i].key)
      && CompletedOn(rows + [row], period[i].key) == CompletedOn(rows, period[i].key)
  {
    assert (rows + [row])[..|rows|] == rows;
  }

  // ---------------------------------------------------------------------------
  // Result shapes of getAllStatus and getAssignedUsers

  /**
   * A fetched row: its name column (`name` or `username`), its id column
   * (`id` or `user_id`) and the whole row as an associative array.
   */
  datatype Row = Row(name: string, id: int, record: PArray)

  /** One iteration of the fetch loop for result type t. */
  function ShapeStep(t: int, acc: PArray, row: Row): PArray {
    if t == 0 then Put(acc, SKey(row.name), Int(row.id))
    else if t == 1 then Put(acc, IKey(row.id), Str(row.name))
    else if t == 2 then Put(acc, SKey(row.name), Arr([]))
    else if t == 3 then Push(acc, Str(row.name))
    else if t == 4 || t == 5 then Push(acc, Arr(row.record))
    else acc
  }

  /**
   * The array the fetch loop builds: 0 maps names to ids, 1 ids to names,
   * 2 names to empty arrays, 3 lists the names, 4 and 5 list the rows.
   */
  function Shape(t: int, rows: seq<Row>): PArray {
    if |rows| == 0 then []
    else ShapeStep(t, Shape(t, rows[..|rows| - 1]), rows[|rows| - 1])
  }

  /** The fetch loop itself. */
  method BuildShape(t: int, rows: seq<Row>) returns (arr: PArray)
    ensures arr == Shape(t, rows)
  {
    arr := [];
    var i := 0;
    while i < |rows|
      invariant 0 <= i <= |rows|
      invariant arr == Shape(t, rows[..i])
    {
      assert rows[..i + 1][..i] == rows[..i];
      var row := rows[i];
      if t == 0 {
        arr := Put(arr, SKey(row.name), Int(row.id));
      } else if t == 1 {
        arr := Put(arr, IKey(row.id), Str(row.name));
      } else if t == 2 {
        arr := Put(arr, SKey(row.name), Arr([]));
      } else if t == 3 {
        arr := Push(arr, Str(row.name));
      } else if t == 4 || t == 5 {
        arr := Push(arr, Arr(row.record));
      }
      i := i + 1;
    }
    assert rows[..i] == rows;
  }

  /** Every shape is a well-formed PHP array: no key twice. */
  lemma {:induction false} ShapeDistinct(t: int, rows: seq<Row>)
    ensures DistinctKeys(Shape(t, rows))
  {
    if |rows| > 0 {
      var prev := Shape(t, rows[..|rows| - 1]);
      var row := rows[|rows| - 1];
      ShapeDistinct(t, rows[..|rows| - 1]);
      if t == 0 {
        PutDistinct(prev, SKey(row.name), Int(row.id));
      } else if t == 1 {
        PutDistinct(prev, IKey(row.id), Str(row.name));
      } else if t == 2 {
        PutDistinct(prev, SKey(row.name), Arr([]));
      }
    }
  }

  /** Types 3 to 5 give a list with one entry per row, in row order. */
  lemma {:induction false} ListShapes(t: int, rows: seq<Row>)
    requires 3 <= t <= 5
    ensures IsList(Shape(t, rows)) && |Shape(t, rows)| == |rows|
    ensures forall i :: 0 <= i < |rows| ==> Shape(t, rows)[i].1 == ListValue(t, rows[i])
  {
    if |rows| > 0 {
      var p := rows[..|rows| - 1];
      var last := rows[|rows| - 1];
      var sp := Shape(t, p);
      ListShapes(t, p);
      PushOntoList(sp, ListValue(t, last));
      var r := Shape(t, rows);
      ListStep(t, rows);
      assert r == sp + [(IKey(|sp|), ListValue(t, last))];
      forall i | 0 <= i < |rows| ensures r[i].1 == ListValue(t, rows[i]) {
        if i < |p| {
          assert r[i] == sp[i] && rows[i] == p[i];
        }
      }
    }
  }

  /** For types 3 to 5 each fetched row is pushed. */
  lemma ListStep(t: int, rows: seq<Row>)
    requires 3 <= t <= 5 && |rows| > 0
    ensures Shape(t, rows) == Push(Shape(t, rows[..|rows| - 1]), ListValue(t, rows[|rows| - 1]))
  {
  }

  /** The value a list shape holds for a row: its name for type 3, the whole row otherwise. */
  function ListValue(t: int, row: Row): Val {
    if t == 3 then Str(row.name) else Arr(row.record)
  }

  /** The id of the last row with this name, if any. */
  function LastIdNamed(rows: seq<Row>, name: string): Option<int> {
    if |rows| == 0 then None
    else if rows[|rows| - 1].name == name then Some(rows[|rows| - 1].id)
    else LastIdNamed(rows[..|rows| - 1], name)
  }

  /** Type 0: a name maps to the id of its last row; names not fetched are unset. */
  lemma {:induction false} NameMapsToLastId(rows: seq<Row>, name: string)
    ensures LastIdNamed(rows, name).None? ==> Lookup(Shape(0, rows), SKey(name)).None?
    ensures LastIdNamed(rows, name).Some? ==>
      Lookup(Shape(0, rows), SKey(name)) == Some(Int(LastIdNamed(rows, name).value))
  {
    if |rows| > 0 {
      var p := rows[..|rows| - 1];
      var row := rows[|rows| - 1];
      NameMapsToLastId(p, name);
      PutLookup(Shape(0, p), SKey(row.name), Int(row.id), SKey(name));
    }
  }

  /** The status types a session may see: type 1 only for a user of type 1, else types 1 and 0. */
  function StatusTypes(userType: Option<int>): (ts: seq<int>)
    ensures 1 in ts
    ensures 0 in ts <==> userType != Some(1)
  {
    if userType == Some(1) then [1] else [1, 0]
  }

  /**
   * `getAllStatus`: the type must be one of the integers 0 to 3 (a strict
   * check, so "0" or 0.0 is refused); a failed query gives [] too.
   */
  method GetAllStatus(typ: Val, userType: Option<int>, statuses: seq<int> -> Option<seq<Row>>)
    returns (arr: PArray)
    ensures !(typ.Int? && 0 <= typ.i <= 3) ==> arr == []
    ensures typ.Int? && 0 <= typ.i <= 3 && statuses(StatusTypes(userType)).None? ==> arr == []
    ensures typ.Int? && 0 <= typ.i <= 3 && statuses(StatusTypes(userType)).Some? ==>
      arr == Shape(typ.i, statuses(StatusTypes(userType)).value)
  {
    if !(typ.Int? && typ.i in [0, 1, 2, 3]) {
      return [];
    }
    var result := statuses(StatusTypes(userType));
    if result.None? {
      return [];
    }
    arr := BuildShape(typ.i, result.value);
  }

  /** Which users the assignment query reads. */
  datatype UserQuery = AssignedTo(manager: Option<int>) | AllUsers

  /** Type 5 reads every user; the others read active assignments, of this manager when the id is truthy. */
  function QueryFor(t: int, userId: Option<int>): (q: UserQuery)
    ensures q.AllUsers? <==> t == 5
    ensures t != 5 ==> (q.manager.Some? <==> userId.Some? && userId.value != 0)
  {
    if t != 5 then AssignedTo(if userId.Some? && userId.value != 0 then userId else None)
    else AllUsers
  }

  /** `getAssignedUsers`: [] for a non-manager, a type outside the integers 0 to 5, or a failed query. */
  method GetAssignedUsers(session: SessionData, typ: Val, query: UserQuery -> Option<seq<Row>>)
    returns (arr: PArray)
    ensures !IsManager(session) ==> arr == []
    ensures !(typ.Int? && 0 <= typ.i <= 5) ==> arr == []
    ensures IsManager(session) && typ.Int? && 0 <= typ.i <= 5 ==>
      var result := query(QueryFor(typ.i, GetCurrentUserId(session)));
      (result.None? ==> arr == []) && (result.Some? ==> arr == Shape(typ.i, result.value))
  {
    if !IsManager(session) {
      return [];
    }
    if !(typ.Int? && typ.i in [0, 1, 2, 3, 4, 5]) {
      return [];
    }
    var result := query(QueryFor(typ.i, GetCurrentUserId(session)));
    if result.None? {
      return [];
    }
    arr := BuildShape(typ.i, result.value);
  }

  // ---------------------------------------------------------------------------
  // assignUser

  /** The `user_assign` table, as its (user, manager) pairs in insertion order. */
  class AssignTable {
    var pairs: seq<(int, int)>

    constructor (initial: seq<(int, int)>)
      ensures pairs == initial
    {
      pairs := initial;
    }
  }

  /** `Aborted`: the request died on an uncaught exception before any message was set. */
  datatype AssignOutcome = Missing | AlreadyAssigned | Assigned | InsertFailed | Aborted

  /** A prepared statement's pieces: literal SQL text, or a `?` placeholder. */
  datatype SqlPart = SqlText(text: string) | Placeholder

  /** The INSERT `assignUser` prepares, and the types string it binds to it. */
  const InsertSql := [SqlText("INSERT INTO user_assign (user_id, manager_id, assign_date, status) VALUES ("),
                      Placeholder, SqlText(", "), Placeholder, SqlText(", NOW(), 1)")]
  const InsertTypes := "iii"

  /** The number of placeholders in a statement. */
  function Placeholders(sql: seq<SqlPart>): (n: nat)
    ensures n <= |sql|
  {
    if |sql| == 0 then 0 else Placeholders(sql[..|sql| - 1]) + (if sql[|sql| - 1].Placeholder? then 1 else 0)
  }

  /** The statement has two placeholders but three variables are bound to it. */
  lemma InsertBindingMismatch()
    ensures Placeholders(InsertSql) == 2 && |InsertTypes| == 3
  {
    var s := InsertSql;
    assert s[..4][..3] == s[..3] && s[..3][..2] == s[..2] && s[..2][..1] == s[..1] && s[..1][..0] == [];
    assert Placeholders(s[..2]) == 1;
    assert Placeholders(s[..4]) == 2;
  }

  /**
   * What `assignUser` does as written: refuse a zero id, keep an existing
   * pair, else bind three variables to the two-placeholder INSERT. PHP 8
   * throws at the binding; earlier versions only warn, and the execute
   * then fails. The assignment never succeeds.
   */
  function AssignDecisionAsWritten(pairs: seq<(int, int)>, userId: int, managerId: int, php8: bool): (o: AssignOutcome)
    ensures o.Missing? <==> userId == 0 || managerId == 0
    ensures o.AlreadyAssigned? <==> userId != 0 && managerId != 0 && (userId, managerId) in pairs
    ensures !o.Assigned?
    ensures userId != 0 && managerId != 0 && (userId, managerId) !in pairs ==>
      o == (if php8 then Aborted else InsertFailed)
  {
    InsertBindingMismatch();
    if userId == 0 || managerId == 0 then Missing
    else if (userId, managerId) in pairs then AlreadyAssigned
    else if Placeholders(InsertSql) != |InsertTypes| then (if php8 then Aborted else InsertFailed)
    else Assigned
  }

  /**
   * What `assignUser` evidently intends: a binding that matches the
   * statement, so the insert goes through unless the database refuses it
   * (`insertOk`).
   */
  function AssignDecision(pairs: seq<(int, int)>, userId: int, managerId: int, insertOk: bool): (o: AssignOutcome)
    ensures o.Missing? <==> userId == 0 || managerId == 0
    ensures o.AlreadyAssigned? <==> userId != 0 && managerId != 0 && (userId, managerId) in pairs
    ensures o.Assigned? <==> userId != 0 && managerId != 0 && (userId, managerId) !in pairs && insertOk
    ensures !o.Aborted?
  {
    if userId == 0 || managerId == 0 then Missing
    else if (userId, managerId) in pairs then AlreadyAssigned
    else if insertOk then Assigned
    else InsertFailed
  }

  /** A fresh pair with non-zero ids, which the corrected call assigns, is never assigned as written. */
  lemma AssignNeverSucceeds(pairs: seq<(int, int)>, userId: int, managerId: int, php8: bool)
    requires userId != 0 && managerId != 0 && (userId, managerId) !in pairs
    ensures AssignDecision(pairs, userId, managerId, true) == Assigned
    ensures AssignDecisionAsWritten(pairs, userId, managerId, php8) != Assigned
  {
  }

  /** The table after the intended call. */
  function AssignedPairs(pairs: seq<(int, int)>, userId: int, managerId: int, insertOk: bool): seq<(int, int)> {
    if AssignDecision(pairs, userId, managerId, insertOk).Assigned? then pairs + [(userId, managerId)] else pairs
  }

  /** The flash message the call leaves in the session; none when it aborted. */
  function AssignMessage(o: AssignOutcome): string {
    match o
    case Missing => "User or manager information missing."
    case AlreadyAssigned => "User is already assigned."
    case Assigned => "User created and assigned successfully."
    case InsertFailed => "User created but assignment failed."
    case Aborted => ""
  }

  /** The session after the call: the message goes to `success_msg` on success, else to `error_msg`. */
  function AssignSession(s: SessionData, o: AssignOutcome): SessionData {
    if o.Assigned? then s.(successMsg := Some(AssignMessage(o)))
    else if o.Aborted? then s
    else s.(errorMsg := Some(AssignMessage(o)))
  }

  /** The manager id `assignUser` uses: the session's user id, or 0. */
  function ManagerId(s: SessionData): int {
    s.userId.GetOr(0)
  }

  /**
   * `assignUser($user_id)` as written, on PHP 8 or earlier (`php8`): the
   * pair is inserted only if the binding matched the statement, which it
   * does not, so the table never changes.
   */
  method AssignUser(table: AssignTable, session: SessionStore, userId: int, php8: bool)
    modifies table, session
    ensures table.pairs == old(table.pairs)
    ensures session.data ==
      AssignSession(old(session.data), AssignDecisionAsWritten(old(table.pairs), userId, ManagerId(old(session.data)), php8))
  {
    var managerId := if session.data.userId.Some? then session.data.userId.value else 0;
    if userId == 0 || managerId == 0 {
      session.data := session.data.(errorMsg := Some("User or manager information missing."));
      return;
    }
    if (userId, managerId) !in table.pairs {
      // Binding `InsertTypes` to `InsertSql` fails (InsertBindingMismatch): PHP 8 throws, and
      // before it the execute fails, so the insert and the success message are never reached.
      if !php8 {
        session.data := session.data.(errorMsg := Some("User created but assignment failed."));
      }
    } else {
      session.data := session.data.(errorMsg := Some("User is already assigned."));
    }
  }

  /** The corrected `assignUser`: `insertOk` is whether the INSERT succeeds. */
  method AssignUserIntended(table: AssignTable, session: SessionStore, userId: int, insertOk: bool)
    modifies table, session
    ensures var o := AssignDecision(old(table.pairs), userId, ManagerId(old(session.data)), insertOk);
      table.pairs == AssignedPairs(old(table.pairs), userId, ManagerId(old(session.data)), insertOk)
      && session.data == AssignSession(old(session.data), o)
  {
    var managerId := if session.data.userId.Some? then session.data.userId.value else 0;
    if userId == 0 || managerId == 0 {
      session.data := session.data.(errorMsg := Some("User or manager information missing."));
      return;
    }
    if (userId, managerId) !in table.pairs {
      if insertOk {
        table.pairs := table.pairs + [(userId, managerId)];
        session.data := session.data.(successMsg := Some("User created and assigned successfully."));
      } else {
        session.data := session.data.(errorMsg := Some("User created but assignment failed."));
      }
    } else {
      session.data := session.data.(errorMsg := Some("User is already assigned."));
    }
  }

  predicate NoDuplicates(pairs: seq<(int, int)>) {
    forall i, j :: 0 <= i < j < |pairs| ==> pairs[i] != pairs[j]
  }

  /**
   * Assigning keeps the table free of duplicates, and repeating an
   * assignment that did not fail changes nothing more.
   */
  lemma AssignIdempotent(pairs: seq<(int, int)>, userId: int, managerId: int, ok1: bool, ok2: bool)
    requires NoDuplicates(pairs)
    ensures NoDuplicates(AssignedPairs(pairs, userId, managerId, ok1))
    ensures !AssignDecision(pairs, userId, managerId, ok1).InsertFailed? ==>
      var once := AssignedPairs(pairs, userId, managerId, ok1);
      AssignedPairs(once, userId, managerId, ok2) == once
    ensures AssignDecision(pairs, userId, managerId, ok1).Assigned? ==>
      AssignDecision(AssignedPairs(pairs, userId, managerId, ok1), userId, managerId, ok2).AlreadyAssigned?
  {
    var once := AssignedPairs(pairs, userId, managerId, ok1);
    if AssignDecision(pairs, userId, managerId, ok1).Assigned? {
      assert once[|pairs|] == (userId, managerId);
      assert (userId, managerId) in once;
    }
  }

  // ---------------------------------------------------------------------------
  // verify_task_to_send_mail

  /** The mail statuses the lookup accepts: 0, and 1 too when `type == 1`. */
  function MailStatuses(typ: int): (ms: seq<int>)
    ensures 0 in ms
    ensures 1 in ms <==> typ == 1
  {
    if typ == 1 then [0, 1] else [0]
  }

  /** `if ($row)`: a fetched row that is a non-empty array. */
  predicate RowFound(row: Option<PArray>) {
    row.Some? && Php.Truthy(Arr(row.value))
  }

  /**
   * `verify_task_to_send_mail`: `find` is the task query for an id and the
   * accepted mail statuses (at most one row). A falsy id is refused under
   * the key 'success', while every other answer uses 'status'.
   */
  function VerifyTaskToSendMail(taskId: int, typ: int, find: (int, seq<int>) -> Option<PArray>): (r: PArray)
    ensures taskId == 0 ==> r == [(SKey("success"), Int(0)), (SKey("mes"), Str("Invalid task ID"))]
    ensures taskId != 0 ==> Lookup(r, SKey("status")).Some? && Lookup(r, SKey("success")).None?
    ensures taskId != 0 ==>
      var row := find(taskId, MailStatuses(typ));
      (Lookup(r, SKey("status")) == Some(Int(0)) <==>
        RowFound(row) && !Php.Truthy(Lookup(row.value, SKey("branch")).GetOr(Null)))
    ensures taskId != 0 && Lookup(r, SKey("status")) == Some(Int(1)) ==>
      var row := find(taskId, MailStatuses(typ));
      Lookup(r, SKey("data")) == Some(Arr(if RowFound(row) then row.value else []))
    ensures taskId != 0 ==>
      var row := find(taskId, MailStatuses(typ));
      (RowFound(row) && Php.Truthy(Lookup(row.value, SKey("branch")).GetOr(Null)) ==>
         r == [(SKey("status"), Int(1)), (SKey("data"), Arr(row.value))])
      && (RowFound(row) && !Php.Truthy(Lookup(row.value, SKey("branch")).GetOr(Null)) ==>
         r == [(SKey("status"), Int(0)), (SKey("mes"), Str("Branch Not Found"))])
      && (!RowFound(row) ==> r == [(SKey("status"), Int(1)), (SKey("data"), Arr([]))])
  {
    if taskId == 0 then [(SKey("success"), Int(0)), (SKey("mes"), Str("Invalid task ID"))]
    else
      var row := find(taskId, MailStatuses(typ));
      if RowFound(row) then
        if Php.Truthy(Lookup(row.value, SKey("branch")).GetOr(Null)) then
          [(SKey("status"), Int(1)), (SKey("data"), Arr(row.value))]
        else [(SKey("status"), Int(0)), (SKey("mes"), Str("Branch Not Found"))]
      else [(SKey("status"), Int(1)), (SKey("data"), Arr([]))]
  }

  /** A caller that tests 'status' cannot tell a missing task (empty data) from a mailable one without reading 'data'. */
  lemma MissingTaskLooksEligible(taskId: int, typ: int, find: (int, seq<int>) -> Option<PArray>)
    requires taskId != 0 && find(taskId, MailStatuses(typ)).None?
    ensures Lookup(VerifyTaskToSendMail(taskId, typ, find), SKey("status")) == Some(Int(1))
    ensures Lookup(VerifyTaskToSendMail(taskId, typ, find), SKey("data")) == Some(Arr([]))
  {
  }
}
