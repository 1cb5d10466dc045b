/** The block of structured state a compaction summary ends with, and how the next compaction reads it
    back (internal/agent/compaction_preserve.go). */
module PreservedState {
  import opened Text
  import opened Json
  import opened Markers
  import opened RecentEdits

  const LABEL := "## Preserved state " + "(active plan + loaded " + "skills; carried across " + "compaction)"

  datatype Task = Task(objective: string, status: string, pending: nat, inProgress: nat, completed: nat,
                       failed: nat, passed: nat, notPassed: nat, outcome: string)

  datatype State = State(plan: string, task: Option<Task>, edits: seq<Entry>, tools: seq<Entry>,
                         skills: seq<Entry>, instructions: seq<Entry>)

  const ZERO_TASK := Task("", "", 0, 0, 0, 0, 0, 0, "")
  const EMPTY := State("", None, [], [], [], [])

  /* The JSON shape of the state. */

  function Given(present: bool, key: string, value: Json, tail: Fields): Fields {
    if present then Field(key, value, tail) else tail
  }

  /** How the two strings of an entry are called, and whether an empty body is left out. */
  datatype Shape = Shape(name: string, body: string, omitEmpty: bool)

  const EDIT := Shape("path", "note", true)
  const NAMED := Shape("name", "body", false)
  const INSTRUCTION := Shape("source", "body", false)

  function EntryJson(sh: Shape, e: Entry): Json {
    Object(Field(sh.name, Text(e.name), Given(!sh.omitEmpty || e.body != "", sh.body, Text(e.body), NoFields)))
  }

  function EntriesJson(sh: Shape, entries: seq<Entry>): Items {
    if entries == [] then NoItems else Item(EntryJson(sh, entries[0]), EntriesJson(sh, entries[1..]))
  }

  function TaskJson(t: Task): Fields {
    Given(true, "objective", Text(t.objective),
    Given(t.status != "", "status", Text(t.status),
    Given(t.pending != 0, "pending", Number(t.pending),
    Given(t.inProgress != 0, "in_progress", Number(t.inProgress),
    Given(t.completed != 0, "completed", Number(t.completed),
    Given(t.failed != 0, "failed", Number(t.failed),
    Given(t.passed != 0, "verification_passed", Number(t.passed),
    Given(t.notPassed != 0, "verification_failed", Number(t.notPassed),
    Given(t.outcome != "", "verification_outcome", Text(t.outcome), NoFields)))))))))
  }

  function OptionalTask(task: Option<Task>): Json {
    Object(if task.Some? then TaskJson(task.value) else NoFields)
  }

  function ToJson(st: State): Fields {
    Given(st.plan != "", "plan", Text(st.plan),
    Given(st.task.Some?, "task", OptionalTask(st.task),
    Given(st.edits != [], "recent_edits", Array(EntriesJson(EDIT, st.edits)),
    Given(st.tools != [], "tools", Array(EntriesJson(NAMED, st.tools)),
    Given(st.skills != [], "skills", Array(EntriesJson(NAMED, st.skills)),
    Given(st.instructions != [], "project_instructions", Array(EntriesJson(INSTRUCTION, st.instructions)),
          NoFields))))))
  }

  /* Reading the shape: each field in turn is put into the value so far; unknown fields are skipped and a
     value of another kind is an error. */

  function SetEntry(sh: Shape, e: Entry, key: string, value: Json): Option<Entry> {
    if key != sh.name && key != sh.body then Some(e)
    else if !value.Text? then None
    else if key == sh.name then Some(e.(name := value.text))
    else Some(e.(body := value.text))
  }

  function ReadEntry(sh: Shape, fields: Fields, e: Entry): Option<Entry> {
    match fields
    case NoFields => Some(e)
    case Field(key, value, tail) =>
      match SetEntry(sh, e, key, value)
      case None => None
      case Some(next) => ReadEntry(sh, tail, next)
  }

  function ReadEntries(sh: Shape, items: Items): Option<seq<Entry>> {
    match items
    case NoItems => Some([])
    case Item(head, tail) =>
      if !head.Object? then None
      else
        match ReadEntry(sh, head.fields, Entry("", ""))
        case None => None
        case Some(e) =>
          match ReadEntries(sh, tail)
          case None => None
          case Some(rest) => Some([e] + rest)
  }

  function SetTaskText(t: Task, key: string, s: string): Option<Task> {
    if key == "objective" then Some(t.(objective := s))
    else if key == "status" then Some(t.(status := s))
    else if key == "verification_outcome" then Some(t.(outcome := s))
    else if IsCounter(key) then None
    else Some(t)
  }

  function SetTaskNumber(t: Task, key: string, n: nat): Option<Task> {
    if key == "pending" then Some(t.(pending := n))
    else if key == "in_progress" then Some(t.(inProgress := n))
    else if key == "completed" then Some(t.(completed := n))
    else if key == "failed" then Some(t.(failed := n))
    else if key == "verification_passed" then Some(t.(passed := n))
    else if key == "verification_failed" then Some(t.(notPassed := n))
    else if IsTaskText(key) then None
    else Some(t)
  }

  predicate IsTaskText(key: string) { key == "objective" || key == "status" || key == "verification_outcome" }

  predicate IsCounter(key: string) {
    || key == "pending" || key == "in_progress" || key == "completed" || key == "failed"
    || key == "verification_passed" || key == "verification_failed"
  }

  function SetTask(t: Task, key: string, value: Json): Option<Task> {
    match value
    case Text(s) => SetTaskText(t, key, s)
    case Number(n) => SetTaskNumber(t, key, n)
    case _ => if IsTaskText(key) || IsCounter(key) then None else Some(t)
  }

  function ReadTask(fields: Fields, t: Task): Option<Task> {
    match fields
    case NoFields => Some(t)
    case Field(key, value, tail) =>
      match SetTask(t, key, value)
      case None => None
      case Some(next) => ReadTask(tail, next)
  }

  function SetState(st: State, key: string, value: Json): Option<State> {
    if key == "plan" then if value.Text? then Some(st.(plan := value.text)) else None
    else if key == "task" then
      if !value.Object? then None
      else
        match ReadTask(value.fields, if st.task.Some? then st.task.value else ZERO_TASK)
        case None => None
        case Some(t) => Some(st.(task := Some(t)))
    else if key == "recent_edits" then
      match ReadList(EDIT, value) case None => None case Some(es) => Some(st.(edits := es))
    else if key == "tools" then
      match ReadList(NAMED, value) case None => None case Some(es) => Some(st.(tools := es))
    else if key == "skills" then
      match ReadList(NAMED, value) case None => None case Some(es) => Some(st.(skills := es))
    else if key == "project_instructions" then
      match ReadList(INSTRUCTION, value) case None => None case Some(es) => Some(st.(instructions := es))
    else Some(st)
  }

  function ReadList(sh: Shape, value: Json): Option<seq<Entry>> {
    if value.Array? then ReadEntries(sh, value.items) else None
  }

  function ReadState(fields: Fields, st: State): Option<State> {
    match fields
    case NoFields => Some(st)
    case Field(key, value, tail) =>
      match SetState(st, key, value)
      case None => None
      case Some(next) => ReadState(tail, next)
  }

  function Unmarshal(s: string): State {
    var r := ReadValue(s);
    if r.None? || r.value.1 != "" || !r.value.0.Object? then EMPTY
    else
      match ReadState(r.value.0.fields, EMPTY)
      case None => EMPTY
      case Some(st) => st
  }

  /* The block. */

  function Encoded(st: State): string { Print(Object(ToJson(st))) }

  /** formatPreservedState. */
  function Format(st: State): string {
    if st == EMPTY then "" else LABEL + ("\n" + Encoded(st))
  }

  /** What compaction appends to the labelled prose of the summary. */
  function Append(summary: string, st: State): string {
    if Format(st) == "" then summary else summary + ("\n\n" + Format(st))
  }

  function FirstLine(s: string): string
    decreases |s|
  {
    if s == "" || s[0] == '\n' then "" else [s[0]] + FirstLine(s[1..])
  }

  /** parsePreservedStateBlock. */
  function ParseBlock(content: string): State {
    var i := LastIndex(content, LABEL);
    if i < 0 then EMPTY
    else
      var rest := content[i + |LABEL|..];
      Unmarshal(TrimSpace(FirstLine(if Begins(rest, '\n') then rest[1..] else rest)))
  }

  /* Reading back. */

  lemma {:induction false} EntryReads(sh: Shape, e: Entry)
    requires sh.name != sh.body
    ensures EntryJson(sh, e).Object? && ReadEntry(sh, EntryJson(sh, e).fields, Entry("", "")) == Some(e)
  {
    var second := Given(!sh.omitEmpty || e.body != "", sh.body, Text(e.body), NoFields);
    assert ReadEntry(sh, EntryJson(sh, e).fields, Entry("", "")) == ReadEntry(sh, second, Entry(e.name, ""));
    assert ReadEntry(sh, NoFields, e) == Some(e);
  }

  lemma {:induction false} EntriesRead(sh: Shape, entries: seq<Entry>)
    requires sh.name != sh.body
    ensures ReadEntries(sh, EntriesJson(sh, entries)) == Some(entries)
  {
    if entries != [] {
      EntryReads(sh, entries[0]);
      EntriesRead(sh, entries[1..]);
      assert [entries[0]] + entries[1..] == entries;
    }
  }

  lemma TaskStep(present: bool, key: string, value: Json, tail: Fields, t: Task, next: Task)
    requires SetTask(t, key, value) == Some(next) && (present || t == next)
    ensures ReadTask(Given(present, key, value, tail), t) == ReadTask(tail, next)
  {
  }

  lemma TaskKeysDiffer()
    ensures !IsTaskText("pending") && !IsTaskText("in_progress") && !IsTaskText("completed") && !IsTaskText("failed")
    ensures !IsTaskText("verification_passed") && !IsTaskText("verification_failed")
    ensures "completed" != "pending" && "completed" != "in_progress"
    ensures "failed" != "pending" && "failed" != "in_progress" && "failed" != "completed"
    ensures var k := "verification_passed"; k != "pending" && k != "in_progress" && k != "completed" && k != "failed"
    ensures var k := "verification_failed"; k != "pending" && k != "in_progress" && k != "completed" && k != "failed"
    ensures "verification_passed" != "verification_failed" && "in_progress" != "pending"
    ensures "status" != "objective" && "verification_outcome" != "objective" && "verification_outcome" != "status"
  {
    assert "completed"[0] == 'c' && "objective"[0] == 'o';
    assert "status"[0] == 's' && "failed"[0] == 'f';
    assert "verification_passed"[13] == 'p' && "verification_failed"[13] == 'f';
  }

  lemma TaskReads(t: Task)
    ensures ReadTask(TaskJson(t), ZERO_TASK) == Some(t)
  {
    hide Given, ReadTask;
    TaskKeysDiffer();
    var f9 := Given(t.outcome != "", "verification_outcome", Text(t.outcome), NoFields);
    var f8 := Given(t.notPassed != 0, "verification_failed", Number(t.notPassed), f9);
    var f7 := Given(t.passed != 0, "verification_passed", Number(t.passed), f8);
    var f6 := Given(t.failed != 0, "failed", Number(t.failed), f7);
    var f5 := Given(t.completed != 0, "completed", Number(t.completed), f6);
    var f4 := Given(t.inProgress != 0, "in_progress", Number(t.inProgress), f5);
    var f3 := Given(t.pending != 0, "pending", Number(t.pending), f4);
    var f2 := Given(t.status != "", "status", Text(t.status), f3);
    var t1 := ZERO_TASK.(objective := t.objective);
    var t2 := t1.(status := t.status);
    var t3 := t2.(pending := t.pending);
    var t4 := t3.(inProgress := t.inProgress);
    var t5 := t4.(completed := t.completed);
    var t6 := t5.(failed := t.failed);
    var t7 := t6.(passed := t.passed);
    var t8 := t7.(notPassed := t.notPassed);
    TaskStep(true, "objective", Text(t.objective), f2, ZERO_TASK, t1);
    TaskStep(t.status != "", "status", Text(t.status), f3, t1, t2);
    TaskStep(t.pending != 0, "pending", Number(t.pending), f4, t2, t3);
    TaskStep(t.inProgress != 0, "in_progress", Number(t.inProgress), f5, t3, t4);
    TaskStep(t.completed != 0, "completed", Number(t.completed), f6, t4, t5);
    TaskStep(t.failed != 0, "failed", Number(t.failed), f7, t5, t6);
    TaskStep(t.passed != 0, "verification_passed", Number(t.passed), f8, t6, t7);
    TaskStep(t.notPassed != 0, "verification_failed", Number(t.notPassed), f9, t7, t8);
    TaskStep(t.outcome != "", "verification_outcome", Text(t.outcome), NoFields, t8, t);
    NoMoreTask(t);
  }

  lemma NoMoreTask(t: Task)
    ensures ReadTask(NoFields, t) == Some(t)
  {
  }

  lemma StateStep(present: bool, key: string, value: Json, tail: Fields, st: State, next: State)
    requires present ==> SetState(st, key, value) == Some(next)
    requires !present ==> st == next
    ensures ReadState(Given(present, key, value, tail), st) == ReadState(tail, next)
  {
  }

  lemma StateKeysDiffer()
    ensures "task" != "plan" && "recent_edits" != "plan" && "recent_edits" != "task"
    ensures "tools" != "plan" && "tools" != "task" && "tools" != "recent_edits"
    ensures "skills" != "plan" && "skills" != "task" && "skills" != "recent_edits" && "skills" != "tools"
    ensures var k := "project_instructions";
      k != "plan" && k != "task" && k != "recent_edits" && k != "tools" && k != "skills"
    ensures NAMED.name != NAMED.body && EDIT.name != EDIT.body && INSTRUCTION.name != INSTRUCTION.body
  {
    assert "task"[0] == 't' && "plan"[0] == 'p';
    assert "name"[0] == 'n' && "body"[0] == 'b' && "path"[0] == 'p' && "note"[0] == 'n';
  }

  /** What is formatted is what is read, field by field. */
  lemma StateReads(st: State)
    ensures ReadState(ToJson(st), EMPTY) == Some(st)
  {
    hide Given, ReadState, ReadTask, TaskJson, EntriesJson, ReadEntries;
    StateKeysDiffer();
    EntriesRead(EDIT, st.edits);
    EntriesRead(NAMED, st.tools);
    EntriesRead(NAMED, st.skills);
    EntriesRead(INSTRUCTION, st.instructions);
    if st.task.Some? {
      TaskReads(st.task.value);
    }
    var instructions := Array(EntriesJson(INSTRUCTION, st.instructions));
    var f6 := Given(st.instructions != [], "project_instructions", instructions, NoFields);
    var f5 := Given(st.skills != [], "skills", Array(EntriesJson(NAMED, st.skills)), f6);
    var f4 := Given(st.tools != [], "tools", Array(EntriesJson(NAMED, st.tools)), f5);
    var f3 := Given(st.edits != [], "recent_edits", Array(EntriesJson(EDIT, st.edits)), f4);
    var f2 := Given(st.task.Some?, "task", OptionalTask(st.task), f3);
    var s1 := EMPTY.(plan := st.plan);
    var s2 := s1.(task := st.task);
    var s3 := s2.(edits := st.edits);
    var s4 := s3.(tools := st.tools);
    var s5 := s4.(skills := st.skills);
    StateStep(st.plan != "", "plan", Text(st.plan), f2, EMPTY, s1);
    StateStep(st.task.Some?, "task", OptionalTask(st.task), f3, s1, s2);
    StateStep(st.edits != [], "recent_edits", Array(EntriesJson(EDIT, st.edits)), f4, s2, s3);
    StateStep(st.tools != [], "tools", Array(EntriesJson(NAMED, st.tools)), f5, s3, s4);
    StateStep(st.skills != [], "skills", Array(EntriesJson(NAMED, st.skills)), f6, s4, s5);
    StateStep(st.instructions != [], "project_instructions", instructions, NoFields, s5, st);
    NoMoreState(st);
  }

  lemma NoMoreState(st: State)
    ensures ReadState(NoFields, st) == Some(st)
  {
  }

  lemma EncodedReads(st: State)
    ensures Unmarshal(Encoded(st)) == st
  {
    hide Print, ReadValue, ToJson, ReadState;
    var j := Object(ToJson(st));
    ValueReads(j, "");
    assert Print(j) + "" == Print(j);
    StateReads(st);
  }

  /* Strings the state carries. */

  ghost predicate CarriesIn(entries: seq<Entry>, m: string) {
    exists e :: e in entries && (Contains(e.name, m) || Contains(e.body, m))
  }

  ghost predicate TaskCarries(task: Option<Task>, m: string) {
    task.Some?
      && (Contains(task.value.objective, m) || Contains(task.value.status, m) || Contains(task.value.outcome, m))
  }

  /** Some string of the state holds the marker. */
  ghost predicate Carries(st: State, m: string) {
    || Contains(st.plan, m) || TaskCarries(st.task, m)
    || CarriesIn(st.edits, m) || CarriesIn(st.tools, m) || CarriesIn(st.skills, m) || CarriesIn(st.instructions, m)
  }

  lemma LabelStart()
    ensures AllVerbatim("## Preserved state ")
  {
  }

  lemma LabelHead()
    ensures AllVerbatim("(active plan + loaded ")
  {
  }

  lemma LabelTail()
    ensures AllVerbatim("skills; carried across ")
  {
  }

  lemma LabelEnd()
    ensures AllVerbatim("compaction)")
  {
  }

  lemma LabelIsMarker()
    ensures Marker(LABEL) && '\n' !in LABEL && |LABEL| == 75
  {
    hide Verbatim;
    LabelStart();
    LabelHead();
    LabelTail();
    LabelEnd();
    NoNewline(LABEL);
  }

  lemma NoNewline(s: string)
    requires AllVerbatim(s)
    ensures '\n' !in s
  {
  }

  lemma KeysHoldNoLabel(key: string)
    requires Marker(LABEL) && |key| < |LABEL|
    ensures !Contains(key, LABEL)
  {
  }

  lemma GivenHolds(present: bool, key: string, value: Json, tail: Fields)
    requires Marker(LABEL) && |key| < |LABEL|
    ensures HoldsFields(Given(present, key, value, tail), LABEL)
       <==> (present && Holds(value, LABEL)) || HoldsFields(tail, LABEL)
  {
    hide Contains, Marker;
    KeysHoldNoLabel(key);
  }

  lemma {:induction false} EntriesHold(sh: Shape, entries: seq<Entry>)
    requires Marker(LABEL) && |sh.name| < |LABEL| && |sh.body| < |LABEL|
    ensures HoldsItems(EntriesJson(sh, entries), LABEL) <==> CarriesIn(entries, LABEL)
  {
    hide Contains, Marker;
    if entries != [] {
      EntriesHold(sh, entries[1..]);
      EntryHolds(sh, entries[0]);
      assert entries == [entries[0]] + entries[1..];
      assert CarriesIn(entries, LABEL) <==> CarriesIn([entries[0]], LABEL) || CarriesIn(entries[1..], LABEL);
    }
  }

  lemma EntryHolds(sh: Shape, e: Entry)
    requires Marker(LABEL) && |sh.name| < |LABEL| && |sh.body| < |LABEL|
    ensures Holds(EntryJson(sh, e), LABEL) <==> CarriesIn([e], LABEL)
  {
    hide Contains, Marker;
    KeysHoldNoLabel(sh.name);
    KeysHoldNoLabel("");
    EmptyContainsNothing(LABEL);
    var second := Given(!sh.omitEmpty || e.body != "", sh.body, Text(e.body), NoFields);
    GivenHolds(!sh.omitEmpty || e.body != "", sh.body, Text(e.body), NoFields);
    assert HoldsFields(second, LABEL) <==> Contains(e.body, LABEL);
    assert HoldsFields(Field(sh.name, Text(e.name), second), LABEL)
      <==> Contains(e.name, LABEL) || Contains(e.body, LABEL);
    assert [e][0] == e;
  }

  lemma TaskHolds(t: Task)
    requires Marker(LABEL)
    ensures HoldsFields(TaskJson(t), LABEL) <==> TaskCarries(Some(t), LABEL)
  {
    hide Contains, Marker, Given;
    EmptyContainsNothing(LABEL);
    assert |LABEL| == 75;
    var f9 := Given(t.outcome != "", "verification_outcome", Text(t.outcome), NoFields);
    var f8 := Given(t.notPassed != 0, "verification_failed", Number(t.notPassed), f9);
    var f7 := Given(t.passed != 0, "verification_passed", Number(t.passed), f8);
    var f6 := Given(t.failed != 0, "failed", Number(t.failed), f7);
    var f5 := Given(t.completed != 0, "completed", Number(t.completed), f6);
    var f4 := Given(t.inProgress != 0, "in_progress", Number(t.inProgress), f5);
    var f3 := Given(t.pending != 0, "pending", Number(t.pending), f4);
    var f2 := Given(t.status != "", "status", Text(t.status), f3);
    GivenHolds(t.outcome != "", "verification_outcome", Text(t.outcome), NoFields);
    GivenHolds(t.notPassed != 0, "verification_failed", Number(t.notPassed), f9);
    GivenHolds(t.passed != 0, "verification_passed", Number(t.passed), f8);
    GivenHolds(t.failed != 0, "failed", Number(t.failed), f7);
    GivenHolds(t.completed != 0, "completed", Number(t.completed), f6);
    GivenHolds(t.inProgress != 0, "in_progress", Number(t.inProgress), f5);
    GivenHolds(t.pending != 0, "pending", Number(t.pending), f4);
    GivenHolds(t.status != "", "status", Text(t.status), f3);
    GivenHolds(true, "objective", Text(t.objective), f2);
  }

  /** The encoded state holds the label exactly when a string of the state does. */
  lemma EncodedHolds(st: State)
    ensures Contains(Encoded(st), LABEL) <==> Carries(st, LABEL)
  {
    hide Contains, Marker, Given, EntriesJson, TaskJson, CarriesIn, TaskCarries;
    LabelIsMarker();
    EmptyContainsNothing(LABEL);
    assert Holds(Object(ToJson(st)), LABEL) <==> HoldsFields(ToJson(st), LABEL);
    PrintContains(Object(ToJson(st)), LABEL);
    StateHolds(st);
  }

  lemma StateHolds(st: State)
    requires Marker(LABEL) && |LABEL| == 75
    ensures HoldsFields(ToJson(st), LABEL) <==> Carries(st, LABEL)
  {
    hide Contains, Marker, Given, EntriesJson, TaskJson;
    EmptyContainsNothing(LABEL);
    ShortShapes();
    EntriesHold(EDIT, st.edits);
    EntriesHold(NAMED, st.tools);
    EntriesHold(NAMED, st.skills);
    EntriesHold(INSTRUCTION, st.instructions);
    if st.task.Some? {
      TaskHolds(st.task.value);
    }
    var instructions := Array(EntriesJson(INSTRUCTION, st.instructions));
    var f6 := Given(st.instructions != [], "project_instructions", instructions, NoFields);
    var f5 := Given(st.skills != [], "skills", Array(EntriesJson(NAMED, st.skills)), f6);
    var f4 := Given(st.tools != [], "tools", Array(EntriesJson(NAMED, st.tools)), f5);
    var f3 := Given(st.edits != [], "recent_edits", Array(EntriesJson(EDIT, st.edits)), f4);
    var f2 := Given(st.task.Some?, "task", OptionalTask(st.task), f3);
    GivenHolds(st.instructions != [], "project_instructions", instructions, NoFields);
    GivenHolds(st.skills != [], "skills", Array(EntriesJson(NAMED, st.skills)), f6);
    GivenHolds(st.tools != [], "tools", Array(EntriesJson(NAMED, st.tools)), f5);
    GivenHolds(st.edits != [], "recent_edits", Array(EntriesJson(EDIT, st.edits)), f4);
    GivenHolds(st.task.Some?, "task", OptionalTask(st.task), f3);
    GivenHolds(st.plan != "", "plan", Text(st.plan), f2);
  }

  lemma ShortShapes()
    ensures forall sh | sh in [EDIT, NAMED, INSTRUCTION] :: |sh.name| < 75 && |sh.body| < 75
  {
    assert |"source"| == 6 && |"name"| == 4 && |"path"| == 4;
  }

  /* Finding the block in a summary. */

  lemma {:induction false} OneLine(s: string)
    requires '\n' !in s
    ensures FirstLine(s) == s
    decreases |s|
  {
    if s != "" {
      OneLine(s[1..]);
      assert [s[0]] + s[1..] == s;
    }
  }

  lemma LastIs(s: string, m: string, i: nat)
    requires At(s, m, i) && forall k: nat | i < k :: !At(s, m, k)
    ensures LastIndex(s, m) == i
  {
  }

  /** The label of the block stands at its place, and no other one begins before the JSON does. */
  lemma LabelInFront(front: string, json: string, i: nat)
    requires '\n' !in LABEL
    ensures var content := front + (LABEL + ("\n" + json));
      At(content, LABEL, |front|) && (|front| < i <= |front| + |LABEL| ==> !At(content, LABEL, i))
  {
    var block := LABEL + ("\n" + json);
    assert block[0..|LABEL|] == LABEL;
    AtSuffix(front, block, LABEL, 0);
    Covers(front + block, LABEL, i, |front| + |LABEL|);
  }

  lemma LabelBehind(front: string, json: string, i: nat)
    ensures At(front + (LABEL + ("\n" + json)), LABEL, |front| + |LABEL| + 1 + i) <==> At(json, LABEL, i)
  {
    var behind := front + LABEL + "\n";
    assert front + (LABEL + ("\n" + json)) == behind + json;
    AtSuffix(behind, json, LABEL, i);
  }

  /** The block a summary ends with is the last place the label can stand, unless its JSON holds the label. */
  lemma LabelIsLast(front: string, json: string)
    ensures var k := LastIndex(json, LABEL);
      LastIndex(front + (LABEL + ("\n" + json)), LABEL) == if k < 0 then |front| else |front| + |LABEL| + 1 + k
  {
    hide At;
    LabelIsMarker();
    var content := front + (LABEL + ("\n" + json));
    var k := LastIndex(json, LABEL);
    var behind := |front| + |LABEL| + 1;
    forall i: nat | i > (if k < 0 then |front| else behind + k) ensures !At(content, LABEL, i) {
      LabelInFront(front, json, i);
      if i >= behind {
        LabelBehind(front, json, i - behind);
      }
    }
    LabelInFront(front, json, 0);
    if k >= 0 {
      LabelBehind(front, json, k);
    }
    LastIs(content, LABEL, if k < 0 then |front| else behind + k);
  }

  lemma {:induction false} TrimLeftSkips(s: string)
    ensures exists n: nat :: n <= |s| && TrimLeft(s) == s[n..] && forall i | 0 <= i < n :: IsSpace(s[i])
    decreases |s|
  {
    if s != "" && IsSpace(s[0]) {
      TrimLeftSkips(s[1..]);
      var n: nat :| n <= |s[1..]| && TrimLeft(s[1..]) == s[1..][n..] && forall i | 0 <= i < n :: IsSpace(s[1..][i]);
      assert s[1..][n..] == s[n + 1..];
      assert forall i | 1 <= i < n + 1 :: s[i] == s[1..][i - 1];
      assert n + 1 <= |s| && TrimLeft(s) == s[n + 1..];
    } else {
      assert s[0..] == s;
    }
  }

  /** White space around a text that ends with another character: only its front can lose some. */
  lemma TrimSkips(s: string) returns (n: nat)
    requires s != "" && !IsSpace(s[|s| - 1])
    ensures n < |s| && TrimSpace(s) == s[n..] && forall i | 0 <= i < n :: IsSpace(s[i])
  {
    TrimLeftSkips(s);
    n :| n <= |s| && TrimLeft(s) == s[n..] && forall i | 0 <= i < n :: IsSpace(s[i]);
    assert n < |s|;
  }

  lemma EncodedFacts(st: State)
    ensures var s := Encoded(st);
      s != "" && s[0] == '{' && s[|s| - 1] == '}' && '\n' !in s
  {
    PrintOneLine(Object(ToJson(st)));
  }

  /** Behind a label inside a string of the JSON nothing can be read. */
  lemma LostBehindLabel(st: State, i: nat)
    requires At(Encoded(st), LABEL, i)
    ensures Unmarshal(TrimSpace(Encoded(st)[i + |LABEL|..])) == EMPTY
  {
    hide Print, ReadValue, ToJson, ReadState, Encoded, Pass, TrimSpace;
    LabelIsMarker();
    EncodedFacts(st);
    var rest := Encoded(st)[i + |LABEL|..];
    assert Encoded(st) == Print(Object(ToJson(st))) by { EncodedIsPrint(st); }
    UnreadableBehindMarker(Object(ToJson(st)), LABEL, i);
    assert rest != "" by { NoneAtEnd(st, i); }
    assert rest[|rest| - 1] == '}';
    var n := TrimSkips(rest);
    assert rest == rest[..n] + rest[n..];
    PassConcat(OUTSIDE, rest[..n], rest[n..]);
    PassNeutral(OUTSIDE, rest[..n]);
    if ReadValue(rest[n..]).Some? {
      ValueConsumed(rest[n..]);
      assert ReadValue(rest[n..]).value.1 == "" ==> Pass(OUTSIDE, rest[n..]) == Pass(OUTSIDE, "");
      assert Pass(OUTSIDE, "") == OUTSIDE by { PassNeutral(OUTSIDE, ""); }
    }
  }

  lemma EncodedIsPrint(st: State)
    ensures Encoded(st) == Print(Object(ToJson(st)))
  {
  }

  lemma NoneAtEnd(st: State, i: nat)
    requires At(Encoded(st), LABEL, i) && '}' !in LABEL
    ensures Encoded(st)[i + |LABEL|..] != ""
  {
    hide Print, ToJson;
    EncodedFacts(st);
    var s := Encoded(st);
    Covers(s, LABEL, i, |s| - 1);
  }

  lemma ReadsKept(front: string, st: State)
    requires !Carries(st, LABEL)
    ensures ParseBlock(front + (LABEL + ("\n" + Encoded(st)))) == st
  {
    hide Encoded, Contains, Carries, Unmarshal, TrimSpace, At;
    var json := Encoded(st);
    var content := front + (LABEL + ("\n" + json));
    LabelIsLast(front, json);
    EncodedHolds(st);
    EncodedFacts(st);
    assert content[|front| + |LABEL|..] == "\n" + json;
    assert ("\n" + json)[1..] == json;
    OneLine(json);
    TrimKeeps(json);
    EncodedReads(st);
  }

  lemma ReadsNothing(front: string, st: State)
    requires Carries(st, LABEL)
    ensures ParseBlock(front + (LABEL + ("\n" + Encoded(st)))) == EMPTY
  {
    hide Encoded, Contains, Carries, Unmarshal, TrimSpace, At;
    var json := Encoded(st);
    var content := front + (LABEL + ("\n" + json));
    LabelIsLast(front, json);
    EncodedHolds(st);
    EncodedFacts(st);
    var k := LastIndex(json, LABEL);
    assert k + |LABEL| <= |json| by { EndsInside(json, LABEL, k); }
    var rest := json[k + |LABEL|..];
    assert content[|front| + |LABEL| + 1 + k + |LABEL|..] == rest;
    assert '\n' !in rest;
    OneLine(rest);
    LostBehindLabel(st, k);
  }

  lemma EndsInside(s: string, m: string, i: nat)
    requires At(s, m, i)
    ensures i + |m| <= |s|
  {
  }

  /** What the next compaction reads from a summary with the formatted block behind any prose: exactly the
      state, unless a string of the state holds the label, and then nothing at all. */
  lemma ReadBack(prose: string, st: State)
    ensures ParseBlock(Append(prose, st))
         == if st == EMPTY then ParseBlock(prose) else if Carries(st, LABEL) then EMPTY else st
  {
    hide Encoded, Carries, ParseBlock;
    if st != EMPTY {
      var front := prose + "\n\n";
      assert Append(prose, st) == front + (LABEL + ("\n" + Encoded(st)));
      if Carries(st, LABEL) {
        ReadsNothing(front, st);
      } else {
        ReadsKept(front, st);
      }
    }
  }

  /** A plan that quotes the label makes the whole state unreadable. */
  lemma LabelInPlanLosesAll(prose: string, st: State)
    requires Contains(st.plan, LABEL)
    ensures ParseBlock(Append(prose, st)) == EMPTY
  {
    hide Append, ParseBlock;
    EmptyContainsNothing(LABEL);
    ReadBack(prose, st);
  }

  lemma TrimKeeps(s: string)
    requires s != "" && !IsSpace(s[0]) && !IsSpace(s[|s| - 1])
    ensures TrimSpace(s) == s
  {
  }
}
