/** What a chain of compactions carries in the preserved-state block (appendPreservedState in
    internal/agent/compaction_preserve.go): the plan, recent edits, tools, skills and instructions. */
module Carryover {
  import opened Text
  import opened Transcript
  import opened RecentEdits
  import opened PreservedState
  import Compaction

  /* The latest plan. */

  function PlanOfCalls(format: string -> string, calls: seq<ToolCall>, n: nat): string
    requires n <= |calls|
  {
    if n == 0 then ""
    else if calls[n - 1].name == "update_plan" && format(calls[n - 1].arguments) != ""
      then format(calls[n - 1].arguments)
    else PlanOfCalls(format, calls, n - 1)
  }

  /** The newest plan of the first n messages that has a formatted view. */
  function PlanOf(format: string -> string, ms: seq<Message>, n: nat): string
    requires n <= |ms|
  {
    if n == 0 then ""
    else
      var calls := ms[n - 1].toolCalls;
      var plan := PlanOfCalls(format, calls, |calls|);
      if plan != "" then plan else PlanOf(format, ms, n - 1)
  }

  method ExtractLatestPlan(messages: seq<Message>, format: string -> string) returns (plan: string)
    ensures plan == PlanOf(format, messages, |messages|)
  {
    var i := |messages|;
    while i > 0
      invariant 0 <= i <= |messages|
      invariant PlanOf(format, messages, |messages|) == PlanOf(format, messages, i)
    {
      var calls := messages[i - 1].toolCalls;
      var j := |calls|;
      while j > 0
        invariant 0 <= j <= |calls|
        invariant PlanOfCalls(format, calls, |calls|) == PlanOfCalls(format, calls, j)
      {
        j := j - 1;
        if calls[j].name != "update_plan" {
          continue;
        }
        var formatted := format(calls[j].arguments);
        if formatted != "" {
          return formatted;
        }
      }
      i := i - 1;
    }
    return "";
  }

  lemma {:induction false} PlanConcat(format: string -> string, a: seq<Message>, b: seq<Message>, n: nat)
    requires n <= |b|
    ensures PlanOf(format, a + b, |a| + n)
         == if PlanOf(format, b, n) != "" then PlanOf(format, b, n) else PlanOf(format, a, |a|)
  {
    if n == 0 {
      PlanPrefix(format, a, b, |a|);
    } else {
      PlanConcat(format, a, b, n - 1);
    }
  }

  lemma {:induction false} PlanPrefix(format: string -> string, a: seq<Message>, b: seq<Message>, n: nat)
    requires n <= |a|
    ensures PlanOf(format, a + b, n) == PlanOf(format, a, n)
  {
    if n > 0 {
      PlanPrefix(format, a, b, n - 1);
    }
  }

  /* Named bodies: skills, tool schemas and project instructions, each read by the same loop. */

  datatype Source =
    | Skills(nameOf: string -> string, cap: string -> string)
    | Schemas(entriesOf: string -> seq<Entry>)
    | Instructions(blockOf: string -> Option<Entry>)

  /** What a call promises about the message that answers it. */
  function KeyOf(src: Source, call: ToolCall): Option<string> {
    match src
    case Skills(nameOf, _) => if call.name == "skill" then Some(nameOf(call.arguments)) else None
    case Schemas(_) => if call.name == "tool_search" then Some("") else None
    case Instructions(_) => None
  }

  function KeysOfCalls(src: Source, known: Paths, calls: seq<ToolCall>, n: nat): Paths
    requires n <= |calls|
  {
    if n == 0 then known
    else
      var before := KeysOfCalls(src, known, calls, n - 1);
      var call := calls[n - 1];
      if call.id != "" && KeyOf(src, call).Some? then before[call.id := KeyOf(src, call).value] else before
  }

  function Keys(src: Source, ms: seq<Message>, n: nat): Paths
    requires n <= |ms|
  {
    if n == 0 then map[] else KeysOfCalls(src, Keys(src, ms, n - 1), ms[n - 1].toolCalls, |ms[n - 1].toolCalls|)
  }

  function WithNames(entries: seq<Entry>): seq<Entry> { Outside(entries, [""], |entries|) }

  predicate StartsWith(s: string, prefix: string) { |prefix| <= |s| && s[..|prefix|] == prefix }

  /** The entries a message brings, given what is known about its id. */
  function Load(src: Source, keys: Paths, m: Message): seq<Entry> {
    match src
    case Skills(_, cap) =>
      if m.role != Tool || m.toolCallId == "" || m.toolCallId !in keys || TrimSpace(m.content) == "" then []
      else
        var name := keys[m.toolCallId];
        [Entry(if name == "" then "(unnamed)" else name, cap(TrimSpace(m.content)))]
    case Schemas(entriesOf) =>
      if m.role != Tool || m.toolCallId !in keys then [] else WithNames(entriesOf(m.content))
    case Instructions(blockOf) =>
      if m.role != User || !StartsWith(TrimSpace(m.content), "# ") then []
      else match blockOf(TrimSpace(m.content)) case None => [] case Some(e) => WithNames([e])
  }

  function Loads(src: Source, keys: Paths, ms: seq<Message>, n: nat): seq<Entry>
    requires n <= |ms|
  {
    if n == 0 then [] else Loads(src, keys, ms, n - 1) + Load(src, keys, ms[n - 1])
  }

  /** Every entry a transcript brings, in order. */
  function AllLoads(src: Source, ms: seq<Message>): seq<Entry> {
    Loads(src, Keys(src, ms, |ms|), ms, |ms|)
  }

  /** One entry per name, in first-seen order, with its newest body. */
  function Latest(entries: seq<Entry>): seq<Entry> {
    Noted(FirstNames(entries, |entries|), Bodies(entries, |entries|))
  }

  method CollectKeys(messages: seq<Message>, src: Source) returns (keys: Paths)
    ensures keys == Keys(src, messages, |messages|)
  {
    keys := map[];
    for i := 0 to |messages|
      invariant keys == Keys(src, messages, i)
    {
      var calls := messages[i].toolCalls;
      for j := 0 to |calls|
        invariant keys == KeysOfCalls(src, Keys(src, messages, i), calls, j)
      {
        var key := KeyOf(src, calls[j]);
        if key.Some? && calls[j].id != "" {
          keys := keys[calls[j].id := key.value];
        }
      }
    }
  }

  method LoadedEntries(messages: seq<Message>, src: Source) returns (entries: seq<Entry>)
    ensures entries == Latest(AllLoads(src, messages))
  {
    hide Load, Keys;
    var keys := CollectKeys(messages, src);
    var bodyByName: Paths := map[];
    var nameOrder: seq<string> := [];
    ghost var seen: seq<Entry> := [];
    for i := 0 to |messages|
      invariant seen == Loads(src, keys, messages, i)
      invariant nameOrder == FirstNames(seen, |seen|) && bodyByName == Bodies(seen, |seen|)
    {
      var loaded := Load(src, keys, messages[i]);
      nameOrder, bodyByName := FoldEntries(seen, loaded, nameOrder, bodyByName);
      seen := seen + loaded;
    }
    entries := [];
    for i := 0 to |nameOrder|
      invariant entries == Noted(nameOrder[..i], bodyByName)
    {
      SameNames(seen, |seen|);
      entries := entries + [Entry(nameOrder[i], bodyByName[nameOrder[i]])];
    }
    assert nameOrder[..|nameOrder|] == nameOrder;
  }

  method FoldEntries(ghost seen: seq<Entry>, loaded: seq<Entry>, order: seq<string>, bodies: Paths)
    returns (nameOrder: seq<string>, bodyByName: Paths)
    requires order == FirstNames(seen, |seen|) && bodies == Bodies(seen, |seen|)
    ensures var all := seen + loaded;
      nameOrder == FirstNames(all, |all|) && bodyByName == Bodies(all, |all|)
  {
    hide FirstNames, Bodies;
    nameOrder, bodyByName := order, bodies;
    ghost var all := seen;
    for j := 0 to |loaded|
      invariant all == seen + loaded[..j]
      invariant nameOrder == FirstNames(all, |all|) && bodyByName == Bodies(all, |all|)
    {
      var e := loaded[j];
      SameNames(all, |all|);
      FoldOne(all, e);
      if e.name !in bodyByName {
        nameOrder := nameOrder + [e.name];
      }
      bodyByName := bodyByName[e.name := e.body];
      all := all + [e];
      assert loaded[..j + 1] == loaded[..j] + [e];
    }
    assert loaded[..|loaded|] == loaded;
  }

  lemma FoldOne(entries: seq<Entry>, e: Entry)
    ensures var n := |entries|;
      && FirstNames(entries + [e], n + 1)
         == (if e.name in FirstNames(entries, n) then FirstNames(entries, n) else FirstNames(entries, n) + [e.name])
      && Bodies(entries + [e], n + 1) == Bodies(entries, n)[e.name := e.body]
  {
    FoldPrefix(entries, [e], |entries|);
    assert (entries + [e])[|entries|] == e;
  }

  lemma {:induction false} FoldPrefix(a: seq<Entry>, b: seq<Entry>, n: nat)
    requires n <= |a|
    ensures FirstNames(a + b, n) == FirstNames(a, n) && Bodies(a + b, n) == Bodies(a, n)
  {
    if n > 0 {
      FoldPrefix(a, b, n - 1);
    }
  }

  /* Merging with what an earlier compaction preserved. */

  function Refreshed(older: seq<Entry>, bodies: Paths): (entries: seq<Entry>)
    ensures |entries| == |older|
    ensures forall i | 0 <= i < |older| ::
      entries[i] == if older[i].name in bodies then Entry(older[i].name, bodies[older[i].name]) else older[i]
  {
    seq(|older|, i requires 0 <= i < |older| =>
      if older[i].name in bodies then Entry(older[i].name, bodies[older[i].name]) else older[i])
  }

  /** Older entries stay in place with the newest body; new names follow. */
  function Overlaid(older: seq<Entry>, newer: seq<Entry>): seq<Entry> {
    Refreshed(older, Bodies(newer, |newer|)) + Outside(newer, NamesOf(older), |newer|)
  }

  method MergeSkillEntries(older: seq<Entry>, newer: seq<Entry>) returns (merged: seq<Entry>)
    ensures merged == Overlaid(older, newer)
  {
    if |newer| == 0 {
      assert Refreshed(older, map[]) == older;
      return older;
    }
    var newBody: Paths := map[];
    for i := 0 to |newer|
      invariant newBody == Bodies(newer, i)
    {
      newBody := newBody[newer[i].name := newer[i].body];
    }
    merged := [];
    var seen: set<string> := {};
    for i := 0 to |older|
      invariant merged == Refreshed(older, newBody)[..i]
      invariant forall name :: name in seen <==> name in NamesOf(older)[..i]
    {
      var e := older[i];
      if e.name in newBody {
        e := e.(body := newBody[e.name]);
      }
      merged := merged + [e];
      seen := seen + {e.name};
      assert NamesOf(older)[..i + 1] == NamesOf(older)[..i] + [older[i].name];
    }
    assert NamesOf(older)[..|older|] == NamesOf(older);
    ghost var kept := merged;
    for i := 0 to |newer|
      invariant merged == kept + Outside(newer, NamesOf(older), i)
    {
      if newer[i].name !in seen {
        merged := merged + [newer[i]];
      }
    }
  }

  /* Merging loses nothing. */

  lemma {:induction false} BodiesConcat(a: seq<Entry>, b: seq<Entry>, n: nat)
    requires n <= |b|
    ensures Bodies(a + b, |a| + n) == Bodies(a, |a|) + Bodies(b, n)
  {
    if n == 0 {
      FoldPrefix(a, b, |a|);
    } else {
      BodiesConcat(a, b, n - 1);
    }
  }

  lemma {:induction false} NamesConcat(a: seq<Entry>, b: seq<Entry>, n: nat)
    requires n <= |b|
    ensures FirstNames(a + b, |a| + n) == FirstNames(a, |a|) + Without(FirstNames(b, n), FirstNames(a, |a|))
  {
    hide FirstNames, Without, AddName;
    if n == 0 {
      FoldPrefix(a, b, |a|);
      NoNames(b, FirstNames(a, |a|));
    } else {
      NamesConcat(a, b, n - 1);
      assert (a + b)[|a| + n - 1] == b[n - 1];
      FirstStep(a + b, |a| + n);
      FirstStep(b, n);
      NamesStep(FirstNames(a, |a|), FirstNames(b, n - 1), b[n - 1].name);
    }
  }

  lemma NoNames(entries: seq<Entry>, known: seq<string>)
    ensures FirstNames(entries, 0) == [] && Without([], known) == [] && known + [] == known
  {
  }

  lemma FirstStep(entries: seq<Entry>, n: nat)
    requires 0 < n <= |entries|
    ensures FirstNames(entries, n) == AddName(FirstNames(entries, n - 1), entries[n - 1].name)
  {
  }

  function AddName(names: seq<string>, name: string): seq<string> {
    if name in names then names else names + [name]
  }

  lemma NamesStep(known: seq<string>, before: seq<string>, name: string)
    ensures AddName(known + Without(before, known), name) == known + Without(AddName(before, name), known)
  {
    hide Without;
    WithoutMembers(before, known);
    WithoutSnoc(before, name, known);
    assert name in known + Without(before, known) <==> name in known || name in before;
    assert (known + Without(before, known)) + [name] == known + (Without(before, known) + [name]);
    assert Without(before, known) + [] == Without(before, known);
  }

  lemma WithoutSnoc(s: seq<string>, name: string, names: seq<string>)
    ensures Without(s + [name], names) == Without(s, names) + if name in names then [] else [name]
  {
    assert (s + [name])[..|s|] == s;
  }

  lemma {:induction false} WithoutMembers(s: seq<string>, names: seq<string>)
    ensures forall p :: p in Without(s, names) <==> p in s && p !in names
  {
    if s != [] {
      WithoutMembers(s[..|s| - 1], names);
      assert s == s[..|s| - 1] + [s[|s| - 1]];
    }
  }

  lemma LatestFacts(entries: seq<Entry>)
    ensures NamesOf(Latest(entries)) == FirstNames(entries, |entries|)
    ensures Distinct(NamesOf(Latest(entries)))
    ensures Bodies(Latest(entries), |Latest(entries)|) == Bodies(entries, |entries|)
  {
    var latest, bodies := Latest(entries), Bodies(entries, |entries|);
    FirstNamesDistinct(entries, |entries|);
    SameNames(entries, |entries|);
    BodiesOfDistinct(latest, |latest|);
    BodyNames(latest, |latest|);
    assert NamesOf(latest) == FirstNames(entries, |entries|);
    forall name | name in bodies
      ensures name in Bodies(latest, |latest|) && Bodies(latest, |latest|)[name] == bodies[name]
    {
      var k :| 0 <= k < |latest| && FirstNames(entries, |entries|)[k] == name;
      assert latest[k] == Entry(name, bodies[name]);
    }
    forall name | name in Bodies(latest, |latest|) ensures name in bodies {
      assert name in NamesOf(latest)[..|latest|];
    }
  }

  lemma {:induction false} FirstNamesDistinct(entries: seq<Entry>, n: nat)
    requires n <= |entries|
    ensures Distinct(FirstNames(entries, n))
  {
    if n > 0 {
      FirstNamesDistinct(entries, n - 1);
    }
  }

  /** Merging the newest bodies of two stretches gives the newest bodies of both together. */
  lemma OverlaidIsLatest(a: seq<Entry>, b: seq<Entry>)
    ensures Overlaid(Latest(a), Latest(b)) == Latest(a + b)
  {
    hide FirstNames, Bodies, Latest, Without;
    var older, newer, all := Latest(a), Latest(b), Latest(a + b);
    var merged := Overlaid(older, newer);
    LatestFacts(a);
    LatestFacts(b);
    LatestFacts(a + b);
    NamesConcat(a, b, |b|);
    BodiesConcat(a, b, |b|);
    OutsideNames(newer, NamesOf(older), |newer|);
    assert NamesOf(newer)[..|newer|] == NamesOf(newer);
    OverlaidNames(older, newer);
    assert NamesOf(merged) == NamesOf(all);
    LatestIsFaithful(a);
    LatestIsFaithful(b);
    LatestIsFaithful(a + b);
    OverlaidIsFaithful(a, b);
    SameEntries(merged, all, Bodies(a + b, |a + b|));
  }

  lemma OverlaidNames(older: seq<Entry>, newer: seq<Entry>)
    ensures NamesOf(Overlaid(older, newer)) == NamesOf(older) + NamesOf(Outside(newer, NamesOf(older), |newer|))
  {
    hide Outside, Bodies, NamesOf, Refreshed;
    RefreshedNames(older, Bodies(newer, |newer|));
    NamesOfConcat(Refreshed(older, Bodies(newer, |newer|)), Outside(newer, NamesOf(older), |newer|));
  }

  lemma RefreshedNames(older: seq<Entry>, bodies: Paths)
    ensures NamesOf(Refreshed(older, bodies)) == NamesOf(older)
  {
  }

  lemma NamesOfConcat(a: seq<Entry>, b: seq<Entry>)
    ensures NamesOf(a + b) == NamesOf(a) + NamesOf(b)
  {
  }

  lemma LatestIsFaithful(entries: seq<Entry>)
    ensures Faithful(Latest(entries), Bodies(entries, |entries|))
  {
  }

  lemma RefreshedIsFaithful(older: seq<Entry>, bodies: Paths, more: Paths)
    requires Faithful(older, bodies)
    ensures Faithful(Refreshed(older, more), bodies + more)
  {
    forall i | 0 <= i < |older| ensures Refreshed(older, more)[i].body == Lookup(bodies + more, older[i].name) {
      assert older[i] in older;
    }
  }

  lemma NewIsFaithful(known: seq<string>, newer: seq<Entry>, bodies: Paths, more: Paths)
    requires Faithful(newer, more) && forall name :: name in more <==> name in NamesOf(newer)
    ensures Faithful(Outside(newer, known, |newer|), bodies + more)
  {
    hide NamesOf;
    OutsideIsOutside(newer, known, |newer|);
    forall e | e in Outside(newer, known, |newer|) ensures e.body == Lookup(bodies + more, e.name) {
      NamedIn(newer, e);
    }
  }

  lemma OverlaidIsFaithful(a: seq<Entry>, b: seq<Entry>)
    ensures Faithful(Overlaid(Latest(a), Latest(b)), Bodies(a, |a|) + Bodies(b, |b|))
  {
    hide FirstNames, Bodies, Latest, Refreshed, Outside, NamesOf;
    var older, newer := Latest(a), Latest(b);
    LatestFacts(b);
    LatestIsFaithful(a);
    LatestIsFaithful(b);
    SameNames(b, |b|);
    RefreshedIsFaithful(older, Bodies(a, |a|), Bodies(b, |b|));
    NewIsFaithful(NamesOf(older), newer, Bodies(a, |a|), Bodies(b, |b|));
  }

  lemma NamedIn(entries: seq<Entry>, e: Entry)
    requires e in entries
    ensures e.name in NamesOf(entries)
  {
    var k :| 0 <= k < |entries| && entries[k] == e;
    assert NamesOf(entries)[k] == e.name;
  }

  /* What one more elided stretch adds. */

  function CallIds(ms: seq<Message>): set<string> {
    set m, c | m in ms && c in m.toolCalls :: c.id
  }

  /** Two stretches use no tool-call id in common. */
  ghost predicate NoSharedIds(a: seq<Message>, b: seq<Message>) {
    CallIds(a) !! CallIds(b) && CallIds(a) !! ResultIds(b) && CallIds(b) !! ResultIds(a)
  }

  lemma {:induction false} KeysAreCallIds(src: Source, ms: seq<Message>, n: nat)
    requires n <= |ms|
    ensures Keys(src, ms, n).Keys <= CallIds(ms)
  {
    if n > 0 {
      KeysAreCallIds(src, ms, n - 1);
      var calls := ms[n - 1].toolCalls;
      KeysOfCallsAdds(src, Keys(src, ms, n - 1), calls, |calls|);
      KeysOfCallsAreIds(src, calls, |calls|);
      assert ms[n - 1] in ms;
    }
  }

  lemma {:induction false} KeysOfCallsAreIds(src: Source, calls: seq<ToolCall>, n: nat)
    requires n <= |calls|
    ensures forall id | id in KeysOfCalls(src, map[], calls, n) :: exists c :: c in calls && c.id == id
  {
    if n > 0 {
      KeysOfCallsAreIds(src, calls, n - 1);
      assert calls[n - 1] in calls;
    }
  }

  lemma {:induction false} KeysOfCallsAdds(src: Source, known: Paths, calls: seq<ToolCall>, n: nat)
    requires n <= |calls|
    ensures KeysOfCalls(src, known, calls, n) == known + KeysOfCalls(src, map[], calls, n)
  {
    if n > 0 {
      KeysOfCallsAdds(src, known, calls, n - 1);
    }
  }

  lemma {:induction false} KeysPrefix(src: Source, a: seq<Message>, b: seq<Message>, n: nat)
    requires n <= |a|
    ensures Keys(src, a + b, n) == Keys(src, a, n)
  {
    if n > 0 {
      KeysPrefix(src, a, b, n - 1);
    }
  }

  lemma {:induction false} KeysConcat(src: Source, a: seq<Message>, b: seq<Message>, n: nat)
    requires n <= |b|
    ensures Keys(src, a + b, |a| + n) == Keys(src, a, |a|) + Keys(src, b, n)
  {
    if n == 0 {
      KeysPrefix(src, a, b, |a|);
    } else {
      hide KeysOfCalls;
      KeysConcat(src, a, b, n - 1);
      assert (a + b)[|a| + n - 1] == b[n - 1];
      var calls := b[n - 1].toolCalls;
      MergeAssociates(Keys(src, a, |a|), Keys(src, b, n - 1), KeysOfCalls(src, map[], calls, |calls|));
      KeysOfCallsAdds(src, Keys(src, a + b, |a| + n - 1), calls, |calls|);
      KeysOfCallsAdds(src, Keys(src, b, n - 1), calls, |calls|);
    }
  }

  lemma {:induction false} LoadsPrefix(src: Source, keys: Paths, more: Paths, a: seq<Message>, b: seq<Message>, n: nat)
    requires n <= |a| && ResultIds(a) !! more.Keys
    ensures Loads(src, keys + more, a + b, n) == Loads(src, keys, a, n)
  {
    hide Load;
    if n > 0 {
      LoadsPrefix(src, keys, more, a, b, n - 1);
      assert (a + b)[n - 1] == a[n - 1];
      assert a[n - 1].role == Tool ==> a[n - 1].toolCallId in ResultIds(a);
      LoadIgnoresMore(src, keys, more, a[n - 1]);
    }
  }

  lemma LoadIgnoresMore(src: Source, keys: Paths, more: Paths, m: Message)
    requires m.role == Tool ==> m.toolCallId !in more
    ensures Load(src, keys + more, m) == Load(src, keys, m)
  {
  }

  lemma {:induction false} LoadsConcat(src: Source, keys: Paths, more: Paths, a: seq<Message>, b: seq<Message>, n: nat)
    requires n <= |b| && ResultIds(a) !! more.Keys && ResultIds(b) !! keys.Keys
    ensures Loads(src, keys + more, a + b, |a| + n) == Loads(src, keys, a, |a|) + Loads(src, more, b, n)
  {
    hide Load;
    if n == 0 {
      LoadsPrefix(src, keys, more, a, b, |a|);
    } else {
      LoadsConcat(src, keys, more, a, b, n - 1);
      assert (a + b)[|a| + n - 1] == b[n - 1];
      assert b[n - 1].role == Tool ==> b[n - 1].toolCallId in ResultIds(b);
      LoadIgnores(src, keys, more, b[n - 1]);
      ThreeLoads(Loads(src, keys, a, |a|), Loads(src, more, b, n - 1), Load(src, more, b[n - 1]));
    }
  }

  lemma ThreeLoads(a: seq<Entry>, b: seq<Entry>, c: seq<Entry>)
    ensures (a + b) + c == a + (b + c)
  {
  }

  lemma LoadIgnores(src: Source, keys: Paths, more: Paths, m: Message)
    requires m.role == Tool ==> m.toolCallId !in keys
    ensures Load(src, keys + more, m) == Load(src, more, m)
  {
  }

  lemma AllLoadsConcat(src: Source, a: seq<Message>, b: seq<Message>)
    requires NoSharedIds(a, b)
    ensures AllLoads(src, a + b) == AllLoads(src, a) + AllLoads(src, b)
  {
    hide Keys, Loads;
    KeysAreCallIds(src, a, |a|);
    KeysAreCallIds(src, b, |b|);
    KeysConcat(src, a, b, |b|);
    LoadsConcat(src, Keys(src, a, |a|), Keys(src, b, |b|), a, b, |b|);
  }

  /* One compaction. */

  /** The text readers appendPreservedState relies on. */
  datatype Extract = Extract(format: string -> string, edits: Readers, nameOf: string -> string, cap: string -> string,
                             entriesOf: string -> seq<Entry>, blockOf: string -> Option<Entry>)
  {
    function Skills(): Source { Source.Skills(nameOf, cap) }

    function Schemas(): Source { Source.Schemas(entriesOf) }

    function Instructions(): Source { Source.Instructions(blockOf) }
  }

  /** The newest summary among the first n messages: a user message that opens with the label. */
  function LatestSummary(ms: seq<Message>, n: nat): string
    requires n <= |ms|
  {
    if n == 0 then "" else if IsSummary(ms[n - 1]) then ms[n - 1].content else LatestSummary(ms, n - 1)
  }

  predicate IsSummary(m: Message) { m.role == User && StartsWith(TrimSpace(m.content), Compaction.SUMMARY_LABEL) }

  method LatestSummaryContent(messages: seq<Message>) returns (content: string)
    ensures content == LatestSummary(messages, |messages|)
  {
    var i := |messages|;
    while i > 0
      invariant 0 <= i <= |messages| && LatestSummary(messages, |messages|) == LatestSummary(messages, i)
    {
      i := i - 1;
      if IsSummary(messages[i]) {
        return messages[i].content;
      }
    }
    return "";
  }

  /** The state after a compaction that elides middle, given the state the last one preserved. */
  function Step(x: Extract, prior: State, middle: seq<Message>, task: Option<Task>): State {
    State(
      if PlanOf(x.format, middle, |middle|) != "" then PlanOf(x.format, middle, |middle|) else prior.plan,
      if task.Some? then task else prior.task,
      Carry(x.edits, WithNames(prior.edits), middle),
      Overlaid(WithNames(prior.tools), Latest(AllLoads(x.Schemas(), middle))),
      Overlaid(WithNames(prior.skills), Latest(AllLoads(x.Skills(), middle))),
      Overlaid(WithNames(prior.instructions), Latest(AllLoads(x.Instructions(), middle))))
  }

  method AppendPreservedState(summary: string, middle: seq<Message>, task: Option<Task>, x: Extract)
    returns (content: string)
    ensures content == Append(summary, Step(x, ParseBlock(LatestSummary(middle, |middle|)), middle, task))
  {
    hide ParseBlock, Format, Latest, AllLoads, Recent, Merged, Overlaid, WithNames, PlanOf, LatestSummary;
    var prior := LatestSummaryContent(middle);
    var priorState := ParseBlock(prior);
    var snapshot := priorState.task;
    if task.Some? {
      snapshot := task;
    }
    var plan := ExtractLatestPlan(middle, x.format);
    if plan == "" {
      plan := priorState.plan;
    }
    var touched := RecentEditsOf(middle, x.edits);
    var merged := MergeRecentEdits(WithNames(priorState.edits), touched);
    var edits := CapRecentEdits(merged);
    var loaded := LoadedEntries(middle, x.Schemas());
    var tools := MergeSkillEntries(WithNames(priorState.tools), loaded);
    loaded := LoadedEntries(middle, x.Skills());
    var skills := MergeSkillEntries(WithNames(priorState.skills), loaded);
    loaded := LoadedEntries(middle, x.Instructions());
    var instructions := MergeSkillEntries(WithNames(priorState.instructions), loaded);
    var state := State(plan, snapshot, edits, tools, skills, instructions);
    content := summary;
    var block := Format(state);
    if block != "" {
      content := summary + ("\n\n" + block);
    }
  }

  /* One look at everything. */

  /** The state that one look at a whole transcript gives. */
  function Direct(x: Extract, ms: seq<Message>, task: Option<Task>): State {
    State(PlanOf(x.format, ms, |ms|), task, Recent(x.edits, ms), Latest(AllLoads(x.Schemas(), ms)),
          Latest(AllLoads(x.Skills(), ms)), Latest(AllLoads(x.Instructions(), ms)))
  }

  lemma {:induction false} NothingUnnamed(entries: seq<Entry>, n: nat)
    requires n <= |entries| && forall e | e in entries :: e.name != ""
    ensures Outside(entries, [""], n) == entries[..n]
  {
    if n > 0 {
      NothingUnnamed(entries, n - 1);
      assert entries[n - 1] in entries;
      assert entries[..n] == entries[..n - 1] + [entries[n - 1]];
    }
  }

  lemma AllNamed(entries: seq<Entry>)
    requires forall e | e in entries :: e.name != ""
    ensures WithNames(entries) == entries
  {
    NothingUnnamed(entries, |entries|);
    assert entries[..|entries|] == entries;
  }

  lemma LoadIsNamed(src: Source, keys: Paths, m: Message)
    ensures forall e | e in Load(src, keys, m) :: e.name != ""
  {
    match src
    case Skills(_, _) =>
    case Schemas(entriesOf) => OutsideIsOutside(entriesOf(m.content), [""], |entriesOf(m.content)|);
    case Instructions(blockOf) =>
      var block := blockOf(TrimSpace(m.content));
      if block.Some? {
        OutsideIsOutside([block.value], [""], 1);
      }
  }

  lemma {:induction false} LoadsAreNamed(src: Source, keys: Paths, ms: seq<Message>, n: nat)
    requires n <= |ms|
    ensures forall e | e in Loads(src, keys, ms, n) :: e.name != ""
  {
    hide Load;
    if n > 0 {
      LoadsAreNamed(src, keys, ms, n - 1);
      LoadIsNamed(src, keys, ms[n - 1]);
    }
  }

  lemma {:induction false} FirstNamesIn(entries: seq<Entry>, n: nat)
    requires n <= |entries|
    ensures forall name | name in FirstNames(entries, n) :: exists e :: e in entries && e.name == name
  {
    if n > 0 {
      FirstNamesIn(entries, n - 1);
      assert entries[n - 1] in entries;
    }
  }

  lemma LatestNamed(src: Source, ms: seq<Message>)
    ensures WithNames(Latest(AllLoads(src, ms))) == Latest(AllLoads(src, ms))
  {
    hide Loads, Bodies, FirstNames, WithNames;
    var loads := AllLoads(src, ms);
    LoadsAreNamed(src, Keys(src, ms, |ms|), ms, |ms|);
    FirstNamesIn(loads, |loads|);
    forall e | e in Latest(loads) ensures e.name != "" {
      assert e.name in FirstNames(loads, |loads|);
    }
    AllNamed(Latest(loads));
  }

  lemma {:induction false} EditsAreNamed(r: Readers, ms: seq<Message>, n: nat)
    requires n <= |ms|
    ensures "" !in Edits(r, ms, n)
  {
    if n > 0 {
      EditsAreNamed(r, ms, n - 1);
      EditsOfAreNamed(r, ms[n - 1].toolCalls, |ms[n - 1].toolCalls|);
    }
  }

  lemma {:induction false} EditsOfAreNamed(r: Readers, calls: seq<ToolCall>, n: nat)
    requires n <= |calls|
    ensures "" !in EditsOf(r, calls, n)
  {
    if n > 0 {
      EditsOfAreNamed(r, calls, n - 1);
    }
  }

  lemma RecentNamed(r: Readers, ms: seq<Message>)
    ensures WithNames(Recent(r, ms)) == Recent(r, ms)
  {
    hide Recent, WithNames;
    EditsAreNamed(r, ms, |ms|);
    forall e | e in Recent(r, ms) ensures e.name != "" {
      RecentIsEdited(r, ms, e);
    }
    AllNamed(Recent(r, ms));
  }

  lemma EditsStep(r: Readers, before: seq<Message>, piece: seq<Message>)
    requires Apart(r, before, piece) && AllNoted(r, piece)
    ensures Carry(r, WithNames(Recent(r, before)), piece) == Recent(r, before + piece)
  {
    hide Recent, Carry, Notes, NamesOf, Apart, AllNoted, Faithful, WithNames;
    RecentNamed(r, before);
    RecentIsFaithful(r, before);
    RecentIsFaithful(r, before + piece);
    CarryNames(r, Recent(r, before), before, piece);
    CarryIsFaithful(r, Recent(r, before), before, piece);
    SameEntries(Carry(r, Recent(r, before), piece), Recent(r, before + piece), Notes(r, before + piece));
  }

  lemma LoadsStep(src: Source, before: seq<Message>, piece: seq<Message>)
    requires NoSharedIds(before, piece)
    ensures Overlaid(WithNames(Latest(AllLoads(src, before))), Latest(AllLoads(src, piece)))
         == Latest(AllLoads(src, before + piece))
  {
    hide Latest, AllLoads, Overlaid, WithNames;
    LatestNamed(src, before);
    AllLoadsConcat(src, before, piece);
    OverlaidIsLatest(AllLoads(src, before), AllLoads(src, piece));
  }

  lemma {:induction false} PathsAreCallIds(r: Readers, ms: seq<Message>, n: nat)
    requires n <= |ms|
    ensures PathById(r, ms, n).Keys <= CallIds(ms)
  {
    if n > 0 {
      PathsAreCallIds(r, ms, n - 1);
      var calls := ms[n - 1].toolCalls;
      IdsOfAdds(r, PathById(r, ms, n - 1), calls, |calls|);
      IdsOfAreIds(r, calls, |calls|);
      assert ms[n - 1] in ms;
    }
  }

  lemma {:induction false} IdsOfAreIds(r: Readers, calls: seq<ToolCall>, n: nat)
    requires n <= |calls|
    ensures forall id | id in IdsOf(r, map[], calls, n) :: exists c :: c in calls && c.id == id
  {
    if n > 0 {
      IdsOfAreIds(r, calls, n - 1);
      assert calls[n - 1] in calls;
    }
  }

  lemma ApartByIds(r: Readers, a: seq<Message>, b: seq<Message>)
    requires NoSharedIds(a, b)
    ensures Apart(r, a, b)
  {
    PathsAreCallIds(r, a, |a|);
    PathsAreCallIds(r, b, |b|);
  }

  /** One compaction adds to what was elided before exactly what its own stretch holds. */
  lemma StepIsDirect(x: Extract, before: seq<Message>, piece: seq<Message>, known: Option<Task>, task: Option<Task>)
    requires NoSharedIds(before, piece) && AllNoted(x.edits, piece)
    ensures Step(x, Direct(x, before, known), piece, task)
         == Direct(x, before + piece, if task.Some? then task else known)
  {
    hide PlanOf, Carry, Recent, Overlaid, Latest, AllLoads, WithNames, NoSharedIds, AllNoted, Apart;
    PlanConcat(x.format, before, piece, |piece|);
    ApartByIds(x.edits, before, piece);
    EditsStep(x.edits, before, piece);
    LoadsStep(x.Schemas(), before, piece);
    LoadsStep(x.Skills(), before, piece);
    LoadsStep(x.Instructions(), before, piece);
  }

  /* A chain of compactions. */

  /** One compaction of a run: the prose the summarizer wrote, the messages it elided beside the earlier
      summary, and the task snapshot. */
  datatype Elision = Elision(prose: string, piece: seq<Message>, task: Option<Task>)

  /** What the last of the compactions summarizes: the summary of the one before it, then its own piece. */
  function MiddleOf(x: Extract, es: seq<Elision>): seq<Message>
    requires es != []
    decreases |es|, 0
  {
    var front, last := es[..|es| - 1], es[|es| - 1];
    (if front == [] then [] else [UserMessage(ContentOf(x, front))]) + last.piece
  }

  /** The content of the summary message the last of the compactions writes. */
  function ContentOf(x: Extract, es: seq<Elision>): string
    requires es != []
    decreases |es|, 1
  {
    var middle, last := MiddleOf(x, es), es[|es| - 1];
    Append(Headed(last.prose), Step(x, ParseBlock(LatestSummary(middle, |middle|)), middle, last.task))
  }

  function Headed(prose: string): string { Compaction.SUMMARY_LABEL + "\n" + TrimSpace(prose) }

  function Elided(es: seq<Elision>): seq<Message> {
    if es == [] then [] else Elided(es[..|es| - 1]) + es[|es| - 1].piece
  }

  function LastTask(es: seq<Elision>): Option<Task> {
    if es == [] then None
    else if es[|es| - 1].task.Some? then es[|es| - 1].task
    else LastTask(es[..|es| - 1])
  }

  /** The block can be read back behind this prose. */
  ghost predicate Readable(prose: string, st: State) {
    if st == EMPTY then !Markers.Contains(prose, LABEL) else !Carries(st, LABEL)
  }

  lemma ReadableReads(prose: string, st: State)
    requires Readable(prose, st)
    ensures ParseBlock(Append(prose, st)) == st
  {
    hide Append, Carries;
    ReadBack(prose, st);
  }

  ghost predicate Unshadowed(ms: seq<Message>) { forall m | m in ms :: !IsSummary(m) }

  /** Every piece is a replayable history of its own with its own call ids, nobody but the compactor
      writes messages that open with the summary label, and each block can be read back. */
  ghost predicate ChainOk(x: Extract, es: seq<Elision>) {
    && (forall i | 0 <= i < |es| :: Valid(es[i].piece) && UniqueIds(es[i].piece) && Unshadowed(es[i].piece))
    && (forall i, j | 0 <= i < j < |es| :: NoSharedIds(es[i].piece, es[j].piece))
    && (forall n | 0 < n <= |es| :: Readable(Headed(es[n - 1].prose), Direct(x, Elided(es[..n]), LastTask(es[..n]))))
  }

  lemma ChainFront(x: Extract, es: seq<Elision>)
    requires es != [] && ChainOk(x, es)
    ensures ChainOk(x, es[..|es| - 1])
  {
    hide Valid, UniqueIds, Unshadowed, NoSharedIds, Readable, Elided, LastTask, Direct;
    var front := es[..|es| - 1];
    assert forall n | 0 < n <= |front| :: front[..n] == es[..n];
  }

  lemma {:induction false} ApartFromElided(es: seq<Elision>, b: seq<Message>)
    requires forall i | 0 <= i < |es| :: NoSharedIds(es[i].piece, b)
    ensures NoSharedIds(Elided(es), b)
  {
    if es != [] {
      ApartFromElided(es[..|es| - 1], b);
      var front, last := Elided(es[..|es| - 1]), es[|es| - 1].piece;
      assert NoSharedIds(last, b);
      assert CallIds(front + last) == CallIds(front) + CallIds(last);
      assert ResultIds(front + last) == ResultIds(front) + ResultIds(last);
    }
  }

  lemma {:induction false} TrimRightKeeps(s: string, n: nat)
    requires 0 < n <= |s| && !IsSpace(s[n - 1])
    ensures n <= |TrimRight(s)| && TrimRight(s)[..n] == s[..n]
  {
    if n < |s| && IsSpace(s[|s| - 1]) {
      TrimRightKeeps(s[..|s| - 1], n);
      assert s[..|s| - 1][..n] == s[..n];
    }
  }

  lemma LabelledTrims(content: string)
    requires StartsWith(content, Compaction.SUMMARY_LABEL)
    ensures StartsWith(TrimSpace(content), Compaction.SUMMARY_LABEL) && TrimSpace(content)[0] == '['
  {
    var n := |Compaction.SUMMARY_LABEL|;
    assert content[..n] == Compaction.SUMMARY_LABEL;
    assert content[0] == content[..n][0] == '[';
    assert content[n - 1] == content[..n][n - 1] == ']';
    assert TrimLeft(content) == content;
    TrimRightKeeps(content, n);
    assert TrimSpace(content)[0] == TrimSpace(content)[..n][0];
  }

  lemma SummaryLoadsNothing(src: Source, content: string)
    requires StartsWith(content, Compaction.SUMMARY_LABEL)
    ensures AllLoads(src, [UserMessage(content)]) == []
  {
    hide TrimSpace;
    LabelledTrims(content);
    var ms := [UserMessage(content)];
    assert !StartsWith(TrimSpace(content), "# ") by {
      assert "# "[0] == '#';
      assert |TrimSpace(content)| >= 2 ==> TrimSpace(content)[..2][0] == '[';
    }
    assert Loads(src, Keys(src, ms, 1), ms, 0) == [];
    assert Loads(src, Keys(src, ms, 1), ms, 1)
      == Loads(src, Keys(src, ms, 1), ms, 0) + Load(src, Keys(src, ms, 1), ms[0]);
  }

  lemma NoIdsInSummary(content: string, piece: seq<Message>)
    ensures NoSharedIds([UserMessage(content)], piece)
  {
  }

  lemma SummaryEditsNothing(r: Readers, content: string, piece: seq<Message>)
    ensures Recent(r, [UserMessage(content)] + piece) == Recent(r, piece)
  {
    var ms := [UserMessage(content)];
    NoIdsInSummary(content, piece);
    ApartByIds(r, ms, piece);
    NotesOfBoth(r, ms, piece);
    EditsConcat(r, ms, piece, |piece|);
    assert Edits(r, ms, 0) == [] && EditsOf(r, [], 0) == [];
    assert Edits(r, ms, 1) == Edits(r, ms, 0) + EditsOf(r, [], 0);
    assert PathById(r, ms, 0) == map[];
    assert NotesTo(r, PathById(r, ms, 1), ms, 0) == map[];
    assert Notes(r, ms) == map[];
    assert map[] + Notes(r, piece) == Notes(r, piece);
    assert Edits(r, ms + piece, 1 + |piece|) == [] + Edits(r, piece, |piece|) == Edits(r, piece, |piece|);
  }

  lemma SummaryPlansNothing(format: string -> string, content: string, piece: seq<Message>)
    ensures PlanOf(format, [UserMessage(content)] + piece, 1 + |piece|) == PlanOf(format, piece, |piece|)
  {
    var ms := [UserMessage(content)];
    PlanConcat(format, ms, piece, |piece|);
    assert PlanOfCalls(format, [], 0) == "" && PlanOf(format, ms, 0) == "";
  }

  /** The earlier summary at the head of the middle adds nothing of its own. */
  lemma SummaryIsQuiet(x: Extract, content: string, prior: State, piece: seq<Message>, task: Option<Task>)
    requires StartsWith(content, Compaction.SUMMARY_LABEL)
    ensures Step(x, prior, [UserMessage(content)] + piece, task) == Step(x, prior, piece, task)
  {
    hide PlanOf, Recent, Overlaid, Latest, AllLoads, WithNames, Merged, NoSharedIds;
    SummaryPlansNothing(x.format, content, piece);
    SummaryEditsNothing(x.edits, content, piece);
    NoIdsInSummary(content, piece);
    SummaryAddsNothing(x.Schemas(), content, piece);
    SummaryAddsNothing(x.Skills(), content, piece);
    SummaryAddsNothing(x.Instructions(), content, piece);
  }

  lemma SummaryAddsNothing(src: Source, content: string, piece: seq<Message>)
    requires StartsWith(content, Compaction.SUMMARY_LABEL)
    ensures AllLoads(src, [UserMessage(content)] + piece) == AllLoads(src, piece)
  {
    hide AllLoads, NoSharedIds;
    NoIdsInSummary(content, piece);
    SummaryLoadsNothing(src, content);
    AllLoadsConcat(src, [UserMessage(content)], piece);
  }

  lemma {:induction false} SummaryFound(head: Message, piece: seq<Message>, n: nat)
    requires IsSummary(head) && Unshadowed(piece) && n <= |piece|
    ensures LatestSummary([head] + piece, 1 + n) == head.content
  {
    hide IsSummary;
    if n > 0 {
      SummaryFound(head, piece, n - 1);
      assert ([head] + piece)[n] == piece[n - 1];
      assert piece[n - 1] in piece;
    }
  }

  lemma {:induction false} NoSummaryFound(piece: seq<Message>, n: nat)
    requires Unshadowed(piece) && n <= |piece|
    ensures LatestSummary(piece, n) == ""
  {
    hide IsSummary;
    if n > 0 {
      NoSummaryFound(piece, n - 1);
      assert piece[n - 1] in piece;
    }
  }

  lemma ContentIsLabelled(x: Extract, es: seq<Elision>)
    requires es != []
    ensures StartsWith(ContentOf(x, es), Compaction.SUMMARY_LABEL)
  {
    hide Step, MiddleOf, ParseBlock, Format, TrimSpace;
  }

  lemma NothingParsed()
    ensures ParseBlock("") == EMPTY
  {
  }

  /** After any number of compactions the block in the newest summary holds exactly what one look at all
      messages elided so far gives: latest plan, recent edits in order with notes, tools, skills and
      instructions by first appearance with newest bodies. */
  lemma {:induction false} StateSurvives(x: Extract, es: seq<Elision>)
    requires es != [] && ChainOk(x, es)
    ensures ParseBlock(ContentOf(x, es)) == Direct(x, Elided(es), LastTask(es))
    decreases |es|
  {
    hide ParseBlock, Step, Direct, Valid, UniqueIds, NoSharedIds, Readable, AllNoted, Append, IsSummary, Headed;
    var front, last := es[..|es| - 1], es[|es| - 1];
    ValidPieceIsNoted(x.edits, last.piece);
    assert Readable(Headed(last.prose), Direct(x, Elided(es), LastTask(es))) by { assert es[..|es|] == es; }
    ReadableReads(Headed(last.prose), Direct(x, Elided(es), LastTask(es)));
    ApartFromElided(front, last.piece);
    StepIsDirect(x, Elided(front), last.piece, LastTask(front), last.task);
    assert Elided(es) == Elided(front) + last.piece;
    if front == [] {
      assert MiddleOf(x, es) == last.piece;
      assert Elided(front) == [] && LastTask(front) == None;
      NoSummaryFound(last.piece, |last.piece|);
      NothingParsed();
      NothingElided(x);
    } else {
      ChainFront(x, es);
      StateSurvives(x, front);
      var content := ContentOf(x, front);
      ContentIsLabelled(x, front);
      SummaryIsOne(content);
      SummaryFound(UserMessage(content), last.piece, |last.piece|);
      SummaryIsQuiet(x, content, ParseBlock(content), last.piece, last.task);
    }
  }

  lemma SummaryIsOne(content: string)
    requires StartsWith(content, Compaction.SUMMARY_LABEL)
    ensures IsSummary(UserMessage(content))
  {
    LabelledTrims(content);
  }

  lemma NothingElided(x: Extract)
    ensures Direct(x, [], None) == EMPTY
  {
  }

  /** Otherwise the newest message of the piece that opens with the label is taken for the summary, and
      the state the compactor wrote is not read. */
  lemma {:induction false} SummaryShadowed(head: Message, piece: seq<Message>, n: nat)
    requires n <= |piece| && !Unshadowed(piece[..n])
    ensures exists m :: m in piece[..n] && IsSummary(m) && LatestSummary([head] + piece, 1 + n) == m.content
  {
    hide IsSummary;
    var m := piece[n - 1];
    assert piece[..n] == piece[..n - 1] + [m] && ([head] + piece)[n] == m;
    if !IsSummary(m) {
      SummaryShadowed(head, piece, n - 1);
    } else {
      assert m in piece[..n];
    }
  }

  /* The chain is what compaction does. */

  function CarryOf(x: Extract, task: Option<Task>): Compaction.Carry {
    (summary, middle) => Append(summary, Step(x, ParseBlock(LatestSummary(middle, |middle|)), middle, task))
  }

  /** A compaction puts the new content right behind the system head, and any later compaction of the
      history that grows from it elides that message first. */
  lemma SummaryHeadsNextMiddle(ms: seq<Message>, keep: int, summarize: Compaction.Summarize, x: Extract,
                               task: Option<Task>, later: seq<Message>, keepLater: int)
    requires Compaction.Compact(ms, keep, summarize, CarryOf(x, task)).Compacted?
    requires var out := Compaction.Compact(ms, keep, summarize, CarryOf(x, task)).messages;
      var head := Compaction.SystemEnd(ms, 0);
      head < |later| && head < |out| && later[..head + 1] == out[..head + 1]
    requires Compaction.Middle(later, keepLater) != []
    ensures var middle := Compaction.Middle(ms, keep);
      Compaction.Middle(later, keepLater)[0]
      == UserMessage(Append(Headed(summarize(middle).text),
                            Step(x, ParseBlock(LatestSummary(middle, |middle|)), middle, task)))
  {
    hide Append, Step, ParseBlock, LatestSummary, TrimSpace;
    var out := Compaction.Compact(ms, keep, summarize, CarryOf(x, task)).messages;
    var head := Compaction.SystemEnd(ms, 0);
    assert later[head] == later[..head + 1][head] == out[..head + 1][head] == out[head];
    forall i | 0 <= i < head ensures later[i] == ms[i] {
      assert later[i] == later[..head + 1][i] == out[..head + 1][i] == out[i];
    }
    SystemEndIs(later, 0, head);
  }

  lemma {:induction false} SystemEndIs(ms: seq<Message>, i: nat, head: nat)
    requires i <= head < |ms| && ms[head].role != System && forall k | 0 <= k < head :: ms[k].role == System
    ensures Compaction.SystemEnd(ms, i) == head
    decreases head - i
  {
    if i < head {
      SystemEndIs(ms, i + 1, head);
    }
  }
}
