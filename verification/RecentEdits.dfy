/** The recent-edits list that compaction carries along (internal/agent/compaction_preserve.go). */
module RecentEdits {
  import opened Text
  import opened Transcript
  import opened Summarizer

  const MAX_RECENT_EDITS := 20
  const EDIT_TOOLS := {"write_file", "edit_file"}

  /** A preserved name with its body: here a path and the note of its last edit. */
  datatype Entry = Entry(name: string, body: string)

  /** How the target of an edit is read from its arguments ("" for none), and its note from a result. */
  datatype Readers = Readers(path: string -> string, note: string -> string)

  /* The edits of a transcript. */

  predicate IsEdit(r: Readers, call: ToolCall) {
    call.name in EDIT_TOOLS && r.path(call.arguments) != ""
  }

  function EditsOf(r: Readers, calls: seq<ToolCall>, n: nat): seq<string>
    requires n <= |calls|
  {
    if n == 0 then []
    else EditsOf(r, calls, n - 1) + if IsEdit(r, calls[n - 1]) then [r.path(calls[n - 1].arguments)] else []
  }

  /** The edited paths of the first n messages, once per edit. */
  function Edits(r: Readers, ms: seq<Message>, n: nat): seq<string>
    requires n <= |ms|
  {
    if n == 0 then [] else Edits(r, ms, n - 1) + EditsOf(r, ms[n - 1].toolCalls, |ms[n - 1].toolCalls|)
  }

  type Paths = map<string, string>

  function IdsOf(r: Readers, known: Paths, calls: seq<ToolCall>, n: nat): Paths
    requires n <= |calls|
  {
    if n == 0 then known
    else
      var before := IdsOf(r, known, calls, n - 1);
      var call := calls[n - 1];
      if IsEdit(r, call) && call.id != "" then before[call.id := r.path(call.arguments)] else before
  }

  /** Which path the edit with an id was about. */
  function PathById(r: Readers, ms: seq<Message>, n: nat): Paths
    requires n <= |ms|
  {
    if n == 0 then map[] else IdsOf(r, PathById(r, ms, n - 1), ms[n - 1].toolCalls, |ms[n - 1].toolCalls|)
  }

  predicate IsResult(ids: Paths, m: Message) {
    m.role == Tool && m.toolCallId != "" && m.toolCallId in ids
  }

  /** The note of the last result of an edit, by path. */
  function NotesTo(r: Readers, ids: Paths, ms: seq<Message>, n: nat): Paths
    requires n <= |ms|
  {
    if n == 0 then map[]
    else
      var before := NotesTo(r, ids, ms, n - 1);
      var m := ms[n - 1];
      if IsResult(ids, m) then before[ids[m.toolCallId] := r.note(m.content)] else before
  }

  function Notes(r: Readers, ms: seq<Message>): Paths {
    NotesTo(r, PathById(r, ms, |ms|), ms, |ms|)
  }

  function Lookup(notes: Paths, path: string): string { if path in notes then notes[path] else "" }

  /** Each path at its last occurrence, from position i on. */
  function LastSeen(paths: seq<string>, i: nat): seq<string>
    requires i <= |paths|
    decreases |paths| - i
  {
    if i == |paths| then []
    else if paths[i] in paths[i + 1..] then LastSeen(paths, i + 1)
    else [paths[i]] + LastSeen(paths, i + 1)
  }

  function Tail<T>(s: seq<T>, n: nat): seq<T> { if |s| > n then s[|s| - n..] else s }

  function Noted(names: seq<string>, notes: Paths): (entries: seq<Entry>)
    ensures |entries| == |names|
    ensures forall i | 0 <= i < |names| :: entries[i] == Entry(names[i], Lookup(notes, names[i]))
  {
    seq(|names|, i requires 0 <= i < |names| => Entry(names[i], Lookup(notes, names[i])))
  }

  /** The recent edits of a transcript: the last twenty paths in last-edited order, with their notes. */
  function Recent(r: Readers, ms: seq<Message>): seq<Entry> {
    Noted(Tail(LastSeen(Edits(r, ms, |ms|), 0), MAX_RECENT_EDITS), Notes(r, ms))
  }

  method LastSeenOrder(paths: seq<string>) returns (order: seq<string>)
    ensures order == LastSeen(paths, 0)
  {
    var lastIdx: map<string, nat> := map[];
    for i := 0 to |paths|
      invariant forall k | 0 <= k < i :: paths[k] in lastIdx && k <= lastIdx[paths[k]]
      invariant forall p | p in lastIdx :: lastIdx[p] < i && paths[lastIdx[p]] == p
    {
      lastIdx := lastIdx[paths[i] := i];
    }
    order := [];
    for i := 0 to |paths|
      invariant order + LastSeen(paths, i) == LastSeen(paths, 0)
    {
      var p := paths[i];
      LaterIsLater(paths, i, lastIdx[p]);
      if lastIdx[p] == i {
        assert forall k | i < k < |paths| :: paths[k] != p;
        order := order + [p];
      }
    }
  }

  lemma LaterIsLater(paths: seq<string>, i: nat, last: nat)
    requires i <= last < |paths| && paths[last] == paths[i]
    requires forall k | last < k < |paths| :: paths[k] != paths[i]
    ensures paths[i] in paths[i + 1..] <==> last != i
  {
    if last > i {
      assert paths[i + 1..][last - i - 1] == paths[i];
    }
  }

  method CollectEdits(messages: seq<Message>, r: Readers) returns (pathById: Paths, sequence: seq<string>)
    ensures sequence == Edits(r, messages, |messages|) && pathById == PathById(r, messages, |messages|)
  {
    pathById := map[];
    sequence := [];
    for i := 0 to |messages|
      invariant sequence == Edits(r, messages, i) && pathById == PathById(r, messages, i)
    {
      var calls := messages[i].toolCalls;
      for j := 0 to |calls|
        invariant sequence == Edits(r, messages, i) + EditsOf(r, calls, j)
        invariant pathById == IdsOf(r, PathById(r, messages, i), calls, j)
      {
        var call := calls[j];
        if call.name !in EDIT_TOOLS {
          continue;
        }
        var path := r.path(call.arguments);
        if path == "" {
          continue;
        }
        if call.id != "" {
          pathById := pathById[call.id := path];
        }
        sequence := sequence + [path];
      }
    }
  }

  method CollectNotes(messages: seq<Message>, r: Readers, pathById: Paths) returns (noteByPath: Paths)
    ensures noteByPath == NotesTo(r, pathById, messages, |messages|)
  {
    noteByPath := map[];
    for i := 0 to |messages|
      invariant noteByPath == NotesTo(r, pathById, messages, i)
    {
      var m := messages[i];
      if m.role != Tool || m.toolCallId == "" {
        continue;
      }
      if m.toolCallId in pathById {
        noteByPath := noteByPath[pathById[m.toolCallId] := r.note(m.content)];
      }
    }
  }

  method RecentEditsOf(messages: seq<Message>, r: Readers) returns (entries: seq<Entry>)
    ensures entries == Recent(r, messages)
  {
    var pathById, sequence := CollectEdits(messages, r);
    var order := LastSeenOrder(sequence);
    if |order| == 0 {
      return [];
    }
    var noteByPath := CollectNotes(messages, r, pathById);
    if |order| > MAX_RECENT_EDITS {
      order := order[|order| - MAX_RECENT_EDITS..];
    }
    entries := [];
    for i := 0 to |order|
      invariant entries == Noted(order[..i], noteByPath)
    {
      var note := if order[i] in noteByPath then noteByPath[order[i]] else "";
      entries := entries + [Entry(order[i], note)];
    }
    assert order[..|order|] == order;
  }

  /* Merging with the edits an earlier compaction preserved. */

  function NamesOf(entries: seq<Entry>): (names: seq<string>)
    ensures |names| == |entries|
    ensures forall i | 0 <= i < |entries| :: names[i] == entries[i].name
  {
    seq(|entries|, i requires 0 <= i < |entries| => entries[i].name)
  }

  function Outside(entries: seq<Entry>, names: seq<string>, n: nat): seq<Entry>
    requires n <= |entries|
  {
    if n == 0 then []
    else Outside(entries, names, n - 1) + if entries[n - 1].name in names then [] else [entries[n - 1]]
  }

  function Bodies(entries: seq<Entry>, n: nat): Paths
    requires n <= |entries|
  {
    if n == 0 then map[] else Bodies(entries, n - 1)[entries[n - 1].name := entries[n - 1].body]
  }

  function FirstNames(entries: seq<Entry>, n: nat): seq<string>
    requires n <= |entries|
  {
    if n == 0 then []
    else
      var before := FirstNames(entries, n - 1);
      if entries[n - 1].name in before then before else before + [entries[n - 1].name]
  }

  /** Fresh edits move to the end, with their own notes; the others keep their order before them. */
  function Merged(older: seq<Entry>, newer: seq<Entry>): seq<Entry> {
    Outside(older, NamesOf(newer), |older|) + Noted(FirstNames(newer, |newer|), Bodies(newer, |newer|))
  }

  lemma {:induction false} SameNames(entries: seq<Entry>, n: nat)
    requires n <= |entries|
    ensures forall name :: name in FirstNames(entries, n) <==> name in Bodies(entries, n)
  {
    if n > 0 {
      SameNames(entries, n - 1);
    }
  }

  lemma {:induction false} BodyNames(entries: seq<Entry>, n: nat)
    requires n <= |entries|
    ensures forall name :: name in Bodies(entries, n) <==> name in NamesOf(entries)[..n]
  {
    if n > 0 {
      BodyNames(entries, n - 1);
      assert NamesOf(entries)[..n] == NamesOf(entries)[..n - 1] + [entries[n - 1].name];
    }
  }

  method FoldFresh(newer: seq<Entry>) returns (freshBody: Paths, freshOrder: seq<string>)
    ensures freshBody == Bodies(newer, |newer|) && freshOrder == FirstNames(newer, |newer|)
    ensures forall name :: name in freshBody <==> name in freshOrder
    ensures forall name :: name in freshBody <==> name in NamesOf(newer)
  {
    freshBody := map[];
    freshOrder := [];
    for i := 0 to |newer|
      invariant freshBody == Bodies(newer, i) && freshOrder == FirstNames(newer, i)
    {
      SameNames(newer, i);
      if newer[i].name !in freshBody {
        freshOrder := freshOrder + [newer[i].name];
      }
      freshBody := freshBody[newer[i].name := newer[i].body];
    }
    hide Bodies, FirstNames, NamesOf;
    SameNames(newer, |newer|);
    BodyNames(newer, |newer|);
    assert NamesOf(newer)[..|newer|] == NamesOf(newer);
  }

  method MergeRecentEdits(older: seq<Entry>, newer: seq<Entry>) returns (merged: seq<Entry>)
    ensures merged == Merged(older, newer)
  {
    hide FirstNames, Bodies, NamesOf;
    if |newer| == 0 {
      NothingOutsideNothing(older, |older|);
      return older;
    }
    var freshBody, freshOrder := FoldFresh(newer);
    merged := [];
    for i := 0 to |older|
      invariant merged == Outside(older, NamesOf(newer), i)
    {
      if older[i].name in freshBody {
        continue;
      }
      merged := merged + [older[i]];
    }
    ghost var kept := merged;
    for i := 0 to |freshOrder|
      invariant merged == kept + Noted(freshOrder[..i], freshBody)
    {
      merged := merged + [Entry(freshOrder[i], freshBody[freshOrder[i]])];
      assert Noted(freshOrder[..i + 1], freshBody)
        == Noted(freshOrder[..i], freshBody) + [Entry(freshOrder[i], freshBody[freshOrder[i]])];
    }
    assert freshOrder[..|freshOrder|] == freshOrder;
  }

  lemma {:induction false} NothingOutsideNothing(older: seq<Entry>, n: nat)
    requires n <= |older|
    ensures Outside(older, [], n) == older[..n]
    ensures Merged(older, []) == Outside(older, [], |older|)
  {
    if n > 0 {
      NothingOutsideNothing(older, n - 1);
      assert older[..n] == older[..n - 1] + [older[n - 1]];
    }
  }

  /** What one compaction carries on: the merge, capped. */
  method CapRecentEdits(entries: seq<Entry>) returns (capped: seq<Entry>)
    ensures capped == Tail(entries, MAX_RECENT_EDITS)
  {
    if |entries| > MAX_RECENT_EDITS {
      return entries[|entries| - MAX_RECENT_EDITS..];
    }
    return entries;
  }

  function Carry(r: Readers, carried: seq<Entry>, middle: seq<Message>): seq<Entry> {
    Tail(Merged(carried, Recent(r, middle)), MAX_RECENT_EDITS)
  }

  /** The list after any number of compactions, each eliding one piece of the transcript. */
  function Carried(r: Readers, pieces: seq<seq<Message>>): seq<Entry> {
    if pieces == [] then [] else Carry(r, Carried(r, pieces[..|pieces| - 1]), pieces[|pieces| - 1])
  }

  /* Carrying loses nothing: the order of the paths. */

  function Without(s: seq<string>, names: seq<string>): seq<string> {
    if s == [] then []
    else Without(s[..|s| - 1], names) + if s[|s| - 1] in names then [] else [s[|s| - 1]]
  }

  lemma {:induction false} WithoutConcat(a: seq<string>, b: seq<string>, names: seq<string>)
    ensures Without(a + b, names) == Without(a, names) + Without(b, names)
  {
    if b == [] {
      assert a + b == a;
    } else {
      assert (a + b)[..|a + b| - 1] == a + b[..|b| - 1];
      WithoutConcat(a, b[..|b| - 1], names);
    }
  }

  lemma {:induction false} LastSeenFacts(paths: seq<string>, i: nat)
    requires i <= |paths|
    ensures Distinct(LastSeen(paths, i))
    ensures forall p :: p in LastSeen(paths, i) <==> p in paths[i..]
    decreases |paths| - i
  {
    if i < |paths| {
      LastSeenFacts(paths, i + 1);
      assert paths[i..] == [paths[i]] + paths[i + 1..];
    }
  }

  /** Appending edits: the old paths that are not edited again keep their order, the new ones follow. */
  lemma {:induction false} LastSeenConcat(a: seq<string>, b: seq<string>, i: nat)
    requires i <= |a|
    ensures LastSeen(a + b, i) == Without(LastSeen(a, i), b) + LastSeen(b, 0)
    decreases |a| - i
  {
    hide Without, LastSeen;
    if i == |a| {
      SameTail(a, b, 0);
      LastSeenEnd(a);
      WithoutNone(b);
      ThreeParts([], LastSeen(b, 0), []);
    } else {
      LastSeenConcat(a, b, i + 1);
      LastSeenStep(a + b, i);
      LastSeenStep(a, i);
      DropConcat(a, b, i + 1);
      InConcat(a[i], a[i + 1..], b);
      WithoutFirst(a[i], LastSeen(a, i + 1), b);
      ThreeParts([a[i]], Without(LastSeen(a, i + 1), b), LastSeen(b, 0));
    }
  }

  lemma DropConcat(a: seq<string>, b: seq<string>, i: nat)
    requires i <= |a|
    ensures (a + b)[i..] == a[i..] + b
  {
  }

  lemma InConcat(x: string, a: seq<string>, b: seq<string>)
    ensures x in a + b <==> x in a || x in b
  {
  }

  lemma LastSeenEnd(paths: seq<string>)
    ensures LastSeen(paths, |paths|) == []
  {
  }

  lemma WithoutNone(names: seq<string>)
    ensures Without([], names) == []
  {
  }

  lemma LastSeenStep(paths: seq<string>, i: nat)
    requires i < |paths|
    ensures LastSeen(paths, i)
      == (if paths[i] in paths[i + 1..] then LastSeen(paths, i + 1) else [paths[i]] + LastSeen(paths, i + 1))
  {
  }

  lemma ThreeParts(a: seq<string>, b: seq<string>, c: seq<string>)
    ensures a + (b + c) == (a + b) + c
    ensures ([] + b) == b
  {
  }

  lemma WithoutFirst(name: string, s: seq<string>, names: seq<string>)
    ensures Without([name] + s, names) == (if name in names then [] else [name]) + Without(s, names)
  {
    hide Without;
    WithoutConcat([name], s, names);
    WithoutOne(name, names);
  }

  lemma WithoutOne(name: string, names: seq<string>)
    ensures Without([name], names) == if name in names then [] else [name]
  {
    assert [name][..0] == [];
    assert Without([name][..0], names) == [];
  }

  lemma {:induction false} SameTail(a: seq<string>, b: seq<string>, i: nat)
    requires i <= |b|
    ensures LastSeen(a + b, |a| + i) == LastSeen(b, i)
    decreases |b| - i
  {
    hide LastSeen;
    if i == |b| {
      LastSeenEnd(a + b);
      LastSeenEnd(b);
    } else {
      SameTail(a, b, i + 1);
      LastSeenStep(a + b, |a| + i);
      LastSeenStep(b, i);
      DropSuffix(a, b, i + 1);
    }
  }

  lemma DropSuffix(a: seq<string>, b: seq<string>, i: nat)
    requires i <= |b|
    ensures (a + b)[|a| + i..] == b[i..]
  {
  }

  /** Removing names from distinct strings removes no more than there are names. */
  lemma {:induction false} WithoutKeepsMany(s: seq<string>, names: seq<string>)
    requires Distinct(s)
    ensures |Without(s, names)| + |names| >= |s|
  {
    if s != [] && names != [] {
      var last := s[|s| - 1];
      if last in names {
        var k :| 0 <= k < |names| && names[k] == last;
        var fewer := names[..k] + names[k + 1..];
        WithoutKeepsMany(s[..|s| - 1], fewer);
        SameWithout(s[..|s| - 1], names, fewer);
      } else {
        WithoutKeepsMany(s[..|s| - 1], names);
      }
    } else if s != [] {
      WithoutKeepsMany(s[..|s| - 1], names);
    }
  }

  lemma {:induction false} SameWithout(s: seq<string>, a: seq<string>, b: seq<string>)
    requires forall x | x in s :: x in a <==> x in b
    ensures Without(s, a) == Without(s, b)
  {
    if s != [] {
      SameWithout(s[..|s| - 1], a, b);
    }
  }

  lemma TailOfConcat<T>(a: seq<T>, b: seq<T>, n: nat)
    ensures |b| >= n ==> Tail(a + b, n) == Tail(b, n)
    ensures |b| < n ==> Tail(a + b, n) == Tail(a, n - |b|) + b
  {
  }

  /** Capping before merging changes nothing: what the cap drops could not have survived. */
  lemma CapCommutes(older: seq<string>, newest: seq<string>, n: nat)
    requires Distinct(older)
    ensures Tail(Without(Tail(older, n), Tail(newest, n)) + Tail(newest, n), n)
      == Tail(Without(older, newest) + newest, n)
  {
    hide Without, Tail;
    TailFacts(newest, n);
    TailOfConcat(Without(Tail(older, n), Tail(newest, n)), Tail(newest, n), n);
    TailOfConcat(Without(older, newest), newest, n);
    TailFacts(Tail(newest, n), n);
    if |newest| < n {
      DroppedAnyway(older, newest, n);
    }
  }

  lemma TailFacts<T>(s: seq<T>, n: nat)
    ensures |Tail(s, n)| == if |s| > n then n else |s|
    ensures |s| <= n ==> Tail(s, n) == s
  {
  }

  lemma DroppedAnyway(older: seq<string>, newest: seq<string>, n: nat)
    requires Distinct(older) && |newest| < n
    ensures Tail(Without(Tail(older, n), newest), n - |newest|) == Tail(Without(older, newest), n - |newest|)
  {
    hide Without;
    if |older| > n {
      var dropped, kept := older[..|older| - n], older[|older| - n..];
      assert older == dropped + kept;
      assert Tail(older, n) == kept;
      hide Tail;
      WithoutConcat(dropped, kept, newest);
      WithoutKeepsMany(kept, newest);
      TailOfConcat(Without(dropped, newest), Without(kept, newest), n - |newest|);
      TailFacts(Without(kept, newest), n - |newest|);
    }
  }

  lemma {:induction false} EditsConcat(r: Readers, a: seq<Message>, b: seq<Message>, n: nat)
    requires n <= |b|
    ensures Edits(r, a + b, |a| + n) == Edits(r, a, |a|) + Edits(r, b, n)
  {
    if n == 0 {
      EditsPrefix(r, a, b, |a|);
    } else {
      EditsConcat(r, a, b, n - 1);
    }
  }

  lemma {:induction false} EditsPrefix(r: Readers, a: seq<Message>, b: seq<Message>, n: nat)
    requires n <= |a|
    ensures Edits(r, a + b, n) == Edits(r, a, n)
  {
    if n > 0 {
      EditsPrefix(r, a, b, n - 1);
    }
  }

  lemma {:induction false} OutsideNames(entries: seq<Entry>, names: seq<string>, n: nat)
    requires n <= |entries|
    ensures NamesOf(Outside(entries, names, n)) == Without(NamesOf(entries)[..n], names)
  {
    if n > 0 {
      OutsideNames(entries, names, n - 1);
      assert NamesOf(entries)[..n][..n - 1] == NamesOf(entries)[..n - 1];
      var rest := Outside(entries, names, n - 1);
      assert NamesOf(rest + [entries[n - 1]]) == NamesOf(rest) + [entries[n - 1].name];
    }
  }

  lemma {:induction false} FirstNamesOfDistinct(entries: seq<Entry>, n: nat)
    requires n <= |entries| && Distinct(NamesOf(entries))
    ensures FirstNames(entries, n) == NamesOf(entries)[..n]
  {
    if n > 0 {
      FirstNamesOfDistinct(entries, n - 1);
    }
  }

  lemma MergedNames(older: seq<Entry>, newer: seq<Entry>)
    requires Distinct(NamesOf(newer))
    ensures NamesOf(Merged(older, newer)) == Without(NamesOf(older), NamesOf(newer)) + NamesOf(newer)
  {
    OutsideNames(older, NamesOf(newer), |older|);
    FirstNamesOfDistinct(newer, |newer|);
    assert NamesOf(older)[..|older|] == NamesOf(older);
    assert NamesOf(newer)[..|newer|] == NamesOf(newer);
    var kept, newest :=
      Outside(older, NamesOf(newer), |older|), Noted(FirstNames(newer, |newer|), Bodies(newer, |newer|));
    assert NamesOf(kept + newest) == NamesOf(kept) + NamesOf(newest);
  }

  function EditOrder(r: Readers, ms: seq<Message>): seq<string> { LastSeen(Edits(r, ms, |ms|), 0) }

  lemma RecentNames(r: Readers, ms: seq<Message>)
    ensures NamesOf(Recent(r, ms)) == Tail(EditOrder(r, ms), MAX_RECENT_EDITS)
    ensures Distinct(NamesOf(Recent(r, ms))) && Distinct(EditOrder(r, ms))
  {
    LastSeenFacts(Edits(r, ms, |ms|), 0);
  }

  lemma TailNames(entries: seq<Entry>, n: nat)
    ensures NamesOf(Tail(entries, n)) == Tail(NamesOf(entries), n)
  {
  }

  lemma EditOrderConcat(r: Readers, before: seq<Message>, middle: seq<Message>)
    ensures EditOrder(r, before + middle)
         == Without(EditOrder(r, before), EditOrder(r, middle)) + EditOrder(r, middle)
  {
    hide LastSeen, Edits, Without;
    EditsConcat(r, before, middle, |middle|);
    var prior, newest := Edits(r, before, |before|), Edits(r, middle, |middle|);
    LastSeenConcat(prior, newest, 0);
    LastSeenFacts(newest, 0);
    assert newest[0..] == newest;
    SameWithout(EditOrder(r, before), newest, EditOrder(r, middle));
  }

  lemma CarryNames(r: Readers, carried: seq<Entry>, before: seq<Message>, middle: seq<Message>)
    requires NamesOf(carried) == NamesOf(Recent(r, before))
    ensures NamesOf(Carry(r, carried, middle)) == NamesOf(Recent(r, before + middle))
  {
    hide EditOrder, Tail, Without, Recent, Merged, NamesOf, Distinct;
    RecentNames(r, before);
    RecentNames(r, middle);
    RecentNames(r, before + middle);
    var n := MAX_RECENT_EDITS;
    var older, newest := EditOrder(r, before), EditOrder(r, middle);
    calc {
      NamesOf(Carry(r, carried, middle));
      { TailNames(Merged(carried, Recent(r, middle)), n); }
      Tail(NamesOf(Merged(carried, Recent(r, middle))), n);
      { MergedNames(carried, Recent(r, middle)); }
      Tail(Without(Tail(older, n), Tail(newest, n)) + Tail(newest, n), n);
      { CapCommutes(older, newest, n); }
      Tail(Without(older, newest) + newest, n);
      { EditOrderConcat(r, before, middle); }
      Tail(EditOrder(r, before + middle), n);
    }
  }

  /** Through any number of compactions the list names exactly the paths, in exactly the order, that
      one look at everything elided so far gives. */
  lemma {:induction false} CarriedPathsAreExact(r: Readers, pieces: seq<seq<Message>>)
    ensures NamesOf(Carried(r, pieces)) == NamesOf(Recent(r, Flatten(pieces)))
  {
    if pieces != [] {
      hide Recent, Carry, NamesOf, Flatten, Carried;
      var front, last := pieces[..|pieces| - 1], pieces[|pieces| - 1];
      CarriedPathsAreExact(r, front);
      CarryNames(r, Carried(r, front), Flatten(front), last);
      assert pieces == front + [last];
      CarriedStep(r, front, last);
    } else {
      hide Recent, NamesOf;
      NothingRecent(r);
    }
  }

  lemma NothingRecent(r: Readers)
    ensures Recent(r, []) == []
  {
  }

  lemma CarriedStep(r: Readers, front: seq<seq<Message>>, last: seq<Message>)
    ensures Carried(r, front + [last]) == Carry(r, Carried(r, front), last)
    ensures Flatten(front + [last]) == Flatten(front) + last
  {
    assert (front + [last])[..|front|] == front;
    FlattenConcat(front, [last]);
    FlattenOne(last);
  }

  /* Carrying loses nothing: the notes. */

  function ResultIds(ms: seq<Message>): set<string> {
    set m | m in ms && m.role == Tool :: m.toolCallId
  }

  /** No id of an edit in one piece is used in the other. */
  ghost predicate Apart(r: Readers, a: seq<Message>, b: seq<Message>) {
    var idsA, idsB := PathById(r, a, |a|).Keys, PathById(r, b, |b|).Keys;
    idsA !! idsB && idsA !! ResultIds(b) && idsB !! ResultIds(a)
  }

  /** Every file a piece edits has the result of one of its edits in that piece. */
  ghost predicate AllNoted(r: Readers, ms: seq<Message>) {
    forall p | p in Edits(r, ms, |ms|) :: p in Notes(r, ms)
  }

  lemma {:induction false} IdsOfAdds(r: Readers, known: Paths, calls: seq<ToolCall>, n: nat)
    requires n <= |calls|
    ensures IdsOf(r, known, calls, n) == known + IdsOf(r, map[], calls, n)
  {
    if n > 0 {
      IdsOfAdds(r, known, calls, n - 1);
    }
  }

  lemma {:induction false} PathsPrefix(r: Readers, a: seq<Message>, b: seq<Message>, n: nat)
    requires n <= |a|
    ensures PathById(r, a + b, n) == PathById(r, a, n)
  {
    if n > 0 {
      PathsPrefix(r, a, b, n - 1);
    }
  }

  lemma MergeAssociates(a: Paths, b: Paths, c: Paths)
    ensures (a + b) + c == a + (b + c)
  {
  }

  lemma {:induction false} PathsConcat(r: Readers, a: seq<Message>, b: seq<Message>, n: nat)
    requires n <= |b|
    ensures PathById(r, a + b, |a| + n) == PathById(r, a, |a|) + PathById(r, b, n)
  {
    if n == 0 {
      PathsPrefix(r, a, b, |a|);
    } else {
      hide IdsOf;
      PathsConcat(r, a, b, n - 1);
      var calls := b[n - 1].toolCalls;
      assert (a + b)[|a| + n - 1] == b[n - 1];
      MergeAssociates(PathById(r, a, |a|), PathById(r, b, n - 1), IdsOf(r, map[], calls, |calls|));
      IdsOfAdds(r, PathById(r, a + b, |a| + n - 1), calls, |calls|);
      IdsOfAdds(r, PathById(r, b, n - 1), calls, |calls|);
    }
  }

  lemma {:induction false} NotesPrefix(r: Readers, ids: Paths, more: Paths, a: seq<Message>, b: seq<Message>, n: nat)
    requires n <= |a| && ResultIds(a) !! more.Keys
    ensures NotesTo(r, ids + more, a + b, n) == NotesTo(r, ids, a, n)
  {
    if n > 0 {
      NotesPrefix(r, ids, more, a, b, n - 1);
      assert a[n - 1].role == Tool ==> a[n - 1].toolCallId in ResultIds(a);
    }
  }

  lemma {:induction false} NotesConcat(r: Readers, ids: Paths, more: Paths, a: seq<Message>, b: seq<Message>, n: nat)
    requires n <= |b| && ResultIds(a) !! more.Keys && ResultIds(b) !! ids.Keys
    ensures NotesTo(r, ids + more, a + b, |a| + n) == NotesTo(r, ids, a, |a|) + NotesTo(r, more, b, n)
  {
    if n == 0 {
      NotesPrefix(r, ids, more, a, b, |a|);
    } else {
      NotesConcat(r, ids, more, a, b, n - 1);
      assert b[n - 1].role == Tool ==> b[n - 1].toolCallId in ResultIds(b);
    }
  }

  lemma NotesOfBoth(r: Readers, a: seq<Message>, b: seq<Message>)
    requires Apart(r, a, b)
    ensures Notes(r, a + b) == Notes(r, a) + Notes(r, b)
  {
    PathsConcat(r, a, b, |b|);
    NotesConcat(r, PathById(r, a, |a|), PathById(r, b, |b|), a, b, |b|);
  }

  lemma {:induction false} IdsPointToEdits(r: Readers, known: Paths, calls: seq<ToolCall>, n: nat)
    requires n <= |calls|
    ensures var ids := IdsOf(r, known, calls, n);
      forall id | id in ids :: (id in known && ids[id] == known[id]) || ids[id] in EditsOf(r, calls, n)
  {
    if n > 0 {
      IdsPointToEdits(r, known, calls, n - 1);
      var path := r.path(calls[n - 1].arguments);
      assert IsEdit(r, calls[n - 1]) ==> EditsOf(r, calls, n)[|EditsOf(r, calls, n - 1)|] == path;
      assert forall p | p in EditsOf(r, calls, n - 1) :: p in EditsOf(r, calls, n);
    }
  }

  lemma {:induction false} PathsAreEdits(r: Readers, ms: seq<Message>, n: nat)
    requires n <= |ms|
    ensures forall id | id in PathById(r, ms, n) :: PathById(r, ms, n)[id] in Edits(r, ms, n)
  {
    if n > 0 {
      PathsAreEdits(r, ms, n - 1);
      var calls := ms[n - 1].toolCalls;
      IdsPointToEdits(r, PathById(r, ms, n - 1), calls, |calls|);
      var before, now := Edits(r, ms, n - 1), EditsOf(r, calls, |calls|);
      var known, ids := PathById(r, ms, n - 1), PathById(r, ms, n);
      assert ids == IdsOf(r, known, calls, |calls|);
      forall id | id in ids ensures ids[id] in before + now {
        assert ids[id] in before || ids[id] in now;
      }
    }
  }

  lemma {:induction false} NotesAreOfEdits(r: Readers, ms: seq<Message>, n: nat)
    requires n <= |ms|
    ensures forall p | p in NotesTo(r, PathById(r, ms, |ms|), ms, n) :: p in Edits(r, ms, |ms|)
  {
    if n > 0 {
      NotesAreOfEdits(r, ms, n - 1);
      PathsAreEdits(r, ms, |ms|);
    }
  }

  lemma {:induction false} BodiesOfDistinct(entries: seq<Entry>, n: nat)
    requires n <= |entries| && Distinct(NamesOf(entries))
    ensures forall i | 0 <= i < n ::
      entries[i].name in Bodies(entries, n) && Bodies(entries, n)[entries[i].name] == entries[i].body
  {
    if n > 0 {
      BodiesOfDistinct(entries, n - 1);
      assert forall i | 0 <= i < n - 1 :: NamesOf(entries)[i] != NamesOf(entries)[n - 1];
    }
  }

  lemma MergedOfDistinct(older: seq<Entry>, newer: seq<Entry>)
    requires Distinct(NamesOf(newer))
    ensures Merged(older, newer) == Outside(older, NamesOf(newer), |older|) + newer
  {
    hide FirstNames, Bodies, Distinct, NamesOf, Outside, Noted;
    FirstNamesOfDistinct(newer, |newer|);
    BodiesOfDistinct(newer, |newer|);
    assert NamesOf(newer)[..|newer|] == NamesOf(newer);
    NotedSelf(newer, Bodies(newer, |newer|));
  }

  lemma NotedSelf(entries: seq<Entry>, bodies: Paths)
    requires forall i | 0 <= i < |entries| :: entries[i].name in bodies && bodies[entries[i].name] == entries[i].body
    ensures Noted(NamesOf(entries), bodies) == entries
  {
  }

  lemma {:induction false} OutsideIsOutside(entries: seq<Entry>, names: seq<string>, n: nat)
    requires n <= |entries|
    ensures forall e | e in Outside(entries, names, n) :: e in entries && e.name !in names
  {
    if n > 0 {
      OutsideIsOutside(entries, names, n - 1);
    }
  }

  /** Every entry shows the last note of its file. */
  ghost predicate Faithful(entries: seq<Entry>, notes: Paths) {
    forall e | e in entries :: e.body == Lookup(notes, e.name)
  }

  /** What the cap leaves of a merge: fresh entries, and older ones only if the fresh ones do not fill it. */
  lemma KeptByCarry(r: Readers, carried: seq<Entry>, middle: seq<Message>, e: Entry)
    requires e in Carry(r, carried, middle)
    ensures || e in Recent(r, middle)
            || (e in carried && e.name !in Edits(r, middle, |middle|))
  {
    var newer := Recent(r, middle);
    RecentNames(r, middle);
    MergedOfDistinct(carried, newer);
    var kept := Outside(carried, NamesOf(newer), |carried|);
    OutsideIsOutside(carried, NamesOf(newer), |carried|);
    TailOfConcat(kept, newer, MAX_RECENT_EDITS);
    if |newer| < MAX_RECENT_EDITS {
      LastSeenFacts(Edits(r, middle, |middle|), 0);
      assert Edits(r, middle, |middle|)[0..] == Edits(r, middle, |middle|);
      assert NamesOf(newer) == EditOrder(r, middle);
    }
  }

  lemma CarryIsFaithful(r: Readers, carried: seq<Entry>, before: seq<Message>, middle: seq<Message>)
    requires Faithful(carried, Notes(r, before)) && Apart(r, before, middle) && AllNoted(r, middle)
    ensures Faithful(Carry(r, carried, middle), Notes(r, before + middle))
  {
    hide Carry, Notes, Edits, Apart;
    NotesOfBoth(r, before, middle);
    NotesStayInEdits(r, middle);
    forall e | e in Carry(r, carried, middle) ensures e.body == Lookup(Notes(r, before + middle), e.name) {
      KeptByCarry(r, carried, middle, e);
      if e in Recent(r, middle) {
        RecentIsEdited(r, middle, e);
      }
    }
  }

  lemma NotesStayInEdits(r: Readers, ms: seq<Message>)
    ensures forall p | p in Notes(r, ms) :: p in Edits(r, ms, |ms|)
  {
    NotesAreOfEdits(r, ms, |ms|);
  }

  lemma RecentIsEdited(r: Readers, ms: seq<Message>, e: Entry)
    requires e in Recent(r, ms)
    ensures e.name in Edits(r, ms, |ms|) && e.body == Lookup(Notes(r, ms), e.name)
  {
    var edits := Edits(r, ms, |ms|);
    LastSeenFacts(edits, 0);
    assert edits[0..] == edits;
    assert forall p | p in Tail(EditOrder(r, ms), MAX_RECENT_EDITS) :: p in EditOrder(r, ms);
  }

  lemma {:induction false} ApartFromAll(r: Readers, pieces: seq<seq<Message>>, b: seq<Message>)
    requires forall i | 0 <= i < |pieces| :: Apart(r, pieces[i], b)
    ensures Apart(r, Flatten(pieces), b)
  {
    if pieces != [] {
      ApartFromAll(r, pieces[1..], b);
      var a, rest := pieces[0], Flatten(pieces[1..]);
      PathsConcat(r, a, rest, |rest|);
      assert ResultIds(a + rest) == ResultIds(a) + ResultIds(rest);
    }
  }

  /** The list a chain of compactions carries is exactly the list one look at everything elided gives,
      notes included, when the pieces share no ids and each holds the results of its edits. */
  lemma {:induction false} CarriedEditsAreExact(r: Readers, pieces: seq<seq<Message>>)
    requires forall i | 0 <= i < |pieces| :: AllNoted(r, pieces[i])
    requires forall i, j | 0 <= i < j < |pieces| :: Apart(r, pieces[i], pieces[j])
    ensures Carried(r, pieces) == Recent(r, Flatten(pieces))
  {
    hide Recent, Carried, Notes, NamesOf, Apart, AllNoted;
    CarriedPathsAreExact(r, pieces);
    CarriedIsFaithful(r, pieces);
    RecentIsFaithful(r, Flatten(pieces));
    SameEntries(Carried(r, pieces), Recent(r, Flatten(pieces)), Notes(r, Flatten(pieces)));
  }

  lemma RecentIsFaithful(r: Readers, ms: seq<Message>)
    ensures Faithful(Recent(r, ms), Notes(r, ms))
  {
  }

  lemma SameEntries(a: seq<Entry>, b: seq<Entry>, notes: Paths)
    requires NamesOf(a) == NamesOf(b) && Faithful(a, notes) && Faithful(b, notes)
    ensures a == b
  {
    assert |a| == |b|;
    forall i | 0 <= i < |a| ensures a[i] == b[i] {
      assert NamesOf(a)[i] == NamesOf(b)[i];
      assert a[i] in a && b[i] in b;
    }
  }

  lemma {:induction false} CarriedIsFaithful(r: Readers, pieces: seq<seq<Message>>)
    requires forall i | 0 <= i < |pieces| :: AllNoted(r, pieces[i])
    requires forall i, j | 0 <= i < j < |pieces| :: Apart(r, pieces[i], pieces[j])
    ensures Faithful(Carried(r, pieces), Notes(r, Flatten(pieces)))
  {
    hide Notes, Apart, AllNoted, Carry, Faithful;
    if pieces != [] {
      var front, last := pieces[..|pieces| - 1], pieces[|pieces| - 1];
      CarriedIsFaithful(r, front);
      ApartFromAll(r, front, last);
      CarryIsFaithful(r, Carried(r, front), Flatten(front), last);
      assert pieces == front + [last];
      CarriedStep(r, front, last);
    } else {
      assert Faithful([], Notes(r, Flatten(pieces))) by { EmptyIsFaithful(Notes(r, Flatten(pieces))); }
    }
  }

  lemma EmptyIsFaithful(notes: Paths)
    ensures Faithful([], notes)
  {
  }

  /* When a piece holds the results of its edits. */

  ghost predicate UniqueIds(ms: seq<Message>) {
    && (forall i, k | 0 <= i < |ms| && 0 <= k < |ms[i].toolCalls| :: ms[i].toolCalls[k].id != "")
    && (forall i, j, k, l | 0 <= i < |ms| && 0 <= j < |ms| && 0 <= k < |ms[i].toolCalls| && 0 <= l < |ms[j].toolCalls|
         && ms[i].toolCalls[k].id == ms[j].toolCalls[l].id :: i == j && k == l)
  }

  lemma {:induction false} EditFound(r: Readers, ms: seq<Message>, n: nat, p: string) returns (i: nat, k: nat)
    requires n <= |ms| && p in Edits(r, ms, n)
    ensures i < n && k < |ms[i].toolCalls| && IsEdit(r, ms[i].toolCalls[k]) && r.path(ms[i].toolCalls[k].arguments) == p
  {
    var calls := ms[n - 1].toolCalls;
    if p in Edits(r, ms, n - 1) {
      i, k := EditFound(r, ms, n - 1, p);
    } else {
      i := n - 1;
      k := EditFoundIn(r, calls, |calls|, p);
    }
  }

  lemma {:induction false} EditFoundIn(r: Readers, calls: seq<ToolCall>, n: nat, p: string) returns (k: nat)
    requires n <= |calls| && p in EditsOf(r, calls, n)
    ensures k < n && IsEdit(r, calls[k]) && r.path(calls[k].arguments) == p
  {
    if p in EditsOf(r, calls, n - 1) {
      k := EditFoundIn(r, calls, n - 1, p);
    } else {
      k := n - 1;
    }
  }

  /** An id that only one call carries keeps the path of that call. */
  lemma {:induction false} IdsOfKeeps(r: Readers, known: Paths, calls: seq<ToolCall>, n: nat, id: string, path: string)
    requires n <= |calls| && id != ""
    requires id in known ==> known[id] == path
    requires id in known || exists k :: 0 <= k < n && calls[k].id == id && IsEdit(r, calls[k])
    requires forall k | 0 <= k < n && calls[k].id == id :: IsEdit(r, calls[k]) && r.path(calls[k].arguments) == path
    ensures id in IdsOf(r, known, calls, n) && IdsOf(r, known, calls, n)[id] == path
  {
    if n > 0 && (id in known || exists k :: 0 <= k < n - 1 && calls[k].id == id && IsEdit(r, calls[k])) {
      IdsOfKeeps(r, known, calls, n - 1, id, path);
    }
  }

  lemma {:induction false} PathFound(r: Readers, ms: seq<Message>, i: nat, k: nat, n: nat)
    requires UniqueIds(ms) && i < n <= |ms| && k < |ms[i].toolCalls| && IsEdit(r, ms[i].toolCalls[k])
    ensures var call := ms[i].toolCalls[k];
      call.id in PathById(r, ms, n) && PathById(r, ms, n)[call.id] == r.path(call.arguments)
    decreases n
  {
    var call := ms[i].toolCalls[k];
    var calls := ms[n - 1].toolCalls;
    if i < n - 1 {
      PathFound(r, ms, i, k, n - 1);
      IdsOfKeeps(r, PathById(r, ms, n - 1), calls, |calls|, call.id, r.path(call.arguments));
    } else {
      IdUnknownBefore(r, ms, i, k, i);
      IdsOfKeeps(r, PathById(r, ms, i), calls, |calls|, call.id, r.path(call.arguments));
    }
  }

  lemma {:induction false} IdUnknownBefore(r: Readers, ms: seq<Message>, i: nat, k: nat, n: nat)
    requires UniqueIds(ms) && n <= i < |ms| && k < |ms[i].toolCalls|
    ensures ms[i].toolCalls[k].id !in PathById(r, ms, n)
  {
    if n > 0 {
      IdUnknownBefore(r, ms, i, k, n - 1);
      IdStaysUnknown(r, PathById(r, ms, n - 1), ms[n - 1].toolCalls, |ms[n - 1].toolCalls|, ms[i].toolCalls[k].id);
    }
  }

  lemma {:induction false} IdStaysUnknown(r: Readers, known: Paths, calls: seq<ToolCall>, n: nat, id: string)
    requires n <= |calls| && id !in known && forall k | 0 <= k < n :: calls[k].id != id
    ensures id !in IdsOf(r, known, calls, n)
  {
    if n > 0 {
      IdStaysUnknown(r, known, calls, n - 1, id);
    }
  }

  lemma {:induction false} ResultIsNoted(r: Readers, ids: Paths, ms: seq<Message>, at: nat, n: nat)
    requires at < n <= |ms| && IsResult(ids, ms[at])
    ensures ids[ms[at].toolCallId] in NotesTo(r, ids, ms, n)
  {
    if at < n - 1 {
      ResultIsNoted(r, ids, ms, at, n - 1);
    }
  }

  /** A replayable piece whose call ids are unique holds a note for every file it edits: this is what
      compaction elides, because it never separates a call from its result. */
  lemma ValidPieceIsNoted(r: Readers, ms: seq<Message>)
    requires Valid(ms) && UniqueIds(ms)
    ensures AllNoted(r, ms)
  {
    forall p | p in Edits(r, ms, |ms|) ensures p in Notes(r, ms) {
      var i, k := EditFound(r, ms, |ms|, p);
      PathFound(r, ms, i, k, |ms|);
      ValidIffPaired(ms);
      CallsAreAnswered(ms, i, k + 1);
      assert Answers(ms, i, k);
      ResultIsNoted(r, PathById(r, ms, |ms|), ms, i + 1 + k, |ms|);
    }
  }
}
