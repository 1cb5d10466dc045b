/** What one look at a stretch of transcript finds, said of its calls and their results by position
    (internal/agent/compaction_preserve.go): loaded skills, tool schemas and instructions, edits, and the plan. */
module OneLook {
  import opened Text
  import opened Transcript
  import opened RecentEdits
  import opened PreservedState
  import opened Carryover

  /* Places in a transcript. */

  /** A message and a place in it: an entry of its text, or one of its calls. */
  datatype Place = Place(message: nat, within: nat)

  predicate Earlier(a: Place, b: Place) { a.message < b.message || (a.message == b.message && a.within < b.within) }

  /** What stands at which place. */
  type Standing<!T> = (Place, T) -> bool

  /** items lists what stands anywhere before message n, in the order of the places. */
  ghost predicate Lists<T(!new)>(items: seq<T>, places: seq<Place>, stands: Standing<T>, n: nat) {
    && |items| == |places|
    && (forall t | 0 <= t < |items| :: stands(places[t], items[t]) && places[t].message < n)
    && (forall t, u | 0 <= t < u < |items| :: Earlier(places[t], places[u]))
    && (forall at, item | stands(at, item) && at.message < n ::
          exists t :: 0 <= t < |items| && places[t] == at && items[t] == item)
  }

  lemma NothingListed<T(!new)>(stands: Standing<T>)
    ensures Lists([], [], stands, 0)
  {
  }

  /** The places of a message. */
  function Within(message: nat, withins: seq<nat>): (places: seq<Place>)
    ensures |places| == |withins| && forall t | 0 <= t < |withins| :: places[t] == Place(message, withins[t])
  {
    seq(|withins|, t requires 0 <= t < |withins| => Place(message, withins[t]))
  }

  /** more lists what stands in message n. */
  ghost predicate ListsOne<T(!new)>(more: seq<T>, withins: seq<nat>, stands: Standing<T>, n: nat) {
    && |more| == |withins|
    && (forall t | 0 <= t < |more| :: stands(Place(n, withins[t]), more[t]))
    && (forall t, u | 0 <= t < u < |more| :: withins[t] < withins[u])
    && (forall within, item | stands(Place(n, within), item) ::
          exists t :: 0 <= t < |more| && withins[t] == within && more[t] == item)
  }

  lemma ListsMore<T(!new)>(items: seq<T>, places: seq<Place>, more: seq<T>, withins: seq<nat>, stands: Standing<T>,
                           n: nat)
    requires Lists(items, places, stands, n) && ListsOne(more, withins, stands, n)
    ensures Lists(items + more, places + Within(n, withins), stands, n + 1)
  {
    var all, added, at := items + more, Within(n, withins), places + Within(n, withins);
    forall t | 0 <= t < |all| ensures stands(at[t], all[t]) && at[t].message < n + 1 {
      if t >= |items| {
        assert at[t] == Place(n, withins[t - |items|]) && all[t] == more[t - |items|];
      }
    }
    forall t, u | 0 <= t < u < |all| ensures Earlier(at[t], at[u]) {
      if t >= |items| {
        assert withins[t - |items|] < withins[u - |items|];
      }
    }
    forall place, item | stands(place, item) && place.message < n + 1
      ensures exists t :: 0 <= t < |all| && at[t] == place && all[t] == item
    {
      MoreIsListed(items, places, more, withins, stands, n, place, item);
    }
  }

  lemma MoreIsListed<T(!new)>(items: seq<T>, places: seq<Place>, more: seq<T>, withins: seq<nat>, stands: Standing<T>,
                              n: nat, place: Place, item: T)
    requires Lists(items, places, stands, n) && ListsOne(more, withins, stands, n)
    requires stands(place, item) && place.message < n + 1
    ensures var all, at := items + more, places + Within(n, withins);
      exists t :: 0 <= t < |all| && at[t] == place && all[t] == item
  {
    var all, at := items + more, places + Within(n, withins);
    if place.message < n {
      var t :| 0 <= t < |items| && places[t] == place && items[t] == item;
      assert at[t] == place && all[t] == item;
    } else {
      assert place == Place(n, place.within);
      var t :| 0 <= t < |more| && withins[t] == place.within && more[t] == item;
      assert at[|items| + t] == place && all[|items| + t] == item;
    }
  }

  /* Newest bodies in first-seen order. */

  /** Nothing with this name stands later. */
  ghost predicate Newest(stands: Standing<Entry>, at: Place, name: string) {
    forall later, e | stands(later, e) && e.name == name :: !Earlier(at, later)
  }

  /** The entries are the newest of each name that stands anywhere, in the order in which the names came up. */
  ghost predicate NewestOfEach(entries: seq<Entry>, stands: Standing<Entry>) {
    && (forall at, e | stands(at, e) && Newest(stands, at, e.name) :: e in entries)
    && (forall e | e in entries :: exists at :: stands(at, e) && Newest(stands, at, e.name))
    && (forall a, b | 0 <= a < b < |entries| :: FirstBefore(stands, entries[a].name, entries[b].name))
  }

  /** The one name came up before the other did. */
  ghost predicate FirstBefore(stands: Standing<Entry>, name: string, other: string) {
    exists at, e ::
      stands(at, e) && e.name == name && forall later, f | stands(later, f) && f.name == other :: Earlier(at, later)
  }

  ghost predicate LastAt(items: seq<Entry>, t: nat)
    requires t < |items|
  {
    forall u | t < u < |items| :: items[u].name != items[t].name
  }

  lemma {:induction false} BodyIsLast(items: seq<Entry>, n: nat, name: string) returns (t: nat)
    requires n <= |items| && name in Bodies(items, n)
    ensures t < n && items[t] == Entry(name, Bodies(items, n)[name]) && forall u | t < u < n :: items[u].name != name
  {
    if items[n - 1].name == name {
      t := n - 1;
    } else {
      t := BodyIsLast(items, n - 1, name);
    }
  }

  lemma {:induction false} LastIsBody(items: seq<Entry>, n: nat, t: nat)
    requires t < n <= |items| && forall u | t < u < n :: items[u].name != items[t].name
    ensures items[t].name in Bodies(items, n) && Bodies(items, n)[items[t].name] == items[t].body
  {
    if t < n - 1 {
      LastIsBody(items, n - 1, t);
    }
  }

  lemma {:induction false} NamesByFirst(items: seq<Entry>, n: nat, a: nat) returns (t: nat)
    requires n <= |items| && a < |FirstNames(items, n)|
    ensures t < n && items[t].name == FirstNames(items, n)[a]
    ensures forall u | 0 <= u < t :: items[u].name in FirstNames(items, n)[..a]
  {
    var before := FirstNames(items, n - 1);
    if a < |before| {
      t := NamesByFirst(items, n - 1, a);
      assert FirstNames(items, n)[..a] == before[..a];
    } else {
      t := n - 1;
      assert FirstNames(items, n)[..a] == before;
      forall u | 0 <= u < t ensures items[u].name in FirstNames(items, n)[..a] {
        NameKnown(items, n - 1, u);
      }
    }
  }

  lemma {:induction false} NameKnown(items: seq<Entry>, n: nat, u: nat)
    requires u < n <= |items|
    ensures items[u].name in FirstNames(items, n)
  {
    if u < n - 1 {
      NameKnown(items, n - 1, u);
    }
  }

  /** Places come in the order of their indices. */
  lemma InOrder<T(!new)>(items: seq<T>, places: seq<Place>, stands: Standing<T>, n: nat, t: nat, u: nat)
    requires Lists(items, places, stands, n) && t < |items| && u < |items|
    ensures Earlier(places[t], places[u]) <==> t < u
  {
  }

  lemma IndexOf<T(!new)>(items: seq<T>, places: seq<Place>, stands: Standing<T>, n: nat, at: Place, item: T)
    returns (t: nat)
    requires Lists(items, places, stands, n) && stands(at, item) && at.message < n
    ensures t < |items| && places[t] == at && items[t] == item
  {
    t :| 0 <= t < |items| && places[t] == at && items[t] == item;
  }

  lemma LatestHas(items: seq<Entry>, e: Entry)
    ensures e in Latest(items)
       <==> e.name in FirstNames(items, |items|) && e.body == Lookup(Bodies(items, |items|), e.name)
  {
    var names := FirstNames(items, |items|);
    if e.name in names && e.body == Lookup(Bodies(items, |items|), e.name) {
      var k :| 0 <= k < |names| && names[k] == e.name;
      assert Latest(items)[k] == e;
    }
  }

  lemma NewestIsLatest(items: seq<Entry>, places: seq<Place>, stands: Standing<Entry>, n: nat, at: Place, e: Entry)
    requires Lists(items, places, stands, n) && at.message < n && stands(at, e) && Newest(stands, at, e.name)
    ensures e in Latest(items)
  {
    var t := IndexOf(items, places, stands, n, at, e);
    forall u | t < u < |items| ensures items[u].name != e.name {
      InOrder(items, places, stands, n, t, u);
      assert stands(places[u], items[u]);
    }
    LastIsBody(items, |items|, t);
    NameKnown(items, |items|, t);
    LatestHas(items, e);
  }

  lemma LatestIsNewest(items: seq<Entry>, places: seq<Place>, stands: Standing<Entry>, n: nat, e: Entry)
    returns (at: Place)
    requires Lists(items, places, stands, n) && (forall p, f | stands(p, f) :: p.message < n) && e in Latest(items)
    ensures stands(at, e) && Newest(stands, at, e.name)
  {
    LatestHas(items, e);
    SameNames(items, |items|);
    var t := BodyIsLast(items, |items|, e.name);
    at := places[t];
    assert stands(at, items[t]);
    forall later, f | stands(later, f) && f.name == e.name ensures !Earlier(at, later) {
      var u := IndexOf(items, places, stands, n, later, f);
      InOrder(items, places, stands, n, t, u);
    }
  }

  lemma LatestInOrder(items: seq<Entry>, places: seq<Place>, stands: Standing<Entry>, n: nat, a: nat, b: nat)
    requires Lists(items, places, stands, n) && (forall p, f | stands(p, f) :: p.message < n)
    requires a < b < |Latest(items)|
    ensures FirstBefore(stands, Latest(items)[a].name, Latest(items)[b].name)
  {
    var names := FirstNames(items, |items|);
    FirstNamesDistinct(items, |items|);
    var t := NamesByFirst(items, |items|, a);
    assert stands(places[t], items[t]);
    forall later, f | stands(later, f) && f.name == names[b] ensures Earlier(places[t], later) {
      var u := IndexOf(items, places, stands, n, later, f);
      assert names[b] !in names[..a];
      InOrder(items, places, stands, n, t, u);
    }
  }

  lemma LatestIsNewestOfEach(items: seq<Entry>, places: seq<Place>, stands: Standing<Entry>, n: nat)
    requires Lists(items, places, stands, n) && forall p, f | stands(p, f) :: p.message < n
    ensures NewestOfEach(Latest(items), stands)
  {
    hide Lists, Latest, Newest, FirstBefore;
    forall at, e | stands(at, e) && Newest(stands, at, e.name) ensures e in Latest(items) {
      NewestIsLatest(items, places, stands, n, at, e);
    }
    forall e | e in Latest(items) ensures exists at :: stands(at, e) && Newest(stands, at, e.name) {
      var at := LatestIsNewest(items, places, stands, n, e);
    }
    forall a, b | 0 <= a < b < |Latest(items)|
      ensures FirstBefore(stands, Latest(items)[a].name, Latest(items)[b].name)
    {
      LatestInOrder(items, places, stands, n, a, b);
    }
  }

  /* Which call a result answers. */

  /** Message p answers a call with this name and these arguments. */
  ghost predicate AnswersCall(ms: seq<Message>, p: nat, name: string, arguments: string) {
    exists i: nat, k: nat ::
      IsAnswer(ms, i, k, p) && ms[i].toolCalls[k].name == name && ms[i].toolCalls[k].arguments == arguments
  }

  /** A skill that a result loaded. */
  ghost predicate LoadsSkill(x: Extract, ms: seq<Message>, at: Place, e: Entry) {
    && at.within == 0 && at.message < |ms| && TrimSpace(ms[at.message].content) != ""
    && e.body == x.cap(TrimSpace(ms[at.message].content))
    && exists arguments :: AnswersCall(ms, at.message, "skill", arguments)
                           && e.name == if x.nameOf(arguments) == "" then "(unnamed)" else x.nameOf(arguments)
  }

  /** A tool schema that a result of a tool search holds. */
  ghost predicate LoadsSchema(x: Extract, ms: seq<Message>, at: Place, e: Entry) {
    && at.message < |ms| && at.within < |x.entriesOf(ms[at.message].content)|
    && e == x.entriesOf(ms[at.message].content)[at.within] && e.name != ""
    && exists arguments :: AnswersCall(ms, at.message, "tool_search", arguments)
  }

  /** Project instructions that the user brought. */
  ghost predicate LoadsInstructions(x: Extract, ms: seq<Message>, at: Place, e: Entry) {
    && at.within == 0 && at.message < |ms| && ms[at.message].role == User
    && StartsWith(TrimSpace(ms[at.message].content), "# ")
    && x.blockOf(TrimSpace(ms[at.message].content)) == Some(e) && e.name != ""
  }

  ghost function SkillsIn(x: Extract, ms: seq<Message>): Standing<Entry> { (at, e) => LoadsSkill(x, ms, at, e) }

  ghost function SchemasIn(x: Extract, ms: seq<Message>): Standing<Entry> { (at, e) => LoadsSchema(x, ms, at, e) }

  ghost function InstructionsIn(x: Extract, ms: seq<Message>): Standing<Entry> {
    (at, e) => LoadsInstructions(x, ms, at, e)
  }

  lemma {:induction false} KeysAreOfCalls(src: Source, ms: seq<Message>, n: nat, id: string) returns (i: nat, k: nat)
    requires n <= |ms| && id in Keys(src, ms, n)
    ensures i < n && k < |ms[i].toolCalls| && ms[i].toolCalls[k].id == id
    ensures KeyOf(src, ms[i].toolCalls[k]) == Some(Keys(src, ms, n)[id])
  {
    var calls := ms[n - 1].toolCalls;
    var known := Keys(src, ms, n - 1);
    i := n - 1;
    k := 0;
    var found, at := KeysOfOne(src, known, calls, |calls|, id);
    if found {
      k := at;
    } else {
      i, k := KeysAreOfCalls(src, ms, n - 1, id);
    }
  }

  lemma {:induction false} KeysOfOne(src: Source, known: Paths, calls: seq<ToolCall>, n: nat, id: string)
    returns (found: bool, k: nat)
    requires n <= |calls| && id in KeysOfCalls(src, known, calls, n)
    ensures if found then
        k < n && calls[k].id == id && KeyOf(src, calls[k]) == Some(KeysOfCalls(src, known, calls, n)[id])
      else id in known && known[id] == KeysOfCalls(src, known, calls, n)[id]
  {
    found, k := false, 0;
    if n > 0 {
      if calls[n - 1].id == id && id != "" && KeyOf(src, calls[n - 1]).Some? {
        found, k := true, n - 1;
      } else {
        found, k := KeysOfOne(src, known, calls, n - 1, id);
      }
    }
  }

  lemma {:induction false} CallsHaveKeys(src: Source, ms: seq<Message>, n: nat, i: nat, k: nat)
    requires i < n <= |ms| && k < |ms[i].toolCalls|
    requires ms[i].toolCalls[k].id != "" && KeyOf(src, ms[i].toolCalls[k]).Some?
    ensures ms[i].toolCalls[k].id in Keys(src, ms, n)
  {
    var calls := ms[n - 1].toolCalls;
    if i < n - 1 {
      CallsHaveKeys(src, ms, n - 1, i, k);
    }
    KeysGrow(src, Keys(src, ms, n - 1), calls, |calls|, if i < n - 1 then 0 else k, ms[i].toolCalls[k].id);
  }

  lemma {:induction false} KeysGrow(src: Source, known: Paths, calls: seq<ToolCall>, n: nat, k: nat, id: string)
    requires n <= |calls|
    requires id in known || (k < n && calls[k].id == id && id != "" && KeyOf(src, calls[k]).Some?)
    ensures id in KeysOfCalls(src, known, calls, n)
  {
    if n > 0 && (id in known || k < n - 1) {
      KeysGrow(src, known, calls, n - 1, k, id);
    }
  }

  /** In a replayable stretch with ids of its own, a result answers one call, and the key under its id is that of
      the call. */
  lemma CallOfResult(src: Source, ms: seq<Message>, p: nat) returns (i: nat, k: nat)
    requires Valid(ms) && UniqueIds(ms) && p < |ms| && ms[p].role == Tool
    ensures IsAnswer(ms, i, k, p) && ms[p].toolCallId == ms[i].toolCalls[k].id != ""
    ensures forall name, arguments ::
      AnswersCall(ms, p, name, arguments)
      <==> ms[i].toolCalls[k].name == name && ms[i].toolCalls[k].arguments == arguments
    ensures var keys := Keys(src, ms, |ms|);
      && (ms[p].toolCallId in keys <==> KeyOf(src, ms[i].toolCalls[k]).Some?)
      && (ms[p].toolCallId in keys ==> KeyOf(src, ms[i].toolCalls[k]) == Some(keys[ms[p].toolCallId]))
  {
    ValidIffPaired(ms);
    hide Valid;
    i, k :| IsAnswer(ms, i, k, p);
    assert Answers(ms, i, k);
    forall j: nat, l: nat | IsAnswer(ms, j, l, p) ensures j == i && l == k {
      assert Answers(ms, j, l);
    }
    var id, keys := ms[p].toolCallId, Keys(src, ms, |ms|);
    if KeyOf(src, ms[i].toolCalls[k]).Some? {
      CallsHaveKeys(src, ms, |ms|, i, k);
    }
    if id in keys {
      var j, l := KeysAreOfCalls(src, ms, |ms|, id);
      assert i == j && k == l;
    }
  }

  lemma NoAnswer(ms: seq<Message>, p: nat)
    requires Valid(ms) && p < |ms| && ms[p].role != Tool
    ensures forall name, arguments :: !AnswersCall(ms, p, name, arguments)
  {
    ValidIffPaired(ms);
    hide Valid;
    forall i: nat, k: nat ensures !IsAnswer(ms, i, k, p) {
      if IsAnswer(ms, i, k, p) {
        AnswerIsTool(ms, i, k, p);
      }
    }
  }

  lemma AnswerIsTool(ms: seq<Message>, i: nat, k: nat, p: nat)
    requires Paired(ms) && IsAnswer(ms, i, k, p)
    ensures p < |ms| && ms[p].role == Tool
  {
    assert Answers(ms, i, k);
  }

  /* What each message brings. */

  lemma SkillsOfOne(x: Extract, ms: seq<Message>, p: nat) returns (withins: seq<nat>)
    requires Valid(ms) && UniqueIds(ms) && p < |ms|
    ensures ListsOne(Load(x.Skills(), Keys(x.Skills(), ms, |ms|), ms[p]), withins, SkillsIn(x, ms), p)
  {
    hide Valid, UniqueIds, TrimSpace, Keys, AnswersCall;
    var more := Load(x.Skills(), Keys(x.Skills(), ms, |ms|), ms[p]);
    withins := seq(|more|, _ => 0);
    if ms[p].role == Tool {
      var i, k := CallOfResult(x.Skills(), ms, p);
      if more != [] {
        assert LoadsSkill(x, ms, Place(p, 0), more[0]) by {
          assert AnswersCall(ms, p, "skill", ms[i].toolCalls[k].arguments);
        }
      }
    } else {
      NoAnswer(ms, p);
    }
  }

  /** Dropping what has no name keeps the order. */
  lemma {:induction false} NamedWithin(entries: seq<Entry>, n: nat) returns (withins: seq<nat>)
    requires n <= |entries|
    ensures var named := Outside(entries, [""], n);
      && |withins| == |named|
      && (forall t | 0 <= t < |named| :: withins[t] < n && entries[withins[t]] == named[t] && named[t].name != "")
      && (forall t, u | 0 <= t < u < |named| :: withins[t] < withins[u])
      && (forall w | 0 <= w < n && entries[w].name != "" :: w in withins)
  {
    withins := [];
    if n > 0 {
      withins := NamedWithin(entries, n - 1);
      if entries[n - 1].name != "" {
        withins := withins + [n - 1];
      }
    }
  }

  lemma SchemasOfOne(x: Extract, ms: seq<Message>, p: nat) returns (withins: seq<nat>)
    requires Valid(ms) && UniqueIds(ms) && p < |ms|
    ensures ListsOne(Load(x.Schemas(), Keys(x.Schemas(), ms, |ms|), ms[p]), withins, SchemasIn(x, ms), p)
  {
    hide Valid, UniqueIds, Keys, AnswersCall;
    var more := Load(x.Schemas(), Keys(x.Schemas(), ms, |ms|), ms[p]);
    withins := [];
    if ms[p].role == Tool {
      var i, k := CallOfResult(x.Schemas(), ms, p);
      if ms[p].toolCallId in Keys(x.Schemas(), ms, |ms|) {
        assert AnswersCall(ms, p, "tool_search", ms[i].toolCalls[k].arguments);
        var entries := x.entriesOf(ms[p].content);
        withins := NamedWithin(entries, |entries|);
        assert more == Outside(entries, [""], |entries|);
        forall w: nat, e | LoadsSchema(x, ms, Place(p, w), e)
          ensures exists t :: 0 <= t < |more| && withins[t] == w && more[t] == e
        {
          assert w in withins;
        }
      }
    } else {
      NoAnswer(ms, p);
    }
  }

  lemma InstructionsOfOne(x: Extract, ms: seq<Message>, keys: Paths, p: nat) returns (withins: seq<nat>)
    requires p < |ms|
    ensures ListsOne(Load(x.Instructions(), keys, ms[p]), withins, InstructionsIn(x, ms), p)
  {
    hide TrimSpace, StartsWith;
    assert forall at, e :: InstructionsIn(x, ms)(at, e) <==> LoadsInstructions(x, ms, at, e);
    var more := Load(x.Instructions(), keys, ms[p]);
    withins := seq(|more|, _ => 0);
    var block := x.blockOf(TrimSpace(ms[p].content));
    if block.Some? {
      assert Outside([block.value], [""], 0) == [];
      assert WithNames([block.value]) == if block.value.name == "" then [] else [block.value];
    }
  }

  /* What a stretch brings. */

  ghost predicate Brings(src: Source, keys: Paths, ms: seq<Message>, stands: Standing<Entry>, p: nat)
    requires p < |ms|
  {
    exists withins :: ListsOne(Load(src, keys, ms[p]), withins, stands, p)
  }

  /** Each message contributes what it brings, in order. */
  lemma {:induction false} LoadsListed(src: Source, keys: Paths, ms: seq<Message>, stands: Standing<Entry>, n: nat)
    returns (places: seq<Place>)
    requires n <= |ms|
    requires forall p: nat | p < |ms| :: Brings(src, keys, ms, stands, p)
    ensures Lists(Loads(src, keys, ms, n), places, stands, n)
  {
    hide Lists, ListsOne, Load;
    places := [];
    if n == 0 {
      NothingListed(stands);
    } else {
      var before := LoadsListed(src, keys, ms, stands, n - 1);
      assert Brings(src, keys, ms, stands, n - 1);
      var withins :| ListsOne(Load(src, keys, ms[n - 1]), withins, stands, n - 1);
      ListsMore(Loads(src, keys, ms, n - 1), before, Load(src, keys, ms[n - 1]), withins, stands, n - 1);
      places := before + Within(n - 1, withins);
    }
  }

  lemma SkillsFound(x: Extract, ms: seq<Message>)
    requires Valid(ms) && UniqueIds(ms)
    ensures NewestOfEach(Latest(AllLoads(x.Skills(), ms)), SkillsIn(x, ms))
  {
    var src, keys := x.Skills(), Keys(x.Skills(), ms, |ms|);
    assert forall at, e | SkillsIn(x, ms)(at, e) :: at.message < |ms|;
    forall p: nat | p < |ms| ensures Brings(src, keys, ms, SkillsIn(x, ms), p) {
      hide SkillsIn, Load, ListsOne, Valid, UniqueIds, Keys;
      var withins := SkillsOfOne(x, ms, p);
    }
    hide *;
    var places := LoadsListed(src, keys, ms, SkillsIn(x, ms), |ms|);
    LatestIsNewestOfEach(Loads(src, keys, ms, |ms|), places, SkillsIn(x, ms), |ms|);
    AllLoadsIs(src, ms);
  }

  lemma SchemasFound(x: Extract, ms: seq<Message>)
    requires Valid(ms) && UniqueIds(ms)
    ensures NewestOfEach(Latest(AllLoads(x.Schemas(), ms)), SchemasIn(x, ms))
  {
    var src, keys := x.Schemas(), Keys(x.Schemas(), ms, |ms|);
    assert forall at, e | SchemasIn(x, ms)(at, e) :: at.message < |ms|;
    forall p: nat | p < |ms| ensures Brings(src, keys, ms, SchemasIn(x, ms), p) {
      hide SchemasIn, Load, ListsOne, Valid, UniqueIds, Keys;
      var withins := SchemasOfOne(x, ms, p);
    }
    hide *;
    var places := LoadsListed(src, keys, ms, SchemasIn(x, ms), |ms|);
    LatestIsNewestOfEach(Loads(src, keys, ms, |ms|), places, SchemasIn(x, ms), |ms|);
    AllLoadsIs(src, ms);
  }

  lemma InstructionsFound(x: Extract, ms: seq<Message>)
    ensures NewestOfEach(Latest(AllLoads(x.Instructions(), ms)), InstructionsIn(x, ms))
  {
    var src, keys := x.Instructions(), Keys(x.Instructions(), ms, |ms|);
    assert forall at, e | InstructionsIn(x, ms)(at, e) :: at.message < |ms|;
    forall p: nat | p < |ms| ensures Brings(src, keys, ms, InstructionsIn(x, ms), p) {
      hide InstructionsIn, Load, ListsOne, Valid, UniqueIds, Keys;
      var withins := InstructionsOfOne(x, ms, keys, p);
    }
    hide *;
    var places := LoadsListed(src, keys, ms, InstructionsIn(x, ms), |ms|);
    LatestIsNewestOfEach(Loads(src, keys, ms, |ms|), places, InstructionsIn(x, ms), |ms|);
    AllLoadsIs(src, ms);
  }

  lemma AllLoadsIs(src: Source, ms: seq<Message>)
    ensures AllLoads(src, ms) == Loads(src, Keys(src, ms, |ms|), ms, |ms|)
  {
  }

  /** Every skill a result loaded is there with the body of the last such result, and nothing else is; they stand
      in the order in which they were first loaded. The same for tool schemas and for instructions. */
  lemma LoadsAreFound(x: Extract, ms: seq<Message>, task: Option<Task>)
    requires Valid(ms) && UniqueIds(ms)
    ensures var st := Direct(x, ms, task);
      && NewestOfEach(st.skills, SkillsIn(x, ms))
      && NewestOfEach(st.tools, SchemasIn(x, ms))
      && NewestOfEach(st.instructions, InstructionsIn(x, ms))
  {
    hide Valid, UniqueIds, AllLoads, Latest, Recent, PlanOf, NewestOfEach;
    SkillsFound(x, ms);
    SchemasFound(x, ms);
    InstructionsFound(x, ms);
  }

  /* The plan. */

  /** A call of the plan tool that has a formatted view. */
  predicate Plans(x: Extract, ms: seq<Message>, at: Place) {
    && at.message < |ms| && at.within < |ms[at.message].toolCalls|
    && ms[at.message].toolCalls[at.within].name == "update_plan"
    && x.format(ms[at.message].toolCalls[at.within].arguments) != ""
  }

  /** The plan is that of the newest such call, and there is none without one. */
  ghost predicate NewestPlan(x: Extract, ms: seq<Message>, plan: string) {
    if plan == "" then forall at :: !Plans(x, ms, at)
    else exists at :: PlanIsAt(x, ms, |ms|, plan, at)
  }

  ghost predicate PlanIsAt(x: Extract, ms: seq<Message>, n: nat, plan: string, at: Place) {
    && Plans(x, ms, at) && at.message < n && x.format(ms[at.message].toolCalls[at.within].arguments) == plan
    && forall later | Plans(x, ms, later) && later.message < n :: !Earlier(at, later)
  }

  lemma {:induction false} PlanOfCallsIsNewest(format: string -> string, calls: seq<ToolCall>, n: nat) returns (k: nat)
    requires n <= |calls|
    ensures k <= n && forall l | k < l < n :: calls[l].name != "update_plan" || format(calls[l].arguments) == ""
    ensures PlanOfCalls(format, calls, n) != "" ==>
      k < n && calls[k].name == "update_plan" && format(calls[k].arguments) == PlanOfCalls(format, calls, n)
    ensures PlanOfCalls(format, calls, n) == "" ==>
      forall l | 0 <= l < n :: calls[l].name != "update_plan" || format(calls[l].arguments) == ""
  {
    k := n;
    if n > 0 {
      if calls[n - 1].name == "update_plan" && format(calls[n - 1].arguments) != "" {
        k := n - 1;
      } else {
        k := PlanOfCallsIsNewest(format, calls, n - 1);
      }
    }
  }

  lemma {:induction false} PlanFound(x: Extract, ms: seq<Message>, n: nat) returns (at: Place)
    requires n <= |ms|
    ensures if PlanOf(x.format, ms, n) == "" then forall any | Plans(x, ms, any) :: any.message >= n
      else PlanIsAt(x, ms, n, PlanOf(x.format, ms, n), at)
  {
    at := Place(0, 0);
    if n > 0 {
      var calls := ms[n - 1].toolCalls;
      var k := PlanOfCallsIsNewest(x.format, calls, |calls|);
      hide PlanOfCalls;
      if PlanOfCalls(x.format, calls, |calls|) != "" {
        at := Place(n - 1, k);
      } else {
        at := PlanFound(x, ms, n - 1);
        assert forall later | Plans(x, ms, later) && later.message < n :: later.message < n - 1;
      }
    }
  }

  lemma PlanIsNewest(x: Extract, ms: seq<Message>)
    ensures NewestPlan(x, ms, PlanOf(x.format, ms, |ms|))
  {
    var at := PlanFound(x, ms, |ms|);
  }

  /* The edits. */

  /** A call that writes or edits a file. */
  ghost predicate EditsFile(r: Readers, ms: seq<Message>, at: Place, path: string) {
    && at.message < |ms| && at.within < |ms[at.message].toolCalls|
    && var call := ms[at.message].toolCalls[at.within];
       (call.name == "write_file" || call.name == "edit_file") && path == r.path(call.arguments) && path != ""
  }

  ghost function EditsIn(r: Readers, ms: seq<Message>): Standing<string> { (at, path) => EditsFile(r, ms, at, path) }

  lemma {:induction false} EditsOfOne(r: Readers, ms: seq<Message>, p: nat, n: nat) returns (withins: seq<nat>)
    requires p < |ms| && n <= |ms[p].toolCalls|
    ensures var paths := EditsOf(r, ms[p].toolCalls, n);
      && |paths| == |withins|
      && (forall t | 0 <= t < |paths| :: withins[t] < n && EditsFile(r, ms, Place(p, withins[t]), paths[t]))
      && (forall t, u | 0 <= t < u < |paths| :: withins[t] < withins[u])
      && (forall w: nat, path | EditsFile(r, ms, Place(p, w), path) && w < n :: w in withins)
  {
    withins := [];
    if n > 0 {
      withins := EditsOfOne(r, ms, p, n - 1);
      if IsEdit(r, ms[p].toolCalls[n - 1]) {
        withins := withins + [n - 1];
      }
    }
  }

  lemma EditsListOne(r: Readers, ms: seq<Message>, p: nat) returns (withins: seq<nat>)
    requires p < |ms|
    ensures ListsOne(EditsOf(r, ms[p].toolCalls, |ms[p].toolCalls|), withins, EditsIn(r, ms), p)
  {
    var calls := ms[p].toolCalls;
    var paths := EditsOf(r, calls, |calls|);
    withins := EditsOfOne(r, ms, p, |calls|);
    forall w: nat, path | EditsIn(r, ms)(Place(p, w), path)
      ensures exists t :: 0 <= t < |paths| && withins[t] == w && paths[t] == path
    {
      assert EditsFile(r, ms, Place(p, w), path);
      var t :| 0 <= t < |withins| && withins[t] == w;
      assert EditsFile(r, ms, Place(p, withins[t]), paths[t]);
    }
  }

  ghost predicate BringsEdits(r: Readers, ms: seq<Message>, stands: Standing<string>, p: nat)
    requires p < |ms|
  {
    exists withins :: ListsOne(EditsOf(r, ms[p].toolCalls, |ms[p].toolCalls|), withins, stands, p)
  }

  lemma {:induction false} EditsListed(r: Readers, ms: seq<Message>, stands: Standing<string>, n: nat)
    returns (places: seq<Place>)
    requires n <= |ms| && forall p: nat | p < |ms| :: BringsEdits(r, ms, stands, p)
    ensures Lists(Edits(r, ms, n), places, stands, n)
  {
    hide Lists, ListsOne, EditsOf;
    places := [];
    if n == 0 {
      NothingListed(stands);
    } else {
      var before := EditsListed(r, ms, stands, n - 1);
      assert BringsEdits(r, ms, stands, n - 1);
      var one := EditsOf(r, ms[n - 1].toolCalls, |ms[n - 1].toolCalls|);
      var withins :| ListsOne(one, withins, stands, n - 1);
      ListsMore(Edits(r, ms, n - 1), before, one, withins, stands, n - 1);
      places := before + Within(n - 1, withins);
    }
  }

  lemma {:induction false} LastSeenInOrder(paths: seq<string>, i: nat, a: nat, b: nat) returns (t: nat)
    requires i <= |paths| && a < b < |LastSeen(paths, i)|
    ensures i <= t < |paths| && paths[t] == LastSeen(paths, i)[b]
    ensures forall u | i <= u < |paths| && paths[u] == LastSeen(paths, i)[a] :: u < t
    decreases |paths| - i
  {
    if paths[i] in paths[i + 1..] {
      t := LastSeenInOrder(paths, i + 1, a, b);
      assert LastSeen(paths, i)[a] != paths[i] || i < t;
    } else if a > 0 {
      t := LastSeenInOrder(paths, i + 1, a - 1, b - 1);
    } else {
      LastSeenFacts(paths, i + 1);
      assert LastSeen(paths, i)[b] == LastSeen(paths, i + 1)[b - 1];
      assert LastSeen(paths, i + 1)[b - 1] in paths[i + 1..];
      t :| i + 1 <= t < |paths| && paths[t] == LastSeen(paths, i)[b];
    }
  }

  /** The other path was edited after every edit of the one. */
  ghost predicate EditedLater(stands: Standing<string>, path: string, other: string) {
    exists at :: stands(at, other) && forall earlier | stands(earlier, path) :: Earlier(earlier, at)
  }

  ghost predicate Edited(stands: Standing<string>, path: string) { exists at :: stands(at, path) }

  ghost predicate Holds(entries: seq<Entry>, path: string) { exists e :: e in entries && e.name == path }

  /** The entries are about the last twenty edited files, in the order of their last edits. */
  ghost predicate LastEdited(entries: seq<Entry>, stands: Standing<string>) {
    && |entries| <= 20
    && (forall e | e in entries :: Edited(stands, e.name))
    && (forall a, b | 0 <= a < b < |entries| :: EditedLater(stands, entries[a].name, entries[b].name))
    && (forall path | Edited(stands, path) && !Holds(entries, path) ::
          |entries| == 20 && forall e | e in entries :: EditedLater(stands, path, e.name))
  }

  lemma SeenInOrder(paths: seq<string>, places: seq<Place>, stands: Standing<string>, n: nat, a: nat, b: nat)
    requires Lists(paths, places, stands, n) && (forall p, f | stands(p, f) :: p.message < n)
    requires a < b < |LastSeen(paths, 0)|
    ensures EditedLater(stands, LastSeen(paths, 0)[a], LastSeen(paths, 0)[b])
  {
    var t := LastSeenInOrder(paths, 0, a, b);
    assert stands(places[t], paths[t]);
    forall earlier | stands(earlier, LastSeen(paths, 0)[a]) ensures Earlier(earlier, places[t]) {
      var u := IndexOf(paths, places, stands, n, earlier, LastSeen(paths, 0)[a]);
      InOrder(paths, places, stands, n, u, t);
    }
  }

  /** A path that stands somewhere is among the last twenty seen, or twenty others were seen later. */
  lemma SeenOrLater(entries: seq<Entry>, order: seq<string>, cut: nat, stands: Standing<string>, path: string, k: nat)
    requires cut + |entries| == |order| && (cut > 0 ==> |entries| == 20) && k < |order| && order[k] == path
    requires forall l | 0 <= l < |entries| :: entries[l].name == order[cut + l]
    requires forall a, b | 0 <= a < b < |order| :: EditedLater(stands, order[a], order[b])
    ensures Holds(entries, path) || (|entries| == 20 && forall e | e in entries :: EditedLater(stands, path, e.name))
  {
    hide EditedLater;
    if k >= cut {
      assert entries[k - cut] in entries;
    } else {
      forall e | e in entries ensures EditedLater(stands, path, e.name) {
        var l :| 0 <= l < |entries| && entries[l] == e;
        assert EditedLater(stands, order[k], order[cut + l]);
      }
    }
  }

  lemma TailNamed(entries: seq<Entry>, order: seq<string>) returns (cut: nat)
    requires NamesOf(entries) == Tail(order, 20)
    ensures cut + |entries| == |order| && |entries| <= 20 && (cut > 0 ==> |entries| == 20)
    ensures forall k | 0 <= k < |entries| :: entries[k].name == order[cut + k]
  {
    cut := |order| - |entries|;
    forall k | 0 <= k < |entries| ensures entries[k].name == order[cut + k] {
      assert NamesOf(entries)[k] == order[cut + k];
    }
  }

  lemma AllSeen(paths: seq<string>, path: string)
    ensures path in LastSeen(paths, 0) <==> path in paths
  {
    LastSeenFacts(paths, 0);
    assert paths[0..] == paths;
  }

  lemma LaterInOrder(paths: seq<string>, places: seq<Place>, stands: Standing<string>, n: nat)
    requires Lists(paths, places, stands, n) && forall p, f | stands(p, f) :: p.message < n
    ensures forall a, b | 0 <= a < b < |LastSeen(paths, 0)| ::
      EditedLater(stands, LastSeen(paths, 0)[a], LastSeen(paths, 0)[b])
  {
    hide Lists, LastSeen, EditedLater;
    forall a, b | 0 <= a < b < |LastSeen(paths, 0)|
      ensures EditedLater(stands, LastSeen(paths, 0)[a], LastSeen(paths, 0)[b])
    {
      SeenInOrder(paths, places, stands, n, a, b);
    }
  }

  /** The tail of an order of paths, each edited later than those before it. */
  lemma TailIsLastEdited(entries: seq<Entry>, order: seq<string>, stands: Standing<string>)
    requires NamesOf(entries) == Tail(order, 20)
    requires forall a, b | 0 <= a < b < |order| :: EditedLater(stands, order[a], order[b])
    requires forall path :: path in order <==> Edited(stands, path)
    ensures LastEdited(entries, stands)
  {
    var cut := TailNamed(entries, order);
    hide Tail, NamesOf, EditedLater, Edited, Holds;
    forall k | 0 <= k < |entries| ensures Edited(stands, entries[k].name) {
      assert order[cut + k] in order;
    }
    forall a, b | 0 <= a < b < |entries| ensures EditedLater(stands, entries[a].name, entries[b].name) {
      assert EditedLater(stands, order[cut + a], order[cut + b]);
    }
    forall path | Edited(stands, path) && !Holds(entries, path)
      ensures |entries| == 20 && forall e | e in entries :: EditedLater(stands, path, e.name)
    {
      var k :| 0 <= k < |order| && order[k] == path;
      SeenOrLater(entries, order, cut, stands, path, k);
    }
  }

  lemma StandsIffSeen(paths: seq<string>, places: seq<Place>, stands: Standing<string>, n: nat, path: string)
    requires Lists(paths, places, stands, n) && forall p, f | stands(p, f) :: p.message < n
    ensures path in LastSeen(paths, 0) <==> Edited(stands, path)
  {
    hide LastSeen;
    AllSeen(paths, path);
    if path in paths {
      var at := PlaceOf(paths, places, stands, n, path);
    }
    if at :| stands(at, path) {
      var t := IndexOf(paths, places, stands, n, at, path);
      assert paths[t] in paths;
    }
  }

  lemma PlaceOf(paths: seq<string>, places: seq<Place>, stands: Standing<string>, n: nat, path: string)
    returns (at: Place)
    requires Lists(paths, places, stands, n) && path in paths
    ensures stands(at, path)
  {
    var t :| 0 <= t < |paths| && paths[t] == path;
    at := places[t];
  }

  lemma EditsAreFound(r: Readers, ms: seq<Message>)
    ensures LastEdited(Recent(r, ms), EditsIn(r, ms))
  {
    assert forall at, path | EditsIn(r, ms)(at, path) :: at.message < |ms|;
    RecentNames(r, ms);
    assert NamesOf(Recent(r, ms)) == Tail(LastSeen(Edits(r, ms, |ms|), 0), 20);
    forall p: nat | p < |ms| ensures BringsEdits(r, ms, EditsIn(r, ms), p) {
      hide EditsIn, EditsOf, ListsOne;
      var withins := EditsListOne(r, ms, p);
    }
    hide *;
    var places := EditsListed(r, ms, EditsIn(r, ms), |ms|);
    LaterInOrder(Edits(r, ms, |ms|), places, EditsIn(r, ms), |ms|);
    forall path ensures path in LastSeen(Edits(r, ms, |ms|), 0) <==> Edited(EditsIn(r, ms), path) {
      StandsIffSeen(Edits(r, ms, |ms|), places, EditsIn(r, ms), |ms|, path);
    }
    TailIsLastEdited(Recent(r, ms), LastSeen(Edits(r, ms, |ms|), 0), EditsIn(r, ms));
  }

  /* The notes. */

  lemma {:induction false} NoteIsOfLast(r: Readers, ids: Paths, ms: seq<Message>, n: nat, path: string) returns (p: nat)
    requires n <= |ms| && path in NotesTo(r, ids, ms, n)
    ensures p < n && IsResult(ids, ms[p]) && ids[ms[p].toolCallId] == path
    ensures NotesTo(r, ids, ms, n)[path] == r.note(ms[p].content)
    ensures forall q | p < q < n && IsResult(ids, ms[q]) :: ids[ms[q].toolCallId] != path
  {
    if IsResult(ids, ms[n - 1]) && ids[ms[n - 1].toolCallId] == path {
      p := n - 1;
    } else {
      p := NoteIsOfLast(r, ids, ms, n - 1, path);
    }
  }

  lemma {:induction false} IdIsOfEdit(r: Readers, ms: seq<Message>, n: nat, id: string) returns (at: Place)
    requires n <= |ms| && id in PathById(r, ms, n)
    ensures at.message < n && EditsFile(r, ms, at, PathById(r, ms, n)[id])
    ensures ms[at.message].toolCalls[at.within].id == id
  {
    var calls, known := ms[n - 1].toolCalls, PathById(r, ms, n - 1);
    var found, k := IdIsOfOne(r, known, calls, |calls|, id);
    if found {
      at := Place(n - 1, k);
    } else {
      at := IdIsOfEdit(r, ms, n - 1, id);
    }
  }

  lemma {:induction false} IdIsOfOne(r: Readers, known: Paths, calls: seq<ToolCall>, n: nat, id: string)
    returns (found: bool, k: nat)
    requires n <= |calls| && id in IdsOf(r, known, calls, n)
    ensures if found then
        k < n && calls[k].id == id && IsEdit(r, calls[k]) && r.path(calls[k].arguments) == IdsOf(r, known, calls, n)[id]
      else id in known && known[id] == IdsOf(r, known, calls, n)[id]
  {
    found, k := false, 0;
    if n > 0 {
      if IsEdit(r, calls[n - 1]) && calls[n - 1].id == id && id != "" {
        found, k := true, n - 1;
      } else {
        found, k := IdIsOfOne(r, known, calls, n - 1, id);
      }
    }
  }

  /** Results stand in the order of their calls. */
  lemma ResultsInOrder(ms: seq<Message>, a: Place, b: Place)
    requires Valid(ms) && a.message < |ms| && b.message < |ms|
    requires a.within < |ms[a.message].toolCalls| && b.within < |ms[b.message].toolCalls| && Earlier(a, b)
    ensures a.message + 1 + a.within < b.message + 1 + b.within < |ms|
  {
    ValidIffPaired(ms);
    hide Valid;
    assert Answers(ms, b.message, b.within);
    AnswersFollow(ms, a);
  }

  lemma AnswersFollow(ms: seq<Message>, at: Place)
    requires Paired(ms) && at.message < |ms| && at.within < |ms[at.message].toolCalls|
    ensures at.message + 1 + at.within < |ms|
    ensures forall j | at.message < j <= at.message + 1 + at.within :: ms[j].role == Tool
  {
    assert Answers(ms, at.message, at.within);
    forall j | at.message < j <= at.message + 1 + at.within ensures ms[j].role == Tool {
      assert Answers(ms, at.message, j - at.message - 1);
    }
  }

  /** The note is that of the result of the last edit of its file. */
  ghost predicate NotedByLast(r: Readers, ms: seq<Message>, e: Entry) {
    exists at :: EditsFile(r, ms, at, e.name) && at.message + 1 + at.within < |ms|
      && e.body == r.note(ms[at.message + 1 + at.within].content)
      && forall later | EditsFile(r, ms, later, e.name) :: !Earlier(at, later)
  }

  lemma NoteFound(r: Readers, ms: seq<Message>, e: Entry)
    requires Valid(ms) && UniqueIds(ms) && e in Recent(r, ms)
    ensures NotedByLast(r, ms, e)
  {
    var ids := PathById(r, ms, |ms|);
    NoteIsThere(r, ms, e);
    var p := NoteIsOfLast(r, ids, ms, |ms|, e.name);
    var at := IdIsOfEdit(r, ms, |ms|, ms[p].toolCallId);
    AnswerOf(ms, p, at);
    forall later | EditsFile(r, ms, later, e.name) ensures !Earlier(at, later) {
      if Earlier(at, later) {
        LaterEditIsNoted(r, ms, at, later);
      }
    }
  }

  lemma NoteIsThere(r: Readers, ms: seq<Message>, e: Entry)
    requires Valid(ms) && UniqueIds(ms) && e in Recent(r, ms)
    ensures e.name in Notes(r, ms) && e.body == Notes(r, ms)[e.name]
  {
    ValidPieceIsNoted(r, ms);
    RecentIsEdited(r, ms, e);
    RecentIsFaithful(r, ms);
    hide Valid, UniqueIds, Notes, Recent;
  }

  lemma AnswerOf(ms: seq<Message>, p: nat, at: Place)
    requires Valid(ms) && UniqueIds(ms) && p < |ms| && ms[p].role == Tool
    requires at.message < |ms| && at.within < |ms[at.message].toolCalls|
    requires ms[at.message].toolCalls[at.within].id == ms[p].toolCallId
    ensures p == at.message + 1 + at.within
  {
    ValidIffPaired(ms);
    hide Valid;
    var i: nat, k: nat :| IsAnswer(ms, i, k, p);
    assert Answers(ms, i, k);
  }

  lemma LaterEditIsNoted(r: Readers, ms: seq<Message>, at: Place, later: Place)
    requires Valid(ms) && UniqueIds(ms) && at.message < |ms| && at.within < |ms[at.message].toolCalls|
    requires later.message < |ms| && later.within < |ms[later.message].toolCalls|
    requires IsEdit(r, ms[later.message].toolCalls[later.within]) && Earlier(at, later)
    ensures var q, ids := later.message + 1 + later.within, PathById(r, ms, |ms|);
      && at.message + 1 + at.within < q < |ms| && IsResult(ids, ms[q])
      && ids[ms[q].toolCallId] == r.path(ms[later.message].toolCalls[later.within].arguments)
  {
    ResultsInOrder(ms, at, later);
    PathFound(r, ms, later.message, later.within, |ms|);
    ValidIffPaired(ms);
    hide Valid;
    assert Answers(ms, later.message, later.within);
  }

  /* Together. */

  /** The state holds what the calls and results of a stretch hold, by position. */
  ghost predicate Describes(x: Extract, ms: seq<Message>, st: State) {
    && NewestPlan(x, ms, st.plan)
    && LastEdited(st.edits, EditsIn(x.edits, ms)) && (forall e | e in st.edits :: NotedByLast(x.edits, ms, e))
    && NewestOfEach(st.tools, SchemasIn(x, ms))
    && NewestOfEach(st.skills, SkillsIn(x, ms))
    && NewestOfEach(st.instructions, InstructionsIn(x, ms))
  }

  /** One look at a replayable stretch with ids of its own. */
  lemma DirectDescribes(x: Extract, ms: seq<Message>, task: Option<Task>)
    requires Valid(ms) && UniqueIds(ms)
    ensures Describes(x, ms, Direct(x, ms, task))
  {
    hide Valid, UniqueIds, AllLoads, Latest, Recent, PlanOf, NewestOfEach, NewestPlan, LastEdited, NotedByLast;
    PlanIsNewest(x, ms);
    EditsAreFound(x.edits, ms);
    forall e | e in Recent(x.edits, ms) ensures NotedByLast(x.edits, ms, e) {
      NoteFound(x.edits, ms, e);
    }
    LoadsAreFound(x, ms, task);
  }

  lemma UniqueJoin(a: seq<Message>, b: seq<Message>)
    requires UniqueIds(a) && UniqueIds(b) && CallIds(a) !! CallIds(b)
    ensures UniqueIds(a + b)
  {
    var ms := a + b;
    forall i, k | 0 <= i < |ms| && 0 <= k < |ms[i].toolCalls|
      ensures ms[i].toolCalls[k].id in (if i < |a| then CallIds(a) else CallIds(b))
    {
      assert ms[i] in (if i < |a| then a else b) && ms[i].toolCalls[k] in ms[i].toolCalls;
    }
  }

  lemma {:induction false} ElidedIsWhole(es: seq<Elision>)
    requires forall i | 0 <= i < |es| :: Valid(es[i].piece) && UniqueIds(es[i].piece)
    requires forall i, j | 0 <= i < j < |es| :: NoSharedIds(es[i].piece, es[j].piece)
    ensures Valid(Elided(es)) && UniqueIds(Elided(es))
  {
    if es != [] {
      hide Valid, UniqueIds, NoSharedIds, CallIds;
      var front, last := es[..|es| - 1], es[|es| - 1].piece;
      ElidedIsWhole(front);
      ApartFromElided(front, last);
      assert CallIds(Elided(front)) !! CallIds(last) by { NoSharedCalls(Elided(front), last); }
      UniqueJoin(Elided(front), last);
      ValidConcat(Elided(front), last);
    }
  }

  lemma NoSharedCalls(a: seq<Message>, b: seq<Message>)
    requires NoSharedIds(a, b)
    ensures CallIds(a) !! CallIds(b)
  {
  }

  /** After any number of compactions the block in the newest summary holds what the calls and results of all elided
      messages hold. */
  lemma SummaryDescribes(x: Extract, es: seq<Elision>)
    requires es != [] && ChainOk(x, es)
    ensures Describes(x, Elided(es), ParseBlock(ContentOf(x, es)))
  {
    StateSurvives(x, es);
    ElidedIsWhole(es);
    DirectDescribes(x, Elided(es), LastTask(es));
  }
}
