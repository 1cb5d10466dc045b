/** Approving shell commands by prefix (internal/agent/command_prefix.go): from the parsed command to its
    segments, to the prefix that is proposed, and to the grants that accept it later. */
module CommandPrefix {
  import opened Text

  /* The parsed command. */

  datatype Part = Lit(value: string) | SglQuoted(value: string) | DblQuoted(parts: seq<Part>) | OtherPart

  datatype Word = Word(parts: seq<Part>)

  datatype Op = AndStmt | OrStmt | Pipe | OtherOp

  /** A statement; marked says that it is negated, in the background, a coprocess, disowned or redirected. */
  datatype Stmt = Stmt(marked: bool, cmd: Command)

  datatype Command = CallExpr(assigns: nat, args: seq<Word>) | BinaryCmd(op: Op, x: Stmt, y: Stmt) | OtherCommand

  type Tokens = seq<string>

  const GLOB := "*?[]{}"

  predicate HasGlob(s: string) { exists i :: 0 <= i < |s| && s[i] in GLOB }

  /** A word that is one bare literal without globs. */
  predicate Bare(word: Word) { |word.parts| == 1 && word.parts[0].Lit? && !HasGlob(word.parts[0].value) }

  /* The two readings of a command. */

  /** literalCallTokens, of the first n words. */
  function StrictTokens(args: seq<Word>, n: nat): Option<Tokens>
    requires n <= |args|
  {
    if n == 0 then Some([])
    else
      var before := StrictTokens(args, n - 1);
      if before.None? || !Bare(args[n - 1]) then None else Some(before.value + [args[n - 1].parts[0].value])
  }

  function LiteralText(parts: seq<Part>, n: nat): Option<string>
    requires n <= |parts|
  {
    if n == 0 then Some("")
    else
      var before := LiteralText(parts, n - 1);
      if before.None? || !parts[n - 1].Lit? then None else Some(before.value + parts[n - 1].value)
  }

  /** literalWordValue, of the first n parts. */
  function StaticText(parts: seq<Part>, n: nat): Option<string>
    requires n <= |parts|
  {
    if n == 0 then Some("")
    else
      var before := StaticText(parts, n - 1);
      if before.None? then None
      else
        match parts[n - 1]
        case Lit(value) => Some(before.value + value)
        case SglQuoted(value) => Some(before.value + value)
        case DblQuoted(inner) =>
          var text := LiteralText(inner, |inner|);
          if text.None? then None else Some(before.value + text.value)
        case OtherPart => None
  }

  function TolerantTokens(args: seq<Word>, n: nat): Option<Tokens>
    requires n <= |args|
  {
    if n == 0 then Some([])
    else
      var before := TolerantTokens(args, n - 1);
      var parts := args[n - 1].parts;
      if before.None? || parts == [] || StaticText(parts, |parts|).None? then None
      else Some(before.value + [StaticText(parts, |parts|).value])
  }

  /** The segments of a statement, read strictly or tolerantly, or None. */
  function Segments(stmt: Stmt, strict: bool): Option<seq<Tokens>>
    decreases stmt
  {
    if stmt.marked then None
    else
      match stmt.cmd
      case CallExpr(assigns, args) =>
        var tokens := if strict then StrictTokens(args, |args|) else TolerantTokens(args, |args|);
        if assigns > 0 || args == [] || tokens.None? then None else Some([tokens.value])
      case BinaryCmd(op, x, y) =>
        if op == OtherOp then None
        else
          var (left, right) := (Segments(x, strict), Segments(y, strict));
          if left.None? || right.None? then None else Some(left.value + right.value)
      case OtherCommand => None
  }

  function AllSegments(file: seq<Stmt>, n: nat, strict: bool): Option<seq<Tokens>>
    requires n <= |file|
  {
    if n == 0 then Some([])
    else
      var before, last := AllSegments(file, n - 1, strict), Segments(file[n - 1], strict);
      if before.None? || last.None? then None else Some(before.value + last.value)
  }

  /** safeShellCommandSegments and forgeCommandSegments; None stands for a command that does not parse. */
  function CommandSegments(file: Option<seq<Stmt>>, strict: bool): Option<seq<Tokens>> {
    if file.None? || file.value == [] then None
    else
      var segments := AllSegments(file.value, |file.value|, strict);
      if segments == Some([]) then None else segments
  }

  method LiteralCallTokens(args: seq<Word>) returns (tokens: Option<Tokens>)
    ensures tokens == StrictTokens(args, |args|)
  {
    var read: Tokens := [];
    for i := 0 to |args|
      invariant StrictTokens(args, i) == Some(read)
    {
      if !Bare(args[i]) {
        NoneStays(args, i + 1, |args|);
        return None;
      }
      read := read + [args[i].parts[0].value];
    }
    return Some(read);
  }

  lemma {:induction false} NoneStays(args: seq<Word>, k: nat, n: nat)
    requires k <= n <= |args| && StrictTokens(args, k) == None
    ensures StrictTokens(args, n) == None
  {
    if k < n {
      NoneStays(args, k, n - 1);
    }
  }

  /** The strict collector: it appends the segments of a statement, and stops at the first thing it rejects. */
  method CollectSafe(stmt: Stmt, segments: seq<Tokens>) returns (ok: bool, collected: seq<Tokens>)
    ensures ok == Segments(stmt, true).Some?
    ensures ok ==> collected == segments + Segments(stmt, true).value
    decreases stmt
  {
    collected := segments;
    if stmt.marked {
      return false, collected;
    }
    match stmt.cmd
    case CallExpr(assigns, args) =>
      if assigns > 0 || |args| == 0 {
        return false, collected;
      }
      var tokens := LiteralCallTokens(args);
      if tokens.None? {
        return false, collected;
      }
      return true, collected + [tokens.value];
    case BinaryCmd(op, x, y) =>
      if op == OtherOp {
        return false, collected;
      }
      ok, collected := CollectSafe(x, collected);
      if ok {
        ok, collected := CollectSafe(y, collected);
      }
    case OtherCommand => return false, collected;
  }

  method SafeShellCommandSegments(file: Option<seq<Stmt>>) returns (segments: Option<seq<Tokens>>)
    ensures segments == CommandSegments(file, true)
  {
    if file.None? || |file.value| == 0 {
      return None;
    }
    var collected: seq<Tokens> := [];
    for i := 0 to |file.value|
      invariant AllSegments(file.value, i, true) == Some(collected)
    {
      var ok, more := CollectSafe(file.value[i], collected);
      if !ok {
        NoneRemains(file.value, i + 1, |file.value|);
        return None;
      }
      collected := more;
    }
    if |collected| == 0 {
      return None;
    }
    return Some(collected);
  }

  lemma {:induction false} NoneRemains(file: seq<Stmt>, k: nat, n: nat)
    requires k <= n <= |file| && AllSegments(file, k, true) == None
    ensures AllSegments(file, n, true) == None
  {
    if k < n {
      NoneRemains(file, k, n - 1);
    }
  }

  /* The strict reading is the tolerant one on commands of bare words. */

  ghost predicate AllBare(stmt: Stmt)
    decreases stmt
  {
    match stmt.cmd
    case CallExpr(_, args) => forall i | 0 <= i < |args| :: Bare(args[i])
    case BinaryCmd(_, x, y) => AllBare(x) && AllBare(y)
    case OtherCommand => true
  }

  lemma BareText(word: Word)
    requires Bare(word)
    ensures StaticText(word.parts, 1) == Some(word.parts[0].value)
  {
    assert StaticText(word.parts, 0) == Some("");
    assert "" + word.parts[0].value == word.parts[0].value;
  }

  lemma {:induction false} BareTokens(args: seq<Word>, n: nat)
    requires n <= |args|
    ensures StrictTokens(args, n).Some? <==> (forall i | 0 <= i < n :: Bare(args[i]))
    ensures StrictTokens(args, n).Some? ==> TolerantTokens(args, n) == StrictTokens(args, n)
  {
    if n > 0 {
      BareTokens(args, n - 1);
      if Bare(args[n - 1]) {
        BareText(args[n - 1]);
      }
    }
  }

  lemma {:induction false} StrictIsBare(stmt: Stmt)
    ensures Segments(stmt, true) == if AllBare(stmt) then Segments(stmt, false) else None
    decreases stmt
  {
    match stmt.cmd
    case CallExpr(_, args) => BareTokens(args, |args|);
    case BinaryCmd(_, x, y) =>
      StrictIsBare(x);
      StrictIsBare(y);
    case OtherCommand =>
  }

  lemma {:induction false} StrictFileIsBare(file: seq<Stmt>, n: nat)
    requires n <= |file|
    ensures AllSegments(file, n, true)
      == if forall i | 0 <= i < n :: AllBare(file[i]) then AllSegments(file, n, false) else None
  {
    if n > 0 {
      StrictFileIsBare(file, n - 1);
      StrictIsBare(file[n - 1]);
    }
  }

  /** The strict collector accepts exactly the commands that the tolerant one accepts and whose words are all
      bare, and reads them as the same segments. */
  lemma StrictIsTolerant(file: Option<seq<Stmt>>, segments: seq<Tokens>)
    ensures CommandSegments(file, true) == Some(segments)
       <==> && CommandSegments(file, false) == Some(segments)
            && forall i | 0 <= i < |file.value| :: AllBare(file.value[i])
  {
    if file.Some? {
      StrictFileIsBare(file.value, |file.value|);
    }
  }

  /* What the readings accept, said of the parsed command. */

  function Concat(texts: seq<string>): string {
    if texts == [] then "" else texts[0] + Concat(texts[1..])
  }

  lemma {:induction false} ConcatSnoc(texts: seq<string>, text: string)
    ensures Concat(texts + [text]) == Concat(texts) + text
  {
    if texts == [] {
      assert texts + [text] == [text] && [text][1..] == [];
    } else {
      assert (texts + [text])[1..] == texts[1..] + [text];
      ConcatSnoc(texts[1..], text);
    }
  }

  predicate Fixed(part: Part) {
    match part
    case Lit(_) => true
    case SglQuoted(_) => true
    case DblQuoted(inner) => forall i | 0 <= i < |inner| :: inner[i].Lit?
    case OtherPart => false
  }

  /** A part without its quotes. */
  function Unquoted(part: Part): string {
    match part
    case Lit(value) => value
    case SglQuoted(value) => value
    case DblQuoted(inner) => Concat(Literals(inner, |inner|))
    case OtherPart => ""
  }

  function Texts(parts: seq<Part>): seq<string> { seq(|parts|, i requires 0 <= i < |parts| => Unquoted(parts[i])) }

  function Literals(parts: seq<Part>, n: nat): seq<string>
    requires n <= |parts|
  {
    seq(n, i requires 0 <= i < n => if parts[i].Lit? then parts[i].value else "")
  }

  lemma {:induction false} LiteralTextIs(parts: seq<Part>, n: nat)
    requires n <= |parts|
    ensures LiteralText(parts, n)
      == if forall i | 0 <= i < n :: parts[i].Lit? then Some(Concat(Literals(parts, n))) else None
  {
    if n > 0 {
      LiteralTextIs(parts, n - 1);
      assert Literals(parts, n) == Literals(parts, n - 1) + [if parts[n - 1].Lit? then parts[n - 1].value else ""];
      ConcatSnoc(Literals(parts, n - 1), if parts[n - 1].Lit? then parts[n - 1].value else "");
    }
  }

  lemma {:induction false} StaticTextIs(parts: seq<Part>, n: nat)
    requires n <= |parts|
    ensures StaticText(parts, n)
      == if forall i | 0 <= i < n :: Fixed(parts[i]) then Some(Concat(Texts(parts[..n]))) else None
  {
    if n > 0 {
      StaticTextIs(parts, n - 1);
      assert Texts(parts[..n]) == Texts(parts[..n - 1]) + [Unquoted(parts[n - 1])];
      ConcatSnoc(Texts(parts[..n - 1]), Unquoted(parts[n - 1]));
      if parts[n - 1].DblQuoted? {
        var inner := parts[n - 1].parts;
        LiteralTextIs(inner, |inner|);
      }
    }
  }

  /** A word a reading takes: strictly a single literal without *, ?, brackets or braces, tolerantly one whose parts
      hold no expansion. */
  predicate Readable(word: Word, strict: bool) {
    if strict then
      && |word.parts| == 1 && word.parts[0].Lit?
      && forall i | 0 <= i < |word.parts[0].value| :: word.parts[0].value[i] !in ['*', '?', '[', ']', '{', '}']
    else word.parts != [] && forall i | 0 <= i < |word.parts| :: Fixed(word.parts[i])
  }

  function Wording(args: seq<Word>): Tokens {
    seq(|args|, i requires 0 <= i < |args| => Concat(Texts(args[i].parts)))
  }

  lemma BareIsReadable(word: Word)
    ensures Bare(word) <==> Readable(word, true)
    ensures Bare(word) ==> Concat(Texts(word.parts)) == word.parts[0].value
  {
    assert forall c: char :: c in GLOB <==> c in ['*', '?', '[', ']', '{', '}'];
    if Bare(word) {
      assert Texts(word.parts) == [word.parts[0].value];
      assert [word.parts[0].value][1..] == [];
    }
  }

  lemma StaticIsReadable(word: Word)
    ensures word.parts != [] && StaticText(word.parts, |word.parts|).Some? <==> Readable(word, false)
    ensures Readable(word, false) ==> StaticText(word.parts, |word.parts|) == Some(Concat(Texts(word.parts)))
  {
    StaticTextIs(word.parts, |word.parts|);
    assert word.parts[..|word.parts|] == word.parts;
    hide StaticText, Concat, Texts;
  }

  lemma {:induction false} TokensAreWords(args: seq<Word>, n: nat, strict: bool)
    requires n <= |args|
    ensures (if strict then StrictTokens(args, n) else TolerantTokens(args, n))
      == if forall i | 0 <= i < n :: Readable(args[i], strict) then Some(Wording(args[..n])) else None
  {
    hide Bare, Readable, StaticText, Concat, Texts;
    if n > 0 {
      TokensAreWords(args, n - 1, strict);
      BareIsReadable(args[n - 1]);
      StaticIsReadable(args[n - 1]);
      assert Wording(args[..n]) == Wording(args[..n - 1]) + [Concat(Texts(args[n - 1].parts))];
    }
  }

  /** The simple commands of a statement, left to right. */
  function Simple(stmt: Stmt): seq<Command>
    decreases stmt
  {
    match stmt.cmd
    case BinaryCmd(_, x, y) => Simple(x) + Simple(y)
    case CallExpr(_, _) => [stmt.cmd]
    case OtherCommand => [stmt.cmd]
  }

  predicate ReadableCall(cmd: Command, strict: bool) {
    && cmd.CallExpr? && cmd.assigns == 0 && cmd.args != []
    && forall i | 0 <= i < |cmd.args| :: Readable(cmd.args[i], strict)
  }

  /** Nothing of the statement is negated, redirected or in the background, and only &&, || and | combine it. */
  predicate Combined(stmt: Stmt)
    decreases stmt
  {
    && !stmt.marked
    && match stmt.cmd
       case BinaryCmd(op, x, y) => (op == AndStmt || op == OrStmt || op == Pipe) && Combined(x) && Combined(y)
       case CallExpr(_, _) => true
       case OtherCommand => true
  }

  function Wordings(commands: seq<Command>): seq<Tokens> {
    seq(|commands|, i requires 0 <= i < |commands| => if commands[i].CallExpr? then Wording(commands[i].args) else [])
  }

  predicate AllReadable(commands: seq<Command>, strict: bool) {
    forall i | 0 <= i < |commands| :: ReadableCall(commands[i], strict)
  }

  lemma WordingsJoin(a: seq<Command>, b: seq<Command>, strict: bool)
    ensures Wordings(a + b) == Wordings(a) + Wordings(b)
    ensures AllReadable(a + b, strict) <==> AllReadable(a, strict) && AllReadable(b, strict)
  {
    assert forall i | 0 <= i < |b| :: (a + b)[|a| + i] == b[i];
    assert forall i | 0 <= i < |a| :: (a + b)[i] == a[i];
    hide ReadableCall;
  }

  lemma {:induction false} SegmentsAreWords(stmt: Stmt, strict: bool)
    ensures Segments(stmt, strict)
      == if Combined(stmt) && AllReadable(Simple(stmt), strict) then Some(Wordings(Simple(stmt))) else None
    decreases stmt
  {
    hide Wordings, AllReadable;
    match stmt.cmd
    case CallExpr(assigns, args) => OneCall(stmt, strict);
    case BinaryCmd(op, x, y) =>
      SegmentsAreWords(x, strict);
      SegmentsAreWords(y, strict);
      WordingsJoin(Simple(x), Simple(y), strict);
    case OtherCommand => OneCall(stmt, strict);
  }

  lemma OneCall(stmt: Stmt, strict: bool)
    requires !stmt.cmd.BinaryCmd?
    ensures Segments(stmt, strict)
      == if !stmt.marked && AllReadable([stmt.cmd], strict) then Some(Wordings([stmt.cmd])) else None
  {
    hide Readable;
    assert [stmt.cmd][0] == stmt.cmd;
    assert AllReadable([stmt.cmd], strict) ==> ReadableCall([stmt.cmd][0], strict);
    if stmt.cmd.CallExpr? {
      var args := stmt.cmd.args;
      TokensAreWords(args, |args|, strict);
      assert args[..|args|] == args;
      assert Wordings([stmt.cmd]) == [Wording(args)];
    }
  }

  function AllSimple(file: seq<Stmt>, n: nat): seq<Command>
    requires n <= |file|
  {
    if n == 0 then [] else AllSimple(file, n - 1) + Simple(file[n - 1])
  }

  lemma {:induction false} SimpleIsSome(stmt: Stmt)
    ensures Simple(stmt) != []
    decreases stmt
  {
    if stmt.cmd.BinaryCmd? {
      SimpleIsSome(stmt.cmd.x);
    }
  }

  lemma {:induction false} AllSegmentsAreWords(file: seq<Stmt>, n: nat, strict: bool)
    requires n <= |file|
    ensures AllSegments(file, n, strict)
      == if (forall i | 0 <= i < n :: Combined(file[i])) && AllReadable(AllSimple(file, n), strict)
         then Some(Wordings(AllSimple(file, n))) else None
    ensures n > 0 ==> AllSimple(file, n) != []
  {
    hide Wordings, Combined, Segments, Simple;
    if n > 0 {
      AllSegmentsAreWords(file, n - 1, strict);
      SegmentsAreWords(file[n - 1], strict);
      SimpleIsSome(file[n - 1]);
      WordingsJoin(AllSimple(file, n - 1), Simple(file[n - 1]), strict);
    } else {
      NoWordings(strict);
    }
  }

  lemma NoWordings(strict: bool)
    ensures Wordings([]) == [] && AllReadable([], strict)
  {
  }

  /** A reading accepts exactly the commands that parse, are not empty, and consist of simple commands without
      assignments, of words it takes, combined by &&, || and |. The segments are the words of those commands, in
      order and without quotes. */
  lemma ReadingsAreExact(file: Option<seq<Stmt>>, strict: bool)
    ensures CommandSegments(file, strict)
      == if file.Some? && file.value != [] && (forall i | 0 <= i < |file.value| :: Combined(file.value[i]))
           && AllReadable(AllSimple(file.value, |file.value|), strict)
         then Some(Wordings(AllSimple(file.value, |file.value|))) else None
  {
    if file.Some? {
      AllSegmentsAreWords(file.value, |file.value|, strict);
      hide AllSegments, AllSimple, AllReadable, Combined;
    }
  }

  /* Proposing a prefix. */

  /** What is known of tokens without their command: whether a segment is safe on its own, and whether a
      nonempty list of trimmed tokens must never be approved as a prefix. */
  datatype Judge = Judge(safe: Tokens -> bool, unsafe: Tokens -> bool)

  predicate HasPrefix(values: Tokens, prefix: Tokens) { prefix != [] && prefix <= values }

  function Trimmed(prefix: Tokens): (r: Tokens)
    ensures |r| == |prefix| && forall i | 0 <= i < |prefix| :: r[i] == TrimSpace(prefix[i])
  {
    seq(|prefix|, i requires 0 <= i < |prefix| => TrimSpace(prefix[i]))
  }

  /** NormalizeCommandPrefix. */
  function Normalize(j: Judge, prefix: Tokens): Option<Tokens> {
    if prefix == [] || "" in Trimmed(prefix) || j.unsafe(Trimmed(prefix)) then None else Some(Trimmed(prefix))
  }

  /** The prefix_rule argument: absent, not a list of strings, or a list. */
  datatype Rule = Absent | Malformed | Listed(parts: Tokens)

  /** A tool call as far as prefixes go: whether it is a shell tool, its parsed command if there is one, its
      prefix_rule, and whether it asks for additional permissions. */
  datatype Call = Call(shell: bool, file: Option<seq<Stmt>>, rule: Rule, additional: bool)

  function Cleaned(parts: Tokens): Tokens { if "" in Trimmed(parts) then [] else Trimmed(parts) }

  function Requested(rule: Rule): Tokens { if rule.Listed? then Cleaned(rule.parts) else [] }

  predicate Covered(j: Judge, segments: seq<Tokens>, prefix: Tokens, n: nat)
    requires n <= |segments|
  {
    forall i | 0 <= i < n :: HasPrefix(segments[i], prefix) || j.safe(segments[i])
  }

  predicate Hit(segments: seq<Tokens>, prefix: Tokens, n: nat)
    requires n <= |segments|
  {
    exists i :: 0 <= i < n && HasPrefix(segments[i], prefix)
  }

  method SafeRequestedPrefix(j: Judge, prefix: Tokens, segments: seq<Tokens>) returns (ok: bool)
    ensures ok
      <==> Normalize(j, prefix).Some? && Covered(j, segments, prefix, |segments|) && Hit(segments, prefix, |segments|)
  {
    if |prefix| == 0 || Normalize(j, prefix).None? {
      return false;
    }
    var matched := false;
    for i := 0 to |segments|
      invariant Covered(j, segments, prefix, i) && (matched <==> Hit(segments, prefix, i))
    {
      if |prefix| > |segments[i]| {
        if j.safe(segments[i]) {
          continue;
        }
        return false;
      }
      if HasPrefix(segments[i], prefix) {
        matched := true;
        continue;
      }
      if j.safe(segments[i]) {
        continue;
      }
      return false;
    }
    return matched;
  }

  predicate OthersSafe(j: Judge, segments: seq<Tokens>, skip: nat) {
    forall i | 0 <= i < |segments| && i != skip :: j.safe(segments[i])
  }

  /** The first segment that is not safe on its own. */
  function FirstUnsafe(j: Judge, segments: seq<Tokens>, i: nat): (k: nat)
    requires i <= |segments|
    ensures i <= k <= |segments|
    ensures forall l | i <= l < k :: j.safe(segments[l])
    ensures k < |segments| ==> !j.safe(segments[k])
    decreases |segments| - i
  {
    if i == |segments| || !j.safe(segments[i]) then i else FirstUnsafe(j, segments, i + 1)
  }

  /** The segment that is proposed without a prefix_rule: the only unsafe one, or the first of safe ones. */
  function Subject(j: Judge, segments: seq<Tokens>): Option<Tokens> {
    var k := FirstUnsafe(j, segments, 0);
    if k < |segments| then
      if Normalize(j, segments[k]).Some? && OthersSafe(j, segments, k) then Some(segments[k]) else None
    else if segments == [] || Normalize(j, segments[0]).None? then None
    else Some(segments[0])
  }

  function Proposed(j: Judge, call: Call): Option<Tokens> {
    var segments := CommandSegments(call.file, true);
    if !call.shell || segments.None? then None
    else if call.rule.Absent? then Subject(j, segments.value)
    else
      var prefix := Requested(call.rule);
      if Normalize(j, prefix).Some? && Covered(j, segments.value, prefix, |segments.value|)
        && Hit(segments.value, prefix, |segments.value|) then Some(prefix) else None
  }

  method OtherSegmentsKnownSafe(j: Judge, segments: seq<Tokens>, skip: nat) returns (ok: bool)
    ensures ok <==> OthersSafe(j, segments, skip)
  {
    for i := 0 to |segments|
      invariant forall k | 0 <= k < i && k != skip :: j.safe(segments[k])
    {
      if i == skip {
        continue;
      }
      if !j.safe(segments[i]) {
        return false;
      }
    }
    return true;
  }

  method ProposedCommandPrefix(j: Judge, call: Call) returns (prefix: Option<Tokens>)
    ensures prefix == Proposed(j, call)
  {
    if !call.shell {
      return None;
    }
    var read := SafeShellCommandSegments(call.file);
    if read.None? {
      return None;
    }
    var segments := read.value;
    if !call.rule.Absent? {
      var requested := Requested(call.rule);
      var ok := SafeRequestedPrefix(j, requested, segments);
      return if ok then Some(requested) else None;
    }
    for i := 0 to |segments|
      invariant FirstUnsafe(j, segments, 0) == FirstUnsafe(j, segments, i)
    {
      if j.safe(segments[i]) {
        continue;
      }
      var others := OtherSegmentsKnownSafe(j, segments, i);
      if Normalize(j, segments[i]).None? || !others {
        return None;
      }
      return Some(segments[i]);
    }
    if |segments| == 0 || Normalize(j, segments[0]).None? {
      return None;
    }
    return Some(segments[0]);
  }

  /* Matching grants. */

  /** The grants of a tool: the persistent ones, in order, and those of the session. */
  datatype Grants = Grants(stored: seq<Tokens>, session: seq<Tokens>)

  function FirstPrefix(grants: seq<Tokens>, tokens: Tokens): (r: Option<Tokens>)
    ensures r.Some? ==> r.value in grants && HasPrefix(tokens, r.value)
    ensures r.None? ==> forall g | g in grants :: !HasPrefix(tokens, g)
  {
    if grants == [] then None
    else if HasPrefix(tokens, grants[0]) then Some(grants[0])
    else FirstPrefix(grants[1..], tokens)
  }

  /** The persistent store looks only at tokens that could be approved themselves. */
  function Stored(j: Judge, g: Grants, tokens: Tokens): Option<Tokens> {
    if Normalize(j, tokens).None? then None else FirstPrefix(g.stored, tokens)
  }

  function InSession(g: Grants, tokens: Tokens): Option<Tokens> { FirstPrefix(g.session, tokens) }

  predicate Granted(j: Judge, g: Grants, tokens: Tokens) { Stored(j, g, tokens).Some? || InSession(g, tokens).Some? }

  datatype Match = Match(prefix: Tokens, session: bool)

  method MatchCommandPrefix(j: Judge, g: Grants, call: Call) returns (matched: Option<Match>)
    ensures matched.Some? <==> Accepts(j, g, call)
    ensures matched.Some? ==>
      var segments := CommandSegments(call.file, true).value;
      && IsFirst(j, g, segments, matched.value.prefix)
      && (matched.value.session <==> exists i :: 0 <= i < |segments| && OnlyInSession(j, g, segments[i]))
  {
    if !call.shell || call.additional {
      return None;
    }
    var read := SafeShellCommandSegments(call.file);
    if read.None? {
      return None;
    }
    var segments := read.value;
    var grant: Option<Tokens> := None;
    var session := false;
    for i := 0 to |segments|
      invariant forall k | 0 <= k < i :: Granted(j, g, segments[k]) || j.safe(segments[k])
      invariant grant.None? ==> forall k | 0 <= k < i :: !Granted(j, g, segments[k])
      invariant grant.Some? ==> IsFirst(j, g, segments[..i], grant.value)
      invariant session <==> exists k :: 0 <= k < i && OnlyInSession(j, g, segments[k])
    {
      var stored, inSession := Stored(j, g, segments[i]), InSession(g, segments[i]);
      assert segments[..i + 1] == segments[..i] + [segments[i]];
      if stored.Some? {
        if grant.None? {
          grant := stored;
          assert FirstGranted(j, g, segments[..i + 1], i);
        } else {
          FirstStays(j, g, segments[..i], segments[i], grant.value);
        }
        continue;
      }
      if inSession.Some? {
        if grant.None? {
          grant := inSession;
          assert FirstGranted(j, g, segments[..i + 1], i);
        } else {
          FirstStays(j, g, segments[..i], segments[i], grant.value);
        }
        session := true;
        continue;
      }
      if j.safe(segments[i]) {
        if grant.Some? {
          FirstStays(j, g, segments[..i], segments[i], grant.value);
        }
        continue;
      }
      return None;
    }
    assert segments[..|segments|] == segments;
    if grant.None? {
      return None;
    }
    ghost var first: nat :| FirstGranted(j, g, segments, first);
    return Some(Match(grant.value, session));
  }

  /** Every segment is granted or safe on its own, one at least is granted, and no additional permissions are
      asked for. */
  ghost predicate Accepts(j: Judge, g: Grants, call: Call) {
    var segments := CommandSegments(call.file, true);
    && call.shell && !call.additional && segments.Some?
    && (forall i | 0 <= i < |segments.value| :: Granted(j, g, segments.value[i]) || j.safe(segments.value[i]))
    && (exists i :: 0 <= i < |segments.value| && Granted(j, g, segments.value[i]))
  }

  predicate OnlyInSession(j: Judge, g: Grants, tokens: Tokens) {
    Stored(j, g, tokens).None? && InSession(g, tokens).Some?
  }

  ghost predicate FirstGranted(j: Judge, g: Grants, segments: seq<Tokens>, i: nat) {
    i < |segments| && Granted(j, g, segments[i]) && forall k | 0 <= k < i :: !Granted(j, g, segments[k])
  }

  function GrantOf(j: Judge, g: Grants, tokens: Tokens): Option<Tokens> {
    if Stored(j, g, tokens).Some? then Stored(j, g, tokens) else InSession(g, tokens)
  }

  /** The prefix is the grant of the first granted segment. */
  ghost predicate IsFirst(j: Judge, g: Grants, segments: seq<Tokens>, prefix: Tokens) {
    exists i: nat :: FirstGranted(j, g, segments, i) && GrantOf(j, g, segments[i]) == Some(prefix)
  }

  lemma FirstStays(j: Judge, g: Grants, segments: seq<Tokens>, more: Tokens, prefix: Tokens)
    requires IsFirst(j, g, segments, prefix)
    ensures IsFirst(j, g, segments + [more], prefix)
  {
    var i: nat :| FirstGranted(j, g, segments, i) && GrantOf(j, g, segments[i]) == Some(prefix);
    assert (segments + [more])[i] == segments[i];
    assert FirstGranted(j, g, segments + [more], i);
  }

  /* What a proposal covers, and whether recording it is enough. */

  /** A proposed prefix begins a segment of the command, and every other segment begins with it or is safe. */
  lemma ProposalCovers(j: Judge, call: Call, prefix: Tokens)
    requires Proposed(j, call) == Some(prefix)
    ensures var segments := CommandSegments(call.file, true);
      segments.Some? && Normalize(j, prefix).Some?
      && Covered(j, segments.value, prefix, |segments.value|) && Hit(segments.value, prefix, |segments.value|)
  {
    var segments := CommandSegments(call.file, true).value;
    if call.rule.Absent? {
      var k := FirstUnsafe(j, segments, 0);
      var at := if k < |segments| then k else 0;
      assert segments[at] == prefix && prefix <= prefix;
    }
  }

  /** Tokens that could be approved themselves: none is blank and they are not ruled out. */
  predicate Approvable(j: Judge, tokens: Tokens) {
    tokens != [] && (forall i | 0 <= i < |tokens| :: TrimSpace(tokens[i]) != "") && !j.unsafe(Trimmed(tokens))
  }

  lemma NormalizeIs(j: Judge, tokens: Tokens)
    ensures Normalize(j, tokens) == if Approvable(j, tokens) then Some(Trimmed(tokens)) else None
  {
    hide TrimSpace;
  }

  /** A prefix_rule is proposed exactly when it lists tokens without a blank one, could be approved when trimmed,
      begins a segment, and every other segment begins with it or is safe; and it is proposed trimmed. */
  lemma RuleIsProposed(j: Judge, call: Call, prefix: Tokens)
    requires !call.rule.Absent?
    ensures var segments := CommandSegments(call.file, true);
      Proposed(j, call) == Some(prefix)
      <==> && call.shell && segments.Some? && call.rule.Listed? && prefix == Trimmed(call.rule.parts)
           && Approvable(j, prefix)
           && (forall i | 0 <= i < |segments.value| :: prefix <= segments.value[i] || j.safe(segments.value[i]))
           && (exists i :: 0 <= i < |segments.value| && prefix <= segments.value[i])
  {
    hide CommandSegments, TrimSpace;
    NormalizeIs(j, Requested(call.rule));
    if call.rule.Listed? {
      TrimmedTwice(call.rule.parts);
    }
  }

  /** The k-th segment is what a command without a prefix_rule proposes: it could be approved, no other one needs
      approval, and it does itself or is the first. */
  predicate Plain(j: Judge, segments: seq<Tokens>, k: nat) {
    && k < |segments| && Approvable(j, segments[k]) && (k == 0 || !j.safe(segments[k]))
    && forall i | 0 <= i < |segments| && i != k :: j.safe(segments[i])
  }

  lemma PlainIsProposed(j: Judge, call: Call, prefix: Tokens)
    requires call.rule.Absent?
    ensures var segments := CommandSegments(call.file, true);
      Proposed(j, call) == Some(prefix)
      <==> call.shell && segments.Some? && exists k: nat :: Plain(j, segments.value, k) && segments.value[k] == prefix
  {
    hide CommandSegments, Approvable;
    if call.shell && CommandSegments(call.file, true).Some? {
      var segments := CommandSegments(call.file, true).value;
      var first := FirstUnsafe(j, segments, 0);
      var k := if first < |segments| then first else 0;
      if k < |segments| {
        NormalizeIs(j, segments[k]);
        assert Proposed(j, call) == Some(segments[k]) <==> Plain(j, segments, k);
        assert forall l: nat | Plain(j, segments, l) :: l == k;
      }
    }
  }

  /** The grant of these tokens in a list: its first nonempty prefix of them. */
  ghost predicate FirstIn(grants: seq<Tokens>, tokens: Tokens, grant: Tokens) {
    exists i :: 0 <= i < |grants| && grants[i] == grant && grant != [] && grant <= tokens
      && forall k | 0 <= k < i :: grants[k] == [] || !(grants[k] <= tokens)
  }

  ghost predicate NoneIn(grants: seq<Tokens>, tokens: Tokens) {
    forall k | 0 <= k < |grants| :: grants[k] == [] || !(grants[k] <= tokens)
  }

  lemma {:induction false} FirstPrefixIsFirst(grants: seq<Tokens>, tokens: Tokens)
    ensures FirstPrefix(grants, tokens).None? <==> NoneIn(grants, tokens)
    ensures FirstPrefix(grants, tokens).Some? ==> FirstIn(grants, tokens, FirstPrefix(grants, tokens).value)
  {
    if grants != [] && !HasPrefix(tokens, grants[0]) {
      FirstPrefixIsFirst(grants[1..], tokens);
      if FirstPrefix(grants[1..], tokens).Some? {
        var grant := FirstPrefix(grants, tokens).value;
        var i :| 0 <= i < |grants[1..]| && grants[1..][i] == grant
          && forall k | 0 <= k < i :: grants[1..][k] == [] || !(grants[1..][k] <= tokens);
        assert grants[i + 1] == grant;
        forall k | 0 <= k < i + 1 ensures grants[k] == [] || !(grants[k] <= tokens) {
          assert k > 0 ==> grants[k] == grants[1..][k - 1];
        }
      } else {
        forall k | 0 <= k < |grants| ensures grants[k] == [] || !(grants[k] <= tokens) {
          assert k > 0 ==> grants[k] == grants[1..][k - 1];
        }
      }
    }
  }

  /** The store answers first, for tokens that could be approved themselves; the session answers for the rest. */
  lemma GrantIsExact(j: Judge, g: Grants, tokens: Tokens)
    ensures Granted(j, g, tokens)
      <==> (Approvable(j, tokens) && !NoneIn(g.stored, tokens)) || !NoneIn(g.session, tokens)
    ensures OnlyInSession(j, g, tokens)
      <==> !(Approvable(j, tokens) && !NoneIn(g.stored, tokens)) && !NoneIn(g.session, tokens)
    ensures Granted(j, g, tokens) ==>
      && GrantOf(j, g, tokens).Some?
      && FirstIn(if OnlyInSession(j, g, tokens) then g.session else g.stored, tokens, GrantOf(j, g, tokens).value)
  {
    NormalizeIs(j, tokens);
    FirstPrefixIsFirst(g.stored, tokens);
    FirstPrefixIsFirst(g.session, tokens);
    hide Approvable, Normalize, FirstPrefix, FirstIn, NoneIn;
  }

  function RecordSession(j: Judge, g: Grants, prefix: Tokens): Grants {
    var q := Normalize(j, prefix);
    if q.None? || q.value in g.session then g else g.(session := g.session + [q.value])
  }

  function RecordStored(j: Judge, g: Grants, prefix: Tokens): Grants {
    var q := Normalize(j, prefix);
    if q.None? || q.value in g.stored then g else g.(stored := g.stored + [q.value])
  }

  /** Recording a prefix that could be approved adds its trimmed form, once. */
  lemma RecordedOnce(j: Judge, g: Grants, prefix: Tokens)
    ensures var r := RecordSession(j, g, prefix);
      r.stored == g.stored && r.session == g.session + if Approvable(j, prefix) && Trimmed(prefix) !in g.session
                                                       then [Trimmed(prefix)] else []
    ensures var r := RecordStored(j, g, prefix);
      r.session == g.session && r.stored == g.stored + if Approvable(j, prefix) && Trimmed(prefix) !in g.stored
                                                       then [Trimmed(prefix)] else []
  {
    NormalizeIs(j, prefix);
    hide Approvable, Normalize;
  }

  const NONE := Grants([], [])

  lemma SessionOnly(j: Judge, prefix: Tokens, tokens: Tokens)
    requires Normalize(j, prefix).Some?
    ensures Granted(j, RecordSession(j, NONE, prefix), tokens) <==> HasPrefix(tokens, Trimmed(prefix))
  {
    var g := RecordSession(j, NONE, prefix);
    assert g.session == [Trimmed(prefix)];
    assert [Trimmed(prefix)][1..] == [];
  }

  lemma StoredOnly(j: Judge, prefix: Tokens, tokens: Tokens)
    requires Normalize(j, prefix).Some?
    ensures Granted(j, RecordStored(j, NONE, prefix), tokens)
      <==> HasPrefix(tokens, Trimmed(prefix)) && Normalize(j, tokens).Some?
  {
    var g := RecordStored(j, NONE, prefix);
    assert g.stored == [Trimmed(prefix)];
    assert [Trimmed(prefix)][1..] == [];
  }

  lemma TrimmedTwice(prefix: Tokens)
    ensures Trimmed(Trimmed(prefix)) == Trimmed(prefix)
  {
    forall i | 0 <= i < |prefix| ensures TrimSpace(TrimSpace(prefix[i])) == TrimSpace(prefix[i]) {
      TrimTwice(prefix[i]);
    }
  }

  /** A prefix that its own trimmed form begins is trimmed. */
  lemma BeginsItself(prefix: Tokens)
    ensures Trimmed(prefix) <= prefix ==> Trimmed(prefix) == prefix
  {
    if Trimmed(prefix) <= prefix {
      assert prefix[..|prefix|] == prefix;
    }
  }

  /** All segments are safe on their own and one begins with these tokens. */
  predicate SafeHit(j: Judge, segments: seq<Tokens>, tokens: Tokens) {
    (forall i | 0 <= i < |segments| :: j.safe(segments[i])) && Hit(segments, tokens, |segments|)
  }

  /** Recording a proposal for the session makes the command accepted exactly when the command asks for no
      additional permissions and the proposal has no white space around its tokens: the recorded prefix is the
      trimmed one. (A command of safe segments may also be accepted because the trimmed one begins another.) */
  lemma SessionProposalAccepted(j: Judge, call: Call, prefix: Tokens)
    requires Proposed(j, call) == Some(prefix)
    ensures Accepts(j, RecordSession(j, NONE, prefix), call)
      <==>
        !call.additional
        && (Trimmed(prefix) == prefix || SafeHit(j, CommandSegments(call.file, true).value, Trimmed(prefix)))
  {
    hide CommandSegments;
    ProposalCovers(j, call, prefix);
    var segments := CommandSegments(call.file, true).value;
    forall tokens ensures Granted(j, RecordSession(j, NONE, prefix), tokens) <==> HasPrefix(tokens, Trimmed(prefix)) {
      SessionOnly(j, prefix, tokens);
    }
    if !call.rule.Absent? {
      TrimmedTwice(call.rule.parts);
    } else {
      BeginsItself(prefix);
    }
  }

  /** Recording it in the store does so exactly when, besides, the segments it is needed for could be approved
      themselves: the store does not look at others. */
  lemma StoredProposalAccepted(j: Judge, call: Call, prefix: Tokens)
    requires Proposed(j, call) == Some(prefix)
    ensures var segments := CommandSegments(call.file, true).value;
      Accepts(j, RecordStored(j, NONE, prefix), call)
      <==> && !call.additional
           && (forall i | 0 <= i < |segments| && !j.safe(segments[i]) ::
                HasPrefix(segments[i], Trimmed(prefix)) && Normalize(j, segments[i]).Some?)
           && (exists i ::
               0 <= i < |segments| && HasPrefix(segments[i], Trimmed(prefix)) && Normalize(j, segments[i]).Some?)
  {
    hide CommandSegments;
    ProposalCovers(j, call, prefix);
    forall tokens
      ensures Granted(j, RecordStored(j, NONE, prefix), tokens)
        <==> HasPrefix(tokens, Trimmed(prefix)) && Normalize(j, tokens).Some?
    {
      StoredOnly(j, prefix, tokens);
    }
  }

  /** So without a prefix_rule, a trimmed proposal is accepted from either store. */
  lemma PlainProposalAccepted(j: Judge, call: Call, prefix: Tokens)
    requires Proposed(j, call) == Some(prefix) && call.rule.Absent? && !call.additional && Trimmed(prefix) == prefix
    ensures Accepts(j, RecordSession(j, NONE, prefix), call) && Accepts(j, RecordStored(j, NONE, prefix), call)
  {
    hide CommandSegments;
    SessionProposalAccepted(j, call, prefix);
    StoredProposalAccepted(j, call, prefix);
    var segments := CommandSegments(call.file, true).value;
    var k := FirstUnsafe(j, segments, 0);
    var at := if k < |segments| then k else 0;
    assert segments[at] == prefix && HasPrefix(segments[at], prefix);
  }

  ghost predicate Within(g: Grants, more: Grants) {
    (forall p | p in g.stored :: p in more.stored) && (forall p | p in g.session :: p in more.session)
  }

  /** Other grants never take an acceptance away. */
  lemma MoreGrantsAcceptMore(j: Judge, g: Grants, more: Grants, call: Call)
    requires Accepts(j, g, call) && Within(g, more)
    ensures Accepts(j, more, call)
  {
    hide CommandSegments;
    forall tokens | Granted(j, g, tokens) ensures Granted(j, more, tokens) {
      assert FirstPrefix(g.stored, tokens).Some? ==> FirstPrefix(g.stored, tokens).value in more.stored;
      assert FirstPrefix(g.session, tokens).Some? ==> FirstPrefix(g.session, tokens).value in more.session;
    }
  }

  /** A command with a word that ends in an escaped space, such as `deploy a\  b`: it is proposed as it is and
      recorded without that space, so the very same command is not accepted afterwards. The word is not the
      last one because the command text is trimmed before it is parsed. */
  lemma EscapedSpaceIsNotAccepted(j: Judge)
    requires forall tokens :: !j.safe(tokens) && !j.unsafe(tokens)
    ensures var stmt := Stmt(false, CallExpr(0, [Word([Lit("deploy")]), Word([Lit("a\\ ")]), Word([Lit("b")])]));
      var call := Call(true, Some([stmt]), Absent, false);
      var prefix := ["deploy", "a\\ ", "b"];
      Proposed(j, call) == Some(prefix) && !Accepts(j, RecordSession(j, NONE, prefix), call)
  {
    var args := [Word([Lit("deploy")]), Word([Lit("a\\ ")]), Word([Lit("b")])];
    var stmt := Stmt(false, CallExpr(0, args));
    var call := Call(true, Some([stmt]), Absent, false);
    var prefix := ["deploy", "a\\ ", "b"];
    EscapedSpaceTrims();
    EscapedSpaceReads();
    assert CommandSegments(call.file, true) == Some([prefix]);
    hide CommandSegments, TrimSpace;
    assert "" !in Trimmed(prefix);
    assert Proposed(j, call) == Some(prefix);
    SessionProposalAccepted(j, call, prefix);
    assert Trimmed(prefix)[1] != prefix[1];
  }

  lemma EscapedSpaceReads()
    ensures var args := [Word([Lit("deploy")]), Word([Lit("a\\ ")]), Word([Lit("b")])];
      AllSegments([Stmt(false, CallExpr(0, args))], 1, true) == Some([["deploy", "a\\ ", "b"]])
  {
    var args := [Word([Lit("deploy")]), Word([Lit("a\\ ")]), Word([Lit("b")])];
    var stmt := Stmt(false, CallExpr(0, args));
    var prefix := ["deploy", "a\\ ", "b"];
    EscapedSpaceTrims();
    hide TrimSpace, HasGlob;
    assert StrictTokens(args, 0) == Some([]);
    assert Bare(args[0]) && Bare(args[1]) && Bare(args[2]);
    assert StrictTokens(args, 1) == Some([] + ["deploy"]);
    assert [] + ["deploy"] == ["deploy"] && ["deploy"] + ["a\\ "] == ["deploy", "a\\ "];
    assert StrictTokens(args, 2) == Some(["deploy"] + ["a\\ "]);
    assert ["deploy", "a\\ "] + ["b"] == prefix;
    assert StrictTokens(args, 3) == Some(["deploy", "a\\ "] + ["b"]);
    assert Segments(stmt, true) == Some([prefix]);
    assert AllSegments([stmt], 0, true) == Some([]);
    assert [] + [prefix] == [prefix];
  }

  lemma EscapedSpaceTrims()
    ensures TrimSpace("a\\ ") == "a\\" && TrimSpace("deploy") == "deploy" && TrimSpace("b") == "b"
    ensures !HasGlob("deploy") && !HasGlob("a\\ ") && !HasGlob("b")
  {
    var s := "a\\ ";
    assert TrimLeft(s) == s;
    assert s[..2] == "a\\";
    assert TrimRight(s) == TrimRight("a\\");
  }
}
