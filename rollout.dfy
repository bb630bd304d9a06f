/**
 * The BFCL multi-turn rollout plug-in: dataset loading with its package,
 * project-root and mock fallbacks, the bounded multi-turn simulation against
 * a chat endpoint, and the GRPO groups handed to the trainer.
 *
 * The chat endpoint is an oracle `chat(sample, messages, request)`: the reply
 * to the request-th call made while simulating one rollout sample. The file
 * system is a map from path to the parsed content of the file there, and
 * `random.sample` is an oracle returning k distinct positions.
 */
module Rollout {
  import opened Wrappers
  import opened Json
  import opened Text
  import opened Reply

  /** A dataset record projected to the three fields the rollout keeps. */
  datatype Item = Item(id: Json, question: Json, funcDoc: Json)

  datatype BfclMeta = BfclMeta(category: string, handlerName: Option<string>, question: Json, funcDoc: Json)

  /** `metadata`: the BFCL id, the raw assistant steps grouped by turn, and hints for the reward stage. */
  datatype Metadata = Metadata(id: Json, result: seq<seq<string>>, bfclMeta: BfclMeta)

  datatype Sample = Sample(
    prompt: Json,
    metadata: Metadata,
    tokens: Option<seq<int>>,
    responseLength: nat,
    reward: real,
    truncated: bool)

  datatype ChatMessage = ChatMessage(role: string, content: string)

  // ---- reading a dataset file

  /** `{"id": rec["id"], "question": rec["question"], "func_doc": rec["func_doc"]}`, for a parsed record or a line that failed to parse. */
  function ProjectRecord(rec: Option<Json>): (r: Result<Item, Error>)
    ensures rec.None? ==> r == Err(ValueError)
    ensures rec.Some? && !rec.value.JObj? ==> r == Err(TypeError)
    ensures rec.Some? && rec.value.JObj? && r.Err? ==> r.error == KeyError
    ensures r.Ok? <==>
      && rec.Some? && rec.value.JObj?
      && Lookup(rec.value.members, "id").Some?
      && Lookup(rec.value.members, "question").Some?
      && Lookup(rec.value.members, "func_doc").Some?
    ensures r.Ok? ==>
      r.value == Item(Lookup(rec.value.members, "id").value,
                      Lookup(rec.value.members, "question").value,
                      Lookup(rec.value.members, "func_doc").value)
  {
    match rec
    case None => Err(ValueError)
    case Some(v) =>
      var id :- Subscript(v, "id");
      var question :- Subscript(v, "question");
      var funcDoc :- Subscript(v, "func_doc");
      Ok(Item(id, question, funcDoc))
  }

  /** Every record projected in order, or the error of the first record that cannot be. */
  function ProjectAll(recs: seq<Option<Json>>): Result<seq<Item>, Error> {
    if |recs| == 0 then Ok([])
    else
      var item :- ProjectRecord(recs[0]);
      var rest :- ProjectAll(recs[1..]);
      Ok([item] + rest)
  }

  /** The records a file yields: its lines for `.jsonl`, the elements `for rec in json.load(f)` visits otherwise. */
  function Records(suffix: string, content: FileContent): (r: Result<seq<Option<Json>>, Error>)
    ensures suffix == ".jsonl" ==> r == Ok(content.lines)
    ensures suffix != ".jsonl" && content.doc.None? ==> r == Err(ValueError)
    ensures suffix != ".jsonl" && content.doc.Some? && Iterate(content.doc.value).Err? ==> r == Err(TypeError)
    ensures suffix != ".jsonl" && content.doc.Some? && Iterate(content.doc.value).Ok? ==>
      var xs := Iterate(content.doc.value).value;
      r.Ok? && |r.value| == |xs| && forall i :: 0 <= i < |xs| ==> r.value[i] == Some(xs[i])
  {
    if suffix == ".jsonl" then Ok(content.lines)
    else match content.doc
      case None => Err(ValueError)
      case Some(d) =>
        var xs :- Iterate(d);
        Ok(seq(|xs|, i requires 0 <= i < |xs| => Some(xs[i])))
  }

  function ReadSpec(suffix: string, content: FileContent): Result<seq<Item>, Error> {
    var recs :- Records(suffix, content);
    ProjectAll(recs)
  }

  /**
   * The projection keeps the records' order and exactly their id, question
   * and func_doc; it fails with the error of the first record that lacks one.
   */
  lemma {:induction false} ProjectAllMeaning(recs: seq<Option<Json>>)
    ensures ProjectAll(recs).Ok? <==> forall i :: 0 <= i < |recs| ==> ProjectRecord(recs[i]).Ok?
    ensures ProjectAll(recs).Ok? ==>
      |ProjectAll(recs).value| == |recs| &&
      forall i :: 0 <= i < |recs| ==> ProjectRecord(recs[i]) == Ok(ProjectAll(recs).value[i])
    ensures ProjectAll(recs).Err? ==>
      exists i :: 0 <= i < |recs| && ProjectRecord(recs[i]) == Err(ProjectAll(recs).error) &&
        forall j :: 0 <= j < i ==> ProjectRecord(recs[j]).Ok?
  {
    ProjectAllSucceeds(recs);
    ProjectAllValues(recs);
    ProjectAllFails(recs);
  }

  /** The success half of ProjectAllMeaning: the projection succeeds exactly when every record projects. */
  lemma {:induction false} ProjectAllSucceeds(recs: seq<Option<Json>>)
    ensures ProjectAll(recs).Ok? <==> forall i :: 0 <= i < |recs| ==> ProjectRecord(recs[i]).Ok?
  {
    if |recs| > 0 {
      var rest := recs[1..];
      ProjectAllSucceeds(rest);
      assert forall i :: 0 <= i < |rest| ==> rest[i] == recs[i + 1];
      if ProjectRecord(recs[0]).Ok? && ProjectAll(rest).Err? {
        var i :| 0 <= i < |rest| && !ProjectRecord(rest[i]).Ok?;
        assert !ProjectRecord(recs[i + 1]).Ok?;
      }
    }
  }

  /** A successful projection holds, in order, each record's projection. */
  lemma {:induction false} ProjectAllValues(recs: seq<Option<Json>>)
    ensures ProjectAll(recs).Ok? ==>
      |ProjectAll(recs).value| == |recs| &&
      forall i :: 0 <= i < |recs| ==> ProjectRecord(recs[i]) == Ok(ProjectAll(recs).value[i])
  {
    if |recs| > 0 && ProjectAll(recs).Ok? {
      var rest := recs[1..];
      ProjectAllValues(rest);
      var head := ProjectRecord(recs[0]).value;
      var tail := ProjectAll(rest).value;
      assert ProjectAll(recs).value == [head] + tail;
      forall i | 0 < i < |recs| ensures ProjectRecord(recs[i]) == Ok(ProjectAll(recs).value[i]) {
        assert recs[i] == rest[i - 1];
      }
    }
  }

  /** The failure half of ProjectAllMeaning: the error is the first failing record's. */
  lemma {:induction false} ProjectAllFails(recs: seq<Option<Json>>)
    ensures ProjectAll(recs).Err? ==>
      exists i :: 0 <= i < |recs| && ProjectRecord(recs[i]) == Err(ProjectAll(recs).error) &&
        forall j :: 0 <= j < i ==> ProjectRecord(recs[j]).Ok?
  {
    if |recs| > 0 && ProjectRecord(recs[0]).Ok? && ProjectAll(recs[1..]).Err? {
      ProjectAllFails(recs[1..]);
      var i :| 0 <= i < |recs| - 1 && ProjectRecord(recs[1..][i]) == Err(ProjectAll(recs[1..]).error) &&
        forall j :: 0 <= j < i ==> ProjectRecord(recs[1..][j]).Ok?;
      assert ProjectRecord(recs[i + 1]) == Err(ProjectAll(recs).error);
      assert forall j :: 0 <= j < i + 1 ==> ProjectRecord(recs[j]).Ok? by {
        forall j | 0 < j < i + 1 ensures ProjectRecord(recs[j]).Ok? {
          assert recs[j] == recs[1..][j - 1];
        }
      }
    }
  }

  /** `_read_bfcl_file`: reads the records one by one, appending each projection. */
  method ReadBfclFile(suffix: string, content: FileContent) returns (r: Result<seq<Item>, Error>)
    ensures r == ReadSpec(suffix, content)
  {
    var recs :- Records(suffix, content);
    var items: seq<Item> := [];
    PrependNothing(recs);
    var i := 0;
    while i < |recs|
      invariant 0 <= i <= |recs|
      invariant ProjectAll(recs) == Prepend(items, ProjectAll(recs[i..]))
    {
      ProjectAllStep(recs, i);
      var item := ProjectRecord(recs[i]);
      if item.Err? {
        return Err(item.error);
      }
      PrependTwice(items, [item.value], ProjectAll(recs[i + 1..]));
      items := items + [item.value];
      i := i + 1;
    }
    assert items + [] == items;
    return Ok(items);
  }

  function Prepend(items: seq<Item>, rest: Result<seq<Item>, Error>): Result<seq<Item>, Error> {
    match rest
    case Ok(more) => Ok(items + more)
    case Err(e) => Err(e)
  }

  lemma PrependNothing(recs: seq<Option<Json>>)
    ensures ProjectAll(recs) == Prepend([], ProjectAll(recs[0..]))
  {
    assert recs[0..] == recs;
    if ProjectAll(recs).Ok? {
      assert [] + ProjectAll(recs).value == ProjectAll(recs).value;
    }
  }

  lemma PrependTwice(a: seq<Item>, b: seq<Item>, rest: Result<seq<Item>, Error>)
    ensures Prepend(a, Prepend(b, rest)) == Prepend(a + b, rest)
  {
    if rest.Ok? {
      assert a + (b + rest.value) == (a + b) + rest.value;
    }
  }

  /** One step of the projection: the record at i either fails the rest or is put in front of it. */
  lemma ProjectAllStep(recs: seq<Option<Json>>, i: nat)
    requires i < |recs|
    ensures ProjectRecord(recs[i]).Err? ==> ProjectAll(recs[i..]) == Err(ProjectRecord(recs[i]).error)
    ensures ProjectRecord(recs[i]).Ok? ==>
      ProjectAll(recs[i..]) == Prepend([ProjectRecord(recs[i]).value], ProjectAll(recs[i + 1..]))
  {
    assert recs[i..][0] == recs[i];
    assert recs[i..][1..] == recs[i + 1..];
  }

  // ---- _load_bfcl_multi_turn_items

  /** Where the dataset may live: the package's data directory (None when the package lookup fails), `BFCL_PROJECT_ROOT`, and the files that exist. */
  datatype LoadEnv = LoadEnv(packageDataDir: Option<string>, projectRoot: Option<string>, files: map<string, FileContent>)

  function DatasetFileName(category: string, ext: string): string {
    "BFCL_v3_" + category + ext
  }

  function PackagePaths(dir: string, category: string): seq<string> {
    [dir + "/" + DatasetFileName(category, ".json"), dir + "/" + DatasetFileName(category, ".jsonl")]
  }

  function ProjectRootPaths(root: string, category: string): seq<string> {
    var name := DatasetFileName(category, ".json");
    [root + "/berkeley-function-call-leaderboard/data/" + name, root + "/" + name, root + "/bfcl/" + name]
  }

  /** The position of the first path that exists. */
  function FirstExisting(paths: seq<string>, files: map<string, FileContent>): (r: Option<nat>)
    ensures r.Some? ==>
      (r.value < |paths| && paths[r.value] in files && forall j :: 0 <= j < r.value ==> paths[j] !in files)
    ensures r.None? ==> forall j :: 0 <= j < |paths| ==> paths[j] !in files
  {
    if |paths| == 0 then None
    else if paths[0] in files then Some(0)
    else match FirstExisting(paths[1..], files)
      case Some(k) => Some(k + 1)
      case None => None
  }

  /** The package attempt: the items read from the first dataset file there, or None when it finds nothing or the read raises (the exception is caught). */
  function FromPackage(env: LoadEnv, category: string): Option<seq<Item>> {
    match env.packageDataDir
    case None => None
    case Some(dir) =>
      var paths := PackagePaths(dir, category);
      match FirstExisting(paths, env.files)
      case None => None
      case Some(k) =>
        match ReadSpec([".json", ".jsonl"][k], env.files[paths[k]])
        case Ok(items) => Some(items)
        case Err(_) => None
  }

  function MockDeclaration(): Json {
    JArr([JObj([
      ("name", JStr("calculate_sum")),
      ("description", JStr("Calculate the sum of two numbers")),
      ("parameters", JObj([
        ("type", JStr("object")),
        ("properties", JObj([
          ("a", JObj([("type", JStr("number")), ("description", JStr("First number"))])),
          ("b", JObj([("type", JStr("number")), ("description", JStr("Second number"))]))])),
        ("required", JArr([JStr("a"), JStr("b")]))]))])])
  }

  const MockFuncDoc: string := Encode(MockDeclaration())

  function MockItem(category: string, i: nat, doc: string): Item {
    Item(
      JStr("mock_" + category + "_" + NatToDecimal(i)),
      JStr("Test question " + NatToDecimal(i) + ": Calculate the sum of 5 + 3"),
      JStr(doc))
  }

  function LoadSpec(env: LoadEnv, category: string): Result<seq<Item>, Error> {
    match FromPackage(env, category)
    case Some(items) => Ok(items)
    case None =>
      if env.projectRoot.None? || env.projectRoot.value == "" then Err(FileNotFoundError)
      else
        var paths := ProjectRootPaths(env.projectRoot.value, category);
        match FirstExisting(paths, env.files)
        case Some(k) => ReadSpec(".json", env.files[paths[k]])
        case None => Ok(seq(10, i requires 0 <= i < 10 => MockItem(category, i, MockFuncDoc)))
  }

  /** The mock dataset: ten items whose ids are `mock_<category>_<i>` for i = 0..9. */
  method MockItems(category: string, doc: string) returns (items: seq<Item>)
    ensures |items| == 10
    ensures forall i :: 0 <= i < 10 ==> items[i] == MockItem(category, i, doc)
    ensures forall i :: 0 <= i < 10 ==> items[i].id == JStr("mock_" + category + "_" + [DigitChar(i)])
  {
    items := [];
    for i := 0 to 10
      invariant |items| == i
      invariant forall j :: 0 <= j < i ==> items[j] == MockItem(category, j, doc)
    {
      items := items + [MockItem(category, i, doc)];
    }
  }

  /** The mock ids are pairwise distinct, so each names one item. */
  lemma MockIdsDistinct(category: string, doc: string, i: nat, j: nat)
    requires i < 10 && j < 10 && i != j
    ensures MockItem(category, i, doc).id != MockItem(category, j, doc).id
  {
    var a := "mock_" + category + "_" + NatToDecimal(i);
    var b := "mock_" + category + "_" + NatToDecimal(j);
    assert a[|a| - 1] == DigitChar(i) && b[|b| - 1] == DigitChar(j);
  }

  /**
   * The outcomes of loading: what the package yields wins; failing that, an
   * unset or empty project root raises FileNotFoundError, and a root under
   * which no candidate exists yields the ten mock items, with ids
   * `mock_<category>_0` to `mock_<category>_9`.
   */
  lemma LoadSpecOutcomes(env: LoadEnv, category: string)
    ensures FromPackage(env, category).Some? ==> LoadSpec(env, category) == Ok(FromPackage(env, category).value)
    ensures FromPackage(env, category).None? && (env.projectRoot.None? || env.projectRoot.value == "") ==>
      LoadSpec(env, category) == Err(FileNotFoundError)
    ensures FromPackage(env, category).None? && env.projectRoot.Some? && env.projectRoot.value != "" &&
            (forall j :: 0 <= j < 3 ==> ProjectRootPaths(env.projectRoot.value, category)[j] !in env.files) ==>
      var r := LoadSpec(env, category);
      && r.Ok? && |r.value| == 10
      && forall i :: 0 <= i < 10 ==> r.value[i].id == JStr("mock_" + category + "_" + [DigitChar(i)])
  {
    if FromPackage(env, category).None? && env.projectRoot.Some? && env.projectRoot.value != "" {
      var paths := ProjectRootPaths(env.projectRoot.value, category);
      if forall j :: 0 <= j < 3 ==> paths[j] !in env.files {
        assert FirstExisting(paths, env.files).None?;
      }
    }
  }

  /**
   * `_load_bfcl_multi_turn_items`: the package data first (any failure there
   * is caught), then the three paths under `BFCL_PROJECT_ROOT`, then the
   * mock dataset; an unset or empty root raises FileNotFoundError.
   */
  method LoadBfclMultiTurnItems(env: LoadEnv, category: string) returns (r: Result<seq<Item>, Error>)
    ensures r == LoadSpec(env, category)
  {
    if env.packageDataDir.Some? {
      var paths := PackagePaths(env.packageDataDir.value, category);
      var exts := [".json", ".jsonl"];
      var k := 0;
      while k < 2
        invariant 0 <= k <= 2
        invariant forall j :: 0 <= j < k ==> paths[j] !in env.files
      {
        if paths[k] in env.files {
          assert FirstExisting(paths, env.files) == Some(k);
          var read := ReadBfclFile(exts[k], env.files[paths[k]]);
          if read.Ok? {
            return read;
          }
          break;
        }
        k := k + 1;
      }
    }
    assert FromPackage(env, category).None?;
    if env.projectRoot.None? || env.projectRoot.value == "" {
      return Err(FileNotFoundError);
    }
    var paths := ProjectRootPaths(env.projectRoot.value, category);
    for k := 0 to 3
      invariant forall j :: 0 <= j < k ==> paths[j] !in env.files
    {
      if paths[k] in env.files {
        assert FirstExisting(paths, env.files) == Some(k);
        r := ReadBfclFile(".json", env.files[paths[k]]);
        return;
      }
    }
    var items := MockItems(category, MockFuncDoc);
    assert items == seq(10, i requires 0 <= i < 10 => MockItem(category, i, MockFuncDoc));
    return Ok(items);
  }

  // ---- _simulate_multi_turn

  const SystemPrompt: string :=
    "You are a strictly function-calling assistant. "
    + "Given a user request and a set of function tools, solve the task by emitting one or more function calls. "
    + "Do not return natural language unless explicitly asked. "
    + "If information is missing or a tool is unavailable, end the turn."

  /** The two messages every request of every turn carries: the system prompt and the question with the function docs. */
  function BaseMessages(question: Json, funcDoc: Json): seq<ChatMessage> {
    [ChatMessage("system", SystemPrompt),
     ChatMessage("user", Str(question) + "\n\nAvailable function docs:\n" + Str(funcDoc))]
  }

  /**
   * The replies of one turn: requests `from`, `from + 1`, ... each answered by
   * `chat`, until a reply does not look like a function call or `budget`
   * requests have been made.
   */
  function TurnReplies(chat: (seq<ChatMessage>, nat) -> Message, msgs: seq<ChatMessage>, from: nat, budget: int): (rs: seq<Message>)
    ensures budget <= 0 ==> rs == []
    ensures budget > 0 ==> 1 <= |rs| <= budget
    ensures forall j :: 0 <= j < |rs| ==> rs[j] == chat(msgs, from + j)
    ensures forall j :: 0 <= j < |rs| - 1 ==> SeemsFunctionCall(rs[j])
    decreases budget
  {
    if budget <= 0 then []
    else
      var m := chat(msgs, from);
      if !SeemsFunctionCall(m) then [m]
      else [m] + TurnReplies(chat, msgs, from + 1, budget - 1)
  }

  /** A turn cut short of its budget ends with a reply that does not look like a function call. */
  lemma {:induction false} TurnStopsOnPlainReply(chat: (seq<ChatMessage>, nat) -> Message, msgs: seq<ChatMessage>, from: nat, budget: int)
    ensures var rs := TurnReplies(chat, msgs, from, budget);
      0 < |rs| < budget ==> !SeemsFunctionCall(rs[|rs| - 1])
    decreases budget
  {
    var rs := TurnReplies(chat, msgs, from, budget);
    if budget > 0 && SeemsFunctionCall(chat(msgs, from)) {
      var rest := TurnReplies(chat, msgs, from + 1, budget - 1);
      assert rs == [chat(msgs, from)] + rest;
      TurnStopsOnPlainReply(chat, msgs, from + 1, budget - 1);
      if 0 < |rs| < budget {
        assert rs[|rs| - 1] == rest[|rest| - 1];
      }
    }
  }

  /** The number of requests a sequence of turns made. */
  function TotalSteps(turns: seq<seq<Message>>): nat {
    if |turns| == 0 then 0 else TotalSteps(turns[..|turns| - 1]) + |turns[|turns| - 1]|
  }

  /** `nTurns` turns, each restarting from the same messages and numbering its requests after the previous turns' ones. */
  function Conversation(chat: (seq<ChatMessage>, nat) -> Message, msgs: seq<ChatMessage>, nTurns: nat, budget: int): (turns: seq<seq<Message>>)
    ensures |turns| == nTurns
  {
    if nTurns == 0 then []
    else
      var prev := Conversation(chat, msgs, nTurns - 1, budget);
      prev + [TurnReplies(chat, msgs, TotalSteps(prev), budget)]
  }

  function RawSteps(replies: seq<Message>): seq<string> {
    seq(|replies|, j requires 0 <= j < |replies| => ExtractRawReply(replies[j]))
  }

  function RawTurns(turns: seq<seq<Message>>): seq<seq<string>> {
    seq(|turns|, i requires 0 <= i < |turns| => RawSteps(turns[i]))
  }

  function TurnCount(maxTurns: int): nat {
    if maxTurns < 0 then 0 else maxTurns
  }

  /** What `_simulate_multi_turn` returns: the raw text of every reply, grouped by turn. */
  function SimulationSpec(question: Json, funcDoc: Json, maxTurns: int, maxStepsPerTurn: int,
                          chat: (seq<ChatMessage>, nat) -> Message): seq<seq<string>> {
    RawTurns(Conversation(chat, BaseMessages(question, funcDoc), TurnCount(maxTurns), maxStepsPerTurn))
  }

  lemma RawTurnsSnoc(turns: seq<seq<Message>>, replies: seq<Message>)
    ensures RawTurns(turns + [replies]) == RawTurns(turns) + [RawSteps(replies)]
  {
  }

  lemma TotalStepsSnoc(turns: seq<seq<Message>>, replies: seq<Message>)
    ensures TotalSteps(turns + [replies]) == TotalSteps(turns) + |replies|
  {
    assert (turns + [replies])[..|turns|] == turns;
  }

  /**
   * One turn of `_simulate_multi_turn`: up to `budget` requests with the same
   * messages, stopping after the first reply that does not look like a
   * function call. Returns the raw replies and the next request number.
   */
  method RunTurn(chat: (seq<ChatMessage>, nat) -> Message, messages: seq<ChatMessage>, from: nat, budget: int)
    returns (steps: seq<string>, next: nat)
    ensures steps == RawSteps(TurnReplies(chat, messages, from, budget))
    ensures next == from + |TurnReplies(chat, messages, from, budget)|
  {
    steps := [];
    ghost var replies: seq<Message> := [];
    next := from;
    var left := budget;
    while left > 0
      invariant steps == RawSteps(replies)
      invariant TurnSoFar(chat, messages, from, budget, replies, next, left)
    {
      var reply := chat(messages, next);
      var more := SeemsFunctionCall(reply);
      TurnRepliesStep(chat, messages, from, budget, replies, next, left);
      RawStepsSnoc(replies, reply);
      steps := steps + [ExtractRawReply(reply)];
      replies := replies + [reply];
      next := next + 1;
      if !more {
        return;
      }
      left := left - 1;
    }
    TurnRepliesDone(chat, messages, from, budget, replies, next, left);
  }

  /** After `replies`, the turn numbers its next request `next` and may still make up to `left` more. */
  ghost predicate TurnSoFar(chat: (seq<ChatMessage>, nat) -> Message, msgs: seq<ChatMessage>, from: nat, budget: int,
                            replies: seq<Message>, next: nat, left: int)
  {
    && next == from + |replies|
    && TurnReplies(chat, msgs, from, budget) == replies + TurnReplies(chat, msgs, next, left)
  }

  /** One request of a turn: a reply that continues the turn moves to the rest, one that does not ends it. */
  lemma TurnRepliesStep(chat: (seq<ChatMessage>, nat) -> Message, msgs: seq<ChatMessage>, from: nat, budget: int,
                        replies: seq<Message>, next: nat, left: int)
    requires left > 0
    requires TurnSoFar(chat, msgs, from, budget, replies, next, left)
    ensures SeemsFunctionCall(chat(msgs, next)) ==>
      TurnSoFar(chat, msgs, from, budget, replies + [chat(msgs, next)], next + 1, left - 1)
    ensures !SeemsFunctionCall(chat(msgs, next)) ==>
      TurnReplies(chat, msgs, from, budget) == replies + [chat(msgs, next)] &&
      next + 1 == from + |replies + [chat(msgs, next)]|
  {
    var m := chat(msgs, next);
    if SeemsFunctionCall(m) {
      assert TurnReplies(chat, msgs, next, left) == [m] + TurnReplies(chat, msgs, next + 1, left - 1);
      assert replies + ([m] + TurnReplies(chat, msgs, next + 1, left - 1))
        == (replies + [m]) + TurnReplies(chat, msgs, next + 1, left - 1);
    }
  }

  /** A turn with no requests left has made exactly the replies so far. */
  lemma TurnRepliesDone(chat: (seq<ChatMessage>, nat) -> Message, msgs: seq<ChatMessage>, from: nat, budget: int,
                        replies: seq<Message>, next: nat, left: int)
    requires left <= 0
    requires TurnSoFar(chat, msgs, from, budget, replies, next, left)
    ensures TurnReplies(chat, msgs, from, budget) == replies
    ensures next == from + |replies|
  {
    assert replies + [] == replies;
  }

  lemma RawStepsSnoc(replies: seq<Message>, reply: Message)
    ensures RawSteps(replies + [reply]) == RawSteps(replies) + [ExtractRawReply(reply)]
  {
  }

  /**
   * `_simulate_multi_turn`: `max_turns` turns, each restarting from the same
   * system and user messages.
   */
  method SimulateMultiTurn(question: Json, funcDoc: Json, maxTurns: int, maxStepsPerTurn: int,
                           chat: (seq<ChatMessage>, nat) -> Message)
    returns (convo: seq<seq<string>>)
    ensures convo == SimulationSpec(question, funcDoc, maxTurns, maxStepsPerTurn, chat)
  {
    ghost var turns: seq<seq<Message>> := [];
    convo := [];
    var calls: nat := 0;
    var t := 0;
    while t < maxTurns
      invariant 0 <= t <= TurnCount(maxTurns)
      invariant turns == Conversation(chat, BaseMessages(question, funcDoc), t, maxStepsPerTurn)
      invariant calls == TotalSteps(turns)
      invariant convo == RawTurns(turns)
    {
      var messages := BaseMessages(question, funcDoc);
      ghost var replies := TurnReplies(chat, messages, calls, maxStepsPerTurn);
      var steps;
      steps, calls := RunTurn(chat, messages, calls, maxStepsPerTurn);
      TotalStepsSnoc(turns, replies);
      RawTurnsSnoc(turns, replies);
      turns := turns + [replies];
      convo := convo + [steps];
      t := t + 1;
    }
  }

  // ---- properties of the simulation

  lemma {:induction false} ConversationPrefix(chat: (seq<ChatMessage>, nat) -> Message, msgs: seq<ChatMessage>, n: nat, budget: int, t: nat)
    requires t <= n
    ensures Conversation(chat, msgs, n, budget)[..t] == Conversation(chat, msgs, t, budget)
    decreases n
  {
    if t < n {
      var prev := Conversation(chat, msgs, n - 1, budget);
      assert Conversation(chat, msgs, n, budget)[..t] == prev[..t];
      ConversationPrefix(chat, msgs, n - 1, budget, t);
    }
  }

  /**
   * Every turn of the conversation starts again from the same messages and
   * numbers its requests right after those of the turns before it.
   */
  lemma ConversationTurns(chat: (seq<ChatMessage>, nat) -> Message, msgs: seq<ChatMessage>, n: nat, budget: int, t: nat)
    requires t < n
    ensures Conversation(chat, msgs, n, budget)[t]
      == TurnReplies(chat, msgs, TotalSteps(Conversation(chat, msgs, t, budget)), budget)
  {
    ConversationPrefix(chat, msgs, n, budget, t + 1);
    assert Conversation(chat, msgs, n, budget)[t] == Conversation(chat, msgs, n, budget)[..t + 1][t];
  }

  /** One more turn of 1..b requests keeps the total within n..n*b. */
  lemma AddTurnBound(n: nat, b: int, before: int, turn: int)
    requires b > 0 && n > 0
    requires n - 1 <= before <= (n - 1) * b && 1 <= turn <= b
    ensures n <= before + turn <= n * b
  {
    assert (n - 1) * b + b == n * b;
  }

  /** A conversation makes at least one and at most `budget` requests per turn. */
  lemma {:induction false} ConversationRequests(chat: (seq<ChatMessage>, nat) -> Message, msgs: seq<ChatMessage>, n: nat, budget: int)
    ensures budget <= 0 ==> TotalSteps(Conversation(chat, msgs, n, budget)) == 0
    ensures budget > 0 ==> n <= TotalSteps(Conversation(chat, msgs, n, budget)) <= n * budget
  {
    if n > 0 {
      var prev := Conversation(chat, msgs, n - 1, budget);
      var turn := TurnReplies(chat, msgs, TotalSteps(prev), budget);
      assert Conversation(chat, msgs, n, budget) == prev + [turn];
      ConversationRequests(chat, msgs, n - 1, budget);
      TotalStepsSnoc(prev, turn);
      if budget > 0 {
        AddTurnBound(n, budget, TotalSteps(prev), |turn|);
      }
    }
  }

  /**
   * The simulation returns `max_turns` turns (none for a negative count);
   * each holds between one and `max_steps_per_turn` steps, and none when that
   * budget is not positive.
   */
  lemma SimulationShape(question: Json, funcDoc: Json, maxTurns: int, maxStepsPerTurn: int,
                        chat: (seq<ChatMessage>, nat) -> Message)
    ensures var convo := SimulationSpec(question, funcDoc, maxTurns, maxStepsPerTurn, chat);
      && |convo| == (if maxTurns < 0 then 0 else maxTurns)
      && (forall t :: 0 <= t < |convo| && maxStepsPerTurn <= 0 ==> convo[t] == [])
      && (forall t :: 0 <= t < |convo| && maxStepsPerTurn > 0 ==> 1 <= |convo[t]| <= maxStepsPerTurn)
  {
    var turns := Conversation(chat, BaseMessages(question, funcDoc), TurnCount(maxTurns), maxStepsPerTurn);
    forall t | 0 <= t < |turns|
      ensures (maxStepsPerTurn <= 0 ==> turns[t] == []) && (maxStepsPerTurn > 0 ==> 1 <= |turns[t]| <= maxStepsPerTurn)
    {
      ConversationTurns(chat, BaseMessages(question, funcDoc), TurnCount(maxTurns), maxStepsPerTurn, t);
    }
  }

  // ---- the samples

  /** `sum(len(" ".join(t)) for t in convo_log_raw)`. */
  function ResponseLength(turns: seq<seq<string>>): nat {
    if |turns| == 0 then 0 else |JoinSpace(turns[0])| + ResponseLength(turns[1..])
  }

  function StepChars(turns: seq<seq<string>>): nat {
    if |turns| == 0 then 0 else SumLengths(turns[0]) + StepChars(turns[1..])
  }

  function Separators(turns: seq<seq<string>>): nat {
    if |turns| == 0 then 0 else (if |turns[0]| == 0 then 0 else |turns[0]| - 1) + Separators(turns[1..])
  }

  /** The response length counts every character of every step, plus one separator between two steps of the same turn. */
  lemma {:induction false} ResponseLengthCounts(turns: seq<seq<string>>)
    ensures ResponseLength(turns) == StepChars(turns) + Separators(turns)
  {
    if |turns| > 0 {
      JoinSpaceLength(turns[0]);
      ResponseLengthCounts(turns[1..]);
    }
  }

  /** The run settings: `args` attributes and environment variables, each `None` when unset. */
  datatype Settings = Settings(
    nSamplesPerPrompt: Option<int>,
    rolloutBatchSize: Option<int>,
    category: Option<string>,
    maxTurns: Option<int>,
    maxStepsPerTurn: Option<int>,
    handlerName: Option<string>)

  datatype Config = Config(groupSize: int, batchSize: int, category: string, maxTurns: int, maxStepsPerTurn: int, handlerName: string)

  /** `getattr` and `os.getenv` with their defaults. */
  function ConfigFrom(st: Settings): Config {
    Config(
      st.nSamplesPerPrompt.GetOr(8),
      st.rolloutBatchSize.GetOr(32),
      st.category.GetOr("multi_turn_base"),
      st.maxTurns.GetOr(3),
      st.maxStepsPerTurn.GetOr(6),
      st.handlerName.GetOr("openai"))
  }

  /** The dict one simulated conversation becomes. */
  function SampleFor(item: Item, cfg: Config, convo: seq<seq<string>>): Sample {
    Sample(
      item.question,
      Metadata(item.id, convo, BfclMeta(cfg.category, Some(cfg.handlerName), item.question, item.funcDoc)),
      None,
      ResponseLength(convo),
      0.0,
      false)
  }

  /** The chat endpoint as seen while simulating sample `g` of group `i`. */
  function ChatFor(chat: (nat, nat, seq<ChatMessage>, nat) -> Message, i: nat, g: nat): (seq<ChatMessage>, nat) -> Message {
    (msgs: seq<ChatMessage>, n: nat) => chat(i, g, msgs, n)
  }

  function Count(n: int): nat {
    if n < 0 then 0 else n
  }

  function GroupSpec(item: Item, i: nat, cfg: Config, chat: (nat, nat, seq<ChatMessage>, nat) -> Message): seq<Sample> {
    seq(Count(cfg.groupSize), g requires 0 <= g < Count(cfg.groupSize) =>
      SampleFor(item, cfg, SimulationSpec(item.question, item.funcDoc, cfg.maxTurns, cfg.maxStepsPerTurn, ChatFor(chat, i, g))))
  }

  /** `random.sample(population, k)`: k distinct positions of a population of n. */
  predicate IsSample(picks: seq<nat>, n: nat, k: nat) {
    && |picks| == k
    && (forall i :: 0 <= i < k ==> picks[i] < n)
    && (forall i, j :: 0 <= i < j < k ==> picks[i] != picks[j])
  }

  ghost predicate SamplerSound(sampler: (nat, nat) -> seq<nat>) {
    forall n: nat, k: nat :: k <= n ==> IsSample(sampler(n, k), n, k)
  }

  function Min(a: int, b: int): int {
    if a < b then a else b
  }

  function RolloutSpec(cfg: Config, env: LoadEnv, sampler: (nat, nat) -> seq<nat>,
                       chat: (nat, nat, seq<ChatMessage>, nat) -> Message): Result<seq<seq<Sample>>, Error>
    requires SamplerSound(sampler)
  {
    var items :- LoadSpec(env, cfg.category);
    var k := Min(cfg.batchSize, |items|);
    if k < 0 then Err(ValueError)
    else
      var picks := sampler(|items|, k);
      Ok(seq(k, i requires 0 <= i < k => GroupSpec(items[picks[i]], i, cfg, chat)))
  }

  /** The G samples of one group, all simulated from the same item. */
  method BuildGroup(item: Item, i: nat, cfg: Config, chat: (nat, nat, seq<ChatMessage>, nat) -> Message)
    returns (samples: seq<Sample>)
    ensures samples == GroupSpec(item, i, cfg, chat)
  {
    samples := [];
    var g := 0;
    while g < cfg.groupSize
      invariant 0 <= g <= Count(cfg.groupSize)
      invariant |samples| == g
      invariant forall h :: 0 <= h < g ==> samples[h] == GroupSpec(item, i, cfg, chat)[h]
    {
      var convo := SimulateMultiTurn(item.question, item.funcDoc, cfg.maxTurns, cfg.maxStepsPerTurn, ChatFor(chat, i, g));
      samples := samples + [SampleFor(item, cfg, convo)];
      g := g + 1;
    }
  }

  /** The groups of a rollout, one per picked item, in the order of the picks. */
  method BuildGroups(items: seq<Item>, picks: seq<nat>, cfg: Config, chat: (nat, nat, seq<ChatMessage>, nat) -> Message)
    returns (groups: seq<seq<Sample>>)
    requires forall h :: 0 <= h < |picks| ==> picks[h] < |items|
    ensures groups == seq(|picks|, i requires 0 <= i < |picks| => GroupSpec(items[picks[i]], i, cfg, chat))
  {
    groups := [];
    for i := 0 to |picks|
      invariant |groups| == i
      invariant forall h :: 0 <= h < i ==> groups[h] == GroupSpec(items[picks[h]], h, cfg, chat)
    {
      var samples := BuildGroup(items[picks[i]], i, cfg, chat);
      groups := groups + [samples];
    }
  }

  /**
   * `generate_rollout`: loads the items, picks `min(batch_size, len(items))`
   * of them, and simulates `group_size` conversations for each.
   */
  method GenerateRollout(st: Settings, env: LoadEnv, sampler: (nat, nat) -> seq<nat>,
                         chat: (nat, nat, seq<ChatMessage>, nat) -> Message)
    returns (r: Result<seq<seq<Sample>>, Error>)
    requires SamplerSound(sampler)
    ensures r == RolloutSpec(ConfigFrom(st), env, sampler, chat)
  {
    var cfg := ConfigFrom(st);
    var items :- LoadBfclMultiTurnItems(env, cfg.category);
    var k := Min(cfg.batchSize, |items|);
    if k < 0 {
      return Err(ValueError);
    }
    var picks := sampler(|items|, k);
    assert IsSample(picks, |items|, k);
    var groups := BuildGroups(items, picks, cfg, chat);
    return Ok(groups);
  }

  /**
   * A rollout fails exactly when loading fails (with that error) or the
   * batch size is negative (ValueError from `random.sample`). Otherwise it
   * has `min(batch_size, len(items))` groups of `group_size` samples; each
   * group is built from its own dataset item, and every sample carries that
   * item's id and question, `max_turns` turns, a zero reward and no tokens.
   */
  lemma RolloutShape(cfg: Config, env: LoadEnv, sampler: (nat, nat) -> seq<nat>,
                     chat: (nat, nat, seq<ChatMessage>, nat) -> Message)
    requires SamplerSound(sampler)
    ensures LoadSpec(env, cfg.category).Err? ==>
      RolloutSpec(cfg, env, sampler, chat) == Err(LoadSpec(env, cfg.category).error)
    ensures LoadSpec(env, cfg.category).Ok? && cfg.batchSize < 0 ==>
      RolloutSpec(cfg, env, sampler, chat) == Err(ValueError)
    ensures LoadSpec(env, cfg.category).Ok? && cfg.batchSize >= 0 ==>
      var items := LoadSpec(env, cfg.category).value;
      var groups := RolloutSpec(cfg, env, sampler, chat);
      && groups.Ok?
      && |groups.value| == Min(cfg.batchSize, |items|)
      && (forall i :: 0 <= i < |groups.value| ==> |groups.value[i]| == Count(cfg.groupSize))
      && exists picks: seq<nat> | IsSample(picks, |items|, |groups.value|) ::
           forall i, g :: 0 <= i < |groups.value| && 0 <= g < |groups.value[i]| ==>
             && groups.value[i][g].metadata.id == items[picks[i]].id
             && groups.value[i][g].prompt == items[picks[i]].question
             && |groups.value[i][g].metadata.result| == Count(cfg.maxTurns)
             && groups.value[i][g].responseLength == ResponseLength(groups.value[i][g].metadata.result)
             && groups.value[i][g].reward == 0.0
             && groups.value[i][g].tokens.None?
             && !groups.value[i][g].truncated
  {
    if LoadSpec(env, cfg.category).Ok? && cfg.batchSize >= 0 {
      var items := LoadSpec(env, cfg.category).value;
      var k := Min(cfg.batchSize, |items|);
      var picks := sampler(|items|, k);
      assert IsSample(picks, |items|, k);
      var groups := RolloutSpec(cfg, env, sampler, chat).value;
      assert groups == seq(k, i requires 0 <= i < k => GroupSpec(items[picks[i]], i, cfg, chat));
      forall i, g | 0 <= i < k && 0 <= g < Count(cfg.groupSize)
        ensures groups[i][g] == SampleFor(items[picks[i]], cfg, SimulationSpec(items[picks[i]].question,
          items[picks[i]].funcDoc, cfg.maxTurns, cfg.maxStepsPerTurn, ChatFor(chat, i, g)))
        ensures |groups[i][g].metadata.result| == Count(cfg.maxTurns)
      {
        var item := items[picks[i]];
        SimulationShape(item.question, item.funcDoc, cfg.maxTurns, cfg.maxStepsPerTurn, ChatFor(chat, i, g));
      }
    }
  }
}
