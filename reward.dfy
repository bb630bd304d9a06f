/**
 * The BFCL reward plug-in: each sample's raw assistant steps are decoded by
 * the sample's handler, the test entry and the ground truth for its id are
 * looked up in the evaluator package's data, and the official multi-turn
 * checker's `overall_valid` flag becomes a reward of 1.0 or 0.0.
 *
 * The handler's decoder and the checker are oracles. The package is given
 * by the parsed contents of its `data` and `possible_answer` directories,
 * keyed by file name; None stands for a package that cannot be imported.
 */
module Reward {
  import opened Wrappers
  import opened Json
  import Rollout

  /** The installed evaluator package: the files under `data` and under `possible_answer`. */
  datatype Package = Package(data: map<string, FileContent>, possibleAnswer: map<string, FileContent>)

  /** `handler.decode_execute(raw)` for the handler of the given name: None when it raises. */
  type Decoder = (string, Json) -> Option<Json>

  /** `multi_turn_checker(decoded_turns, ground_truth, test_entry, category, handler_name)`. */
  type Checker = (seq<seq<Json>>, Json, Json, Json, Json) -> Json

  // ---- decoding the raw steps

  /** What one raw step adds to its decoded turn: a list is spliced in, any other value is one element, a failure is `""`. */
  function DecodeStep(decoded: Option<Json>): (r: seq<Json>)
    ensures decoded.None? ==> r == [JStr("")]
    ensures decoded.Some? && decoded.value.JArr? ==> r == decoded.value.items
    ensures decoded.Some? && !decoded.value.JArr? ==> r == [decoded.value]
  {
    match decoded
    case None => [JStr("")]
    case Some(JArr(xs)) => xs
    case Some(v) => [v]
  }

  function DecodeTurn(decode: Decoder, handler: string, steps: seq<Json>): seq<Json> {
    if |steps| == 0 then []
    else DecodeTurn(decode, handler, steps[..|steps| - 1]) + DecodeStep(decode(handler, steps[|steps| - 1]))
  }

  /** How many elements a raw step contributes: the length of a list, one otherwise. */
  function StepWeight(decoded: Option<Json>): nat {
    if decoded.Some? && decoded.value.JArr? then |decoded.value.items| else 1
  }

  function TotalWeight(decode: Decoder, handler: string, steps: seq<Json>): nat {
    if |steps| == 0 then 0
    else TotalWeight(decode, handler, steps[..|steps| - 1]) + StepWeight(decode(handler, steps[|steps| - 1]))
  }

  /** A decoded turn is as long as the sum of its steps' weights. */
  lemma {:induction false} DecodeTurnLength(decode: Decoder, handler: string, steps: seq<Json>)
    ensures |DecodeTurn(decode, handler, steps)| == TotalWeight(decode, handler, steps)
  {
    if |steps| > 0 {
      DecodeTurnLength(decode, handler, steps[..|steps| - 1]);
    }
  }

  /** Decoding one more step appends that step's elements. */
  lemma DecodeTurnSnoc(decode: Decoder, handler: string, xs: seq<Json>, x: Json)
    ensures DecodeTurn(decode, handler, xs + [x]) == DecodeTurn(decode, handler, xs) + DecodeStep(decode(handler, x))
  {
    assert (xs + [x])[..|xs|] == xs;
  }

  /** The step case of DecodeTurnAppend: appending one more step to `b`. */
  lemma DecodeTurnAppendStep(decode: Decoder, handler: string, a: seq<Json>, b: seq<Json>, x: Json)
    requires DecodeTurn(decode, handler, a + b) == DecodeTurn(decode, handler, a) + DecodeTurn(decode, handler, b)
    ensures DecodeTurn(decode, handler, a + (b + [x])) == DecodeTurn(decode, handler, a) + DecodeTurn(decode, handler, b + [x])
  {
    ConcatAssoc(a, b, [x]);
    DecodeTurnSnoc(decode, handler, a + b, x);
    DecodeTurnSnoc(decode, handler, b, x);
    ConcatAssoc(DecodeTurn(decode, handler, a), DecodeTurn(decode, handler, b), DecodeStep(decode(handler, x)));
  }

  lemma ConcatAssoc<T>(x: seq<T>, y: seq<T>, z: seq<T>)
    ensures (x + y) + z == x + (y + z)
  {
  }

  /** Decoding keeps the steps' order: the turn of a concatenation is the concatenation of the turns. */
  lemma {:induction false} DecodeTurnAppend(decode: Decoder, handler: string, a: seq<Json>, b: seq<Json>)
    ensures DecodeTurn(decode, handler, a + b) == DecodeTurn(decode, handler, a) + DecodeTurn(decode, handler, b)
    decreases |b|
  {
    if |b| == 0 {
      assert a + b == a;
    } else {
      var b', x := b[..|b| - 1], b[|b| - 1];
      assert b == b' + [x];
      DecodeTurnAppend(decode, handler, a, b');
      DecodeTurnAppendStep(decode, handler, a, b', x);
    }
  }

  /** `decoded_turns`: one decoded turn per element of `result`; a turn that cannot be iterated raises. */
  function DecodeTurns(decode: Decoder, handler: string, turns: seq<Json>): Result<seq<seq<Json>>, Error> {
    if |turns| == 0 then Ok([])
    else
      var first :- Iterate(turns[0]);
      var rest :- DecodeTurns(decode, handler, turns[1..]);
      Ok([DecodeTurn(decode, handler, first)] + rest)
  }

  /** Decoding yields one turn per turn of the result, in order, or fails on the first turn that is not iterable. */
  lemma {:induction false} DecodeTurnsMeaning(decode: Decoder, handler: string, turns: seq<Json>)
    ensures DecodeTurns(decode, handler, turns).Ok? <==> forall i :: 0 <= i < |turns| ==> Iterate(turns[i]).Ok?
    ensures DecodeTurns(decode, handler, turns).Ok? ==>
      var d := DecodeTurns(decode, handler, turns).value;
      |d| == |turns| && forall i :: 0 <= i < |turns| ==> d[i] == DecodeTurn(decode, handler, Iterate(turns[i]).value)
    ensures DecodeTurns(decode, handler, turns).Err? ==> DecodeTurns(decode, handler, turns).error == TypeError
  {
    if |turns| > 0 {
      DecodeTurnsMeaning(decode, handler, turns[1..]);
      assert forall i :: 0 < i < |turns| ==> turns[i] == turns[1..][i - 1];
    }
  }

  /** Decodes the steps of one turn, splicing lists and substituting `""` for failures. */
  method DecodeSteps(decode: Decoder, handler: string, steps: seq<Json>) returns (decoded: seq<Json>)
    ensures decoded == DecodeTurn(decode, handler, steps)
  {
    decoded := [];
    for i := 0 to |steps|
      invariant decoded == DecodeTurn(decode, handler, steps[..i])
    {
      assert steps[..i + 1][..i] == steps[..i];
      var d := decode(handler, steps[i]);
      match d {
        case None =>
          decoded := decoded + [JStr("")];
        case Some(v) =>
          if v.JArr? {
            decoded := decoded + v.items;
          } else {
            decoded := decoded + [v];
          }
      }
    }
    assert steps[..|steps|] == steps;
  }

  /** The decoding loops of `bfcl_reward` for one sample. */
  method DecodeResult(decode: Decoder, handler: string, turns: seq<Json>) returns (r: Result<seq<seq<Json>>, Error>)
    ensures r == DecodeTurns(decode, handler, turns)
  {
    var decodedTurns: seq<seq<Json>> := [];
    var i := 0;
    assert turns[0..] == turns;
    var all := DecodeTurns(decode, handler, turns);
    assert all.Ok? ==> [] + all.value == all.value;
    while i < |turns|
      invariant 0 <= i <= |turns|
      invariant DecodeTurns(decode, handler, turns) == PrependTurns(decodedTurns, DecodeTurns(decode, handler, turns[i..]))
    {
      DecodeTurnsStep(decode, handler, turns, i);
      var steps :- Iterate(turns[i]);
      var decoded := DecodeSteps(decode, handler, steps);
      PrependTurnsTwice(decodedTurns, [decoded], DecodeTurns(decode, handler, turns[i + 1..]));
      decodedTurns := decodedTurns + [decoded];
      i := i + 1;
    }
    assert decodedTurns + [] == decodedTurns;
    return Ok(decodedTurns);
  }

  function PrependTurns(done: seq<seq<Json>>, rest: Result<seq<seq<Json>>, Error>): Result<seq<seq<Json>>, Error> {
    match rest
    case Ok(more) => Ok(done + more)
    case Err(e) => Err(e)
  }

  lemma PrependTurnsTwice(a: seq<seq<Json>>, b: seq<seq<Json>>, rest: Result<seq<seq<Json>>, Error>)
    ensures PrependTurns(a, PrependTurns(b, rest)) == PrependTurns(a + b, rest)
  {
    if rest.Ok? {
      assert a + (b + rest.value) == (a + b) + rest.value;
    }
  }

  lemma DecodeTurnsStep(decode: Decoder, handler: string, turns: seq<Json>, i: nat)
    requires i < |turns|
    ensures Iterate(turns[i]).Err? ==> DecodeTurns(decode, handler, turns[i..]) == Err(Iterate(turns[i]).error)
    ensures Iterate(turns[i]).Ok? ==>
      DecodeTurns(decode, handler, turns[i..])
        == PrependTurns([DecodeTurn(decode, handler, Iterate(turns[i]).value)], DecodeTurns(decode, handler, turns[i + 1..]))
  {
    assert turns[i..][0] == turns[i];
    assert turns[i..][1..] == turns[i + 1..];
  }

  // ---- _ground_truth_loader

  /** The record parsed and has an `id`. */
  predicate HasId(rec: Option<Json>) {
    rec.Some? && Subscript(rec.value, "id").Ok?
  }

  predicate IdMatches(rec: Option<Json>, id: Json) {
    HasId(rec) && PyEq(Subscript(rec.value, "id").value, id)
  }

  /** The scan reads past this record: it parsed, has an `id`, and the id differs. */
  predicate PassesEntry(rec: Option<Json>, id: Json) {
    HasId(rec) && !IdMatches(rec, id)
  }

  /** Record i is the first whose id equals `id`, and the scan gets there. */
  predicate FirstEntryAt(recs: seq<Option<Json>>, id: Json, i: int) {
    && 0 <= i < |recs|
    && IdMatches(recs[i], id)
    && (forall j :: 0 <= j < i ==> PassesEntry(recs[j], id))
  }

  /** `rec["id"] == bfcl_id` over the records in file order, stopping at the first match. */
  function FindTestEntry(recs: seq<Option<Json>>, id: Json): Result<Json, Error> {
    if |recs| == 0 then Err(KeyError)
    else match recs[0]
      case None => Err(ValueError)
      case Some(rec) =>
        var rid :- Subscript(rec, "id");
        if PyEq(rid, id) then Ok(rec) else FindTestEntry(recs[1..], id)
  }

  lemma FirstEntryShift(recs: seq<Option<Json>>, id: Json, i: int)
    requires |recs| > 0 && PassesEntry(recs[0], id)
    ensures FirstEntryAt(recs, id, i + 1) <==> FirstEntryAt(recs[1..], id, i)
  {
    assert forall j :: 0 < j < |recs| ==> recs[j] == recs[1..][j - 1];
  }

  /**
   * The scan returns a record exactly when some record has the id and every
   * record before it parses and has another id; the record returned is that
   * first one. When every record has another id the scan raises KeyError.
   */
  lemma {:induction false} FindTestEntryMeaning(recs: seq<Option<Json>>, id: Json)
    ensures FindTestEntry(recs, id).Ok? <==> exists i :: FirstEntryAt(recs, id, i)
    ensures FindTestEntry(recs, id).Ok? ==>
      exists i :: FirstEntryAt(recs, id, i) && recs[i] == Some(FindTestEntry(recs, id).value)
    ensures (forall j :: 0 <= j < |recs| ==> PassesEntry(recs[j], id)) ==> FindTestEntry(recs, id) == Err(KeyError)
  {
    if |recs| > 0 {
      FindTestEntryMeaning(recs[1..], id);
      if PassesEntry(recs[0], id) {
        forall i | FirstEntryAt(recs, id, i) ensures i > 0 && FirstEntryAt(recs[1..], id, i - 1) {
          FirstEntryShift(recs, id, i - 1);
        }
        forall i | FirstEntryAt(recs[1..], id, i) ensures FirstEntryAt(recs, id, i + 1) {
          FirstEntryShift(recs, id, i);
        }
        assert forall j :: 0 <= j < |recs| - 1 ==> recs[1..][j] == recs[j + 1];
      } else if IdMatches(recs[0], id) {
        assert FirstEntryAt(recs, id, 0);
      } else {
        assert forall i :: !FirstEntryAt(recs, id, i);
      }
    }
  }

  /** The error the entry scan raises at a record it cannot read past or match: unparsable, or `rec["id"]` failing. */
  function EntryError(rec: Option<Json>): Error
    requires !HasId(rec)
  {
    if rec.None? then ValueError else Subscript(rec.value, "id").error
  }

  /** The position where the entry scan stops reading past records: the first record that does not pass, or the end. */
  function FirstStuck(recs: seq<Option<Json>>, id: Json): (k: nat)
    ensures k <= |recs|
    ensures forall j :: 0 <= j < k ==> PassesEntry(recs[j], id)
    ensures k < |recs| ==> !PassesEntry(recs[k], id)
  {
    if |recs| == 0 || !PassesEntry(recs[0], id) then 0
    else
      var k := FirstStuck(recs[1..], id);
      assert forall j :: 0 < j <= k ==> recs[j] == recs[1..][j - 1];
      1 + k
  }

  /**
   * A failing scan raises KeyError after reading past every record, or the
   * error of the first record it cannot read past: ValueError when it does
   * not parse, KeyError or TypeError when `rec["id"]` fails.
   */
  lemma {:induction false} FindTestEntryFails(recs: seq<Option<Json>>, id: Json)
    ensures FindTestEntry(recs, id).Err? ==>
      var k := FirstStuck(recs, id);
      || (k == |recs| && FindTestEntry(recs, id).error == KeyError)
      || (k < |recs| && !HasId(recs[k]) && FindTestEntry(recs, id).error == EntryError(recs[k]))
  {
    if |recs| > 0 {
      if PassesEntry(recs[0], id) {
        var rest := recs[1..];
        FindTestEntryFails(rest, id);
        assert FindTestEntry(recs, id) == FindTestEntry(rest, id);
        var k := FirstStuck(rest, id);
        assert FirstStuck(recs, id) == k + 1;
        if k < |rest| {
          assert recs[k + 1] == rest[k];
        }
      } else if !HasId(recs[0]) {
        assert FindTestEntry(recs, id) == Err(EntryError(recs[0]));
      }
    }
  }

  /**
   * `load_test_entry`: the `.json` data file if it exists, else the
   * `.jsonl` one, else FileNotFoundError; then the first record with the id,
   * else KeyError.
   */
  function LoadTestEntry(pkg: Package, id: Json, category: Json): (r: Result<Json, Error>)
    ensures (Rollout.DatasetFileName(Str(category), ".json") !in pkg.data &&
             Rollout.DatasetFileName(Str(category), ".jsonl") !in pkg.data) ==> r == Err(FileNotFoundError)
    ensures Rollout.DatasetFileName(Str(category), ".json") in pkg.data ==>
      var recs := Rollout.Records(".json", pkg.data[Rollout.DatasetFileName(Str(category), ".json")]);
      && (recs.Err? ==> r == Err(recs.error))
      && (recs.Ok? ==> r == FindTestEntry(recs.value, id))
    ensures Rollout.DatasetFileName(Str(category), ".json") !in pkg.data &&
            Rollout.DatasetFileName(Str(category), ".jsonl") in pkg.data ==>
              r == FindTestEntry(pkg.data[Rollout.DatasetFileName(Str(category), ".jsonl")].lines, id)
  {
    var json := Rollout.DatasetFileName(Str(category), ".json");
    var jsonl := Rollout.DatasetFileName(Str(category), ".jsonl");
    if json in pkg.data then
      var recs :- Rollout.Records(".json", pkg.data[json]);
      FindTestEntry(recs, id)
    else if jsonl in pkg.data then
      FindTestEntry(pkg.data[jsonl].lines, id)
    else Err(FileNotFoundError)
  }

  /** When the `.json` data file exists, whatever the `.jsonl` one holds (or whether it exists) does not change the entry found. */
  lemma LoadTestEntryPrefersJson(pkg: Package, id: Json, category: Json, other: Option<FileContent>)
    requires Rollout.DatasetFileName(Str(category), ".json") in pkg.data
    ensures var jsonl := Rollout.DatasetFileName(Str(category), ".jsonl");
      var data := if other.Some? then pkg.data[jsonl := other.value] else pkg.data - {jsonl};
      LoadTestEntry(pkg.(data := data), id, category) == LoadTestEntry(pkg, id, category)
  {
    var json := Rollout.DatasetFileName(Str(category), ".json");
    var jsonl := Rollout.DatasetFileName(Str(category), ".jsonl");
    assert |json| != |jsonl|;
  }

  /** `rec.get("id")` for a dict record: None when it has no id. */
  function RecordId(rec: Json): Json
    requires rec.JObj?
  {
    Lookup(rec.members, "id").GetOr(JNull)
  }

  /** The scan reads past this record: it is a dict and its id differs. */
  predicate PassesAnswer(rec: Json, id: Json) {
    rec.JObj? && !PyEq(RecordId(rec), id)
  }

  /** Record i is the first whose id equals `id`, and the scan gets there. */
  predicate FirstAnswerAt(recs: seq<Json>, id: Json, i: int) {
    && 0 <= i < |recs|
    && recs[i].JObj? && PyEq(RecordId(recs[i]), id)
    && (forall j :: 0 <= j < i ==> PassesAnswer(recs[j], id))
  }

  /** `rec.get("id") == bfcl_id` over the records, stopping at the first match; a record that is not a dict raises. */
  function FindAnswers(recs: seq<Json>, id: Json): Result<Json, Error> {
    if |recs| == 0 then Err(KeyError)
    else
      var rid :- GetOr(recs[0], "id", JNull);
      if PyEq(rid, id) then Ok(AnswersOf(recs[0])) else FindAnswers(recs[1..], id)
  }

  lemma FirstAnswerShift(recs: seq<Json>, id: Json, i: int)
    requires |recs| > 0 && PassesAnswer(recs[0], id)
    ensures FirstAnswerAt(recs, id, i + 1) <==> FirstAnswerAt(recs[1..], id, i)
  {
    assert forall j :: 0 < j < |recs| ==> recs[j] == recs[1..][j - 1];
  }

  /**
   * The scan finds answers exactly when some record has the id and every
   * record before it is a dict with another id; it returns the answers of
   * that first record. When every record is a dict with another id the scan
   * raises KeyError.
   */
  lemma {:induction false} FindAnswersMeaning(recs: seq<Json>, id: Json)
    ensures FindAnswers(recs, id).Ok? <==> exists i :: FirstAnswerAt(recs, id, i)
    ensures FindAnswers(recs, id).Ok? ==>
      exists i :: FirstAnswerAt(recs, id, i) && FindAnswers(recs, id).value == AnswersOf(recs[i])
    ensures (forall j :: 0 <= j < |recs| ==> PassesAnswer(recs[j], id)) ==> FindAnswers(recs, id) == Err(KeyError)
  {
    if |recs| > 0 {
      FindAnswersMeaning(recs[1..], id);
      if PassesAnswer(recs[0], id) {
        forall i | FirstAnswerAt(recs, id, i) ensures i > 0 && FirstAnswerAt(recs[1..], id, i - 1) {
          FirstAnswerShift(recs, id, i - 1);
        }
        forall i | FirstAnswerAt(recs[1..], id, i) ensures FirstAnswerAt(recs, id, i + 1) {
          FirstAnswerShift(recs, id, i);
        }
        assert forall j :: 0 <= j < |recs| - 1 ==> recs[1..][j] == recs[j + 1];
      } else if recs[0].JObj? {
        assert FirstAnswerAt(recs, id, 0);
      } else {
        assert forall i :: !FirstAnswerAt(recs, id, i);
      }
    }
  }

  /**
   * A failing list scan raises KeyError after reading past every record, or
   * AttributeError from `rec.get` at the first record that is not a dict.
   */
  lemma {:induction false} FindAnswersFails(recs: seq<Json>, id: Json)
    ensures FindAnswers(recs, id).Err? ==>
      || (FindAnswers(recs, id).error == KeyError && forall j :: 0 <= j < |recs| ==> PassesAnswer(recs[j], id))
      || (FindAnswers(recs, id).error == AttributeError &&
          exists i :: 0 <= i < |recs| && !recs[i].JObj? && forall j :: 0 <= j < i ==> PassesAnswer(recs[j], id))
  {
    if |recs| > 0 {
      if PassesAnswer(recs[0], id) {
        var rest := recs[1..];
        FindAnswersFails(rest, id);
        assert forall j :: 0 <= j < |rest| ==> rest[j] == recs[j + 1];
        if FindAnswers(rest, id).Err? && FindAnswers(rest, id).error == AttributeError &&
           exists i :: 0 <= i < |rest| && !rest[i].JObj? && forall j :: 0 <= j < i ==> PassesAnswer(rest[j], id) {
          var i :| 0 <= i < |rest| && !rest[i].JObj? && forall j :: 0 <= j < i ==> PassesAnswer(rest[j], id);
          assert !recs[i + 1].JObj? && forall j :: 0 <= j < i + 1 ==> PassesAnswer(recs[j], id);
        }
      }
    }
  }

  /** `rec.get("answers", rec.get("answer", []))` for a dict record. */
  function AnswersOf(rec: Json): (r: Json)
    requires rec.JObj?
    ensures Lookup(rec.members, "answers").Some? ==> r == Lookup(rec.members, "answers").value
    ensures Lookup(rec.members, "answers").None? && Lookup(rec.members, "answer").Some? ==>
      r == Lookup(rec.members, "answer").value
    ensures Lookup(rec.members, "answers").None? && Lookup(rec.members, "answer").None? ==> r == JArr([])
  {
    Lookup(rec.members, "answers").GetOr(Lookup(rec.members, "answer").GetOr(JArr([])))
  }

  /** `bfcl_id in data` for a dict parsed from JSON: its keys are strings; a list or dict id is unhashable. */
  function InDict(data: Json, id: Json): (r: Result<bool, Error>)
    requires data.JObj?
    ensures r.Err? <==> id.JArr? || id.JObj?
    ensures r == Ok(true) <==> id.JStr? && Lookup(data.members, id.s).Some?
  {
    if id.JArr? || id.JObj? then Err(TypeError)
    else Ok(id.JStr? && Lookup(data.members, id.s).Some?)
  }

  /**
   * `load_ground_truth`: the possible-answer file must exist and parse; a
   * dict holding the id gives the value there (a list or dict id is
   * unhashable), a list gives the answers of its first record with that id,
   * and anything else is a KeyError.
   */
  function LoadGroundTruth(pkg: Package, id: Json, category: Json): (r: Result<Json, Error>)
    ensures Rollout.DatasetFileName(Str(category), ".json") !in pkg.possibleAnswer ==> r == Err(FileNotFoundError)
    ensures var name := Rollout.DatasetFileName(Str(category), ".json");
      name in pkg.possibleAnswer && pkg.possibleAnswer[name].doc.None? ==> r == Err(ValueError)
    ensures var name := Rollout.DatasetFileName(Str(category), ".json");
      name in pkg.possibleAnswer && pkg.possibleAnswer[name].doc.Some? ==>
        var data := pkg.possibleAnswer[name].doc.value;
        && (data.JObj? && id.JStr? && Lookup(data.members, id.s).Some? ==> r == Ok(Lookup(data.members, id.s).value))
        && (data.JObj? && (id.JArr? || id.JObj?) ==> r == Err(TypeError))
        && (data.JObj? && !(id.JArr? || id.JObj?) && !(id.JStr? && Lookup(data.members, id.s).Some?) ==> r == Err(KeyError))
        && (!data.JObj? && !data.JArr? ==> r == Err(KeyError))
        && (data.JArr? ==> r == FindAnswers(data.items, id))
  {
    var name := Rollout.DatasetFileName(Str(category), ".json");
    if name !in pkg.possibleAnswer then Err(FileNotFoundError)
    else match pkg.possibleAnswer[name].doc
      case None => Err(ValueError)
      case Some(data) =>
        if data.JObj? then
          var present :- InDict(data, id);
          if present then Ok(Lookup(data.members, id.s).value) else Err(KeyError)
        else if data.JArr? then FindAnswers(data.items, id)
        else Err(KeyError)
  }

  // ---- bfcl_reward

  /** The fields `bfcl_reward` reads from one sample. */
  datatype Fields = Fields(id: Json, result: Json, category: Json, handler: Json)

  function ReadFields(s: Json): (r: Result<Fields, Error>)
    ensures r.Ok? <==>
      && Subscript(s, "metadata").Ok?
      && Subscript(Subscript(s, "metadata").value, "id").Ok?
      && Subscript(Subscript(s, "metadata").value, "result").Ok?
      && Subscript(Subscript(s, "metadata").value, "bfcl_meta").Ok?
      && Subscript(Subscript(Subscript(s, "metadata").value, "bfcl_meta").value, "category").Ok?
    ensures r.Ok? ==>
      var meta := Subscript(s, "metadata").value;
      var bfclMeta := Subscript(meta, "bfcl_meta").value;
      && bfclMeta.JObj?
      && r.value.id == Subscript(meta, "id").value
      && r.value.result == Subscript(meta, "result").value
      && r.value.category == Subscript(bfclMeta, "category").value
      && r.value.handler == Lookup(bfclMeta.members, "handler_name").GetOr(JStr("openai"))
    ensures r.Err? ==> r.error == KeyError || r.error == TypeError
    ensures Subscript(s, "metadata").Err? ==> r == Err(Subscript(s, "metadata").error)
    ensures var meta := Subscript(s, "metadata");
      meta.Ok? && Subscript(meta.value, "id").Err? ==> r == Err(Subscript(meta.value, "id").error)
    ensures var meta := Subscript(s, "metadata");
      meta.Ok? && Subscript(meta.value, "id").Ok? && Subscript(meta.value, "result").Err? ==>
        r == Err(Subscript(meta.value, "result").error)
    ensures var meta := Subscript(s, "metadata");
      meta.Ok? && Subscript(meta.value, "id").Ok? && Subscript(meta.value, "result").Ok? &&
      Subscript(meta.value, "bfcl_meta").Err? ==>
        r == Err(Subscript(meta.value, "bfcl_meta").error)
    ensures var meta := Subscript(s, "metadata");
      meta.Ok? && Subscript(meta.value, "id").Ok? && Subscript(meta.value, "result").Ok? &&
      Subscript(meta.value, "bfcl_meta").Ok? && Subscript(Subscript(meta.value, "bfcl_meta").value, "category").Err? ==>
        r == Err(Subscript(Subscript(meta.value, "bfcl_meta").value, "category").error)
  {
    var meta :- Subscript(s, "metadata");
    var id :- Subscript(meta, "id");
    var result :- Subscript(meta, "result");
    var bfclMeta :- Subscript(meta, "bfcl_meta");
    var category :- Subscript(bfclMeta, "category");
    var handler := Lookup(bfclMeta.members, "handler_name").GetOr(JStr("openai"));
    Ok(Fields(id, result, category, handler))
  }

  /** A sample whose `bfcl_meta` names no handler is scored with the "openai" handler. */
  lemma HandlerDefaultsToOpenai(s: Json)
    requires ReadFields(s).Ok?
    ensures var bfclMeta := Subscript(Subscript(s, "metadata").value, "bfcl_meta").value;
      Lookup(bfclMeta.members, "handler_name").None? ==> ReadFields(s).value.handler == JStr("openai")
    ensures var bfclMeta := Subscript(Subscript(s, "metadata").value, "bfcl_meta").value;
      Lookup(bfclMeta.members, "handler_name").Some? ==>
        ReadFields(s).value.handler == Lookup(bfclMeta.members, "handler_name").value
  {
  }

  /** `handler_map[handler_name]`: its keys are strings; a list or dict name is unhashable. */
  function HandlerClass(handlers: set<string>, name: Json): (r: Result<string, Error>)
    ensures r.Ok? <==> name.JStr? && name.s in handlers
    ensures r.Ok? ==> r.value == name.s
    ensures r.Err? ==> r.error == (if name.JArr? || name.JObj? then TypeError else KeyError)
  {
    if name.JArr? || name.JObj? then Err(TypeError)
    else if name.JStr? && name.s in handlers then Ok(name.s)
    else Err(KeyError)
  }

  /** `1.0 if bool(check.get("overall_valid", False)) else 0.0`. */
  function Score(verdict: Json): (r: Result<real, Error>)
    ensures r.Err? <==> !verdict.JObj?
    ensures r.Ok? ==> r.value == 0.0 || r.value == 1.0
    ensures r.Ok? ==>
      (r.value == 1.0 <==> Lookup(verdict.members, "overall_valid").Some? && Truthy(Lookup(verdict.members, "overall_valid").value))
  {
    var valid :- GetOr(verdict, "overall_valid", JBool(false));
    if Truthy(valid) then Ok(1.0) else Ok(0.0)
  }

  /** The reward of one sample, or the exception its processing raises. */
  function SampleReward(pkg: Package, handlers: set<string>, decode: Decoder, check: Checker, s: Json): (r: Result<real, Error>)
    ensures r.Ok? ==> r.value == 0.0 || r.value == 1.0
  {
    var f :- ReadFields(s);
    var handler :- HandlerClass(handlers, f.handler);
    var turns :- Iterate(f.result);
    var decoded :- DecodeTurns(decode, handler, turns);
    var entry :- LoadTestEntry(pkg, f.id, f.category);
    var truth :- LoadGroundTruth(pkg, f.id, f.category);
    Score(check(decoded, truth, entry, f.category, f.handler))
  }

  /** The scorer `bfcl_reward` applies to each sample. */
  function Scorer(pkg: Package, handlers: set<string>, decode: Decoder, check: Checker): Json -> Result<real, Error> {
    (s: Json) => SampleReward(pkg, handlers, decode, check, s)
  }

  /** Every sample scored in order, or the error of the first sample whose scoring raises. */
  function Rewards(score: Json -> Result<real, Error>, samples: seq<Json>): Result<seq<real>, Error> {
    if |samples| == 0 then Ok([])
    else
      var first :- score(samples[0]);
      var rest :- Rewards(score, samples[1..]);
      Ok([first] + rest)
  }

  /** What `bfcl_reward` returns: the evaluator package must import, then the rewards of the samples in order. */
  function RewardSpec(pkg: Option<Package>, handlers: set<string>, decode: Decoder, check: Checker, samples: seq<Json>): Result<seq<real>, Error> {
    if pkg.None? then Err(ImportError) else Rewards(Scorer(pkg.value, handlers, decode, check), samples)
  }

  /**
   * The rewards hold one entry per sample, in input order; scoring fails
   * exactly when some sample's does, with the error of the first one.
   */
  lemma {:induction false} RewardsMeaning(score: Json -> Result<real, Error>, samples: seq<Json>)
    ensures Rewards(score, samples).Ok? <==> forall i :: 0 <= i < |samples| ==> score(samples[i]).Ok?
    ensures Rewards(score, samples).Ok? ==>
      |Rewards(score, samples).value| == |samples| &&
      forall i :: 0 <= i < |samples| ==> score(samples[i]) == Ok(Rewards(score, samples).value[i])
    ensures Rewards(score, samples).Err? ==>
      exists i :: 0 <= i < |samples| && score(samples[i]) == Err(Rewards(score, samples).error) &&
        (forall j :: 0 <= j < i ==> score(samples[j]).Ok?)
  {
    if |samples| > 0 {
      var rest := samples[1..];
      RewardsMeaning(score, rest);
      assert forall i :: 0 < i < |samples| ==> samples[i] == rest[i - 1];
      if score(samples[0]).Ok? && Rewards(score, rest).Err? {
        var i :| 0 <= i < |rest| && score(rest[i]) == Err(Rewards(score, rest).error) &&
          (forall j :: 0 <= j < i ==> score(rest[j]).Ok?);
        assert score(samples[i + 1]) == Err(Rewards(score, samples).error);
      }
    }
  }

  /**
   * `bfcl_reward` fails with ImportError without the evaluator package;
   * otherwise it returns one reward per sample, in order, each 0.0 or 1.0,
   * or the error of the first sample whose processing raises.
   */
  lemma BfclRewardMeaning(pkg: Option<Package>, handlers: set<string>, decode: Decoder, check: Checker, samples: seq<Json>)
    ensures pkg.None? ==> RewardSpec(pkg, handlers, decode, check, samples) == Err(ImportError)
    ensures var r := RewardSpec(pkg, handlers, decode, check, samples);
      r.Ok? ==>
        && |r.value| == |samples|
        && forall i :: 0 <= i < |samples| ==>
             && SampleReward(pkg.value, handlers, decode, check, samples[i]) == Ok(r.value[i])
             && (r.value[i] == 0.0 || r.value[i] == 1.0)
  {
    if pkg.Some? {
      RewardsMeaning(Scorer(pkg.value, handlers, decode, check), samples);
    }
  }

  /** The per-sample body of `bfcl_reward`. */
  method ScoreSample(pkg: Package, handlers: set<string>, decode: Decoder, check: Checker, s: Json)
    returns (r: Result<real, Error>)
    ensures r == SampleReward(pkg, handlers, decode, check, s)
  {
    var f :- ReadFields(s);
    var handler :- HandlerClass(handlers, f.handler);
    var turns :- Iterate(f.result);
    var decoded :- DecodeResult(decode, handler, turns);
    var entry :- LoadTestEntry(pkg, f.id, f.category);
    var truth :- LoadGroundTruth(pkg, f.id, f.category);
    r := Score(check(decoded, truth, entry, f.category, f.handler));
  }

  /** `bfcl_reward`: scores the samples one by one, appending each reward. */
  method BfclReward(pkg: Option<Package>, handlers: set<string>, decode: Decoder, check: Checker, samples: seq<Json>)
    returns (r: Result<seq<real>, Error>)
    ensures r == RewardSpec(pkg, handlers, decode, check, samples)
  {
    if pkg.None? {
      return Err(ImportError);
    }
    ghost var score := Scorer(pkg.value, handlers, decode, check);
    var rewards: seq<real> := [];
    var i := 0;
    PrependNothing(score, samples);
    while i < |samples|
      invariant 0 <= i <= |samples|
      invariant Rewards(score, samples) == PrependRewards(rewards, Rewards(score, samples[i..]))
    {
      RewardsStep(score, samples, i);
      var x :- ScoreSample(pkg.value, handlers, decode, check, samples[i]);
      PrependRewardsTwice(rewards, [x], Rewards(score, samples[i + 1..]));
      rewards := rewards + [x];
      i := i + 1;
    }
    assert rewards + [] == rewards;
    return Ok(rewards);
  }

  function PrependRewards(done: seq<real>, rest: Result<seq<real>, Error>): Result<seq<real>, Error> {
    match rest
    case Ok(more) => Ok(done + more)
    case Err(e) => Err(e)
  }

  lemma PrependNothing(score: Json -> Result<real, Error>, samples: seq<Json>)
    ensures Rewards(score, samples) == PrependRewards([], Rewards(score, samples[0..]))
  {
    assert samples[0..] == samples;
    var rest := Rewards(score, samples);
    if rest.Ok? {
      assert [] + rest.value == rest.value;
    }
  }

  lemma PrependRewardsTwice(a: seq<real>, b: seq<real>, rest: Result<seq<real>, Error>)
    ensures PrependRewards(a, PrependRewards(b, rest)) == PrependRewards(a + b, rest)
  {
    if rest.Ok? {
      assert a + (b + rest.value) == (a + b) + rest.value;
    }
  }

  lemma RewardsStep(score: Json -> Result<real, Error>, samples: seq<Json>, i: nat)
    requires i < |samples|
    ensures score(samples[i]).Err? ==> Rewards(score, samples[i..]) == Err(score(samples[i]).error)
    ensures score(samples[i]).Ok? ==>
      Rewards(score, samples[i..]) == PrependRewards([score(samples[i]).value], Rewards(score, samples[i + 1..]))
  {
    assert samples[i..][0] == samples[i];
    assert samples[i..][1..] == samples[i + 1..];
  }
}
