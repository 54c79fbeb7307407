/**
 * The progress file: each PhaseResult is written as a nine-field record
 * (`save_progress`) and read back (`load_progress`). JSON text itself is
 * not modelled; a record is the dictionary `json.load` produces.
 */
module Progress {
  import opened Wrappers
  import opened Phases

  /** The JSON values a record holds. */
  datatype Json = JNull | JInt(i: int) | JFloat(f: real) | JStr(s: string)

  type Record = map<string, Json>

  /** The whole file: `last_updated` and, unless the key is absent, `results`. */
  datatype Document = Document(lastUpdated: string, results: Option<seq<Record>>)

  /** Why loading failed: a KeyError, a field of the wrong kind, or the ValueError of an unknown status. */
  datatype LoadError = MissingKey(key: string) | WrongType(key: string) | UnknownStatus(value: Json)

  const FieldNames: set<string> := {
    "phase_number", "phase_name", "status", "start_time", "end_time",
    "duration_seconds", "error_message", "command_used", "output_file"
  }

  /** `PhaseStatus.value`. */
  function StatusName(s: PhaseStatus): string {
    match s
    case Pending => "pending"
    case InProgress => "in_progress"
    case Completed => "completed"
    case Failed => "failed"
    case Skipped => "skipped"
  }

  /** `PhaseStatus(v)`; None stands for the ValueError. */
  function ParseStatus(v: Json): (r: Option<PhaseStatus>)
    ensures r.Some? ==> v == JStr(StatusName(r.value))
  {
    match v
    case JStr(s) =>
      if s == "pending" then Some(Pending)
      else if s == "in_progress" then Some(InProgress)
      else if s == "completed" then Some(Completed)
      else if s == "failed" then Some(Failed)
      else if s == "skipped" then Some(Skipped)
      else None
    case _ => None
  }

  /** The encoding of a status is read back as that status ... */
  lemma StatusRoundTrip(s: PhaseStatus)
    ensures ParseStatus(JStr(StatusName(s))) == Some(s)
  {
  }

  /** ... and distinct statuses have distinct encodings. */
  lemma StatusNameInjective(s: PhaseStatus, t: PhaseStatus)
    requires StatusName(s) == StatusName(t)
    ensures s == t
  {
    StatusRoundTrip(s);
    StatusRoundTrip(t);
  }

  function StringOrNull(v: Option<string>): Json {
    if v.Some? then JStr(v.value) else JNull
  }

  /** The dictionary `save_progress` writes for one result. */
  function EncodeResult(r: PhaseResult): (rec: Record)
    ensures rec.Keys == FieldNames
  {
    map[
      "phase_number" := JInt(r.phaseNumber),
      "phase_name" := JStr(r.phaseName),
      "status" := JStr(StatusName(r.status)),
      "start_time" := StringOrNull(r.startTime),
      "end_time" := StringOrNull(r.endTime),
      "duration_seconds" := if r.durationSeconds.Some? then JFloat(r.durationSeconds.value) else JNull,
      "error_message" := StringOrNull(r.errorMessage),
      "command_used" := StringOrNull(r.commandUsed),
      "output_file" := StringOrNull(r.outputFile)
    ]
  }

  /** `r[key]` for a key that must be present and hold an integer. */
  function RequiredInt(rec: Record, key: string): Result<int, LoadError> {
    if key !in rec then Err(MissingKey(key))
    else if rec[key].JInt? then Ok(rec[key].i)
    else Err(WrongType(key))
  }

  /** `r[key]` for a key that must be present and hold a string. */
  function RequiredString(rec: Record, key: string): Result<string, LoadError> {
    if key !in rec then Err(MissingKey(key))
    else if rec[key].JStr? then Ok(rec[key].s)
    else Err(WrongType(key))
  }

  /** `PhaseStatus(r['status'])`. */
  function RequiredStatus(rec: Record): Result<PhaseStatus, LoadError> {
    if "status" !in rec then Err(MissingKey("status"))
    else
      match ParseStatus(rec["status"])
      case Some(s) => Ok(s)
      case None => Err(UnknownStatus(rec["status"]))
  }

  /** `r.get(key)` for an optional string: absent and null both give None. */
  function OptionalString(rec: Record, key: string): Result<Option<string>, LoadError> {
    if key !in rec || rec[key] == JNull then Ok(None)
    else if rec[key].JStr? then Ok(Some(rec[key].s))
    else Err(WrongType(key))
  }

  /** `r.get(key)` for an optional number of seconds. */
  function OptionalSeconds(rec: Record, key: string): Result<Option<real>, LoadError> {
    if key !in rec || rec[key] == JNull then Ok(None)
    else if rec[key].JFloat? then Ok(Some(rec[key].f))
    else if rec[key].JInt? then Ok(Some(rec[key].i as real))
    else Err(WrongType(key))
  }

  /** The PhaseResult `load_progress` builds from one dictionary, fields evaluated in order. */
  function DecodeResult(rec: Record): Result<PhaseResult, LoadError> {
    var number :- RequiredInt(rec, "phase_number");
    var name :- RequiredString(rec, "phase_name");
    var status :- RequiredStatus(rec);
    var started :- OptionalString(rec, "start_time");
    var ended :- OptionalString(rec, "end_time");
    var duration :- OptionalSeconds(rec, "duration_seconds");
    var error :- OptionalString(rec, "error_message");
    var command :- OptionalString(rec, "command_used");
    var output :- OptionalString(rec, "output_file");
    Ok(PhaseResult(number, name, status, started, ended, duration, error, command, output))
  }

  /** The `results` list `save_progress` writes. */
  function EncodeResults(rs: seq<PhaseResult>): (recs: seq<Record>)
    ensures |recs| == |rs|
  {
    seq(|rs|, i requires 0 <= i < |rs| => EncodeResult(rs[i]))
  }

  /** The list comprehension of `load_progress`: the first failing record raises. */
  function DecodeResults(recs: seq<Record>): (r: Result<seq<PhaseResult>, LoadError>)
    ensures r.Ok? ==> |r.value| == |recs| && forall i :: 0 <= i < |recs| ==> DecodeResult(recs[i]) == Ok(r.value[i])
    ensures r.Err? ==> exists i :: 0 <= i < |recs| && DecodeResult(recs[i]) == Err(r.error)
                                && forall j :: 0 <= j < i ==> DecodeResult(recs[j]).Ok?
  {
    if recs == [] then Ok([])
    else
      var head :- DecodeResult(recs[0]);
      var tail :- DecodeResults(recs[1..]);
      Ok([head] + tail)
  }

  /** `data.get('results', [])`, decoded. */
  function LoadResults(doc: Document): Result<seq<PhaseResult>, LoadError> {
    DecodeResults(if doc.results.Some? then doc.results.value else [])
  }

  /** The file `save_progress` writes for the results `rs` at time `now`. */
  function SaveDocument(rs: seq<PhaseResult>, now: string): Document {
    Document(now, Some(EncodeResults(rs)))
  }

  /** Reading a saved record gives back the result field for field. */
  lemma DecodeEncode(r: PhaseResult)
    ensures DecodeResult(EncodeResult(r)) == Ok(r)
  {
    var rec := EncodeResult(r);
    assert RequiredInt(rec, "phase_number") == Ok(r.phaseNumber);
    assert RequiredString(rec, "phase_name") == Ok(r.phaseName);
    StatusRoundTrip(r.status);
    assert RequiredStatus(rec) == Ok(r.status);
    assert OptionalString(rec, "start_time") == Ok(r.startTime);
    assert OptionalString(rec, "end_time") == Ok(r.endTime);
    assert OptionalSeconds(rec, "duration_seconds") == Ok(r.durationSeconds);
    assert OptionalString(rec, "error_message") == Ok(r.errorMessage);
    assert OptionalString(rec, "command_used") == Ok(r.commandUsed);
    assert OptionalString(rec, "output_file") == Ok(r.outputFile);
  }

  lemma {:induction false} DecodeEncodeAll(rs: seq<PhaseResult>)
    ensures DecodeResults(EncodeResults(rs)) == Ok(rs)
  {
    if rs != [] {
      assert EncodeResults(rs)[1..] == EncodeResults(rs[1..]);
      DecodeEncode(rs[0]);
      DecodeEncodeAll(rs[1..]);
      assert [rs[0]] + rs[1..] == rs;
    }
  }

  /** Loading what was saved reproduces the results. */
  lemma SaveLoadRoundTrip(rs: seq<PhaseResult>, now: string)
    ensures LoadResults(SaveDocument(rs, now)) == Ok(rs)
  {
    DecodeEncodeAll(rs);
  }

  /** A status outside the five names is rejected, once the fields before it are well formed. */
  lemma UnknownStatusRejected(rec: Record)
    requires RequiredInt(rec, "phase_number").Ok? && RequiredString(rec, "phase_name").Ok?
    requires "status" in rec && ParseStatus(rec["status"]).None?
    ensures DecodeResult(rec) == Err(UnknownStatus(rec["status"]))
  {
  }

  /** An optional field that is missing from a loadable record loads as absent. */
  lemma MissingOptionalFieldsAbsent(rec: Record)
    requires DecodeResult(rec).Ok?
    ensures "start_time" !in rec ==> DecodeResult(rec).value.startTime == None
    ensures "end_time" !in rec ==> DecodeResult(rec).value.endTime == None
    ensures "duration_seconds" !in rec ==> DecodeResult(rec).value.durationSeconds == None
    ensures "error_message" !in rec ==> DecodeResult(rec).value.errorMessage == None
    ensures "command_used" !in rec ==> DecodeResult(rec).value.commandUsed == None
    ensures "output_file" !in rec ==> DecodeResult(rec).value.outputFile == None
  {
  }

  /** A record that lacks some optional fields but is otherwise well formed still loads. */
  lemma MinimalRecordLoads(number: int, name: string, s: PhaseStatus)
    ensures DecodeResult(map["phase_number" := JInt(number), "phase_name" := JStr(name), "status" := JStr(StatusName(s))])
         == Ok(PhaseResult(number, name, s, None, None, None, None, None, None))
  {
  }

  /** Loading looks at the nine fields only: records that agree on them load alike. */
  lemma DecodeReadsFields(a: Record, b: Record)
    requires forall k :: k in FieldNames ==> (k in a <==> k in b) && (k in a ==> a[k] == b[k])
    ensures DecodeResult(a) == DecodeResult(b)
  {
    forall k | k in FieldNames
      ensures RequiredInt(a, k) == RequiredInt(b, k) && RequiredString(a, k) == RequiredString(b, k)
      ensures OptionalString(a, k) == OptionalString(b, k) && OptionalSeconds(a, k) == OptionalSeconds(b, k)
    {
    }
    assert "status" in FieldNames;
    assert RequiredStatus(a) == RequiredStatus(b);
  }

  /** Fields the record does not define are ignored on loading. */
  lemma ExtraFieldsIgnored(r: PhaseResult, key: string, v: Json)
    requires key !in FieldNames
    ensures DecodeResult(EncodeResult(r)[key := v]) == Ok(r)
  {
    DecodeReadsFields(EncodeResult(r)[key := v], EncodeResult(r));
    DecodeEncode(r);
  }

  /** A missing required field is the KeyError of that field. */
  lemma MissingRequiredFieldRejected(r: PhaseResult)
    ensures DecodeResult(EncodeResult(r) - {"phase_number"}) == Err(MissingKey("phase_number"))
    ensures DecodeResult(EncodeResult(r) - {"phase_name"}) == Err(MissingKey("phase_name"))
    ensures DecodeResult(EncodeResult(r) - {"status"}) == Err(MissingKey("status"))
  {
  }
}
