/** How the client classifies the outcome of a Kit transaction from the response body. */
module ClientOutcome {
  import opened Common

  const MAX_U64: nat := 0xFFFF_FFFF_FFFF_FFFF

  // ------------------------------------------------------- decimal epochs

  function Digit(d: nat): char
    requires d < 10
  {
    '0' + d as char
  }

  function DigitValue(c: char): Option<nat> {
    if '0' <= c <= '9' then Some((c - '0') as nat) else None
  }

  /** `to_string` on an unsigned integer. */
  function Decimal(n: nat): (s: string)
    ensures s != []
  {
    if n < 10 then [Digit(n)] else Decimal(n / 10) + [Digit(n % 10)]
  }

  /** The digits of a number accumulated left to right, refusing overflow at every digit. */
  function ParseDigits(s: string): Option<nat> {
    if s == [] then Some(0) else
    match (ParseDigits(s[..|s| - 1]), DigitValue(s[|s| - 1]))
    case (Some(v), Some(d)) => if v * 10 + d <= MAX_U64 then Some(v * 10 + d) else None
    case _ => None
  }

  /** `parse::<u64>`: one leading plus is allowed, and at least one digit is needed. */
  function ParseU64(s: string): Option<nat> {
    var digits := if s != [] && s[0] == '+' then s[1..] else s;
    if digits == [] then None else ParseDigits(digits)
  }

  lemma {:induction false} DigitsOfDecimal(n: nat)
    requires n <= MAX_U64
    ensures ParseDigits(Decimal(n)) == Some(n)
  {
    if n < 10 {
      assert [Digit(n)][..0] == [];
    } else {
      DigitsOfDecimal(n / 10);
      var s := Decimal(n);
      assert s[..|s| - 1] == Decimal(n / 10);
    }
  }

  lemma {:induction false} DecimalHasNoPlus(n: nat)
    ensures Decimal(n)[0] != '+'
  {
    if n >= 10 {
      DecimalHasNoPlus(n / 10);
    }
  }

  /** Reading back what was written: every epoch survives its text form. */
  lemma DecimalRoundTrip(n: nat)
    requires n <= MAX_U64
    ensures ParseU64(Decimal(n)) == Some(n)
  {
    DigitsOfDecimal(n);
    DecimalHasNoPlus(n);
  }

  datatype EpochCheck = Epoch(value: Option<nat>) | BadEpoch

  /** The epoch a text and a number agree on; a text must be the canonical decimal of its value. */
  function ExactKitEpoch(text: Option<string>, numeric: Option<nat>): EpochCheck {
    match text
    case None => Epoch(numeric)
    case Some(t) =>
      match ParseU64(t)
      case None => BadEpoch
      case Some(exact) =>
        if Decimal(exact) != t then BadEpoch
        else if numeric.Some? && numeric.value != exact then BadEpoch
        else Epoch(Some(exact))
  }

  lemma {:induction false} ParseBounded(s: string)
    ensures ParseDigits(s).Some? ==> ParseDigits(s).value <= MAX_U64
  {
  }

  /** A text names an epoch exactly when it is that epoch written in canonical decimal. */
  lemma ExactEpochIff(t: string, numeric: Option<nat>, e: nat)
    ensures ExactKitEpoch(Some(t), numeric) == Epoch(Some(e)) <==>
            t == Decimal(e) && e <= MAX_U64 && (numeric.Some? ==> numeric.value == e)
  {
    if t == Decimal(e) && e <= MAX_U64 {
      DecimalRoundTrip(e);
    }
    ParseBounded(t);
    if t != [] && t[0] == '+' {
      ParseBounded(t[1..]);
    }
  }

  // ------------------------------------------------------------------ JSON

  datatype Json =
    | JNull
    | JBool(flag: bool)
    | JNat(number: nat)
    | JNegative(magnitude: nat)
    | JFloat(float: string)
    | JString(text: string)
    | JArray(items: seq<Json>)
    | JObject(fields: map<string, Json>)

  function Get(v: Json, field: string): Option<Json> {
    if v.JObject? && field in v.fields then Some(v.fields[field]) else None
  }

  function AsU64(v: Option<Json>): Option<nat> {
    if v.Some? && v.value.JNat? && v.value.number <= MAX_U64 then Some(v.value.number) else None
  }

  function AsStr(v: Option<Json>): Option<string> {
    if v.Some? && v.value.JString? then Some(v.value.text) else None
  }

  function AsBool(v: Option<Json>): Option<bool> {
    if v.Some? && v.value.JBool? then Some(v.value.flag) else None
  }

  predicate HasField(v: Json, field: string) { Get(v, field).Some? }

  /** An object with no field outside `allowed` and every field of `needed`. */
  predicate ExactFields(v: Json, allowed: set<string>, needed: set<string>) {
    v.JObject? && v.fields.Keys <= allowed && needed <= v.fields.Keys
  }

  // --------------------------------------------------------------- results

  datatype KitOp = PutOp(returning: bool) | UpsertOp(returning: bool) | DeleteOp | DeleteByPkOp

  datatype KitOpResult =
    | PutResult(rowId: Option<string>, row: Option<seq<Json>>)
    | UpsertResult(action: string, row: Option<seq<Json>>)
    | Deleted
    | NotFoundResult

  /** Column ids alternate with values; ids are distinct and fit sixteen bits. */
  predicate FlatCells(cells: seq<Json>) {
    && |cells| % 2 == 0
    && (forall i :: 0 <= i < |cells| / 2 ==> cells[2 * i].JNat? && cells[2 * i].number < 0x1_0000)
    && forall i, j :: 0 <= i < j < |cells| / 2 ==> cells[2 * i] != cells[2 * j]
  }

  predicate ResultMatches(op: KitOp, r: KitOpResult) {
    match (op, r)
    case (PutOp(returning), PutResult(rowId, row)) => rowId.None? && row.Some? == returning && (row.Some? ==> FlatCells(row.value))
    case (UpsertOp(returning), UpsertResult(action, row)) =>
      && (action == "inserted" || action == "updated" || action == "unchanged")
      && row.Some? == returning && (row.Some? ==> FlatCells(row.value))
    case (DeleteOp, Deleted) => true
    case (DeleteByPkOp, Deleted) => true
    case (DeleteByPkOp, NotFoundResult) => true
    case _ => false
  }

  predicate ResultsMatch(results: seq<KitOpResult>, ops: seq<KitOp>) {
    |results| == |ops| && forall i :: 0 <= i < |ops| ==> ResultMatches(ops[i], results[i])
  }

  method ValidFlatKitCells(cells: seq<Json>) returns (ok: bool)
    ensures ok <==> FlatCells(cells)
  {
    if |cells| % 2 != 0 {
      return false;
    }
    var columns: set<nat> := {};
    for i := 0 to |cells| / 2
      invariant forall j :: 0 <= j < i ==> cells[2 * j].JNat? && cells[2 * j].number < 0x1_0000 && cells[2 * j].number in columns
      invariant forall c :: c in columns ==> exists j :: 0 <= j < i && cells[2 * j] == JNat(c)
      invariant forall j, k :: 0 <= j < k < i ==> cells[2 * j] != cells[2 * k]
    {
      var id := cells[2 * i];
      if !id.JNat? || id.number >= 0x1_0000 || id.number in columns {
        return false;
      }
      columns := columns + {id.number};
    }
    ok := true;
  }

  method ValidateKitResults(results: seq<KitOpResult>, ops: seq<KitOp>) returns (ok: bool)
    ensures ok <==> ResultsMatch(results, ops)
  {
    if |results| != |ops| {
      return false;
    }
    for i := 0 to |ops|
      invariant forall j :: 0 <= j < i ==> ResultMatches(ops[j], results[j])
    {
      var matches := CheckResult(ops[i], results[i]);
      if !matches {
        return false;
      }
    }
    ok := true;
  }

  method CheckResult(op: KitOp, r: KitOpResult) returns (ok: bool)
    ensures ok <==> ResultMatches(op, r)
  {
    match (op, r)
    case (PutOp(returning), PutResult(rowId, row)) =>
      ok := rowId.None? && row.Some? == returning;
      if ok && row.Some? {
        ok := ValidFlatKitCells(row.value);
      }
    case (UpsertOp(returning), UpsertResult(action, row)) =>
      ok := (action == "inserted" || action == "updated" || action == "unchanged") && row.Some? == returning;
      if ok && row.Some? {
        ok := ValidFlatKitCells(row.value);
      }
    case (DeleteOp, Deleted) => ok := true;
    case (DeleteByPkOp, Deleted) => ok := true;
    case (DeleteByPkOp, NotFoundResult) => ok := true;
    case _ => ok := false;
  }

  // ---------------------------------------------------------------- outcomes

  datatype KitError = KitError(
    code: string,
    opIndex: Option<nat>,
    status: nat,
    committed: Option<bool>,
    epoch: Option<nat>,
    epochText: Option<string>,
    retryable: Option<bool>)

  datatype KitTxnResponse = KitTxnResponse(epoch: nat, epochText: string, results: seq<KitOpResult>)

  datatype Outcome = Response(response: KitTxnResponse) | Failure(error: KitError)

  /** Typed decoding of a results array, whatever it accepts. */
  type ResultDecoder = Json -> Option<seq<KitOpResult>>

  function Unknown(): KitError {
    KitError("QUERY_OUTCOME_UNKNOWN", None, 0, None, None, None, Some(false))
  }

  function CommittedError(status: nat, epoch: nat, text: string): KitError {
    KitError("COMMIT_OUTCOME", None, status, Some(true), Some(epoch), Some(text), Some(false))
  }

  // ----------------------------------------------------- success responses

  /** A body parsed without duplicate keys, or none. */
  function DecodeSuccess(body: Option<Json>, ops: seq<KitOp>, status: nat, decode: ResultDecoder): Outcome {
    if body.None? then Failure(Unknown()) else
    var v := body.value;
    var epoch, text := AsU64(Get(v, "epoch")), AsStr(Get(v, "epoch_text"));
    if epoch.None? || text.None? then Failure(Unknown())
    else if !(AsStr(Get(v, "status")) == Some("committed") && ExactKitEpoch(text, epoch) == Epoch(epoch)) then Failure(Unknown())
    else
      var fields := {"status", "epoch", "epoch_text", "results"};
      var committed := Failure(CommittedError(status, epoch.value, text.value));
      if !ExactFields(v, fields, fields) then committed
      else if !v.fields["results"].JArray? then committed
      else
        match decode(v.fields["results"])
        case None => committed
        case Some(results) =>
          if ResultsMatch(results, ops) then Response(KitTxnResponse(epoch.value, text.value, results)) else committed
  }

  /** A success body that proves a commit at an epoch. */
  predicate ProvesCommit(v: Json, e: nat) {
    && Get(v, "status") == Some(JString("committed"))
    && Get(v, "epoch") == Some(JNat(e)) && e <= MAX_U64
    && Get(v, "epoch_text") == Some(JString(Decimal(e)))
  }

  /** The outcome tells its caller the transaction committed at the epoch, in number and in text. */
  predicate SaysCommitted(o: Outcome, e: nat) {
    match o
    case Response(r) => r.epoch == e && r.epochText == Decimal(e)
    case Failure(k) => k.committed == Some(true) && k.epoch == Some(e) && k.epochText == Some(Decimal(e)) && k.retryable == Some(false)
  }

  predicate ClaimsCommit(o: Outcome) { o.Response? || o.error.committed == Some(true) }

  /** The caller hears of a commit at an epoch exactly when the body proves it; otherwise the outcome stays unknown. */
  lemma SuccessOutcomeIff(body: Option<Json>, ops: seq<KitOp>, status: nat, decode: ResultDecoder, e: nat)
    ensures var o := DecodeSuccess(body, ops, status, decode);
            && (SaysCommitted(o, e) <==> body.Some? && ProvesCommit(body.value, e))
            && (ClaimsCommit(o) ==> exists n :: SaysCommitted(o, n))
            && (!ClaimsCommit(o) ==> o == Failure(Unknown()))
  {
    if body.Some? {
      var v := body.value;
      var epoch, text := AsU64(Get(v, "epoch")), AsStr(Get(v, "epoch_text"));
      if epoch.Some? && text.Some? {
        ExactEpochIff(text.value, epoch, epoch.value);
        ExactEpochIff(text.value, epoch, e);
        var o := DecodeSuccess(body, ops, status, decode);
        if ClaimsCommit(o) {
          assert SaysCommitted(o, epoch.value);
        }
      }
    }
  }

  /**
   * The caller gets the response itself, with the results as decoded, exactly when the body proves
   * the commit, carries the four fields and no other, and its results decode and fit the operations
   * one by one.
   */
  lemma ResponseIff(body: Option<Json>, ops: seq<KitOp>, status: nat, decode: ResultDecoder, e: nat, results: seq<KitOpResult>)
    ensures DecodeSuccess(body, ops, status, decode) == Response(KitTxnResponse(e, Decimal(e), results)) <==>
      && body.Some? && ProvesCommit(body.value, e) && body.value.JObject?
      && body.value.fields.Keys == {"status", "epoch", "epoch_text", "results"}
      && body.value.fields["results"].JArray? && decode(body.value.fields["results"]) == Some(results) && ResultsMatch(results, ops)
  {
    SuccessOutcomeIff(body, ops, status, decode, e);
    if body.Some? && ProvesCommit(body.value, e) {
      assert SaysCommitted(DecodeSuccess(body, ops, status, decode), e);
    }
  }

  // ------------------------------------------------------- error responses

  datatype KitErrorBody = KitErrorBody(code: string, message: string, opIndex: Option<nat>)

  datatype KitErrorEnvelope = KitErrorEnvelope(
    status: string,
    committed: Option<bool>,
    epoch: Option<nat>,
    epochText: Option<string>,
    retryable: Option<bool>,
    results: Option<seq<KitOpResult>>,
    error: KitErrorBody)

  predicate EnrichedAbort(v: Json) { HasField(v, "committed") || HasField(v, "retryable") }

  /** The field shape each status prescribes. */
  predicate ErrorShapeOk(v: Json) {
    && HasField(v, "error") && ExactFields(Get(v, "error").value, {"code", "message", "op_index"}, {"code", "message"})
    && AsStr(Get(v, "status")).Some?
    && var status := AsStr(Get(v, "status")).value;
       var durable := {"status", "committed", "epoch", "epoch_text", "retryable", "error"};
       && !((status == "committed" || status == "outcome_unknown") && HasField(Get(v, "error").value, "op_index"))
       && (if status == "aborted" then
             if EnrichedAbort(v) then ExactFields(v, {"status", "committed", "retryable", "error"}, {"status", "committed", "retryable", "error"})
             else ExactFields(v, {"status", "error"}, {"status", "error"})
           else if status == "committed" then ExactFields(v, durable + {"results"}, durable)
           else if status == "outcome_unknown" then ExactFields(v, durable, durable)
           else false)
  }

  /** The epoch and its text, when the body itself proves the commit. */
  function ProvenCommit(v: Json): Option<(nat, string)> {
    if AsStr(Get(v, "status")) != Some("committed") || AsBool(Get(v, "committed")) != Some(true) || AsBool(Get(v, "retryable")) != Some(false)
    then None
    else if Get(v, "error").None? || !Get(v, "error").value.JObject? then None
    else
      var error := Get(v, "error").value;
      if AsStr(Get(error, "code")) != Some("COMMIT_OUTCOME") || AsStr(Get(error, "message")).None? || AsStr(Get(error, "message")).value == ""
         || !OpIndexReadable(error)
      then None
      else
        match (AsU64(Get(v, "epoch")), AsStr(Get(v, "epoch_text")))
        case (Some(epoch), Some(text)) => if ExactKitEpoch(Some(text), Some(epoch)) == Epoch(Some(epoch)) then Some((epoch, text)) else None
        case _ => None
  }

  /** Absent, null, or an index. */
  predicate OpIndexReadable(error: Json) {
    HasField(error, "op_index") ==> Get(error, "op_index").value.JNull? || AsU64(Get(error, "op_index")).Some?
  }

  datatype Decoded<T> = Value(value: T) | Undecodable

  function OptionalBool(v: Option<Json>): Decoded<Option<bool>> {
    if v.None? || v.value.JNull? then Value(None) else if v.value.JBool? then Value(Some(v.value.flag)) else Undecodable
  }

  function OptionalU64(v: Option<Json>): Decoded<Option<nat>> {
    if v.None? || v.value.JNull? then Value(None) else if AsU64(v).Some? then Value(AsU64(v)) else Undecodable
  }

  function OptionalStr(v: Option<Json>): Decoded<Option<string>> {
    if v.None? || v.value.JNull? then Value(None) else if v.value.JString? then Value(Some(v.value.text)) else Undecodable
  }

  function OptionalResults(v: Option<Json>, decode: ResultDecoder): Decoded<Option<seq<KitOpResult>>> {
    if v.None? || v.value.JNull? then Value(None)
    else match decode(v.value) case None => Undecodable case Some(r) => Value(Some(r))
  }

  /** Typed decoding of the envelope. */
  function DecodeEnvelope(v: Json, decode: ResultDecoder): Decoded<KitErrorEnvelope> {
    var error := if HasField(v, "error") then Get(v, "error").value else JNull;
    match (AsStr(Get(v, "status")), OptionalBool(Get(v, "committed")), OptionalU64(Get(v, "epoch")), OptionalStr(Get(v, "epoch_text")),
           OptionalBool(Get(v, "retryable")), OptionalResults(Get(v, "results"), decode),
           AsStr(Get(error, "code")), AsStr(Get(error, "message")), OptionalU64(Get(error, "op_index")))
    case (Some(status), Value(committed), Value(epoch), Value(text), Value(retryable), Value(results), Some(code), Some(message), Value(opIndex)) =>
      Value(KitErrorEnvelope(status, committed, epoch, text, retryable, results, KitErrorBody(code, message, opIndex)))
    case _ => Undecodable
  }

  function ValidatedEnvelope(env: KitErrorEnvelope): EpochCheck {
    var code := env.error.code;
    if env.status == "" || code == "" || env.error.message == "" then BadEpoch
    else if env.retryable == Some(true) && code != "IDEMPOTENCY_STORE_FULL" && code != "IDEMPOTENCY_STORE_UNAVAILABLE" then BadEpoch
    else
      match ExactKitEpoch(env.epochText, env.epoch)
      case BadEpoch => BadEpoch
      case Epoch(epoch) =>
        var ok :=
          if code == "COMMIT_OUTCOME" then
            && env.status == "committed" && env.committed == Some(true) && epoch.Some? && env.epochText.Some?
            && env.retryable == Some(false) && env.error.opIndex.None?
          else if code == "QUERY_OUTCOME_UNKNOWN" then
            && env.status == "outcome_unknown" && env.committed.None? && env.results.None?
            && env.retryable == Some(false) && env.error.opIndex.None?
          else
            && epoch.None? && env.results.None?
            && (if env.status == "aborted" then
                  (env.committed.None? && env.retryable.None?) || (env.committed == Some(false) && env.retryable.Some?)
                else env.status == "error" && env.committed.None? && env.retryable.None?);
        if ok then Epoch(epoch) else BadEpoch
  }

  /** The outcome of the final checks, told apart so that the last one can be shown dead. */
  datatype Classified = Classified(error: KitError) | LostEpoch

  function ClassifyEnvelope(env: KitErrorEnvelope, epoch: Option<nat>, ops: seq<KitOp>, status: nat): Classified {
    if env.error.opIndex.Some? && env.error.opIndex.value >= |ops| then Classified(Unknown())
    else if env.committed == Some(true) && env.results.Some? && !ResultsMatch(env.results.value, ops) then
      if epoch.Some? && env.epochText.Some? then Classified(CommittedError(status, epoch.value, env.epochText.value)) else LostEpoch
    else Classified(KitError(env.error.code, env.error.opIndex, status, env.committed, epoch, env.epochText, env.retryable))
  }

  function DecodeError(body: Option<Json>, ops: seq<KitOp>, status: nat, decode: ResultDecoder): KitError {
    if body.None? then Unknown() else
    var v := body.value;
    var proven := ProvenCommit(v);
    var fallback := if proven.Some? then CommittedError(status, proven.value.0, proven.value.1) else Unknown();
    if !ErrorShapeOk(v) then fallback else
    match DecodeEnvelope(v, decode)
    case Undecodable => fallback
    case Value(env) =>
      match ValidatedEnvelope(env)
      case BadEpoch => fallback
      case Epoch(epoch) =>
        match ClassifyEnvelope(env, epoch, ops, status)
        case Classified(error) => error
        case LostEpoch => Unknown()
  }

  /** An error body that proves a commit at an epoch, whatever else it carries. */
  predicate ProvesCommitError(v: Json, e: nat) {
    && ProvesCommit(v, e)
    && Get(v, "committed") == Some(JBool(true)) && Get(v, "retryable") == Some(JBool(false))
    && HasField(v, "error") && Get(Get(v, "error").value, "code") == Some(JString("COMMIT_OUTCOME"))
    && AsStr(Get(Get(v, "error").value, "message")).Some? && AsStr(Get(Get(v, "error").value, "message")).value != ""
  }

  predicate IndexOkOrAbsent(error: Json) {
    error.JObject? && "op_index" in error.fields ==>
      error.fields["op_index"].JNull? || (error.fields["op_index"].JNat? && error.fields["op_index"].number <= MAX_U64)
  }

  lemma ProvenCommitIff(v: Json, e: nat)
    ensures ProvenCommit(v) == Some((e, Decimal(e))) <==> ProvesCommitError(v, e) && IndexOkOrAbsent(v.fields["error"])
    ensures ProvenCommit(v).Some? ==> ProvenCommit(v).value.1 == Decimal(ProvenCommit(v).value.0)
  {
    match (AsU64(Get(v, "epoch")), AsStr(Get(v, "epoch_text")))
    case (Some(epoch), Some(text)) =>
      ExactEpochIff(text, Some(epoch), epoch);
      ExactEpochIff(text, Some(epoch), e);
    case _ =>
  }

  /** A validated envelope that says committed carries its epoch: the lost-epoch branch is dead. */
  lemma LostEpochUnreachable(env: KitErrorEnvelope, ops: seq<KitOp>, status: nat)
    requires ValidatedEnvelope(env).Epoch?
    ensures !ClassifyEnvelope(env, ValidatedEnvelope(env).value, ops, status).LostEpoch?
  {
  }

  /** A well-shaped committed error whose epoch is written only as text, with results that decode. */
  predicate CommitsByTextAlone(v: Json, e: nat, decode: ResultDecoder) {
    && v.JObject? && {"status", "committed", "epoch", "epoch_text", "retryable", "error"} <= v.fields.Keys
    && v.fields.Keys <= {"status", "committed", "epoch", "epoch_text", "retryable", "error", "results"}
    && v.fields["status"] == JString("committed") && v.fields["committed"] == JBool(true) && v.fields["retryable"] == JBool(false)
    && v.fields["epoch"] == JNull && e <= MAX_U64 && v.fields["epoch_text"] == JString(Decimal(e))
    && ("results" in v.fields ==> v.fields["results"].JNull? || decode(v.fields["results"]).Some?)
    && v.fields["error"].JObject? && v.fields["error"].fields.Keys == {"code", "message"}
    && v.fields["error"].fields["code"] == JString("COMMIT_OUTCOME")
    && v.fields["error"].fields["message"].JString? && v.fields["error"].fields["message"].text != ""
  }

  /** A validated envelope says committed exactly when its body proved it, in number and text or in text alone. */
  lemma CommittedEnvelopeIff(v: Json, decode: ResultDecoder, e: nat)
    requires ErrorShapeOk(v) && DecodeEnvelope(v, decode).Value? && ValidatedEnvelope(DecodeEnvelope(v, decode).value).Epoch?
    ensures var env := DecodeEnvelope(v, decode).value; var epoch := ValidatedEnvelope(env).value;
            && (env.committed == Some(true) ==> epoch.Some? && env.epochText == Some(Decimal(epoch.value)) && env.retryable == Some(false))
            && (env.committed == Some(true) ==> env.error.opIndex.None?)
            && (env.committed == Some(true) && epoch == Some(e) <==> ProvenCommit(v) == Some((e, Decimal(e))) || CommitsByTextAlone(v, e, decode))
  {
    var env := DecodeEnvelope(v, decode).value;
    if env.epochText.Some? {
      ExactEpochIff(env.epochText.value, env.epoch, e);
      if ValidatedEnvelope(env).value.Some? {
        ExactEpochIff(env.epochText.value, env.epoch, ValidatedEnvelope(env).value.value);
      }
    }
    ProvenCommitIff(v, e);
  }

  /** Text alone is enough only when everything else is in order: then the envelope is accepted. */
  lemma TextAloneIsAccepted(v: Json, decode: ResultDecoder, e: nat)
    requires CommitsByTextAlone(v, e, decode)
    ensures DecodeEnvelope(v, decode).Value? && ValidatedEnvelope(DecodeEnvelope(v, decode).value) == Epoch(Some(e))
    ensures ProvenCommit(v).None?
  {
    ExactEpochIff(Decimal(e), None, e);
  }

  predicate EnvelopeAccepted(v: Json, decode: ResultDecoder) {
    ErrorShapeOk(v) && DecodeEnvelope(v, decode).Value? && ValidatedEnvelope(DecodeEnvelope(v, decode).value).Epoch?
  }

  /** An envelope that is not accepted leaves the decision to the proof in the body. */
  lemma FallbackSays(v: Json, ops: seq<KitOp>, status: nat, decode: ResultDecoder, e: nat)
    requires !EnvelopeAccepted(v, decode)
    ensures SaysCommitted(Failure(DecodeError(Some(v), ops, status, decode)), e) <==> ProvenCommit(v) == Some((e, Decimal(e)))
  {
    ProvenCommitIff(v, e);
  }

  lemma AcceptedSays(v: Json, ops: seq<KitOp>, status: nat, decode: ResultDecoder, e: nat)
    requires EnvelopeAccepted(v, decode)
    ensures SaysCommitted(Failure(DecodeError(Some(v), ops, status, decode)), e) <==>
      ProvenCommit(v) == Some((e, Decimal(e))) || CommitsByTextAlone(v, e, decode)
  {
    CommittedEnvelopeIff(v, decode, e);
    LostEpochUnreachable(DecodeEnvelope(v, decode).value, ops, status);
    DecimalInjective(e);
  }

  /**
   * The caller of a failed transaction hears of a commit at an epoch exactly when the body proves
   * it: by number and canonical text, with an op index that can be read if there is one, or by text
   * alone in an otherwise flawless body. Nothing else is ever reported as committed.
   */
  lemma ErrorOutcomeIff(body: Option<Json>, ops: seq<KitOp>, status: nat, decode: ResultDecoder, e: nat)
    ensures var o := Failure(DecodeError(body, ops, status, decode));
            SaysCommitted(o, e) <==>
              body.Some? && ((ProvesCommitError(body.value, e) && IndexOkOrAbsent(body.value.fields["error"]))
                             || CommitsByTextAlone(body.value, e, decode))
  {
    if body.Some? {
      ProvenCommitIff(body.value, e);
      if EnvelopeAccepted(body.value, decode) {
        AcceptedSays(body.value, ops, status, decode, e);
      } else {
        FallbackSays(body.value, ops, status, decode, e);
        if CommitsByTextAlone(body.value, e, decode) {
          TextAloneIsAccepted(body.value, decode, e);
        }
      }
    }
  }

  lemma DecimalInjective(e: nat)
    ensures forall n: nat :: n <= MAX_U64 && e <= MAX_U64 && Decimal(n) == Decimal(e) ==> n == e
  {
    forall n: nat | n <= MAX_U64 && e <= MAX_U64 && Decimal(n) == Decimal(e) ensures n == e {
      DecimalRoundTrip(n);
      DecimalRoundTrip(e);
    }
  }

  /** Any error that says committed says it completely: epoch, canonical text, and never retryable. */
  lemma CommittedErrorsAreComplete(body: Option<Json>, ops: seq<KitOp>, status: nat, decode: ResultDecoder)
    ensures var error := DecodeError(body, ops, status, decode);
            error.committed == Some(true) ==> error.epoch.Some? && SaysCommitted(Failure(error), error.epoch.value)
  {
    if body.Some? {
      var v := body.value;
      ProvenCommitIff(v, 0);
      if ErrorShapeOk(v) && DecodeEnvelope(v, decode).Value? && ValidatedEnvelope(DecodeEnvelope(v, decode).value).Epoch? {
        CommittedEnvelopeIff(v, decode, 0);
        LostEpochUnreachable(DecodeEnvelope(v, decode).value, ops, status);
      }
    }
  }

  /** A body that says the transaction was aborted and not committed, in the one shape that may. */
  predicate SaysAborted(v: Json, ops: nat) {
    && v.JObject? && v.fields.Keys == {"status", "committed", "retryable", "error"}
    && v.fields["status"] == JString("aborted") && v.fields["committed"] == JBool(false) && v.fields["retryable"].JBool?
    && DescribesAbort(v.fields["error"], ops)
    && (v.fields["retryable"].flag ==> v.fields["error"].fields["code"].text in {"IDEMPOTENCY_STORE_FULL", "IDEMPOTENCY_STORE_UNAVAILABLE"})
  }

  /** A code that is no commit or unknown outcome, a message, and at most an index of one of the operations. */
  predicate DescribesAbort(error: Json, ops: nat) {
    && error.JObject? && {"code", "message"} <= error.fields.Keys <= {"code", "message", "op_index"}
    && error.fields["code"].JString? && error.fields["code"].text !in {"", "COMMIT_OUTCOME", "QUERY_OUTCOME_UNKNOWN"}
    && error.fields["message"].JString? && error.fields["message"].text != ""
    && ("op_index" in error.fields ==>
          error.fields["op_index"].JNull? || (error.fields["op_index"].JNat? && error.fields["op_index"].number <= MAX_U64 && error.fields["op_index"].number < ops))
  }

  /** The error reports an abort exactly when the body says so, and then carries its code, index and retry advice. */
  lemma AbortedIff(body: Option<Json>, ops: seq<KitOp>, status: nat, decode: ResultDecoder)
    ensures DecodeError(body, ops, status, decode).committed == Some(false) <==> body.Some? && SaysAborted(body.value, |ops|)
    ensures body.Some? && SaysAborted(body.value, |ops|) ==>
      var error := body.value.fields["error"];
      DecodeError(body, ops, status, decode) ==
        KitError(error.fields["code"].text, AsU64(Get(error, "op_index")), status, Some(false), None, None, Some(body.value.fields["retryable"].flag))
  {
    if body.Some? {
      var v := body.value;
      ProvenCommitIff(v, 0);
      if SaysAborted(v, |ops|) {
        SaidAbortIsAccepted(v, |ops|, decode);
      }
      if EnvelopeAccepted(v, decode) {
        LostEpochUnreachable(DecodeEnvelope(v, decode).value, ops, status);
        if DecodeError(body, ops, status, decode).committed == Some(false) {
          AcceptedAbortIsSaid(v, ops, decode);
        }
      }
    }
  }

  lemma SaidAbortIsAccepted(v: Json, ops: nat, decode: ResultDecoder)
    requires SaysAborted(v, ops)
    ensures EnvelopeAccepted(v, decode)
    ensures
      var error := v.fields["error"];
      DecodeEnvelope(v, decode).value == KitErrorEnvelope("aborted", Some(false), None, None, Some(v.fields["retryable"].flag), None,
                                                          KitErrorBody(error.fields["code"].text, error.fields["message"].text, AsU64(Get(error, "op_index"))))
    ensures ValidatedEnvelope(DecodeEnvelope(v, decode).value) == Epoch(None)
  {
    assert Get(v, "epoch").None? && Get(v, "epoch_text").None? && Get(v, "results").None?;
    assert HasField(v, "committed") && HasField(v, "error");
  }

  lemma AcceptedAbortIsSaid(v: Json, ops: seq<KitOp>, decode: ResultDecoder)
    requires EnvelopeAccepted(v, decode) && DecodeEnvelope(v, decode).value.committed == Some(false)
    requires var i := DecodeEnvelope(v, decode).value.error.opIndex; i.Some? ==> i.value < |ops|
    ensures SaysAborted(v, |ops|)
  {
    var env := DecodeEnvelope(v, decode).value;
    assert env.status == "aborted" && Get(v, "status") == Some(JString("aborted"));
    assert HasField(v, "committed") && EnrichedAbort(v);
  }

  /** An outcome is reported as not committed only when the body says aborted and not committed, and never beside a proven commit. */
  lemma AbortedOnlyIfSaid(body: Option<Json>, ops: seq<KitOp>, status: nat, decode: ResultDecoder)
    ensures var error := DecodeError(body, ops, status, decode);
            error.committed == Some(false) ==>
              && body.Some? && Get(body.value, "status") == Some(JString("aborted")) && Get(body.value, "committed") == Some(JBool(false))
              && ProvenCommit(body.value).None? && error.epoch.None?
              && (error.opIndex.Some? ==> error.opIndex.value < |ops|)
  {
    if body.Some? && ErrorShapeOk(body.value) && DecodeEnvelope(body.value, decode).Value? {
      ProvenCommitIff(body.value, 0);
      var env := DecodeEnvelope(body.value, decode).value;
      if ValidatedEnvelope(env).Epoch? {
        LostEpochUnreachable(env, ops, status);
      }
    }
  }

  /** The caller is told to retry only a transaction the server says it aborted for want of idempotency storage. */
  lemma RetryOnlyAfterAbort(body: Option<Json>, ops: seq<KitOp>, status: nat, decode: ResultDecoder)
    ensures var error := DecodeError(body, ops, status, decode);
            error.retryable == Some(true) ==>
              error.committed == Some(false) && error.code in {"IDEMPOTENCY_STORE_FULL", "IDEMPOTENCY_STORE_UNAVAILABLE"}
  {
    if body.Some? && ErrorShapeOk(body.value) && DecodeEnvelope(body.value, decode).Value? {
      var env := DecodeEnvelope(body.value, decode).value;
      if ValidatedEnvelope(env).Epoch? {
        LostEpochUnreachable(env, ops, status);
      }
    }
  }

  /** A commit proven in every respect but a malformed op index is reported as unknown. */
  lemma UnreadableOpIndexHidesCommit(e: nat, ops: seq<KitOp>, status: nat, decode: ResultDecoder)
    requires e <= MAX_U64
    ensures var error := JObject(map["code" := JString("COMMIT_OUTCOME"), "message" := JString("m"), "op_index" := JNegative(1)]);
            var v := JObject(map["status" := JString("committed"), "committed" := JBool(true), "retryable" := JBool(false),
                                 "epoch" := JNat(e), "epoch_text" := JString(Decimal(e)), "error" := error]);
            ProvesCommitError(v, e) && DecodeError(Some(v), ops, status, decode) == Unknown()
  {
    var error := JObject(map["code" := JString("COMMIT_OUTCOME"), "message" := JString("m"), "op_index" := JNegative(1)]);
    var v := JObject(map["status" := JString("committed"), "committed" := JBool(true), "retryable" := JBool(false),
                         "epoch" := JNat(e), "epoch_text" := JString(Decimal(e)), "error" := error]);
    assert Get(v, "error") == Some(error) && HasField(error, "op_index") && !OpIndexReadable(error);
    assert AsStr(Get(v, "status")) == Some("committed");
    assert !ErrorShapeOk(v);
  }
}
