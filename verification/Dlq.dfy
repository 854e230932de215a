/** Dead-letter messages and replayed messages, and the loop between the two. */
module Dlq {
  import opened Message
  import opened Utf8
  import Decimal
  import Seqs

  /** A mapping built from headers left to right: the last of repeated names stays. */
  function Collect(headers: seq<(string, Bytes)>, keep: string -> bool): map<string, Bytes> {
    if headers == [] then map[]
    else
      var rest, last := Collect(headers[..|headers| - 1], keep), headers[|headers| - 1];
      if keep(last.0) then rest[last.0 := last.1] else rest
  }

  lemma {:induction false} CollectLookup(headers: seq<(string, Bytes)>, keep: string -> bool, name: string)
    ensures Lookup(Collect(headers, keep), name) == if keep(name) then LastHeader(headers, name) else None
  {
    if headers != [] {
      CollectLookup(headers[..|headers| - 1], keep, name);
    }
  }

  predicate IsDlq(name: string) {
    DLQ_PREFIX <= name
  }

  /** What every dead letter is diagnosed with, the error text aside. */
  const DIAGNOSIS: set<string> := {
    DLQ_SOURCE_TOPIC, DLQ_SOURCE_PARTITION, DLQ_SOURCE_OFFSET, DLQ_SOURCE_TIMESTAMP,
    DLQ_CONSUMER_GROUP, DLQ_ERROR_TYPE, DLQ_ATTEMPTS }

  /** The names the proofs tell apart differ, and `x-dlq-` starts those that carry it. */
  lemma Names()
    ensures IsDlq(DLQ_REPLAY_COUNT) && IsDlq(DLQ_FIRST_FAILED_AT) && IsDlq(DLQ_TRACE_ID) && IsDlq(DLQ_ERROR_MESSAGE)
    ensures DLQ_REPLAY_COUNT != DLQ_FIRST_FAILED_AT && DLQ_REPLAY_COUNT != DLQ_TRACE_ID &&
            DLQ_FIRST_FAILED_AT != DLQ_TRACE_ID
    ensures DLQ_ERROR_MESSAGE != DLQ_REPLAY_COUNT && DLQ_ERROR_MESSAGE != DLQ_FIRST_FAILED_AT &&
            DLQ_ERROR_MESSAGE != DLQ_TRACE_ID
    ensures !IsDlq(REPLAY_ID) && !IsDlq(REPLAY_AT) && !IsDlq(EVENT_ID)
    ensures REPLAY_ID != REPLAY_AT && EVENT_ID != REPLAY_ID && EVENT_ID != REPLAY_AT
  {
    assert REPLAY_ID[2] == 'r' && REPLAY_AT[2] == 'r' && EVENT_ID[2] == 'e' && DLQ_PREFIX[2] == 'd';
    assert DLQ_REPLAY_COUNT[6] == 'r' && DLQ_FIRST_FAILED_AT[6] == 'f' && DLQ_TRACE_ID[6] == 't' &&
           DLQ_ERROR_MESSAGE[6] == 'e';
  }

  /** A diagnosis name is none of the headers that outlive a diagnosis. */
  lemma DiagnosisNames(name: string)
    requires name in DIAGNOSIS
    ensures IsDlq(name) && !KeptByRouter(name) && name != DLQ_TRACE_ID && name != DLQ_ERROR_MESSAGE
  {
    assert DLQ_REPLAY_COUNT[6] == 'r' && DLQ_FIRST_FAILED_AT[6] == 'f' && DLQ_TRACE_ID[6] == 't';
    assert DLQ_ERROR_MESSAGE[12] == 'm' && DLQ_ERROR_TYPE[12] == 't';
    if name == DLQ_ERROR_TYPE {
    } else {
      assert name[6] in {'s', 'c', 'a'};
    }
  }

  // ------------------------------------------------------------- dead-letter

  datatype ErrorInfo = ErrorInfo(typeName: Bytes, text: seq<CodePoint>)

  /** `utf8` and `iso` stand for `str.encode` and the timestamp format. */
  datatype Router = Router(
    topic: Record -> string, group: Bytes, includeError: bool, maxErrorBytes: nat,
    utf8: string -> Bytes, iso: int -> Bytes)

  function IndexOf(s: Bytes, b: Byte): (i: nat)
    ensures i <= |s| && (i < |s| ==> s[i] == b) && forall j :: 0 <= j < i ==> s[j] != b
  {
    if s == [] || s[0] == b then 0 else 1 + IndexOf(s[1..], b)
  }

  /** The trace id: an earlier dead-letter's, or the second field of a `traceparent`. */
  function TraceId(headers: seq<(string, Bytes)>): Option<Bytes> {
    if GetHeader(headers, DLQ_TRACE_ID).Some? then GetHeader(headers, DLQ_TRACE_ID)
    else
      match GetHeader(headers, "traceparent")
      case None => None
      case Some(parent) => SecondField(parent)
  }

  /** What stands between the first dash and the next, or the end. */
  function SecondField(parent: Bytes): Option<Bytes> {
    var dash := IndexOf(parent, 45);
    if dash == |parent| then None
    else
      var rest := parent[dash + 1..];
      var id := rest[..IndexOf(rest, 45)];
      if id == [] then None else Some(id)
  }

  /** A new diagnosis replaces an old one; the replay counter and the first failure stay. */
  predicate KeptByRouter(name: string) {
    !IsDlq(name) || name == DLQ_REPLAY_COUNT || name == DLQ_FIRST_FAILED_AT
  }

  function Diagnosis(c: Router, r: Record, e: ErrorInfo, attempts: nat): map<string, Bytes> {
    map[DLQ_SOURCE_TOPIC := c.utf8(r.topic),
        DLQ_SOURCE_PARTITION := Decimal.Format(r.partition),
        DLQ_SOURCE_OFFSET := Decimal.Format(r.offset),
        DLQ_SOURCE_TIMESTAMP := c.iso(r.timestamp),
        DLQ_CONSUMER_GROUP := c.group,
        DLQ_ERROR_TYPE := e.typeName,
        DLQ_ATTEMPTS := Decimal.Format(attempts)]
  }

  lemma DiagnosisKeys(c: Router, r: Record, e: ErrorInfo, attempts: nat)
    ensures Diagnosis(c, r, e, attempts).Keys == DIAGNOSIS
  {
  }

  /** A header added only when there is a value for it. */
  function Extra(name: string, value: Option<Bytes>): map<string, Bytes> {
    if value.Some? then map[name := value.value] else map[]
  }

  /** `setdefault`. */
  function Default(m: map<string, Bytes>, name: string, value: Bytes): map<string, Bytes> {
    if name in m then m else m[name := value]
  }

  function Layers(kept: map<string, Bytes>, first: Bytes, diagnosis: map<string, Bytes>,
                  text: Option<Bytes>, trace: Option<Bytes>): map<string, Bytes>
  {
    Default(kept, DLQ_FIRST_FAILED_AT, first) + diagnosis + Extra(DLQ_ERROR_MESSAGE, text) + Extra(DLQ_TRACE_ID, trace)
  }

  function DlqHeaders(c: Router, r: Record, e: ErrorInfo, attempts: nat, now: int): Option<map<string, Bytes>> {
    var text := Truncate(e.text, c.maxErrorBytes);
    if c.includeError && text == None then None  // the error text cannot be encoded
    else
      Some(Layers(Collect(r.headers, KeptByRouter), c.iso(now), Diagnosis(c, r, e, attempts),
                  if c.includeError then text else None, TraceId(r.headers)))
  }

  /** `DlqRouter.build` as a function; None is an error (no topic, or no encodable text). */
  function DeadLetter(c: Router, r: Record, e: ErrorInfo, attempts: nat, now: int): Option<Outgoing> {
    var headers := DlqHeaders(c, r, e, attempts, now);
    if headers == None || c.topic(r) == "" then None
    else Some(Outgoing(c.topic(r), r.value, r.key, headers.value))
  }

  lemma DefaultAfter(m: map<string, Bytes>, d: map<string, Bytes>, name: string, value: Bytes)
    requires name !in d
    ensures Default(m + d, name, value) == Default(m, name, value) + d
  {
  }

  lemma ExtraUpdates(m: map<string, Bytes>, name: string, value: Bytes)
    ensures m[name := value] == m + Extra(name, Some(value))
  {
  }

  /** `DlqRouter.build`, filling the dictionary step by step. */
  method Build(c: Router, r: Record, e: ErrorInfo, attempts: nat, now: int) returns (m: Option<Outgoing>)
    ensures m == DeadLetter(c, r, e, attempts, now)
  {
    var headers: map<string, Bytes> := map[];
    for i := 0 to |r.headers|
      invariant headers == Collect(r.headers[..i], KeptByRouter)
    {
      var name, value := r.headers[i].0, r.headers[i].1;
      assert r.headers[..i + 1][..i] == r.headers[..i];
      if IsDlq(name) && name != DLQ_REPLAY_COUNT && name != DLQ_FIRST_FAILED_AT {
        continue;
      }
      headers := headers[name := value];
    }
    assert r.headers[..|r.headers|] == r.headers;
    m := Finish(c, r, e, attempts, now, headers);
  }

  /** The assignments after the loop. */
  method Finish(c: Router, r: Record, e: ErrorInfo, attempts: nat, now: int, kept: map<string, Bytes>)
    returns (m: Option<Outgoing>)
    requires kept == Collect(r.headers, KeptByRouter)
    ensures m == DeadLetter(c, r, e, attempts, now)
  {
    var headers := Diagnose(c, r, e, attempts, now, kept);
    var annotated := Annotate(c, e.text, TraceId(r.headers), headers);
    if annotated == None {
      return None;
    }
    if c.topic(r) == "" {
      return None;
    }
    return Some(Outgoing(c.topic(r), r.value, r.key, annotated.value));
  }

  method Annotate(c: Router, text: seq<CodePoint>, trace: Option<Bytes>, base: map<string, Bytes>)
    returns (headers: Option<map<string, Bytes>>)
    ensures headers ==
            var encoded := Truncate(text, c.maxErrorBytes);
            if c.includeError && encoded == None then None
            else
              var message := Extra(DLQ_ERROR_MESSAGE, if c.includeError then encoded else None);
              Some(base + message + Extra(DLQ_TRACE_ID, trace))
  {
    var annotated := base;
    ghost var encoded := if c.includeError then Truncate(text, c.maxErrorBytes) else None;
    if c.includeError {
      var message := Truncate(text, c.maxErrorBytes);
      if message == None {
        return None;
      }
      ExtraUpdates(annotated, DLQ_ERROR_MESSAGE, message.value);
      annotated := annotated[DLQ_ERROR_MESSAGE := message.value];
    }
    ghost var worded := base + Extra(DLQ_ERROR_MESSAGE, encoded);
    assert annotated == worded;
    if trace.Some? {
      ExtraUpdates(annotated, DLQ_TRACE_ID, trace.value);
      annotated := annotated[DLQ_TRACE_ID := trace.value];
    }
    assert annotated == worded + Extra(DLQ_TRACE_ID, trace);
    return Some(annotated);
  }

  method Diagnose(c: Router, r: Record, e: ErrorInfo, attempts: nat, now: int, kept: map<string, Bytes>)
    returns (headers: map<string, Bytes>)
    ensures headers == Default(kept, DLQ_FIRST_FAILED_AT, c.iso(now)) + Diagnosis(c, r, e, attempts)
  {
    FirstFailedIsNoDiagnosis(c, r, e, attempts);
    DefaultAfter(kept, Diagnosis(c, r, e, attempts), DLQ_FIRST_FAILED_AT, c.iso(now));
    headers := kept + Diagnosis(c, r, e, attempts);
    if DLQ_FIRST_FAILED_AT !in headers {
      headers := headers[DLQ_FIRST_FAILED_AT := c.iso(now)];
    }
  }

  lemma FirstFailedIsNoDiagnosis(c: Router, r: Record, e: ErrorInfo, attempts: nat)
    ensures DLQ_FIRST_FAILED_AT !in Diagnosis(c, r, e, attempts)
  {
    DiagnosisKeys(c, r, e, attempts);
    if DLQ_FIRST_FAILED_AT in DIAGNOSIS {
      DiagnosisNames(DLQ_FIRST_FAILED_AT);
    }
  }

  lemma LayersLookup(kept: map<string, Bytes>, first: Bytes, d: map<string, Bytes>,
                     text: Option<Bytes>, trace: Option<Bytes>, name: string)
    ensures Lookup(Layers(kept, first, d, text, trace), name) ==
            if name == DLQ_TRACE_ID && trace.Some? then trace
            else if name == DLQ_ERROR_MESSAGE && text.Some? then text
            else if name in d then Some(d[name])
            else if name == DLQ_FIRST_FAILED_AT && name !in kept then Some(first)
            else Lookup(kept, name)
  {
  }

  /** This failure's diagnosis, name by name. */
  function DiagnosisOf(c: Router, r: Record, e: ErrorInfo, attempts: nat, name: string): Option<Bytes> {
    if name == DLQ_SOURCE_TOPIC then Some(c.utf8(r.topic))
    else if name == DLQ_SOURCE_PARTITION then Some(Decimal.Format(r.partition))
    else if name == DLQ_SOURCE_OFFSET then Some(Decimal.Format(r.offset))
    else if name == DLQ_SOURCE_TIMESTAMP then Some(c.iso(r.timestamp))
    else if name == DLQ_CONSUMER_GROUP then Some(c.group)
    else if name == DLQ_ERROR_TYPE then Some(e.typeName)
    else if name == DLQ_ATTEMPTS then Some(Decimal.Format(attempts))
    else None
  }

  lemma DiagnosisLookup(c: Router, r: Record, e: ErrorInfo, attempts: nat, name: string)
    ensures Lookup(Diagnosis(c, r, e, attempts), name) == DiagnosisOf(c, r, e, attempts, name)
  {}

  /** What a dead letter carries under each header name: the record's own headers outside
      `x-dlq-*`, its replay counter and its first failure; this failure's diagnosis; the
      error text or nothing; the trace id or nothing. */
  lemma DeadLetterHeader(c: Router, r: Record, e: ErrorInfo, attempts: nat, now: int, name: string)
    requires DeadLetter(c, r, e, attempts, now).Some?
    ensures var m := DeadLetter(c, r, e, attempts, now).value;
            && m.value == r.value && m.key == r.key && m.topic == c.topic(r) != ""
            && Lookup(m.headers, name) == HeaderOf(c, r, e, attempts, now, name)
  {
    Names();
    CollectLookup(r.headers, KeptByRouter, name);
    DiagnosisKeys(c, r, e, attempts);
    LayersLookup(Collect(r.headers, KeptByRouter), c.iso(now), Diagnosis(c, r, e, attempts),
                 if c.includeError then Truncate(e.text, c.maxErrorBytes) else None, TraceId(r.headers), name);
    DiagnosisLookup(c, r, e, attempts, name);
    if name in DIAGNOSIS {
      DiagnosisNames(name);
    }
  }

  function HeaderOf(c: Router, r: Record, e: ErrorInfo, attempts: nat, now: int, name: string): Option<Bytes> {
    if !IsDlq(name) || name == DLQ_REPLAY_COUNT then LastHeader(r.headers, name)
    else if name == DLQ_FIRST_FAILED_AT then
      if LastHeader(r.headers, name).Some? then LastHeader(r.headers, name) else Some(c.iso(now))
    else if name == DLQ_TRACE_ID then TraceId(r.headers)
    else if name == DLQ_ERROR_MESSAGE then
      if c.includeError then Truncate(e.text, c.maxErrorBytes) else None
    else DiagnosisOf(c, r, e, attempts, name)
  }

  /** It cannot be built exactly when there is no topic for it, or its text cannot be encoded. */
  lemma DeadLetterFails(c: Router, r: Record, e: ErrorInfo, attempts: nat, now: int)
    ensures DeadLetter(c, r, e, attempts, now) == None <==>
              c.topic(r) == "" || (c.includeError && exists i :: 0 <= i < |e.text| && 0xD800 <= e.text[i] < 0xE000)
  {}

  /** A dead letter says where its record is: the partition, the offset and the number of
      attempts read back as they were. */
  lemma DeadLetterLocates(c: Router, r: Record, e: ErrorInfo, attempts: nat, now: int, after: Record)
    requires DeadLetter(c, r, e, attempts, now).Some?
    requires Delivered(DeadLetter(c, r, e, attempts, now).value, after)
    ensures GetHeader(after.headers, DLQ_SOURCE_TOPIC) == Some(c.utf8(r.topic))
    ensures ReadsAs(after, DLQ_SOURCE_PARTITION, r.partition) && ReadsAs(after, DLQ_SOURCE_OFFSET, r.offset)
    ensures ReadsAs(after, DLQ_ATTEMPTS, attempts)
  {
    Names();
    DiagnosisNames(DLQ_SOURCE_TOPIC);
    DiagnosisNames(DLQ_SOURCE_PARTITION);
    DiagnosisNames(DLQ_SOURCE_OFFSET);
    DiagnosisNames(DLQ_ATTEMPTS);
    DeadLetterHeader(c, r, e, attempts, now, DLQ_SOURCE_TOPIC);
    DeadLetterHeader(c, r, e, attempts, now, DLQ_SOURCE_PARTITION);
    DeadLetterHeader(c, r, e, attempts, now, DLQ_SOURCE_OFFSET);
    DeadLetterHeader(c, r, e, attempts, now, DLQ_ATTEMPTS);
    Decimal.ParseFormat(r.partition);
    Decimal.ParseFormat(r.offset);
    Decimal.ParseFormat(attempts);
  }

  /** The header is there and is the number in digits. */
  predicate ReadsAs(r: Record, name: string, n: int) {
    GetHeader(r.headers, name).Some? && Decimal.Parse(GetHeader(r.headers, name).value) == Some(n)
  }

  lemma IndexOfDash(x: Bytes, y: Bytes)
    requires forall i :: 0 <= i < |x| ==> x[i] != 45
    requires y == [] || y[0] == 45
    ensures IndexOf(x + y, 45) == |x|
  {
    assert forall i :: 0 <= i < |x| ==> (x + y)[i] == x[i];
    assert y != [] ==> (x + y)[|x|] == y[0];
  }

  lemma SecondFieldIs(version: Bytes, id: Bytes, rest: Bytes)
    requires (forall i :: 0 <= i < |version| ==> version[i] != 45) && (forall i :: 0 <= i < |id| ==> id[i] != 45)
    requires rest == [] || rest[0] == 45
    ensures SecondField(version + ([45] + (id + rest))) == if id == [] then None else Some(id)
    ensures SecondField(version) == None
  {
    var parent := version + ([45] + (id + rest));
    IndexOfDash(version, [45] + (id + rest));
    assert parent[|version| + 1..] == id + rest;
    IndexOfDash(id, rest);
    IndexOfDash(version, []);
    assert version + [] == version;
  }

  /** The trace id is that of an earlier dead letter, or what stands between the first dash of a
      `traceparent` and the next, or its end; an empty one counts as none. */
  lemma TraceIdIs(headers: seq<(string, Bytes)>, version: Bytes, id: Bytes, rest: Bytes)
    requires (forall i :: 0 <= i < |version| ==> version[i] != 45) && (forall i :: 0 <= i < |id| ==> id[i] != 45)
    requires rest == [] || rest[0] == 45
    ensures GetHeader(headers, DLQ_TRACE_ID).Some? ==> TraceId(headers) == GetHeader(headers, DLQ_TRACE_ID)
    ensures GetHeader(headers, DLQ_TRACE_ID) == None ==>
              && (GetHeader(headers, "traceparent") == None ==> TraceId(headers) == None)
              && (GetHeader(headers, "traceparent") == Some(version) ==> TraceId(headers) == None)
              && (GetHeader(headers, "traceparent") == Some(version + ([45] + (id + rest))) ==>
                    TraceId(headers) == if id == [] then None else Some(id))
  {
    SecondFieldIs(version, id, rest);
  }

  // ------------------------------------------------------------------ replay

  datatype Skip = PredicateSkip | ReplayCountSkip | BadReplayCountSkip

  datatype ReplayOptions = ReplayOptions(target: string, maxReplayCount: int, preserveKey: bool)

  /** `_skip_reason`: None means replay it. */
  function SkipReason(o: ReplayOptions, accepts: Record -> bool, r: Record): Option<Skip> {
    if !accepts(r) then Some(PredicateSkip)
    else
      match GetHeader(r.headers, DLQ_REPLAY_COUNT)
      case None => None
      case Some(raw) =>
        match Decimal.Parse(raw)
        case None => Some(BadReplayCountSkip)  // cannot prove it is safe
        case Some(count) => if count >= o.maxReplayCount then Some(ReplayCountSkip) else None
  }

  /** How often a record was replayed; None if its counter cannot be read. */
  function ReplayCount(r: Record): Option<int> {
    match GetHeader(r.headers, DLQ_REPLAY_COUNT)
    case None => Some(0)
    case Some(raw) => Decimal.Parse(raw)
  }

  predicate KeptByReplay(name: string) {
    name != REPLAY_ID && name != REPLAY_AT && name != DLQ_REPLAY_COUNT
  }

  /** `ReplayRunner._build`. */
  function Replay(o: ReplayOptions, r: Record, id: Bytes, at: Bytes): Outgoing
    requires ReplayCount(r).Some?
  {
    Outgoing(o.target, r.value, if o.preserveKey then r.key else None,
             Collect(r.headers, KeptByReplay)
             [DLQ_REPLAY_COUNT := Decimal.Format(ReplayCount(r).value + 1)][REPLAY_ID := id][REPLAY_AT := at])
  }

  lemma ReplayHeader(o: ReplayOptions, r: Record, id: Bytes, at: Bytes, name: string)
    requires ReplayCount(r).Some?
    ensures var m := Replay(o, r, id, at);
            && m.topic == o.target && m.value == r.value && m.key == (if o.preserveKey then r.key else None)
            && (KeptByReplay(name) ==> Lookup(m.headers, name) == LastHeader(r.headers, name))
            && Lookup(m.headers, DLQ_REPLAY_COUNT) == Some(Decimal.Format(ReplayCount(r).value + 1))
            && Lookup(m.headers, REPLAY_ID) == Some(id) && Lookup(m.headers, REPLAY_AT) == Some(at)
  {
    Names();
    CollectLookup(r.headers, KeptByReplay, name);
  }

  // ---------------------------------------------------------------- the loop

  /** `r` is the message `m` as read back from its topic, its headers in any order. */
  ghost predicate Delivered(m: Outgoing, r: Record) {
    && r.topic == m.topic && r.value == m.value && r.key == m.key && UniqueNames(r.headers)
    && forall name :: GetHeader(r.headers, name) == Lookup(m.headers, name)
  }

  /** One round: a dead letter is replayed, read by the consumer, fails again and is
      dead-lettered again. */
  ghost predicate Round(o: ReplayOptions, c: Router, before: Record, after: Record) {
    exists id, at, accepts, middle, e, attempts, now ::
      RoundVia(o, c, before, id, at, accepts, middle, e, attempts, now, after)
  }

  ghost predicate RoundVia(o: ReplayOptions, c: Router, before: Record, id: Bytes, at: Bytes, accepts: Record -> bool,
                           middle: Record, e: ErrorInfo, attempts: nat, now: int, after: Record) {
    && SkipReason(o, accepts, before) == None && ReplayCount(before).Some?
    && Delivered(Replay(o, before, id, at), middle)
    && DeadLetter(c, middle, e, attempts, now).Some?
    && Delivered(DeadLetter(c, middle, e, attempts, now).value, after)
  }

  /** Names whose values outlive a round: those outside `x-dlq-*` and the replay stamps, and
      once set the first failure and the trace id. */
  predicate Outlives(a: Record, name: string) {
    if name in {DLQ_FIRST_FAILED_AT, DLQ_TRACE_ID} then LastHeader(a.headers, name).Some?
    else !IsDlq(name) && name != REPLAY_ID && name != REPLAY_AT
  }

  /** What is left of `a` after one round or more: its value, its key if replays are to keep
      it, and under each name that outlives a round the last value it had. */
  ghost predicate Carried(o: ReplayOptions, a: Record, b: Record) {
    && b.value == a.value && b.key == (if o.preserveKey then a.key else None) && UniqueNames(b.headers)
    && forall name :: Outlives(a, name) ==> GetHeader(b.headers, name) == LastHeader(a.headers, name)
  }

  /** One header across one round. */
  lemma RoundHeader(o: ReplayOptions, c: Router, before: Record, id: Bytes, at: Bytes, accepts: Record -> bool,
                    middle: Record, e: ErrorInfo, attempts: nat, now: int, after: Record, name: string)
    requires RoundVia(o, c, before, id, at, accepts, middle, e, attempts, now, after)
    ensures Outlives(before, name) ==> GetHeader(after.headers, name) == LastHeader(before.headers, name)
    ensures name == DLQ_REPLAY_COUNT ==>
              GetHeader(after.headers, name) == Some(Decimal.Format(ReplayCount(before).value + 1))
  {
    Names();
    FirstIsLast(middle.headers, name);
    ReplayHeader(o, before, id, at, name);
    DeadLetterHeader(c, middle, e, attempts, now, name);
  }

  /** One round of any record: its counter was below the limit and is raised by one, and
      nothing changes but the diagnosis, the stamps and repeated names. */
  lemma {:induction false} OneRound(o: ReplayOptions, c: Router, before: Record, after: Record)
    requires Round(o, c, before, after) && o.maxReplayCount >= 1
    ensures Carried(o, before, after)
    ensures ReplayCount(before).Some? && ReplayCount(before).value < o.maxReplayCount
    ensures ReplayCount(after) == Some(ReplayCount(before).value + 1)
  {
    var id, at, accepts, middle, e, attempts, now :|
      RoundVia(o, c, before, id, at, accepts, middle, e, attempts, now, after);
    forall name | Outlives(before, name) ensures GetHeader(after.headers, name) == LastHeader(before.headers, name) {
      RoundHeader(o, c, before, id, at, accepts, middle, e, attempts, now, after, name);
    }
    RoundHeader(o, c, before, id, at, accepts, middle, e, attempts, now, after, DLQ_REPLAY_COUNT);
    Decimal.ParseFormat(ReplayCount(before).value + 1);
    RoundPayload(o, c, before, id, at, accepts, middle, e, attempts, now, after);
  }

  lemma RoundPayload(o: ReplayOptions, c: Router, before: Record, id: Bytes, at: Bytes, accepts: Record -> bool,
                     middle: Record, e: ErrorInfo, attempts: nat, now: int, after: Record)
    requires RoundVia(o, c, before, id, at, accepts, middle, e, attempts, now, after)
    ensures after.value == before.value && after.key == (if o.preserveKey then before.key else None)
    ensures UniqueNames(after.headers)
  {
    DeadLetterHeader(c, middle, e, attempts, now, EVENT_ID);
  }

  ghost predicate RoundAt(o: ReplayOptions, c: Router, records: seq<Record>, i: nat)
    requires i + 1 < |records|
  {
    Round(o, c, records[i], records[i + 1])
  }

  function Max(a: int, b: int): int { if a >= b then a else b }

  /** After the first round the names are unique, so later rounds carry on what it left. */
  lemma CarriedChain(o: ReplayOptions, a: Record, b: Record, c: Record)
    requires Carried(o, a, b) && Carried(o, b, c)
    ensures Carried(o, a, c)
  {
    forall name | Outlives(a, name) ensures GetHeader(c.headers, name) == LastHeader(a.headers, name) {
      FirstIsLast(b.headers, name);
      assert Outlives(b, name);
    }
  }

  /** Any number of rounds. */
  ghost predicate Rounds(o: ReplayOptions, c: Router, records: seq<Record>) {
    forall i :: 0 <= i < |records| - 1 ==> RoundAt(o, c, records, i)
  }

  /** What `OneRound` says of the `i`-th round. */
  ghost predicate MovedAt(o: ReplayOptions, records: seq<Record>, i: nat)
    requires i + 1 < |records|
  {
    var before, after := ReplayCount(records[i]), ReplayCount(records[i + 1]);
    && Carried(o, records[i], records[i + 1])
    && before.Some? && before.value < o.maxReplayCount && after == Some(before.value + 1)
  }

  ghost predicate Moved(o: ReplayOptions, records: seq<Record>) {
    forall i :: 0 <= i < |records| - 1 ==> MovedAt(o, records, i)
  }

  lemma RoundsMove(o: ReplayOptions, c: Router, records: seq<Record>)
    requires o.maxReplayCount >= 1 && Rounds(o, c, records)
    ensures Moved(o, records)
  {
    forall i | 0 <= i < |records| - 1 ensures MovedAt(o, records, i) {
      assert RoundAt(o, c, records, i);
      OneRound(o, c, records[i], records[i + 1]);
    }
  }

  lemma {:induction false} MovesCarry(o: ReplayOptions, records: seq<Record>)
    requires |records| > 1 && Moved(o, records)
    ensures Carried(o, records[0], records[|records| - 1])
  {
    var n := |records| - 1;
    assert MovedAt(o, records, n - 1);
    if n > 1 {
      forall i | 0 <= i < n - 1 ensures MovedAt(o, records[..n], i) {
        assert MovedAt(o, records, i);
      }
      MovesCarry(o, records[..n]);
      CarriedChain(o, records[0], records[n - 1], records[n]);
    }
  }

  lemma RoundsCarry(o: ReplayOptions, c: Router, records: seq<Record>)
    requires |records| > 1 && o.maxReplayCount >= 1 && Rounds(o, c, records)
    ensures Carried(o, records[0], records[|records| - 1])
  {
    RoundsMove(o, c, records);
    MovesCarry(o, records);
  }

  /** A counter that each step finds below `max` and raises by one. */
  ghost predicate Climbs(counts: seq<Option<int>>, max: int) {
    forall i :: 0 <= i < |counts| - 1 ==>
          counts[i].Some? && counts[i].value < max && counts[i + 1] == Some(counts[i].value + 1)
  }

  lemma {:induction false} ClimbIsBounded(counts: seq<Option<int>>, max: int)
    requires counts != [] && counts[0].Some? && Climbs(counts, max)
    ensures counts[|counts| - 1] == Some(counts[0].value + |counts| - 1)
    ensures |counts| - 1 <= Max(0, max - counts[0].value)
  {
    if |counts| > 1 {
      ClimbIsBounded(counts[..|counts| - 1], max);
      assert counts[|counts| - 2].value < max;
    }
  }

  lemma MovesCount(o: ReplayOptions, records: seq<Record>)
    requires records != [] && Moved(o, records)
    ensures var first, last, n := ReplayCount(records[0]), ReplayCount(records[|records| - 1]), |records| - 1;
            if first == None then n == 0
            else last == Some(first.value + n) && n <= Max(0, o.maxReplayCount - first.value)
  {
    var counts := Seqs.Map(ReplayCount, records);
    forall i | 0 <= i < |counts| - 1
      ensures counts[i].Some? && counts[i].value < o.maxReplayCount && counts[i + 1] == Some(counts[i].value + 1)
    {
      assert MovedAt(o, records, i);
    }
    if counts[0].Some? {
      ClimbIsBounded(counts, o.maxReplayCount);
    }
  }

  /** The loop is bounded for every record: from count c (absent is 0) it is replayed at most
      max(0, maxReplayCount - c) times, each round adds one, and with an unreadable count it
      is not replayed at all. However many rounds there are, the value stays, the key stays
      or is dropped as the replays are told, and every name that outlives a round has the
      last value it had in the first record. */
  lemma PoisonLoop(o: ReplayOptions, c: Router, records: seq<Record>)
    requires records != [] && o.maxReplayCount >= 1 && Rounds(o, c, records)
    ensures var first, last, n := ReplayCount(records[0]), ReplayCount(records[|records| - 1]), |records| - 1;
            if first == None then n == 0
            else last == Some(first.value + n) && n <= Max(0, o.maxReplayCount - first.value)
    ensures |records| > 1 ==> Carried(o, records[0], records[|records| - 1])
  {
    RoundsMove(o, c, records);
    MovesCount(o, records);
    if |records| > 1 {
      MovesCarry(o, records);
    }
  }

  /** So the loop loses nothing exactly when there was nothing to lose: the key survives if
      and only if replays keep it or there is none, and the values under a name that outlives
      a round if and only if there is at most one. */
  lemma LosslessLoop(o: ReplayOptions, c: Router, records: seq<Record>, name: string)
    requires |records| > 1 && o.maxReplayCount >= 1 && Rounds(o, c, records)
    ensures var first, last := records[0], records[|records| - 1];
            && (last.key == first.key <==> o.preserveKey || first.key == None)
            && (Outlives(first, name) ==>
                  (ValuesOf(last.headers, name) == ValuesOf(first.headers, name) <==>
                     |ValuesOf(first.headers, name)| <= 1))
  {
    var first, last := records[0], records[|records| - 1];
    RoundsCarry(o, c, records);
    if Outlives(first, name) {
      CollapsesToLast(last.headers, first.headers, name);
    }
  }

  /** The `x-event-id` header, the consumers' dedup key, reads the same after any number of
      rounds if and only if its first and last value agree; unique names see to that. */
  lemma DedupKeySurvives(o: ReplayOptions, c: Router, records: seq<Record>)
    requires records != [] && o.maxReplayCount >= 1 && Rounds(o, c, records)
    ensures var first, last := records[0].headers, records[|records| - 1].headers;
            && (GetHeader(last, EVENT_ID) == GetHeader(first, EVENT_ID) <==>
                  |records| == 1 || GetHeader(first, EVENT_ID) == LastHeader(first, EVENT_ID))
            && (UniqueNames(first) ==> GetHeader(last, EVENT_ID) == GetHeader(first, EVENT_ID))
  {
    Names();
    if |records| > 1 {
      RoundsCarry(o, c, records);
      assert Outlives(records[0], EVENT_ID);
    }
    if UniqueNames(records[0].headers) {
      FirstIsLast(records[0].headers, EVENT_ID);
    }
  }

  // -------------------------------------------------------- repeated names

  /** The mapping keeps the last of repeated headers while `get_header` reads the first, so
      what `get_header` reads survives dead-lettering exactly when those two agree. */
  lemma RepeatedHeader(c: Router, r: Record, e: ErrorInfo, attempts: nat, now: int, after: Record, name: string)
    requires !IsDlq(name) && DeadLetter(c, r, e, attempts, now).Some?
    requires Delivered(DeadLetter(c, r, e, attempts, now).value, after)
    ensures GetHeader(after.headers, name) == GetHeader(r.headers, name) <==>
            GetHeader(r.headers, name) == LastHeader(r.headers, name)
  {
    DeadLetterHeader(c, r, e, attempts, now, name);
  }

  /** The headers called `name`, byte for byte survive dead-lettering exactly when there is
      at most one of them. */
  lemma HeaderIsPreserved(c: Router, r: Record, e: ErrorInfo, attempts: nat, now: int, after: Record, name: string)
    requires !IsDlq(name) && DeadLetter(c, r, e, attempts, now).Some?
    requires Delivered(DeadLetter(c, r, e, attempts, now).value, after)
    ensures ValuesOf(after.headers, name) == ValuesOf(r.headers, name) <==> |ValuesOf(r.headers, name)| <= 1
  {
    DeadLetterHeader(c, r, e, attempts, now, name);
    CollapsesToLast(after.headers, r.headers, name);
  }

  const REPEATED: seq<(string, Bytes)> := [("a", [1]), ("a", [2]), ("a", [1])]

  /** A record whose first and last `a` agree, and that still comes out of dead-lettering
      with one `a` in place of three. */
  lemma RepeatedHeaderIsLost(c: Router, r: Record, e: ErrorInfo, attempts: nat, now: int, after: Record)
    requires r.headers == REPEATED && DeadLetter(c, r, e, attempts, now).Some?
    requires Delivered(DeadLetter(c, r, e, attempts, now).value, after)
    ensures ValuesOf(r.headers, "a") == [[1], [2], [1]] && ValuesOf(after.headers, "a") == [[1]]
    ensures GetHeader(after.headers, "a") == GetHeader(r.headers, "a")
  {
    ThreeValues();
    DeadLetterHeader(c, r, e, attempts, now, "a");
    CollapsesToLast(after.headers, REPEATED, "a");
  }

  lemma ThreeValues()
    ensures ValuesOf(REPEATED, "a") == [[1], [2], [1]] && !IsDlq("a")
    ensures GetHeader(REPEATED, "a") == LastHeader(REPEATED, "a") == Some([1])
  {
    var one, two := [("a", [1])], [("a", [1]), ("a", [2])];
    assert one[..0] == [] && two[..1] == one && REPEATED[..2] == two;
    assert ValuesOf(one, "a") == [[1]];
    assert ValuesOf(two, "a") == [[1], [2]];
  }
}
