/** Messages in and out of Kafka, and the header names the modules share. */
module Message {

  type Byte = x: int | 0 <= x < 256
  type Bytes = seq<Byte>

  datatype Option<+T> = None | Some(value: T)

  /** A store call's outcome; `Unavailable` is `StoreUnavailableError`. */
  datatype Result<+T> = Ok(value: T) | Unavailable

  /** A message as it exists on a topic. Header names may repeat. */
  datatype Record = Record(
    topic: string, partition: nat, offset: nat,
    key: Option<Bytes>, value: Bytes, headers: seq<(string, Bytes)>, timestamp: int)

  /** A message to be produced; its headers are a mapping. */
  datatype Outgoing = Outgoing(topic: string, value: Bytes, key: Option<Bytes>, headers: map<string, Bytes>)

  const EVENT_ID := "x-event-id"
  const REPLAY_ID := "x-replay-id"
  const REPLAY_AT := "x-replay-at"
  const DLQ_PREFIX := "x-dlq-"
  const DLQ_SOURCE_TOPIC := "x-dlq-source-topic"
  const DLQ_SOURCE_PARTITION := "x-dlq-source-partition"
  const DLQ_SOURCE_OFFSET := "x-dlq-source-offset"
  const DLQ_SOURCE_TIMESTAMP := "x-dlq-source-timestamp"
  const DLQ_CONSUMER_GROUP := "x-dlq-consumer-group"
  const DLQ_ERROR_TYPE := "x-dlq-error-type"
  const DLQ_ERROR_MESSAGE := "x-dlq-error-message"
  const DLQ_ATTEMPTS := "x-dlq-attempts"
  const DLQ_FIRST_FAILED_AT := "x-dlq-first-failed-at"
  const DLQ_TRACE_ID := "x-dlq-trace-id"
  const DLQ_REPLAY_COUNT := "x-dlq-replay-count"

  /** The value of the first header called `name`. */
  function GetHeader(headers: seq<(string, Bytes)>, name: string): Option<Bytes> {
    if headers == [] then None
    else if headers[0].0 == name then Some(headers[0].1)
    else GetHeader(headers[1..], name)
  }

  /** The value a mapping built from `headers` left to right ends up with. */
  function LastHeader(headers: seq<(string, Bytes)>, name: string): Option<Bytes> {
    if headers == [] then None
    else
      var last := headers[|headers| - 1];
      if last.0 == name then Some(last.1) else LastHeader(headers[..|headers| - 1], name)
  }

  function Lookup(m: map<string, Bytes>, name: string): Option<Bytes> {
    if name in m then Some(m[name]) else None
  }

  ghost predicate UniqueNames(headers: seq<(string, Bytes)>) {
    forall i, j :: 0 <= i < j < |headers| ==> headers[i].0 != headers[j].0
  }

  /** `GetHeader` returns the value at the least index carrying the name. */
  lemma {:induction false} GetHeaderIsFirst(headers: seq<(string, Bytes)>, name: string, i: nat)
    requires i < |headers| && headers[i].0 == name
    requires forall j :: 0 <= j < i ==> headers[j].0 != name
    ensures GetHeader(headers, name) == Some(headers[i].1)
  {
    if i > 0 {
      GetHeaderIsFirst(headers[1..], name, i - 1);
    }
  }

  lemma {:induction false} GetHeaderAbsent(headers: seq<(string, Bytes)>, name: string)
    requires forall j :: 0 <= j < |headers| ==> headers[j].0 != name
    ensures GetHeader(headers, name) == None && LastHeader(headers, name) == None
  {
    if headers != [] {
      GetHeaderAbsent(headers[1..], name);
      LastHeaderAbsent(headers, name);
    }
  }

  lemma {:induction false} LastHeaderAbsent(headers: seq<(string, Bytes)>, name: string)
    requires forall j :: 0 <= j < |headers| ==> headers[j].0 != name
    ensures LastHeader(headers, name) == None
  {
    if headers != [] {
      LastHeaderAbsent(headers[..|headers| - 1], name);
    }
  }

  lemma {:induction false} LastHeaderAt(headers: seq<(string, Bytes)>, name: string, i: nat)
    requires i < |headers| && headers[i].0 == name
    requires forall j :: i < j < |headers| ==> headers[j].0 != name
    ensures LastHeader(headers, name) == Some(headers[i].1)
  {
    if i < |headers| - 1 {
      LastHeaderAt(headers[..|headers| - 1], name, i);
    }
  }

  /** With unique names, first and last match are the same header. */
  lemma FirstIsLast(headers: seq<(string, Bytes)>, name: string)
    requires UniqueNames(headers)
    ensures GetHeader(headers, name) == LastHeader(headers, name)
  {
    if i :| 0 <= i < |headers| && headers[i].0 == name {
      GetHeaderIsFirst(headers, name, i);
      LastHeaderAt(headers, name, i);
    } else {
      GetHeaderAbsent(headers, name);
    }
  }

  /** All values under a name, in order. */
  function ValuesOf(headers: seq<(string, Bytes)>, name: string): seq<Bytes> {
    if headers == [] then []
    else
      var front, last := ValuesOf(headers[..|headers| - 1], name), headers[|headers| - 1];
      if last.0 == name then front + [last.1] else front
  }

  lemma {:induction false} ValuesOfLast(headers: seq<(string, Bytes)>, name: string)
    ensures var vs := ValuesOf(headers, name);
            LastHeader(headers, name) == if vs == [] then None else Some(vs[|vs| - 1])
  {
    if headers != [] {
      ValuesOfLast(headers[..|headers| - 1], name);
    }
  }

  lemma {:induction false} ValuesOfAbsent(headers: seq<(string, Bytes)>, name: string)
    requires forall j :: 0 <= j < |headers| ==> headers[j].0 != name
    ensures ValuesOf(headers, name) == []
  {
    if headers != [] {
      ValuesOfAbsent(headers[..|headers| - 1], name);
    }
  }

  lemma {:induction false} ValuesOfUnique(headers: seq<(string, Bytes)>, name: string)
    requires UniqueNames(headers)
    ensures |ValuesOf(headers, name)| <= 1
  {
    if headers != [] {
      var front, last := headers[..|headers| - 1], headers[|headers| - 1];
      if last.0 == name {
        ValuesOfAbsent(front, name);
      } else {
        ValuesOfUnique(front, name);
      }
    }
  }

  /** Headers with unique names, read back from a mapping filled from `b`: under a name they
      are the same values exactly when `b` has at most one, and never more than the last. */
  lemma CollapsesToLast(a: seq<(string, Bytes)>, b: seq<(string, Bytes)>, name: string)
    requires UniqueNames(a) && GetHeader(a, name) == LastHeader(b, name)
    ensures ValuesOf(a, name) == ValuesOf(b, name) <==> |ValuesOf(b, name)| <= 1
    ensures ValuesOf(a, name) == if GetHeader(a, name).Some? then [GetHeader(a, name).value] else []
  {
    FirstIsLast(a, name);
    ValuesOfUnique(a, name);
    ValuesOfLast(a, name);
    ValuesOfLast(b, name);
  }
}
