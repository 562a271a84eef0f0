/** Message status reconciliation for Z-API callbacks: the provider code table,
    the no-downgrade rule over `sent < delivered < read`, the batch update of
    `MessageStatusCallback` and the single-message update of `DeliveryCallback`. */
module MessageStatus {
  import opened Base

  datatype Status = Sent | Delivered | Read | Failed

  /** A stored message, keyed elsewhere by its provider id (`source_id`). */
  datatype Message = Message(status: Status, externalError: Option<string>, externalCreatedAt: Option<int>)

  /** The statuses on the forward path; `failed` is off it. */
  predicate OnPath(s: Status) {
    !s.Failed?
  }

  function Rank(s: Status): (n: nat)
    requires OnPath(s)
    ensures n <= 2
  {
    match s
    case Sent => 0
    case Delivered => 1
    case Read => 2
  }

  /** The provider codes each canonical status is reported under. */
  function CodesFor(s: Status): set<string> {
    match s
    case Sent => {"SENT"}
    case Delivered => {"DELIVERED", "RECEIVED"}
    case Read => {"READ", "READ_BY_ME", "PLAYED"}
    case Failed => {}
  }

  /** Translation of a Z-API status code; `None` for a code the handler rejects. */
  function FromZapiCode(code: string): (r: Option<Status>)
    ensures r.Some? ==> OnPath(r.value) && code in CodesFor(r.value)
    ensures r.None? ==> forall s: Status :: code !in CodesFor(s)
  {
    if code == "SENT" then Some(Sent)
    else if code == "DELIVERED" || code == "RECEIVED" then Some(Delivered)
    else if code == "READ" || code == "READ_BY_ME" || code == "PLAYED" then Some(Read)
    else None
  }

  /** Every code listed for a status translates to it, so the table and the translation agree both ways. */
  lemma FromZapiCodeComplete(s: Status, code: string)
    requires code in CodesFor(s)
    ensures FromZapiCode(code) == Some(s)
  {
  }

  /** The status a message ends with after a callback reporting `incoming`:
      it moves forward along the path and never back. */
  function Advance(current: Status, incoming: Status): (r: Status)
    requires OnPath(incoming)
    ensures r == current || r == incoming
    ensures OnPath(current) ==> OnPath(r) && Rank(r) >= Rank(current) && Rank(r) >= Rank(incoming)
    ensures current.Failed? ==> r == Failed
  {
    if OnPath(current) && Rank(incoming) > Rank(current) then incoming else current
  }

  /** The two rules of the no-downgrade test group: a strictly higher rank is applied,
      an equal or lower one leaves the status as it was. */
  lemma AdvanceRule(current: Status, incoming: Status)
    requires OnPath(current) && OnPath(incoming)
    ensures Rank(incoming) > Rank(current) ==> Advance(current, incoming) == incoming
    ensures Rank(incoming) <= Rank(current) ==> Advance(current, incoming) == current
  {
  }

  /** Re-delivering the same callback changes nothing. */
  lemma AdvanceIdempotent(current: Status, incoming: Status)
    requires OnPath(incoming)
    ensures Advance(Advance(current, incoming), incoming) == Advance(current, incoming)
  {
  }

  /** Two callbacks for one message lead to the same status in either order. */
  lemma AdvanceCommutes(current: Status, a: Status, b: Status)
    requires OnPath(a) && OnPath(b)
    ensures Advance(Advance(current, a), b) == Advance(Advance(current, b), a)
  {
  }

  /** A message after a status callback for it: only its status may change. */
  function Reconciled(m: Message, incoming: Status): (r: Message)
    requires OnPath(incoming)
    ensures r.externalError == m.externalError && r.externalCreatedAt == m.externalCreatedAt
    ensures r.status == Advance(m.status, incoming)
  {
    m.(status := Advance(m.status, incoming))
  }

  /** Applies `incoming` to every listed id that names a stored message, one id after another. */
  function ApplyToBatch(messages: map<string, Message>, ids: seq<string>, incoming: Status): (r: map<string, Message>)
    requires OnPath(incoming)
    ensures r.Keys == messages.Keys
    ensures forall id | id in messages && id in ids :: r[id] == Reconciled(messages[id], incoming)
    ensures forall id | id in messages && id !in ids :: r[id] == messages[id]
    decreases |ids|
  {
    if |ids| == 0 then messages
    else
      var first := ids[0];
      var next := if first in messages then messages[first := Reconciled(messages[first], incoming)] else messages;
      ApplyToBatch(next, ids[1..], incoming)
  }

  /** The order and the repetitions of the ids in a batch do not matter. */
  lemma BatchOrderIrrelevant(messages: map<string, Message>, ids1: seq<string>, ids2: seq<string>, incoming: Status)
    requires OnPath(incoming)
    requires forall id :: id in ids1 <==> id in ids2
    ensures ApplyToBatch(messages, ids1, incoming) == ApplyToBatch(messages, ids2, incoming)
  {
  }

  /** Outcome of `MessageStatusCallback` on the stored messages: either the updated
      messages, or the messages untouched and one warning line. */
  datatype StatusUpdate = StatusUpdate(messages: map<string, Message>, warnings: seq<string>)

  const UnknownStatusPrefix: string := "Unknown ZAPI status: "

  function ProcessStatusCallback(messages: map<string, Message>, ids: seq<string>, code: string): (r: StatusUpdate)
    ensures FromZapiCode(code).None? ==> r.messages == messages && r.warnings == [UnknownStatusPrefix + code]
    ensures FromZapiCode(code).Some? ==> r.warnings == []
    ensures r.messages.Keys == messages.Keys
    ensures forall id | id in messages && FromZapiCode(code).Some? ::
              r.messages[id].status == (if id in ids then Advance(messages[id].status, FromZapiCode(code).value) else messages[id].status)
  {
    match FromZapiCode(code)
    case None => StatusUpdate(messages, [UnknownStatusPrefix + code])
    case Some(s) => StatusUpdate(ApplyToBatch(messages, ids, s), [])
  }

  /** A status callback never lowers the rank of any message on the path. */
  lemma StatusCallbackMonotone(messages: map<string, Message>, ids: seq<string>, code: string, id: string)
    requires id in messages && OnPath(messages[id].status)
    ensures var after := ProcessStatusCallback(messages, ids, code).messages[id].status;
            OnPath(after) && Rank(after) >= Rank(messages[id].status)
  {
  }

  /** The mixed-batch example: one message at `sent` and one at `read` both receive
      `DELIVERED`; the first moves to `delivered`, the second stays `read`. */
  lemma MixedBatchExample(m1: Message, m2: Message)
    requires m1.status == Sent && m2.status == Read
    ensures var r := ProcessStatusCallback(map["msg_123" := m1, "msg_456" := m2], ["msg_123", "msg_456"], "DELIVERED").messages;
            r["msg_123"].status == Delivered && r["msg_456"].status == Read
  {
  }

  /** Ruby's `Integer#/` by 1000: the whole seconds in a millisecond count, rounded down. */
  function MillisToSeconds(ms: int): (s: int)
    ensures s * 1000 <= ms < s * 1000 + 1000
  {
    ms / 1000
  }

  /** A millisecond stamp built from whole seconds converts back to those seconds. */
  lemma MillisToSecondsOfSeconds(s: int)
    ensures MillisToSeconds(s * 1000) == s
  {
  }

  /** `DeliveryCallback` on the stored messages. A message that is not stored is left
      alone; otherwise the status becomes `failed` with the error stored when an error
      is present and `delivered` when not, and the moment is stored in seconds. */
  function ProcessDeliveryCallback(messages: map<string, Message>, messageId: Option<string>,
                                   error: Option<string>, moment: Option<int>): (r: map<string, Message>)
    ensures r.Keys == messages.Keys
    ensures forall id | id in messages && Some(id) != messageId :: r[id] == messages[id]
    ensures messageId.Some? && messageId.value in messages ==>
              var before := messages[messageId.value];
              var after := r[messageId.value];
              && (after.status == if BlankOpt(error) then Delivered else Failed)
              && (after.externalError == if BlankOpt(error) then before.externalError else error)
              && (after.externalCreatedAt == if moment.Some? then Some(MillisToSeconds(moment.value)) else before.externalCreatedAt)
  {
    match messageId
    case None => messages
    case Some(id) =>
      if id !in messages then messages
      else
        var m := messages[id];
        var reported := if BlankOpt(error) then m.(status := Delivered) else m.(status := Failed, externalError := error);
        var stamped := if moment.Some? then reported.(externalCreatedAt := Some(moment.value / 1000)) else reported;
        messages[id := stamped]
  }
}
