/** Reading the exchange's answer to a transfer call. */
module BingX {
  import opened Common

  /** payload["code"]; NoCode also stands for null, Number for what equals an integer, and Other
      for any further JSON value. */
  datatype Code = NoCode | Number(n: int) | Text(s: string) | Other

  /** A JSON body; `id` and `transferId` are the fields of its "data" object. */
  datatype Body =
    | NotAnObject
    | Object(code: Code, msg: string, id: Option<string>, transferId: Option<string>)

  datatype Http = Unreachable | Response(status: int, body: Body, text: string)

  /** The outcome of create_internal_transfer: a return value or one of its two exceptions. */
  datatype Reply =
    | Accepted(exchangeId: Option<string>)
    | Rejected(msg: string, exchangeId: Option<string>)
    | NoAnswer

  /** data["id"] or data["transferId"], None when both are missing or empty. */
  function ExtractTransferId(b: Body): Option<string> {
    if b.NotAnObject? then None
    else if !Blank(b.id) then b.id
    else if !Blank(b.transferId) then b.transferId
    else None
  }

  /** "id" counts before "transferId", an empty one of either like a missing one. */
  lemma TransferIdIs(b: Body, id: string)
    requires b.Object?
    ensures ExtractTransferId(b) == Some(id) <==>
              id != "" && (b.id == Some(id) || (b.id in {None, Some("")} && b.transferId == Some(id)))
  {
  }

  function Truncated(text: string): string {
    if |text| > 500 then text[..500] else text
  }

  function ParseReply(h: Http): (r: Reply) {
    match h
    case Unreachable => NoAnswer
    case Response(status, body, text) =>
      if status >= 400 || body.NotAnObject? then Rejected(Truncated(text), ExtractTransferId(body))
      else if body.code in {NoCode, Number(0), Text("0")} then Accepted(ExtractTransferId(body))
      else Rejected(body.msg, ExtractTransferId(body))
  }

  predicate MsgHas(msg: string, needles: seq<string>) {
    exists i :: 0 <= i < |needles| && Contains(Lower(msg), needles[i])
  }

  predicate IsDuplicate(msg: string) {
    MsgHas(msg, ["duplicate", "repeated", "already exist", "idempotent"])
  }

  predicate IsInsufficientBalance(msg: string) {
    MsgHas(msg, ["insufficient", "not enough", "balance not"])
  }

  predicate IsRecipientNotFound(msg: string) {
    MsgHas(msg, ["not found", "not exist", "does not exist", "no such user"])
  }

  /** What the worker records. */
  datatype Verdict = Complete(exchangeId: Option<string>) | Retry | Escalate | Hold | Fail

  const MAX_TRANSFER_ATTEMPTS: nat := 3

  function RetryOrEscalate(attempt: nat): Verdict {
    if attempt < MAX_TRANSFER_ATTEMPTS then Retry else Escalate
  }

  function VerdictOf(r: Reply, attempt: nat): (v: Verdict) {
    match r
    case Accepted(id) => Complete(id)
    case Rejected(msg, id) =>
      if IsDuplicate(msg) then Complete(id)
      else if IsInsufficientBalance(msg) then Hold
      else if IsRecipientNotFound(msg) then Fail
      else RetryOrEscalate(attempt)
    case NoAnswer => RetryOrEscalate(attempt)
  }

  /** The answers that say the exchange has the transfer: success, or a duplicate of an
      accepted one. */
  predicate SaysAccepted(r: Reply) {
    r.Accepted? || (r.Rejected? && IsDuplicate(r.msg))
  }

  /** A transfer is recorded complete exactly on such an answer, whatever the attempt. */
  lemma CompleteIffAccepted(r: Reply, attempt: nat)
    ensures VerdictOf(r, attempt).Complete? <==> SaysAccepted(r)
  {
  }

  // --------------------------------------------------- the answers, by their texts

  /** The text, in any case, says that the transfer was accepted before. */
  predicate NamesDuplicate(text: string) {
    var t := Lower(text);
    || Contains(t, "duplicate")
    || Contains(t, "repeated")
    || Contains(t, "already exist")
    || Contains(t, "idempotent")
  }

  predicate NamesMissingBalance(text: string) {
    var t := Lower(text);
    Contains(t, "insufficient") || Contains(t, "not enough") || Contains(t, "balance not")
  }

  predicate NamesMissingRecipient(text: string) {
    var t := Lower(text);
    || Contains(t, "not found")
    || Contains(t, "not exist")
    || Contains(t, "does not exist")
    || Contains(t, "no such user")
  }

  lemma TextClasses(text: string)
    ensures IsDuplicate(text) == NamesDuplicate(text)
    ensures IsInsufficientBalance(text) == NamesMissingBalance(text)
    ensures IsRecipientNotFound(text) == NamesMissingRecipient(text)
  {
    var (d, b, r) := (["duplicate", "repeated", "already exist", "idempotent"],
                      ["insufficient", "not enough", "balance not"],
                      ["not found", "not exist", "does not exist", "no such user"]);
    MsgHasEach(text, d);
    MsgHasEach(text, b);
    MsgHasEach(text, r);
    hide MsgHas, Contains, Lower;
  }

  lemma MsgHasEach(text: string, needles: seq<string>)
    requires 3 <= |needles| <= 4
    ensures MsgHas(text, needles) <==>
      || Contains(Lower(text), needles[0])
      || Contains(Lower(text), needles[1])
      || Contains(Lower(text), needles[2])
      || (|needles| == 4 && Contains(Lower(text), needles[3]))
  {
    hide Contains, Lower;
  }

  /** The body reports success: an object whose code is missing, 0 or "0". */
  predicate ReportsSuccess(b: Body) {
    b.Object? && b.code in {NoCode, Number(0), Text("0")}
  }

  /** The text an answer is classified by. */
  function MessageOf(h: Http): string
    requires h.Response?
  {
    if h.status < 400 && h.body.Object? then h.body.msg
    else if |h.text| > 500 then h.text[..500] else h.text
  }

  /** From the response itself to the record, by status, body and text alone.  No answer is retried
      below the third attempt and escalated from it on; an answer below status 400 with a body that
      reports success completes; any other is classified by its text, as a duplicate first, then as
      missing balance, then as a missing recipient, and else treated like no answer.  A completed
      transfer is recorded under the id the body carries. */
  lemma ResponseToRecord(h: Http, attempt: nat)
    ensures var (v, again) := (VerdictOf(ParseReply(h), attempt), if attempt < 3 then Retry else Escalate);
      if h.Unreachable? then v == again
      else if h.status < 400 && ReportsSuccess(h.body) then v == Complete(ExtractTransferId(h.body))
      else if NamesDuplicate(MessageOf(h)) then v == Complete(ExtractTransferId(h.body))
      else if NamesMissingBalance(MessageOf(h)) then v == Hold
      else if NamesMissingRecipient(MessageOf(h)) then v == Fail
      else v == again
  {
    if h.Response? { TextClasses(MessageOf(h)); }
    hide NamesDuplicate, NamesMissingBalance, NamesMissingRecipient;
    hide IsDuplicate, IsInsufficientBalance, IsRecipientNotFound;
  }
}
