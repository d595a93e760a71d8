/** The two Kafka payloads and the checks that decide what may be on each topic. */
module Payloads {
  datatype Option<+T> = None | Some(value: T)

  /** The pair that identifies one application: UNIQUE in server-c, a hash and a set member in server-b. */
  datatype Key = Key(userId: int, couponTypeId: int)

  /** Wire status of a result; an unrecognised string is kept as it came. */
  datatype ResultStatus = ResultSuccess | ResultSoldOut | ResultFailed | ResultUnknown(text: string)

  /** A null or absent JSON member is None; instants are epoch milliseconds. */
  datatype RequestPayload = RequestPayload(
    requestId: Option<string>,
    userId: int,
    eventId: int,
    couponTypeId: int,
    requestedAt: Option<int>)

  datatype ResultPayload = ResultPayload(
    requestId: Option<string>,
    userId: int,
    eventId: int,
    couponTypeId: int,
    status: Option<ResultStatus>,
    couponCode: Option<string>,
    processedAt: Option<int>)

  /** How a check ends: normally, as a missing member (HTTP 500) or as a bad argument (HTTP 400). */
  datatype Check = Accepted | MissingMember | InvalidArgument

  function RequestKey(p: RequestPayload): Key {
    Key(p.userId, p.couponTypeId)
  }

  function ResultKey(p: ResultPayload): Key {
    Key(p.userId, p.couponTypeId)
  }

  /** The characters String.prototype.trim removes. */
  predicate TrimsAway(c: char) {
    c in {' ', '\t', '\n', '\r', '\U{000b}', '\U{000c}', '\U{00a0}', '\U{1680}', '\U{2028}', '\U{2029}', '\U{202f}',
          '\U{205f}', '\U{3000}', '\U{feff}'} || '\U{2000}' <= c <= '\U{200a}'
  }

  predicate Blank(s: string) {
    forall i | 0 <= i < |s| :: TrimsAway(s[i])
  }

  function AssertIssueRequestPayload(p: RequestPayload): (r: Check)
    ensures r == Accepted <==>
            && p.requestId.Some? && !Blank(p.requestId.value) && p.requestedAt.Some?
            && p.userId >= 1 && p.eventId >= 1 && p.couponTypeId >= 1
    ensures p.requestId.None? ==> r == MissingMember
  {
    if p.requestId.None? then MissingMember
    else if Blank(p.requestId.value) then InvalidArgument
    else if !(p.userId > 0) then InvalidArgument
    else if !(p.eventId > 0) then InvalidArgument
    else if !(p.couponTypeId > 0) then InvalidArgument
    else if p.requestedAt.None? then MissingMember
    else Accepted
  }

  predicate ValidRequest(p: RequestPayload) {
    AssertIssueRequestPayload(p) == Accepted
  }

  function AssertIssueResultPayload(p: ResultPayload): (r: Check)
    ensures r == Accepted <==>
            && p.requestId.Some? && p.processedAt.Some? && p.status.Some? && !p.status.value.ResultUnknown?
            && (p.status.value.ResultSuccess? ==> p.couponCode.Some?)
    ensures r != InvalidArgument
  {
    if p.requestId.None? then MissingMember
    else if p.status.None? then MissingMember
    else if p.status.value.ResultUnknown? then MissingMember
    else if p.status.value.ResultSuccess? && p.couponCode.None? then MissingMember
    else if p.processedAt.None? then MissingMember
    else Accepted
  }

  predicate ValidResult(p: ResultPayload) {
    AssertIssueResultPayload(p) == Accepted
  }
}
