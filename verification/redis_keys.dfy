/**
 * What server-b's store writes as text and reads back: numbers, key names, set members and the
 * fields of a pending hash. Numbers are those JavaScript prints without an exponent.
 */
module RedisKeys {
  import opened Payloads
  import opened Redis

  // ---------------------------------------------------------------- numbers

  predicate IsDigit(c: char) {
    '0' <= c <= '9'
  }

  predicate AllDigits(s: string) {
    forall i | 0 <= i < |s| :: IsDigit(s[i])
  }

  function Digit(d: nat): (c: char)
    requires d < 10
    ensures IsDigit(c) && DigitValue(c) == d
  {
    '0' + d as char
  }

  function DigitValue(c: char): nat
    requires IsDigit(c)
  {
    (c - '0') as nat
  }

  function PrintNat(n: nat): (s: string)
    ensures AllDigits(s) && |s| > 0
  {
    if n < 10 then [Digit(n)] else PrintNat(n / 10) + [Digit(n % 10)]
  }

  /** String(n) */
  function Print(n: int): string {
    if n < 0 then "-" + PrintNat(-n) else PrintNat(n)
  }

  function ValueOf(s: string): nat
    requires AllDigits(s)
  {
    if s == "" then 0 else ValueOf(s[..|s| - 1]) * 10 + DigitValue(s[|s| - 1])
  }

  /** One sign at most, then digits and nothing else. */
  predicate IsLong(s: string) {
    var digits := if s != "" && s[0] in {'+', '-'} then s[1..] else s;
    digits != "" && AllDigits(digits)
  }

  function ParseLongStrict(s: string): (r: Option<int>)
    ensures r.Some? <==> IsLong(s)
  {
    if !IsLong(s) then None
    else
      var magnitude: int := if s[0] in {'+', '-'} then ValueOf(s[1..]) else ValueOf(s);
      Some(if s[0] == '-' then -magnitude else magnitude)
  }

  lemma {:induction false} ValueOfPrintNat(n: nat)
    ensures ValueOf(PrintNat(n)) == n
  {
    if n >= 10 {
      ValueOfPrintNat(n / 10);
      var s := PrintNat(n / 10);
      assert (s + [Digit(n % 10)])[..|s|] == s;
    } else {
      assert [Digit(n)][..0] == "";
    }
  }

  /** Every number, negative ones included, parses back from its print. */
  lemma ParsePrint(n: int)
    ensures ParseLongStrict(Print(n)) == Some(n)
  {
    var s := PrintNat(if n < 0 then -n else n);
    assert IsDigit(s[0]);
    assert ("-" + s)[1..] == s;
    ValueOfPrintNat(if n < 0 then -n else n);
  }

  function Zeros(n: nat): string {
    if n == 0 then "" else Zeros(n - 1) + ['0']
  }

  /** Any text of digits is the print of its value behind some zeros. */
  lemma {:induction false} DigitsAreAPrint(s: string) returns (zeros: nat)
    requires AllDigits(s) && s != ""
    ensures s == Zeros(zeros) + PrintNat(ValueOf(s))
  {
    var n := |s| - 1;
    var c := s[n];
    assert s == s[..n] + [c];
    assert [Digit(DigitValue(c))] == [c];
    if n == 0 {
      zeros := 0;
      assert s[..n] == "" && s == "" + [c];
    } else {
      zeros := DigitsAreAPrint(s[..n]);
      var v := ValueOf(s[..n]);
      if v == 0 {
        assert s == Zeros(zeros) + ['0'] + [c];
        zeros := zeros + 1;
      } else {
        assert (v * 10 + DigitValue(c)) / 10 == v && (v * 10 + DigitValue(c)) % 10 == DigitValue(c);
      }
    }
  }

  lemma {:induction false} ZerosAddNothing(zeros: nat, n: nat)
    ensures AllDigits(Zeros(zeros) + PrintNat(n)) && ValueOf(Zeros(zeros) + PrintNat(n)) == n
  {
    ValueOfPrintNat(n);
    ZerosInFront(zeros, PrintNat(n));
  }

  lemma {:induction false} ZerosInFront(zeros: nat, s: string)
    requires AllDigits(s)
    ensures AllDigits(Zeros(zeros) + s) && ValueOf(Zeros(zeros) + s) == ValueOf(s)
    decreases |s|, zeros
  {
    if s == "" {
      assert Zeros(zeros) + s == Zeros(zeros);
      if zeros > 0 {
        ZerosInFront(zeros - 1, "");
        assert Zeros(zeros - 1) + "" == Zeros(zeros - 1);
        assert Zeros(zeros)[..|Zeros(zeros)| - 1] == Zeros(zeros - 1);
      }
    } else {
      var n := |s| - 1;
      ZerosInFront(zeros, s[..n]);
      var all := Zeros(zeros) + s;
      assert all[..|all| - 1] == Zeros(zeros) + s[..n];
    }
  }

  /** Signs that leave a number of this sign as it is. */
  predicate SignFor(sign: string, n: int) {
    if n < 0 then sign == "-" else sign in {"", "+"} || (sign == "-" && n == 0)
  }

  /** Which texts read as n: a sign that fits, zeros, and the print of its magnitude; nothing else does. */
  lemma WhatReadsAs(s: string, n: int)
    ensures ParseLongStrict(s) == Some(n) <==>
            exists sign, zeros: nat :: SignFor(sign, n) && s == sign + (Zeros(zeros) + PrintNat(if n < 0 then -n else n))
  {
    var magnitude := if n < 0 then -n else n;
    if ParseLongStrict(s) == Some(n) {
      if s[0] in {'+', '-'} {
        var zeros := DigitsAreAPrint(s[1..]);
        assert s == [s[0]] + s[1..] && SignFor([s[0]], n);
      } else {
        var zeros := DigitsAreAPrint(s);
        assert s == "" + s && SignFor("", n);
      }
    }
    forall sign, zeros: nat | SignFor(sign, n) && s == sign + (Zeros(zeros) + PrintNat(magnitude))
      ensures ParseLongStrict(s) == Some(n)
    {
      SignedReads(sign, zeros, n);
    }
  }

  lemma SignedReads(sign: string, zeros: nat, n: int)
    requires SignFor(sign, n)
    ensures ParseLongStrict(sign + (Zeros(zeros) + PrintNat(if n < 0 then -n else n))) == Some(n)
  {
    hide ValueOf, PrintNat, Zeros, ParseLongStrict, AllDigits;
    ZerosAddNothing(zeros, if n < 0 then -n else n);
    NonEmpty(zeros, if n < 0 then -n else n);
    DigitsWithSign(Zeros(zeros) + PrintNat(if n < 0 then -n else n));
  }

  lemma NonEmpty(zeros: nat, n: nat)
    ensures Zeros(zeros) + PrintNat(n) != ""
  {}

  lemma DigitsWithSign(digits: string)
    requires AllDigits(digits) && digits != ""
    ensures ParseLongStrict("" + digits) == Some(ValueOf(digits) as int)
    ensures ParseLongStrict("+" + digits) == Some(ValueOf(digits) as int)
    ensures ParseLongStrict("-" + digits) == Some(0 - ValueOf(digits))
  {
    hide ValueOf;
    assert IsDigit(digits[0]);
    assert "" + digits == digits && ("+" + digits)[1..] == digits && ("-" + digits)[1..] == digits;
  }

  // ---------------------------------------------------------------- keys and members

  /** s.split(':') */
  function Split(s: string): (parts: seq<string>)
    ensures |parts| >= 1
  {
    if s == "" then [""]
    else
      var rest := Split(s[1..]);
      if s[0] == ':' then [""] + rest else [[s[0]] + rest[0]] + rest[1..]
  }

  function PendingZsetMember(k: Key): string {
    Print(k.userId) + ":" + Print(k.couponTypeId)
  }

  function PendingHash(k: Key): string {
    "issue:pending:" + PendingZsetMember(k)
  }

  const PENDING_ZSET := "issue:pending:zset"

  /** The sold-out key; server-c writes it and server-a reads it. */
  function CouponAvailable(eventId: int, couponTypeId: int): string {
    "coupon:available:" + PendingZsetMember(Key(eventId, couponTypeId))
  }

  /** What findPendingOlderThan makes of a member; None is passed over. */
  function ParseMember(member: string): Option<Key> {
    var parts := Split(member);
    if |parts| != 2 then None
    else
      var userId, couponTypeId := ParseLongStrict(parts[0]), ParseLongStrict(parts[1]);
      if userId.None? || couponTypeId.None? then None else Some(Key(userId.value, couponTypeId.value))
  }

  predicate NoColon(s: string) {
    forall i | 0 <= i < |s| :: s[i] != ':'
  }

  lemma {:induction false} SplitPlain(s: string)
    requires NoColon(s)
    ensures Split(s) == [s]
  {
    if s != "" {
      SplitPlain(s[1..]);
      assert [s[0]] + s[1..] == s;
    }
  }

  lemma {:induction false} SplitAtColon(a: string, b: string)
    requires NoColon(a) && NoColon(b)
    ensures Split(a + ":" + b) == [a, b]
  {
    if a == "" {
      SplitPlain(b);
      assert (a + ":" + b)[1..] == b;
    } else {
      SplitAtColon(a[1..], b);
      assert (a + ":" + b)[1..] == a[1..] + ":" + b;
      assert [a[0]] + a[1..] == a;
    }
  }

  lemma PrintHasNoColon(n: int)
    ensures NoColon(Print(n))
  {
    var s := PrintNat(if n < 0 then -n else n);
    assert forall i | 0 <= i < |s| :: IsDigit(s[i]);
  }

  /** Every member the store writes is read back as the pair it was written for. */
  lemma MemberReadsBack(k: Key)
    ensures ParseMember(PendingZsetMember(k)) == Some(k)
  {
    PrintHasNoColon(k.userId);
    PrintHasNoColon(k.couponTypeId);
    SplitAtColon(Print(k.userId), Print(k.couponTypeId));
    ParsePrint(k.userId);
    ParsePrint(k.couponTypeId);
    hide Split, Print, ParseLongStrict;
  }

  lemma PrefixDropped(prefix: string, s: string)
    ensures (prefix + s)[|prefix|..] == s
  {}

  lemma HashHasPrefix(k: Key)
    ensures |PendingHash(k)| >= 14 && PendingHash(k)[14..] == PendingZsetMember(k)
  {
    hide PendingZsetMember;
    assert |"issue:pending:"| == 14;
    PrefixDropped("issue:pending:", PendingZsetMember(k));
  }

  lemma ZsetKeyHasPrefix()
    ensures |PENDING_ZSET| >= 14 && PENDING_ZSET[14..] == "zset" && NoColon("zset")
  {}

  lemma MemberHasColon(k: Key)
    ensures !NoColon(PendingZsetMember(k))
  {
    hide Print;
    assert PendingZsetMember(k)[|Print(k.userId)|] == ':';
  }

  /** Two applications never share a member or a hash, and no hash is the set itself. */
  lemma KeysAreInjective(j: Key, k: Key)
    ensures PendingZsetMember(j) == PendingZsetMember(k) ==> j == k
    ensures PendingHash(j) == PendingHash(k) ==> j == k
    ensures PendingHash(k) != PENDING_ZSET
  {
    hide *;
    MemberReadsBack(j);
    MemberReadsBack(k);
    HashHasPrefix(j);
    HashHasPrefix(k);
    MemberHasColon(k);
    ZsetKeyHasPrefix();
  }

  /** One sold-out key per event and coupon type. */
  lemma AvailabilityKeysAreInjective(e1: int, c1: int, e2: int, c2: int)
    requires CouponAvailable(e1, c1) == CouponAvailable(e2, c2)
    ensures e1 == e2 && c1 == c2
  {
    PrefixDropped("coupon:available:", PendingZsetMember(Key(e1, c1)));
    PrefixDropped("coupon:available:", PendingZsetMember(Key(e2, c2)));
    MemberReadsBack(Key(e1, c1));
    MemberReadsBack(Key(e2, c2));
    hide ParseMember, PendingZsetMember;
  }

  /** The names other servers and operators know. */
  lemma KnownKeys()
    ensures PendingZsetMember(Key(12, 3)) == "12:3" && PendingHash(Key(12, 3)) == "issue:pending:12:3"
    ensures PENDING_ZSET == "issue:pending:zset" && CouponAvailable(7, 3) == "coupon:available:7:3"
  {
    assert PrintNat(1) == "1" && PrintNat(12) == "12" && PrintNat(3) == "3" && PrintNat(7) == "7";
    assert "12" + ":" + "3" == "12:3" && "7" + ":" + "3" == "7:3";
  }

  /** Members that parse without being what the store writes, as a sign or leading zeros make them. */
  lemma SomeMembersAreNotCanonical()
    ensures ParseMember("+5:07") == Some(Key(5, 7)) && PendingZsetMember(Key(5, 7)) != "+5:07"
  {
    assert "+5" + ":" + "07" == "+5:07";
    SplitAtColon("+5", "07");
    assert "+5"[1..] == "5" && "5"[..0] == "" && "07"[..1] == "0" && "0"[..0] == "";
    assert PendingZsetMember(Key(5, 7))[0] == '5';
  }

  // ---------------------------------------------------------------- hash fields

  datatype Field = RequestId | UserId | EventId | CouponTypeId | StatusField | CreatedAt | Code | PublishAttempts
                 | LastPublishedAt

  function PrintStatus(s: PendingStatus): string {
    match s
    case PENDING => "PENDING"
    case SUCCESS => "SUCCESS"
    case SOLD_OUT => "SOLD_OUT"
    case FAILED => "FAILED"
  }

  function ReadStatus(s: string): Option<PendingStatus> {
    if s == "PENDING" then Some(PENDING)
    else if s == "SUCCESS" then Some(SUCCESS)
    else if s == "SOLD_OUT" then Some(SOLD_OUT)
    else if s == "FAILED" then Some(FAILED)
    else None
  }

  function PrintOption(n: Option<int>): Option<string> {
    if n.Some? then Some(Print(n.value)) else None
  }

  function TextOf(h: Hash, f: Field): Option<string> {
    match f
    case RequestId => h.requestId
    case UserId => PrintOption(h.userId)
    case EventId => PrintOption(h.eventId)
    case CouponTypeId => PrintOption(h.couponTypeId)
    case StatusField => if h.status.Some? then Some(PrintStatus(h.status.value)) else None
    case CreatedAt => PrintOption(h.createdAt)
    case Code => h.code
    case PublishAttempts => PrintOption(h.attempts)
    case LastPublishedAt => PrintOption(h.lastPublishedAt)
  }

  /** What Redis holds for the hash. */
  function Encode(h: Hash): map<Field, string> {
    map f: Field | TextOf(h, f).Some? :: TextOf(h, f).value
  }

  /** The entry as it is read, its texts not yet converted; attempts is. */
  datatype RawIssue = RawIssue(requestId: string, eventId: string, status: string, createdAt: string, attempts: int)

  /** A missing count reads as 1; a count that is no number makes the entry unreadable this time. */
  function ReadEntries(entries: map<Field, string>): (r: Option<RawIssue>)
    ensures r.Some? && PublishAttempts !in entries ==> r.value.attempts == 1
    ensures PublishAttempts in entries && !IsLong(entries[PublishAttempts]) ==> r.None?
  {
    if RequestId !in entries || EventId !in entries || StatusField !in entries || CreatedAt !in entries then None
    else if PublishAttempts !in entries then
      Some(RawIssue(entries[RequestId], entries[EventId], entries[StatusField], entries[CreatedAt], 1))
    else
      var attempts := ParseLongStrict(entries[PublishAttempts]);
      if attempts.None? then None
      else Some(RawIssue(entries[RequestId], entries[EventId], entries[StatusField], entries[CreatedAt], attempts.value))
  }

  /** The texts, converted, are these values. */
  predicate Means(raw: RawIssue, p: PendingIssue) {
    && raw.requestId == p.requestId && ParseLongStrict(raw.eventId) == Some(p.eventId)
    && ReadStatus(raw.status) == Some(p.status) && ParseLongStrict(raw.createdAt) == Some(p.createdAt)
    && raw.attempts == p.attempts
  }

  lemma StatusReadsBack(s: PendingStatus)
    ensures ReadStatus(PrintStatus(s)) == Some(s)
  {
    assert "PENDING"[0] != "SUCCESS"[0] && |"SOLD_OUT"| == 8 && |"FAILED"| == 6;
  }

  lemma EncodedField(h: Hash, f: Field)
    ensures f in Encode(h) <==> TextOf(h, f).Some?
    ensures f in Encode(h) ==> Encode(h)[f] == TextOf(h, f).value
  {}

  lemma NumberReadsBack(n: Option<int>)
    ensures n.Some? ==> PrintOption(n).Some? && ParseLongStrict(PrintOption(n).value) == n
  {
    if n.Some? { ParsePrint(n.value); }
  }

  /**
   * The reading of a hash through its text is the reading of its values: an entry can be read in
   * the one form exactly when it can in the other, and then both mean the same.
   */
  lemma TextReadsBack(k: Key, h: Hash)
    ensures ReadEntries(Encode(h)).Some? <==> ReadPending(k, h).Some?
    ensures ReadPending(k, h).Some? ==> Means(ReadEntries(Encode(h)).value, ReadPending(k, h).value)
  {
    hide Encode, Print, ParseLongStrict, ReadStatus, PrintStatus, IsLong;
    EncodedField(h, RequestId);
    EncodedField(h, EventId);
    EncodedField(h, StatusField);
    EncodedField(h, CreatedAt);
    EncodedField(h, PublishAttempts);
    NumberReadsBack(h.eventId);
    NumberReadsBack(h.createdAt);
    NumberReadsBack(h.attempts);
    if h.status.Some? { StatusReadsBack(h.status.value); }
  }

  /**
   * From the first message through set, hash and text to the rebuilt one: reading the member gives
   * the key, reading its hash gives the stored application, and that rebuilds the first message.
   */
  lemma RebuiltFromTextIsTheFirst(k: Key, requestId: string, eventId: int, createdAt: int, h: Hash)
    requires h.requestId == Some(requestId) && h.eventId == Some(eventId) && h.createdAt == Some(createdAt)
    requires h.status.Some?
    ensures var raw := ReadEntries(Encode(h));
            && raw.Some? && ParseMember(PendingZsetMember(k)) == Some(k)
            && ParseLongStrict(raw.value.eventId).Some? && ParseLongStrict(raw.value.createdAt).Some?
            && RequestPayload(Some(raw.value.requestId), k.userId, ParseLongStrict(raw.value.eventId).value, k.couponTypeId,
                              Some(ParseLongStrict(raw.value.createdAt).value))
               == FirstPayload(k, requestId, eventId, createdAt)
  {
    MemberReadsBack(k);
    TextReadsBack(k, h);
    hide Encode, ReadEntries, ParseLongStrict, ParseMember;
  }
}
