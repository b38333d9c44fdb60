/** The length-prefixed framing behind the canonical hashes.

    SHA-256 itself is not modelled: a digest is the framed text, so that digests are equal exactly when the
    framed texts are. What is proved is that the framing loses nothing. */
module Framing {
  import opened Wrappers
  import opened Domain

  const MAX_FIELD: int := 0x1_0000_0000

  /** A field whose length fits the 32-bit prefix; the source panics on any other. */
  type Field = t: Text | |t| < MAX_FIELD witness []

  function BigEndian(n: nat): (b: seq<Byte>)
    requires n < MAX_FIELD
    ensures |b| == 4
  {
    [n / 0x100_0000, n / 0x1_0000 % 256, n / 256 % 256, n % 256]
  }

  function FromBigEndian(b: seq<Byte>): nat
    requires |b| == 4
  {
    (b[0] as int) * 0x100_0000 + (b[1] as int) * 0x1_0000 + (b[2] as int) * 256 + b[3] as int
  }

  lemma BigEndianRoundTrip(n: nat)
    requires n < MAX_FIELD
    ensures FromBigEndian(BigEndian(n)) == n
  {
    assert n / 0x1_0000 == n / 0x100_0000 * 256 + n / 0x1_0000 % 256;
    assert n / 256 == n / 0x1_0000 * 256 + n / 256 % 256;
  }

  function Frame(fields: seq<Field>): Text {
    if |fields| == 0 then [] else BigEndian(|fields[0]|) + fields[0] + Frame(fields[1..])
  }

  /** Reads the frame back, field by field; None for text that is no frame. */
  function Unframe(t: Text): Option<seq<Field>>
    decreases |t|
  {
    if |t| == 0 then Some([])
    else if |t| < 4 then None
    else
      var n := FromBigEndian(t[..4]);
      if n >= MAX_FIELD || |t| - 4 < n then None
      else
        match Unframe(t[4 + n..])
        case None => None
        case Some(rest) => Some([t[4..4 + n]] + rest)
  }

  lemma FirstField(f: Field, rest: Text)
    ensures var t := BigEndian(|f|) + f + rest;
            && FromBigEndian(t[..4]) == |f| && t[4..4 + |f|] == f && t[4 + |f|..] == rest
  {
    var t := BigEndian(|f|) + f + rest;
    assert t[..4] == BigEndian(|f|);
    BigEndianRoundTrip(|f|);
  }

  /** Decoding recovers exactly the fields that were framed. */
  lemma {:induction false} FrameRoundTrip(fields: seq<Field>)
    ensures Unframe(Frame(fields)) == Some(fields)
  {
    hide BigEndian, FromBigEndian;
    if |fields| > 0 {
      FirstField(fields[0], Frame(fields[1..]));
      FrameRoundTrip(fields[1..]);
      assert fields == [fields[0]] + fields[1..];
    }
  }

  lemma FrameInjective(a: seq<Field>, b: seq<Field>)
    ensures Frame(a) == Frame(b) <==> a == b
  {
    FrameRoundTrip(a);
    FrameRoundTrip(b);
  }

  /** The hashing loop of the source, writing into a buffer: it leaves the frame. */
  method WriteFrame(fields: seq<Field>) returns (written: Text)
    ensures written == Frame(fields)
  {
    written := [];
    for k := 0 to |fields|
      invariant written + Frame(fields[k..]) == Frame(fields)
    {
      assert fields[k..][0] == fields[k] && fields[k..][1..] == fields[k + 1..];
      var length := BigEndian(|fields[k]|);
      assert written + (length + fields[k] + Frame(fields[k + 1..]))
          == written + length + fields[k] + Frame(fields[k + 1..]);
      written := written + length;
      written := written + fields[k];
    }
  }

  // ---------------------------------------------------------------------------------------------
  // Decimal numbers
  // ---------------------------------------------------------------------------------------------

  /** Decimal digits of a natural number, most significant first. */
  function Digits(n: nat): (t: Text)
    ensures 0 < |t| && |t| <= n + 1
    ensures forall i :: 0 <= i < |t| ==> 48 <= t[i] <= 57
  {
    if n < 10 then [48 + n] else Digits(n / 10) + [48 + n % 10]
  }

  function ReadDigits(t: Text): int {
    if |t| == 0 then 0 else ReadDigits(t[..|t| - 1]) * 10 + (t[|t| - 1] as int - 48)
  }

  lemma {:induction false} DigitsRoundTrip(n: nat)
    ensures ReadDigits(Digits(n)) == n
  {
    if n >= 10 {
      DigitsRoundTrip(n / 10);
      assert Digits(n)[..|Digits(n)| - 1] == Digits(n / 10);
    }
  }

  lemma {:induction false} DigitsShort(n: nat, width: nat)
    requires 1 <= width && n < Power10(width)
    ensures |Digits(n)| <= width
  {
    if n >= 10 {
      DigitsShort(n / 10, width - 1);
    }
  }

  function Power10(n: nat): nat { if n == 0 then 1 else 10 * Power10(n - 1) }

  /** strconv.FormatInt in base 10. */
  function FormatInt(n: int): Text { if n < 0 then [45] + Digits(-n) else Digits(n) }

  function ReadInt(t: Text): int {
    if |t| > 0 && t[0] == 45 then -ReadDigits(t[1..]) else ReadDigits(t)
  }

  lemma FormatIntRoundTrip(n: int)
    ensures ReadInt(FormatInt(n)) == n
  {
    hide ReadDigits;
    if n < 0 {
      assert FormatInt(n)[1..] == Digits(-n);
      DigitsRoundTrip(-n);
    } else {
      assert FormatInt(n)[0] != 45;
      DigitsRoundTrip(n);
    }
  }

  lemma FormatIntInjective(a: int, b: int)
    ensures FormatInt(a) == FormatInt(b) <==> a == b
  {
    hide FormatInt, ReadInt;
    FormatIntRoundTrip(a);
    FormatIntRoundTrip(b);
  }

  // ---------------------------------------------------------------------------------------------
  // Commands
  // ---------------------------------------------------------------------------------------------

  datatype PaymentOutcome = Succeeded | Failed

  datatype RawPayment = Payment(provider: Text, event: Text, attempt: Uuid, outcome: PaymentOutcome, reference: Text)

  /** The limits that parsing puts on every payment command; a failed payment carries no reference. */
  type PaymentCommand = c: RawPayment |
      && 0 < |c.provider| <= 64 && 0 < |c.event| <= 200 && |c.attempt| == 36 && |c.reference| <= 200
      && (c.outcome.Failed? <==> |c.reference| == 0)
    witness Payment([1], [1], seq(36, i => 1), Failed, [])

  /** "v1" */
  const VERSION: Field := [118, 49]
  /** "succeeded" and "failed" */
  const SUCCEEDED: Field := [115, 117, 99, 99, 101, 101, 100, 101, 100]
  const FAILED: Field := [102, 97, 105, 108, 101, 100]

  function PaymentFields(c: PaymentCommand): seq<Field> {
    [VERSION, c.provider, c.event, c.attempt, if c.outcome.Succeeded? then SUCCEEDED else FAILED, c.reference]
  }

  /** CanonicalPaymentHash, up to SHA-256. */
  function PaymentDigest(c: PaymentCommand): Text { Frame(PaymentFields(c)) }

  /** Payment commands are equal exactly when their canonical digests are. */
  lemma PaymentDigestIdentifies(a: PaymentCommand, b: PaymentCommand)
    ensures PaymentDigest(a) == PaymentDigest(b) <==> a == b
  {
    FrameInjective(PaymentFields(a), PaymentFields(b));
    var x, y := PaymentFields(a), PaymentFields(b);
    if x == y {
      assert x[1] == y[1] && x[2] == y[2] && x[3] == y[3] && x[4] == y[4] && x[5] == y[5];
      assert |SUCCEEDED| != |FAILED|;
    }
  }

  datatype RawAdjustmentCommand = AdjustmentCommand(
    product: Uuid, key: Name, delta: int, reason: Text, externalReference: Text)

  /** The limits that parsing puts on every stock adjustment. The delta may still be zero: the repository
      refuses that itself. */
  type AdjustmentCommand = c: RawAdjustmentCommand |
      && |c.product| == 36 && -MAX_INT32 - 1 <= c.delta <= MAX_INT32
      && 0 < |c.reason| <= 200 && 0 < |c.externalReference| <= 200
    witness AdjustmentCommand(seq(36, i => 1), [1], 1, [1], [1])

  function AdjustmentFields(c: AdjustmentCommand): seq<Field> {
    DeltaFits(c.delta);
    [VERSION, c.product, FormatInt(c.delta), c.reason, c.externalReference]
  }

  lemma DeltaFits(delta: int)
    requires -MAX_INT32 - 1 <= delta <= MAX_INT32
    ensures |FormatInt(delta)| <= 11
  {
    assert Power10(10) == 10000000000 by {
      assert Power10(5) == 100000;
    }
    DigitsShort(if delta < 0 then -delta else delta, 10);
  }

  /** CanonicalStockAdjustmentHash, up to SHA-256. The idempotency key is not part of it. */
  function AdjustmentDigest(c: AdjustmentCommand): Text { Frame(AdjustmentFields(c)) }

  /** Under one key, adjustments have equal digests exactly when they are the same command. */
  lemma AdjustmentDigestIdentifies(a: AdjustmentCommand, b: AdjustmentCommand)
    requires a.key == b.key
    ensures AdjustmentDigest(a) == AdjustmentDigest(b) <==> a == b
  {
    var x, y := AdjustmentFields(a), AdjustmentFields(b);
    FrameInjective(x, y);
    FormatIntInjective(a.delta, b.delta);
    if x == y {
      assert x[1] == y[1] && x[2] == y[2] && x[3] == y[3] && x[4] == y[4];
    }
  }
}
