/**
 * The preparator that fills in a heartbeat request (RFC 6520): the message
 * type, a random payload of the configured length, the payload length, and
 * random padding whose length is drawn between the configured minimum
 * (inclusive) and maximum (exclusive). The random generator is a parameter:
 * the bound passed to nextInt is reduced from an arbitrary draw, and the
 * bytes nextBytes writes are functions of their index.
 */
module Heartbeat {
  import opened JavaLang

  /** HeartbeatMessageType.HEARTBEAT_REQUEST (section 3 of RFC 6520). */
  const HEARTBEAT_REQUEST: byte := 1

  const PADDING_BOUNDS_MESSAGE := "Heartbeat minimum padding Length is greater than Heartbeat maxmimum padding length"

  /** The three configuration values the preparator reads, as Java ints. */
  datatype HeartbeatConfig = HeartbeatConfig(payloadLength: int32, minPaddingLength: int32, maxPaddingLength: int32)

  /** What the random generator hands out: the value nextInt reduces, and
      the bytes nextBytes writes into the payload and into the padding. */
  datatype RandomSource = RandomSource(paddingDraw: nat, payloadByte: nat -> byte, paddingByte: nat -> byte)

  datatype PreparationError =
    | ConfigurationException(message: string)
    /** nextInt with a bound that is not positive. */
    | IllegalArgumentException
    /** new byte[n] with n negative. */
    | NegativeArraySizeException

  /** n bytes as nextBytes fills a fresh array of length n. */
  function RandomBytes(source: nat -> byte, n: nat): (s: seq<byte>)
    ensures |s| == n
    ensures forall i :: 0 <= i < n ==> s[i] == source(i)
  {
    seq(n, i requires 0 <= i < n => source(i))
  }

  /** The padding length generatePadding draws: max - min is a 32-bit
      subtraction, nextInt rejects a bound that is not positive and answers
      in [0, bound), and min is added back. */
  function PaddingLength(config: HeartbeatConfig, draw: nat): (r: Result<int, PreparationError>)
    ensures config.maxPaddingLength < config.minPaddingLength <==>
            r == Failure(ConfigurationException(PADDING_BOUNDS_MESSAGE))
    ensures r.Success? <==>
            (config.minPaddingLength < config.maxPaddingLength &&
             config.maxPaddingLength - config.minPaddingLength <= INT_MAX)
    ensures r.Success? ==> config.minPaddingLength <= r.value < config.maxPaddingLength
  {
    var min := config.minPaddingLength;
    var max := config.maxPaddingLength;
    if max < min then Failure(ConfigurationException(PADDING_BOUNDS_MESSAGE))
    else
      var bound := Int32(max - min);
      if bound <= 0 then Failure(IllegalArgumentException)
      else Success(Int32(draw % bound + min))
  }

  /** Every length between the bounds is drawn by some value of the
      generator. */
  lemma PaddingLengthReachable(config: HeartbeatConfig, len: int)
    requires config.minPaddingLength <= len < config.maxPaddingLength
    requires config.maxPaddingLength - config.minPaddingLength <= INT_MAX
    ensures PaddingLength(config, len - config.minPaddingLength) == Success(len)
  {
    var bound: int := config.maxPaddingLength - config.minPaddingLength;
    var draw: nat := len - config.minPaddingLength;
    assert Int32(bound) == bound;
    SmallRemainder(draw, bound);
    assert Int32(draw + config.minPaddingLength) == len;
  }

  lemma SmallRemainder(x: nat, b: int)
    requires x < b
    ensures x % b == x
  {
  }

  /** Equal bounds pass the configuration check but leave nextInt nothing to
      draw from. */
  lemma EqualBoundsFail(config: HeartbeatConfig, draw: nat)
    requires config.minPaddingLength == config.maxPaddingLength
    ensures PaddingLength(config, draw) == Failure(IllegalArgumentException)
  {
  }

  /** generatePayload: a fresh random array of the configured length. */
  function Payload(config: HeartbeatConfig, random: RandomSource): (r: Result<seq<byte>, PreparationError>)
    ensures r.Success? <==> config.payloadLength >= 0
    ensures r.Failure? ==> r.error == NegativeArraySizeException
    ensures r.Success? ==> |r.value| == config.payloadLength
  {
    if config.payloadLength < 0 then Failure(NegativeArraySizeException)
    else Success(RandomBytes(random.payloadByte, config.payloadLength))
  }

  /** generatePadding: a fresh random array of a drawn length. */
  function Padding(config: HeartbeatConfig, random: RandomSource): (r: Result<seq<byte>, PreparationError>)
    ensures r.Success? ==> config.minPaddingLength <= |r.value| < config.maxPaddingLength
    ensures r.Success? <==> PaddingLength(config, random.paddingDraw).Success? &&
                            PaddingLength(config, random.paddingDraw).value >= 0
  {
    match PaddingLength(config, random.paddingDraw)
    case Failure(e) => Failure(e)
    case Success(len) =>
      if len < 0 then Failure(NegativeArraySizeException)
      else Success(RandomBytes(random.paddingByte, len))
  }

  /** The four fields of a heartbeat message; None is a field never set. */
  datatype Fields = Fields(messageType: Option<byte>, payload: Option<seq<byte>>, payloadLength: Option<int>,
                           padding: Option<seq<byte>>)

  /** prepareProtocolMessageContents: type, payload, payload length and
      padding, in that order; an exception leaves the fields set before it. */
  function Prepared(before: Fields, config: HeartbeatConfig, random: RandomSource): (r: (Outcome<PreparationError>, Fields))
    ensures r.1.messageType == Some(HEARTBEAT_REQUEST)
  {
    var typed := before.(messageType := Some(HEARTBEAT_REQUEST));
    match Payload(config, random)
    case Failure(e) => (Fail(e), typed)
    case Success(p) =>
      var measured := typed.(payload := Some(p), payloadLength := Some(|p|));
      match Padding(config, random)
      case Failure(e) => (Fail(e), measured)
      case Success(q) => (Pass, measured.(padding := Some(q)))
  }

  /** A completed preparation sets every field: the payload with the
      configured length and its bytes from the generator, the length equal
      to the payload's, and the padding between the bounds. */
  lemma PreparedComplete(before: Fields, config: HeartbeatConfig, random: RandomSource)
    requires Prepared(before, config, random).0.Pass?
    ensures var f := Prepared(before, config, random).1;
      && f.payload == Some(RandomBytes(random.payloadByte, config.payloadLength))
      && f.payloadLength == Some(config.payloadLength)
      && f.padding.Some?
      && config.minPaddingLength <= |f.padding.value| < config.maxPaddingLength
      && (forall i :: 0 <= i < |f.padding.value| ==> f.padding.value[i] == random.paddingByte(i))
  {
  }

  /** Preparation fails only when the payload length is negative or the
      padding cannot be generated. */
  lemma PreparedFailsIff(before: Fields, config: HeartbeatConfig, random: RandomSource)
    ensures Prepared(before, config, random).0.Fail? <==>
            (config.payloadLength < 0 || Padding(config, random).Failure?)
  {
  }

  /** A negative payload length stops preparation after the message type:
      the other fields keep what they held. */
  lemma NegativePayloadStopsEarly(before: Fields, config: HeartbeatConfig, random: RandomSource)
    requires config.payloadLength < 0
    ensures Prepared(before, config, random) ==
            (Fail(NegativeArraySizeException), before.(messageType := Some(HEARTBEAT_REQUEST)))
  {
  }

  /** Bounds the wrong way round are reported as a configuration error once
      the payload and its length have been set, and the padding stays as it
      was. */
  lemma InvertedBoundsKeepEarlierFields(before: Fields, config: HeartbeatConfig, random: RandomSource)
    requires config.payloadLength >= 0
    requires config.maxPaddingLength < config.minPaddingLength
    ensures var r := Prepared(before, config, random);
      && r.0 == Fail(ConfigurationException(PADDING_BOUNDS_MESSAGE))
      && r.1.payloadLength == Some(config.payloadLength)
      && r.1.padding == before.padding
  {
  }

  /** With non-negative lengths and a minimum below the maximum, preparation
      always completes, whatever the generator hands out. */
  lemma SaneConfigSucceeds(before: Fields, config: HeartbeatConfig, random: RandomSource)
    requires config.payloadLength >= 0
    requires 0 <= config.minPaddingLength < config.maxPaddingLength
    ensures Prepared(before, config, random).0.Pass?
  {
    assert PaddingLength(config, random.paddingDraw).Success?;
  }

  // ---------------------------------------------------------------------------
  // The objects
  // ---------------------------------------------------------------------------

  /** A heartbeat message; the byte arrays are held by content. */
  class HeartbeatMessage {
    var heartbeatMessageType: Option<byte>
    var payload: Option<seq<byte>>
    var payloadLength: Option<int>
    var padding: Option<seq<byte>>

    function Contents(): Fields
      reads this
    {
      Fields(heartbeatMessageType, payload, payloadLength, padding)
    }

    constructor ()
      ensures Contents() == Fields(None, None, None, None)
    {
      heartbeatMessageType, payload, payloadLength, padding := None, None, None, None;
    }
  }

  /** A fresh array of n bytes filled by nextBytes. */
  method FillRandom(n: nat, source: nat -> byte) returns (a: array<byte>)
    ensures fresh(a)
    ensures a[..] == RandomBytes(source, n)
  {
    a := new byte[n];
    var i := 0;
    while i < n
      invariant 0 <= i <= n
      invariant forall k :: 0 <= k < i ==> a[k] == source(k)
    {
      a[i] := source(i);
      i := i + 1;
    }
  }

  class HeartbeatMessagePreparator {
    const config: HeartbeatConfig
    const msg: HeartbeatMessage

    constructor (config: HeartbeatConfig, msg: HeartbeatMessage)
      ensures this.config == config && this.msg == msg
    {
      this.config := config;
      this.msg := msg;
    }

    method GeneratePayload(random: RandomSource) returns (r: Result<array<byte>, PreparationError>)
      ensures r.Success? ==> fresh(r.value)
      ensures Payload(config, random) == if r.Success? then Success(r.value[..]) else Failure(r.error)
    {
      if config.payloadLength < 0 {
        return Failure(NegativeArraySizeException);
      }
      var a := FillRandom(config.payloadLength, random.payloadByte);
      return Success(a);
    }

    method GeneratePadding(random: RandomSource) returns (r: Result<array<byte>, PreparationError>)
      ensures r.Success? ==> fresh(r.value)
      ensures Padding(config, random) == if r.Success? then Success(r.value[..]) else Failure(r.error)
    {
      var min: int := config.minPaddingLength;
      var max: int := config.maxPaddingLength;
      if max < min {
        return Failure(ConfigurationException(PADDING_BOUNDS_MESSAGE));
      }
      var bound := Int32(max - min);
      if bound <= 0 {
        return Failure(IllegalArgumentException);
      }
      var paddingLength := Int32(random.paddingDraw % bound + min);
      if paddingLength < 0 {
        return Failure(NegativeArraySizeException);
      }
      var a := FillRandom(paddingLength, random.paddingByte);
      return Success(a);
    }

    method PrepareProtocolMessageContents(random: RandomSource) returns (outcome: Outcome<PreparationError>)
      modifies msg
      ensures (outcome, msg.Contents()) == Prepared(old(msg.Contents()), config, random)
    {
      PrepareHeartbeatMessageType();
      outcome := PreparePayload(random);
      if outcome.Fail? {
        return;
      }
      PreparePayloadLength();
      outcome := PreparePadding(random);
    }

    method PrepareHeartbeatMessageType()
      modifies msg`heartbeatMessageType
      ensures msg.heartbeatMessageType == Some(HEARTBEAT_REQUEST)
    {
      msg.heartbeatMessageType := Some(HEARTBEAT_REQUEST);
    }

    method PreparePayload(random: RandomSource) returns (outcome: Outcome<PreparationError>)
      modifies msg`payload
      ensures match Payload(config, random)
              case Failure(e) => outcome == Fail(e) && msg.payload == old(msg.payload)
              case Success(p) => outcome == Pass && msg.payload == Some(p)
    {
      var r := GeneratePayload(random);
      if r.Failure? {
        return Fail(r.error);
      }
      msg.payload := Some(r.value[..]);
      return Pass;
    }

    /** The length of the payload already set. */
    method PreparePayloadLength()
      requires msg.payload.Some?
      modifies msg`payloadLength
      ensures msg.payloadLength == Some(|msg.payload.value|)
    {
      msg.payloadLength := Some(|msg.payload.value|);
    }

    method PreparePadding(random: RandomSource) returns (outcome: Outcome<PreparationError>)
      modifies msg`padding
      ensures match Padding(config, random)
              case Failure(e) => outcome == Fail(e) && msg.padding == old(msg.padding)
              case Success(q) => outcome == Pass && msg.padding == Some(q)
    {
      var r := GeneratePadding(random);
      if r.Failure? {
        return Fail(r.error);
      }
      msg.padding := Some(r.value[..]);
      return Pass;
    }
  }
}
