/** The notification document (hook.go lines 309-350): the info embed, the
    "REQUEST PAYLOAD" embed, and either a "MESSAGE" embed or the message
    as a file attachment. */
module Document {
  import opened GoText
  import opened Levels
  import opened Fields

  /** One embed of the webhook document; the optional parts are the keys
      an embed may leave out. */
  datatype Embed = Embed(
    title: seq<byte>,
    description: Option<seq<byte>>,
    timestamp: Option<seq<byte>>,
    fields: Option<seq<Field>>,
    colour: int)

  /** Inline: the document alone, as JSON.  File: the document plus the
      raw message bytes as an attachment. */
  datatype Mode = Inline | File(content: seq<byte>)

  /** What the delivery routine would post. */
  datatype Plan = Plan(username: seq<byte>, embeds: seq<Embed>, mode: Mode)

  /** Messages longer than this many bytes go out as a file. */
  const MaxMessageLength := 500

  const Username := Lit("Golang")
  const PayloadTitle := Lit("REQUEST PAYLOAD")
  const MessageTitle := Lit("MESSAGE")

  predicate SendAsFile(message: seq<byte>)
  {
    |message| > MaxMessageLength
  }

  /** The info embed: the upper-cased level name, the error text and the
      formatted entry time. */
  function InfoEmbed(level: Level, errorMessage: seq<byte>, timestamp: seq<byte>): Embed
  {
    Embed(Title(level), Some(errorMessage), Some(timestamp), None, Colour(level))
  }

  function PayloadEmbed(fields: seq<Field>, colour: int): Embed
  {
    Embed(PayloadTitle, None, None, Some(fields), colour)
  }

  function MessageEmbed(message: seq<byte>, colour: int): Embed
  {
    Embed(MessageTitle, Some(Fence(message)), None, None, colour)
  }

  /** Reference definition of the document and the delivery mode. */
  function Expected(level: Level, errorMessage: seq<byte>, timestamp: seq<byte>,
                    fields: seq<Field>, message: seq<byte>): Plan
  {
    var base := [InfoEmbed(level, errorMessage, timestamp), PayloadEmbed(fields, Colour(level))];
    if SendAsFile(message) then Plan(Username, base, File(message))
    else Plan(Username, base + [MessageEmbed(message, Colour(level))], Inline)
  }

  /** The composer: two embeds, then the message embed appended unless the
      message goes out as a file. */
  method Compose(level: Level, errorMessage: seq<byte>, timestamp: seq<byte>,
                 fields: seq<Field>, message: seq<byte>) returns (plan: Plan)
    ensures plan == Expected(level, errorMessage, timestamp, fields, message)
  {
    var colour := Colour(level);
    var sendAsFile := |message| > MaxMessageLength;
    var embeds := [
      Embed(Title(level), Some(errorMessage), Some(timestamp), None, colour),
      Embed(PayloadTitle, None, None, Some(fields), colour)
    ];
    if !sendAsFile {
      embeds := embeds + [Embed(MessageTitle, Some(Fence(message)), None, None, colour)];
    }
    var mode := if sendAsFile then File(message) else Inline;
    plan := Plan(Username, embeds, mode);
  }

  /** Exactly one of the two ways to carry the message: up to 500 bytes a
      third embed titled "MESSAGE" holding the fenced message and no
      attachment; above 500 bytes two embeds and the raw message as the
      attachment. */
  lemma ExactlyOneCarrier(level: Level, errorMessage: seq<byte>, timestamp: seq<byte>,
                          fields: seq<Field>, message: seq<byte>)
    ensures var p := Expected(level, errorMessage, timestamp, fields, message);
      && (p.mode == Inline <==> |message| <= 500)
      && (p.mode == File(message) <==> |message| > 500)
      && (|p.embeds| == 3 <==> |message| <= 500)
      && (|p.embeds| == 2 <==> |message| > 500)
      && (|message| <= 500 ==>
            p.embeds[2].title == Lit("MESSAGE") && p.embeds[2].description == Some(Fence(message)))
  {
  }

  /** The first two embeds do not depend on the message: the info embed
      and the payload embed with the given fields. */
  lemma FixedEmbeds(level: Level, errorMessage: seq<byte>, timestamp: seq<byte>,
                    fields: seq<Field>, message: seq<byte>)
    ensures var p := Expected(level, errorMessage, timestamp, fields, message);
      && p.username == Lit("Golang")
      && p.embeds[0].title == Title(level)
      && p.embeds[0].description == Some(errorMessage)
      && p.embeds[0].timestamp == Some(timestamp)
      && p.embeds[1].title == Lit("REQUEST PAYLOAD")
      && p.embeds[1].fields == Some(fields)
  {
  }

  /** Every embed carries the colour of the level. */
  lemma UniformColour(level: Level, errorMessage: seq<byte>, timestamp: seq<byte>,
                      fields: seq<Field>, message: seq<byte>)
    ensures forall e :: e in Expected(level, errorMessage, timestamp, fields, message).embeds ==>
      e.colour == Colour(level)
  {
  }

  /** The message as the plan carries it: the attachment, or the text
      between the fences of the third embed. */
  function DeliveredMessage(p: Plan): Option<seq<byte>>
  {
    match p.mode
    case File(content) => Some(content)
    case Inline =>
      if |p.embeds| == 3 && p.embeds[2].description.Some? && |p.embeds[2].description.value| >= 7
      then Some(p.embeds[2].description.value[3..|p.embeds[2].description.value| - 4])
      else None
  }

  /** The plan carries the message unchanged, whichever way it carries
      it. */
  lemma MessageRecoverable(level: Level, errorMessage: seq<byte>, timestamp: seq<byte>,
                           fields: seq<Field>, message: seq<byte>)
    ensures DeliveredMessage(Expected(level, errorMessage, timestamp, fields, message)) == Some(message)
  {
    if !SendAsFile(message) {
      FenceUnwraps(message);
    }
  }
}
