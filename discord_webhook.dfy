/** The Discord notification channel: settings read once at construction,
    one gated webhook POST carrying a single embed, and the alert and
    new-block embeds built on top of it. The POST is replaced by the outcome
    it came back with, given as input. */
module Discord {
  import opened Wrappers
  import opened Text
  import opened Config

  datatype Field = Field(name: string, value: string, inline: bool)

  /** One embed; `fields` is `None` when the key is left out of the JSON. */
  datatype Embed = Embed(title: string, description: string, color: int, timestamp: string,
                         footer: string, fields: Option<seq<Field>>)

  /** The webhook's JSON payload; `avatarUrl` is `None` when the key is left out. */
  datatype Payload = Payload(username: string, embeds: seq<Embed>, avatarUrl: Option<string>)

  const DefaultUsername := "Pool Monitor"
  const Footer := "Ergo Mining Pool"
  const NewBlockKind := "newBlockFound"

  const Red := 0xFF0000
  const Orange := 0xFFAA00
  const Green := 0x00FF00
  const LightRed := 0xFF5555
  const Teal := 0x00FFAA

  const ColouredKinds := {"poolOffline", "diskSpaceCritical", "diskSpaceWarning", "highCpuUsage", "newBlockFound", "nodeDisconnected"}

  /** The embed colour of each alert kind; every other kind is teal. */
  function Colour(kind: string): (c: int)
    ensures kind == "poolOffline" || kind == "diskSpaceCritical" ==> c == Red
    ensures kind == "diskSpaceWarning" || kind == "highCpuUsage" ==> c == Orange
    ensures kind == "newBlockFound" ==> c == Green
    ensures kind == "nodeDisconnected" ==> c == LightRed
    ensures kind !in ColouredKinds ==> c == Teal
  {
    var colours := map[
      "poolOffline" := Red,
      "diskSpaceCritical" := Red,
      "diskSpaceWarning" := Orange,
      "newBlockFound" := Green,
      "highCpuUsage" := Orange,
      "nodeDisconnected" := LightRed];
    if kind in colours then colours[kind] else Teal
  }

  const WarningPrefix := "\U{26A0}\U{FE0F} "

  /** The embed title of an alert: a warning sign, then the kind with `_`
      turned into a space, upper-cased. */
  function AlertTitle(kind: string): (t: string)
    ensures |t| == |WarningPrefix| + |kind|
    ensures t[..|WarningPrefix|] == WarningPrefix
    ensures forall i :: |WarningPrefix| <= i < |t| ==> !IsLower(t[i]) && t[i] != '_'
    ensures forall i :: 0 <= i < |kind| ==>
      t[|WarningPrefix| + i] == UpperChar(if kind[i] == '_' then ' ' else kind[i])
  {
    var body := Upper(ReplaceChar(kind, '_', ' '));
    assert forall i :: 0 <= i < |body| ==> body[i] != '_';
    WarningPrefix + body
  }

  /** The four fields of a block-found embed; only the miner is not inline. */
  function NewBlockFields(b: Block): (fs: seq<Field>)
    ensures |fs| == 4
    ensures fs[0].name == "Height" && fs[1].name == "Reward" && fs[2].name == "Effort" && fs[3].name == "Miner"
    ensures forall i :: 0 <= i < 4 ==> (fs[i].inline <==> i < 3)
  {
    [ Field("Height", b.height.GetOr("N/A"), true),
      Field("Reward", b.reward.GetOr("0") + " ERG", true),
      Field("Effort", b.effort.GetOr("0") + "%", true),
      Field("Miner", "`" + b.miner.GetOr("Unknown") + "`", false) ]
  }

  class DiscordWebhook {
    const webhookUrl: Option<string>
    const username: string
    const avatarUrl: string
    const enabled: bool
    const alerts: map<string, bool>

    /** Reads the discord section of `file` (`None` when the file does not
        exist), defaulting every absent key. */
    constructor (file: Option<IntegrationsFile>)
      ensures var s := DiscordOf(file);
        && webhookUrl == s.webhookUrl
        && username == s.username.GetOr(DefaultUsername)
        && avatarUrl == s.avatarUrl.GetOr("")
        && enabled == s.enabled.GetOr(false)
        && alerts == s.alerts.GetOr(map[])
      ensures file.None? ==> !enabled && alerts == map[] && username == DefaultUsername
    {
      var s := DiscordOf(file);
      webhookUrl := s.webhookUrl;
      username := s.username.GetOr(DefaultUsername);
      avatarUrl := s.avatarUrl.GetOr("");
      enabled := s.enabled.GetOr(false);
      alerts := s.alerts.GetOr(map[]);
    }

    /** The gate in front of the request: enabled and a webhook URL. */
    predicate Ready()
      ensures Ready() ==> enabled && webhookUrl.Some?
      ensures !enabled || webhookUrl == None || webhookUrl == Some("") ==> !Ready()
    {
      enabled && Truthy(webhookUrl)
    }

    /** Whether the allow-list lets `kind` through; a kind it does not
        mention is off. */
    predicate Accepts(kind: string)
      ensures Accepts(kind) ==> kind in alerts && alerts[kind]
      ensures kind !in alerts ==> !Accepts(kind)
    {
      Allowed(alerts, kind)
    }

    /** The payload `SendEmbed` posts: the configured username, exactly one
        embed, its `fields` only when a non-empty list is given, and
        `avatar_url` only when one is configured. */
    function EmbedPayload(title: string, description: string, color: int, fields: Option<seq<Field>>, time: string)
      : (p: Payload)
      ensures p.username == username && |p.embeds| == 1
      ensures p.embeds[0].title == title && p.embeds[0].description == description
      ensures p.embeds[0].color == color && p.embeds[0].footer == Footer
      ensures p.embeds[0].fields.Some? <==> fields.Some? && fields.value != []
      ensures p.embeds[0].fields.Some? ==> p.embeds[0].fields == fields
      ensures p.avatarUrl.Some? <==> avatarUrl != ""
      ensures p.avatarUrl.Some? ==> p.avatarUrl.value == avatarUrl
    {
      var embed := Embed(title, description, color, time, Footer, None);
      var embed := if fields.Some? && fields.value != [] then embed.(fields := fields) else embed;
      var payload := Payload(username, [embed], None);
      if avatarUrl != "" then payload.(avatarUrl := Some(avatarUrl)) else payload
    }

    /** Posts one embed when the gate is open; success is exactly a 204
        answer, and any other status or an exception is a failure. */
    method SendEmbed(title: string, description: string, color: int, fields: Option<seq<Field>>,
                     time: string, response: PostOutcome)
      returns (ok: bool, posted: Option<Payload>)
      ensures posted == if Ready() then Some(EmbedPayload(title, description, color, fields, time)) else None
      ensures ok <==> Ready() && response == Responded(204)
    {
      if !enabled || !Truthy(webhookUrl) {
        return false, None;
      }
      var embed := Embed(title, description, color, time, Footer, None);
      if fields.Some? && fields.value != [] {
        embed := embed.(fields := fields);
      }
      var payload := Payload(username, [embed], None);
      if avatarUrl != "" {
        payload := payload.(avatarUrl := Some(avatarUrl));
      }
      posted := Some(payload);
      ok := response == Responded(204);
    }

    /** Sends an alert embed of `kind` unless the allow-list rejects it. */
    method SendAlert(kind: string, details: string, time: string, response: PostOutcome)
      returns (ok: bool, posted: Option<Payload>)
      ensures !Accepts(kind) ==> !ok && posted == None
      ensures Accepts(kind) && Ready() ==> posted == Some(EmbedPayload(AlertTitle(kind), details, Colour(kind), None, time))
      ensures ok <==> Accepts(kind) && Ready() && response == Responded(204)
      ensures posted.Some? <==> Accepts(kind) && Ready()
    {
      if !Accepts(kind) {
        return false, None;
      }
      ok, posted := SendEmbed(AlertTitle(kind), details, Colour(kind), None, time, response);
    }

    /** Sends a block-found embed with its four fields if `newBlockFound` is
        allow-listed. */
    method SendNewBlock(block: Block, time: string, response: PostOutcome)
      returns (ok: bool, posted: Option<Payload>)
      ensures !Accepts(NewBlockKind) ==> !ok && posted == None
      ensures Accepts(NewBlockKind) && Ready() ==> posted == Some(EmbedPayload(
        "\U{1F3AF} New Block Found!", "Your pool has found a new block!", Green, Some(NewBlockFields(block)), time))
      ensures ok <==> Accepts(NewBlockKind) && Ready() && response == Responded(204)
    {
      if !Accepts(NewBlockKind) {
        return false, None;
      }
      ok, posted := SendEmbed("\U{1F3AF} New Block Found!", "Your pool has found a new block!", Green,
                              Some(NewBlockFields(block)), time, response);
    }
  }
}
