/** What both notification channels share: the parsed
    `config/integrations.json` document (every key may be absent, which `None`
    stands for), the block data they announce, and the outcome of a POST. */
module Config {
  import opened Wrappers

  /** The `telegram` section. */
  datatype TelegramSection = TelegramSection(
    botToken: Option<string>,
    chatIds: Option<seq<string>>,
    enabled: Option<bool>,
    alerts: Option<map<string, bool>>,
    messageFormat: Option<string>)

  /** The `discord` section. */
  datatype DiscordSection = DiscordSection(
    webhookUrl: Option<string>,
    username: Option<string>,
    avatarUrl: Option<string>,
    enabled: Option<bool>,
    alerts: Option<map<string, bool>>)

  datatype IntegrationsFile = IntegrationsFile(telegram: Option<TelegramSection>, discord: Option<DiscordSection>)

  /** A section read as `{}`: every key absent. */
  const NoTelegram := TelegramSection(None, None, None, None, None)
  const NoDiscord := DiscordSection(None, None, None, None, None)

  /** The telegram section the bot reads: `{}` when the file does not exist
      (`file == None`) or has no `telegram` key. */
  function TelegramOf(file: Option<IntegrationsFile>): (s: TelegramSection)
    ensures file.None? ==> s == NoTelegram
    ensures file.Some? && file.value.telegram.None? ==> s == NoTelegram
    ensures file.Some? && file.value.telegram.Some? ==> s == file.value.telegram.value
  {
    match file
    case None => NoTelegram
    case Some(f) => f.telegram.GetOr(NoTelegram)
  }

  /** The discord section the webhook reads, with the same fallbacks. */
  function DiscordOf(file: Option<IntegrationsFile>): (s: DiscordSection)
    ensures file.None? ==> s == NoDiscord
    ensures file.Some? && file.value.discord.None? ==> s == NoDiscord
    ensures file.Some? && file.value.discord.Some? ==> s == file.value.discord.value
  {
    match file
    case None => NoDiscord
    case Some(f) => f.discord.GetOr(NoDiscord)
  }

  /** Python truthiness of an optional string: absent or empty is false. */
  predicate Truthy(s: Option<string>) {
    s.Some? && s.value != ""
  }

  /** `alerts.get(kind, False)`: a kind missing from the allow-list is off. */
  predicate Allowed(alerts: map<string, bool>, kind: string) {
    kind in alerts && alerts[kind]
  }

  /** The fields of a block-found notification, each already rendered the way
      Python's `str()` renders it; `None` for a key that is absent. */
  datatype Block = Block(height: Option<string>, reward: Option<string>, effort: Option<string>, miner: Option<string>)

  /** What an HTTP POST to a channel came back with: a status code, or an
      exception raised by the request. */
  datatype PostOutcome = Responded(status: int) | Raised
}
