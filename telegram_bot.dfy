/** The Telegram notification channel: settings read once at construction,
    a gated fan-out of one message to every configured chat, and the alert
    and new-block messages built on top of it. Each HTTP POST is replaced by
    the outcome it came back with, given as input. */
module Telegram {
  import opened Wrappers
  import opened Text
  import opened Config

  /** One `requests.post` to the `sendMessage` endpoint: its JSON payload. */
  datatype Post = Post(chatId: string, text: string, parseMode: string)

  const DefaultFormat := "Markdown"
  const NewBlockKind := "newBlockFound"

  /** The emoji for each known alert kind. */
  const Emojis: map<string, string> := map[
    "poolOffline" := "\U{1F534}",
    "nodeDisconnected" := "\U{26A0}\U{FE0F}",
    "diskSpaceWarning" := "\U{1F4CA}",
    "diskSpaceCritical" := "\U{1F6A8}",
    "highCpuUsage" := "\U{1F525}",
    "highMemoryUsage" := "\U{1F4BE}",
    "noBlocksFound" := "\U{23F0}",
    "newBlockFound" := "\U{1F3AF}",
    "paymentFailed" := "\U{1F4B8}"]

  const WarningEmoji := "\U{26A0}\U{FE0F}"

  /** The emoji for `kind`, falling back to the warning sign. */
  function Emoji(kind: string): (e: string)
    ensures kind !in Emojis ==> e == WarningEmoji
    ensures kind in Emojis ==> e == Emojis[kind]
    ensures e != []
  {
    if kind in Emojis then Emojis[kind] else WarningEmoji
  }

  /** The heading of an alert: the kind with `_` turned into a space, in
      title case. */
  function AlertHeading(kind: string): (h: string)
    ensures |h| == |kind| && '_' !in h
    ensures forall i :: 0 <= i < |kind| ==>
      var c := if kind[i] == '_' then ' ' else kind[i];
      h[i] == TitleCase(c, i > 0 && IsCased(kind[i - 1]))
  {
    var k := ReplaceChar(kind, '_', ' ');
    var h := Title(k);
    assert forall i :: 0 <= i < |h| ==> h[i] != '_' by {
      TitleHasNoUnderscore(k, false);
    }
    assert forall i :: 0 <= i < |kind| ==> IsCased(k[i]) == IsCased(kind[i]);
    h
  }

  lemma {:induction false} TitleHasNoUnderscore(s: string, prevCased: bool)
    requires '_' !in s
    ensures '_' !in TitleFrom(s, prevCased)
    decreases |s|
  {
    if s != [] {
      assert '_' !in s[1..];
      TitleHasNoUnderscore(s[1..], IsCased(s[0]));
    }
  }

  /** The Markdown text of an alert, stamped with `time`. */
  function AlertText(kind: string, details: string, time: string): (t: string)
    ensures |t| == |Emoji(kind)| + |AlertHeading(kind)| + |details| + |time| + 24
    ensures var e := Emoji(kind); var h := AlertHeading(kind); var d := 1 + |e| + 9 + |h| + 3;
      && t[1..1 + |e|] == e
      && t[1 + |e| + 9..1 + |e| + 9 + |h|] == h
      && t[d..d + |details|] == details
  {
    AlertLayoutParts(Emoji(kind), AlertHeading(kind), details, time);
    AlertLayout(Emoji(kind), AlertHeading(kind), details, time)
  }

  function AlertLayout(emoji: string, heading: string, details: string, time: string): string {
    "\n" + emoji + " *ALERT: " + heading + "*\n\n" + details + "\n\n_Time: " + time + "_\n"
  }

  /** The text carries the emoji, the heading and the details, each at a
      fixed place. */
  lemma AlertLayoutParts(emoji: string, heading: string, details: string, time: string)
    ensures var t := AlertLayout(emoji, heading, details, time);
      var d := 1 + |emoji| + 9 + |heading| + 3;
      && t[1..1 + |emoji|] == emoji
      && t[1 + |emoji| + 9..1 + |emoji| + 9 + |heading|] == heading
      && t[d..d + |details|] == details
  {
  }

  const NewBlockOpening := "\n\U{1F3AF} *NEW BLOCK FOUND!*\n\n*Height:* "

  /** The Markdown text of a block-found notification: the opening, the
      height right after it, and the time at the end. */
  function NewBlockText(b: Block, time: string): (t: string)
    ensures |t| == |NewBlockOpening| + |b.height.GetOr("N/A")| + |b.reward.GetOr("0")| + |b.effort.GetOr("0")|
      + |b.miner.GetOr("Unknown")| + |time| + 50
    ensures t[..|NewBlockOpening|] == NewBlockOpening
    ensures var h := b.height.GetOr("N/A"); t[|NewBlockOpening|..|NewBlockOpening| + |h|] == h
    ensures t[|t| - |time| - 2..] == time + "_\n"
  {
    NewBlockOpening + b.height.GetOr("N/A")
    + "\n*Reward:* " + b.reward.GetOr("0") + " ERG\n*Effort:* " + b.effort.GetOr("0")
    + "%\n*Miner:* `" + b.miner.GetOr("Unknown") + "`\n\n_Time: " + time + "_\n"
  }

  class TelegramBot {
    const botToken: Option<string>
    const chatIds: seq<string>
    const enabled: bool
    const alerts: map<string, bool>
    const messageFormat: string

    /** Reads the telegram section of `file` (`None` when the file does not
        exist), defaulting every absent key. */
    constructor (file: Option<IntegrationsFile>)
      ensures var s := TelegramOf(file);
        && botToken == s.botToken
        && chatIds == s.chatIds.GetOr([])
        && enabled == s.enabled.GetOr(false)
        && alerts == s.alerts.GetOr(map[])
        && messageFormat == s.messageFormat.GetOr(DefaultFormat)
      ensures file.None? ==> !enabled && chatIds == [] && alerts == map[] && messageFormat == DefaultFormat
    {
      var s := TelegramOf(file);
      botToken := s.botToken;
      chatIds := s.chatIds.GetOr([]);
      enabled := s.enabled.GetOr(false);
      alerts := s.alerts.GetOr(map[]);
      messageFormat := s.messageFormat.GetOr(DefaultFormat);
    }

    /** The gate in front of every request: enabled, a bot token, and at least
        one chat id. */
    predicate Ready()
      ensures Ready() ==> enabled && botToken.Some? && |chatIds| >= 1
      ensures !enabled || botToken == None || botToken == Some("") || chatIds == [] ==> !Ready()
    {
      enabled && Truthy(botToken) && chatIds != []
    }

    /** Whether the allow-list lets `kind` through; a kind it does not
        mention is off. */
    predicate Accepts(kind: string)
      ensures Accepts(kind) ==> kind in alerts && alerts[kind]
      ensures kind !in alerts ==> !Accepts(kind)
    {
      Allowed(alerts, kind)
    }

    /** `parse_mode or self.message_format`. */
    function ParseMode(requested: Option<string>): (m: string)
      ensures Truthy(requested) ==> m == requested.value
      ensures !Truthy(requested) ==> m == messageFormat
    {
      if Truthy(requested) then requested.value else messageFormat
    }

    /** The posts `SendMessage` makes: one per chat id, in order, when the
        gate is open, and none otherwise. */
    function Posts(message: string, parseMode: Option<string>): (ps: seq<Post>)
      ensures |ps| == if Ready() then |chatIds| else 0
      ensures forall i :: 0 <= i < |ps| ==> ps[i] == Post(chatIds[i], message, ParseMode(parseMode))
    {
      if Ready() then seq(|chatIds|, i requires 0 <= i < |chatIds| => Post(chatIds[i], message, ParseMode(parseMode)))
      else []
    }

    /** Every post was answered with status 200. */
    predicate AllDelivered(responses: seq<PostOutcome>) {
      forall i :: 0 <= i < |responses| ==> responses[i] == Responded(200)
    }

    /** Sends `message` to every chat id; `responses[i]` is what the post to
        `chatIds[i]` came back with. A failed post does not stop the others. */
    method SendMessage(message: string, parseMode: Option<string>, responses: seq<PostOutcome>)
      returns (ok: bool, posts: seq<Post>)
      requires |responses| == |chatIds|
      ensures posts == Posts(message, parseMode)
      ensures ok <==> Ready() && AllDelivered(responses)
    {
      if !enabled || !Truthy(botToken) || chatIds == [] {
        return false, [];
      }
      var mode := ParseMode(parseMode);
      ok := true;
      posts := [];
      var i := 0;
      while i < |chatIds|
        invariant 0 <= i <= |chatIds|
        invariant posts == seq(i, j requires 0 <= j < i => Post(chatIds[j], message, mode))
        invariant ok <==> forall j :: 0 <= j < i ==> responses[j] == Responded(200)
      {
        posts := posts + [Post(chatIds[i], message, mode)];
        match responses[i] {
          case Responded(status) =>
            if status != 200 {
              ok := false;
            }
          case Raised =>
            ok := false;
        }
        i := i + 1;
      }
    }

    /** Sends an alert of `kind` unless the allow-list rejects it. */
    method SendAlert(kind: string, details: string, time: string, responses: seq<PostOutcome>)
      returns (ok: bool, posts: seq<Post>)
      requires |responses| == |chatIds|
      ensures !Accepts(kind) ==> !ok && posts == []
      ensures Accepts(kind) ==> posts == Posts(AlertText(kind, details, time), None)
      ensures ok <==> Accepts(kind) && Ready() && AllDelivered(responses)
    {
      if !Accepts(kind) {
        return false, [];
      }
      ok, posts := SendMessage(AlertText(kind, details, time), None, responses);
    }

    /** Sends a block-found notification if `newBlockFound` is allow-listed. */
    method SendNewBlock(block: Block, time: string, responses: seq<PostOutcome>)
      returns (ok: bool, posts: seq<Post>)
      requires |responses| == |chatIds|
      ensures !Accepts(NewBlockKind) ==> !ok && posts == []
      ensures Accepts(NewBlockKind) ==> posts == Posts(NewBlockText(block, time), None)
      ensures ok <==> Accepts(NewBlockKind) && Ready() && AllDelivered(responses)
    {
      if !Accepts(NewBlockKind) {
        return false, [];
      }
      ok, posts := SendMessage(NewBlockText(block, time), None, responses);
    }
  }

  /** In a run of letters only the first is upper-cased, so a camel-case
      kind such as `diskSpaceWarning` is headed `Diskspacewarning`. */
  lemma {:induction false} TitleOfLetters(s: string, prevCased: bool, i: nat)
    requires forall j :: 0 <= j < |s| ==> IsCased(s[j])
    requires i < |s|
    ensures TitleFrom(s, prevCased)[i] == if i == 0 && !prevCased then UpperChar(s[i]) else LowerChar(s[i])
    decreases |s|
  {
    if i > 0 {
      TitleOfLetters(s[1..], true, i - 1);
    }
  }
}
