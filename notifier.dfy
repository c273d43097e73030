/** The configuration of the bot and the messages it sends: the recipient id built
    from the configured phone number, the message text, and the shallow merge that
    `updateConfig` performs. */
module Notifier {
  import opened Values

  /** `this.config`. `friendPhone` is read from the environment and is `None` when the
      variable is unset (JavaScript `undefined`). */
  datatype Config = Config(friendPhone: Option<string>, message: string, sendEarlier: int)

  /** The object given to `updateConfig`: each key absent or present with a value. */
  datatype ConfigPatch = ConfigPatch(friendPhone: Field<Option<string>>, message: Field<string>, sendEarlier: Field<int>)

  /** The configuration the constructor builds: a lead of 20 minutes. */
  function DefaultConfig(friendPhone: Option<string>): (c: Config)
    ensures c.friendPhone == friendPhone && c.message == "Please do proxy"
    ensures c.sendEarlier == 20
  {
    Config(friendPhone, "Please do proxy", 20)
  }

  /** `{...config, ...patch}`. */
  function Merge(config: Config, patch: ConfigPatch): (merged: Config)
    ensures patch.friendPhone.Present? ==> merged.friendPhone == patch.friendPhone.value
    ensures patch.friendPhone.Absent? ==> merged.friendPhone == config.friendPhone
    ensures patch.message.Present? ==> merged.message == patch.message.value
    ensures patch.message.Absent? ==> merged.message == config.message
    ensures patch.sendEarlier.Present? ==> merged.sendEarlier == patch.sendEarlier.value
    ensures patch.sendEarlier.Absent? ==> merged.sendEarlier == config.sendEarlier
  {
    Config(patch.friendPhone.Over(config.friendPhone),
           patch.message.Over(config.message),
           patch.sendEarlier.Over(config.sendEarlier))
  }

  /** Merging an empty object changes nothing. */
  lemma MergeEmpty(config: Config)
    ensures Merge(config, ConfigPatch(Absent, Absent, Absent)) == config
  {
  }

  /** Merging the same object twice is the same as merging it once. */
  lemma MergeIdempotent(config: Config, patch: ConfigPatch)
    ensures Merge(Merge(config, patch), patch) == Merge(config, patch)
  {
  }

  /** The patch a merge of `first` then `second` amounts to: keys of `second` win. */
  function Then(first: ConfigPatch, second: ConfigPatch): ConfigPatch
  {
    ConfigPatch(if second.friendPhone.Present? then second.friendPhone else first.friendPhone,
                if second.message.Present? then second.message else first.message,
                if second.sendEarlier.Present? then second.sendEarlier else first.sendEarlier)
  }

  /** Two merges in a row are one merge of the combined object. */
  lemma MergeCompose(config: Config, first: ConfigPatch, second: ConfigPatch)
    ensures Merge(Merge(config, first), second) == Merge(config, Then(first, second))
  {
  }

  // ---------------------------------------------------------------------------
  // Recipient and message text
  // ---------------------------------------------------------------------------

  const ChatSuffix: string := "@c.us"

  /** What a template literal writes for the phone number: `undefined` when unset. */
  function PhoneText(phone: Option<string>): string
  {
    match phone
    case Some(p) => p
    case None => "undefined"
  }

  /** `${this.config.friendPhone}@c.us`. */
  function ChatId(phone: Option<string>): (id: string)
    ensures |id| >= |ChatSuffix| && id[|id| - |ChatSuffix|..] == ChatSuffix
  {
    PhoneText(phone) + ChatSuffix
  }

  /** The phone part of a chat id: the id without its suffix. */
  function RecipientOf(id: string): string
    requires |id| >= |ChatSuffix|
  {
    id[..|id| - |ChatSuffix|]
  }

  /** The chat id is the phone text followed by the suffix, and nothing else. */
  lemma ChatIdRoundTrip(phone: Option<string>)
    ensures RecipientOf(ChatId(phone)) == PhoneText(phone)
    ensures ChatId(phone) == RecipientOf(ChatId(phone)) + ChatSuffix
  {
  }

  /** Distinct phone numbers give distinct chat ids. */
  lemma ChatIdInjective(p: string, q: string)
    requires ChatId(Some(p)) == ChatId(Some(q))
    ensures p == q
  {
    ChatIdRoundTrip(Some(p));
    ChatIdRoundTrip(Some(q));
  }

  const TestText: string :=
    "This is a test message from the class notification bot. If you receive this, the bot is working correctly!"

  const Greeting: string := "Hey, class "

  /** `Hey, class ${className} at ${location} ending soon. ${this.config.message}`. */
  function Template(className: string, location: string, configured: string): (text: string)
    ensures |text| == |className| + |location| + |configured| + 29
    ensures text[..|Greeting| + |className|] == Greeting + className
    ensures text[|text| - |configured|..] == configured
    ensures text[|Greeting| + |className|..|text| - |configured|] == " at " + location + " ending soon. "
  {
    assert Greeting + className + " at " + location + " ending soon. " + configured
        == (Greeting + className) + (" at " + location + " ending soon. " + configured);
    Greeting + className + " at " + location + " ending soon. " + configured
  }

  /** `customMessage || template`: only a non-empty string is truthy. */
  function MessageText(className: string, location: string, custom: Option<string>, configured: string): (text: string)
    ensures text != []
    ensures custom.Some? && custom.value != [] ==> text == custom.value
    ensures custom.None? || custom.value == [] ==> text == Template(className, location, configured)
  {
    if custom.Some? && custom.value != "" then custom.value
    else Template(className, location, configured)
  }

  /** A message as handed to `client.sendMessage`. */
  datatype Message = Message(chatId: string, text: string)

  /** What a scheduled job does when it fires. */
  datatype Payload =
    | Notify(className: string, location: string, custom: Option<string>)  // sendWhatsAppMessage
    | TestReminder                                                         // sendTestMessage
    | DayRollover                                                          // clear, then schedule today

  /** `sendWhatsAppMessage(className, location, customMessage)` before the send. */
  function WhatsAppMessage(config: Config, className: string, location: string, custom: Option<string>): Message
  {
    Message(ChatId(config.friendPhone), MessageText(className, location, custom, config.message))
  }

  /** `sendTestMessage()` before the send. */
  function TestMessage(config: Config): Message
  {
    Message(ChatId(config.friendPhone), TestText)
  }

  /** The message a job sends when it fires, under the configuration of that moment. */
  function FiredMessage(config: Config, payload: Payload): (m: Option<Message>)
    ensures m.Some? <==> !payload.DayRollover?
    ensures m.Some? ==> m.value.chatId == ChatId(config.friendPhone)
    ensures payload.TestReminder? ==> m == Some(Message(ChatId(config.friendPhone), TestText))
    ensures payload.Notify? ==>
      m == Some(Message(ChatId(config.friendPhone),
                        MessageText(payload.className, payload.location, payload.custom, config.message)))
  {
    match payload
    case Notify(c, l, custom) => Some(WhatsAppMessage(config, c, l, custom))
    case TestReminder => Some(TestMessage(config))
    case DayRollover => None
  }

  /** A class reminder reads the configured text when it fires, so an update to the
      configuration after scheduling shows up in the message. */
  lemma FiredMessageUsesCurrentText(config: Config, className: string, location: string, text: string)
    ensures var m := FiredMessage(Merge(config, ConfigPatch(Absent, Present(text), Absent)),
                                  Notify(className, location, None));
      m.Some? && m.value.text == Template(className, location, text)
  {
  }
}
