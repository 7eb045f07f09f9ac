/**
 * The shared chat pipeline: input validation, choice of the system prompt
 * (personality template, mood text, learned context), assembly of the
 * history sent to the model, the learning side effects of a message, and
 * the mood setting. The database, the model call and the prose of the
 * personality templates are outside the model: stored history, the model's
 * reply and the message count are inputs.
 */
module ChatHandler {
  import opened Wrappers
  import opened Text
  import opened Slices
  import opened Learning
  import OrderedMap

  const MaxMessageLength: nat := 10000
  const EmptyMessage := "Message cannot be empty"
  const MessageTooLong := "Message too long (max 10000 characters)"
  const ReplyTimedOut := "AI response timeout (60s)"
  const ServiceErrorPrefix := "AI service error: "
  const LearnedHeader := "\n\n**What You Know About This User:**\n"

  /** The moods `set_mood` accepts. */
  const ValidMoods: seq<string> := ["neutral", "happy", "curious", "thoughtful", "playful", "sexual", "explicit"]

  /** The mood line of the system prompt, per mood. */
  const MoodDescriptions: map<string, string> := map[
    "neutral" := "You're chill and relaxed",
    "happy" := "You're in a great mood and energetic",
    "curious" := "You're really interested and asking lots of questions",
    "thoughtful" := "You're being reflective and deep",
    "playful" := "You're being silly and having fun",
    "sexual" := "You're feeling flirty and confident",
    "explicit" := "You're open and unfiltered",
    "sarcastic" := "You're being sassy and sarcastic",
    "tired" := "You're kinda over it tbh"
  ]
  const UnknownMoodText := "You're vibing"

  /** The personality templates that exist; any other mode falls back to "chaotic". */
  const PersonalityModes: set<string> := {"chaotic", "neuro", "friendly", "professional", "flirty"}
  const DefaultMode := "chaotic"

  /**
   * The system prompt as chosen: which personality template, which mood
   * line, and the learned context appended after `LearnedHeader` if any.
   */
  datatype SystemPrompt = SystemPrompt(personality: string, moodText: string, userContext: Option<string>)

  /** A history entry's content: stored text, or the system prompt placed first. */
  datatype Content = Plain(text: string) | Prompt(prompt: SystemPrompt)

  datatype ChatMessage = ChatMessage(role: string, content: Content)

  /** The metadata returned next to the reply. */
  datatype Metadata = Metadata(messageCount: nat, hadScreenContext: bool, sessionId: string, platform: string)

  /** How the model call ended. */
  datatype Reply = Answered(text: string) | TimedOut | Errored(error: string)

  /** The two `ValueError`s raised before anything else happens. */
  function Validate(message: string): (r: Option<string>)
    ensures r.None? <==> !IsBlank(message) && |message| <= MaxMessageLength
    ensures IsBlank(message) ==> r == Some(EmptyMessage)
    ensures !IsBlank(message) && |message| > MaxMessageLength ==> r == Some(MessageTooLong)
  {
    if message == "" || Strip(message) == "" then Some(EmptyMessage)
    else if |message| > MaxMessageLength then Some(MessageTooLong)
    else None
  }

  /** `dict.get(key, default)` on the configuration. */
  function Setting(settings: map<string, string>, key: string, default: string): string
  {
    if key in settings then settings[key] else default
  }

  /** `if user_id:` — a given, non-zero id. */
  predicate HasUser(userId: Option<int>)
  {
    userId.Some? && userId.value != 0
  }

  /** `build_system_prompt`, given the learned context of the user (empty when there is none). */
  function BuildPrompt(settings: map<string, string>, userId: Option<int>, context: string): (r: SystemPrompt)
    ensures r.personality in PersonalityModes
    ensures var mode := Setting(settings, "personality_mode", DefaultMode);
      r.personality == if mode in PersonalityModes then mode else DefaultMode
    ensures var mood := Setting(settings, "mood", "playful");
      r.moodText == if mood in MoodDescriptions then MoodDescriptions[mood] else UnknownMoodText
    ensures r.userContext.Some? <==> HasUser(userId) && context != ""
    ensures r.userContext.Some? ==> r.userContext.value == context
  {
    var mode := Setting(settings, "personality_mode", DefaultMode);
    var mood := Setting(settings, "mood", "playful");
    SystemPrompt(
      if mode in PersonalityModes then mode else DefaultMode,
      if mood in MoodDescriptions then MoodDescriptions[mood] else UnknownMoodText,
      if HasUser(userId) && context != "" then Some(context) else None)
  }

  /** The learned context `build_system_prompt` asks for: only for a truthy user id. */
  function UserContext(ls: LearningSystem, userId: Option<int>): string
    reads ls
  {
    if HasUser(userId) then ls.GetConversationContext(userId.value) else ""
  }

  /** A user whose data was forgotten gets a prompt with no learned context. */
  lemma ForgottenUserGetsNoContext(settings: map<string, string>, profiles: map<UserId, Profile>,
                                   facts: map<UserId, seq<Fact>>, prefs: map<UserId, OrderedMap.OMap<string, string>>,
                                   topics: map<UserId, Topics>, stats: map<UserId, Stats>, user: UserId)
    ensures var context := ConversationContext(ProfileOf(profiles - {user}, user), FactsOf(facts - {user}, user),
                                               PrefsOf(prefs - {user}, user), TopicsOf(topics - {user}, user),
                                               StatsOf(stats - {user}, user));
      BuildPrompt(settings, Some(user), context).userContext == None
  {
    ForgottenContextIsEmpty(profiles, facts, prefs, topics, stats, user);
  }

  /**
   * The history sent to the model: the system prompt first, then the stored
   * messages that are not system messages in their order, then the new user
   * message.
   */
  predicate NotSystem(m: ChatMessage)
  {
    m.role != "system"
  }

  function AssembleHistory(stored: seq<ChatMessage>, prompt: SystemPrompt, message: string): (r: seq<ChatMessage>)
    ensures |r| >= 2
    ensures r[0] == ChatMessage("system", Prompt(prompt))
    ensures r[|r| - 1] == ChatMessage("user", Plain(message))
    ensures r[1..|r| - 1] == Filter(stored, NotSystem)
  {
    var kept := Filter(stored, NotSystem);
    var r := [ChatMessage("system", Prompt(prompt))] + kept + [ChatMessage("user", Plain(message))];
    assert r[1..|r| - 1] == kept;
    r
  }

  /** One more stored message reaches the model just before the new message, unless it is a
      system message, which is dropped: the kept messages arrive in their stored order. */
  lemma HistoryOfOneMore(stored: seq<ChatMessage>, prompt: SystemPrompt, message: string, m: ChatMessage)
    ensures var before, after := AssembleHistory(stored, prompt, message), AssembleHistory(stored + [m], prompt, message);
      after == if NotSystem(m) then before[..|before| - 1] + [m, before[|before| - 1]] else before
  {
    assert (stored + [m])[..|stored|] == stored;
    var kept := Filter(stored, NotSystem);
    var before := AssembleHistory(stored, prompt, message);
    assert before == [before[0]] + kept + [before[|before| - 1]];
    if NotSystem(m) {
      assert Filter(stored + [m], NotSystem) == kept + [m];
      assert before[..|before| - 1] == [before[0]] + kept;
    } else {
      assert Filter(stored + [m], NotSystem) == kept;
    }
  }

  /** Learning each extracted pair in turn, as the loop in `process_chat_message` does. */
  function LearnAll(facts: map<UserId, seq<Fact>>, enabled: bool, user: UserId, pairs: seq<(string, string)>): map<UserId, seq<Fact>>
    decreases |pairs|
  {
    if pairs == [] then facts
    else
      var last := pairs[|pairs| - 1];
      Learn(LearnAll(facts, enabled, user, pairs[..|pairs| - 1]), enabled, user, Fact(last.0, last.1))
  }

  /** With learning switched off, the loop learns nothing. */
  lemma {:induction false} LearnAllDisabled(facts: map<UserId, seq<Fact>>, user: UserId, pairs: seq<(string, string)>)
    ensures LearnAll(facts, false, user, pairs) == facts
    decreases |pairs|
  {
    if pairs != [] {
      LearnAllDisabled(facts, user, pairs[..|pairs| - 1]);
    }
  }

  /** The loop touches only the speaking user's facts. */
  lemma {:induction false} LearnAllOthers(facts: map<UserId, seq<Fact>>, enabled: bool, user: UserId,
                                          pairs: seq<(string, string)>, other: UserId)
    requires other != user
    ensures FactsOf(LearnAll(facts, enabled, user, pairs), other) == FactsOf(facts, other)
    decreases |pairs|
  {
    if pairs != [] {
      LearnAllOthers(facts, enabled, user, pairs[..|pairs| - 1], other);
    }
  }

  /** The reply and metadata, or the error raised, for each way the model call can end. */
  function Respond(reply: Reply, messageCount: Option<nat>, image: Option<string>, sessionId: string, platform: string): (r: Result<(string, Metadata), string>)
    ensures reply.Answered? <==> r.Success?
    ensures r.Success? ==> r.value.0 == reply.text
    ensures r.Success? ==> r.value.1.hadScreenContext == (image.Some? && image.value != "")
    ensures r.Success? ==> r.value.1.sessionId == sessionId && r.value.1.platform == platform
    ensures r.Success? ==> r.value.1.messageCount == if messageCount.Some? then messageCount.value else 0
    ensures reply.TimedOut? ==> r == Failure(ReplyTimedOut)
    ensures reply.Errored? ==> r == Failure(ServiceErrorPrefix + reply.error)
  {
    match reply
    case Answered(text) =>
      Success((text, Metadata(if messageCount.Some? then messageCount.value else 0,
                              image.Some? && image.value != "", sessionId, platform)))
    case TimedOut => Failure(ReplyTimedOut)
    case Errored(e) => Failure(ServiceErrorPrefix + e)
  }

  /** `nova_config`: the personality mode and mood, changed by `set_mood`. */
  class NovaConfig {
    var settings: map<string, string>

    constructor ()
      ensures settings == map["personality_mode" := DefaultMode, "mood" := "playful"]
    {
      settings := map["personality_mode" := DefaultMode, "mood" := "playful"];
    }

    /** `get_mood()`: the stored mood, "neutral" if none is stored. */
    function GetMood(): (r: string)
      reads this
      ensures "mood" in settings ==> r == settings["mood"]
      ensures "mood" !in settings ==> r == "neutral"
    {
      Setting(settings, "mood", "neutral")
    }

    /** `set_mood(mood)`: accepts one of the seven moods in any letter case and stores it lowercased. */
    method SetMood(mood: string) returns (ok: bool)
      modifies this
      ensures ok <==> Lower(mood) in ValidMoods
      ensures ok ==> settings == old(settings)["mood" := Lower(mood)] && GetMood() == Lower(mood)
      ensures !ok ==> settings == old(settings)
    {
      var m := Lower(mood);
      if m in ValidMoods {
        settings := settings["mood" := m];
        ok := true;
      } else {
        ok := false;
      }
    }
  }

  /** The learning step of `process_chat_message`: count the interaction, then try to learn each extracted pair. */
  method LearnFromMessage(ls: LearningSystem, user: UserId, message: string, platform: string)
    requires ls.Valid()
    modifies ls`facts, ls`stats
    ensures ls.Valid()
    ensures ls.stats == old(ls.stats)[user := Tracked(StatsOf(old(ls.stats), user), platform + "_chat")]
    ensures ls.facts == LearnAll(old(ls.facts), old(ls.learningEnabled), user, Extracted(message, Indicators))
    ensures ls.profiles == old(ls.profiles) && ls.preferences == old(ls.preferences) && ls.topics == old(ls.topics)
    ensures ls.patterns == old(ls.patterns) && ls.learningEnabled == old(ls.learningEnabled)
  {
    ls.TrackInteraction(user, platform + "_chat");
    var learnable := ExtractLearnableInfo(message);
    for i := 0 to |learnable|
      invariant ls.Valid()
      invariant ls.facts == LearnAll(old(ls.facts), old(ls.learningEnabled), user, learnable[..i])
      invariant ls.stats == old(ls.stats)[user := Tracked(StatsOf(old(ls.stats), user), platform + "_chat")]
      invariant ls.profiles == old(ls.profiles) && ls.preferences == old(ls.preferences) && ls.topics == old(ls.topics)
      invariant ls.patterns == old(ls.patterns) && ls.learningEnabled == old(ls.learningEnabled)
    {
      assert learnable[..i + 1][..i] == learnable[..i];
      var learned := ls.LearnFact(user, learnable[i].0, learnable[i].1);
    }
    assert learnable[..|learnable|] == learnable;
  }

  /**
   * `process_chat_message`: validates, assembles the history from the stored
   * messages, records the interaction and learns what the message reveals,
   * then turns the model's reply into the result. `context` is the learned
   * context the system prompt was built with, read before anything is learned.
   */
  method ProcessChatMessage(config: NovaConfig, ls: LearningSystem, message: string, sessionId: string,
                            userId: Option<int>, image: Option<string>, platform: string,
                            stored: seq<ChatMessage>, reply: Reply, messageCount: Option<nat>)
    returns (result: Result<(string, Metadata), string>, sent: seq<ChatMessage>, context: string)
    requires ls.Valid()
    modifies ls`facts, ls`stats
    ensures ls.Valid()
    ensures Validate(message).Some? ==>
      result == Failure(Validate(message).value) && sent == [] && ls.facts == old(ls.facts) && ls.stats == old(ls.stats)
    ensures Validate(message).None? ==> context == old(UserContext(ls, userId))
    ensures Validate(message).None? ==>
      && sent == AssembleHistory(stored, BuildPrompt(old(config.settings), userId, context), message)
      && result == Respond(reply, messageCount, image, sessionId, platform)
    ensures Validate(message).None? && HasUser(userId) ==>
      && ls.stats == old(ls.stats)[userId.value := Tracked(StatsOf(old(ls.stats), userId.value), platform + "_chat")]
      && ls.facts == LearnAll(old(ls.facts), old(ls.learningEnabled), userId.value, Extracted(message, Indicators))
    ensures Validate(message).None? && !HasUser(userId) ==> ls.facts == old(ls.facts) && ls.stats == old(ls.stats)
    ensures ls.profiles == old(ls.profiles) && ls.preferences == old(ls.preferences) && ls.topics == old(ls.topics)
    ensures ls.patterns == old(ls.patterns) && ls.learningEnabled == old(ls.learningEnabled)
  {
    var invalid := Validate(message);
    if invalid.Some? {
      return Failure(invalid.value), [], "";
    }
    context := UserContext(ls, userId);
    sent := AssembleHistory(stored, BuildPrompt(config.settings, userId, context), message);
    if HasUser(userId) {
      LearnFromMessage(ls, userId.value, message, platform);
    }
    result := Respond(reply, messageCount, image, sessionId, platform);
  }
}
