/**
 * The message handling of the Discord bot that does not depend on Discord
 * itself: suppression of duplicate deliveries, the decision whether to answer
 * a message in a channel, the `!nova` mode command, the enable/disable
 * branches of `!autonomous`, and the splitting of a long reply into messages
 * that fit Discord's 2000-character limit. The clock, the bot's own user id
 * and everything the Discord client reports about a message are inputs.
 */
module DiscordBot {
  import opened Wrappers
  import opened Text
  import opened Slices
  import opened OrderedMap
  import Scheduler
  import AutonomousAgent

  /** Two deliveries of the same key closer than this (seconds) are one message. */
  const DuplicateWindow: real := 2.0
  /** Keys older than this (seconds) are forgotten. */
  const KeyLifetime: real := 300.0
  /** How many message ids are remembered. */
  const MaxProcessed: nat := 100
  /** How much of the content goes into the duplicate key. */
  const KeyContentLength: nat := 100
  /** Discord's limit on the length of one message. */
  const MessageLimit: nat := 2000
  /** The mode of a channel nobody has configured. */
  const DefaultMode := "smart"
  /** The modes `!nova` can store for a channel. */
  const StorableModes: seq<string> := ["always", "smart", "mention"]
  /** The moods `!nova <mood>` accepts. */
  const NovaMoods: seq<string> := ["happy", "curious", "playful", "thoughtful", "neutral", "sexual"]
  /** The error `range()` raises when `send_long_message` computes a zero chunk size. */
  const ZeroStep := "range() arg 3 must not be zero"

  /** What the handler reads of an incoming message. */
  datatype Message = Message(
    id: int,
    authorId: int,
    channelId: int,
    content: string,
    isDM: bool,
    mentionsBot: bool,            // the bot's user is among the direct mentions
    mentionEveryone: bool,        // the message pings @everyone or @here
    repliedTo: Option<int>)       // author of the resolved message this one replies to, if any

  // ---------------------------------------------------------------- duplicate suppression

  /** The key `author_id:content[:100]:channel_id` under which deliveries are compared. */
  function DedupKey(m: Message): string
  {
    IntToString(m.authorId) + ":" + Prefix(m.content, KeyContentLength) + ":" + IntToString(m.channelId)
  }

  /** Two deliveries that agree on author, channel and the first 100 characters share a key. */
  lemma SameKey(m1: Message, m2: Message)
    requires m1.authorId == m2.authorId && m1.channelId == m2.channelId
    requires Prefix(m1.content, KeyContentLength) == Prefix(m2.content, KeyContentLength)
    ensures DedupKey(m1) == DedupKey(m2)
  {
  }

  /** A delivery under `key` at `now` is a duplicate if the same key arrived less than 2 s earlier. */
  predicate IsDuplicate(times: map<string, real>, key: string, now: real)
  {
    key in times && now - times[key] < DuplicateWindow
  }

  /** The key table after a delivery that is not a duplicate: stamp the key, then drop stale keys. */
  function Refreshed(times: map<string, real>, key: string, now: real): (r: map<string, real>)
    ensures key in r && r[key] == now
    ensures forall h :: h in r ==> now - r[h] <= KeyLifetime
    ensures forall h :: h in r && h != key ==> h in times && r[h] == times[h]
    ensures forall h :: h in times && h != key && now - times[h] <= KeyLifetime ==> h in r
  {
    var stamped := times[key := now];
    map h | h in stamped && now - stamped[h] <= KeyLifetime :: stamped[h]
  }

  /** A delivery is first screened out as a duplicate, then as an id seen before, then as the bot's own. */
  datatype Screening = Duplicate | AlreadyProcessed | OwnMessage | Admitted

  /**
   * `list(processed_messages)[-100:]` as written: the set's contents in its
   * iteration order `listed`, trimmed once more than 100 ids are held.
   */
  function TrimAsWritten(listed: seq<int>): (r: set<int>)
    ensures forall x :: x in r ==> x in listed
    ensures |listed| <= MaxProcessed ==> forall x :: x in listed ==> x in r
    ensures |listed| > MaxProcessed ==> forall x :: x in r <==> x in listed[|listed| - MaxProcessed..]
  {
    if |listed| <= MaxProcessed then set x | x in listed
    else
      var kept := listed[|listed| - MaxProcessed..];
      set x | x in kept
  }

  /**
   * A set's iteration order is unrelated to insertion order, so the id just
   * added can be the one the trim drops: the next delivery of that id is then
   * not recognised.
   */
  lemma TrimAsWrittenCanDropNewest(listed: seq<int>, newest: int)
    requires |listed| > MaxProcessed && listed[0] == newest
    requires forall i, j :: 0 <= i < j < |listed| ==> listed[i] != listed[j]
    ensures newest !in TrimAsWritten(listed)
  {
    var kept := listed[|listed| - MaxProcessed..];
    forall x | x in kept ensures x != newest {
      var j :| 0 <= j < |kept| && kept[j] == x;
      assert listed[|listed| - MaxProcessed + j] == x;
    }
  }

  /**
   * Concretely: with ids 1..100 remembered, a message with id 0 arrives; CPython
   * lists a set of small integers in ascending order, so the trim keeps 1..100
   * and forgets 0 at once.
   */
  lemma TrimAsWrittenForgetsZero()
    ensures 0 !in TrimAsWritten(seq(101, i => i))
  {
    var listed := seq(101, (i: int) => i);
    TrimAsWrittenCanDropNewest(listed, 0);
  }

  /** The id log as evidently intended: insertion order, the newest 100 kept. */
  function Remember(log: seq<int>, id: int): (r: seq<int>)
    ensures |r| <= MaxProcessed && id in r && r[|r| - 1] == id
    ensures |log| < MaxProcessed ==> r == log + [id]
    ensures r == KeepLast(log + [id], MaxProcessed)
  {
    Push(log, id, MaxProcessed)
  }

  /** Remembering ids one at a time keeps exactly the newest 100 of them, oldest first. */
  function RememberAll(log: seq<int>, ids: seq<int>): seq<int>
    decreases |ids|
  {
    if ids == [] then log else RememberAll(Remember(log, ids[0]), ids[1..])
  }

  lemma RememberAllKeepsNewest(log: seq<int>, ids: seq<int>)
    requires |log| <= MaxProcessed
    ensures RememberAll(log, ids) == KeepLast(log + ids, MaxProcessed)
  {
    PushAllKeepsNewest(log, ids, MaxProcessed);
    RememberAllIsPushAll(log, ids);
  }

  lemma {:induction false} RememberAllIsPushAll(log: seq<int>, ids: seq<int>)
    ensures RememberAll(log, ids) == PushAll(log, ids, MaxProcessed)
    decreases |ids|
  {
    if ids != [] {
      RememberAllIsPushAll(Remember(log, ids[0]), ids[1..]);
    }
  }

  // ---------------------------------------------------------------- response gating

  /** How the gate in `on_message` ends for an admitted, non-command message. */
  datatype Decision =
    | Respond(reason: string)
    | Stop                      // mode "off": return at once
    | NoTrigger                 // nothing in the message asks for an answer
    | AskHistory                // smart mode, no direct trigger and no reply: history and model decide

  /** `bot.user.mentioned_in(message)`: a direct mention, or @everyone. */
  predicate MentionedIn(m: Message)
  {
    m.mentionsBot || m.mentionEveryone
  }

  predicate RepliesToBot(m: Message, botId: int)
  {
    m.repliedTo == Some(botId)
  }

  predicate NamesNova(m: Message)
  {
    Contains(Lower(m.content), "nova")
  }

  /** `channel_modes.get(channel_id, default_mode)`. */
  function ModeOf(modes: map<int, string>, channel: int): string
  {
    if channel in modes then modes[channel] else DefaultMode
  }

  /** The mention-mode chain as written: a reply to someone else ends it before the name test. */
  function MentionAsWritten(m: Message, botId: int): (r: Decision)
    ensures r.Respond? || r.NoTrigger?
    ensures m.repliedTo.Some? && m.repliedTo.value != botId && !m.isDM && !(m.mentionsBot && !m.mentionEveryone)
      ==> r == NoTrigger
  {
    if m.isDM then Respond("DM")
    else if m.mentionsBot && !m.mentionEveryone then Respond("Mentioned")
    else if m.repliedTo.Some? then
      (if m.repliedTo.value == botId then Respond("Reply to Nova") else NoTrigger)
    else if NamesNova(m) then Respond("Name mentioned")
    else NoTrigger
  }

  /** "hey nova" sent as a reply to another user gets no answer in mention mode. */
  lemma MentionAsWrittenIgnoresName()
    ensures var m := Message(1, 2, 3, "hey nova", false, false, false, Some(4));
      NamesNova(m) && MentionAsWritten(m, 5) == NoTrigger
  {
    var m := Message(1, 2, 3, "hey nova", false, false, false, Some(4));
    var l := Lower(m.content);
    assert l == "hey nova" by {
      assert forall i :: 0 <= i < |l| ==> l[i] == "hey nova"[i];
    }
    HeyNovaContainsNova();
  }

  lemma HeyNovaContainsNova()
    ensures Contains("hey nova", "nova")
  {
    assert MatchAt("hey nova", "nova", 4);
    ContainsAt("hey nova", "nova", 4);
  }

  /** The mention-mode chain as evidently intended: any of the four triggers answers. */
  function MentionTrigger(m: Message, botId: int): (r: Decision)
    ensures r.Respond? <==> m.isDM || (m.mentionsBot && !m.mentionEveryone) || RepliesToBot(m, botId) || NamesNova(m)
    ensures !r.Respond? ==> r == NoTrigger
  {
    if m.isDM then Respond("DM")
    else if m.mentionsBot && !m.mentionEveryone then Respond("Mentioned")
    else if RepliesToBot(m, botId) then Respond("Reply to Nova")
    else if NamesNova(m) then Respond("Name mentioned")
    else NoTrigger
  }

  /** The direct triggers of smart mode, tried before the channel history is read. A reply
      to someone else takes the reply branch, which answers nothing, so the history is read
      only for a message that is no reply at all. */
  function SmartTrigger(m: Message, botId: int): (r: Decision)
    ensures r.Respond? <==> m.isDM || MentionedIn(m) || NamesNova(m) || RepliesToBot(m, botId)
    ensures r == AskHistory <==> !m.isDM && !MentionedIn(m) && !NamesNova(m) && m.repliedTo.None?
    ensures r == NoTrigger <==>
      !m.isDM && !MentionedIn(m) && !NamesNova(m) && m.repliedTo.Some? && !RepliesToBot(m, botId)
    ensures r.Respond? || r.AskHistory? || r.NoTrigger?
  {
    if m.isDM then Respond("DM")
    else if MentionedIn(m) then Respond("@Mentioned")
    else if NamesNova(m) then Respond("Name mentioned")
    else if m.repliedTo.Some? then
      (if m.repliedTo.value == botId then Respond("Reply") else NoTrigger)
    else AskHistory
  }

  /** The gate of `on_message` in a channel with the given mode. */
  function Gate(mode: string, m: Message, autoRespondDms: bool, botId: int): (r: Decision)
    ensures m.isDM && autoRespondDms ==> r == Respond("DM (auto-respond)")
    ensures r.Stop? <==> !(m.isDM && autoRespondDms) && mode == "off"
    ensures mode == "always" ==> r.Respond?
    ensures mode == "mention" ==>
      (r.Respond? <==> m.isDM || (m.mentionsBot && !m.mentionEveryone) || RepliesToBot(m, botId) || NamesNova(m))
    ensures mode == "smart" ==>
      (r.Respond? <==> m.isDM || MentionedIn(m) || NamesNova(m) || RepliesToBot(m, botId))
    ensures r.AskHistory? <==>
      && !(m.isDM && autoRespondDms) && mode == "smart"
      && !m.isDM && !MentionedIn(m) && !NamesNova(m) && m.repliedTo.None?
    ensures !(m.isDM && autoRespondDms) && mode !in {"off", "always", "mention", "smart"} ==> r == NoTrigger
  {
    if m.isDM && autoRespondDms then Respond("DM (auto-respond)")
    else if mode == "off" then Stop
    else if mode == "always" then Respond("Always mode")
    else if mode == "mention" then MentionTrigger(m, botId)
    else if mode == "smart" then SmartTrigger(m, botId)
    else NoTrigger
  }

  /** Whatever mention mode answers, smart mode answers too, and always mode answers everything. */
  lemma ModesAreNested(m: Message, autoRespondDms: bool, botId: int)
    ensures Gate("mention", m, autoRespondDms, botId).Respond? ==> Gate("smart", m, autoRespondDms, botId).Respond?
    ensures Gate("smart", m, autoRespondDms, botId).Respond? ==> Gate("always", m, autoRespondDms, botId).Respond?
  {
  }

  // ---------------------------------------------------------------- the `!nova` command

  /** What `!nova <mode>` does, by its (lowercased) argument. */
  datatype ModeCommand =
    | ShowMode
    | ShowStatus
    | MoodHelp
    | SetMood(mood: string)
    | ShowThoughts
    | ShowAutonomy
    | ToggleFriends
    | ToggleDms
    | SetThinking(on: bool)
    | SetChannelMode(mode: string)
    | InvalidMode

  /** The branch of `nova_mode` an argument reaches, in the order the branches are tried. */
  function ParseMode(arg: Option<string>): (r: ModeCommand)
    ensures arg.None? || arg.value == "" ==> r == ShowMode
    ensures r.SetChannelMode? <==> arg.Some? && Lower(arg.value) in StorableModes
    ensures r.SetChannelMode? ==> r.mode == Lower(arg.value) && r.mode != "off"
    ensures r.SetThinking? <==> arg.Some? && Lower(arg.value) in ["on", "off"]
    ensures r.SetThinking? ==> (r.on <==> Lower(arg.value) == "on")
    ensures r.SetMood? <==> arg.Some? && Lower(arg.value) in NovaMoods
    ensures r.SetMood? ==> r.mood == Lower(arg.value)
    ensures r == InvalidMode <==> arg.Some? && arg.value != "" && Lower(arg.value) !in KnownArguments()
  {
    if arg.None? || arg.value == "" then ShowMode
    else
      var mode := Lower(arg.value);
      if mode == "status" then ShowStatus
      else if mode == "mood" then MoodHelp
      else if mode in NovaMoods then SetMood(mode)
      else if mode == "thoughts" then ShowThoughts
      else if mode == "auto" then ShowAutonomy
      else if mode == "autofriends" then ToggleFriends
      else if mode == "autodms" then ToggleDms
      else if mode == "on" then SetThinking(true)
      else if mode == "off" then SetThinking(false)
      else if mode !in ["always", "smart", "mention", "off"] then InvalidMode
      else SetChannelMode(mode)
  }

  /** Every argument `nova_mode` recognises. */
  function KnownArguments(): seq<string>
  {
    ["status", "mood", "thoughts", "auto", "autofriends", "autodms", "on", "off"] + NovaMoods + StorableModes
  }

  // ---------------------------------------------------------------- splitting long replies

  /** `"".join(parts)`. */
  function Concat(parts: seq<string>): string
  {
    if parts == [] then "" else parts[0] + Concat(parts[1..])
  }

  /** `[s[i:i+n] for i in range(0, len(s), n)]` for a positive `n`. */
  function Chunks(s: string, n: nat): seq<string>
    requires n > 0
    decreases |s|
  {
    if s == [] then []
    else if |s| <= n then [s]
    else [s[..n]] + Chunks(s[n..], n)
  }

  /** The chunks put back together are the original string. */
  lemma {:induction false} ChunksJoin(s: string, n: nat)
    requires n > 0
    ensures Concat(Chunks(s, n)) == s
    decreases |s|
  {
    if s != [] && |s| > n {
      var rest := Chunks(s[n..], n);
      ChunksJoin(s[n..], n);
      assert ([s[..n]] + rest)[1..] == rest;
      assert s[..n] + s[n..] == s;
    } else if s != [] {
      assert Concat([s]) == s + Concat([]);
    }
  }

  /** Every chunk is non-empty and at most `n` long; all but the last are exactly `n` long. */
  lemma {:induction false} ChunksBounded(s: string, n: nat)
    requires n > 0
    ensures forall i :: 0 <= i < |Chunks(s, n)| ==> 0 < |Chunks(s, n)[i]| <= n
    ensures forall i :: 0 <= i < |Chunks(s, n)| - 1 ==> |Chunks(s, n)[i]| == n
    decreases |s|
  {
    if s != [] && |s| > n {
      ChunksBounded(s[n..], n);
      var r := Chunks(s, n);
      assert r == [s[..n]] + Chunks(s[n..], n);
      forall i | 0 < i < |r| ensures r[i] == Chunks(s[n..], n)[i - 1] {
      }
    }
  }

  /** The `i`-th chunk is the slice starting at `i * n`. */
  lemma ChunkAt(s: string, n: nat, i: nat)
    requires n > 0 && i < |Chunks(s, n)|
    ensures i * n < |s|
    ensures Chunks(s, n)[i] == s[i * n..if (i + 1) * n <= |s| then (i + 1) * n else |s|]
  {
    ChunkAtOffset(s, n, i);
    OffsetIsProduct(i, n);
    OffsetIsProduct(i + 1, n);
  }

  /** `i * n`, counted up one chunk at a time. */
  function Offset(i: nat, n: nat): nat
  {
    if i == 0 then 0 else Offset(i - 1, n) + n
  }

  lemma {:induction false} OffsetIsProduct(i: nat, n: nat)
    ensures Offset(i, n) == i * n
  {
    if i > 0 {
      OffsetIsProduct(i - 1, n);
      assert (i - 1) * n + n == i * n;
    }
  }

  lemma {:induction false} ChunkAtOffset(s: string, n: nat, i: nat)
    requires n > 0 && i < |Chunks(s, n)|
    ensures Offset(i, n) < |s|
    ensures Chunks(s, n)[i] == s[Offset(i, n)..if Offset(i + 1, n) <= |s| then Offset(i + 1, n) else |s|]
    decreases |s|
  {
    if i > 0 {
      var rest := s[n..];
      assert Chunks(s, n) == [s[..n]] + Chunks(rest, n);
      assert Chunks(s, n)[i] == Chunks(rest, n)[i - 1];
      ChunkAtOffset(rest, n, i - 1);
      OffsetShift(i - 1, n);
      OffsetShift(i, n);
      var a := Offset(i - 1, n);
      var e := if Offset(i, n) <= |rest| then Offset(i, n) else |rest|;
      assert Chunks(rest, n)[i - 1] == rest[a..e];
      SliceOfSlice(s, n, a, e);
      assert n + e == if Offset(i + 1, n) <= |s| then Offset(i + 1, n) else |s|;
    } else {
      assert Offset(0, n) == 0;
      assert Offset(1, n) == n;
      if |s| > n {
        assert Chunks(s, n) == [s[..n]] + Chunks(s[n..], n);
        assert Chunks(s, n)[0] == s[..n];
      } else {
        assert Chunks(s, n) == [s];
      }
    }
  }

  lemma OffsetShift(i: nat, n: nat)
    ensures Offset(i + 1, n) == Offset(i, n) + n
  {
  }

  lemma SliceOfSlice(s: string, n: nat, a: nat, e: nat)
    requires n <= |s| && a <= e <= |s| - n
    ensures s[n..][a..e] == s[n + a..n + e]
  {
  }

  /** The first chunk carries the prefix; the others go out bare. */
  function Labelled(prefix: string, chunks: seq<string>): (r: seq<string>)
    ensures |r| == |chunks|
    ensures chunks != [] ==> r[0] == prefix + chunks[0] && r[1..] == chunks[1..]
  {
    if chunks == [] then [] else [prefix + chunks[0]] + chunks[1..]
  }

  /** The messages `send_long_message` sends, or the error it raises. */
  function Outgoing(content: string, prefix: string): (r: Result<seq<string>, string>)
    ensures IsBlank(content) ==> r == Success([])
    ensures !IsBlank(content) && |prefix| < MessageLimit ==>
      && r.Success? && r.value != []
      && Concat(r.value) == prefix + content
      && (forall i :: 0 <= i < |r.value| ==> |r.value[i]| <= MessageLimit)
      && (forall i :: 1 <= i < |r.value| ==> r.value[i] != "")
    ensures !IsBlank(content) && |prefix| + |content| <= MessageLimit ==> r == Success([prefix + content])
    ensures !IsBlank(content) && |prefix| == MessageLimit ==> r == Failure(ZeroStep)
    ensures !IsBlank(content) && |prefix| > MessageLimit ==> r == Success([])
  {
    if IsBlank(content) then Success([])
    else
      var max := MessageLimit as int - |prefix|;
      if |content| <= max then Success([prefix + content])
      else if max == 0 then Failure(ZeroStep)
      else if max < 0 then Success([])
      else
        var chunks := Chunks(content, max);
        ChunksJoin(content, max);
        ChunksBounded(content, max);
        var r := Labelled(prefix, chunks);
        assert Concat(r) == prefix + content by {
          assert r == [prefix + chunks[0]] + chunks[1..];
          assert ([prefix + chunks[0]] + chunks[1..])[1..] == chunks[1..];
          assert Concat(chunks) == chunks[0] + Concat(chunks[1..]);
        }
        Success(r)
  }

  /** `send_long_message`: sends the chunks in order, the prefix on the first only. */
  method SendLongMessage(content: string, prefix: string) returns (sent: seq<string>, error: Option<string>)
    ensures Outgoing(content, prefix) == if error.Some? then Failure(error.value) else Success(sent)
    ensures error.Some? ==> sent == []
  {
    sent, error := [], None;
    if IsBlank(content) {
      return;
    }
    var max := MessageLimit as int - |prefix|;
    if |content| <= max {
      sent := [prefix + content];
      return;
    }
    if max == 0 {
      error := Some(ZeroStep);
      return;
    }
    if max < 0 {
      return;
    }
    sent := SendChunks(prefix, Chunks(content, max));
  }

  /** The sending loop: one message per chunk, the prefix on the first. */
  method SendChunks(prefix: string, chunks: seq<string>) returns (sent: seq<string>)
    ensures sent == Labelled(prefix, chunks)
  {
    sent := [];
    for i := 0 to |chunks|
      invariant sent == Labelled(prefix, chunks[..i])
    {
      if i == 0 {
        sent := [prefix + chunks[0]];
        assert chunks[..1] == [chunks[0]];
      } else {
        sent := sent + [chunks[i]];
        assert chunks[..i + 1][1..] == chunks[..i][1..] + [chunks[i]];
      }
    }
    assert chunks[..|chunks|] == chunks;
  }

  // ---------------------------------------------------------------- the bot's module-level state

  /** The module-level dictionaries and settings `on_message` and the commands share. */
  class Bot {
    var recentTimes: map<string, real>
    var processed: seq<int>
    var channelModes: map<int, string>
    var thinkingAloud: map<int, bool>
    var mood: string
    var messageCount: nat
    var autoAcceptFriends: bool
    var autoRespondDms: bool

    ghost predicate Valid()
      reads this
    {
      && |processed| <= MaxProcessed
      && (forall c :: c in channelModes ==> channelModes[c] in StorableModes)
    }

    constructor ()
      ensures Valid()
      ensures recentTimes == map[] && processed == [] && channelModes == map[] && thinkingAloud == map[]
      ensures mood == "sexual" && messageCount == 0 && autoAcceptFriends && autoRespondDms
    {
      recentTimes, processed, channelModes, thinkingAloud := map[], [], map[], map[];
      mood, messageCount := "sexual", 0;
      autoAcceptFriends, autoRespondDms := true, true;
    }

    /**
     * The front of `on_message`: drop a delivery seen less than 2 s ago under
     * the same key (without restamping it), otherwise restamp and clean the
     * key table; then drop an id seen before, remember the id, and drop the
     * bot's own messages; count what is left.
     */
    method Screen(m: Message, now: real, botId: int) returns (v: Screening)
      requires Valid()
      modifies this`recentTimes, this`processed, this`messageCount
      ensures Valid()
      ensures v == Duplicate <==> IsDuplicate(old(recentTimes), DedupKey(m), now)
      ensures v == Duplicate ==> recentTimes == old(recentTimes) && processed == old(processed)
      ensures v != Duplicate ==> recentTimes == Refreshed(old(recentTimes), DedupKey(m), now)
      ensures v == AlreadyProcessed <==> v != Duplicate && m.id in old(processed)
      ensures v == AlreadyProcessed ==> processed == old(processed)
      ensures v == OwnMessage || v == Admitted ==> processed == Remember(old(processed), m.id)
      ensures v == OwnMessage <==> v != Duplicate && v != AlreadyProcessed && m.authorId == botId
      ensures messageCount == if v == Admitted then old(messageCount) + 1 else old(messageCount)
    {
      var key := DedupKey(m);
      if key in recentTimes && now - recentTimes[key] < DuplicateWindow {
        return Duplicate;
      }
      recentTimes := Refreshed(recentTimes, key, now);
      if m.id in processed {
        return AlreadyProcessed;
      }
      processed := Remember(processed, m.id);
      if m.authorId == botId {
        return OwnMessage;
      }
      messageCount := messageCount + 1;
      return Admitted;
    }

    /** The gate for an admitted message, in the mode of its channel. */
    function ShouldRespond(m: Message, botId: int): (r: Decision)
      reads this
      ensures Valid() ==> !r.Stop?
    {
      assert Valid() ==> ModeOf(channelModes, m.channelId) in StorableModes + [DefaultMode];
      Gate(ModeOf(channelModes, m.channelId), m, autoRespondDms, botId)
    }

    /** `nova_mode`: each argument changes only its own setting. */
    method NovaMode(channel: int, arg: Option<string>) returns (cmd: ModeCommand)
      requires Valid()
      modifies this
      ensures Valid()
      ensures cmd == ParseMode(arg)
      ensures cmd.SetChannelMode? ==> channelModes == old(channelModes)[channel := cmd.mode]
      ensures !cmd.SetChannelMode? ==> channelModes == old(channelModes)
      ensures cmd.SetThinking? ==> thinkingAloud == old(thinkingAloud)[channel := cmd.on]
      ensures !cmd.SetThinking? ==> thinkingAloud == old(thinkingAloud)
      ensures cmd.SetMood? ==> mood == cmd.mood
      ensures !cmd.SetMood? ==> mood == old(mood)
      ensures autoAcceptFriends == (if cmd == ToggleFriends then !old(autoAcceptFriends) else old(autoAcceptFriends))
      ensures autoRespondDms == (if cmd == ToggleDms then !old(autoRespondDms) else old(autoRespondDms))
      ensures recentTimes == old(recentTimes) && processed == old(processed) && messageCount == old(messageCount)
    {
      cmd := ParseMode(arg);
      match cmd {
        case SetMood(md) => mood := md;
        case ToggleFriends => autoAcceptFriends := !autoAcceptFriends;
        case ToggleDms => autoRespondDms := !autoRespondDms;
        case SetThinking(on) => thinkingAloud := thinkingAloud[channel := on];
        case SetChannelMode(md) => channelModes := channelModes[channel := md];
        case _ =>
      }
    }
  }

  /** Once `!nova` has run any number of times, no channel is in mode "off". */
  lemma NoChannelIsOff(modes: map<int, string>, channel: int)
    requires forall c :: c in modes ==> modes[c] in StorableModes
    ensures ModeOf(modes, channel) != "off"
  {
  }

  // ---------------------------------------------------------------- `!autonomous enable|disable`

  /** How the enable/disable branches of `autonomous_command` end. */
  datatype Toggle = Toggled(enabled: bool) | UnknownTask | OtherAction

  /** Which branch an action and task id reach; `OtherAction` is every branch outside this model. */
  function ToggleOf(tasks: OMap<Scheduler.TaskId, Scheduler.Task>, action: string, capability: Option<string>): (r: Toggle)
    ensures r != OtherAction <==> Lower(action) in ["enable", "disable"] && capability.Some? && capability.value != ""
    ensures r.Toggled? ==> HasKey(tasks, capability.value) && (r.enabled <==> Lower(action) == "enable")
    ensures r == UnknownTask ==> !HasKey(tasks, capability.value)
  {
    var a := Lower(action);
    if !(a in ["enable", "disable"] && capability.Some? && capability.value != "") then OtherAction
    else if HasKey(tasks, capability.value) then Toggled(a == "enable")
    else UnknownTask
  }

  /** `!autonomous enable|disable <id>` flips only that task's flag; an unknown id changes nothing. */
  method AutonomousToggle(agent: AutonomousAgent.Agent, action: string, capability: Option<string>) returns (r: Toggle)
    requires agent.Valid()
    modifies agent`tasks
    ensures agent.Valid()
    ensures r == ToggleOf(old(agent.tasks), action, capability)
    ensures r.Toggled? ==>
      agent.tasks == Put(old(agent.tasks), capability.value, Get(old(agent.tasks), capability.value).value.(enabled := r.enabled))
    ensures !r.Toggled? ==> agent.tasks == old(agent.tasks)
    ensures agent.breaker == old(agent.breaker) && agent.perf == old(agent.perf)
    ensures agent.actionHistory == old(agent.actionHistory) && agent.goals == old(agent.goals)
    ensures agent.completedGoals == old(agent.completedGoals) && agent.learningLog == old(agent.learningLog)
    ensures agent.running == old(agent.running) && agent.lastDecision == old(agent.lastDecision)
    ensures agent.optimizationEnabled == old(agent.optimizationEnabled)
  {
    r := ToggleOf(agent.tasks, action, capability);
    if r != OtherAction {
      var found := agent.SetTaskEnabled(capability.value, Lower(action) == "enable");
    }
  }
}
