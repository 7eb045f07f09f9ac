/**
 * The per-user knowledge store: facts learned about each user (deduplicated
 * case-insensitively, at most 100, oldest dropped first), preferences,
 * interaction counters, weighted topics of interest (at most 50, lightest
 * pruned), a profile, and the phrase extractor that proposes new facts.
 * Persistence to disk is not modelled: every map lives in memory.
 */
module Learning {
  import opened Wrappers
  import opened Text
  import opened Slices
  import opened OrderedMap

  type UserId = int

  /** A learned fact with its category (timestamp and confidence are not read back). */
  datatype Fact = Fact(fact: string, category: string)

  /** `interaction_stats[user]`: the message total and a count per interaction type. */
  datatype Stats = Stats(totalMessages: nat, interactionTypes: map<string, nat>)

  /** `topics_of_interest[user]`: lowercased topic to weight, in insertion order. */
  type Topics = OMap<string, real>

  /** `user_profiles[user]`: the keyword arguments passed to `update_profile`. */
  type Profile = map<string, string>

  const MaxFacts: nat := 100
  const MaxTopics: nat := 50
  const TopicCap: real := 10.0
  const ContextFacts: nat := 5
  const ContextTopics: nat := 5

  // ---------------------------------------------------------------- facts

  /** `[f['fact'].lower() for f in facts]`. */
  function LowerFacts(fs: seq<Fact>): (r: seq<string>)
    ensures |r| == |fs|
    ensures forall i :: 0 <= i < |fs| ==> r[i] == Lower(fs[i].fact)
  {
    seq(|fs|, i requires 0 <= i < |fs| => Lower(fs[i].fact))
  }

  /** The duplicate test of `learn_fact`: the fact is stored already, ignoring case. */
  predicate Known(fs: seq<Fact>, fact: string)
  {
    Lower(fact) in LowerFacts(fs)
  }

  /** No two stored facts are equal ignoring case. */
  ghost predicate FactsDistinct(fs: seq<Fact>)
  {
    forall i, j :: 0 <= i < j < |fs| ==> Lower(fs[i].fact) != Lower(fs[j].fact)
  }

  /** A user's fact list: `learned_facts.get(user, [])`. */
  function FactsOf(facts: map<UserId, seq<Fact>>, user: UserId): seq<Fact>
  {
    if user in facts then facts[user] else []
  }

  /** Appending a fact that is not known and trimming to the newest 100 keeps the list free of duplicates. */
  lemma AddFactKeepsDistinct(fs: seq<Fact>, f: Fact)
    requires FactsDistinct(fs) && !Known(fs, f.fact)
    ensures FactsDistinct(Push(fs, f, MaxFacts))
  {
    var all := fs + [f];
    assert FactsDistinct(all) by {
      forall i, j | 0 <= i < j < |all| ensures Lower(all[i].fact) != Lower(all[j].fact) {
        if j == |fs| {
          assert LowerFacts(fs)[i] == Lower(all[i].fact);
        }
      }
    }
    var r := Push(fs, f, MaxFacts);
    var d := |all| - |r|;
    forall i, j | 0 <= i < j < |r| ensures Lower(r[i].fact) != Lower(r[j].fact) {
      assert r[i] == all[d + i] && r[j] == all[d + j];
    }
  }

  /** Every user's fact list is bounded and free of duplicates. */
  ghost predicate FactMapValid(facts: map<UserId, seq<Fact>>)
  {
    forall u :: u in facts ==> |facts[u]| <= MaxFacts && FactsDistinct(facts[u])
  }

  /** The fact lists after `learn_fact(user, f.fact, f.category)` with learning switched on or off. */
  function Learn(facts: map<UserId, seq<Fact>>, enabled: bool, user: UserId, f: Fact): map<UserId, seq<Fact>>
  {
    if enabled && !Known(FactsOf(facts, user), f.fact) then facts[user := Push(FactsOf(facts, user), f, MaxFacts)]
    else facts
  }

  /** Storing a bounded, duplicate-free list for one user keeps the whole map valid. */
  lemma StoreKeepsValid(facts: map<UserId, seq<Fact>>, user: UserId, list: seq<Fact>)
    requires FactMapValid(facts) && |list| <= MaxFacts && FactsDistinct(list)
    ensures FactMapValid(facts[user := list])
  {
  }

  /** Learning a fact keeps every fact list bounded and free of duplicates. */
  lemma LearnKeepsValid(facts: map<UserId, seq<Fact>>, enabled: bool, user: UserId, f: Fact)
    requires FactMapValid(facts)
    ensures FactMapValid(Learn(facts, enabled, user, f))
  {
    var fs := FactsOf(facts, user);
    if enabled && !Known(fs, f.fact) {
      AddFactKeepsDistinct(fs, f);
      StoreKeepsValid(facts, user, Push(fs, f, MaxFacts));
    }
  }

  /** Once learned, a fact (in any letter case) counts as known, so learning it again is refused. */
  lemma LearnedFactIsKnown(fs: seq<Fact>, f: Fact, again: string)
    requires Lower(again) == Lower(f.fact)
    ensures Known(Push(fs, f, MaxFacts), again)
  {
    var r := Push(fs, f, MaxFacts);
    assert LowerFacts(r)[|r| - 1] == Lower(again);
  }

  /** `[f['fact'] for f in facts]`. */
  function FactTexts(fs: seq<Fact>): (r: seq<string>)
    ensures |r| == |fs|
    ensures forall i :: 0 <= i < |fs| ==> r[i] == fs[i].fact
  {
    seq(|fs|, i requires 0 <= i < |fs| => fs[i].fact)
  }

  /** `category` as `get_facts` reads it: `None` and the empty string both mean "every category". */
  predicate Truthy(category: Option<string>)
  {
    category.Some? && category.value != ""
  }

  /** The body of `get_facts` on one user's list. */
  function SelectFacts(fs: seq<Fact>, category: Option<string>): (r: seq<string>)
    ensures |r| <= |fs|
    ensures !Truthy(category) ==> r == FactTexts(fs)
    ensures forall i :: 0 <= i < |r| ==>
      exists j :: 0 <= j < |fs| && fs[j].fact == r[i] && (Truthy(category) ==> fs[j].category == category.value)
  {
    if Truthy(category) then
      var kept := Filter(fs, (f: Fact) => f.category == category.value);
      var r := FactTexts(kept);
      assert forall i :: 0 <= i < |r| ==> kept[i] in fs && r[i] == kept[i].fact;
      r
    else
      var r := FactTexts(fs);
      assert forall i :: 0 <= i < |r| ==> r[i] == fs[i].fact;
      r
  }

  /** Insertion order: a newly appended fact shows up last, and only under its own category. */
  lemma SelectFactsAppend(fs: seq<Fact>, f: Fact, category: Option<string>)
    ensures SelectFacts(fs + [f], category) ==
      SelectFacts(fs, category) + (if !Truthy(category) || f.category == category.value then [f.fact] else [])
  {
    var all := fs + [f];
    assert all[..|all| - 1] == fs;
    if !Truthy(category) {
      assert FactTexts(all) == FactTexts(fs) + [f.fact];
    } else {
      var p := (g: Fact) => g.category == category.value;
      var kept := Filter(fs, p);
      if p(f) {
        assert Filter(all, p) == kept + [f];
        assert FactTexts(kept + [f]) == FactTexts(kept) + [f.fact];
      } else {
        assert Filter(all, p) == kept;
      }
    }
  }

  // ---------------------------------------------------------------- preferences and profile

  /** `preferences[user]`, empty when the user has none. */
  function PrefsOf(prefs: map<UserId, OMap<string, string>>, user: UserId): OMap<string, string>
  {
    if user in prefs then prefs[user] else []
  }

  /** `get_preference(user, key, default)`. */
  function Preference(prefs: map<UserId, OMap<string, string>>, user: UserId, key: string, default: Option<string>): (r: Option<string>)
    ensures user !in prefs ==> r == default
    ensures user in prefs && !HasKey(prefs[user], key) ==> r == default
  {
    if user !in prefs then default
    else
      var v := Get(prefs[user], key);
      if v.Some? then v else default
  }

  /** `set_preference` followed by `get_preference` on the same key yields the value set; other keys and users are unaffected. */
  lemma PreferenceAfterSet(prefs: map<UserId, OMap<string, string>>, user: UserId, key: string, value: string,
                           user': UserId, key': string, default: Option<string>)
    requires Distinct(PrefsOf(prefs, user))
    ensures var after := prefs[user := Put(PrefsOf(prefs, user), key, value)];
      Preference(after, user', key', default) ==
        if user' == user && key' == key then Some(value) else Preference(prefs, user', key', default)
  {
    PutGet(PrefsOf(prefs, user), key, value, key');
  }

  /** `user_profiles.get(user, {})`. */
  function ProfileOf(profiles: map<UserId, Profile>, user: UserId): Profile
  {
    if user in profiles then profiles[user] else map[]
  }

  // ---------------------------------------------------------------- interaction counters

  function StatsOf(stats: map<UserId, Stats>, user: UserId): Stats
  {
    if user in stats then stats[user] else Stats(0, map[])
  }

  /** How often this interaction type was seen (0 when never). */
  function CountOf(st: Stats, kind: string): nat
  {
    if kind in st.interactionTypes then st.interactionTypes[kind] else 0
  }

  /** What `track_interaction` does to one user's counters. */
  function Tracked(st: Stats, kind: string): (r: Stats)
    ensures r.totalMessages == st.totalMessages + 1
    ensures CountOf(r, kind) == CountOf(st, kind) + 1
    ensures forall k :: k != kind ==> CountOf(r, k) == CountOf(st, k)
  {
    Stats(st.totalMessages + 1, st.interactionTypes[kind := CountOf(st, kind) + 1])
  }

  // ---------------------------------------------------------------- topics

  function TopicsOf(topics: map<UserId, Topics>, user: UserId): Topics
  {
    if user in topics then topics[user] else []
  }

  /** Heaviest first. */
  ghost predicate SortedDesc(s: Topics)
  {
    forall i, j :: 0 <= i < j < |s| ==> s[i].1 >= s[j].1
  }

  /** Every key is in lower case. */
  ghost predicate LowerKeys(s: Topics)
  {
    forall p :: p in s ==> Lower(p.0) == p.0
  }

  /** What a user's topic map always satisfies: at most 50 distinct lowercased topics. */
  ghost predicate TopicsValid(s: Topics)
  {
    |s| <= MaxTopics && Distinct(s) && LowerKeys(s)
  }

  /** Where `x` goes in a list sorted heaviest first: after the leading entries at least as heavy. */
  function InsertPos(s: Topics, x: (string, real)): (k: nat)
    ensures k <= |s|
    ensures forall i :: 0 <= i < k ==> s[i].1 >= x.1
    ensures k < |s| ==> s[k].1 < x.1
  {
    if s == [] || s[0].1 < x.1 then 0 else 1 + InsertPos(s[1..], x)
  }

  /** Places `x` after every leading entry at least as heavy, so equal weights keep their order. */
  function Insert(s: Topics, x: (string, real)): (r: Topics)
    ensures |r| == |s| + 1
    ensures multiset(r) == multiset(s) + multiset{x}
  {
    var k := InsertPos(s, x);
    assert s == s[..k] + s[k..];
    s[..k] + [x] + s[k..]
  }

  /** The entry at position `i` after inserting `x`: the old entries shifted by one from the insertion point on. */
  lemma InsertIndex(s: Topics, x: (string, real), i: nat)
    requires i <= |s|
    ensures var k := InsertPos(s, x);
      Insert(s, x)[i] == if i < k then s[i] else if i == k then x else s[i - 1]
  {
  }

  lemma InsertSorted(s: Topics, x: (string, real))
    requires SortedDesc(s)
    ensures SortedDesc(Insert(s, x))
  {
    var r := Insert(s, x);
    forall i, j | 0 <= i < j < |r| ensures r[i].1 >= r[j].1 {
      InsertIndex(s, x, i);
      InsertIndex(s, x, j);
    }
  }

  lemma InsertDistinct(s: Topics, x: (string, real))
    requires Distinct(s) && !HasKey(s, x.0)
    ensures Distinct(Insert(s, x))
  {
    var r := Insert(s, x);
    forall i, j | 0 <= i < j < |r| ensures r[i].0 != r[j].0 {
      InsertIndex(s, x, i);
      InsertIndex(s, x, j);
    }
  }

  /** `sorted(topics.items(), key=weight, reverse=True)`: a stable insertion sort, heaviest first. */
  function SortDesc(s: Topics): (r: Topics)
    ensures |r| == |s|
    ensures multiset(r) == multiset(s)
    ensures SortedDesc(r)
    decreases |s|
  {
    if s == [] then []
    else
      var init := s[..|s| - 1];
      var x := s[|s| - 1];
      assert s == init + [x];
      var t := SortDesc(init);
      InsertSorted(t, x);
      Insert(t, x)
  }

  /** Sorting keeps the keys distinct. */
  lemma {:induction false} SortDescDistinct(s: Topics)
    requires Distinct(s)
    ensures Distinct(SortDesc(s))
    decreases |s|
  {
    if s != [] {
      var init := s[..|s| - 1];
      var x := s[|s| - 1];
      assert s == init + [x];
      var t := SortDesc(init);
      SortDescDistinct(init);
      forall i | 0 <= i < |t| ensures t[i].0 != x.0 {
        assert t[i] in multiset(init);
        var j :| 0 <= j < |init| && init[j] == t[i];
        assert s[j] == init[j];
      }
      InsertDistinct(t, x);
    }
  }

  /** An entry is in the sorted list exactly when it is in the original. */
  lemma SortDescMembers(s: Topics, p: (string, real))
    ensures p in SortDesc(s) <==> p in s
  {
    assert p in multiset(SortDesc(s)) <==> p in multiset(s);
  }

  /** The weight `add_topic_interest` stores: an existing topic grows by half the weight, capped at 10. */
  function Reinforced(current: real, weight: real): (r: real)
    ensures r <= TopicCap
    ensures current + weight * 0.5 <= TopicCap ==> r == current + weight * 0.5
  {
    if current + weight * 0.5 <= TopicCap then current + weight * 0.5 else TopicCap
  }

  /** The topic map before pruning. */
  function Bumped(m: Topics, topic: string, weight: real): (r: Topics)
    ensures Distinct(m) ==> Distinct(r)
    ensures HasKey(m, topic) ==> |r| == |m|
    ensures !HasKey(m, topic) ==> |r| == |m| + 1
  {
    var cur := Get(m, topic);
    if cur.Some? then Put(m, topic, Reinforced(cur.value, weight)) else Put(m, topic, weight)
  }

  /** `topics_of_interest[user]` after `add_topic_interest(user, topic, weight)`. */
  function WithInterest(m: Topics, topic: string, weight: real): (r: Topics)
    ensures TopicsValid(m) ==> TopicsValid(r)
  {
    var t := Lower(topic);
    var b := Bumped(m, t, weight);
    if |b| > MaxTopics then
      var r := SortDesc(b)[..MaxTopics];
      assert TopicsValid(m) ==> Distinct(r) by {
        if TopicsValid(m) {
          SortDescDistinct(b);
        }
      }
      assert TopicsValid(m) ==> LowerKeys(r) by {
        if TopicsValid(m) {
          LowerIdempotent(topic);
          BumpedKeys(m, t, weight);
          forall p | p in r ensures Lower(p.0) == p.0 {
            SortDescMembers(b, p);
          }
        }
      }
      r
    else
      assert TopicsValid(m) ==> LowerKeys(b) by {
        if TopicsValid(m) {
          LowerIdempotent(topic);
          BumpedKeys(m, t, weight);
        }
      }
      b
  }

  lemma BumpedKeys(m: Topics, topic: string, weight: real)
    requires LowerKeys(m) && Lower(topic) == topic
    ensures LowerKeys(Bumped(m, topic, weight))
  {
    var b := Bumped(m, topic, weight);
    forall p | p in b ensures Lower(p.0) == p.0 {
      var i :| 0 <= i < |b| && b[i] == p;
      if i < |m| && m[i].0 != topic {
        assert m[i] in m;
      }
    }
  }

  /** The topic rules below the cap: the lowercased topic gets `weight` if new, else the capped reinforcement; other topics keep their weight. */
  lemma InterestBelowCap(m: Topics, topic: string, weight: real, other: string)
    requires TopicsValid(m)
    requires |m| < MaxTopics || HasKey(m, Lower(topic))
    ensures var r := WithInterest(m, topic, weight);
      var t := Lower(topic);
      && Get(r, t) == Some(if HasKey(m, t) then Reinforced(Get(m, t).value, weight) else weight)
      && (other != t ==> Get(r, other) == Get(m, other))
  {
    var t := Lower(topic);
    var cur := Get(m, t);
    if cur.Some? {
      PutGet(m, t, Reinforced(cur.value, weight), other);
      PutGet(m, t, Reinforced(cur.value, weight), t);
    } else {
      PutGet(m, t, weight, other);
      PutGet(m, t, weight, t);
    }
  }

  /** Above the cap exactly the 50 heaviest survive: the kept and the dropped entries together are the whole map, and nothing kept is lighter than anything dropped. */
  lemma InterestAboveCap(m: Topics, topic: string, weight: real)
    requires TopicsValid(m)
    requires |m| == MaxTopics && !HasKey(m, Lower(topic))
    ensures var b := Bumped(m, Lower(topic), weight);
      var r := WithInterest(m, topic, weight);
      var dropped := SortDesc(b)[MaxTopics..];
      && |r| == MaxTopics && |dropped| == 1
      && multiset(r) + multiset(dropped) == multiset(b)
      && forall i, j :: 0 <= i < |r| && 0 <= j < |dropped| ==> r[i].1 >= dropped[j].1
  {
    var b := Bumped(m, Lower(topic), weight);
    var s := SortDesc(b);
    assert s == s[..MaxTopics] + s[MaxTopics..];
    forall i, j | 0 <= i < MaxTopics && 0 <= j < |s| - MaxTopics ensures s[..MaxTopics][i].1 >= s[MaxTopics..][j].1 {
      assert s[MaxTopics..][j] == s[MaxTopics + j];
    }
  }

  /** `get_top_topics(user, limit)` on one user's map: Python's `[:limit]` of the sorted items. */
  function TopTopics(m: Topics, limit: int): (r: Topics)
    ensures limit >= 0 ==> |r| == if limit <= |m| then limit else |m|
    ensures limit < 0 ==> |r| == if -limit <= |m| then |m| + limit else 0
    ensures r == SortDesc(m)[..|r|]
    ensures SortedDesc(r)
    ensures forall p :: p in r ==> p in m
    ensures forall i, p :: 0 <= i < |r| && p in m && p !in r ==> r[i].1 >= p.1
  {
    var s := SortDesc(m);
    var r := SliceTo(s, limit);
    forall p | p in r ensures p in m {
      SortDescMembers(m, p);
    }
    forall i, p | 0 <= i < |r| && p in m && p !in r ensures r[i].1 >= p.1 {
      SortDescMembers(m, p);
      var j :| 0 <= j < |s| && s[j] == p;
    }
    r
  }

  // ---------------------------------------------------------------- conversation context

  /** `", ".join(f"{k}: {v}" ...)` over the preferences other than the key 'internal'. */
  function PrefEntries(prefs: OMap<string, string>): (r: seq<string>)
    ensures forall i :: 0 <= i < |r| ==> r[i] != ""
    ensures r == [] <==> forall i :: 0 <= i < |prefs| ==> prefs[i].0 == "internal"
    decreases |prefs|
  {
    if prefs == [] then []
    else
      var rest := PrefEntries(prefs[1..]);
      assert forall i :: 1 <= i < |prefs| ==> prefs[i] == prefs[1..][i - 1];
      if prefs[0].0 == "internal" then rest
      else [prefs[0].0 + ": " + prefs[0].1] + rest
  }

  function Bullets(facts: seq<string>): (r: seq<string>)
    ensures |r| == |facts|
    ensures forall i :: 0 <= i < |facts| ==> r[i] == "- " + facts[i]
  {
    seq(|facts|, i requires 0 <= i < |facts| => "- " + facts[i])
  }

  /** `User's name: …` when the profile has a non-empty 'name'. */
  function NamePart(profile: Profile): (r: seq<string>)
    ensures r != [] ==> r[0] != ""
    ensures r == [] <==> !("name" in profile && profile["name"] != "")
  {
    if "name" in profile && profile["name"] != "" then ["User's name: " + profile["name"]] else []
  }

  /** A heading and the last five facts as bullets, when there are facts. */
  function FactsPart(facts: seq<Fact>): (r: seq<string>)
    ensures r != [] ==> r[0] != ""
    ensures r == [] <==> facts == []
    ensures |r| <= 1 + ContextFacts
    ensures forall f :: f in KeepLast(FactTexts(facts), ContextFacts) ==> ("- " + f) in r
  {
    var texts := FactTexts(facts);
    if texts == [] then []
    else
      var recent := KeepLast(texts, ContextFacts);
      var r := ["What I know about them:"] + Bullets(recent);
      assert forall f :: f in recent ==> ("- " + f) in r by {
        forall f | f in recent ensures ("- " + f) in r {
          var i :| 0 <= i < |recent| && recent[i] == f;
          assert r[i + 1] == "- " + f;
        }
      }
      r
  }

  /** `Preferences: …` when some preference other than 'internal' exists. */
  function PrefsPart(prefs: OMap<string, string>): (r: seq<string>)
    ensures r != [] ==> r[0] != ""
    ensures r == [] <==> PrefEntries(prefs) == []
  {
    var entries := if prefs != [] then PrefEntries(prefs) else [];
    if entries != [] then ["Preferences: " + Join(", ", entries)] else []
  }

  /** `Interested in: …` naming the five heaviest topics, when there are topics. */
  function TopicsPart(topics: Topics): (r: seq<string>)
    ensures r != [] ==> r[0] != ""
    ensures r == [] <==> topics == []
  {
    var top := TopTopics(topics, ContextTopics);
    assert topics != [] ==> top != [] by {
      if topics != [] { assert |SortDesc(topics)| > 0; }
    }
    if top != [] then ["Interested in: " + Join(", ", Keys(top))] else []
  }

  /** `We've talked N times` once there has been a message. */
  function TalkPart(stats: Stats): (r: seq<string>)
    ensures r != [] ==> r[0] != ""
    ensures r == [] <==> stats.totalMessages == 0
  {
    if stats.totalMessages > 0 then ["We've talked " + NatToString(stats.totalMessages) + " times"] else []
  }

  /** `context_parts` as `get_conversation_context` assembles it, section by section. */
  function ContextParts(profile: Profile, facts: seq<Fact>, prefs: OMap<string, string>, topics: Topics, stats: Stats): (r: seq<string>)
    ensures r == [] <==>
      !("name" in profile && profile["name"] != "") && facts == [] && PrefEntries(prefs) == [] && topics == [] && stats.totalMessages == 0
    ensures r != [] ==> r[0] != ""
    ensures FactsPart(facts) <= r[|NamePart(profile)|..]
  {
    var a := NamePart(profile);
    var b := FactsPart(facts);
    var c := PrefsPart(prefs);
    var d := TopicsPart(topics);
    var e := TalkPart(stats);
    a + (b + (c + (d + e)))
  }

  /** `get_conversation_context`: the parts joined by newlines; empty exactly when nothing is known about the user. */
  function ConversationContext(profile: Profile, facts: seq<Fact>, prefs: OMap<string, string>, topics: Topics, stats: Stats): (r: string)
    ensures r == "" <==>
      !("name" in profile && profile["name"] != "") && facts == [] && PrefEntries(prefs) == [] && topics == [] && stats.totalMessages == 0
  {
    Join("\n", ContextParts(profile, facts, prefs, topics, stats))
  }

  // ---------------------------------------------------------------- phrase extraction

  /** The thirteen phrases `extract_learnable_info` looks for, in order, each with its category. */
  const Indicators: seq<(string, string)> := [
    ("my name is", "name"),
    ("i'm called", "name"),
    ("call me", "name"),
    ("i live in", "location"),
    ("i'm from", "location"),
    ("i work as", "occupation"),
    ("i'm a", "occupation"),
    ("my favorite", "preference"),
    ("i love", "preference"),
    ("i like", "preference"),
    ("i hate", "preference"),
    ("i have", "possession"),
    ("i own", "possession")
  ]

  /** The sentence ends tried in turn: the first of them that occurs at all wins. */
  const SentenceEnds: seq<char> := ['.', '!', '?', '\n']

  /** `s` up to the first occurrence of the first character of `ends` that occurs in `s`. */
  function CutAt(s: string, ends: seq<char>): (r: string)
    ensures |r| <= |s| && r == s[..|r|]
    ensures ends != [] ==> forall j :: 0 <= j < |r| ==> r[j] != ends[0]
    decreases |ends|
  {
    if ends == [] then s
    else
      var f := Find(s, [ends[0]]);
      if f.Some? then
        var r := s[..f.value];
        assert forall j :: 0 <= j < |r| ==> r[j] != ends[0] by {
          forall j | 0 <= j < |r| ensures r[j] != ends[0] {
            assert !MatchAt(s, [ends[0]], j);
            assert s[j..j + 1] == [s[j]];
          }
        }
        r
      else
        var r := CutAt(s, ends[1..]);
        assert forall j :: 0 <= j < |r| ==> r[j] != ends[0] by {
          forall j | 0 <= j < |r| ensures r[j] != ends[0] {
            assert !MatchAt(s, [ends[0]], j);
            assert s[j..j + 1] == [s[j]];
          }
        }
        r
  }

  /** When no sentence end occurs, nothing is cut. */
  lemma {:induction false} CutAtNoEnd(s: string, ends: seq<char>)
    requires forall j :: 0 <= j < |ends| ==> ends[j] !in s
    ensures CutAt(s, ends) == s
    decreases |ends|
  {
    if ends != [] {
      FindChar(s, ends[0]);
      CutAtNoEnd(s, ends[1..]);
    }
  }

  /** When some sentence end occurs, the text is cut just before an occurrence of one. */
  lemma {:induction false} CutAtSomeEnd(s: string, ends: seq<char>)
    requires exists j :: 0 <= j < |ends| && ends[j] in s
    ensures var r := CutAt(s, ends); |r| < |s| && s[|r|] in ends
    decreases |ends|
  {
    FindChar(s, ends[0]);
    if ends[0] !in s {
      var j :| 0 <= j < |ends| && ends[j] in s;
      assert ends[1..][j - 1] == ends[j];
      CutAtSomeEnd(s, ends[1..]);
    }
  }

  /** When `ends[e]` is the first-listed end that occurs, the text is cut just before its first occurrence. */
  lemma {:induction false} CutAtFirstEnd(s: string, ends: seq<char>, e: nat)
    requires e < |ends| && ends[e] in s
    requires forall j :: 0 <= j < e ==> ends[j] !in s
    ensures var r := CutAt(s, ends); |r| < |s| && s[|r|] == ends[e] && ends[e] !in r
    decreases e
  {
    FindChar(s, ends[0]);
    if e > 0 {
      CutAtFirstEnd(s, ends[1..], e - 1);
    }
  }

  /** The text after the first occurrence of the indicator, stripped and cut at a sentence end; `None` when the indicator does not occur. */
  function Candidate(message: string, indicator: string): (r: Option<string>)
    ensures r.Some? <==> Contains(Lower(message), indicator)
  {
    var at := CandidateStart(Lower(message), indicator);
    if at.None? then None else Some(CandidateAfter(message, at.value))
  }

  /** Where the text after the indicator's first occurrence in `lower` starts. */
  function CandidateStart(lower: string, indicator: string): (r: Option<nat>)
    ensures r.Some? <==> Contains(lower, indicator)
    ensures r.Some? ==> r.value <= |lower|
  {
    var f := Find(lower, indicator);
    if f.None? then None else Some(f.value + |indicator|)
  }

  /** The text of `message` from `at` on, stripped and cut at a sentence end. */
  function CandidateAfter(message: string, at: nat): string
    requires at <= |message|
  {
    CutAt(Strip(message[at..]), SentenceEnds)
  }

  /** A candidate starts with no whitespace and holds no full stop. */
  lemma CandidateShape(message: string, indicator: string)
    requires Candidate(message, indicator).Some?
    ensures var c := Candidate(message, indicator).value;
      && (c == [] || !IsSpace(c[0]))
      && forall j :: 0 <= j < |c| ==> c[j] != '.'
  {
    CandidateAfterShape(message, CandidateStart(Lower(message), indicator).value);
  }

  lemma CandidateAfterShape(message: string, at: nat)
    requires at <= |message|
    ensures var c := CandidateAfter(message, at);
      && (c == [] || !IsSpace(c[0]))
      && forall j :: 0 <= j < |c| ==> c[j] != '.'
  {
    var part := Strip(message[at..]);
    var cut := CutAt(part, SentenceEnds);
    assert cut != [] ==> cut[0] == part[0];
  }

  /** The candidate is the text after the indicator's first occurrence in the lowercased message, stripped and cut at a sentence end. */
  lemma CandidateAt(message: string, indicator: string, f: nat)
    requires MatchAt(Lower(message), indicator, f)
    requires forall j :: 0 <= j < f ==> !MatchAt(Lower(message), indicator, j)
    ensures f + |indicator| <= |message|
    ensures Candidate(message, indicator) == Some(CutAt(Strip(message[f + |indicator|..]), SentenceEnds))
  {
    CandidateStartFirst(Lower(message), indicator, f);
    CandidateStartsAt(message, indicator, f + |indicator|);
  }

  lemma CandidateStartFirst(lower: string, indicator: string, f: nat)
    requires MatchAt(lower, indicator, f)
    requires forall j :: 0 <= j < f ==> !MatchAt(lower, indicator, j)
    ensures CandidateStart(lower, indicator) == Some(f + |indicator|)
  {
    FindFirst(lower, indicator, f);
  }

  lemma CandidateStartsAt(message: string, indicator: string, at: nat)
    requires CandidateStart(Lower(message), indicator) == Some(at)
    ensures at <= |message|
    ensures Candidate(message, indicator) == Some(CutAt(Strip(message[at..]), SentenceEnds))
  {
  }

  /** What one indicator contributes: the candidate, stripped, if the cut text is 3 to 99 characters long. */
  function ExtractOne(message: string, indicator: (string, string)): (r: Option<(string, string)>)
    ensures var c := Candidate(message, indicator.0);
      r.Some? <==> c.Some? && 2 < |c.value| < 100
    ensures r.Some? ==> r.value == (Strip(Candidate(message, indicator.0).value), indicator.1)
  {
    var c := Candidate(message, indicator.0);
    if c.Some? && 2 < |c.value| < 100 then Some((Strip(c.value), indicator.1)) else None
  }

  /** A contributed fact is 1 to 99 characters long, has no whitespace at either end and no full stop. */
  lemma ExtractOneShape(message: string, indicator: (string, string))
    requires ExtractOne(message, indicator).Some?
    ensures Contains(Lower(message), indicator.0)
    ensures var fact := ExtractOne(message, indicator).value.0;
      && 0 < |fact| < 100 && !IsSpace(fact[0]) && !IsSpace(fact[|fact| - 1])
      && forall j :: 0 <= j < |fact| ==> fact[j] != '.'
  {
    CandidateShape(message, indicator.0);
    StripShape(Candidate(message, indicator.0).value);
  }

  lemma StripShape(c: string)
    requires 2 < |c| < 100 && !IsSpace(c[0]) && forall j :: 0 <= j < |c| ==> c[j] != '.'
    ensures var fact := Strip(c);
      && 0 < |fact| < 100 && !IsSpace(fact[0]) && !IsSpace(fact[|fact| - 1])
      && forall j :: 0 <= j < |fact| ==> fact[j] != '.'
  {
    assert !IsBlank(c) by { assert !IsSpace(c[0]); }
    var fact := Strip(c);
    var k := |c| - |StripLeft(c)|;
    forall j | 0 <= j < |fact| ensures fact[j] != '.' {
      assert fact[j] == c[k + j];
    }
  }

  /** The values of the `Some` entries, in order. */
  function Somes<T>(os: seq<Option<T>>): (r: seq<T>)
    ensures |r| <= |os|
    decreases |os|
  {
    if os == [] then []
    else Somes(os[..|os| - 1]) + (if os[|os| - 1].Some? then [os[|os| - 1].value] else [])
  }

  /** Each value collected comes from some entry. */
  lemma {:induction false} SomesFrom<T>(os: seq<Option<T>>, i: nat)
    requires i < |Somes(os)|
    ensures exists j :: 0 <= j < |os| && os[j] == Some(Somes(os)[i])
    decreases |os|
  {
    var init := os[..|os| - 1];
    if i < |Somes(init)| {
      SomesFrom(init, i);
      var j :| 0 <= j < |init| && init[j] == Some(Somes(init)[i]);
      assert os[j] == init[j];
    }
  }

  /** Each `Some` entry's value is collected. */
  lemma {:induction false} SomesComplete<T>(os: seq<Option<T>>, j: nat)
    requires j < |os| && os[j].Some?
    ensures os[j].value in Somes(os)
    decreases |os|
  {
    var init := os[..|os| - 1];
    if j < |init| {
      assert init[j] == os[j];
      SomesComplete(init, j);
    }
  }

  /** What each indicator contributes, one entry per indicator. */
  function Outcomes(message: string, inds: seq<(string, string)>): (r: seq<Option<(string, string)>>)
    ensures |r| == |inds|
  {
    MapSeq(inds, (ind: (string, string)) => ExtractOne(message, ind))
  }

  /** The pairs extracted for the indicators in `inds`, in their order: at most one per indicator. */
  function Extracted(message: string, inds: seq<(string, string)>): (r: seq<(string, string)>)
    ensures |r| <= |inds|
  {
    Somes(Outcomes(message, inds))
  }

  /** Extracting over one more indicator appends its contribution, if any, after the earlier ones. */
  lemma ExtractedSnoc(message: string, inds: seq<(string, string)>, ind: (string, string))
    ensures Extracted(message, inds + [ind])
      == Extracted(message, inds) + (if ExtractOne(message, ind).Some? then [ExtractOne(message, ind).value] else [])
  {
    assert (inds + [ind])[..|inds|] == inds;
    var os := Outcomes(message, inds + [ind]);
    assert os == Outcomes(message, inds) + [ExtractOne(message, ind)];
    assert os[..|os| - 1] == Outcomes(message, inds);
  }

  /** Every indicator that contributes a pair has that pair among the extracted ones. */
  lemma ExtractedComplete(message: string, inds: seq<(string, string)>, j: nat)
    requires j < |inds| && ExtractOne(message, inds[j]).Some?
    ensures ExtractOne(message, inds[j]).value in Extracted(message, inds)
  {
    MapSeqAt(inds, (ind: (string, string)) => ExtractOne(message, ind), j);
    SomesComplete(Outcomes(message, inds), j);
  }

  /** Every extracted pair carries the category of an indicator found in the message, and a fact of 1 to 99 characters with no full stop. */
  lemma ExtractedShape(message: string, inds: seq<(string, string)>, i: nat)
    requires i < |Extracted(message, inds)|
    ensures var p := Extracted(message, inds)[i];
      && (exists j :: 0 <= j < |inds| && p.1 == inds[j].1 && Contains(Lower(message), inds[j].0))
      && 0 < |p.0| < 100 && !IsSpace(p.0[0]) && !IsSpace(p.0[|p.0| - 1])
      && forall k :: 0 <= k < |p.0| ==> p.0[k] != '.'
  {
    var os := Outcomes(message, inds);
    SomesFrom(os, i);
    var j :| 0 <= j < |os| && os[j] == Some(Somes(os)[i]);
    MapSeqAt(inds, (ind: (string, string)) => ExtractOne(message, ind), j);
    var p := Extracted(message, inds)[i];
    assert ExtractOne(message, inds[j]) == Some(p);
    ExtractOneShape(message, inds[j]);
    assert p.1 == inds[j].1 && Contains(Lower(message), inds[j].0);
  }

  /** The inner loop of `extract_learnable_info`: try each sentence end in turn and cut at the first that occurs. */
  method CutSentence(part: string) returns (cut: string)
    ensures cut == CutAt(part, SentenceEnds)
  {
    cut := part;
    var e := 0;
    while e < |SentenceEnds|
      invariant 0 <= e <= |SentenceEnds|
      invariant CutAt(cut, SentenceEnds[e..]) == CutAt(part, SentenceEnds)
    {
      var at := Find(cut, [SentenceEnds[e]]);
      if at.Some? {
        assert CutAt(cut, SentenceEnds[e..]) == cut[..at.value];
        cut := cut[..at.value];
        return;
      }
      e := e + 1;
    }
  }

  /** The text after the indicator's first occurrence, stripped and cut at the first sentence end tried that occurs. */
  method CandidateOf(message: string, lower: string, indicator: string) returns (c: Option<string>)
    requires lower == Lower(message)
    ensures c == Candidate(message, indicator)
  {
    c := None;
    var found := Find(lower, indicator);
    if found.Some? {
      assert found.value + |indicator| <= |message| by { assert MatchAt(lower, indicator, found.value); }
      var cut := CandidateFrom(message, found.value + |indicator|);
      c := Some(cut);
    }
  }

  /** The text from `at` on, stripped and then cut at a sentence end. */
  method CandidateFrom(message: string, at: nat) returns (cut: string)
    requires at <= |message|
    ensures cut == CandidateAfter(message, at)
  {
    var part := Strip(message[at..]);
    cut := CutSentence(part);
  }

  /** The body of the loop of `extract_learnable_info` for one indicator. */
  method Contribution(message: string, lower: string, indicator: (string, string)) returns (o: Option<(string, string)>)
    requires lower == Lower(message)
    ensures o == ExtractOne(message, indicator)
  {
    o := None;
    var c := CandidateOf(message, lower, indicator.0);
    if c.Some? && 2 < |c.value| < 100 {
      o := Some((Strip(c.value), indicator.1));
    }
  }

  /** The loop of `extract_learnable_info` over a list of indicators. */
  method ExtractWith(message: string, inds: seq<(string, string)>) returns (learnable: seq<(string, string)>)
    ensures learnable == Extracted(message, inds)
  {
    learnable := [];
    var lower := Lower(message);
    for k := 0 to |inds|
      invariant learnable == Extracted(message, inds[..k])
    {
      var o := Contribution(message, lower, inds[k]);
      var before := Outcomes(message, inds[..k]);
      assert inds[..k + 1][..k] == inds[..k];
      assert Outcomes(message, inds[..k + 1]) == before + [o];
      assert (before + [o])[..k] == before;
      if o.Some? {
        learnable := learnable + [o.value];
      }
    }
    assert inds[..|inds|] == inds;
  }

  /** `extract_learnable_info(message)`. */
  method ExtractLearnableInfo(message: string) returns (learnable: seq<(string, string)>)
    ensures learnable == Extracted(message, Indicators)
  {
    learnable := ExtractWith(message, Indicators);
  }

  /** Every user's preference keys are distinct. */
  ghost predicate PrefMapValid(prefs: map<UserId, OMap<string, string>>)
  {
    forall u :: u in prefs ==> Distinct(prefs[u])
  }

  /** Every user's topic map is valid. */
  ghost predicate TopicMapValid(topics: map<UserId, Topics>)
  {
    forall u :: u in topics ==> TopicsValid(topics[u])
  }

  // ---------------------------------------------------------------- the store

  class LearningSystem {
    var profiles: map<UserId, Profile>
    var facts: map<UserId, seq<Fact>>
    var preferences: map<UserId, OMap<string, string>>
    var stats: map<UserId, Stats>
    var topics: map<UserId, Topics>
    var patterns: map<UserId, map<string, string>>
    var learningEnabled: bool

    /** Fact lists are bounded and free of duplicates; preference keys are distinct; topic maps are valid. */
    ghost predicate Valid()
      reads this
    {
      && FactMapValid(facts)
      && PrefMapValid(preferences)
      && TopicMapValid(topics)
    }

    constructor ()
      ensures Valid() && learningEnabled
      ensures profiles == map[] && facts == map[] && preferences == map[]
      ensures stats == map[] && topics == map[] && patterns == map[]
    {
      profiles := map[];
      facts := map[];
      preferences := map[];
      stats := map[];
      topics := map[];
      patterns := map[];
      learningEnabled := true;
    }

    /** `learn_fact`: refused when learning is off or the fact is known; otherwise appended with the oldest dropped past 100. */
    method LearnFact(user: UserId, fact: string, category: string) returns (learned: bool)
      requires Valid()
      modifies this`facts
      ensures Valid()
      ensures learned <==> learningEnabled && !Known(FactsOf(old(facts), user), fact)
      ensures facts == Learn(old(facts), learningEnabled, user, Fact(fact, category))
    {
      learned := learningEnabled && !Known(FactsOf(facts, user), fact);
      ghost var before := facts;
      facts := Learn(facts, learningEnabled, user, Fact(fact, category));
      assert FactMapValid(facts) by {
        LearnKeepsValid(before, learningEnabled, user, Fact(fact, category));
      }
    }

    /** `get_facts(user, category)`. */
    function GetFacts(user: UserId, category: Option<string>): (r: seq<string>)
      reads this
      ensures user !in facts ==> r == []
    {
      SelectFacts(FactsOf(facts, user), category)
    }

    /** `set_preference(user, key, value)`: assigns the key in the user's insertion-ordered preferences. */
    method SetPreference(user: UserId, key: string, value: string)
      requires Valid()
      modifies this`preferences
      ensures Valid()
      ensures preferences == old(preferences)[user := Put(PrefsOf(old(preferences), user), key, value)]
      ensures profiles == old(profiles) && facts == old(facts) && stats == old(stats)
      ensures topics == old(topics) && patterns == old(patterns) && learningEnabled == old(learningEnabled)
    {
      preferences := preferences[user := Put(PrefsOf(preferences, user), key, value)];
    }

    function GetPreference(user: UserId, key: string, default: Option<string>): Option<string>
      reads this
    {
      Preference(preferences, user, key, default)
    }

    /** `track_interaction(user, kind)`. */
    method TrackInteraction(user: UserId, kind: string)
      requires Valid()
      modifies this`stats
      ensures Valid()
      ensures stats == old(stats)[user := Tracked(StatsOf(old(stats), user), kind)]
      ensures profiles == old(profiles) && facts == old(facts) && preferences == old(preferences)
      ensures topics == old(topics) && patterns == old(patterns) && learningEnabled == old(learningEnabled)
    {
      stats := stats[user := Tracked(StatsOf(stats, user), kind)];
    }

    /** `add_topic_interest(user, topic, weight)`. */
    method AddTopicInterest(user: UserId, topic: string, weight: real)
      requires Valid()
      modifies this`topics
      ensures Valid()
      ensures topics == old(topics)[user := WithInterest(TopicsOf(old(topics), user), topic, weight)]
      ensures profiles == old(profiles) && facts == old(facts) && preferences == old(preferences)
      ensures stats == old(stats) && patterns == old(patterns) && learningEnabled == old(learningEnabled)
    {
      topics := topics[user := WithInterest(TopicsOf(topics, user), topic, weight)];
    }

    function GetTopTopics(user: UserId, limit: int): Topics
      reads this
    {
      TopTopics(TopicsOf(topics, user), limit)
    }

    /** `update_profile(user, **fields)`: the given fields overwrite or extend the profile. */
    method UpdateProfile(user: UserId, fields: map<string, string>)
      requires Valid()
      modifies this`profiles
      ensures Valid()
      ensures profiles == old(profiles)[user := ProfileOf(old(profiles), user) + fields]
      ensures facts == old(facts) && preferences == old(preferences) && stats == old(stats)
      ensures topics == old(topics) && patterns == old(patterns) && learningEnabled == old(learningEnabled)
    {
      profiles := profiles[user := ProfileOf(profiles, user) + fields];
    }

    function GetProfile(user: UserId): Profile
      reads this
    {
      ProfileOf(profiles, user)
    }

    function GetConversationContext(user: UserId): string
      reads this
    {
      ConversationContext(ProfileOf(profiles, user), FactsOf(facts, user), PrefsOf(preferences, user),
                          TopicsOf(topics, user), StatsOf(stats, user))
    }

    /** `forget_user(user)`: the user disappears from all six maps; nothing changes for an unknown user. */
    method ForgetUser(user: UserId)
      requires Valid()
      modifies this
      ensures Valid()
      ensures profiles == old(profiles) - {user} && facts == old(facts) - {user}
      ensures preferences == old(preferences) - {user} && stats == old(stats) - {user}
      ensures topics == old(topics) - {user} && patterns == old(patterns) - {user}
      ensures learningEnabled == old(learningEnabled)
      ensures user !in old(facts) ==> facts == old(facts)
      ensures user !in old(topics) ==> topics == old(topics)
    {
      profiles := profiles - {user};
      facts := facts - {user};
      preferences := preferences - {user};
      stats := stats - {user};
      topics := topics - {user};
      patterns := patterns - {user};
    }
  }

  /** Forgetting a user leaves their context empty. */
  lemma ForgottenContextIsEmpty(profiles: map<UserId, Profile>, facts: map<UserId, seq<Fact>>,
                                prefs: map<UserId, OMap<string, string>>, topics: map<UserId, Topics>,
                                stats: map<UserId, Stats>, user: UserId)
    ensures ConversationContext(ProfileOf(profiles - {user}, user), FactsOf(facts - {user}, user),
                                PrefsOf(prefs - {user}, user), TopicsOf(topics - {user}, user),
                                StatsOf(stats - {user}, user)) == ""
  {
  }
}
