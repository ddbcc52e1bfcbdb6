/**
 * The scripted reply generator `generate_message` shared by the persona agents.
 * Both agent.py files run the same code over different tables; a `Profile`
 * holds one persona's tables and the functions and methods below run them.
 */
module Persona {
  import opened Wrappers
  import opened Text

  /** One history record `{"speaker", "message", "timestamp"}`. */
  datatype Entry = Entry(speaker: string, message: string, timestamp: string)

  /** Which list a tag goes to: `interests` or `topics_discussed`. */
  datatype Kind = Interest | Topic

  /** `if keyword1 in message or keyword2 in message: <kind list>.append(tag)` */
  datatype TagRule = TagRule(keyword1: string, keyword2: string, tag: string, kind: Kind)

  /** `if tag in <kind list>: return text`, or with `not in` when `present` is false. */
  datatype Branch = Branch(tag: string, kind: Kind, present: bool, text: string)

  /** One stage's `if`/`elif` arms and its `else` text. */
  datatype StageTable = StageTable(branches: seq<Branch>, default: string)

  /** `if tag in <kind list> and not any(keyword in m for m in recent_messages): return text` */
  datatype Fallback = Fallback(tag: string, kind: Kind, keyword: string, text: string)

  /**
   * A persona's tables. The greeting is `greetingHead + partner + greetingTail`
   * and the ongoing default is `closingHead + partner + closingTail`.
   */
  datatype Profile = Profile(
    selfName: string,
    rules: seq<TagRule>,
    greetingHead: string,
    greetingTail: string,
    followup1: StageTable,
    followup2: StageTable,
    followup3: StageTable,
    topics: seq<string>,
    fallbacks: seq<Fallback>,
    closingHead: string,
    closingTail: string)

  const GreetingStage := "greeting"
  const Followup1Stage := "followup_1"
  const Followup2Stage := "followup_2"
  const Followup3Stage := "followup_3"

  predicate IsScriptedStage(stage: string) {
    stage == GreetingStage || stage == Followup1Stage || stage == Followup2Stage || stage == Followup3Stage
  }

  // ---------------------------------------------------------------
  // Tag extraction
  // ---------------------------------------------------------------

  predicate Fires(r: TagRule, message: string) {
    Contains(message, r.keyword1) || Contains(message, r.keyword2)
  }

  /** The tags one lowercased partner message adds to the list of `kind`, in rule order. */
  function EntryTags(rules: seq<TagRule>, message: string, kind: Kind): (r: seq<string>)
    ensures forall t :: t in r <==> exists k :: 0 <= k < |rules| && rules[k].kind == kind && rules[k].tag == t && Fires(rules[k], message)
  {
    if rules == [] then []
    else
      var rest := EntryTags(rules[1..], message, kind);
      assert forall k :: 1 <= k < |rules| ==> rules[k] == rules[1..][k - 1];
      (if rules[0].kind == kind && Fires(rules[0], message) then [rules[0].tag] else []) + rest
  }

  predicate FromPartner(e: Entry, partner: string) {
    Contains(e.speaker, partner)
  }

  /** The tags history `h` puts in the list of `kind`, in the order the loop appends them. */
  function Tags(rules: seq<TagRule>, partner: string, h: seq<Entry>, kind: Kind): seq<string> {
    if h == [] then []
    else
      var e := h[|h| - 1];
      Tags(rules, partner, h[..|h| - 1], kind) +
        (if FromPartner(e, partner) then EntryTags(rules, Lower(e.message), kind) else [])
  }

  /** Entry `e` is the partner's and fires some rule of `kind` that yields tag `t`. */
  ghost predicate Triggers(rules: seq<TagRule>, partner: string, e: Entry, kind: Kind, t: string) {
    FromPartner(e, partner) &&
    exists k :: 0 <= k < |rules| && rules[k].kind == kind && rules[k].tag == t && Fires(rules[k], Lower(e.message))
  }

  /** Some entry of `h` triggers tag `t`. */
  ghost predicate TagTriggered(rules: seq<TagRule>, partner: string, h: seq<Entry>, kind: Kind, t: string) {
    exists i :: 0 <= i < |h| && Triggers(rules, partner, h[i], kind, t)
  }

  /** The tags one entry adds are those it triggers. */
  lemma EntryTagsIff(rules: seq<TagRule>, partner: string, e: Entry, kind: Kind, t: string)
    ensures Triggers(rules, partner, e, kind, t) <==> FromPartner(e, partner) && t in EntryTags(rules, Lower(e.message), kind)
  {
  }

  /** Tags of a history ending in `e`. */
  lemma TagsSnoc(rules: seq<TagRule>, partner: string, h: seq<Entry>, kind: Kind, t: string)
    requires h != []
    ensures t in Tags(rules, partner, h, kind) <==>
      t in Tags(rules, partner, h[..|h| - 1], kind) || Triggers(rules, partner, h[|h| - 1], kind, t)
  {
    EntryTagsIff(rules, partner, h[|h| - 1], kind, t);
  }

  /**
   * A tag is in the list exactly when some entry whose speaker contains the partner's
   * name has a lowercased message in which one of that tag's keywords occurs.
   */
  lemma {:induction false} TagsIff(rules: seq<TagRule>, partner: string, h: seq<Entry>, kind: Kind, t: string)
    ensures t in Tags(rules, partner, h, kind) <==> TagTriggered(rules, partner, h, kind, t)
  {
    if h != [] {
      var init := h[..|h| - 1];
      TagsIff(rules, partner, init, kind, t);
      TagsSnoc(rules, partner, h, kind, t);
      if TagTriggered(rules, partner, h, kind, t) {
        var i :| 0 <= i < |h| && Triggers(rules, partner, h[i], kind, t);
        if i < |init| {
          assert init[i] == h[i];
        }
      }
      if TagTriggered(rules, partner, init, kind, t) {
        var i :| 0 <= i < |init| && Triggers(rules, partner, init[i], kind, t);
        assert init[i] == h[i];
      }
    }
  }

  /** Some message the partner wrote contains `w` once lowercased. */
  ghost predicate PartnerSaid(partner: string, h: seq<Entry>, w: string) {
    exists i :: 0 <= i < |h| && FromPartner(h[i], partner) && Contains(Lower(h[i].message), w)
  }

  /**
   * When rule `k` is the only rule giving its tag to the list of its kind, the tag is
   * collected exactly when the partner wrote one of that rule's two keywords.
   */
  lemma SoleRule(rules: seq<TagRule>, partner: string, h: seq<Entry>, k: nat)
    requires k < |rules|
    requires forall j :: 0 <= j < |rules| && j != k ==> rules[j].kind != rules[k].kind || rules[j].tag != rules[k].tag
    ensures rules[k].tag in Tags(rules, partner, h, rules[k].kind) <==>
      PartnerSaid(partner, h, rules[k].keyword1) || PartnerSaid(partner, h, rules[k].keyword2)
  {
    var r := rules[k];
    TagsIff(rules, partner, h, r.kind, r.tag);
    if TagTriggered(rules, partner, h, r.kind, r.tag) {
      var i :| 0 <= i < |h| && Triggers(rules, partner, h[i], r.kind, r.tag);
      var j :| 0 <= j < |rules| && rules[j].kind == r.kind && rules[j].tag == r.tag && Fires(rules[j], Lower(h[i].message));
      assert j == k;
    }
    if PartnerSaid(partner, h, r.keyword1) {
      var i :| 0 <= i < |h| && FromPartner(h[i], partner) && Contains(Lower(h[i].message), r.keyword1);
      assert Triggers(rules, partner, h[i], r.kind, r.tag);
    }
    if PartnerSaid(partner, h, r.keyword2) {
      var i :| 0 <= i < |h| && FromPartner(h[i], partner) && Contains(Lower(h[i].message), r.keyword2);
      assert Triggers(rules, partner, h[i], r.kind, r.tag);
    }
  }

  /** A tag no rule of `kind` yields never reaches that list. */
  lemma NoRule(rules: seq<TagRule>, partner: string, h: seq<Entry>, kind: Kind, t: string)
    requires forall j :: 0 <= j < |rules| ==> rules[j].kind != kind || rules[j].tag != t
    ensures t !in Tags(rules, partner, h, kind)
  {
    TagsIff(rules, partner, h, kind, t);
  }

  /** The tag loop of `generate_message`: scan the history, keep partner entries, collect tags. */
  method ScanTags(p: Profile, partner: string, history: seq<Entry>) returns (interests: seq<string>, topics: seq<string>)
    ensures interests == Tags(p.rules, partner, history, Interest)
    ensures topics == Tags(p.rules, partner, history, Topic)
  {
    interests, topics := [], [];
    var i := 0;
    while i < |history|
      invariant 0 <= i <= |history|
      invariant interests == Tags(p.rules, partner, history[..i], Interest)
      invariant topics == Tags(p.rules, partner, history[..i], Topic)
    {
      var entry := history[i];
      if Contains(entry.speaker, partner) {
        var message := Lower(entry.message);
        interests := interests + EntryTags(p.rules, message, Interest);
        topics := topics + EntryTags(p.rules, message, Topic);
      }
      assert history[..i + 1][..i] == history[..i];
      i := i + 1;
    }
    assert history[..i] == history;
  }

  // ---------------------------------------------------------------
  // Scripted stages
  // ---------------------------------------------------------------

  predicate Holds(b: Branch, interests: seq<string>, topics: seq<string>) {
    (b.tag in (if b.kind == Interest then interests else topics)) == b.present
  }

  /** The `if`/`elif`/`else` chain of one stage: the first arm that holds, else the default. */
  function Choose(t: StageTable, interests: seq<string>, topics: seq<string>): (r: string)
    ensures (exists k :: 0 <= k < |t.branches| && Holds(t.branches[k], interests, topics)) || r == t.default
    decreases |t.branches|
  {
    if t.branches == [] then t.default
    else if Holds(t.branches[0], interests, topics) then t.branches[0].text
    else
      var r := Choose(StageTable(t.branches[1..], t.default), interests, topics);
      assert forall k :: 1 <= k < |t.branches| ==> t.branches[k] == t.branches[1..][k - 1];
      r
  }

  /** Choose returns arm `k`'s text when arm `k` is the first that holds. */
  lemma {:induction false} ChooseFirst(t: StageTable, interests: seq<string>, topics: seq<string>, k: nat)
    requires k < |t.branches| && Holds(t.branches[k], interests, topics)
    requires forall j :: 0 <= j < k ==> !Holds(t.branches[j], interests, topics)
    ensures Choose(t, interests, topics) == t.branches[k].text
    decreases k
  {
    if k > 0 {
      var rest := StageTable(t.branches[1..], t.default);
      assert forall j :: 0 <= j < k - 1 ==> rest.branches[j] == t.branches[j + 1];
      ChooseFirst(rest, interests, topics, k - 1);
    }
  }

  /** Choose returns the default when no arm holds. */
  lemma {:induction false} ChooseDefault(t: StageTable, interests: seq<string>, topics: seq<string>)
    requires forall j :: 0 <= j < |t.branches| ==> !Holds(t.branches[j], interests, topics)
    ensures Choose(t, interests, topics) == t.default
    decreases |t.branches|
  {
    if t.branches != [] {
      var rest := StageTable(t.branches[1..], t.default);
      assert forall j :: 0 <= j < |rest.branches| ==> rest.branches[j] == t.branches[j + 1];
      ChooseDefault(rest, interests, topics);
    }
  }

  // ---------------------------------------------------------------
  // Ongoing conversation: recency filter, topic injection, fallbacks
  // ---------------------------------------------------------------

  /** `conversation_history[-6:]` */
  function LastSix(h: seq<Entry>): (r: seq<Entry>)
    ensures |r| == if |h| < 6 then |h| else 6
    ensures forall i :: 0 <= i < |r| ==> r[i] == h[|h| - |r| + i]
  {
    if |h| <= 6 then h else h[|h| - 6..]
  }

  /** The lowercased messages of the entries whose speaker contains `selfName`, in order. */
  function OwnMessages(selfName: string, h: seq<Entry>): (r: seq<string>)
    ensures forall m :: m in r <==> exists i :: 0 <= i < |h| && Contains(h[i].speaker, selfName) && m == Lower(h[i].message)
  {
    if h == [] then []
    else
      var rest := OwnMessages(selfName, h[1..]);
      assert forall i :: 1 <= i < |h| ==> h[i] == h[1..][i - 1];
      (if Contains(h[0].speaker, selfName) then [Lower(h[0].message)] else []) + rest
  }

  /** `recent_messages`: own lowercased messages among the last six history entries. */
  function Recent(selfName: string, h: seq<Entry>): seq<string> {
    OwnMessages(selfName, LastSix(h))
  }

  /** `any(s in message for message in recent)` */
  predicate Mentioned(recent: seq<string>, s: string) {
    exists i :: 0 <= i < |recent| && Contains(recent[i], s)
  }

  /** `available_topics`: the pool topics whose lowercased text no recent message contains, in pool order. */
  function Available(topics: seq<string>, recent: seq<string>): seq<string> {
    if topics == [] then []
    else
      var t := topics[|topics| - 1];
      Available(topics[..|topics| - 1], recent) + (if !Mentioned(recent, Lower(t)) then [t] else [])
  }

  lemma {:induction false} AvailableIff(topics: seq<string>, recent: seq<string>, x: string)
    ensures x in Available(topics, recent) <==> x in topics && !Mentioned(recent, Lower(x))
  {
    if topics != [] {
      var init := topics[..|topics| - 1];
      AvailableIff(init, recent, x);
      assert topics == init + [topics[|topics| - 1]];
    }
  }

  /** The loop that builds `available_topics`. */
  method FilterTopics(topics: seq<string>, recent: seq<string>) returns (available: seq<string>)
    ensures available == Available(topics, recent)
  {
    available := [];
    var i := 0;
    while i < |topics|
      invariant 0 <= i <= |topics|
      invariant available == Available(topics[..i], recent)
    {
      var topic := topics[i];
      var topicLower := Lower(topic);
      var mentioned := false;
      var j := 0;
      while j < |recent|
        invariant 0 <= j <= |recent|
        invariant mentioned <==> exists k :: 0 <= k < j && Contains(recent[k], topicLower)
      {
        if Contains(recent[j], topicLower) {
          mentioned := true;
        }
        j := j + 1;
      }
      if !mentioned {
        available := available + [topic];
      }
      assert topics[..i + 1][..i] == topics[..i];
      i := i + 1;
    }
    assert topics[..i] == topics;
  }

  predicate Applies(f: Fallback, interests: seq<string>, topics: seq<string>, recent: seq<string>) {
    f.tag in (if f.kind == Interest then interests else topics) && !Mentioned(recent, f.keyword)
  }

  /** The closing `if`/`elif` chain: the first fallback whose tag is present and whose keyword is not recent. */
  function Respond(fs: seq<Fallback>, interests: seq<string>, topics: seq<string>, recent: seq<string>, default: string): (r: string)
    ensures (exists k :: 0 <= k < |fs| && Applies(fs[k], interests, topics, recent) && r == fs[k].text) || r == default
  {
    if fs == [] then default
    else if Applies(fs[0], interests, topics, recent) then fs[0].text
    else
      var r := Respond(fs[1..], interests, topics, recent, default);
      assert forall k :: 1 <= k < |fs| ==> fs[k] == fs[1..][k - 1];
      r
  }

  lemma {:induction false} RespondFirst(fs: seq<Fallback>, interests: seq<string>, topics: seq<string>, recent: seq<string>, default: string, k: nat)
    requires k < |fs| && Applies(fs[k], interests, topics, recent)
    requires forall j :: 0 <= j < k ==> !Applies(fs[j], interests, topics, recent)
    ensures Respond(fs, interests, topics, recent, default) == fs[k].text
    decreases k
  {
    if k > 0 {
      assert forall j :: 0 <= j < k - 1 ==> fs[1..][j] == fs[j + 1];
      RespondFirst(fs[1..], interests, topics, recent, default, k - 1);
    }
  }

  lemma {:induction false} RespondDefault(fs: seq<Fallback>, interests: seq<string>, topics: seq<string>, recent: seq<string>, default: string)
    requires forall j :: 0 <= j < |fs| ==> !Applies(fs[j], interests, topics, recent)
    ensures Respond(fs, interests, topics, recent, default) == default
  {
    if fs != [] {
      assert forall j :: 0 <= j < |fs| - 1 ==> fs[1..][j] == fs[j + 1];
      RespondDefault(fs[1..], interests, topics, recent, default);
    }
  }

  // ---------------------------------------------------------------
  // The whole generator
  // ---------------------------------------------------------------

  function Greeting(p: Profile, partner: string): string {
    p.greetingHead + partner + p.greetingTail
  }

  function Closing(p: Profile, partner: string): string {
    p.closingHead + partner + p.closingTail
  }

  /** Every third history length (`len(history) % 3 == 0`) the ongoing branch may inject a topic. */
  predicate InjectsTopic(p: Profile, h: seq<Entry>) {
    |Available(p.topics, Recent(p.selfName, h))| > 0 && |h| % 3 == 0
  }

  /**
   * What `generate_message(partner, history, stage)` returns; `pick` stands for the
   * choice `random.choice` makes, taken modulo the number of available topics.
   */
  function Message(p: Profile, partner: string, h: seq<Entry>, stage: string, pick: nat): string {
    var interests := Tags(p.rules, partner, h, Interest);
    var topics := Tags(p.rules, partner, h, Topic);
    if stage == GreetingStage then Greeting(p, partner)
    else if stage == Followup1Stage then Choose(p.followup1, interests, topics)
    else if stage == Followup2Stage then Choose(p.followup2, interests, topics)
    else if stage == Followup3Stage then Choose(p.followup3, interests, topics)
    else
      var recent := Recent(p.selfName, h);
      var available := Available(p.topics, recent);
      if |available| > 0 && |h| % 3 == 0 then available[pick % |available|]
      else Respond(p.fallbacks, interests, topics, recent, Closing(p, partner))
  }

  /** `generate_message`: scan the history, then walk the stage's decision table. */
  method GenerateMessage(p: Profile, partner: string, history: seq<Entry>, stage: string, pick: nat) returns (message: string)
    ensures message == Message(p, partner, history, stage, pick)
  {
    var interests, topics := ScanTags(p, partner, history);
    if stage == GreetingStage {
      message := Greeting(p, partner);
    } else if stage == Followup1Stage {
      message := Choose(p.followup1, interests, topics);
    } else if stage == Followup2Stage {
      message := Choose(p.followup2, interests, topics);
    } else if stage == Followup3Stage {
      message := Choose(p.followup3, interests, topics);
    } else {
      var recent := Recent(p.selfName, history);
      var available := FilterTopics(p.topics, recent);
      if |available| > 0 && |history| % 3 == 0 {
        message := available[pick % |available|];
      } else {
        message := Respond(p.fallbacks, interests, topics, recent, Closing(p, partner));
      }
    }
  }

  // ---------------------------------------------------------------
  // Properties every persona shares
  // ---------------------------------------------------------------

  /** The three follow-up stages each run their own table over the collected tags. */
  lemma FollowupMessage(p: Profile, partner: string, h: seq<Entry>, pick: nat)
    ensures Message(p, partner, h, Followup1Stage, pick) ==
      Choose(p.followup1, Tags(p.rules, partner, h, Interest), Tags(p.rules, partner, h, Topic))
    ensures Message(p, partner, h, Followup2Stage, pick) ==
      Choose(p.followup2, Tags(p.rules, partner, h, Interest), Tags(p.rules, partner, h, Topic))
    ensures Message(p, partner, h, Followup3Stage, pick) ==
      Choose(p.followup3, Tags(p.rules, partner, h, Interest), Tags(p.rules, partner, h, Topic))
  {
  }

  /** The greeting stage ignores the history and names the partner. */
  lemma GreetingNamesPartner(p: Profile, partner: string, h: seq<Entry>, pick: nat)
    ensures Message(p, partner, h, GreetingStage, pick) == Greeting(p, partner)
    ensures Contains(Message(p, partner, h, GreetingStage, pick), partner)
  {
    ContainsMiddle(p.greetingHead, partner, p.greetingTail);
  }

  /**
   * An injected topic comes from the pool and its lowercased text occurs in no own
   * message among the last six history entries.
   */
  lemma InjectedTopicIsFresh(p: Profile, partner: string, h: seq<Entry>, stage: string, pick: nat)
    requires !IsScriptedStage(stage) && InjectsTopic(p, h)
    ensures Message(p, partner, h, stage, pick) in p.topics
    ensures forall i :: 0 <= i < |LastSix(h)| && Contains(LastSix(h)[i].speaker, p.selfName) ==>
      !Contains(Lower(LastSix(h)[i].message), Lower(Message(p, partner, h, stage, pick)))
  {
    var recent := Recent(p.selfName, h);
    var available := Available(p.topics, recent);
    var r := available[pick % |available|];
    assert Message(p, partner, h, stage, pick) == r;
    AvailableIff(p.topics, recent, r);
    forall i | 0 <= i < |LastSix(h)| && Contains(LastSix(h)[i].speaker, p.selfName)
      ensures !Contains(Lower(LastSix(h)[i].message), Lower(r))
    {
      var m := Lower(LastSix(h)[i].message);
      assert m in recent;
      var k :| 0 <= k < |recent| && recent[k] == m;
    }
  }

  /** Without an injection, the ongoing stage answers with the first applicable fallback. */
  lemma OngoingFallback(p: Profile, partner: string, h: seq<Entry>, stage: string, pick: nat, k: nat)
    requires !IsScriptedStage(stage) && !InjectsTopic(p, h)
    requires k < |p.fallbacks|
    requires Applies(p.fallbacks[k], Tags(p.rules, partner, h, Interest), Tags(p.rules, partner, h, Topic), Recent(p.selfName, h))
    requires forall j :: 0 <= j < k ==>
      !Applies(p.fallbacks[j], Tags(p.rules, partner, h, Interest), Tags(p.rules, partner, h, Topic), Recent(p.selfName, h))
    ensures Message(p, partner, h, stage, pick) == p.fallbacks[k].text
  {
    RespondFirst(p.fallbacks, Tags(p.rules, partner, h, Interest), Tags(p.rules, partner, h, Topic),
      Recent(p.selfName, h), Closing(p, partner), k);
  }

  /** Without an injection and without an applicable fallback, the closing text names the partner. */
  lemma OngoingClosing(p: Profile, partner: string, h: seq<Entry>, stage: string, pick: nat)
    requires !IsScriptedStage(stage) && !InjectsTopic(p, h)
    requires forall j :: 0 <= j < |p.fallbacks| ==>
      !Applies(p.fallbacks[j], Tags(p.rules, partner, h, Interest), Tags(p.rules, partner, h, Topic), Recent(p.selfName, h))
    ensures Message(p, partner, h, stage, pick) == Closing(p, partner)
    ensures Contains(Message(p, partner, h, stage, pick), partner)
  {
    RespondDefault(p.fallbacks, Tags(p.rules, partner, h, Interest), Tags(p.rules, partner, h, Topic),
      Recent(p.selfName, h), Closing(p, partner));
    ContainsMiddle(p.closingHead, partner, p.closingTail);
  }
}
