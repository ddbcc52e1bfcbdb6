/** Irvin's tables for the reply generator (agents/ag2robert/agent.py) and what they imply. */
module Irvin {
  import opened Text
  import opened Persona

  const Rules: seq<TagRule> := [
    TagRule("cooking", "chef", "cooking", Interest),
    TagRule("animal", "welfare", "animal welfare", Interest),
    TagRule("law", "lawyer", "law", Interest),
    TagRule("yoga", "hiking", "fitness", Interest),
    TagRule("hobby", "hobbies", "hobbies", Topic),
    TagRule("mexican", "mexico", "mexican culture", Interest),
    TagRule("restaurant", "business", "business", Topic),
    TagRule("travel", "traveling", "travel", Topic),
    TagRule("music", "concert", "music", Topic),
    TagRule("book", "reading", "reading", Topic)
  ]

  const CookingReply := "That's interesting! I love cooking " + "Turkish cuisine, especially kebabs and " + "baklava. Do you enjoy cooking or have " + "any favorite foods?"
  const WelfareReply := "That's great to hear! I'm also " + "passionate about animal welfare, though " + "I don't get to volunteer as much as I'd " + "like due to running my restaurant. What " + "specific causes are you involved with?"

  const MotorcycleReply := "When I'm not at the restaurant, I enjoy " + "riding my motorcycle along the coast. " + "It's very freeing. Do you have any " + "hobbies that help you relax?"
  const CausesReply := "I'm also passionate about animal " + "welfare, though I don't get to " + "volunteer as much as I'd like. What " + "causes are you passionate about?"
  const BalanceReply := "My restaurant keeps me busy, but I try " + "to maintain a good work-life balance. " + "How do you balance your professional " + "and personal life?"

  const FitnessReply := "I've been thinking about adding more " + "fitness to my routine. Between the " + "restaurant and my other business " + "interests, I don't always make time for " + "it. Do you have any recommendations for " + "someone with a busy schedule?"
  const LawReply := "The restaurant business has its share " + "of legal complexities. I've had to " + "learn a lot about food safety " + "regulations and business law. Has your " + "legal background ever intersected with " + "the culinary world?"
  const ClassesReply := "I've been thinking about expanding my " + "restaurant to include cooking classes. " + "Would you be interested in something " + "like that if it were available in your " + "area?"

  /** The `if` arm and the `else` arm of `followup_1` return the same text. */
  const Followup1 := StageTable([
    Branch("cooking", Interest, true, CookingReply),
    Branch("animal welfare", Interest, true, WelfareReply)
  ], CookingReply)

  const Followup2 := StageTable([
    Branch("hobbies", Topic, false, MotorcycleReply),
    Branch("animal welfare", Topic, false, CausesReply)
  ], BalanceReply)

  const Followup3 := StageTable([
    Branch("fitness", Interest, true, FitnessReply),
    Branch("law", Interest, true, LawReply)
  ], ClassesReply)

  const Topics: seq<string> := [
    "I've been experimenting with fusion " + "dishes lately, combining Turkish and " + "other cuisines. Have you tried fusion " + "food?",
    "I'm thinking about taking a culinary " + "tour of Southeast Asia next year. Do " + "you enjoy traveling?",
    "Running a restaurant is challenging but " + "rewarding. What aspects of your work do " + "you find most fulfilling?",
    "I recently adopted a rescue dog from " + "the local shelter. Do you have any pets?",
    "I've been reading about sustainable " + "food practices. Do you think about " + "sustainability in your daily life?",
    "The food scene is constantly evolving. " + "What food trends have you noticed " + "lately?",
    "I try to source ingredients locally " + "when possible. Do you have any favorite " + "local markets or farms?",
    "Music is always playing in my kitchen. " + "What kind of music do you enjoy?",
    "I find cooking very therapeutic. What " + "activities help you unwind after a long " + "day?",
    "I've been considering writing a " + "cookbook. Do you enjoy reading or " + "writing?"
  ]

  const Fallbacks: seq<Fallback> := [
    Fallback("mexican culture", Interest, "mexican", "I've always been fascinated by Mexican " + "cuisine. What dishes from your culture " + "would you recommend I try cooking?"),
    Fallback("fitness", Interest, "fitness", "Do you have a regular fitness routine? " + "I've been trying to incorporate more " + "physical activity into my busy schedule."),
    Fallback("law", Interest, "law", "I imagine your legal work must be quite " + "demanding. How do you handle the stress " + "that comes with it?"),
    Fallback("travel", Topic, "travel", "I love traveling to discover new " + "cuisines. What's the most memorable " + "place you've visited, and what was the " + "food like there?"),
    Fallback("music", Topic, "music", "Music is always playing in my kitchen - " + "it helps me stay creative. Do you " + "listen to music while you work?"),
    Fallback("reading", Topic, "reading", "I've been reading some culinary memoirs " + "lately. Do you enjoy reading, and if " + "so, what genres do you prefer?")
  ]

  const Profile := Persona.Profile(
    "Irvin", Rules,
    "Hello ", ", I'm Irvin! I noticed your profile and " + "I'm interested in getting to know you " + "better. I'm a Turkish chef and " + "businessman. What are your interests?",
    Followup1, Followup2, Followup3, Topics, Fallbacks,
    "I'm really enjoying getting to know you, ", ". What else would you like to talk about?")

  /** What `followup_1` answers, from the tags the history gave. */
  function Followup1Reply(partner: string, h: seq<Entry>): string {
    Choose(Followup1, Tags(Rules, partner, h, Interest), Tags(Rules, partner, h, Topic))
  }

  /** What `followup_2` answers, from the tags the history gave. */
  function Followup2Reply(partner: string, h: seq<Entry>): string {
    Choose(Followup2, Tags(Rules, partner, h, Interest), Tags(Rules, partner, h, Topic))
  }

  /** What `followup_3` answers, from the tags the history gave. */
  function Followup3Reply(partner: string, h: seq<Entry>): string {
    Choose(Followup3, Tags(Rules, partner, h, Interest), Tags(Rules, partner, h, Topic))
  }

  /** Irvin's `generate_message` answers the three follow-up stages with these replies. */
  lemma FollowupReplies(partner: string, h: seq<Entry>, pick: nat)
    ensures Message(Profile, partner, h, Followup1Stage, pick) == Followup1Reply(partner, h)
    ensures Message(Profile, partner, h, Followup2Stage, pick) == Followup2Reply(partner, h)
    ensures Message(Profile, partner, h, Followup3Stage, pick) == Followup3Reply(partner, h)
  {
    FollowupMessage(Profile, partner, h, pick);
  }

  ghost predicate SaidCooking(partner: string, h: seq<Entry>) {
    PartnerSaid(partner, h, "cooking") || PartnerSaid(partner, h, "chef")
  }

  ghost predicate SaidWelfare(partner: string, h: seq<Entry>) {
    PartnerSaid(partner, h, "animal") || PartnerSaid(partner, h, "welfare")
  }

  ghost predicate SaidHobby(partner: string, h: seq<Entry>) {
    PartnerSaid(partner, h, "hobby") || PartnerSaid(partner, h, "hobbies")
  }

  ghost predicate SaidFitness(partner: string, h: seq<Entry>) {
    PartnerSaid(partner, h, "yoga") || PartnerSaid(partner, h, "hiking")
  }

  /** The "cooking" interest is collected exactly when the partner wrote "cooking" or "chef". */
  lemma CookingTag(partner: string, h: seq<Entry>)
    ensures "cooking" in Tags(Rules, partner, h, Interest) <==> SaidCooking(partner, h)
  {
    SoleRule(Rules, partner, h, 0);
  }

  /** The "animal welfare" interest is collected exactly when the partner wrote "animal" or "welfare". */
  lemma WelfareTag(partner: string, h: seq<Entry>)
    ensures "animal welfare" in Tags(Rules, partner, h, Interest) <==> SaidWelfare(partner, h)
  {
    SoleRule(Rules, partner, h, 1);
  }

  /** The "fitness" interest is collected exactly when the partner wrote "yoga" or "hiking". */
  lemma FitnessTag(partner: string, h: seq<Entry>)
    ensures "fitness" in Tags(Rules, partner, h, Interest) <==> SaidFitness(partner, h)
  {
    SoleRule(Rules, partner, h, 3);
  }

  /** No rule of Irvin's makes "animal welfare" a topic. */
  lemma NoWelfareTopic(partner: string, h: seq<Entry>)
    ensures "animal welfare" !in Tags(Rules, partner, h, Topic)
  {
    NoRule(Rules, partner, h, Topic, "animal welfare");
  }

  /**
   * `followup_1` gives the welfare text exactly when the partner mentioned animals or
   * welfare but not cooking; every other history gets the cooking text.
   */
  lemma Followup1Welfare(partner: string, h: seq<Entry>)
    ensures Followup1Reply(partner, h) == WelfareReply <==>
      SaidWelfare(partner, h) && !SaidCooking(partner, h)
    ensures Followup1Reply(partner, h) != WelfareReply ==>
      Followup1Reply(partner, h) == CookingReply
  {
    var interests, topics := Tags(Rules, partner, h, Interest), Tags(Rules, partner, h, Topic);
    CookingTag(partner, h);
    WelfareTag(partner, h);
    assert |CookingReply| != |WelfareReply|;
    if "cooking" in interests {
      ChooseFirst(Followup1, interests, topics, 0);
    } else if "animal welfare" in interests {
      ChooseFirst(Followup1, interests, topics, 1);
    } else {
      ChooseDefault(Followup1, interests, topics);
    }
  }

  /**
   * Irvin's rules put "animal welfare" only among the interests, so once the partner
   * has mentioned a hobby `followup_2` always asks about causes and never reaches
   * the work-life-balance text.
   */
  lemma Followup2NeverBalance(partner: string, h: seq<Entry>)
    ensures !SaidHobby(partner, h) ==> Followup2Reply(partner, h) == MotorcycleReply
    ensures SaidHobby(partner, h) ==> Followup2Reply(partner, h) == CausesReply
    ensures Followup2Reply(partner, h) != BalanceReply
  {
    var interests, topics := Tags(Rules, partner, h, Interest), Tags(Rules, partner, h, Topic);
    NoWelfareTopic(partner, h);
    SoleRule(Rules, partner, h, 4);  // "hobbies" is collected exactly when SaidHobby holds, as for Ana
    if "hobbies" !in topics {
      ChooseFirst(Followup2, interests, topics, 0);
      assert |MotorcycleReply| != |BalanceReply|;
    } else {
      ChooseFirst(Followup2, interests, topics, 1);
      assert CausesReply[0] != BalanceReply[0];
    }
  }

  /** "lawyer" contains "law", so the law rule fires exactly on "law". */
  lemma LawyerMeansLaw(partner: string, h: seq<Entry>)
    ensures PartnerSaid(partner, h, "lawyer") ==> PartnerSaid(partner, h, "law")
  {
    if PartnerSaid(partner, h, "lawyer") {
      var i :| 0 <= i < |h| && FromPartner(h[i], partner) && Contains(Lower(h[i].message), "lawyer");
      assert "lawyer" == "law" + "yer";
      ContainsMiddle("", "law", "yer");
      assert "" + "law" + "yer" == "lawyer";
      ContainsTrans(Lower(h[i].message), "lawyer", "law");
    }
  }

  /** The "law" interest is collected exactly when the partner wrote "law". */
  lemma LawTag(partner: string, h: seq<Entry>)
    ensures "law" in Tags(Rules, partner, h, Interest) <==> PartnerSaid(partner, h, "law")
  {
    SoleRule(Rules, partner, h, 2);
    LawyerMeansLaw(partner, h);
  }

  /** `followup_3`: fitness (yoga or hiking) first, then law, then the cooking-classes text. */
  lemma Followup3Priority(partner: string, h: seq<Entry>)
    ensures SaidFitness(partner, h) ==> Followup3Reply(partner, h) == FitnessReply
    ensures !SaidFitness(partner, h) && PartnerSaid(partner, h, "law") ==>
      Followup3Reply(partner, h) == LawReply
    ensures !SaidFitness(partner, h) && !PartnerSaid(partner, h, "law") ==>
      Followup3Reply(partner, h) == ClassesReply
  {
    var interests, topics := Tags(Rules, partner, h, Interest), Tags(Rules, partner, h, Topic);
    LawTag(partner, h);
    FitnessTag(partner, h);
    if "fitness" in interests {
      ChooseFirst(Followup3, interests, topics, 0);
    } else if "law" in interests {
      ChooseFirst(Followup3, interests, topics, 1);
    } else {
      ChooseDefault(Followup3, interests, topics);
    }
  }
}
