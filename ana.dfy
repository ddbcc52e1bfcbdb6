/** Ana's tables for the reply generator (agents/ag2ana/agent.py) and what they imply. */
module Ana {
  import opened Text
  import opened Persona

  const Rules: seq<TagRule> := [
    TagRule("cooking", "chef", "cooking", Interest),
    TagRule("motorcycle", "riding", "motorcycles", Interest),
    TagRule("business", "restaurant", "business", Interest),
    TagRule("animal", "welfare", "animal welfare", Topic),
    TagRule("hobby", "hobbies", "hobbies", Topic),
    TagRule("turkish", "cuisine", "turkish cuisine", Interest),
    TagRule("travel", "traveling", "travel", Topic),
    TagRule("music", "concert", "music", Topic),
    TagRule("book", "reading", "reading", Topic),
    TagRule("fitness", "exercise", "fitness", Topic),
    TagRule("environment", "sustainability", "environment", Topic)
  ]

  const WelfareReply := "I'm so glad to hear you care about " + "animal welfare! I've been working on a " + "new animal rights campaign focused on " + "factory farming. It's so important to " + "raise awareness about these issues. " + "What specific animal welfare causes " + "interest you?"
  const ChefReply := "I've been working on a new animal " + "rights campaign focused on factory " + "farming. It's so important to raise " + "awareness about these issues. As a " + "chef, do you consider ethical sourcing " + "in your cooking?"
  const CampaignReply := "I've been working on a new animal " + "rights campaign focused on factory " + "farming. It's so important to raise " + "awareness about these issues. Do you " + "care about animal welfare?"

  const HikingReply := "When I'm not working on cases, I love " + "to go hiking in the mountains. The " + "connection with nature helps me stay " + "grounded. Do you enjoy outdoor " + "activities?"
  const CauseReply := "A big part of my life is my work in " + "animal rights. I'm currently working on " + "legislation to improve conditions in " + "factory farms. Is there a social cause " + "you're passionate about?"
  const RoutineReply := "I'm curious about your daily routine. I " + "practice yoga every morning to center " + "myself before a busy day of legal work. " + "Do you have any daily practices that " + "help you stay balanced?"

  const YogaRidingReply := "I also practice yoga every morning - " + "it's a wonderful way to start the day " + "with mindfulness. Have you ever tried " + "yoga? It might be a nice complement to " + "the thrill of motorcycle riding."
  const TurkishFoodReply := "I love Mexican cuisine, but I'm not " + "very familiar with Turkish food. What " + "dishes would you recommend I try first?"
  const YogaReply := "I also practice yoga every morning - " + "it's a wonderful way to start the day " + "with mindfulness. Do you have any daily " + "routines that help you stay centered?"

  const Followup1 := StageTable([
    Branch("animal welfare", Interest, true, WelfareReply),
    Branch("cooking", Interest, true, ChefReply)
  ], CampaignReply)

  const Followup2 := StageTable([
    Branch("hobbies", Topic, false, HikingReply),
    Branch("animal welfare", Topic, false, CauseReply)
  ], RoutineReply)

  const Followup3 := StageTable([
    Branch("motorcycles", Interest, true, YogaRidingReply),
    Branch("turkish cuisine", Interest, true, TurkishFoodReply)
  ], YogaReply)

  const Topics: seq<string> := [
    "I've been working on a new legal case " + "involving wildlife protection. It's " + "challenging but rewarding work. Have " + "you ever been involved in conservation " + "efforts?",
    "I'm planning a hiking trip to the " + "mountains next month. Do you enjoy " + "outdoor activities?",
    "Mexican cuisine is so diverse across " + "different regions. Have you ever tried " + "authentic Mexican food?",
    "I find that yoga helps me stay centered " + "when my legal work gets stressful. Do " + "you have any stress management " + "techniques?",
    "I've been reading about sustainable " + "living practices. Do you incorporate " + "sustainability into your daily life?",
    "I volunteer at an animal shelter on " + "weekends. Have you ever done volunteer " + "work?",
    "I'm passionate about environmental law. " + "What environmental issues concern you " + "the most?",
    "I love exploring different cultural " + "traditions. What aspects of your " + "culture are most important to you?",
    "I've been learning about mindfulness " + "meditation lately. Have you ever " + "practiced meditation?",
    "I'm considering taking a sabbatical " + "next year to work on international " + "animal rights issues. Have you ever " + "taken time off to pursue a passion?"
  ]

  const Fallbacks: seq<Fallback> := [
    Fallback("turkish cuisine", Interest, "turkish", "I'm curious about Turkish cuisine. What " + "are some traditional dishes that " + "represent your culinary heritage?"),
    Fallback("business", Interest, "business", "Running a business must be challenging. " + "How do you balance the demands of " + "entrepreneurship with your personal " + "life?"),
    Fallback("motorcycles", Interest, "motorcycle", "I've never ridden a motorcycle before. " + "What drew you to that hobby, and what " + "do you enjoy most about it?"),
    Fallback("travel", Topic, "travel", "I try to travel to different parts of " + "Mexico when I can to connect with my " + "heritage. Have you traveled much in " + "your home country?"),
    Fallback("music", Topic, "music", "I find that music helps me relax after " + "a long day in court. Do you have " + "favorite artists or genres that you " + "enjoy?"),
    Fallback("reading", Topic, "reading", "I'm currently reading a book about " + "international animal rights law. Are " + "you a reader? What kinds of books do " + "you enjoy?"),
    Fallback("fitness", Topic, "fitness", "Besides yoga and hiking, I've been " + "trying to incorporate more fitness into " + "my routine. Do you have any workout " + "recommendations?"),
    Fallback("environment", Topic, "environment", "Environmental protection is closely " + "tied to my animal rights work. What " + "environmental issues do you think " + "deserve more attention?")
  ]

  const Profile := Persona.Profile(
    "Ana", Rules,
    "Hello ", ", I'm Ana! I'm a Mexican lawyer and " + "animal rights activist. I enjoy yoga " + "and hiking in my free time. What are " + "your interests?",
    Followup1, Followup2, Followup3, Topics, Fallbacks,
    "I'm really enjoying our conversation, ", ". What other interests or passions would you like to share?")

  /** What `followup_1` answers, from the tags the history gave. */
  function Followup1Reply(partner: string, h: seq<Entry>): string {
    Choose(Followup1, Tags(Rules, partner, h, Interest), Tags(Rules, partner, h, Topic))
  }

  /** What `followup_2` answers, from the tags the history gave. */
  function Followup2Reply(partner: string, h: seq<Entry>): string {
    Choose(Followup2, Tags(Rules, partner, h, Interest), Tags(Rules, partner, h, Topic))
  }

  /** What `followup_3` answers, from the tags the history gave. */
  function Followup3Reply(partner: string, h: seq<Entry>): string {
    Choose(Followup3, Tags(Rules, partner, h, Interest), Tags(Rules, partner, h, Topic))
  }

  /** Ana's `generate_message` answers the three follow-up stages with these replies. */
  lemma FollowupReplies(partner: string, h: seq<Entry>, pick: nat)
    ensures Message(Profile, partner, h, Followup1Stage, pick) == Followup1Reply(partner, h)
    ensures Message(Profile, partner, h, Followup2Stage, pick) == Followup2Reply(partner, h)
    ensures Message(Profile, partner, h, Followup3Stage, pick) == Followup3Reply(partner, h)
  {
    FollowupMessage(Profile, partner, h, pick);
  }

  ghost predicate SaidCooking(partner: string, h: seq<Entry>) {
    PartnerSaid(partner, h, "cooking") || PartnerSaid(partner, h, "chef")
  }

  ghost predicate SaidMotorcycle(partner: string, h: seq<Entry>) {
    PartnerSaid(partner, h, "motorcycle") || PartnerSaid(partner, h, "riding")
  }

  ghost predicate SaidWelfare(partner: string, h: seq<Entry>) {
    PartnerSaid(partner, h, "animal") || PartnerSaid(partner, h, "welfare")
  }

  ghost predicate SaidHobby(partner: string, h: seq<Entry>) {
    PartnerSaid(partner, h, "hobby") || PartnerSaid(partner, h, "hobbies")
  }

  ghost predicate SaidTurkish(partner: string, h: seq<Entry>) {
    PartnerSaid(partner, h, "turkish") || PartnerSaid(partner, h, "cuisine")
  }

  /** The "cooking" interest is collected exactly when the partner wrote "cooking" or "chef". */
  lemma CookingTag(partner: string, h: seq<Entry>)
    ensures "cooking" in Tags(Rules, partner, h, Interest) <==> SaidCooking(partner, h)
  {
    SoleRule(Rules, partner, h, 0);
  }

  /** The "motorcycles" interest is collected exactly when the partner wrote "motorcycle" or "riding". */
  lemma MotorcycleTag(partner: string, h: seq<Entry>)
    ensures "motorcycles" in Tags(Rules, partner, h, Interest) <==> SaidMotorcycle(partner, h)
  {
    SoleRule(Rules, partner, h, 1);
  }

  /** The "animal welfare" topic is collected exactly when the partner wrote "animal" or "welfare". */
  lemma WelfareTag(partner: string, h: seq<Entry>)
    ensures "animal welfare" in Tags(Rules, partner, h, Topic) <==> SaidWelfare(partner, h)
  {
    SoleRule(Rules, partner, h, 3);
  }

  /** The "hobbies" topic is collected exactly when the partner wrote "hobby" or "hobbies". */
  lemma HobbyTag(partner: string, h: seq<Entry>)
    ensures "hobbies" in Tags(Rules, partner, h, Topic) <==> SaidHobby(partner, h)
  {
    SoleRule(Rules, partner, h, 4);
  }

  /** The "turkish cuisine" interest is collected exactly when the partner wrote "turkish" or "cuisine". */
  lemma TurkishTag(partner: string, h: seq<Entry>)
    ensures "turkish cuisine" in Tags(Rules, partner, h, Interest) <==> SaidTurkish(partner, h)
  {
    SoleRule(Rules, partner, h, 5);
  }

  /** No rule of Ana's makes "animal welfare" an interest. */
  lemma NoWelfareInterest(partner: string, h: seq<Entry>)
    ensures "animal welfare" !in Tags(Rules, partner, h, Interest)
  {
    NoRule(Rules, partner, h, Interest, "animal welfare");
  }

  /** `followup_1` answers with the chef text exactly when the partner wrote "cooking" or "chef", else with the campaign question. */
  lemma Followup1Chef(partner: string, h: seq<Entry>)
    ensures Followup1Reply(partner, h) == ChefReply <==> SaidCooking(partner, h)
    ensures Followup1Reply(partner, h) in {ChefReply, CampaignReply}
  {
    var interests, topics := Tags(Rules, partner, h, Interest), Tags(Rules, partner, h, Topic);
    NoWelfareInterest(partner, h);
    CookingTag(partner, h);
    if "cooking" in interests {
      ChooseFirst(Followup1, interests, topics, 1);
    } else {
      ChooseDefault(Followup1, interests, topics);
      assert |ChefReply| != |CampaignReply|;
    }
  }

  /**
   * Ana's rules put "animal welfare" only among the topics, so the first arm of
   * `followup_1`, which looks for it among the interests, is dead.
   */
  lemma Followup1NeverWelfare(partner: string, h: seq<Entry>)
    ensures Followup1Reply(partner, h) != WelfareReply
  {
    Followup1Chef(partner, h);
    assert |WelfareReply| != |ChefReply| && |WelfareReply| != |CampaignReply|;
  }

  /**
   * `followup_2`: the hiking text until the partner mentions a hobby, then the cause
   * text until they mention animals or welfare, then the routine text.
   */
  lemma Followup2Priority(partner: string, h: seq<Entry>)
    ensures !SaidHobby(partner, h) ==> Followup2Reply(partner, h) == HikingReply
    ensures SaidHobby(partner, h) && !SaidWelfare(partner, h) ==> Followup2Reply(partner, h) == CauseReply
    ensures SaidHobby(partner, h) && SaidWelfare(partner, h) ==> Followup2Reply(partner, h) == RoutineReply
  {
    var interests, topics := Tags(Rules, partner, h, Interest), Tags(Rules, partner, h, Topic);
    HobbyTag(partner, h);
    WelfareTag(partner, h);
    if "hobbies" !in topics {
      ChooseFirst(Followup2, interests, topics, 0);
    } else if "animal welfare" !in topics {
      ChooseFirst(Followup2, interests, topics, 1);
    } else {
      ChooseDefault(Followup2, interests, topics);
    }
  }

  /** `followup_3`: motorcycles first, then Turkish cuisine, then the plain yoga text. */
  lemma Followup3Priority(partner: string, h: seq<Entry>)
    ensures SaidMotorcycle(partner, h) ==> Followup3Reply(partner, h) == YogaRidingReply
    ensures !SaidMotorcycle(partner, h) && SaidTurkish(partner, h) ==> Followup3Reply(partner, h) == TurkishFoodReply
    ensures !SaidMotorcycle(partner, h) && !SaidTurkish(partner, h) ==> Followup3Reply(partner, h) == YogaReply
  {
    var interests, topics := Tags(Rules, partner, h, Interest), Tags(Rules, partner, h, Topic);
    MotorcycleTag(partner, h);
    TurkishTag(partner, h);
    if "motorcycles" in interests {
      ChooseFirst(Followup3, interests, topics, 0);
    } else if "turkish cuisine" in interests {
      ChooseFirst(Followup3, interests, topics, 1);
    } else {
      ChooseDefault(Followup3, interests, topics);
    }
  }
}
