/** The bundled preset lesson library (data/presets.ts): constant tables and the invariants the
    lesson orchestrator relies on. */
module Presets {
  import opened Types

  /** One entry of the preset menu: its id, its English and Bangla titles and its cover image path. */
  datatype PresetMeta = PresetMeta(id: string, en: string, bn: string, coverUrl: string)

  /** The slides of one preset lesson in each language. */
  datatype PresetData = PresetData(en: seq<Slide>, bn: seq<Slide>)

  /** A slide object literal of the library: text fields and `mediaType: 'image'`, no `id`, no `mediaUrl`. */
  function Card(title: string, explanation: string, visualPrompt: string): Slide {
    Slide(title, explanation, visualPrompt, None, Image, None)
  }

  /** A library slide: an image slide that carries neither a cache id nor a media URL. */
  predicate IsBareImage(s: Slide) {
    s.mediaType == Image && s.id.None? && s.mediaUrl.None?
  }

  const PRESET_LIST: seq<PresetMeta> := [
    PresetMeta("washing-hands", "Washing Hands Properly", "সঠিকভাবে হাত ধোয়া", "/covers/washing-hands.png"),
    PresetMeta("road-safety", "Crossing the Road Safely", "নিরাপদে রাস্তা পারাপার", "/covers/road-safety.png"),
    PresetMeta("school-clean", "Keeping Our School Clean", "বিদ্যালয় পরিষ্কার রাখা", "/covers/school-clean.png"),
    PresetMeta("respect-elders", "Respecting Elders", "বড়দের সম্মান করা", "/covers/respect-elders.png"),
    PresetMeta("wasting-water", "Not Wasting Water", "পানি অপচয় রোধ", "/covers/wasting-water.png"),
    PresetMeta("standing-line", "Standing in Line", "লাইনে ধরে দাঁড়ানো", "/covers/standing-line.png")
  ]

  const WASHING_HANDS: PresetData := PresetData(
    [
      Card("Germs are Everywhere!",
           "Our hands touch many things every day like doorknobs and toys. Germs live on these things and can make us sick.",
           "Close-up cartoon illustration of a child's hands covered in cute, colorful little germ monsters."),
      Card("Use Soap and Water",
           "Water alone is not enough! We need soap to fight the germs. Make sure to get a good lather going.",
           "A bar of soap creating lots of shiny bubbles with a rubber ducky nearby."),
      Card("Scrub for 20 Seconds",
           "Scrub between your fingers. Sing 'Happy Birthday' twice while you wash to know the time is right!",
           "A happy child washing hands at a sink, scrubbing for 20 seconds."),
      Card("Rinse Well",
           "Wash away all the soap bubbles and the germs with clean running water.",
           "Clean, sparkling water rinsing suds off hands into a sink."),
      Card("Dry Your Hands",
           "Use a clean towel or air dry your hands. Now your hands are sparkling clean!",
           "Two hands held up high, sparkling clean, drying with a towel.")
    ],
    [
      Card("জীবাণু সব জায়গায়!",
           "আমাদের হাত প্রতিদিন অনেক কিছু স্পর্শ করে। জীবাণু এখানে থাকে এবং আমাদের অসুস্থ করতে পারে।",
           "Close-up cartoon illustration of a child's hands covered in cute, colorful little germ monsters."),
      Card("সাবান এবং পানি ব্যবহার করো",
           "শুধু পানি যথেষ্ট নয়! জীবাণুর সাথে লড়াই করতে আমাদের সাবান দরকার। ভালো করে ফেনা তৈরি করো।",
           "A bar of soap creating lots of shiny bubbles with a rubber ducky nearby."),
      Card("২০ সেকেন্ড ধরে ঘষো",
           "আঙ্গুলের মাঝে ভালো করে ঘষো। সময় ঠিক রাখতে হাত ধোয়ার সময় দুবার 'হ্যাপি বার্থডে' গান গাও!",
           "A happy child washing hands at a sink, scrubbing for 20 seconds."),
      Card("ভালো করে ধুয়ে ফেলো",
           "পরিষ্কার পানি দিয়ে সমস্ত সাবান এবং জীবাণু ধুয়ে ফেলো।",
           "Clean, sparkling water rinsing suds off hands into a sink."),
      Card("হাত শুকিয়ে নাও",
           "তোয়ালে বা বাতাসে হাত শুকিয়ে নাও। এখন তোমার হাত ঝকঝকে পরিষ্কার!",
           "Two hands held up high, sparkling clean, drying with a towel.")
    ])

  const ROAD_SAFETY: PresetData := PresetData(
    [
      Card("Stop at the Curb",
           "Never run into the street. Always stop at the edge of the sidewalk and wait.",
           "A child stopping safely at the edge of a sidewalk curb. City street background."),
      Card("Look Left and Right",
           "Turn your head to look both ways. Look for cars coming your way.",
           "A cartoon child looking left and right with exaggerated eye movement lines, checking for cars."),
      Card("Listen Carefully",
           "Sometimes you can hear a car before you see it. Take headphones off and listen.",
           "A child cupping their hand to their ear to listen for traffic."),
      Card("Use the Zebra Crossing",
           "Cross where there are white stripes on the road. It helps drivers see you.",
           "A happy child walking across a black and white zebra crossing."),
      Card("Hold an Adult's Hand",
           "If you are small, always hold an adult's hand while crossing. Together is safer!",
           "A small child holding the hand of a taller parent walking.")
    ],
    [
      Card("রাস্তার কিনারে থামো",
           "দৌড়ে রাস্তায় নামবে না। সর্বদা ফুটপাতের কিনারে থামো এবং অপেক্ষা করো।",
           "A child stopping safely at the edge of a sidewalk curb. City street background."),
      Card("ডানে এবং বামে তাকাও",
           "উভয় দিকে তাকাও। দেখো কোনো গাড়ি আসছে কিনা।",
           "A cartoon child looking left and right with exaggerated eye movement lines, checking for cars."),
      Card("মনোযোগ দিয়ে শোনো",
           "গাড়ির শব্দ শোনার চেষ্টা করো। কানে হেডফোন থাকলে খুলে ফেলো।",
           "A child cupping their hand to their ear to listen for traffic."),
      Card("জেব্রা ক্রসিং ব্যবহার করো",
           "রাস্তার সাদা দাগ বা জেব্রা ক্রসিং দিয়ে পার হও। এটি চালকদের তোমাকে দেখতে সাহায্য করে।",
           "A happy child walking across a black and white zebra crossing."),
      Card("বড়দের হাত ধরো",
           "রাস্তা পার হওয়ার সময় সবসময় বড়দের হাত ধরো। একসাথে পার হওয়া নিরাপদ!",
           "A small child holding the hand of a taller parent walking.")
    ])

  const SCHOOL_CLEAN: PresetData := PresetData(
    [
      Card("Pick Up Trash",
           "If you see paper or plastic on the floor, pick it up.",
           "A helpful student bending down to pick up a crumpled piece of paper."),
      Card("Use the Dustbin",
           "Always throw your wrappers in the bin, never on the ground.",
           "A student throwing trash into a colorful recycling bin."),
      Card("Keep Desks Tidy",
           "Arrange your books and pencils neatly. Don't draw on the desks.",
           "A neat and tidy school desk with books stacked perfectly."),
      Card("Don't Spill Food",
           "Eat carefully. If you spill something, clean it up or ask for help.",
           "A child eating lunch carefully at a table, no mess."),
      Card("Work Together",
           "Cleaning is easier when we help each other. Let's keep our class beautiful!",
           "A group of diverse children happily cleaning a classroom together.")
    ],
    [
      Card("ময়লা কুড়াও",
           "মেঝেতে কাগজ বা প্লাস্টিক দেখলে তা তুলে ফেলো।",
           "A helpful student bending down to pick up a crumpled piece of paper."),
      Card("ডাস্টবিন ব্যবহার করো",
           "সবসময় ময়লা নির্দিষ্ট ঝুড়িতে ফেলবে, কখনও মাটিতে ফেলবে না।",
           "A student throwing trash into a colorful recycling bin."),
      Card("ডেস্ক গুছিয়ে রাখো",
           "বই এবং পেন্সিল সাজিয়ে রাখো। ডেস্কের ওপর আঁকাআঁকি করবে না।",
           "A neat and tidy school desk with books stacked perfectly."),
      Card("খাবার ফেলবে না",
           "সাবধানে খাবে। যদি কিছু পড়ে যায়, তবে তা পরিষ্কার করো।",
           "A child eating lunch carefully at a table, no mess."),
      Card("সবাই মিলে কাজ করো",
           "সবাই মিলে কাজ করলে পরিষ্কার করা সহজ হয়। এসো, আমাদের শ্রেণীকক্ষ সুন্দর রাখি!",
           "A group of diverse children happily cleaning a classroom together.")
    ])

  const RESPECT_ELDERS: PresetData := PresetData(
    [
      Card("Say Salam or Hello",
           "Always greet elders when you see them to show respect.",
           "A young child waving and smiling respectfully at an elderly person."),
      Card("Listen When They Speak",
           "Look at them and listen carefully. Don't interrupt.",
           "A child sitting attentively and listening to a grandmother telling a story."),
      Card("Offer Your Seat",
           "If an elder is standing on a bus, give them your seat.",
           "Inside a bus, a child standing up to offer their seat to an older person."),
      Card("Help Them",
           "Offer to carry heavy bags or help them walk if they need it.",
           "A child helping an older person carry a grocery bag."),
      Card("Speak Softly",
           "Use respectful words and a gentle tone.",
           "A child speaking gently, soft colors, flowers, kindness.")
    ],
    [
      Card("সালাম বা হ্যালো বলো",
           "বড়দের দেখলে সম্মান জানাতে সবসময় সালাম দাও বা কুশল বিনিময় করো।",
           "A young child waving and smiling respectfully at an elderly person."),
      Card("তারা যখন কথা বলে তখন শোনো",
           "মনোযোগ দিয়ে শোনো। মাঝখানে কথা বলবে না।",
           "A child sitting attentively and listening to a grandmother telling a story."),
      Card("আসন ছেড়ে দাও",
           "বাসে কোনো বয়স্ক ব্যক্তি দাঁড়িয়ে থাকলে তাদের বসতে দাও।",
           "Inside a bus, a child standing up to offer their seat to an older person."),
      Card("তাদের সাহায্য করো",
           "তাদের ভারী ব্যাগ বহন করতে বা হাঁটতে সাহায্য করার প্রস্তাব দাও।",
           "A child helping an older person carry a grocery bag."),
      Card("নম্রভাবে কথা বলো",
           "শ্রদ্ধাশীল শব্দ এবং শান্ত স্বরে কথা বলো।",
           "A child speaking gently, soft colors, flowers, kindness.")
    ])

  const WASTING_WATER: PresetData := PresetData(
    [
      Card("Turn Off the Tap",
           "Don't let water run while brushing. Turn it on only to rinse.",
           "A bathroom sink with the tap turned OFF."),
      Card("Use a Bucket",
           "Use a bucket to wash things instead of a hose pipe.",
           "A colorful bucket filled with water in a garden."),
      Card("Fix Leaky Taps",
           "If a tap is dripping, close it tight or tell an adult.",
           "A cartoon wrench fixing a dripping tap."),
      Card("Take Shorter Showers",
           "Get clean quickly. Playing in the shower wastes water.",
           "A shower head spraying water, timer clock next to it."),
      Card("Water is Life",
           "Many people don't have clean water. Save it for everyone.",
           "A beautiful blue water drop holding a globe/earth inside it.")
    ],
    [
      Card("কল বন্ধ রাখো",
           "ব্রাশ করার সময় পানি ছেড়ে রাখবে না। শুধু ধোয়ার সময় কল ছাড়ো।",
           "A bathroom sink with the tap turned OFF."),
      Card("বালতি ব্যবহার করো",
           "পাইপের বদলে বালতি ব্যবহার করে কাজ করো।",
           "A colorful bucket filled with water in a garden."),
      Card("কল মেরামত করো",
           "কল থেকে পানি পড়লে তা শক্ত করে বন্ধ করো বা বড়দের বলো।",
           "A cartoon wrench fixing a dripping tap."),
      Card("দ্রুত গোসল করো",
           "তাড়াতাড়ি গোসল সেরে নাও। পানি অপচয় করবে না।",
           "A shower head spraying water, timer clock next to it."),
      Card("পানিই জীবন",
           "অনেকের কাছে পরিষ্কার পানি নেই। সবার জন্য পানি বাঁচাও।",
           "A beautiful blue water drop holding a globe/earth inside it.")
    ])

  const STANDING_LINE: PresetData := PresetData(
    [
      Card("Find the End",
           "Stand at the back of the line. Never cut in front.",
           "A line of cute animal characters standing in a queue."),
      Card("Keep Distance",
           "Stand a little bit away from the person in front of you.",
           "Characters in line with little arrows showing safe space between them."),
      Card("Wait Patiently",
           "Waiting is fair. Chat quietly or think about something fun.",
           "A child standing in line waiting patiently."),
      Card("No Pushing",
           "Keep hands to yourself. Pushing is rude.",
           "A 'No Pushing' sign, cute cartoon style."),
      Card("Order Makes Us Happy",
           "When we stand in line, everyone gets served fairly.",
           "Everyone at the front of the line getting their turn and looking super happy.")
    ],
    [
      Card("লাইনের শেষে দাঁড়াও",
           "লাইনের শেষে দাঁড়াও। কখনও মাঝখানে ঢুকবে না।",
           "A line of cute animal characters standing in a queue."),
      Card("দূরত্ব বজায় রাখো",
           "সামনের ব্যক্তি থেকে একটু দূরে দাঁড়াও।",
           "Characters in line with little arrows showing safe space between them."),
      Card("ধৈর্য ধরো",
           "শান্তভাবে অপেক্ষা করো।",
           "A child standing in line waiting patiently."),
      Card("ধাক্কাধাক্কি করবে না",
           "কাউকে স্পর্শ করবে না। ধাক্কাধাক্কি করা ঠিক নয়।",
           "A 'No Pushing' sign, cute cartoon style."),
      Card("শৃঙ্খলায় শান্তি",
           "লাইনে দাঁড়ালে সবাই সমান সেবা পায়।",
           "Everyone at the front of the line getting their turn and looking super happy.")
    ])

  const PRESET_LESSONS: map<string, PresetData> := map[
    "washing-hands" := WASHING_HANDS,
    "road-safety" := ROAD_SAFETY,
    "school-clean" := SCHOOL_CLEAN,
    "respect-elders" := RESPECT_ELDERS,
    "wasting-water" := WASTING_WATER,
    "standing-line" := STANDING_LINE
  ]

  /** The cover image path the menu uses for a preset id. */
  function CoverUrl(id: string): string {
    "/covers/" + id + ".png"
  }

  /** Five slides per language, the same illustration prompt at each index in both languages,
      and only bare image slides. */
  predicate WellFormedLesson(d: PresetData) {
    && |d.en| == 5 && |d.bn| == 5
    && (forall i :: 0 <= i < 5 ==> d.en[i].visualPrompt == d.bn[i].visualPrompt)
    && (forall i :: 0 <= i < 5 ==> IsBareImage(d.en[i]) && IsBareImage(d.bn[i]))
  }

  lemma WashingHandsWellFormed()
    ensures WellFormedLesson(WASHING_HANDS)
  {
  }

  lemma RoadSafetyWellFormed()
    ensures WellFormedLesson(ROAD_SAFETY)
  {
  }

  lemma SchoolCleanWellFormed()
    ensures WellFormedLesson(SCHOOL_CLEAN)
  {
  }

  lemma RespectEldersWellFormed()
    ensures WellFormedLesson(RESPECT_ELDERS)
  {
  }

  lemma WastingWaterWellFormed()
    ensures WellFormedLesson(WASTING_WATER)
  {
  }

  lemma StandingLineWellFormed()
    ensures WellFormedLesson(STANDING_LINE)
  {
  }

  /** Every lesson the library maps an id to is well formed. */
  lemma LibraryWellFormed()
    ensures forall id :: id in PRESET_LESSONS ==> WellFormedLesson(PRESET_LESSONS[id])
  {
    WashingHandsWellFormed();
    RoadSafetyWellFormed();
    SchoolCleanWellFormed();
    RespectEldersWellFormed();
    WastingWaterWellFormed();
    StandingLineWellFormed();
  }

  /** The ids the menu offers, in menu order. */
  const MENU_IDS: seq<string> :=
    ["washing-hands", "road-safety", "school-clean", "respect-elders", "wasting-water", "standing-line"]

  /** The ids the menu offers. */
  function MenuIds(): set<string> {
    set i | 0 <= i < |PRESET_LIST| :: PRESET_LIST[i].id
  }

  /** The menu's ids, entry by entry. */
  lemma MenuIdsInOrder()
    ensures |PRESET_LIST| == |MENU_IDS|
    ensures forall i :: 0 <= i < |MENU_IDS| ==> PRESET_LIST[i].id == MENU_IDS[i]
  {
    forall i | 0 <= i < |PRESET_LIST| ensures PRESET_LIST[i].id == MENU_IDS[i] {
      if i == 0 {} else if i == 1 {} else if i == 2 {} else if i == 3 {} else if i == 4 {} else {}
    }
  }

  /** The menu lists six presets with pairwise distinct ids. */
  lemma MenuIdsDistinct()
    ensures |PRESET_LIST| == 6
    ensures forall i, j :: 0 <= i < j < |PRESET_LIST| ==> PRESET_LIST[i].id != PRESET_LIST[j].id
  {
    MenuIdsInOrder();
    assert forall i, j :: 0 <= i < j < 6 ==> MENU_IDS[i] != MENU_IDS[j];
  }

  // One lemma per entry: the string comparison of all six entries in one proof is too costly for
  // the solver.

  lemma CoverFollowsId0()
    ensures PRESET_LIST[0].coverUrl == CoverUrl(PRESET_LIST[0].id)
  {
  }

  lemma CoverFollowsId1()
    ensures PRESET_LIST[1].coverUrl == CoverUrl(PRESET_LIST[1].id)
  {
  }

  lemma CoverFollowsId2()
    ensures PRESET_LIST[2].coverUrl == CoverUrl(PRESET_LIST[2].id)
  {
  }

  lemma CoverFollowsId3()
    ensures PRESET_LIST[3].coverUrl == CoverUrl(PRESET_LIST[3].id)
  {
  }

  lemma CoverFollowsId4()
    ensures PRESET_LIST[4].coverUrl == CoverUrl(PRESET_LIST[4].id)
  {
  }

  lemma CoverFollowsId5()
    ensures PRESET_LIST[5].coverUrl == CoverUrl(PRESET_LIST[5].id)
  {
  }

  /** Every cover image path is derived from its preset's id. */
  lemma CoversFollowIds()
    ensures forall i :: 0 <= i < |PRESET_LIST| ==> PRESET_LIST[i].coverUrl == CoverUrl(PRESET_LIST[i].id)
  {
    CoverFollowsId0(); CoverFollowsId1(); CoverFollowsId2();
    CoverFollowsId3(); CoverFollowsId4(); CoverFollowsId5();
  }

  /** The menu's ids are exactly the library's keys: every menu entry has a lesson and every lesson
      is on the menu. */
  lemma MenuAgreesWithLibrary()
    ensures MenuIds() == PRESET_LESSONS.Keys
  {
    MenuIdsInOrder();
    var ids := set i | 0 <= i < |MENU_IDS| :: MENU_IDS[i];
    assert MenuIds() == ids;
    assert MENU_IDS[0] in ids && MENU_IDS[1] in ids && MENU_IDS[2] in ids;
    assert MENU_IDS[3] in ids && MENU_IDS[4] in ids && MENU_IDS[5] in ids;
    assert ids == PRESET_LESSONS.Keys;
  }
}
