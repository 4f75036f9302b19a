/** The rule-based barista: mood detection from free text with a product
    recommendation and a message, the upsell rule, and the keyword order
    parser. The product catalogue is passed in, in table order. */
module AiService {
  import opened Wrappers
  import opened Schema
  import opened Text

  datatype MoodEntry = MoodEntry(
    mood: string, keywords: seq<string>, recommendation: string,
    treatment: string, intros: seq<string>, reason: string)

  /** The mood table, searched in this order. */
  const MOODS: seq<MoodEntry> := [
    MoodEntry("Happy",
      ["happy", "great", "good", "excited", "love", "amazing", "perfect", "wonderful"],
      "Cappuccino",
      "It's truly wonderful to see you in such high spirits!",
      ["That's absolutely fantastic! Your energy is such a gift.",
       "I'm smiling just hearing that. What a beautiful way to feel.",
       "It's moments like these that make my day. I love this for you!"],
      "A velvety, light Cappuccino is the perfect dance partner for your current joy."),
    MoodEntry("Sad",
      ["low", "sad", "unhappy", "blue", "depressed", "gloomy", "crying", "bad day"],
      "Mocha",
      "I am so, so sorry you're feeling low right now. Please know that it's okay to not be okay.",
      ["Sending you a warm virtual hug. I'm right here with you.",
       "I wish I could offer you a real hand to hold, but for now, let me offer you my most comforting brew.",
       "It sounds like your heart is a bit heavy today. Let's take it slow, one sip at a time."],
      "Something rich, chocolatey, and warm like a Mocha can be very grounding and comforting when things feel difficult."),
    MoodEntry("Tired",
      ["tired", "exhausted", "sleepy", "drained", "long day", "need coffee", "wake up"],
      "Double Espresso",
      "I can tell you've been giving your all today, and that's truly admirable.",
      ["It sounds like you've been working so hard. Please, let yourself take a moment to just be.",
       "I can sense the fatigue, but also the perseverance. You're doing great.",
       "A long day calls for a little extra care. I'm here to help you find your spark again."],
      "A Double Espresso is my most dedicated way to help you recharge and find that second wind."),
    MoodEntry("Stressed",
      ["stressed", "busy", "deadline", "work", "anxious", "worried", "pressure", "overwhelmed"],
      "Latte",
      "I'm so sorry things are feeling heavy and overwhelming right now.",
      ["Take a deep breath with me. Right now. One... two... three.",
       "I'm here to provide a little pocket of calm in your busy world.",
       "Let's find a way to quiet the noise together. You're not alone in this."],
      "The warm, gentle texture of a Latte is designed to soothe and help you find a moment of peace."),
    MoodEntry("Chill",
      ["chill", "relax", "cool", "calm", "vibe", "peaceful"],
      "Iced Americano",
      "It's so peaceful to see you in such a balanced state of mind.",
      ["It sounds like you've found your rhythm. That's a beautiful place to be.",
       "Perfect. Let's match that cool, relaxed energy with something refreshing.",
       "I love this vibe you're bringing. It feels very grounded and serene."],
      "An Iced Americano is crisp and clear\U{2014}just like the peace you're feeling right now.")
  ]

  /** What is used when no entry matches. */
  const NEUTRAL := MoodEntry("Neutral", [], "House Blend Coffee",
    "I'm so grateful you shared that with me.",
    ["I'm here to listen and help you find the perfect brew for your moment.",
     "Thank you for being open with me. I'm here to make your day a little brighter.",
     "Every mood is a journey. I'd be honored to accompany you on yours."],
    "A classic, reliable choice to accompany you through whatever the day brings.")

  /** Some keyword of the entry occurs in the (lower-cased) text. */
  predicate Matches(e: MoodEntry, lowerText: string) {
    exists k | 0 <= k < |e.keywords| :: Contains(lowerText, e.keywords[k])
  }

  /** Array.prototype.find: index of the first matching entry, or -1. */
  function FirstMatch(entries: seq<MoodEntry>, lowerText: string): (k: int)
    ensures -1 <= k < |entries|
    ensures k >= 0 ==> Matches(entries[k], lowerText)
    ensures forall j | 0 <= j < |entries| && (k == -1 || j < k) :: !Matches(entries[j], lowerText)
    decreases |entries|
  {
    if entries == [] then -1
    else if Matches(entries[0], lowerText) then 0
    else
      var k := FirstMatch(entries[1..], lowerText);
      assert forall j | 1 <= j < |entries| :: entries[j] == entries[1..][j - 1];
      if k < 0 then -1 else k + 1
  }

  /** The detected entry: the first in table order with a keyword in the
      lower-cased text, else Neutral. */
  function Detect(text: string): (e: MoodEntry)
    ensures |e.intros| == 3
    ensures e == NEUTRAL <==> forall j | 0 <= j < |MOODS| :: !Matches(MOODS[j], Lower(text))
    ensures e != NEUTRAL ==>
      exists j | 0 <= j < |MOODS| :: e == MOODS[j] && Matches(e, Lower(text))
        && forall i | 0 <= i < j :: !Matches(MOODS[i], Lower(text))
  {
    var k := FirstMatch(MOODS, Lower(text));
    MoodTableShape();
    if k < 0 then NEUTRAL else MOODS[k]
  }

  /** Every table entry offers three intros and none is named Neutral. */
  lemma MoodTableShape()
    ensures forall j | 0 <= j < |MOODS| :: |MOODS[j].intros| == 3 && MOODS[j].mood != NEUTRAL.mood
  {
  }

  /** Detection ignores case. */
  lemma DetectIgnoresCase(text: string)
    ensures Detect(Lower(text)) == Detect(text)
  {
    LowerOfLowerCase(Lower(text));
  }

  /** "unhappy" contains "happy" and Happy is checked first, so a text saying
      "unhappy" is read as Happy. */
  lemma UnhappyReadsAsHappy(text: string)
    requires Contains(Lower(text), "unhappy")
    ensures Detect(text).mood == "Happy"
  {
    ContainsInfix("un", "happy", "");
    assert "un" + "happy" + "" == "unhappy";
    ContainsTransitive(Lower(text), "unhappy", "happy");
    assert MOODS[0].keywords[0] == "happy";
    assert Matches(MOODS[0], Lower(text));
  }

  /** Each Happy keyword has a letter among h, g, x, o, a, p, w, so a text
      with none of those letters matches no Happy keyword. */
  lemma NotHappy(t: string)
    requires 'h' !in t && 'g' !in t && 'x' !in t && 'o' !in t
    requires 'a' !in t && 'p' !in t && 'w' !in t
    ensures !Matches(MOODS[0], t)
  {
    assert MOODS[0].keywords == ["happy", "great", "good", "excited", "love", "amazing", "perfect", "wonderful"];
    MissingCharNotContained(t, "happy", 'h');
    MissingCharNotContained(t, "great", 'g');
    MissingCharNotContained(t, "good", 'g');
    MissingCharNotContained(t, "excited", 'x');
    MissingCharNotContained(t, "love", 'o');
    MissingCharNotContained(t, "amazing", 'a');
    MissingCharNotContained(t, "perfect", 'p');
    MissingCharNotContained(t, "wonderful", 'w');
  }

  /** Each Sad keyword has a letter among o, s, u, b, p, g, c, so a text
      with none of those letters matches no Sad keyword. */
  lemma NotSad(t: string)
    requires 'o' !in t && 's' !in t && 'u' !in t && 'b' !in t
    requires 'p' !in t && 'g' !in t && 'c' !in t
    ensures !Matches(MOODS[1], t)
  {
    assert MOODS[1].keywords == ["low", "sad", "unhappy", "blue", "depressed", "gloomy", "crying", "bad day"];
    MissingCharNotContained(t, "low", 'o');
    MissingCharNotContained(t, "sad", 's');
    MissingCharNotContained(t, "unhappy", 'u');
    MissingCharNotContained(t, "blue", 'b');
    MissingCharNotContained(t, "depressed", 'p');
    MissingCharNotContained(t, "gloomy", 'g');
    MissingCharNotContained(t, "crying", 'c');
    MissingCharNotContained(t, "bad day", 'b');
  }

  /** A tired text is read as Tired: neither a Happy nor a Sad keyword
      occurs in it. */
  lemma TiredText()
    ensures Detect("I feel tired").mood == "Tired"
  {
    var t := Lower("I feel tired");
    assert t == "i feel tired";
    assert forall i | 0 <= i < |t| :: t[i] in {'i', ' ', 'f', 'e', 'l', 't', 'r', 'd'};
    NotHappy(t);
    NotSad(t);
    assert t[7..12] == "tired";
    assert OccursAt(t, MOODS[2].keywords[0], 7);
    assert Matches(MOODS[2], t);
  }

  /** A text with no keyword of any entry gets the neutral entry. */
  lemma NoKeywordIsNeutral(text: string)
    requires forall j, k | 0 <= j < |MOODS| && 0 <= k < |MOODS[j].keywords| ::
      !Contains(Lower(text), MOODS[j].keywords[k])
    ensures Detect(text).mood == "Neutral" && Detect(text).recommendation == "House Blend Coffee"
  {
  }

  /** Index of the first product whose name contains `part`, or -1. */
  function FirstNamed(products: seq<Product>, part: string): (k: int)
    ensures -1 <= k < |products|
    ensures k >= 0 ==> Contains(products[k].name, part)
    ensures forall j | 0 <= j < |products| && (k == -1 || j < k) :: !Contains(products[j].name, part)
    decreases |products|
  {
    if products == [] then -1
    else if Contains(products[0].name, part) then 0
    else
      var k := FirstNamed(products[1..], part);
      assert forall j | 1 <= j < |products| :: products[j] == products[1..][j - 1];
      if k < 0 then -1 else k + 1
  }

  /** findFirst on a name substring. */
  function FindFirstNamed(products: seq<Product>, part: string): (r: Option<Product>)
    ensures r.Some? <==> exists j | 0 <= j < |products| :: Contains(products[j].name, part)
    ensures r.Some? ==> r.value in products && Contains(r.value.name, part)
    ensures r.Some? ==> exists k | 0 <= k < |products| ::
      products[k] == r.value && forall j | 0 <= j < k :: !Contains(products[j].name, part)
  {
    var k := FirstNamed(products, part);
    if k < 0 then None else Some(products[k])
  }

  /** The product fallback chain: the hinted product, else a coffee, else the
      first product at all. */
  function ChooseProduct(products: seq<Product>, hint: string): (r: Option<Product>)
    ensures r.None? <==> products == []
    ensures r.Some? ==> r.value in products
    ensures FindFirstNamed(products, hint).Some? ==> Contains(r.value.name, hint)
    ensures FindFirstNamed(products, hint).None? && FindFirstNamed(products, "Coffee").Some? ==>
      Contains(r.value.name, "Coffee")
  {
    match FindFirstNamed(products, hint)
    case Some(p) => Some(p)
    case None =>
      match FindFirstNamed(products, "Coffee")
      case Some(p) => Some(p)
      case None => if products == [] then None else Some(products[0])
  }

  /** A template slot holding a missing product renders as "undefined". */
  function NameOrUndefined(p: Option<Product>): string {
    if p.Some? then p.value.name else "undefined"
  }

  function BaristaMessage(intro: string, treatment: string, product: Option<Product>, reason: string): (m: string)
    ensures StartsWith(m, intro) && EndsWith(m, reason)
    ensures |m| > |intro| + |treatment| + |NameOrUndefined(product)| + |reason|
  {
    intro + " " + treatment + " Based on what you've told me, I've specially selected our "
      + NameOrUndefined(product) + " just for you. " + reason
  }

  /** The message opens with the intro and mentions the treatment, the
      product's name and the reason. */
  lemma MessageMentions(intro: string, treatment: string, product: Option<Product>, reason: string)
    ensures StartsWith(BaristaMessage(intro, treatment, product, reason), intro)
    ensures Contains(BaristaMessage(intro, treatment, product, reason), treatment)
    ensures Contains(BaristaMessage(intro, treatment, product, reason), NameOrUndefined(product))
    ensures Contains(BaristaMessage(intro, treatment, product, reason), reason)
  {
    var name := NameOrUndefined(product);
    var x1 := intro + " ";
    var x2 := x1 + treatment;
    var x3 := x2 + " Based on what you've told me, I've specially selected our ";
    var x4 := x3 + name;
    var x5 := x4 + " just for you. ";
    var msg := x5 + reason;
    assert BaristaMessage(intro, treatment, product, reason) == msg;
    assert msg[..|intro|] == intro by {
      assert msg[..|x1|] == x1;
    }
    assert OccursAt(msg, treatment, |x1|) by {
      assert msg[..|x2|] == x2;
      assert x2[|x1|..] == treatment;
    }
    assert OccursAt(msg, name, |x3|) by {
      assert msg[..|x4|] == x4;
      assert x4[|x3|..] == name;
    }
    assert OccursAt(msg, reason, |x5|) by {
      assert msg[|x5|..] == reason;
    }
  }

  datatype MoodReply = MoodReply(mood: string, product: Option<Product>, message: string)

  /** analyzeMood. `pick` is the random intro index, one of 0, 1, 2. */
  function AnalyzeMood(text: string, products: seq<Product>, pick: nat): (r: MoodReply)
    requires pick < 3
    ensures r.mood == Detect(text).mood
    ensures r.product == ChooseProduct(products, Detect(text).recommendation)
    ensures r.product.Some? ==> Contains(r.message, r.product.value.name)
    ensures Contains(r.message, Detect(text).reason)
    ensures Contains(r.message, Detect(text).treatment)
    ensures StartsWith(r.message, Detect(text).intros[pick])
  {
    var e := Detect(text);
    var product := ChooseProduct(products, e.recommendation);
    var msg := BaristaMessage(e.intros[pick], e.treatment, product, e.reason);
    MessageMentions(e.intros[pick], e.treatment, product, e.reason);
    MoodReply(e.mood, product, msg)
  }

  /** recommend: the mood name is analysed as free text. */
  function Recommend(mood: string, products: seq<Product>, pick: nat): (r: MoodReply)
    requires pick < 3
    ensures r == AnalyzeMood(mood, products, pick)
  {
    AnalyzeMood(mood, products, pick)
  }

  /** What the client sends per cart line; either field may be missing. */
  datatype UpsellItem = UpsellItem(name: Option<string>, category: Option<string>)

  predicate GoesWithPastry(item: UpsellItem) {
    || (item.name.Some? && Contains(Lower(item.name.value), "coffee"))
    || item.category == Some("HOT")
    || item.category == Some("COLD")
  }

  datatype Suggestion = Suggestion(suggestion: string, product: Option<Product>, reason: string)

  /** upsell: a cookie when some line is a coffee or a hot or cold drink,
      else water; the product is the first whose name contains the
      suggestion. */
  function Upsell(items: seq<UpsellItem>, products: seq<Product>): (r: Suggestion)
    ensures r.suggestion in {"Chocolate Cookie", "Bottle of Water"}
    ensures r.suggestion == "Chocolate Cookie" <==> exists i | 0 <= i < |items| :: GoesWithPastry(items[i])
    ensures r.reason == (if r.suggestion == "Chocolate Cookie" then "Pairs perfectly with your coffee." else "Stay hydrated!")
    ensures r.product == FindFirstNamed(products, r.suggestion)
  {
    var hasCoffee := exists i | 0 <= i < |items| :: GoesWithPastry(items[i]);
    var name := if hasCoffee then "Chocolate Cookie" else "Bottle of Water";
    var reason := if hasCoffee then "Pairs perfectly with your coffee." else "Stay hydrated!";
    Suggestion(name, FindFirstNamed(products, name), reason)
  }

  /** Coffee in any capitalisation counts. */
  lemma UpsellIgnoresNameCase()
    ensures Upsell([UpsellItem(Some("Iced COFFEE"), Some("DRINKS"))], []).suggestion == "Chocolate Cookie"
  {
    var item := UpsellItem(Some("Iced COFFEE"), Some("DRINKS"));
    assert Lower("Iced COFFEE") == "iced coffee";
    assert "iced coffee"[5..11] == "coffee";
    assert OccursAt("iced coffee", "coffee", 5);
    assert GoesWithPastry(item);
    assert [item][0] == item;
  }

  datatype ParsedOrder = ParsedOrder(product: string, quantity: int)

  /** nlpOrder: three keyword rules tried in priority order. */
  function NlpOrder(text: string): (r: Option<ParsedOrder>)
    ensures r.Some? ==> r.value.quantity == 1
    ensures r == Some(ParsedOrder("Double Espresso", 1)) <==>
      Contains(Lower(text), "strong") && Contains(Lower(text), "hot")
    ensures r == Some(ParsedOrder("Iced Caramel Macchiato", 1)) <==>
      !(Contains(Lower(text), "strong") && Contains(Lower(text), "hot"))
      && Contains(Lower(text), "sweet") && Contains(Lower(text), "cold")
    ensures r == Some(ParsedOrder("Latte", 1)) <==>
      !(Contains(Lower(text), "strong") && Contains(Lower(text), "hot"))
      && !(Contains(Lower(text), "sweet") && Contains(Lower(text), "cold"))
      && Contains(Lower(text), "latte")
    ensures r.None? <==>
      !(Contains(Lower(text), "strong") && Contains(Lower(text), "hot"))
      && !(Contains(Lower(text), "sweet") && Contains(Lower(text), "cold"))
      && !Contains(Lower(text), "latte")
  {
    var t := Lower(text);
    if Contains(t, "strong") && Contains(t, "hot") then Some(ParsedOrder("Double Espresso", 1))
    else if Contains(t, "sweet") && Contains(t, "cold") then Some(ParsedOrder("Iced Caramel Macchiato", 1))
    else if Contains(t, "latte") then Some(ParsedOrder("Latte", 1))
    else None
  }

  /** The parser ignores case. */
  lemma NlpOrderIgnoresCase(text: string)
    ensures NlpOrder(Lower(text)) == NlpOrder(text)
  {
    LowerOfLowerCase(Lower(text));
  }

  /** The first rule wins: a strong hot latte is a Double Espresso. */
  lemma NlpOrderPriority()
    ensures NlpOrder("strong hot latte") == Some(ParsedOrder("Double Espresso", 1))
  {
    var t := Lower("strong hot latte");
    assert t == "strong hot latte";
    assert OccursAt(t, "strong", 0);
    assert t[7..10] == "hot";
    assert OccursAt(t, "hot", 7);
  }
}
