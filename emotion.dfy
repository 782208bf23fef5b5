/** The keyword emotion classifier (`detect_emotion` in app.py): the text is
    lower-cased, four keyword lists are tried in a fixed priority order, and
    the first list with a keyword occurring as a substring decides the label;
    `neutral` is the fallback. Each label carries one fixed reply message. */
module Emotion {
  import opened Text

  /** The five emotion labels, declared in the classifier's priority order. */
  datatype Label = Sadness | Anger | Stress | Happiness | Neutral

  /** What the classifier returns: a label and its canned reply. */
  datatype Detection = Detection(emotion: Label, message: string)

  const SadnessWords: seq<string> := ["sad", "upset", "depressed", "lonely"]
  const AngerWords: seq<string> := ["angry", "mad", "furious", "frustrated"]
  const StressWords: seq<string> := ["stressed", "nervous", "worried", "overwhelmed"]
  const HappinessWords: seq<string> := ["happy", "great", "excited", "good", "wonderful"]

  /** Every keyword of the four rules, in rule order. */
  const AllKeywords: seq<string> := SadnessWords + AngerWords + StressWords + HappinessWords

  /** The trigger keywords of a rule; the neutral rule needs none. */
  function Keywords(l: Label): seq<string> {
    match l
    case Sadness => SadnessWords
    case Anger => AngerWords
    case Stress => StressWords
    case Happiness => HappinessWords
    case Neutral => []
  }

  /** Position of a rule in the priority order: sadness is tried first. */
  function Rank(l: Label): nat {
    match l
    case Sadness => 0
    case Anger => 1
    case Stress => 2
    case Happiness => 3
    case Neutral => 4
  }

  /** The label as the application spells it. */
  function Name(l: Label): string {
    match l
    case Sadness => "sadness"
    case Anger => "anger"
    case Stress => "stress"
    case Happiness => "happiness"
    case Neutral => "neutral"
  }

  /** The fixed reply for each label. */
  function Message(l: Label): string {
    match l
    case Sadness => "You seem low. Take a deep breath, it’s going to be okay. Remember to focus on one small positive thing today."
    case Anger => "Feeling tense? Remember, calm minds solve problems better. Try a 5-minute deep breathing exercise."
    case Stress => "It sounds like you're under pressure. Break down your tasks and tackle them one by one. You've got this!"
    case Happiness => "That's wonderful to hear! Keep that positive energy flowing and share your good mood."
    case Neutral => "Thank you for sharing. I'm here to listen whenever you need. How can I help you further?"
  }

  /** Reference meaning of a rule: it fires on the lower-cased text when one of
      its keywords occurs in it; the neutral rule always fires. */
  ghost predicate Fires(l: Label, lowered: string) {
    l == Neutral || AnyOccurs(lowered, Keywords(l))
  }

  /** The label half of the classifier: the first rule in priority order that
      fires on the lower-cased text. */
  function Classify(text: string): (l: Label)
    ensures Fires(l, Lower(text))
    ensures forall k :: Rank(k) < Rank(l) ==> !Fires(k, Lower(text))
  {
    var t := Lower(text);
    if AnyContained(t, SadnessWords) then Sadness
    else if AnyContained(t, AngerWords) then Anger
    else if AnyContained(t, StressWords) then Stress
    else if AnyContained(t, HappinessWords) then Happiness
    else Neutral
  }

  /** `detect_emotion`: the classified label together with its fixed reply. */
  function DetectEmotion(text: string): (r: Detection)
    ensures r.message == Message(r.emotion)
    ensures Fires(r.emotion, Lower(text))
    ensures forall k :: Rank(k) < Rank(r.emotion) ==> !Fires(k, Lower(text))
  {
    var l := Classify(text);
    Detection(l, Message(l))
  }

  /** Every text, including the empty one, gets one of the five names paired
      with that label's message. The types already give this (`Label` has five
      constructors and `DetectEmotion` has no precondition); the lemma spells
      it out. */
  lemma DetectEmotionTotal(text: string)
    ensures Name(DetectEmotion(text).emotion) in ["sadness", "anger", "stress", "happiness", "neutral"]
    ensures DetectEmotion(text) == Detection(Classify(text), Message(Classify(text)))
  {
  }

  /** Classification ignores ASCII case. */
  lemma {:induction false} CaseInsensitive(text: string)
    ensures DetectEmotion(text) == DetectEmotion(Lower(text))
  {
    LowerIdempotent(text);
    assert Classify(text) == Classify(Lower(text));
  }

  /** A sadness keyword anywhere decides the label, whatever else appears. */
  lemma SadnessWins(text: string, w: string)
    requires w in SadnessWords && Occurs(Lower(text), w)
    ensures Classify(text) == Sadness
  {
  }

  /** Happiness is reported only when no sadness, anger or stress keyword occurs. */
  lemma HappinessOnlyWithoutEarlierKeywords(text: string)
    requires Classify(text) == Happiness
    ensures forall w :: w in SadnessWords + AngerWords + StressWords ==> !Occurs(Lower(text), w)
  {
  }

  /** Neutral is reported exactly when none of the seventeen keywords occurs. */
  lemma NeutralIffNoKeyword(text: string)
    ensures |AllKeywords| == 17
    ensures Classify(text) == Neutral <==> forall w :: w in AllKeywords ==> !Occurs(Lower(text), w)
  {
    var t := Lower(text);
    AnyOccursAppend(t, SadnessWords + AngerWords + StressWords, HappinessWords);
    AnyOccursAppend(t, SadnessWords + AngerWords, StressWords);
    AnyOccursAppend(t, SadnessWords, AngerWords);
  }

  /** Each label is the answer for exactly the texts on which its rule is the
      first to fire: the classifier agrees with the ordered rule table. */
  lemma ClassifyIsFirstMatch(text: string, l: Label)
    ensures Classify(text) == l <==>
      Fires(l, Lower(text)) && forall k :: Rank(k) < Rank(l) ==> !Fires(k, Lower(text))
  {
  }

  /** An upper-case keyword still counts: "I feel SAD today" is sadness. */
  lemma UpperCaseSadExample(text: string)
    requires text == "I feel SAD today"
    ensures Classify(text) == Sadness
  {
    var t := Lower(text);
    assert t[7] == 's' && t[8] == 'a' && t[9] == 'd';
    assert t[7..10] == "sad";
    assert OccursAt(t, "sad", 7);
    SadnessWins(text, "sad");
  }

  /** Sadness beats a happiness keyword in the same text. */
  lemma SadButGreatExample(text: string)
    requires text == "I'm sad but also great"
    ensures Classify(text) == Sadness
  {
    var t := Lower(text);
    assert t[4] == 's' && t[5] == 'a' && t[6] == 'd';
    assert t[4..7] == "sad";
    assert OccursAt(t, "sad", 4);
    SadnessWins(text, "sad");
  }
}
