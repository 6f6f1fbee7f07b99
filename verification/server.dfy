/**
 The mood-aware prompt builder of the companion backend and the two strings
 the endpoints build around it.

 `SystemMessage` is the system instruction handed to the language model: the
 guidance for the (case-insensitive) mood, one suffix chosen by the intensity
 band, and a fixed closing directive. `UserText` is the user turn sent by the
 mood-report endpoint, and `MoodContext` is the `mood-intensity` label stored
 with each chat message. All three are pure and total.
 */
module Server {
  import opened Wrappers
  import opened Text

  /* ---------- Base guidance ---------- */

  /** The nine moods the guidance table names. */
  datatype Mood = Sad | Anxious | Angry | Happy | Excited | Calm | Tired | Confused | Proud

  /** The table key of a mood: a non-empty word of small ASCII letters, so
      lower-casing leaves it unchanged. */
  function Key(m: Mood): (r: string)
    ensures |r| > 0 && forall i :: 0 <= i < |r| ==> 'a' <= r[i] <= 'z'
  {
    match m
    case Sad => "sad"
    case Anxious => "anxious"
    case Angry => "angry"
    case Happy => "happy"
    case Excited => "excited"
    case Calm => "calm"
    case Tired => "tired"
    case Confused => "confused"
    case Proud => "proud"
  }

  /** The guidance the table gives a mood; every one is longer than the
      default guidance. */
  function Guidance(m: Mood): (r: string)
    ensures |r| > |DefaultGuidance|
  {
    match m
    case Sad => SadGuidance
    case Anxious => AnxiousGuidance
    case Angry => AngryGuidance
    case Happy => HappyGuidance
    case Excited => ExcitedGuidance
    case Calm => CalmGuidance
    case Tired => TiredGuidance
    case Confused => ConfusedGuidance
    case Proud => ProudGuidance
  }

  const SadGuidance: string :=
      "Tu es un compagnon émotionnel bienveillant et empathique. "
      + "L'utilisateur se sent triste. "
      + "Offre du réconfort, "
      + "de la compréhension et des conseils doux pour l'aider à se sentir mieux. "
      + "Propose des exercices de respiration, "
      + "des pensées positives, "
      + "ou des activités apaisantes."
  const AnxiousGuidance: string :=
      "Tu es un compagnon émotionnel calme et rassurant. "
      + "L'utilisateur est anxieux. "
      + "Aide-le à se détendre avec des techniques de respiration, "
      + "de la pleine conscience, "
      + "et des paroles apaisantes. "
      + "Rappelle-lui que l'anxiété est temporaire."
  const AngryGuidance: string :=
      "Tu es un compagnon émotionnel patient et compréhensif. "
      + "L'utilisateur est en colère. "
      + "Aide-le à canaliser cette émotion de manière constructive. "
      + "Propose des techniques de relaxation et d'expression saine de la colère."
  const HappyGuidance: string :=
      "Tu es un compagnon émotionnel joyeux et encourageant. "
      + "L'utilisateur est heureux ! "
      + "Célèbre avec lui, "
      + "encourage cette énergie positive, "
      + "et propose des activités ou défis qui maintiennent cette belle humeur."
  const ExcitedGuidance: string :=
      "Tu es un compagnon émotionnel dynamique et motivant. "
      + "L'utilisateur est excité ! "
      + "Nourris cette énergie positive, "
      + "propose des projets stimulants ou des défis créatifs qui canalisent cette excitation."
  const CalmGuidance: string :=
      "Tu es un compagnon émotionnel paisible et sage. "
      + "L'utilisateur se sent calme. "
      + "Renforce ce sentiment de sérénité, "
      + "propose des moments de méditation ou de réflexion pour approfondir cette paix intérieure."
  const TiredGuidance: string :=
      "Tu es un compagnon émotionnel doux et réconfortant. "
      + "L'utilisateur est fatigué. "
      + "Encourage le repos, "
      + "propose des techniques de relaxation, "
      + "et rappelle l'importance de prendre soin de soi."
  const ConfusedGuidance: string :=
      "Tu es un compagnon émotionnel patient et éclairant. "
      + "L'utilisateur se sent confus. "
      + "Aide-le à clarifier ses pensées, "
      + "pose des questions bienveillantes pour l'aider à voir plus clair."
  const ProudGuidance: string :=
      "Tu es un compagnon émotionnel admiratif et encourageant. "
      + "L'utilisateur se sent fier ! "
      + "Célèbre ses accomplissements, "
      + "renforce sa confiance en lui, "
      + "et encourage cette fierté méritée."

  /** The guidance used for every mood the table does not name. */
  const DefaultGuidance: string := "Tu es un compagnon émotionnel bienveillant qui s'adapte à tous les états émotionnels avec empathie et sagesse."

  /** Looks a key up in the table. */
  function MoodOfKey(key: string): (r: Option<Mood>)
    ensures r.Some? ==> Key(r.value) == key
    ensures r.None? ==> forall m :: Key(m) != key
  {
    if key == "sad" then Some(Sad)
    else if key == "anxious" then Some(Anxious)
    else if key == "angry" then Some(Angry)
    else if key == "happy" then Some(Happy)
    else if key == "excited" then Some(Excited)
    else if key == "calm" then Some(Calm)
    else if key == "tired" then Some(Tired)
    else if key == "confused" then Some(Confused)
    else if key == "proud" then Some(Proud)
    else None
  }

  /** Looks the lower-cased mood up in the table, falling back to the
      default guidance exactly when the lower-cased mood is not a key. */
  function BaseMessage(mood: string): (r: string)
    ensures r == DefaultGuidance <==> MoodOfKey(Lower(mood)) == None
  {
    match MoodOfKey(Lower(mood))
    case Some(m) => Guidance(m)
    case None => DefaultGuidance
  }

  /** Every key is lower-case and is found again by the lookup, so each of
      the nine entries can be reached. */
  lemma KeysReachable(m: Mood)
    ensures Lower(Key(m)) == Key(m)
    ensures MoodOfKey(Key(m)) == Some(m)
  {
    LowerOfLower(Key(m));
  }

  /** No two moods share a guidance, and none gets the default one. */
  lemma GuidanceDistinct(m1: Mood, m2: Mood)
    ensures Guidance(m1) == Guidance(m2) <==> m1 == m2
    ensures Guidance(m1) != DefaultGuidance
  {
    GuidanceLength(m1);
    GuidanceLength(m2);
    assert |DefaultGuidance| == 110;
    if {m1, m2} == {Confused, Proud} {
      assert ConfusedGuidance[178] == 'r' && ProudGuidance[178] == 'e';
    }
  }

  /** The lengths of the nine guidances: only `confused` and `proud` share one. */
  lemma GuidanceLength(m: Mood)
    ensures |Guidance(m)| == match m
      case Sad => 270 case Anxious => 229 case Angry => 215
      case Happy => 204 case Excited => 197 case Calm => 201
      case Tired => 185 case Confused => 180 case Proud => 180
  {
    match m
    case Sad => assert |SadGuidance| == 270;
    case Anxious => assert |AnxiousGuidance| == 229;
    case Angry => assert |AngryGuidance| == 215;
    case Happy => assert |HappyGuidance| == 204;
    case Excited => assert |ExcitedGuidance| == 197;
    case Calm => assert |CalmGuidance| == 201;
    case Tired => assert |TiredGuidance| == 185;
    case Confused => assert |ConfusedGuidance| == 180;
    case Proud => assert |ProudGuidance| == 180;
  }

  /** A mood gets the default guidance exactly when its lower-case form is
      not one of the nine keys; otherwise it gets that key's guidance. */
  lemma BaseMessageLookup(mood: string)
    ensures BaseMessage(mood) == DefaultGuidance <==> MoodOfKey(Lower(mood)) == None
    ensures forall m :: Key(m) == Lower(mood) ==> BaseMessage(mood) == Guidance(m)
  {
    match MoodOfKey(Lower(mood))
    case Some(m) =>
      GuidanceDistinct(m, m);
      forall m' | Key(m') == Lower(mood)
        ensures BaseMessage(mood) == Guidance(m')
      {
        KeysReachable(m');
      }
    case None =>
  }

  /** Two moods get the same guidance exactly when they are equal up to case
      or both are unknown. */
  lemma BaseMessageEqualIff(a: string, b: string)
    ensures BaseMessage(a) == BaseMessage(b) <==>
              Lower(a) == Lower(b) || (MoodOfKey(Lower(a)) == None && MoodOfKey(Lower(b)) == None)
  {
    match (MoodOfKey(Lower(a)), MoodOfKey(Lower(b)))
    case (Some(m1), Some(m2)) => GuidanceDistinct(m1, m2);
    case (Some(m1), None) => GuidanceDistinct(m1, m1);
    case (None, Some(m2)) => GuidanceDistinct(m2, m2);
    case (None, None) =>
  }

  /** Lower-casing the mood first changes nothing. */
  lemma BaseMessageOfLower(mood: string)
    ensures BaseMessage(Lower(mood)) == BaseMessage(mood)
  {
    LowerIdempotent(mood);
  }

  /* ---------- Intensity bands ---------- */

  datatype Band = Light | Moderate | Intense

  /** The band of an intensity. Nothing restricts the intensity to 1..10:
      every integer falls in exactly one band. */
  function BandOf(intensity: int): (b: Band)
    ensures b == Light <==> intensity <= 3
    ensures b == Moderate <==> 4 <= intensity <= 6
    ensures b == Intense <==> 7 <= intensity
  {
    if intensity <= 3 then Light
    else if intensity <= 6 then Moderate
    else Intense
  }

  /** The sentence added for a band: it ends with a full stop, and the
      letter before that stop differs between bands. */
  function BandSuffix(b: Band): (r: string)
    ensures |r| >= 2 && r[|r| - 1] == '.'
    ensures r[|r| - 2] == Mark(b)
  {
    match b
    case Light => LightSuffix
    case Moderate => ModerateSuffix
    case Intense => IntenseSuffix
  }

  const LightSuffix: string := " L'émotion est légère, accompagne avec douceur."
  const ModerateSuffix: string := " L'émotion est modérée, sois présent et attentif."
  const IntenseSuffix: string :=
      " L'émotion est intense, "
      + "sois particulièrement bienveillant et offre un soutien fort."

  /** The fixed closing directive: language, tone and length of the answer. */
  const Closing: string :=
      " Réponds toujours en français avec chaleur et authenticité. "
      + "Limite tes réponses à 2-3 phrases maximum pour rester accessible."

  /* ---------- The system message ---------- */

  /** Guidance, then the suffix of the intensity's band, then the closing
      directive. The result is longer than the guidance and the closing
      directive together, starts with the one and ends with the other. */
  function Compose(base: string, intensity: int): (r: string)
    ensures |r| > |base| + |Closing|
    ensures base <= r && EndsWith(r, Closing)
  {
    base + BandSuffix(BandOf(intensity)) + Closing
  }

  /** The system instruction for a mood and an intensity. It is never empty,
      starts with the mood's guidance and ends with the closing directive. */
  function SystemMessage(mood: string, intensity: int): (r: string)
    ensures |r| > |Closing| && EndsWith(r, Closing)
    ensures BaseMessage(mood) <= r
  {
    Compose(BaseMessage(mood), intensity)
  }

  /** What follows the guidance in a system message of band `b`. */
  function Tail(b: Band): string
  {
    BandSuffix(b) + Closing
  }

  /** Splits a system message back into its guidance and its band. */
  function ParseSystemMessage(msg: string): Option<(string, Band)>
  {
    if EndsWith(msg, Tail(Light)) then Some((msg[..|msg| - |Tail(Light)|], Light))
    else if EndsWith(msg, Tail(Moderate)) then Some((msg[..|msg| - |Tail(Moderate)|], Moderate))
    else if EndsWith(msg, Tail(Intense)) then Some((msg[..|msg| - |Tail(Intense)|], Intense))
    else None
  }

  /** The letter just before the final full stop of each band suffix; the
      three bands differ in it. */
  function Mark(b: Band): char
  {
    match b
    case Light => 'r'
    case Moderate => 'f'
    case Intense => 't'
  }

  /** Where the mark of a band sits in its tail. */
  lemma TailShape(b: Band)
    ensures |Tail(b)| >= |Closing| + 2 && Tail(b)[|Tail(b)| - |Closing| - 2] == Mark(b)
  {
  }

  lemma TailMark(s: string, b: Band)
    requires EndsWith(s, Tail(b))
    ensures |s| >= |Closing| + 2 && s[|s| - |Closing| - 2] == Mark(b)
  {
    var t := Tail(b);
    TailShape(b);
    assert s[|s| - |Closing| - 2] == s[|s| - |t|..][|t| - |Closing| - 2];
  }

  /** Whatever the guidance, the composed text ends with the tail of its own
      band and with no other band's, and the guidance is what precedes it. */
  lemma ComposeTail(base: string, intensity: int, b: Band)
    ensures Compose(base, intensity) == base + Tail(BandOf(intensity))
    ensures EndsWith(Compose(base, intensity), Tail(b)) <==> b == BandOf(intensity)
  {
    var s := Compose(base, intensity);
    var own := BandOf(intensity);
    assert s == base + Tail(own);
    assert s[|s| - |Tail(own)|..] == Tail(own);
    TailMark(s, own);
    if EndsWith(s, Tail(b)) {
      TailMark(s, b);
    }
  }

  /** The suffix is chosen by the intensity alone: the light one up to 3
      (zero and negative values included), the moderate one from 4 to 6, the
      intense one from 7 on (values above 10 included). */
  lemma SystemMessageSuffix(mood: string, intensity: int)
    ensures EndsWith(SystemMessage(mood, intensity), LightSuffix + Closing) <==> intensity <= 3
    ensures EndsWith(SystemMessage(mood, intensity), ModerateSuffix + Closing) <==> 4 <= intensity <= 6
    ensures EndsWith(SystemMessage(mood, intensity), IntenseSuffix + Closing) <==> 7 <= intensity
  {
    var base := BaseMessage(mood);
    ComposeTail(base, intensity, Light);
    ComposeTail(base, intensity, Moderate);
    ComposeTail(base, intensity, Intense);
  }

  /** Parsing undoes composing, whatever the guidance. */
  lemma ComposeRoundTrip(base: string, intensity: int)
    ensures ParseSystemMessage(Compose(base, intensity)) == Some((base, BandOf(intensity)))
  {
    var s, b := Compose(base, intensity), BandOf(intensity);
    ComposeTail(base, intensity, Light);
    ComposeTail(base, intensity, Moderate);
    ComposeTail(base, intensity, Intense);
    assert s[..|s| - |Tail(b)|] == base;
  }

  /** A system message is exactly guidance + one band suffix + closing: the
      guidance and the band can be read back from it. */
  lemma SystemMessageRoundTrip(mood: string, intensity: int)
    ensures ParseSystemMessage(SystemMessage(mood, intensity)) == Some((BaseMessage(mood), BandOf(intensity)))
  {
    ComposeRoundTrip(BaseMessage(mood), intensity);
  }

  /** Two system messages are equal exactly when their guidances and their
      bands are. */
  lemma SystemMessageEqualIff(m1: string, i1: int, m2: string, i2: int)
    ensures SystemMessage(m1, i1) == SystemMessage(m2, i2) <==>
              BaseMessage(m1) == BaseMessage(m2) && BandOf(i1) == BandOf(i2)
  {
    SystemMessageRoundTrip(m1, i1);
    SystemMessageRoundTrip(m2, i2);
  }

  /** Moods equal up to case give the same system message. */
  lemma SystemMessageCaseInsensitive(a: string, b: string, intensity: int)
    requires Lower(a) == Lower(b)
    ensures SystemMessage(a, intensity) == SystemMessage(b, intensity)
  {
  }

  /** An upper-case mood finds its entry: `SAD` gets the guidance of `sad`. */
  lemma UpperCaseMood(intensity: int)
    ensures SystemMessage("SAD", intensity) == SystemMessage("sad", intensity)
    ensures BaseMessage("SAD") == SadGuidance
  {
    assert Lower("SAD") == "sad";
  }

  /** A mood outside the table gets the default guidance with its band suffix. */
  lemma UnknownMoodMessage(mood: string, intensity: int)
    requires MoodOfKey(Lower(mood)) == None
    ensures SystemMessage(mood, intensity) == DefaultGuidance + BandSuffix(BandOf(intensity)) + Closing
  {
  }

  /* ---------- The user text of a mood report ---------- */

  const Opening: string := "Je me sens "
  const WithMessageLead: string := " (intensité: "
  const WithMessageTail: string := "/10). "
  const NoMessageLead: string := " avec une intensité de "
  const NoMessageTail: string := "/10. Peux-tu m'aider ?"

  /** A message counts as given when it is present and non-empty. */
  predicate Given(message: Option<string>)
  {
    message.Some? && message.value != []
  }

  /** The user turn of a mood report. The mood is written as received, not
      lower-cased; the message, when given, closes the text. */
  function UserText(mood: string, intensity: int, message: Option<string>): (r: string)
    ensures Opening + mood + " " <= r
    ensures Given(message) ==> EndsWith(r, message.value)
    ensures !Given(message) ==> EndsWith(r, NoMessageTail)
  {
    var number := IntToDecimal(intensity);
    if Given(message) then
      Opening + mood + (WithMessageLead + (number + (WithMessageTail + message.value)))
    else
      Opening + mood + (NoMessageLead + (number + NoMessageTail))
  }

  /** Reads a decimal number that runs up to the first `/`, then `lead`
      (which starts with that `/`); yields the number and what follows. */
  function ParseNumberThen(body: string, lead: string): Option<(int, string)>
  {
    var k := FindFirst(body, '/');
    if !(lead <= body[k..]) then None
    else
      match ParseInt(body[..k])
      case Some(n) => Some((n, body[k + |lead|..]))
      case None => None
  }

  /** Reads the intensity and the message back from a user text, given the mood. */
  function ParseUserText(mood: string, text: string): Option<(int, Option<string>)>
  {
    var head := Opening + mood;
    if !(head <= text) then None
    else
      var rest := text[|head|..];
      if WithMessageLead <= rest then
        match ParseNumberThen(rest[|WithMessageLead|..], WithMessageTail)
        case Some((n, message)) => if message != [] then Some((n, Some(message))) else None
        case None => None
      else if NoMessageLead <= rest then
        match ParseNumberThen(rest[|NoMessageLead|..], NoMessageTail)
        case Some((n, after)) => if after == [] then Some((n, None)) else None
        case None => None
      else None
  }

  /** Splitting `a + b` after `a` gives back `a` and `b`. */
  lemma SplitConcat(a: string, b: string)
    ensures a <= a + b && (a + b)[|a|..] == b
  {
    assert (a + b)[..|a|] == a;
  }

  /** The decimal form of an intensity has no `/`, so the number and what
      follows it are read back. */
  lemma ParseNumberThenRoundTrip(intensity: int, lead: string, after: string)
    requires |lead| > 0 && lead[0] == '/'
    ensures ParseNumberThen(IntToDecimal(intensity) + (lead + after), lead) == Some((intensity, after))
  {
    var d := IntToDecimal(intensity);
    var body := d + (lead + after);
    assert body[|d|] == '/';
    var k := FindFirst(body, '/');
    assert k == |d|;
    SplitConcat(d, lead + after);
    SplitConcat(lead, after);
    assert body[..k] == d;
    IntToDecimalRoundTrip(intensity);
  }

  /** The form with a message reads back its intensity and its message. */
  lemma WithMessageRoundTrip(mood: string, intensity: int, m: string)
    requires m != []
    ensures ParseUserText(mood, Opening + mood + (WithMessageLead + (IntToDecimal(intensity) + (WithMessageTail + m))))
              == Some((intensity, Some(m)))
  {
    var head := Opening + mood;
    var d := IntToDecimal(intensity);
    var rest := WithMessageLead + (d + (WithMessageTail + m));
    SplitConcat(head, rest);
    SplitConcat(WithMessageLead, d + (WithMessageTail + m));
    ParseNumberThenRoundTrip(intensity, WithMessageTail, m);
  }

  /** The form without a message reads back its intensity. */
  lemma NoMessageRoundTrip(mood: string, intensity: int)
    ensures ParseUserText(mood, Opening + mood + (NoMessageLead + (IntToDecimal(intensity) + NoMessageTail)))
              == Some((intensity, None))
  {
    var head := Opening + mood;
    var d := IntToDecimal(intensity);
    var rest := NoMessageLead + (d + NoMessageTail);
    assert NoMessageTail + [] == NoMessageTail;
    SplitConcat(head, rest);
    assert !(WithMessageLead <= rest) by {
      assert rest[1] == 'a' && WithMessageLead[1] == '(';
    }
    SplitConcat(NoMessageLead, d + NoMessageTail);
    ParseNumberThenRoundTrip(intensity, NoMessageTail, []);
  }

  /** The user text keeps the intensity and the message: given the mood,
      both are read back, and an empty message reads back as no message. */
  lemma UserTextRoundTrip(mood: string, intensity: int, message: Option<string>)
    ensures ParseUserText(mood, UserText(mood, intensity, message)) ==
              Some((intensity, if Given(message) then message else None))
  {
    if Given(message) {
      WithMessageRoundTrip(mood, intensity, message.value);
    } else {
      NoMessageRoundTrip(mood, intensity);
    }
  }

  /** An absent and an empty message give the same user text. */
  lemma UserTextEmptyMessage(mood: string, intensity: int)
    ensures UserText(mood, intensity, Some("")) == UserText(mood, intensity, None)
  {
  }

  /* ---------- The mood context of a chat message ---------- */

  /** The `mood-intensity` label stored with a chat message; the mood is raw. */
  function MoodContext(mood: string, intensity: int): (r: string)
    ensures |r| > |mood| + 1 && r[..|mood|] == mood && r[|mood|] == '-'
    ensures ParseInt(r[|mood| + 1..]) == Some(intensity)
  {
    var r := mood + "-" + IntToDecimal(intensity);
    assert r[|mood| + 1..] == IntToDecimal(intensity);
    IntToDecimalRoundTrip(intensity);
    r
  }

  /** Splits a mood context at its last hyphen. */
  function ParseMoodContext(s: string): Option<(string, int)>
  {
    var k := FindLast(s, '-');
    if k < 0 then None
    else
      match ParseInt(s[k + 1..])
      case Some(n) => Some((s[..k], n))
      case None => None
  }

  /** For a non-negative intensity the label keeps both the mood and the
      intensity, whatever hyphens the mood itself contains. */
  lemma MoodContextRoundTrip(mood: string, intensity: int)
    requires 0 <= intensity
    ensures ParseMoodContext(MoodContext(mood, intensity)) == Some((mood, intensity))
  {
    var d := IntToDecimal(intensity);
    var s := MoodContext(mood, intensity);
    var k := FindLast(s, '-');
    assert s[|mood|] == '-';
    assert k == |mood|;
    assert s[k + 1..] == d;
    assert s[..k] == mood;
    IntToDecimalRoundTrip(intensity);
  }

  /** For a negative intensity the label is ambiguous: the mood `x` at -5
      and the mood `x-` at 5 are stored alike. */
  lemma MoodContextNegativeAmbiguity()
    ensures MoodContext("x", -5) == MoodContext("x-", 5)
  {
    assert IntToDecimal(5) == "5";
  }
}
